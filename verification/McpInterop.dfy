/**
 The interchange of MCP servers with Codex: what the exporter writes of a configured server, what the
 importer reads back, and so what of a server survives the trip.
 */
module McpInterop {
  import opened Ordering
  import opened Wrappers
  import T = Toml

  /** The two patterns that depend on library character classes and regular expressions. */
  datatype Rules = Rules(credential: (string, string) -> bool, space: char -> bool)

  datatype Transport = Stdio | Sse | StreamableHttp

  datatype Server = Server(
    transport: Option<Transport>, command: string, args: seq<string>, env: map<string, string>, cwd: string,
    url: string, headers: map<string, string>, timeout: int, tools: seq<string>)

  type Fields = seq<(string, T.Value)>

  // ---- texts ----

  predicate SafeText(s: string) {
    s != "" && T.IsSafe(s)
  }

  predicate SafeTexts(items: seq<string>) {
    forall i :: 0 <= i < |items| ==> SafeText(items[i])
  }

  predicate IsShell(c: char) {
    c in {';', '$', '`', '|', '&', '<', '>', '(', ')', '{', '}'}
  }

  predicate SafeCommand(rules: Rules, s: string) {
    SafeText(s) && forall i :: 0 <= i < |s| ==> !rules.space(s[i]) && !IsShell(s[i])
  }

  /** The part of a URL before its first slash. */
  function Authority(s: string): string {
    if s == "" || s[0] == '/' then "" else [s[0]] + Authority(s[1..])
  }

  predicate SafeUrl(s: string) {
    && SafeText(s)
    && (("https://" <= s && '@' !in Authority(s[8..])) || ("http://" <= s && '@' !in Authority(s[7..])))
  }

  predicate IsNameStart(c: char) {
    'A' <= c <= 'Z' || 'a' <= c <= 'z' || c == '_'
  }

  predicate EnvName(s: string) {
    s != "" && IsNameStart(s[0]) && forall i :: 0 <= i < |s| ==> IsNameStart(s[i]) || '0' <= s[i] <= '9'
  }

  /** The variable a value refers to, when it is nothing but one reference. */
  function Reference(s: string): Option<string> {
    if |s| > 3 && s[..2] == "${" && s[|s| - 1] == '}' && EnvName(s[2..|s| - 1]) then Some(s[2..|s| - 1]) else None
  }

  function Ref(name: string): string {
    "${" + (name + "}")
  }

  lemma RefRefers(name: string)
    ensures EnvName(name) ==> Reference(Ref(name)) == Some(name)
  {
    assert Ref(name)[2..|Ref(name)| - 1] == name;
  }

  lemma ReferenceRefs(s: string)
    ensures Reference(s).Some? ==> s == Ref(Reference(s).value) && EnvName(Reference(s).value)
  {
  }

  // ---- export ----

  /** Whether Codex is told to inherit a variable: a valid name whose value does not rename another. */
  predicate Inherited(env: map<string, string>, key: string)
    requires key in env
  {
    EnvName(key) && (Reference(env[key]).Some? ==> Reference(env[key]).value == key)
  }

  predicate EnvOk(env: map<string, string>) {
    forall key :: key in env && EnvName(key) ==> SafeText(env[key])
  }

  /** The keys that pass a test, in order. */
  function Chosen(keys: seq<string>, test: string -> bool): seq<string> {
    if keys == [] then [] else (if test(keys[0]) then [keys[0]] else []) + Chosen(keys[1..], test)
  }

  function IsInherited(env: map<string, string>): string -> bool {
    key => key in env && Inherited(env, key)
  }

  ghost function InheritedNames(env: map<string, string>): seq<string> {
    Chosen(SortedOf(env.Keys), IsInherited(env))
  }

  predicate HeadersOk(headers: map<string, string>) {
    forall key :: key in headers ==> SafeText(key) && SafeText(headers[key])
  }

  predicate LiteralHeader(rules: Rules, headers: map<string, string>, key: string)
    requires key in headers
  {
    !rules.credential(key, headers[key]) && Reference(headers[key]).None?
  }

  predicate EnvHeader(rules: Rules, headers: map<string, string>, key: string)
    requires key in headers
  {
    !rules.credential(key, headers[key]) && Reference(headers[key]).Some?
  }

  function Lookups(keys: seq<string>, values: map<string, string>): seq<(string, string)> {
    if keys == [] then []
    else (if keys[0] in values then [(keys[0], values[keys[0]])] else []) + Lookups(keys[1..], values)
  }

  function IsLiteral(rules: Rules, headers: map<string, string>): string -> bool {
    key => key in headers && LiteralHeader(rules, headers, key)
  }

  function IsVariable(rules: Rules, headers: map<string, string>): string -> bool {
    key => key in headers && EnvHeader(rules, headers, key)
  }

  ghost function LiteralHeaders(rules: Rules, headers: map<string, string>): seq<(string, string)> {
    Lookups(Chosen(SortedOf(headers.Keys), IsLiteral(rules, headers)), headers)
  }

  function Variables(headers: map<string, string>): map<string, string> {
    map key | key in headers && Reference(headers[key]).Some? :: Reference(headers[key]).value
  }

  ghost function EnvHeaders(rules: Rules, headers: map<string, string>): seq<(string, string)> {
    Lookups(Chosen(SortedOf(headers.Keys), IsVariable(rules, headers)), Variables(headers))
  }

  function Values(entries: seq<(string, string)>): set<string> {
    set e | e in entries :: e.1
  }

  /** A field that is only written when there is something to say. */
  datatype Field = Field(key: string, present: bool, value: T.Value)

  function Written(fields: seq<Field>): Fields {
    if fields == [] then []
    else (if fields[0].present then [(fields[0].key, fields[0].value)] else []) + Written(fields[1..])
  }

  function Kind(server: Server): Transport {
    if server.transport.Some? then server.transport.value else if server.url != "" then StreamableHttp else Stdio
  }

  predicate Common(server: Server) {
    1 <= server.timeout <= 600 && SafeTexts(server.tools)
  }

  /** The checks that _render_stdio_server and _render_http_server raise on. */
  predicate Renderable(rules: Rules, project: Option<string>, server: Server) {
    && Common(server)
    && match Kind(server)
       case Stdio =>
         && SafeCommand(rules, server.command) && SafeTexts(server.args)
         && (project.None? && server.cwd != "" ==> SafeText(server.cwd)) && EnvOk(server.env)
       case StreamableHttp => SafeUrl(server.url) && HeadersOk(server.headers)
       case Sse => false
  }

  function Directory(project: Option<string>, server: Server): string {
    if project.Some? then project.value else server.cwd
  }

  function StdioFields(server: Server, cwd: string, names: seq<string>): seq<Field>
    requires server.timeout >= 0
  {
    [Field("command", true, T.Text(server.command)), Field("args", server.args != [], T.Array(server.args)),
     Field("cwd", cwd != "", T.Text(cwd)), Field("enabled", true, T.Flag(true)),
     Field("tool_timeout_sec", true, T.Number(server.timeout)),
     Field("enabled_tools", server.tools != [], T.Array(server.tools)), Field("env_vars", names != [], T.Array(names))]
  }

  function HttpFields(server: Server, names: seq<string>, literal: seq<(string, string)>, variables: seq<(string, string)>)
    : seq<Field>
    requires server.timeout >= 0
  {
    [Field("url", true, T.Text(server.url)), Field("enabled", true, T.Flag(true)),
     Field("tool_timeout_sec", true, T.Number(server.timeout)),
     Field("enabled_tools", server.tools != [], T.Array(server.tools)), Field("env_vars", variables != [], T.Array(names)),
     Field("http_headers", literal != [], T.Table(literal)), Field("env_http_headers", variables != [], T.Table(variables))]
  }

  ghost function Prepared(rules: Rules, project: Option<string>, server: Server): seq<Field>
    requires Renderable(rules, project, server)
  {
    if Kind(server).Stdio? then StdioFields(server, Directory(project, server), InheritedNames(server.env))
    else
      var variables := EnvHeaders(rules, server.headers);
      HttpFields(server, SortedOf(Values(variables)), LiteralHeaders(rules, server.headers), variables)
  }

  ghost function Render(rules: Rules, project: Option<string>, server: Server): Fields
    requires Renderable(rules, project, server)
  {
    Written(Prepared(rules, project, server))
  }

  predicate Exported(rules: Rules, project: Option<string>, servers: map<string, Server>, name: string) {
    name in servers && SafeText(name) && Renderable(rules, project, servers[name])
  }

  /** A server that cannot be rendered is left out with a warning. */
  ghost function SectionOf(rules: Rules, project: Option<string>, servers: map<string, Server>, name: string): seq<T.Section> {
    if Exported(rules, project, servers, name) then [T.Section(name, Render(rules, project, servers[name]))] else []
  }

  ghost function Sections(rules: Rules, project: Option<string>, servers: map<string, Server>, names: seq<string>): seq<T.Section> {
    if names == [] then []
    else SectionOf(rules, project, servers, names[0]) + Sections(rules, project, servers, names[1..])
  }

  // ---- import ----

  function Get(fields: Fields, key: string): Option<T.Value> {
    if fields == [] then None else if fields[0].0 == key then Some(fields[0].1) else Get(fields[1..], key)
  }

  function GetText(fields: Fields, key: string): string {
    match Get(fields, key)
    case Some(Text(s)) => s
    case _ => ""
  }

  function GetTexts(fields: Fields, key: string): seq<string> {
    match Get(fields, key)
    case Some(Array(items)) => items
    case _ => []
  }

  function GetTable(fields: Fields, key: string): seq<(string, string)> {
    match Get(fields, key)
    case Some(Table(entries)) => entries
    case _ => []
  }

  function EnvOf(names: seq<string>, env: map<string, string>): map<string, string> {
    if names == [] then env
    else EnvOf(names[1..], if EnvName(names[0]) then env[names[0] := Ref(names[0])] else env)
  }

  function EnvFrom(entries: seq<(string, string)>, env: map<string, string>): map<string, string> {
    if entries == [] then env
    else
      var (name, value) := entries[0];
      EnvFrom(entries[1..],
              if !EnvName(name) then env else env[name := if Reference(value).Some? then value else Ref(name)])
  }

  function ImportedEnv(fields: Fields): map<string, string> {
    EnvFrom(GetTable(fields, "env"), EnvOf(GetTexts(fields, "env_vars"), map[]))
  }

  function LiteralsFrom(rules: Rules, entries: seq<(string, string)>, headers: map<string, string>): map<string, string> {
    if entries == [] then headers
    else
      var (key, value) := entries[0];
      LiteralsFrom(rules, entries[1..],
                   if T.IsSafe(key) && T.IsSafe(value) && !rules.credential(key, value) then headers[key := value] else headers)
  }

  function VariablesFrom(rules: Rules, entries: seq<(string, string)>, headers: map<string, string>): map<string, string> {
    if entries == [] then headers
    else
      var (key, name) := entries[0];
      VariablesFrom(rules, entries[1..],
                    if T.IsSafe(key) && T.IsSafe(name) && !rules.credential(key, name) && EnvName(name)
                    then headers[key := Ref(name)] else headers)
  }

  function ImportedHeaders(rules: Rules, fields: Fields): map<string, string> {
    var named := VariablesFrom(rules, GetTable(fields, "env_http_headers"),
                               LiteralsFrom(rules, GetTable(fields, "http_headers"), map[]));
    var bearer := GetText(fields, "bearer_token_env_var");
    if EnvName(bearer) then named["Authorization" := "Bearer " + Ref(bearer)] else named
  }

  /** A boolean or negative timeout counts as missing; the numbers read here are never negative. */
  function ImportedTimeout(fields: Fields): int {
    match Get(fields, "tool_timeout_sec")
    case Some(Number(n)) => n
    case _ => 30
  }

  function ImportedTools(fields: Fields): seq<string> {
    if GetTexts(fields, "enabled_tools") == [] then ["*"] else GetTexts(fields, "enabled_tools")
  }

  /** _import_server: outer None where it raises, inner None for neither or both transports. */
  function ImportServer(rules: Rules, fields: Fields): Option<Option<Server>> {
    var url, command := GetText(fields, "url"), GetText(fields, "command");
    if (url != "") == (command != "") then Some(None)
    else if url != "" then
      if !SafeUrl(url) then None
      else
        Some(Some(Server(Some(StreamableHttp), "", [], map[], "", url, ImportedHeaders(rules, fields),
                         ImportedTimeout(fields), ImportedTools(fields))))
    else
      var args, cwd := GetTexts(fields, "args"), GetText(fields, "cwd");
      if !SafeCommand(rules, command) || !SafeTexts(args) || (cwd != "" && !SafeText(cwd)) then None
      else
        Some(Some(Server(Some(Stdio), command, args, ImportedEnv(fields), cwd, "", map[],
                         ImportedTimeout(fields), ImportedTools(fields))))
  }

  function ImportAll(rules: Rules, sections: seq<T.Section>, servers: map<string, Server>): Option<map<string, Server>> {
    if sections == [] then Some(servers)
    else
      var s := sections[0];
      if !SafeText(s.name) then None
      else if Get(s.fields, "enabled") == Some(T.Flag(false)) then ImportAll(rules, sections[1..], servers)
      else
        match ImportServer(rules, s.fields)
        case None => None
        case Some(None) => ImportAll(rules, sections[1..], servers)
        case Some(Some(server)) => ImportAll(rules, sections[1..], servers[s.name := server])
  }

  function Import(rules: Rules, text: string): Option<map<string, Server>> {
    match T.Loads(text)
    case None => None
    case Some(sections) => ImportAll(rules, sections, map[])
  }

  // ---- chosen keys and their values ----

  lemma {:induction false} ChosenAre(keys: seq<string>, test: string -> bool)
    ensures forall k :: k in Chosen(keys, test) <==> k in keys && test(k)
    ensures Distinct(keys) ==> Distinct(Chosen(keys, test))
  {
    if keys != [] {
      ChosenAre(keys[1..], test);
      if Distinct(keys) {
        forall j | 0 <= j < |Chosen(keys[1..], test)| ensures Chosen(keys[1..], test)[j] != keys[0] {
          assert Chosen(keys[1..], test)[j] in keys[1..];
        }
      }
    }
  }

  lemma {:induction false} LookupsAre(keys: seq<string>, values: map<string, string>)
    requires forall i :: 0 <= i < |keys| ==> keys[i] in values
    ensures |Lookups(keys, values)| == |keys|
    ensures forall i :: 0 <= i < |keys| ==> Lookups(keys, values)[i] == (keys[i], values[keys[i]])
  {
    if keys != [] { LookupsAre(keys[1..], values); }
  }

  // ---- written fields ----

  predicate KeysApart(fields: seq<Field>) {
    forall i, j :: 0 <= i < j < |fields| ==> fields[i].key != fields[j].key
  }

  lemma FirstGets(first: string, value: T.Value, rest: Fields, key: string)
    ensures Get([(first, value)] + rest, key) == if first == key then Some(value) else Get(rest, key)
  {
    assert ([(first, value)] + rest)[1..] == rest;
  }

  lemma {:induction false} WrittenIsIn(fields: seq<Field>, key: string)
    requires forall i :: 0 <= i < |fields| ==> fields[i].key != key
    ensures Get(Written(fields), key).None? && forall i :: 0 <= i < |Written(fields)| ==> Written(fields)[i].0 != key
  {
    if fields != [] {
      WrittenIsIn(fields[1..], key);
      FirstGets(fields[0].key, fields[0].value, Written(fields[1..]), key);
      assert [] + Written(fields[1..]) == Written(fields[1..]);
    }
  }

  lemma {:induction false} WrittenGets(fields: seq<Field>, i: nat)
    requires KeysApart(fields) && i < |fields|
    ensures Get(Written(fields), fields[i].key) == if fields[i].present then Some(fields[i].value) else None
  {
    FirstGets(fields[0].key, fields[0].value, Written(fields[1..]), fields[i].key);
    if i == 0 {
      WrittenIsIn(fields[1..], fields[0].key);
      assert [] + Written(fields[1..]) == Written(fields[1..]);
    } else {
      WrittenGets(fields[1..], i - 1);
      assert fields[1..][i - 1] == fields[i];
      assert [] + Written(fields[1..]) == Written(fields[1..]);
    }
  }

  predicate FieldOk(f: Field) {
    T.IsBareKey(f.key) && (f.present ==> T.Printable(f.value))
  }

  lemma {:induction false} WrittenIsWritable(fields: seq<Field>)
    requires KeysApart(fields) && forall i :: 0 <= i < |fields| ==> FieldOk(fields[i])
    ensures T.DistinctKeys(Written(fields)) && T.FieldsOk(Written(fields))
  {
    if fields != [] {
      WrittenIsWritable(fields[1..]);
      WrittenIsIn(fields[1..], fields[0].key);
    }
  }

  /** Two keys of different lengths or initials. */
  predicate Differ(a: string, b: string) {
    |a| != |b| || (a != "" && a[0] != b[0])
  }

  predicate AllDiffer(keys: seq<string>) {
    forall i, j :: 0 <= i < j < |keys| ==> Differ(keys[i], keys[j])
  }

  function StdioNames(): seq<string> {
    ["command", "args", "cwd", "enabled", "tool_timeout_sec", "enabled_tools", "env_vars"]
  }

  function HttpNames(): seq<string> {
    ["url", "enabled", "tool_timeout_sec", "enabled_tools", "env_vars", "http_headers", "env_http_headers"]
  }

  lemma NamesDiffer()
    ensures AllDiffer(StdioNames()) && AllDiffer(HttpNames())
  {
  }

  lemma NamesAreBare()
    ensures forall i :: 0 <= i < 7 ==> T.IsBareKey(StdioNames()[i])
    ensures forall i :: 0 <= i < 7 ==> T.IsBareKey(HttpNames()[i])
  {
  }

  predicate Named(fields: seq<Field>, keys: seq<string>) {
    |fields| == |keys| && forall i :: 0 <= i < |keys| ==> fields[i].key == keys[i]
  }

  lemma NamedApart(fields: seq<Field>, keys: seq<string>)
    requires Named(fields, keys) && AllDiffer(keys)
    ensures KeysApart(fields)
  {
    forall i, j | 0 <= i < j < |fields| ensures fields[i].key != fields[j].key {
      assert Differ(keys[i], keys[j]);
    }
  }

  // ---- what survives ----

  /** Inherited variables come back as references to themselves. */
  function KeptEnv(env: map<string, string>): map<string, string> {
    map k | k in env && Inherited(env, k) :: Ref(k)
  }

  predicate KeptHeader(rules: Rules, headers: map<string, string>, key: string)
    requires key in headers
  {
    && !rules.credential(key, headers[key])
    && (Reference(headers[key]).Some? ==> !rules.credential(key, Reference(headers[key]).value))
  }

  function KeptHeaders(rules: Rules, headers: map<string, string>): map<string, string> {
    map k | k in headers && KeptHeader(rules, headers, k) :: headers[k]
  }

  function KeptTools(tools: seq<string>): seq<string> {
    if tools == [] then ["*"] else tools
  }

  function Kept(rules: Rules, project: Option<string>, server: Server): Server {
    if Kind(server).Stdio? then
      Server(Some(Stdio), server.command, server.args, KeptEnv(server.env), Directory(project, server), "", map[],
             server.timeout, KeptTools(server.tools))
    else
      Server(Some(StreamableHttp), "", [], map[], "", server.url, KeptHeaders(rules, server.headers),
             server.timeout, KeptTools(server.tools))
  }

  lemma {:induction false} EnvOfNames(names: seq<string>, env: map<string, string>, k: string)
    ensures k in EnvOf(names, env) <==> k in env || (k in names && EnvName(k))
    ensures k in EnvOf(names, env) ==> EnvOf(names, env)[k] == if k in names && EnvName(k) then Ref(k) else env[k]
  {
    if names != [] {
      EnvOfNames(names[1..], if EnvName(names[0]) then env[names[0] := Ref(names[0])] else env, k);
    }
  }

  lemma InheritedNamesAre(env: map<string, string>)
    ensures forall k :: k in InheritedNames(env) <==> k in env && Inherited(env, k)
    ensures Distinct(InheritedNames(env))
  {
    ChosenAre(SortedOf(env.Keys), IsInherited(env));
    assert forall k :: k in SortedOf(env.Keys) <==> k in Items(SortedOf(env.Keys));
  }

  lemma EnvSurvives(env: map<string, string>)
    ensures EnvOf(InheritedNames(env), map[]) == KeptEnv(env)
  {
    InheritedNamesAre(env);
    forall k: string ensures k in EnvOf(InheritedNames(env), map[]) <==> k in KeptEnv(env) {
      EnvOfNames(InheritedNames(env), map[], k);
    }
    forall k | k in KeptEnv(env) ensures EnvOf(InheritedNames(env), map[])[k] == KeptEnv(env)[k] {
      EnvOfNames(InheritedNames(env), map[], k);
    }
  }

  /** The entries as a lookup by key, for lists with one entry for each key. */
  predicate Lists(entries: seq<(string, string)>, values: map<string, string>) {
    && T.DistinctKeys(entries)
    && (forall i :: 0 <= i < |entries| ==> entries[i].0 in values && values[entries[i].0] == entries[i].1)
    && (forall k :: k in values ==> (k, values[k]) in entries)
  }

  lemma ListsRest(entries: seq<(string, string)>, values: map<string, string>)
    requires Lists(entries, values) && entries != []
    ensures Lists(entries[1..], values - {entries[0].0})
  {
    var rest := values - {entries[0].0};
    forall k | k in rest ensures (k, rest[k]) in entries[1..] {
      var i :| 0 <= i < |entries| && entries[i] == (k, values[k]);
      assert entries[1..][i - 1] == entries[i];
    }
  }

  lemma {:induction false} LiteralsAre(rules: Rules, entries: seq<(string, string)>, values: map<string, string>,
                                       headers: map<string, string>)
    requires Lists(entries, values)
    requires forall k :: k in values ==> T.IsSafe(k) && T.IsSafe(values[k]) && !rules.credential(k, values[k])
    ensures LiteralsFrom(rules, entries, headers) == headers + values
    decreases |entries|
  {
    if entries == [] {
      assert values == map[];
    } else {
      var (key, value) := entries[0];
      ListsRest(entries, values);
      LiteralsAre(rules, entries[1..], values - {key}, headers[key := value]);
      assert headers[key := value] + (values - {key}) == headers + values;
    }
  }

  /** References that pass the importer's own credential check. */
  function Referring(rules: Rules, variables: map<string, string>): map<string, string> {
    map k | k in variables && !rules.credential(k, variables[k]) :: Ref(variables[k])
  }

  lemma ReferringRest(rules: Rules, variables: map<string, string>, key: string)
    requires key in variables
    ensures Referring(rules, variables)
         == if rules.credential(key, variables[key]) then Referring(rules, variables - {key})
            else Referring(rules, variables - {key})[key := Ref(variables[key])]
  {
  }

  lemma {:induction false} VariablesAre(rules: Rules, entries: seq<(string, string)>, variables: map<string, string>,
                                        headers: map<string, string>)
    requires Lists(entries, variables)
    requires forall k :: k in variables ==> T.IsSafe(k) && T.IsSafe(variables[k]) && EnvName(variables[k])
    ensures VariablesFrom(rules, entries, headers) == headers + Referring(rules, variables)
    decreases |entries|
  {
    if entries == [] {
      assert Referring(rules, variables) == map[];
    } else {
      var (key, name) := entries[0];
      var rest := variables - {key};
      ListsRest(entries, variables);
      ReferringRest(rules, variables, key);
      var more := if rules.credential(key, name) then headers else headers[key := Ref(name)];
      VariablesAre(rules, entries[1..], rest, more);
      Overlays(headers, Referring(rules, rest), key, Ref(name));
    }
  }

  lemma Overlays(a: map<string, string>, b: map<string, string>, key: string, value: string)
    requires key !in b
    ensures a[key := value] + b == a + b[key := value]
  {
  }

  lemma {:induction false} LookupsList(keys: seq<string>, values: map<string, string>)
    requires Distinct(keys) && Items(keys) <= values.Keys
    ensures Lists(Lookups(keys, values), map k | k in keys :: values[k])
  {
    forall i | 0 <= i < |keys| ensures keys[i] in values { assert keys[i] in Items(keys); }
    LookupsAre(keys, values);
    var found := map k | k in keys :: values[k];
    forall k | k in found ensures (k, found[k]) in Lookups(keys, values) {
      var i :| 0 <= i < |keys| && keys[i] == k;
      assert Lookups(keys, values)[i] == (k, found[k]);
    }
  }

  function Literal(rules: Rules, headers: map<string, string>): map<string, string> {
    map k | k in headers && LiteralHeader(rules, headers, k) :: headers[k]
  }

  function Variable(rules: Rules, headers: map<string, string>): map<string, string> {
    map k | k in headers && EnvHeader(rules, headers, k) :: Reference(headers[k]).value
  }

  lemma SortedKeys(values: map<string, string>)
    ensures forall k :: k in SortedOf(values.Keys) <==> k in values
    ensures Distinct(SortedOf(values.Keys))
  {
    assert forall k :: k in SortedOf(values.Keys) <==> k in Items(SortedOf(values.Keys));
  }

  lemma LiteralsList(rules: Rules, headers: map<string, string>)
    ensures Lists(LiteralHeaders(rules, headers), Literal(rules, headers))
  {
    var keys := SortedOf(headers.Keys);
    SortedKeys(headers);
    var literal := Chosen(keys, IsLiteral(rules, headers));
    ChosenAre(keys, IsLiteral(rules, headers));
    LookupsList(literal, headers);
    assert (map k | k in literal :: headers[k]) == Literal(rules, headers);
  }

  lemma VariablesList(rules: Rules, headers: map<string, string>)
    ensures Lists(EnvHeaders(rules, headers), Variable(rules, headers))
  {
    var keys := SortedOf(headers.Keys);
    SortedKeys(headers);
    var variables := Chosen(keys, IsVariable(rules, headers));
    ChosenAre(keys, IsVariable(rules, headers));
    LookupsList(variables, Variables(headers));
    assert (map k | k in variables :: Variables(headers)[k]) == Variable(rules, headers);
  }

  lemma HeadersList(rules: Rules, headers: map<string, string>)
    ensures Lists(LiteralHeaders(rules, headers), Literal(rules, headers))
    ensures Lists(EnvHeaders(rules, headers), Variable(rules, headers))
  {
    LiteralsList(rules, headers);
    VariablesList(rules, headers);
  }

  lemma NamesAreSafe(s: string)
    ensures EnvName(s) ==> T.IsSafe(s)
  {
  }

  lemma VariablesRefer(rules: Rules, headers: map<string, string>, k: string)
    requires k in Variable(rules, headers)
    ensures var name := Variable(rules, headers)[k]; EnvName(name) && T.IsSafe(name) && Ref(name) == headers[k]
  {
    ReferenceRefs(headers[k]);
    NamesAreSafe(Variable(rules, headers)[k]);
  }

  lemma KeptSplits(rules: Rules, headers: map<string, string>)
    ensures Literal(rules, headers) + Referring(rules, Variable(rules, headers)) == KeptHeaders(rules, headers)
  {
    var both := Literal(rules, headers) + Referring(rules, Variable(rules, headers));
    forall k | k in headers
      ensures k in both <==> k in KeptHeaders(rules, headers)
      ensures k in both ==> both[k] == headers[k]
    {
      if k in Variable(rules, headers) { VariablesRefer(rules, headers, k); }
    }
    assert both.Keys == KeptHeaders(rules, headers).Keys;
  }

  lemma LiteralsSurvive(rules: Rules, headers: map<string, string>)
    requires HeadersOk(headers)
    ensures LiteralsFrom(rules, LiteralHeaders(rules, headers), map[]) == Literal(rules, headers)
  {
    LiteralsList(rules, headers);
    LiteralsAre(rules, LiteralHeaders(rules, headers), Literal(rules, headers), map[]);
    assert map[] + Literal(rules, headers) == Literal(rules, headers);
  }

  lemma VariablesSurvive(rules: Rules, headers: map<string, string>, before: map<string, string>)
    requires HeadersOk(headers)
    ensures VariablesFrom(rules, EnvHeaders(rules, headers), before) == before + Referring(rules, Variable(rules, headers))
  {
    VariablesList(rules, headers);
    forall k | k in Variable(rules, headers)
      ensures T.IsSafe(k) && EnvName(Variable(rules, headers)[k]) && T.IsSafe(Variable(rules, headers)[k])
    {
      assert SafeText(k);
      VariablesRefer(rules, headers, k);
    }
    VariablesAre(rules, EnvHeaders(rules, headers), Variable(rules, headers), before);
  }

  lemma HeadersSurvive(rules: Rules, headers: map<string, string>)
    requires HeadersOk(headers)
    ensures VariablesFrom(rules, EnvHeaders(rules, headers), LiteralsFrom(rules, LiteralHeaders(rules, headers), map[]))
         == KeptHeaders(rules, headers)
  {
    LiteralsSurvive(rules, headers);
    VariablesSurvive(rules, headers, Literal(rules, headers));
    KeptSplits(rules, headers);
  }

  // ---- one server ----

  lemma InheritedAreSafe(env: map<string, string>)
    ensures forall i :: 0 <= i < |InheritedNames(env)| ==> T.IsSafe(InheritedNames(env)[i])
  {
    InheritedNamesAre(env);
    forall i | 0 <= i < |InheritedNames(env)| ensures T.IsSafe(InheritedNames(env)[i]) {
      assert InheritedNames(env)[i] in InheritedNames(env);
      NamesAreSafe(InheritedNames(env)[i]);
    }
  }

  predicate SafeEntries(entries: seq<(string, string)>) {
    forall i :: 0 <= i < |entries| ==> T.IsSafe(entries[i].0) && T.IsSafe(entries[i].1)
  }

  lemma HeadersAreSafe(rules: Rules, headers: map<string, string>)
    requires HeadersOk(headers)
    ensures SafeEntries(LiteralHeaders(rules, headers)) && SafeEntries(EnvHeaders(rules, headers))
  {
    HeadersList(rules, headers);
    var variables := EnvHeaders(rules, headers);
    forall i | 0 <= i < |variables| ensures T.IsSafe(variables[i].0) && T.IsSafe(variables[i].1) {
      assert SafeText(variables[i].0);
      VariablesRefer(rules, headers, variables[i].0);
    }
    var literal := LiteralHeaders(rules, headers);
    forall i | 0 <= i < |literal| ensures T.IsSafe(literal[i].0) && T.IsSafe(literal[i].1) {
      assert SafeText(literal[i].0) && SafeText(headers[literal[i].0]);
    }
  }

  lemma ValuesAreSafe(entries: seq<(string, string)>)
    requires SafeEntries(entries)
    ensures var sorted := SortedOf(Values(entries)); forall i :: 0 <= i < |sorted| ==> T.IsSafe(sorted[i])
  {
    var sorted := SortedOf(Values(entries));
    forall i | 0 <= i < |sorted| ensures T.IsSafe(sorted[i]) {
      assert sorted[i] in Items(sorted);
      var e :| e in entries && e.1 == sorted[i];
      var j :| 0 <= j < |entries| && entries[j] == e;
    }
  }

  lemma ValuesRemain(entries: seq<(string, string)>)
    ensures entries != [] ==> SortedOf(Values(entries)) != []
  {
    if entries != [] {
      assert entries[0] in entries && entries[0].1 in Values(entries);
      assert entries[0].1 in Items(SortedOf(Values(entries)));
    }
  }

  lemma StdioWritable(server: Server, cwd: string, names: seq<string>)
    requires server.timeout >= 0 && T.IsSafe(server.command) && T.IsSafe(cwd)
    requires SafeTexts(server.args) && SafeTexts(server.tools) && forall i :: 0 <= i < |names| ==> T.IsSafe(names[i])
    ensures var fields := Written(StdioFields(server, cwd, names)); T.DistinctKeys(fields) && T.FieldsOk(fields)
    ensures KeysApart(StdioFields(server, cwd, names))
  {
    var f := StdioFields(server, cwd, names);
    NamesDiffer();
    NamesAreBare();
    NamedApart(f, StdioNames());
    forall i | 0 <= i < 7 ensures FieldOk(f[i]) {
      assert f[i].key == StdioNames()[i];
    }
    WrittenIsWritable(f);
  }

  lemma HttpWritable(server: Server, names: seq<string>, literal: seq<(string, string)>, variables: seq<(string, string)>)
    requires server.timeout >= 0 && T.IsSafe(server.url) && SafeTexts(server.tools)
    requires (forall i :: 0 <= i < |names| ==> T.IsSafe(names[i])) && (variables != [] ==> names != [])
    requires SafeEntries(literal) && SafeEntries(variables) && T.DistinctKeys(literal) && T.DistinctKeys(variables)
    ensures var fields := Written(HttpFields(server, names, literal, variables)); T.DistinctKeys(fields) && T.FieldsOk(fields)
    ensures KeysApart(HttpFields(server, names, literal, variables))
  {
    var f := HttpFields(server, names, literal, variables);
    NamesDiffer();
    NamesAreBare();
    NamedApart(f, HttpNames());
    forall i | 0 <= i < 7 ensures FieldOk(f[i]) {
      assert f[i].key == HttpNames()[i];
    }
    WrittenIsWritable(f);
  }

  lemma Absent(fields: seq<Field>, keys: seq<string>, key: string)
    requires Named(fields, keys) && forall i :: 0 <= i < |keys| ==> Differ(keys[i], key)
    ensures Get(Written(fields), key).None?
  {
    forall i | 0 <= i < |fields| ensures fields[i].key != key { assert Differ(keys[i], key); }
    WrittenIsIn(fields, key);
  }

  lemma StdioReads(rules: Rules, server: Server, cwd: string, names: seq<string>)
    requires server.timeout >= 0 && KeysApart(StdioFields(server, cwd, names))
    ensures var w := Written(StdioFields(server, cwd, names));
            && GetText(w, "command") == server.command && GetTexts(w, "args") == server.args && GetText(w, "cwd") == cwd
            && Get(w, "enabled") == Some(T.Flag(true)) && ImportedTimeout(w) == server.timeout
            && ImportedTools(w) == KeptTools(server.tools) && GetTexts(w, "env_vars") == names
            && GetText(w, "url") == "" && GetTable(w, "env") == []
  {
    var f := StdioFields(server, cwd, names);
    WrittenGets(f, 0);
    WrittenGets(f, 1);
    WrittenGets(f, 2);
    WrittenGets(f, 3);
    WrittenGets(f, 4);
    WrittenGets(f, 5);
    WrittenGets(f, 6);
    Absent(f, StdioNames(), "url");
    Absent(f, StdioNames(), "env");
  }

  lemma HttpReads(rules: Rules, server: Server, names: seq<string>, literal: seq<(string, string)>, variables: seq<(string, string)>)
    requires server.timeout >= 0 && KeysApart(HttpFields(server, names, literal, variables))
    ensures var w := Written(HttpFields(server, names, literal, variables));
            && GetText(w, "url") == server.url && Get(w, "enabled") == Some(T.Flag(true))
            && ImportedTimeout(w) == server.timeout && ImportedTools(w) == KeptTools(server.tools)
            && GetTable(w, "http_headers") == literal && GetTable(w, "env_http_headers") == variables
            && GetText(w, "command") == "" && GetText(w, "bearer_token_env_var") == ""
  {
    var f := HttpFields(server, names, literal, variables);
    WrittenGets(f, 0);
    WrittenGets(f, 1);
    WrittenGets(f, 2);
    WrittenGets(f, 3);
    WrittenGets(f, 5);
    WrittenGets(f, 6);
    Absent(f, HttpNames(), "command");
    Absent(f, HttpNames(), "bearer_token_env_var");
  }

  predicate Outfitted(project: Option<string>) {
    project.Some? ==> SafeText(project.value)
  }

  lemma StdioSurvives(rules: Rules, project: Option<string>, server: Server)
    requires Renderable(rules, project, server) && Kind(server).Stdio? && Outfitted(project)
    ensures var w := Render(rules, project, server);
            && T.DistinctKeys(w) && T.FieldsOk(w) && Get(w, "enabled") == Some(T.Flag(true))
            && ImportServer(rules, w) == Some(Some(Kept(rules, project, server)))
  {
    var cwd, names := Directory(project, server), InheritedNames(server.env);
    InheritedAreSafe(server.env);
    StdioWritable(server, cwd, names);
    StdioReads(rules, server, cwd, names);
    EnvSurvives(server.env);
    assert EnvFrom([], EnvOf(names, map[])) == KeptEnv(server.env);
  }

  lemma HttpSurvives(rules: Rules, project: Option<string>, server: Server)
    requires Renderable(rules, project, server) && Kind(server).StreamableHttp?
    ensures var w := Render(rules, project, server);
            && T.DistinctKeys(w) && T.FieldsOk(w) && Get(w, "enabled") == Some(T.Flag(true))
            && ImportServer(rules, w) == Some(Some(Kept(rules, project, server)))
  {
    var literal, variables := LiteralHeaders(rules, server.headers), EnvHeaders(rules, server.headers);
    var names := SortedOf(Values(variables));
    HeadersList(rules, server.headers);
    HeadersAreSafe(rules, server.headers);
    ValuesAreSafe(variables);
    ValuesRemain(variables);
    HttpWritable(server, names, literal, variables);
    HttpReads(rules, server, names, literal, variables);
    HeadersSurvive(rules, server.headers);
  }

  // ---- the whole configuration ----

  /** codex_mcp_config: the text for all servers in order of their names; none for an unsafe project. */
  ghost function Export(rules: Rules, project: Option<string>, servers: map<string, Server>): Option<string> {
    if !Outfitted(project) then None
    else
      SectionsAreWritable(rules, project, servers, SortedOf(servers.Keys));
      Some(T.Dump(Sections(rules, project, servers, SortedOf(servers.Keys))))
  }

  lemma OneSurvives(rules: Rules, project: Option<string>, server: Server)
    requires Renderable(rules, project, server) && Outfitted(project)
    ensures var w := Render(rules, project, server);
            && T.DistinctKeys(w) && T.FieldsOk(w) && Get(w, "enabled") == Some(T.Flag(true))
            && ImportServer(rules, w) == Some(Some(Kept(rules, project, server)))
  {
    if Kind(server).Stdio? { StdioSurvives(rules, project, server); } else { HttpSurvives(rules, project, server); }
  }

  lemma SectionOfSurvives(rules: Rules, project: Option<string>, servers: map<string, Server>, name: string,
                          rest: seq<T.Section>, before: map<string, Server>)
    requires Outfitted(project)
    ensures T.WritableAll(SectionOf(rules, project, servers, name))
    ensures ImportAll(rules, SectionOf(rules, project, servers, name) + rest, before)
         == ImportAll(rules, rest, if Exported(rules, project, servers, name)
                                   then before[name := Kept(rules, project, servers[name])] else before)
  {
    if Exported(rules, project, servers, name) {
      var s := T.Section(name, Render(rules, project, servers[name]));
      OneSurvives(rules, project, servers[name]);
      NameIsSafe(rules, project, servers, name);
      assert ([s] + rest)[1..] == rest;
    } else {
      assert [] + rest == rest;
    }
  }

  lemma NameIsSafe(rules: Rules, project: Option<string>, servers: map<string, Server>, name: string)
    requires Exported(rules, project, servers, name)
    ensures SafeText(name) && T.IsSafe(name)
  {
  }

  predicate NamedIn(sections: seq<T.Section>, names: seq<string>) {
    forall i :: 0 <= i < |sections| ==> sections[i].name in names
  }

  lemma JoinsDistinctly(first: seq<T.Section>, rest: seq<T.Section>, names: seq<string>)
    requires names != [] && Distinct(names) && |first| <= 1 && (first != [] ==> first[0].name == names[0])
    requires T.DistinctNames(rest) && NamedIn(rest, names[1..])
    ensures T.DistinctNames(first + rest) && NamedIn(first + rest, names)
  {
    forall j | 0 <= j < |rest| ensures rest[j].name != names[0] && rest[j].name in names {
      assert rest[j].name in names[1..];
    }
  }

  lemma {:induction false} SectionsAreWritable(rules: Rules, project: Option<string>, servers: map<string, Server>, names: seq<string>)
    requires Outfitted(project) && Distinct(names)
    ensures var sections := Sections(rules, project, servers, names);
            T.WritableAll(sections) && NamedIn(sections, names) && T.DistinctNames(sections)
  {
    if names != [] {
      var first, rest := SectionOf(rules, project, servers, names[0]), Sections(rules, project, servers, names[1..]);
      SectionsAreWritable(rules, project, servers, names[1..]);
      SectionOfSurvives(rules, project, servers, names[0], [], map[]);
      JoinsDistinctly(first, rest, names);
      WritesJoined(first, rest);
    }
  }

  lemma WritesJoined(a: seq<T.Section>, b: seq<T.Section>)
    requires T.WritableAll(a) && T.WritableAll(b)
    ensures T.WritableAll(a + b)
  {
    forall i | 0 <= i < |a + b| ensures T.Writable((a + b)[i]) {
      if i >= |a| { assert (a + b)[i] == b[i - |a|]; }
    }
  }

  function KeptAll(rules: Rules, project: Option<string>, servers: map<string, Server>, names: seq<string>): map<string, Server> {
    map n | n in names && Exported(rules, project, servers, n) :: Kept(rules, project, servers[n])
  }

  lemma KeptRest(rules: Rules, project: Option<string>, servers: map<string, Server>, names: seq<string>)
    requires names != [] && Distinct(names)
    ensures KeptAll(rules, project, servers, names)
         == if Exported(rules, project, servers, names[0])
            then KeptAll(rules, project, servers, names[1..])[names[0] := Kept(rules, project, servers[names[0]])]
            else KeptAll(rules, project, servers, names[1..])
    ensures names[0] !in KeptAll(rules, project, servers, names[1..])
  {
    forall n | n in names ensures n == names[0] || n in names[1..] {}
  }

  lemma {:induction false} SectionsSurvive(rules: Rules, project: Option<string>, servers: map<string, Server>, names: seq<string>,
                                           before: map<string, Server>)
    requires Outfitted(project) && Distinct(names)
    ensures ImportAll(rules, Sections(rules, project, servers, names), before)
         == Some(before + KeptAll(rules, project, servers, names))
    decreases |names|
  {
    if names == [] {
      assert before + KeptAll(rules, project, servers, names) == before;
    } else {
      var rest := names[1..];
      var exported := Exported(rules, project, servers, names[0]);
      var more := if exported then before[names[0] := Kept(rules, project, servers[names[0]])] else before;
      SectionOfSurvives(rules, project, servers, names[0], Sections(rules, project, servers, rest), before);
      SectionsSurvive(rules, project, servers, rest, more);
      KeptRest(rules, project, servers, names);
      if exported {
        Defers(before, KeptAll(rules, project, servers, rest), names[0], Kept(rules, project, servers[names[0]]));
      }
    }
  }

  lemma Defers(a: map<string, Server>, b: map<string, Server>, key: string, value: Server)
    requires key !in b
    ensures a[key := value] + b == a + b[key := value]
  {
  }

  /**
   Reading back the text of an export gives exactly the servers that could be rendered, each with what
   survives of it.
   */
  lemma ExportedServersComeBack(rules: Rules, project: Option<string>, servers: map<string, Server>)
    requires Outfitted(project)
    ensures Import(rules, Export(rules, project, servers).value)
         == Some(map n | n in servers && Exported(rules, project, servers, n) :: Kept(rules, project, servers[n]))
  {
    var names := SortedOf(servers.Keys);
    var sections := Sections(rules, project, servers, names);
    SectionsAreWritable(rules, project, servers, names);
    T.DumpLoads(sections);
    SectionsSurvive(rules, project, servers, names, map[]);
    assert forall n :: n in names <==> n in Items(names);
    assert map[] + KeptAll(rules, project, servers, names)
        == map n | n in servers && Exported(rules, project, servers, n) :: Kept(rules, project, servers[n]);
  }

  // ---- exactly which servers come back unchanged ----

  predicate SelfNamed(env: map<string, string>) {
    forall k :: k in env ==> EnvName(k) && env[k] == Ref(k)
  }

  /** No project override, a tool list, only self-named references, no credential-like header, nothing unused. */
  predicate Portable(rules: Rules, project: Option<string>, server: Server) {
    && server.tools != []
    && match Kind(server)
       case Stdio =>
         && SelfNamed(server.env) && (project.Some? ==> project.value == server.cwd) && server.url == "" && server.headers == map[]
       case _ =>
         && (forall k :: k in server.headers ==> KeptHeader(rules, server.headers, k))
         && server.command == "" && server.args == [] && server.env == map[] && server.cwd == ""
  }

  lemma EnvStays(env: map<string, string>)
    ensures KeptEnv(env) == env <==> SelfNamed(env)
  {
    if KeptEnv(env) == env {
      forall k | k in env ensures EnvName(k) && env[k] == Ref(k) {
        assert k in KeptEnv(env);
      }
    }
    if SelfNamed(env) {
      forall k | k in env ensures k in KeptEnv(env) && KeptEnv(env)[k] == env[k] {
        RefRefers(k);
      }
      assert KeptEnv(env).Keys == env.Keys;
    }
  }

  lemma HeadersStay(rules: Rules, headers: map<string, string>)
    ensures KeptHeaders(rules, headers) == headers <==> forall k :: k in headers ==> KeptHeader(rules, headers, k)
  {
    if KeptHeaders(rules, headers) == headers {
      forall k | k in headers ensures KeptHeader(rules, headers, k) { assert k in KeptHeaders(rules, headers); }
    }
    if forall k :: k in headers ==> KeptHeader(rules, headers, k) {
      assert KeptHeaders(rules, headers).Keys == headers.Keys;
    }
  }

  /** The round trip is the identity on exactly the portable servers, up to naming the transport. */
  lemma UnchangedIffPortable(rules: Rules, project: Option<string>, server: Server)
    requires Renderable(rules, project, server)
    ensures Kept(rules, project, server) == server.(transport := Some(Kind(server))) <==> Portable(rules, project, server)
  {
    EnvStays(server.env);
    HeadersStay(rules, server.headers);
  }

  // ---- what the text cannot contain ----

  /** Inline environment values replaced, and credential-like headers removed. */
  function Redacted(rules: Rules, server: Server): Server {
    server.(env := map k | k in server.env :: if Reference(server.env[k]).None? then "x" else server.env[k],
            headers := map k | k in server.headers && !rules.credential(k, server.headers[k]) :: server.headers[k])
  }

  lemma {:induction false} ChosenAlike(keys: seq<string>, test: string -> bool, other: string -> bool)
    requires forall k :: k in keys ==> (test(k) <==> other(k))
    ensures Chosen(keys, test) == Chosen(keys, other)
  {
    if keys != [] { ChosenAlike(keys[1..], test, other); }
  }

  lemma {:induction false} ChosenSorted(keys: seq<string>, test: string -> bool)
    requires Sorted(keys)
    ensures Sorted(Chosen(keys, test))
  {
    if keys != [] {
      RestOfSorted(keys);
      ChosenSorted(keys[1..], test);
      ChosenAre(keys[1..], test);
      var rest := Chosen(keys[1..], test);
      forall j | 0 <= j < |rest| ensures Before(keys[0], rest[j]) { assert rest[j] in keys[1..]; }
    }
  }

  /** Choosing from a set of keys or from a subset that holds all the chosen ones gives the same. */
  lemma ChosenFromFewer(some: set<string>, all: set<string>, test: string -> bool, other: string -> bool)
    requires some <= all && forall k :: k in all ==> (test(k) <==> k in some && other(k))
    ensures Chosen(SortedOf(some), other) == Chosen(SortedOf(all), test)
  {
    ChosenSorted(SortedOf(some), other);
    ChosenSorted(SortedOf(all), test);
    ChosenAre(SortedOf(some), other);
    ChosenAre(SortedOf(all), test);
    assert forall k :: k in SortedOf(some) <==> k in Items(SortedOf(some));
    assert forall k :: k in SortedOf(all) <==> k in Items(SortedOf(all));
    assert Items(Chosen(SortedOf(some), other)) == Items(Chosen(SortedOf(all), test));
    SortedIsUnique(Chosen(SortedOf(some), other), Chosen(SortedOf(all), test));
  }

  lemma RedactedEnv(rules: Rules, server: Server)
    ensures InheritedNames(Redacted(rules, server).env) == InheritedNames(server.env)
  {
    var env := Redacted(rules, server).env;
    assert env.Keys == server.env.Keys;
    assert Reference("x").None?;
    ChosenAlike(SortedOf(env.Keys), IsInherited(env), IsInherited(server.env));
  }

  lemma {:induction false} LookupsAlike(keys: seq<string>, values: map<string, string>, other: map<string, string>)
    requires forall k :: k in keys ==> k in values && k in other && values[k] == other[k]
    ensures Lookups(keys, values) == Lookups(keys, other)
  {
    if keys != [] { LookupsAlike(keys[1..], values, other); }
  }

  lemma RedactedLiterals(rules: Rules, headers: map<string, string>, fewer: map<string, string>)
    requires fewer == map k | k in headers && !rules.credential(k, headers[k]) :: headers[k]
    ensures LiteralHeaders(rules, fewer) == LiteralHeaders(rules, headers)
  {
    ChosenFromFewer(fewer.Keys, headers.Keys, IsLiteral(rules, headers),
                    IsLiteral(rules, fewer));
    var keys := Chosen(SortedOf(headers.Keys), IsLiteral(rules, headers));
    ChosenAre(SortedOf(headers.Keys), IsLiteral(rules, headers));
    LookupsAlike(keys, fewer, headers);
  }

  lemma RedactedVariables(rules: Rules, headers: map<string, string>, fewer: map<string, string>)
    requires fewer == map k | k in headers && !rules.credential(k, headers[k]) :: headers[k]
    ensures EnvHeaders(rules, fewer) == EnvHeaders(rules, headers)
  {
    ChosenFromFewer(fewer.Keys, headers.Keys, IsVariable(rules, headers),
                    IsVariable(rules, fewer));
    var keys := Chosen(SortedOf(headers.Keys), IsVariable(rules, headers));
    ChosenAre(SortedOf(headers.Keys), IsVariable(rules, headers));
    LookupsAlike(keys, Variables(fewer), Variables(headers));
  }

  lemma RedactedIsRenderable(rules: Rules, project: Option<string>, server: Server)
    requires Renderable(rules, project, server)
    ensures Renderable(rules, project, Redacted(rules, server)) && Kind(Redacted(rules, server)) == Kind(server)
  {
    var redacted := Redacted(rules, server);
    assert SafeText("x");
    if EnvOk(server.env) {
      forall k | k in redacted.env && EnvName(k) ensures SafeText(redacted.env[k]) { assert SafeText(server.env[k]); }
    }
    if HeadersOk(server.headers) {
      forall k | k in redacted.headers ensures SafeText(k) && SafeText(redacted.headers[k]) { assert SafeText(k); }
    }
  }

  /**
   What is exported of a server is what is exported of its redaction: the text carries no inline
   environment value and no credential-like header, whatever they are.
   */
  lemma SecretsStayOut(rules: Rules, project: Option<string>, server: Server)
    requires Renderable(rules, project, server)
    ensures var redacted := Redacted(rules, server);
            Renderable(rules, project, redacted) && Render(rules, project, redacted) == Render(rules, project, server)
  {
    RedactedIsRenderable(rules, project, server);
    if Kind(server).Stdio? {
      RedactedEnv(rules, server);
    } else {
      RedactedLiterals(rules, server.headers, Redacted(rules, server).headers);
      RedactedVariables(rules, server.headers, Redacted(rules, server).headers);
    }
    assert Prepared(rules, project, Redacted(rules, server)) == Prepared(rules, project, server);
  }

  // ---- the loops ----

  /** The names _render_environment collects. */
  method RenderEnvironment(env: map<string, string>) returns (names: seq<string>)
    ensures names == InheritedNames(env)
  {
    var keys := SortTexts(env.Keys);
    SortedIsUnique(keys, SortedOf(env.Keys));
    names := [];
    var i := 0;
    while i < |keys|
      invariant 0 <= i <= |keys|
      invariant names + Chosen(keys[i..], IsInherited(env)) == Chosen(keys, IsInherited(env))
    {
      var key := keys[i];
      assert key in Items(keys);
      ChosenStep(names, keys, i, IsInherited(env));
      if EnvName(key) && !(Reference(env[key]).Some? && Reference(env[key]).value != key) {
        names := names + [key];
      }
      i := i + 1;
    }
    assert names + [] == names && keys[i..] == [];
  }

  lemma ChosenStep(done: seq<string>, keys: seq<string>, i: nat, test: string -> bool)
    requires i < |keys|
    ensures done + Chosen(keys[i..], test)
         == (if test(keys[i]) then done + [keys[i]] else done) + Chosen(keys[i + 1..], test)
  {
    assert keys[i..][1..] == keys[i + 1..];
  }

  /** _import_environment over the inherited names and the inline table. */
  method ImportEnvironment(names: seq<string>, entries: seq<(string, string)>) returns (env: map<string, string>)
    ensures env == EnvFrom(entries, EnvOf(names, map[]))
  {
    env := map[];
    var i := 0;
    while i < |names|
      invariant 0 <= i <= |names|
      invariant EnvOf(names[i..], env) == EnvOf(names, map[])
    {
      assert names[i..][0] == names[i] && names[i..][1..] == names[i + 1..];
      if EnvName(names[i]) { env := env[names[i] := Ref(names[i])]; }
      i := i + 1;
    }
    i := 0;
    while i < |entries|
      invariant 0 <= i <= |entries|
      invariant EnvFrom(entries[i..], env) == EnvFrom(entries, EnvOf(names, map[]))
    {
      assert entries[i..][0] == entries[i] && entries[i..][1..] == entries[i + 1..];
      var (name, value) := entries[i];
      if EnvName(name) {
        env := env[name := if Reference(value).Some? then value else Ref(name)];
      }
      i := i + 1;
    }
  }
}
