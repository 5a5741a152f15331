/**
 The backfill of session access records: apply rewrites the metadata line of planned session files
 after recording them in a report; revert restores the recorded bytes or refuses before it writes.
 */
module AccessBackfill {
  import opened Wrappers

  type Path = string
  type Bytes = string

  const NEWLINE := '\n'

  /** An injective digest. */
  datatype Digest = Sha(content: Bytes)

  /** A parsed document; a dictionary is its members in insertion order. */
  datatype Json = Null | Text(text: string) | Opaque(code: nat) | Object(fields: Dict)

  type Dict = seq<Member>

  datatype Member = Member(key: string, value: Json)

  // ---- dictionaries ----

  predicate DistinctKeys(d: Dict) {
    forall i, j :: 0 <= i < j < |d| ==> d[i].key != d[j].key
  }

  predicate Proper(j: Json) {
    j.Object? ==> DistinctKeys(j.fields) && forall i :: 0 <= i < |j.fields| ==> Proper(j.fields[i].value)
  }

  function Get(d: Dict, key: string): Option<Json> {
    if d == [] then None else if d[0].key == key then Some(d[0].value) else Get(d[1..], key)
  }

  /** Assignment: in place when the key is present, at the end otherwise. */
  function Put(d: Dict, key: string, value: Json): Dict {
    if d == [] then [Member(key, value)]
    else if d[0].key == key then [Member(key, value)] + d[1..]
    else [d[0]] + Put(d[1..], key, value)
  }

  function Without(d: Dict, keys: seq<string>): Dict {
    if d == [] then [] else (if d[0].key in keys then [] else [d[0]]) + Without(d[1..], keys)
  }

  function Pick(d: Dict, keys: seq<string>): Dict {
    if keys == [] then []
    else (if Get(d, keys[0]).Some? then [Member(keys[0], Get(d, keys[0]).value)] else []) + Pick(d, keys[1..])
  }

  // ---- the tool's surroundings ----

  const KIND := "session_access_kind"
  const USER := "session_access_user_id"
  const PROJECT := "session_access_project_id"
  const METADATA := "metadata"

  function AccessKeys(): seq<string> {
    [KIND, USER, PROJECT]
  }

  /** What a session key says: its own namespace, its owner, or the route it was reached by. */
  datatype Kind =
    | HostPrivate
    | ProjectKey(user: string, project: string)
    | UserKey(user: string)
    | RouteKey(channel: string, chat: string, thread: Option<string>)

  datatype ChatType = Unknown | Group | Direct

  datatype Scope = Scope(user: Option<string>, project: Option<string>, bound: bool)

  /** json, UTF-8 and the private copy of the collaboration store, as one run sees them. */
  datatype Tool = Tool(
    loads: Bytes -> Option<Json>,
    dumps: Json -> Bytes,
    decodes: Bytes -> bool,
    channels: set<string>,
    getProject: (string, string) -> Option<string>,
    resolveScope: (string, string, Option<string>, ChatType) -> Option<Scope>)
  {
    ghost predicate Lawful() {
      && (forall j :: Proper(j) ==> loads(dumps(j)) == Some(j) && NEWLINE !in dumps(j) && decodes(dumps(j)))
      && (forall b :: loads(b).Some? ==> Proper(loads(b).value))
    }
  }

  // ---- one session ----

  function FirstLine(b: Bytes): Bytes {
    if b == [] || b[0] == NEWLINE then [] else [b[0]] + FirstLine(b[1..])
  }

  /** The separator and everything after it. */
  function Tail(b: Bytes): (t: Bytes)
    ensures b == FirstLine(b) + t
    ensures t == [] || t[0] == NEWLINE
    ensures NEWLINE !in FirstLine(b)
  {
    if b == [] || b[0] == NEWLINE then b else Tail(b[1..])
  }

  function Rest(b: Bytes): Bytes {
    if Tail(b) == [] then [] else Tail(b)[1..]
  }

  function Metadata(t: Tool, line: Bytes): Dict {
    match t.loads(line)
    case Some(Object(fields)) => (match Get(fields, METADATA) case Some(Object(metadata)) => metadata case _ => [])
    case _ => []
  }

  function CurrentRecord(metadata: Dict): Dict {
    Pick(metadata, AccessKeys())
  }

  function GetText(d: Dict, key: string): Option<string> {
    match Get(d, key)
    case Some(Text(s)) => Some(s)
    case _ => None
  }

  function Optional(s: Option<string>): Json {
    if s.Some? then Text(s.value) else Null
  }

  function AccessRecord(kind: string, user: Option<string>, project: Option<string>): Dict {
    [Member(KIND, Text(kind)), Member(USER, Optional(user)), Member(PROJECT, Optional(project))]
  }

  /** The stored collaboration fields that resolution consults; an empty text counts as none. */
  datatype Hints = Hints(bound: bool, project: Option<string>, channel: Option<string>, chat: Option<string>)

  function NonEmpty(s: Option<string>): Option<string> {
    if s == Some("") then None else s
  }

  function HintsOf(metadata: Dict): Hints {
    Hints(GetText(metadata, "collaboration_binding_id").Some?,
          NonEmpty(GetText(metadata, "collaboration_project_id")),
          NonEmpty(GetText(metadata, "collaboration_channel")),
          NonEmpty(GetText(metadata, "collaboration_chat_id")))
  }

  function Or(s: Option<string>, otherwise: string): string {
    if s.Some? then s.value else otherwise
  }

  /** resolve_record: outer None where the store raises, inner None to leave the session alone. */
  function Resolve(t: Tool, kind: Kind, hints: Hints): Option<Option<Dict>> {
    var bound := if hints.bound then "bound" else "direct";
    match kind
    case HostPrivate => Some(None)
    case ProjectKey(user, project) => Some(Some(AccessRecord(bound, Some(user), Some(project))))
    case UserKey(user) =>
      // A retired key's project has to be confirmed by the store again.
      var project := if hints.project.None? then None else t.getProject(user, hints.project.value);
      Some(Some(AccessRecord(bound, Some(user), project)))
    case RouteKey(channel, chat, thread) =>
      if chat == "" then Some(Some(AccessRecord("isolated", None, None)))
      else
        var route := Or(hints.channel, channel);
        var chatType := if thread.Some? then Group else if route in t.channels then Direct else Unknown;
        match t.resolveScope(route, Or(hints.chat, chat), thread, chatType)
        case None => None
        case Some(scope) =>
          if scope.project.None? then Some(Some(AccessRecord("isolated", scope.user, None)))
          else Some(Some(AccessRecord(if scope.bound then "bound" else "direct", scope.user, scope.project)))
  }

  /** apply_entry: the line with its access record replaced, none where it raises. */
  function NewLine(t: Tool, line: Bytes, record: Dict): Option<Bytes> {
    match t.loads(line)
    case Some(Object(fields)) =>
      Some(t.dumps(Object(Put(fields, METADATA, Object(Without(Metadata(t, line), AccessKeys()) + record)))))
    case _ => None
  }

  // ---- the plan and the report ----

  datatype Entry = Entry(path: Path, before: Dict, after: Dict, lineBefore: Digest, lineAfter: Digest, rest: Digest)

  datatype Change = Change(entry: Entry, line: Bytes)

  datatype Scan = Fails | Unchanged | Changes(change: Change)

  function ScanOne(t: Tool, files: map<Path, Bytes>, path: Path, kind: Kind): Scan {
    if path !in files then Unchanged
    else
      var line := FirstLine(files[path]);
      if !t.decodes(line) then Fails
      else
        var metadata := Metadata(t, line);
        match Resolve(t, kind, HintsOf(metadata))
        case None => Fails
        case Some(None) => Unchanged
        case Some(Some(record)) =>
          if CurrentRecord(metadata) == record then Unchanged
          else
            match NewLine(t, line, record)
            case None => Fails
            case Some(new_) =>
              Changes(Change(Entry(path, CurrentRecord(metadata), record, Sha(line), Sha(new_), Sha(Rest(files[path]))), new_))
  }

  function Append(planned: Option<seq<Change>>, scan: Scan): Option<seq<Change>> {
    if planned.None? || scan.Fails? then None
    else if scan.Unchanged? then planned
    else Some(planned.value + [scan.change])
  }

  /** One pass over the session files, none where anything in it raises. */
  function Plan(t: Tool, files: map<Path, Bytes>, sessions: seq<(Path, Kind)>): Option<seq<Change>> {
    if sessions == [] then Some([])
    else
      var last := sessions[|sessions| - 1];
      Append(Plan(t, files, sessions[..|sessions| - 1]), ScanOne(t, files, last.0, last.1))
  }

  function Replace(files: map<Path, Bytes>, change: Change): map<Path, Bytes> {
    if change.entry.path !in files then files
    else files[change.entry.path := change.line + Tail(files[change.entry.path])]
  }

  /** The store after the first n writes of a plan. */
  function Applied(files: map<Path, Bytes>, plan: seq<Change>, n: nat): map<Path, Bytes>
    requires n <= |plan|
  {
    if n == 0 then files else Replace(Applied(files, plan, n - 1), plan[n - 1])
  }

  function Entries(plan: seq<Change>): seq<Entry> {
    seq(|plan|, i requires 0 <= i < |plan| => plan[i].entry)
  }

  // ---- revert ----

  /** The bytes revert would write for one entry, none where it refuses. */
  function RevertOne(t: Tool, files: map<Path, Bytes>, e: Entry): Option<Bytes> {
    if e.path !in files then None
    else
      var line := FirstLine(files[e.path]);
      if Sha(Rest(files[e.path])) != e.rest || (Sha(line) != e.lineBefore && Sha(line) != e.lineAfter) || !t.decodes(line) then None
      else
        match NewLine(t, line, e.before)
        case None => None
        case Some(old_) => if Sha(old_) != e.lineBefore then None else Some(old_ + Tail(files[e.path]))
  }

  function RevertPlan(t: Tool, files: map<Path, Bytes>, entries: seq<Entry>): Option<seq<Bytes>> {
    if entries == [] then Some([])
    else
      match RevertPlan(t, files, entries[..|entries| - 1])
      case None => None
      case Some(payloads) =>
        match RevertOne(t, files, entries[|entries| - 1])
        case None => None
        case Some(payload) => Some(payloads + [payload])
  }

  function Restored(files: map<Path, Bytes>, entries: seq<Entry>, payloads: seq<Bytes>, n: nat): map<Path, Bytes>
    requires n <= |entries| && n <= |payloads|
  {
    if n == 0 then files else Restored(files, entries, payloads, n - 1)[entries[n - 1].path := payloads[n - 1]]
  }

  lemma {:induction false} RevertPlanLength(t: Tool, files: map<Path, Bytes>, entries: seq<Entry>)
    ensures RevertPlan(t, files, entries).Some? ==> |RevertPlan(t, files, entries).value| == |entries|
  {
    if entries != [] { RevertPlanLength(t, files, entries[..|entries| - 1]); }
  }

  lemma {:induction false} RevertPlanCovers(t: Tool, files: map<Path, Bytes>, entries: seq<Entry>)
    ensures RevertPlan(t, files, entries).Some? ==> |RevertPlan(t, files, entries).value| == |entries|
    ensures RevertPlan(t, files, entries).Some? ==> forall i :: 0 <= i < |entries| ==>
              RevertOne(t, files, entries[i]) == Some(RevertPlan(t, files, entries).value[i])
    ensures RevertPlan(t, files, entries).None? ==> exists i :: 0 <= i < |entries| && RevertOne(t, files, entries[i]).None?
  {
    if entries != [] {
      var most := entries[..|entries| - 1];
      RevertPlanCovers(t, files, most);
      if RevertPlan(t, files, most).None? {
        var i :| 0 <= i < |most| && RevertOne(t, files, most[i]).None?;
        assert entries[i] == most[i];
      } else if RevertPlan(t, files, entries).Some? {
        forall i | 0 <= i < |entries| ensures RevertOne(t, files, entries[i]) == Some(RevertPlan(t, files, entries).value[i]) {
          if i < |most| { assert entries[i] == most[i]; }
        }
      } else {
        assert RevertOne(t, files, entries[|entries| - 1]).None?;
      }
    }
  }

  // ---- dictionaries under replacement ----

  lemma {:induction false} GetJoined(a: Dict, b: Dict, key: string)
    ensures Get(a + b, key) == if Get(a, key).Some? then Get(a, key) else Get(b, key)
  {
    if a == [] {
      assert a + b == b;
    } else {
      assert (a + b)[1..] == a[1..] + b;
      GetJoined(a[1..], b, key);
    }
  }

  lemma {:induction false} GetWithout(d: Dict, keys: seq<string>, key: string)
    ensures Get(Without(d, keys), key) == if key in keys then None else Get(d, key)
  {
    if d != [] {
      GetWithout(d[1..], keys, key);
      GetJoined(if d[0].key in keys then [] else [d[0]], Without(d[1..], keys), key);
    }
  }

  lemma {:induction false} WithoutJoined(a: Dict, b: Dict, keys: seq<string>)
    ensures Without(a + b, keys) == Without(a, keys) + Without(b, keys)
  {
    if a == [] {
      assert a + b == b;
    } else {
      assert (a + b)[1..] == a[1..] + b;
      WithoutJoined(a[1..], b, keys);
    }
  }

  predicate KeyedIn(d: Dict, keys: seq<string>) {
    forall i :: 0 <= i < |d| ==> d[i].key in keys
  }

  predicate KeyedOut(d: Dict, keys: seq<string>) {
    forall i :: 0 <= i < |d| ==> d[i].key !in keys
  }

  lemma {:induction false} WithoutOnly(d: Dict, keys: seq<string>)
    ensures KeyedIn(d, keys) ==> Without(d, keys) == []
    ensures KeyedOut(d, keys) ==> Without(d, keys) == d
  {
    if d != [] {
      var tail := d[1..];
      WithoutOnly(tail, keys);
      assert d == [d[0]] + tail && forall i :: 0 <= i < |tail| ==> tail[i] == d[i + 1];
    }
  }

  lemma {:induction false} WithoutKeeps(d: Dict, keys: seq<string>)
    ensures KeyedOut(Without(d, keys), keys)
    ensures forall i :: 0 <= i < |Without(d, keys)| ==> Without(d, keys)[i] in d
  {
    if d != [] {
      var tail := d[1..];
      WithoutKeeps(tail, keys);
      var rest := Without(tail, keys);
      assert Without(d, keys) == if d[0].key in keys then rest else [d[0]] + rest;
      forall m | m in rest ensures m in d { assert m in tail; }
    }
  }

  lemma {:induction false} PutGets(d: Dict, key: string, v: Json, w: Json)
    ensures Get(Put(d, key, v), key) == Some(v)
    ensures Put(Put(d, key, v), key, w) == Put(d, key, w)
    ensures Get(d, key) == Some(v) ==> Put(d, key, v) == d
  {
    if d != [] {
      PutGets(d[1..], key, v, w);
      assert ([d[0]] + Put(d[1..], key, v))[1..] == Put(d[1..], key, v);
      assert ([Member(key, v)] + d[1..])[1..] == d[1..];
    }
  }

  lemma {:induction false} PutKeys(d: Dict, key: string, v: Json)
    ensures forall i :: 0 <= i < |Put(d, key, v)| ==> Put(d, key, v)[i] == Member(key, v) || Put(d, key, v)[i] in d
    ensures DistinctKeys(d) ==> DistinctKeys(Put(d, key, v))
  {
    if d != [] {
      PutKeys(d[1..], key, v);
      var rest := Put(d[1..], key, v);
      if d[0].key != key && DistinctKeys(d) {
        forall j | 0 <= j < |rest| ensures rest[j].key != d[0].key {
          if rest[j] in d[1..] {
            var k :| 0 <= k < |d[1..]| && d[1..][k] == rest[j];
            assert d[k + 1] == rest[j];
          }
        }
      }
    }
  }

  /** Members of an access record, as resolved or as already recorded. */
  predicate AccessOnly(r: Dict) {
    DistinctKeys(r) && forall i :: 0 <= i < |r| ==> r[i].key in AccessKeys() && Proper(r[i].value)
  }

  lemma {:induction false} GetProper(d: Dict, key: string)
    requires forall i :: 0 <= i < |d| ==> Proper(d[i].value)
    ensures Get(d, key).Some? ==> Proper(Get(d, key).value)
  {
    if d != [] { GetProper(d[1..], key); }
  }

  lemma JoinedDistinct(a: Dict, b: Dict, keys: seq<string>)
    requires DistinctKeys(a) && DistinctKeys(b)
    requires KeyedOut(a, keys) && KeyedIn(b, keys)
    ensures DistinctKeys(a + b)
  {
  }

  predicate AllProper(d: Dict) {
    forall i :: 0 <= i < |d| ==> Proper(d[i].value)
  }

  lemma KeptProper(d: Dict, keys: seq<string>)
    requires AllProper(d)
    ensures AllProper(Without(d, keys))
  {
    var kept := Without(d, keys);
    WithoutKeeps(d, keys);
    forall i | 0 <= i < |kept| ensures Proper(kept[i].value) {
      var k :| 0 <= k < |d| && d[k] == kept[i];
    }
  }

  lemma ReplacedIsProper(d: Dict, r: Dict)
    requires DistinctKeys(d) && AllProper(d) && AccessOnly(r)
    ensures Proper(Object(Without(d, AccessKeys()) + r))
  {
    var keys := AccessKeys();
    var kept := Without(d, keys);
    WithoutKeeps(d, keys);
    WithoutDistinct(d, keys);
    JoinedDistinct(kept, r, keys);
    KeptProper(d, keys);
    assert AllProper(kept + r);
  }

  lemma ConsDistinct(m: Member, rest: Dict)
    requires DistinctKeys(rest) && forall j :: 0 <= j < |rest| ==> rest[j].key != m.key
    ensures DistinctKeys([m] + rest)
  {
  }

  lemma {:induction false} WithoutDistinct(d: Dict, keys: seq<string>)
    requires DistinctKeys(d)
    ensures DistinctKeys(Without(d, keys))
  {
    if d != [] {
      var tail := d[1..];
      var rest := Without(tail, keys);
      WithoutDistinct(tail, keys);
      if d[0].key in keys {
        assert Without(d, keys) == rest;
      } else {
        WithoutKeeps(tail, keys);
        forall j | 0 <= j < |rest| ensures rest[j].key != d[0].key {
          var k :| 0 <= k < |tail| && tail[k] == rest[j];
          assert d[k + 1] == rest[j];
        }
        ConsDistinct(d[0], rest);
      }
    }
  }

  lemma PutIsProper(d: Dict, key: string, v: Json)
    requires Proper(Object(d)) && Proper(v)
    ensures Proper(Object(Put(d, key, v)))
  {
    PutKeys(d, key, v);
    var p := Put(d, key, v);
    forall i | 0 <= i < |p| ensures Proper(p[i].value) {
      if p[i] in d { var k :| 0 <= k < |d| && d[k] == p[i]; }
    }
  }

  lemma CurrentIsAccessOnly(d: Dict)
    requires forall i :: 0 <= i < |d| ==> Proper(d[i].value)
    ensures AccessOnly(CurrentRecord(d))
  {
    GetProper(d, KIND);
    GetProper(d, USER);
    GetProper(d, PROJECT);
    PickUnfolds(d);
  }

  lemma PickUnfolds(d: Dict)
    ensures CurrentRecord(d)
         == (if Get(d, KIND).Some? then [Member(KIND, Get(d, KIND).value)] else [])
          + ((if Get(d, USER).Some? then [Member(USER, Get(d, USER).value)] else [])
          + (if Get(d, PROJECT).Some? then [Member(PROJECT, Get(d, PROJECT).value)] else []))
  {
    assert AccessKeys()[1..] == [USER, PROJECT] && [USER, PROJECT][1..] == [PROJECT] && [PROJECT][1..] == [];
    assert Pick(d, [PROJECT]) == if Get(d, PROJECT).Some? then [Member(PROJECT, Get(d, PROJECT).value)] else [];
    assert Pick(d, [USER, PROJECT])
        == (if Get(d, USER).Some? then [Member(USER, Get(d, USER).value)] else []) + Pick(d, [PROJECT]);
  }

  // ---- lines and files under replacement ----

  lemma {:induction false} Splits(line: Bytes, tail: Bytes)
    requires NEWLINE !in line && (tail == [] || tail[0] == NEWLINE)
    ensures FirstLine(line + tail) == line && Tail(line + tail) == tail
  {
    if line == [] {
      assert line + tail == tail;
    } else {
      assert (line + tail)[0] == line[0] && (line + tail)[1..] == line[1..] + tail;
      Splits(line[1..], tail);
    }
  }

  /** The metadata of a parsed line is proper, so what is rendered from it can be read back. */
  lemma ParsedMetadata(t: Tool, line: Bytes)
    requires t.Lawful()
    ensures DistinctKeys(Metadata(t, line)) && AllProper(Metadata(t, line))
    ensures AccessOnly(CurrentRecord(Metadata(t, line)))
  {
    match t.loads(line)
    case Some(Object(fields)) =>
      assert Proper(t.loads(line).value);
      GetProper(fields, METADATA);
      CurrentIsAccessOnly(Metadata(t, line));
    case _ => CurrentIsAccessOnly(Metadata(t, line));
  }

  /** A rewritten line is one line, holds exactly the given record, and forgets no other field. */
  lemma Rewrites(t: Tool, line: Bytes, record: Dict, other: Dict)
    requires t.Lawful() && AccessOnly(record) && NewLine(t, line, record).Some?
    ensures var rewritten := NewLine(t, line, record).value;
            && NEWLINE !in rewritten && t.decodes(rewritten)
            && Metadata(t, rewritten) == Without(Metadata(t, line), AccessKeys()) + record
            && NewLine(t, rewritten, other) == NewLine(t, line, other)
  {
    var keys := AccessKeys();
    var fields := t.loads(line).value.fields;
    var metadata := Metadata(t, line);
    var replaced := Object(Without(metadata, keys) + record);
    assert Proper(t.loads(line).value);
    ParsedMetadata(t, line);
    ReplacedIsProper(metadata, record);
    PutIsProper(fields, METADATA, replaced);
    assert t.loads(t.dumps(Object(Put(fields, METADATA, replaced)))) == Some(Object(Put(fields, METADATA, replaced)));
    PutGets(fields, METADATA, replaced, Object(Without(metadata, keys) + other));
    WithoutJoined(Without(metadata, keys), record, keys);
    WithoutKeeps(metadata, keys);
    WithoutOnly(Without(metadata, keys), keys);
    WithoutOnly(record, keys);
    assert Without(metadata, keys) + [] == Without(metadata, keys);
  }

  lemma SameField(metadata: Dict, record: Dict, key: string)
    requires key !in AccessKeys() && forall i :: 0 <= i < |record| ==> record[i].key in AccessKeys()
    ensures Get(Without(metadata, AccessKeys()) + record, key) == Get(metadata, key)
  {
    GetJoined(Without(metadata, AccessKeys()), record, key);
    GetWithout(metadata, AccessKeys(), key);
    AbsentKey(record, key);
  }

  /** Resolution never reads an access record, so resolving after a rewrite gives the same. */
  lemma ResolvesAlike(metadata: Dict, record: Dict)
    requires forall i :: 0 <= i < |record| ==> record[i].key in AccessKeys()
    ensures HintsOf(Without(metadata, AccessKeys()) + record) == HintsOf(metadata)
  {
    assert "collaboration_binding_id"[0] != KIND[0] == USER[0] == PROJECT[0];
    SameField(metadata, record, "collaboration_binding_id");
    SameField(metadata, record, "collaboration_project_id");
    SameField(metadata, record, "collaboration_channel");
    SameField(metadata, record, "collaboration_chat_id");
  }

  lemma {:induction false} AbsentKey(d: Dict, key: string)
    requires forall i :: 0 <= i < |d| ==> d[i].key != key
    ensures Get(d, key).None?
  {
    if d != [] { AbsentKey(d[1..], key); }
  }

  predicate FullRecord(r: Dict) {
    && |r| == 3 && r[0].key == KIND && r[1].key == USER && r[2].key == PROJECT
    && forall i :: 0 <= i < 3 ==> r[i].value.Text? || r[i].value.Null?
  }

  lemma ResolvesFull(t: Tool, kind: Kind, hints: Hints)
    ensures var r := Resolve(t, kind, hints); r.Some? && r.value.Some? ==> FullRecord(r.value.value)
  {
  }

  /** A record at the end of cleaned metadata is what the next scan reads. */
  lemma RecordedReads(metadata: Dict, r: Dict)
    requires FullRecord(r)
    ensures AccessOnly(r) && CurrentRecord(Without(metadata, AccessKeys()) + r) == r
  {
    var d := Without(metadata, AccessKeys()) + r;
    GetWithout(metadata, AccessKeys(), KIND);
    GetWithout(metadata, AccessKeys(), USER);
    GetWithout(metadata, AccessKeys(), PROJECT);
    GetJoined(Without(metadata, AccessKeys()), r, KIND);
    GetJoined(Without(metadata, AccessKeys()), r, USER);
    GetJoined(Without(metadata, AccessKeys()), r, PROJECT);
    PickUnfolds(d);
    assert |KIND| != |USER| && |USER| != |PROJECT| && |KIND| != |PROJECT|;
    assert Get(r, USER) == Get(r[1..], USER) && Get(r, PROJECT) == Get(r[1..], PROJECT) == Get(r[1..][1..], PROJECT);
    assert r[1..][0] == r[1] && r[1..][1..][0] == r[2];
  }

  // ---- what a plan holds ----

  ghost predicate Planned(t: Tool, files: map<Path, Bytes>, c: Change) {
    var e := c.entry;
    && e.path in files
    && var line := FirstLine(files[e.path]);
    && t.decodes(line) && NewLine(t, line, e.after) == Some(c.line) && FullRecord(e.after)
    && e.before == CurrentRecord(Metadata(t, line))
    && e.lineBefore == Sha(line) && e.lineAfter == Sha(c.line) && e.rest == Sha(Rest(files[e.path]))
  }

  predicate DistinctPaths(sessions: seq<(Path, Kind)>) {
    forall i, j :: 0 <= i < j < |sessions| ==> sessions[i].0 != sessions[j].0
  }

  predicate PathsOk(files: map<Path, Bytes>, plan: seq<Change>) {
    && (forall i :: 0 <= i < |plan| ==> plan[i].entry.path in files)
    && (forall i, j :: 0 <= i < j < |plan| ==> plan[i].entry.path != plan[j].entry.path)
  }

  ghost predicate PlanOk(t: Tool, files: map<Path, Bytes>, plan: seq<Change>) {
    PathsOk(files, plan) && forall i :: 0 <= i < |plan| ==> Planned(t, files, plan[i])
  }

  lemma ScanPlans(t: Tool, files: map<Path, Bytes>, path: Path, kind: Kind)
    ensures var scan := ScanOne(t, files, path, kind);
            scan.Changes? ==> scan.change.entry.path == path && Planned(t, files, scan.change)
  {
    if path in files { ResolvesFull(t, kind, HintsOf(Metadata(t, FirstLine(files[path])))); }
  }

  predicate OneOf(path: Path, sessions: seq<(Path, Kind)>) {
    exists j :: 0 <= j < |sessions| && sessions[j].0 == path
  }

  lemma LastIsNew(sessions: seq<(Path, Kind)>, path: Path)
    requires DistinctPaths(sessions) && sessions != [] && OneOf(path, sessions[..|sessions| - 1])
    ensures OneOf(path, sessions) && path != sessions[|sessions| - 1].0
  {
    var most := sessions[..|sessions| - 1];
    var j :| 0 <= j < |most| && most[j].0 == path;
    assert sessions[j] == most[j];
  }

  lemma {:induction false} PlansAreOk(t: Tool, files: map<Path, Bytes>, sessions: seq<(Path, Kind)>)
    requires DistinctPaths(sessions) && Plan(t, files, sessions).Some?
    ensures var plan := Plan(t, files, sessions).value;
            PlanOk(t, files, plan) && forall i :: 0 <= i < |plan| ==> OneOf(plan[i].entry.path, sessions)
  {
    if sessions != [] {
      var most := sessions[..|sessions| - 1];
      var last := sessions[|sessions| - 1];
      PlansAreOk(t, files, most);
      ScanPlans(t, files, last.0, last.1);
      var plan := Plan(t, files, sessions).value;
      var before := Plan(t, files, most).value;
      forall i | 0 <= i < |before| ensures before[i].entry.path != last.0 && OneOf(before[i].entry.path, sessions) {
        LastIsNew(sessions, before[i].entry.path);
      }
      assert OneOf(last.0, sessions);
    }
  }

  // ---- the stores between the first write of an apply and the last of a revert ----

  function After(files: map<Path, Bytes>, c: Change): Bytes
    requires c.entry.path in files
  {
    c.line + Tail(files[c.entry.path])
  }

  /** Every file holds its original bytes, or the ones its planned change writes. */
  ghost predicate Between(original: map<Path, Bytes>, plan: seq<Change>, files: map<Path, Bytes>) {
    && files.Keys == original.Keys
    && forall p :: p in original && files[p] != original[p] ==>
         exists i :: 0 <= i < |plan| && plan[i].entry.path == p && files[p] == After(original, plan[i])
  }

  lemma {:induction false} AppliedElsewhere(original: map<Path, Bytes>, plan: seq<Change>, n: nat, p: Path)
    requires n <= |plan| && forall i :: 0 <= i < n ==> plan[i].entry.path != p
    ensures var files := Applied(original, plan, n);
            files.Keys == original.Keys && (p in original ==> files[p] == original[p])
  {
    if n > 0 {
      AppliedElsewhere(original, plan, n - 1, p);
    }
  }

  lemma {:induction false} AppliedKeys(original: map<Path, Bytes>, plan: seq<Change>, n: nat)
    requires n <= |plan|
    ensures Applied(original, plan, n).Keys == original.Keys
  {
    if n > 0 { AppliedKeys(original, plan, n - 1); }
  }

  lemma {:induction false} AppliedChange(original: map<Path, Bytes>, plan: seq<Change>, n: nat, i: nat)
    requires PathsOk(original, plan) && i < n <= |plan|
    ensures plan[i].entry.path in Applied(original, plan, n)
    ensures Applied(original, plan, n)[plan[i].entry.path] == After(original, plan[i])
  {
    AppliedKeys(original, plan, n - 1);
    if i == n - 1 {
      AppliedElsewhere(original, plan, i, plan[i].entry.path);
    } else {
      AppliedChange(original, plan, n - 1, i);
    }
  }

  lemma AppliedIsBetween(original: map<Path, Bytes>, plan: seq<Change>, n: nat)
    requires PathsOk(original, plan) && n <= |plan|
    ensures Between(original, plan, Applied(original, plan, n))
  {
    AppliedKeys(original, plan, n);
    var files := Applied(original, plan, n);
    forall p | p in original && files[p] != original[p]
      ensures exists i :: 0 <= i < |plan| && plan[i].entry.path == p && files[p] == After(original, plan[i])
    {
      if forall i :: 0 <= i < n ==> plan[i].entry.path != p {
        AppliedElsewhere(original, plan, n, p);
      } else {
        var i :| 0 <= i < n && plan[i].entry.path == p;
        AppliedChange(original, plan, n, i);
      }
    }
  }

  /** apply_entry gives back the session's own bytes. */
  predicate Reproducible(t: Tool, line: Bytes) {
    NewLine(t, line, CurrentRecord(Metadata(t, line))) == Some(line)
  }

  /** Whether its change has landed or not, revert writes a session's original bytes or refuses. */
  lemma RevertsOne(t: Tool, original: map<Path, Bytes>, plan: seq<Change>, i: nat, files: map<Path, Bytes>)
    requires t.Lawful() && PlanOk(t, original, plan) && i < |plan| && Between(original, plan, files)
    ensures var path := plan[i].entry.path;
            RevertOne(t, files, plan[i].entry)
            == if Reproducible(t, FirstLine(original[path])) then Some(original[path]) else None
  {
    var c := plan[i];
    var path := c.entry.path;
    var line := FirstLine(original[path]);
    assert Planned(t, original, c);
    RecordedReads(Metadata(t, line), c.entry.after);
    Rewrites(t, line, c.entry.after, c.entry.before);
    Splits(c.line, Tail(original[path]));
    assert original[path] == line + Tail(original[path]);
    if files[path] != original[path] {
      var k :| 0 <= k < |plan| && plan[k].entry.path == path && files[path] == After(original, plan[k]);
      assert k == i;
    }
  }

  // ---- revert after any interruption ----

  function Min(a: nat, b: nat): nat {
    if a < b then a else b
  }

  /** A revert that may write `budget` files before it dies. */
  function Reverted(t: Tool, files: map<Path, Bytes>, entries: seq<Entry>, budget: nat): map<Path, Bytes> {
    match RevertPlan(t, files, entries)
    case None => files
    case Some(payloads) => Restored(files, entries, payloads, Min(budget, Min(|entries|, |payloads|)))
  }

  function RevertedAll(t: Tool, files: map<Path, Bytes>, entries: seq<Entry>, budgets: seq<nat>): map<Path, Bytes> {
    if budgets == [] then files
    else Reverted(t, RevertedAll(t, files, entries, budgets[..|budgets| - 1]), entries, budgets[|budgets| - 1])
  }

  ghost predicate AllReproducible(t: Tool, original: map<Path, Bytes>, plan: seq<Change>) {
    forall i :: 0 <= i < |plan| ==>
      plan[i].entry.path in original && Reproducible(t, FirstLine(original[plan[i].entry.path]))
  }

  predicate Originals(original: map<Path, Bytes>, entries: seq<Entry>, payloads: seq<Bytes>) {
    && |payloads| == |entries|
    && forall i :: 0 <= i < |entries| ==> entries[i].path in original && payloads[i] == original[entries[i].path]
  }

  lemma RevertPlanIsOriginal(t: Tool, original: map<Path, Bytes>, plan: seq<Change>, files: map<Path, Bytes>)
    requires t.Lawful() && PlanOk(t, original, plan) && Between(original, plan, files)
    ensures RevertPlan(t, files, Entries(plan)).Some? <==> AllReproducible(t, original, plan)
    ensures var payloads := RevertPlan(t, files, Entries(plan));
            payloads.Some? ==> Originals(original, Entries(plan), payloads.value)
  {
    var entries := Entries(plan);
    RevertPlanCovers(t, files, entries);
    forall i | 0 <= i < |plan| ensures entries[i] == plan[i].entry && Planned(t, original, plan[i])
      && RevertOne(t, files, entries[i])
         == if Reproducible(t, FirstLine(original[plan[i].entry.path])) then Some(original[plan[i].entry.path]) else None
    {
      RevertsOne(t, original, plan, i, files);
    }
  }

  lemma {:induction false} RestoredAt(original: map<Path, Bytes>, entries: seq<Entry>, files: map<Path, Bytes>,
                                      payloads: seq<Bytes>, n: nat)
    requires Originals(original, entries, payloads) && files.Keys == original.Keys && n <= |entries|
    ensures var restored := Restored(files, entries, payloads, n);
            && restored.Keys == original.Keys
            && (forall p :: p in original ==> restored[p] == original[p] || restored[p] == files[p])
            && (forall i :: 0 <= i < n ==> restored[entries[i].path] == original[entries[i].path])
  {
    if n > 0 {
      RestoredAt(original, entries, files, payloads, n - 1);
    }
  }

  lemma RevertStaysBetween(t: Tool, original: map<Path, Bytes>, plan: seq<Change>, files: map<Path, Bytes>, budget: nat)
    requires t.Lawful() && PlanOk(t, original, plan) && Between(original, plan, files)
    ensures Between(original, plan, Reverted(t, files, Entries(plan), budget))
    ensures AllReproducible(t, original, plan) && budget >= |plan| ==> Reverted(t, files, Entries(plan), budget) == original
  {
    RevertPlanIsOriginal(t, original, plan, files);
    var payloads := RevertPlan(t, files, Entries(plan));
    if payloads.Some? {
      RestoredAt(original, Entries(plan), files, payloads.value, Min(budget, |plan|));
      var restored := Reverted(t, files, Entries(plan), budget);
      if budget >= |plan| {
        forall p | p in original ensures restored[p] == original[p] {
          if files[p] != original[p] {
            var i :| 0 <= i < |plan| && plan[i].entry.path == p && files[p] == After(original, plan[i]);
            assert Entries(plan)[i].path == p;
          }
        }
      }
    }
  }

  lemma {:induction false} RevertsStayBetween(t: Tool, original: map<Path, Bytes>, plan: seq<Change>, files: map<Path, Bytes>,
                                              budgets: seq<nat>)
    requires t.Lawful() && PlanOk(t, original, plan) && Between(original, plan, files)
    ensures Between(original, plan, RevertedAll(t, files, Entries(plan), budgets))
  {
    if budgets != [] {
      RevertsStayBetween(t, original, plan, files, budgets[..|budgets| - 1]);
      RevertStaysBetween(t, original, plan, RevertedAll(t, files, Entries(plan), budgets[..|budgets| - 1]), budgets[|budgets| - 1]);
    }
  }

  lemma PlannedRevertIsExactOrRefuses(t: Tool, original: map<Path, Bytes>, plan: seq<Change>, n: nat, budgets: seq<nat>)
    requires t.Lawful() && PlanOk(t, original, plan) && n <= |plan|
    ensures var files := RevertedAll(t, Applied(original, plan, n), Entries(plan), budgets);
            && (RevertPlan(t, files, Entries(plan)).Some? <==> AllReproducible(t, original, plan))
            && Reverted(t, files, Entries(plan), |plan|) == if AllReproducible(t, original, plan) then original else files
  {
    AppliedIsBetween(original, plan, n);
    RevertsStayBetween(t, original, plan, Applied(original, plan, n), budgets);
    var files := RevertedAll(t, Applied(original, plan, n), Entries(plan), budgets);
    RevertPlanIsOriginal(t, original, plan, files);
    RevertStaysBetween(t, original, plan, files, |plan|);
  }

  /**
   After any number of an apply's writes and any interrupted reverts, one more revert refuses before
   its first write, or the whole store is byte for byte the one before the apply. Which of the two
   depends on the original store alone, so an interruption never closes a way back that was open.
   */
  lemma RevertIsExactOrRefuses(t: Tool, original: map<Path, Bytes>, sessions: seq<(Path, Kind)>, plan: seq<Change>, n: nat,
                               budgets: seq<nat>)
    requires t.Lawful() && DistinctPaths(sessions) && Plan(t, original, sessions) == Some(plan) && n <= |plan|
    ensures var files := RevertedAll(t, Applied(original, plan, n), Entries(plan), budgets);
            && (RevertPlan(t, files, Entries(plan)).Some? <==> AllReproducible(t, original, plan))
            && Reverted(t, files, Entries(plan), |plan|) == if AllReproducible(t, original, plan) then original else files
  {
    PlansAreOk(t, original, sessions);
    PlannedRevertIsExactOrRefuses(t, original, plan, n, budgets);
  }

  // ---- exactly which sessions can be reverted ----

  /** Rendered by json.dumps, with a metadata object whose access keys come last and in their order. */
  predicate Canonical(t: Tool, line: Bytes) {
    match t.loads(line)
    case Some(Object(fields)) =>
      var metadata := Metadata(t, line);
      && line == t.dumps(Object(fields))
      && Get(fields, METADATA) == Some(Object(metadata))
      && metadata == Without(metadata, AccessKeys()) + CurrentRecord(metadata)
    case _ => false
  }

  lemma ReproducibleIffCanonical(t: Tool, line: Bytes)
    requires t.Lawful()
    ensures Reproducible(t, line) <==> Canonical(t, line)
  {
    match t.loads(line)
    case Some(Object(fields)) =>
      var metadata := Metadata(t, line);
      var kept := Object(Without(metadata, AccessKeys()) + CurrentRecord(metadata));
      PutGets(fields, METADATA, kept, kept);
      ParsedMetadata(t, line);
      ReplacedIsProper(metadata, CurrentRecord(metadata));
      assert Proper(t.loads(line).value);
      PutIsProper(fields, METADATA, kept);
      if Reproducible(t, line) {
        assert t.loads(line) == Some(Object(Put(fields, METADATA, kept)));
      }
    case _ =>
  }

  // ---- a second apply ----

  /** A change that landed is not planned again, and a file that did not change is planned the same. */
  lemma ScansAfter(t: Tool, original: map<Path, Bytes>, files: map<Path, Bytes>, path: Path, kind: Kind)
    requires t.Lawful() && path in original && path in files
    ensures files[path] == original[path] ==> ScanOne(t, files, path, kind) == ScanOne(t, original, path, kind)
    ensures var scan := ScanOne(t, original, path, kind);
            scan.Changes? && files[path] == After(original, scan.change) ==> ScanOne(t, files, path, kind) == Unchanged
  {
    var scan := ScanOne(t, original, path, kind);
    if scan.Changes? && files[path] == After(original, scan.change) {
      var c := scan.change;
      var line := FirstLine(original[path]);
      ScanPlans(t, original, path, kind);
      RecordedReads(Metadata(t, line), c.entry.after);
      Rewrites(t, line, c.entry.after, c.entry.before);
      Splits(c.line, Tail(original[path]));
      ResolvesAlike(Metadata(t, line), c.entry.after);
    }
  }

  /** `plan` starts with what `sessions` plan and goes on with changes of other files. */
  ghost predicate Extends(t: Tool, original: map<Path, Bytes>, sessions: seq<(Path, Kind)>, plan: seq<Change>) {
    && PathsOk(original, plan) && Plan(t, original, sessions).Some? && Plan(t, original, sessions).value <= plan
    && forall i, j :: |Plan(t, original, sessions).value| <= i < |plan| && 0 <= j < |sessions| ==>
         plan[i].entry.path != sessions[j].0
  }

  lemma ExtendsMost(t: Tool, original: map<Path, Bytes>, sessions: seq<(Path, Kind)>, plan: seq<Change>)
    requires DistinctPaths(sessions) && Extends(t, original, sessions, plan) && sessions != []
    ensures Extends(t, original, sessions[..|sessions| - 1], plan)
  {
    var most := sessions[..|sessions| - 1];
    var last := sessions[|sessions| - 1];
    var before := Plan(t, original, most).value;
    var so := Plan(t, original, sessions).value;
    ScanPlans(t, original, last.0, last.1);
    assert before <= so;
    forall i, j | |before| <= i < |plan| && 0 <= j < |most| ensures plan[i].entry.path != most[j].0 {
      assert most[j] == sessions[j];
      if i < |so| { assert plan[i] == so[i] && so[i].entry.path == last.0; }
    }
  }

  lemma LastScan(t: Tool, original: map<Path, Bytes>, sessions: seq<(Path, Kind)>, plan: seq<Change>, n: nat)
    requires t.Lawful() && DistinctPaths(sessions) && Extends(t, original, sessions, plan) && n <= |plan| && sessions != []
    ensures var last := sessions[|sessions| - 1];
            var planned := |Plan(t, original, sessions[..|sessions| - 1]).value|;
            var scan := ScanOne(t, original, last.0, last.1);
            ScanOne(t, Applied(original, plan, n), last.0, last.1) == if scan.Changes? && planned < n then Unchanged else scan
  {
    var last := sessions[|sessions| - 1];
    var before := Plan(t, original, sessions[..|sessions| - 1]).value;
    var so := Plan(t, original, sessions).value;
    var scan := ScanOne(t, original, last.0, last.1);
    AppliedKeys(original, plan, n);
    if last.0 in original {
      ScansAfter(t, original, Applied(original, plan, n), last.0, last.1);
      ScanPlans(t, original, last.0, last.1);
      if scan.Changes? && |before| < n {
        assert so == before + [scan.change] && plan[|before|] == so[|before|] == scan.change;
        AppliedChange(original, plan, n, |before|);
      } else {
        NotApplied(t, original, sessions, plan, n);
      }
    }
  }

  /** The last session's file is untouched when its change is not among the first n. */
  lemma NotApplied(t: Tool, original: map<Path, Bytes>, sessions: seq<(Path, Kind)>, plan: seq<Change>, n: nat)
    requires DistinctPaths(sessions) && Extends(t, original, sessions, plan) && n <= |plan| && sessions != []
    requires var before := Plan(t, original, sessions[..|sessions| - 1]).value;
             Plan(t, original, sessions).value == before || n <= |before|
    requires sessions[|sessions| - 1].0 in original
    ensures var p := sessions[|sessions| - 1].0; p in Applied(original, plan, n) && Applied(original, plan, n)[p] == original[p]
  {
    var most := sessions[..|sessions| - 1];
    var last := sessions[|sessions| - 1];
    var before := Plan(t, original, most).value;
    PlansAreOk(t, original, most);
    forall i | 0 <= i < n ensures plan[i].entry.path != last.0 {
      if i < |before| {
        assert plan[i] == before[i];
        LastIsNew(sessions, plan[i].entry.path);
      }
    }
    AppliedElsewhere(original, plan, n, last.0);
  }

  lemma AppendsRemain(before: seq<Change>, scan: Scan, n: nat)
    requires !scan.Fails?
    ensures var so := Append(Some(before), scan).value;
            Append(Some(before[Min(n, |before|)..]), if scan.Changes? && |before| < n then Unchanged else scan)
            == Some(so[Min(n, |so|)..])
  {
    var so := Append(Some(before), scan).value;
    if scan.Changes? && |before| < n {
      assert before[Min(n, |before|)..] == so[Min(n, |so|)..];
    } else if scan.Changes? {
      assert so[n..] == before[n..] + [scan.change];
    }
  }

  lemma {:induction false} PlansRemain(t: Tool, original: map<Path, Bytes>, sessions: seq<(Path, Kind)>, plan: seq<Change>, n: nat)
    requires t.Lawful() && DistinctPaths(sessions) && Extends(t, original, sessions, plan) && n <= |plan|
    ensures var so := Plan(t, original, sessions).value;
            Plan(t, Applied(original, plan, n), sessions) == Some(so[Min(n, |so|)..])
  {
    if sessions != [] {
      var last := sessions[|sessions| - 1];
      var before := Plan(t, original, sessions[..|sessions| - 1]).value;
      ExtendsMost(t, original, sessions, plan);
      PlansRemain(t, original, sessions[..|sessions| - 1], plan, n);
      LastScan(t, original, sessions, plan, n);
      AppendsRemain(before, ScanOne(t, original, last.0, last.1), n);
    }
  }

  /**
   Running apply again over a store that holds the first n of its changes plans exactly the rest, and
   nothing at all once every change landed. Its report therefore no longer lists the first n.
   */
  lemma SecondApplyPlansTheRest(t: Tool, original: map<Path, Bytes>, sessions: seq<(Path, Kind)>, plan: seq<Change>, n: nat)
    requires t.Lawful() && DistinctPaths(sessions) && Plan(t, original, sessions) == Some(plan) && n <= |plan|
    ensures Plan(t, Applied(original, plan, n), sessions) == Some(plan[n..])
  {
    PlansAreOk(t, original, sessions);
    PlansRemain(t, original, sessions, plan, n);
  }

  /** So the report of a second apply leads back to the interrupted store, not to the original one. */
  lemma SecondReportLeadsBackToTheInterruption(t: Tool, original: map<Path, Bytes>, sessions: seq<(Path, Kind)>,
                                               plan: seq<Change>, n: nat)
    requires t.Lawful() && DistinctPaths(sessions) && Plan(t, original, sessions) == Some(plan) && n <= |plan|
    ensures var interrupted := Applied(original, plan, n);
            var rest := plan[n..];
            var files := Applied(interrupted, rest, |rest|);
            Reverted(t, files, Entries(rest), |rest|) == if AllReproducible(t, interrupted, rest) then interrupted else files
  {
    SecondApplyPlansTheRest(t, original, sessions, plan, n);
    var interrupted := Applied(original, plan, n);
    var rest := plan[n..];
    RevertIsExactOrRefuses(t, interrupted, sessions, rest, |rest|, []);
    assert RevertedAll(t, Applied(interrupted, rest, |rest|), Entries(rest), []) == Applied(interrupted, rest, |rest|);
  }

  // ---- what an apply leaves on disk, wherever it dies ----

  /** The session still has the first line and the rest that the scan read. */
  predicate Unmoved(scanned: map<Path, Bytes>, files: map<Path, Bytes>, path: Path) {
    && path in scanned && path in files
    && FirstLine(files[path]) == FirstLine(scanned[path]) && Rest(files[path]) == Rest(scanned[path])
  }

  predicate Verified(scanned: map<Path, Bytes>, files: map<Path, Bytes>, plan: seq<Change>) {
    forall i :: 0 <= i < |plan| ==> Unmoved(scanned, files, plan[i].entry.path)
  }

  /** A plan that passes the check before the first write is a plan for the store as it is by then. */
  lemma VerifiedPlansStand(t: Tool, scanned: map<Path, Bytes>, files: map<Path, Bytes>, plan: seq<Change>)
    requires PlanOk(t, scanned, plan) && Verified(scanned, files, plan)
    ensures PlanOk(t, files, plan)
  {
    forall i | 0 <= i < |plan| ensures plan[i].entry.path in files && Planned(t, files, plan[i]) {
      assert Unmoved(scanned, files, plan[i].entry.path) && Planned(t, scanned, plan[i]);
    }
  }

  /** The report is rewritten in place: a death between truncating it and the end of the write tears it. */
  datatype Report = Missing | Torn | Whole(entries: seq<Entry>, finished: bool)

  /** After truncating, writing, every session, truncating and writing again; `steps` of these survive. */
  function ReportAfter(before: Report, plan: seq<Change>, steps: nat): Report {
    if steps == 0 then before
    else if steps == 1 || steps == |plan| + 3 then Torn
    else Whole(Entries(plan), steps >= |plan| + 4)
  }

  function StoreAfter(files: map<Path, Bytes>, plan: seq<Change>, steps: nat): map<Path, Bytes> {
    Applied(files, plan, if steps < 2 then 0 else Min(steps - 2, |plan|))
  }

  /** What a revert makes of a store and its report; it cannot read a torn one. */
  function WayBack(t: Tool, files: map<Path, Bytes>, report: Report): map<Path, Bytes> {
    if report.Whole? then Reverted(t, files, report.entries, |report.entries|) else files
  }

  /**
   A store of reproducible sessions can be brought back wherever the apply dies, except inside its
   second write of the report: then every change has landed and nothing says what stood there before.
   */
  lemma TornReportLosesTheWayBack(t: Tool, original: map<Path, Bytes>, plan: seq<Change>, before: Report, steps: nat)
    requires t.Lawful() && PlanOk(t, original, plan) && AllReproducible(t, original, plan) && steps > 0
    ensures WayBack(t, StoreAfter(original, plan, steps), ReportAfter(before, plan, steps))
            == if steps == |plan| + 3 then Applied(original, plan, |plan|) else original
  {
    if steps != 1 && steps != |plan| + 3 {
      var n := Min(steps - 2, |plan|);
      PlannedRevertIsExactOrRefuses(t, original, plan, n, []);
      assert RevertedAll(t, Applied(original, plan, n), Entries(plan), []) == Applied(original, plan, n);
    }
  }

  // ---- the two modes, step by step ----

  datatype Outcome = Finished | Refused | Died

  class SessionStore {
    const tool: Tool
    const sessions: seq<(Path, Kind)>
    var files: map<Path, Bytes>
    var report: Report

    constructor (tool: Tool, sessions: seq<(Path, Kind)>, files: map<Path, Bytes>)
      ensures this.tool == tool && this.sessions == sessions && this.files == files && report == Missing
    {
      this.tool, this.sessions, this.files, report := tool, sessions, files, Missing;
    }

    /** The scan of run(): nothing is written while it can still fail. */
    method MakePlan() returns (plan: Option<seq<Change>>)
      ensures plan == Plan(tool, files, sessions)
    {
      var planned := [];
      var i := 0;
      while i < |sessions|
        invariant 0 <= i <= |sessions|
        invariant Plan(tool, files, sessions[..i]) == Some(planned)
      {
        assert sessions[..i + 1][..i] == sessions[..i];
        match ScanOne(tool, files, sessions[i].0, sessions[i].1) {
          case Fails =>
            PlanFails(tool, files, sessions, i + 1);
            return None;
          case Unchanged =>
          case Changes(change) => planned := planned + [change];
        }
        i := i + 1;
      }
      assert sessions[..i] == sessions;
      return Some(planned);
    }

    /** _verify_planned: every planned session is compared with its scan before the first write. */
    method VerifyPlanned(scanned: map<Path, Bytes>, plan: seq<Change>) returns (ok: bool)
      ensures ok == Verified(scanned, files, plan)
    {
      var i := 0;
      while i < |plan|
        invariant 0 <= i <= |plan|
        invariant forall j :: 0 <= j < i ==> Unmoved(scanned, files, plan[j].entry.path)
      {
        if !Unmoved(scanned, files, plan[i].entry.path) { return false; }
        i := i + 1;
      }
      return true;
    }

    /** The writing loop of run(). */
    method WriteAll(plan: seq<Change>, budget: nat) returns (outcome: Outcome)
      modifies this`files
      ensures files == Applied(old(files), plan, Min(budget, |plan|))
      ensures outcome == if budget < |plan| then Died else Finished
    {
      var i := 0;
      while i < |plan|
        invariant 0 <= i <= |plan| && i <= budget
        invariant files == Applied(old(files), plan, i)
      {
        if i == budget { return Died; }
        files := Replace(files, plan[i]);
        i := i + 1;
      }
      return Finished;
    }

    /**
     `arrivals` are the sessions that other processes rewrite between the scan and the check; a run
     that may take `steps` durable steps dies before the next.
     */
    method Apply(arrivals: map<Path, Bytes>, steps: nat) returns (outcome: Outcome)
      modifies this
      ensures var plan := Plan(tool, old(files), sessions); var arrived := old(files) + arrivals;
              if plan.None? then outcome == Refused && files == old(files) && report == old(report)
              else if !Verified(old(files), arrived, plan.value) then
                outcome == Refused && files == arrived && report == old(report)
              else
                && report == ReportAfter(old(report), plan.value, steps)
                && files == StoreAfter(arrived, plan.value, steps)
                && outcome == if steps >= |plan.value| + 4 then Finished else Died
    {
      var planned := MakePlan();
      if planned.None? { return Refused; }
      var scanned, plan := files, planned.value;
      files := files + arrivals;
      var ok := VerifyPlanned(scanned, plan);
      if !ok { return Refused; }
      if steps == 0 { return Died; }
      report := Torn;
      if steps == 1 { return Died; }
      report := Whole(Entries(plan), false);
      outcome := WriteAll(plan, steps - 2);
      if steps <= |plan| + 2 { return Died; }
      report := Torn;
      if steps == |plan| + 3 { return Died; }
      report := Whole(Entries(plan), true);
      return Finished;
    }

    /** The checking loop of revert(): every payload is rebuilt before the first file is replaced. */
    method Rebuild(entries: seq<Entry>) returns (payloads: Option<seq<Bytes>>)
      ensures payloads == RevertPlan(tool, files, entries)
    {
      var rebuilt := [];
      var i := 0;
      while i < |entries|
        invariant 0 <= i <= |entries|
        invariant RevertPlan(tool, files, entries[..i]) == Some(rebuilt)
      {
        assert entries[..i + 1][..i] == entries[..i];
        var payload := RevertOne(tool, files, entries[i]);
        if payload.None? {
          RevertFails(tool, files, entries, i + 1);
          return None;
        }
        rebuilt := rebuilt + [payload.value];
        i := i + 1;
      }
      assert entries[..i] == entries;
      return Some(rebuilt);
    }

    /** Replaces the recorded files; a process that may make `budget` writes dies before the next. */
    method Revert(budget: nat) returns (outcome: Outcome)
      modifies this
      ensures report == old(report)
      ensures files == if report.Whole? then Reverted(tool, old(files), report.entries, budget) else old(files)
      ensures outcome == if !report.Whole? || RevertPlan(tool, old(files), report.entries).None? then Refused
                         else if budget < |report.entries| then Died else Finished
    {
      if !report.Whole? { return Refused; }
      var entries := report.entries;
      var rebuilt := Rebuild(entries);
      if rebuilt.None? { return Refused; }
      var payloads := rebuilt.value;
      RevertPlanLength(tool, files, entries);
      outcome := ReplaceAll(entries, payloads, budget);
    }

    /** The writing loop of revert(). */
    method ReplaceAll(entries: seq<Entry>, payloads: seq<Bytes>, budget: nat) returns (outcome: Outcome)
      requires |entries| == |payloads|
      modifies this`files
      ensures files == Restored(old(files), entries, payloads, Min(budget, |entries|))
      ensures outcome == if budget < |entries| then Died else Finished
    {
      var i := 0;
      while i < |entries|
        invariant 0 <= i <= |entries| && i <= budget
        invariant files == Restored(old(files), entries, payloads, i)
      {
        if i == budget { return Died; }
        files := files[entries[i].path := payloads[i]];
        i := i + 1;
      }
      return Finished;
    }
  }

  lemma {:induction false} PlanFails(t: Tool, files: map<Path, Bytes>, sessions: seq<(Path, Kind)>, n: nat)
    requires n <= |sessions| && Plan(t, files, sessions[..n]).None?
    ensures Plan(t, files, sessions).None?
    decreases |sessions|
  {
    if n == |sessions| {
      assert sessions[..n] == sessions;
    } else {
      var most := sessions[..|sessions| - 1];
      assert most[..n] == sessions[..n];
      PlanFails(t, files, most, n);
    }
  }

  lemma {:induction false} RevertFails(t: Tool, files: map<Path, Bytes>, entries: seq<Entry>, n: nat)
    requires n <= |entries| && RevertPlan(t, files, entries[..n]).None?
    ensures RevertPlan(t, files, entries).None?
    decreases |entries|
  {
    if n == |entries| {
      assert entries[..n] == entries;
    } else {
      var most := entries[..|entries| - 1];
      assert most[..n] == entries[..n];
      RevertFails(t, files, most, n);
    }
  }
}
