/**
 The part of TOML that the Codex export writes: tables under mcp_servers, and fields that are basic
 strings, integers, booleans, arrays of strings or inline tables of strings.
 */
module Toml {
  import opened Wrappers
  import R = Releases

  datatype Value =
    | Text(text: string)
    | Number(number: nat)
    | Flag(flag: bool)
    | Array(items: seq<string>)
    | Table(entries: seq<(string, string)>)

  datatype Section = Section(name: string, fields: seq<(string, Value)>)

  // ---- characters ----

  /** General category Cc: the C0 and C1 controls and DEL. */
  predicate IsControl(c: char) {
    c as int < 0x20 || 0x7F <= c as int < 0xA0
  }

  predicate IsSafe(s: string) {
    forall i :: 0 <= i < |s| ==> !IsControl(s[i])
  }

  predicate IsBare(c: char) {
    'A' <= c <= 'Z' || 'a' <= c <= 'z' || '0' <= c <= '9' || c == '_' || c == '-'
  }

  predicate IsBareKey(s: string) {
    s != "" && forall i :: 0 <= i < |s| ==> IsBare(s[i])
  }

  // ---- printing: _toml_string, _toml_key, _toml_array and the renderers' lines ----

  /** json.dumps leaves safe characters alone apart from the quote and the backslash. */
  function Escape(s: string): string {
    if s == "" then "" else Escaped(s[0]) + Escape(s[1..])
  }

  function Escaped(c: char): string {
    if c == '"' || c == '\\' then ['\\', c] else [c]
  }

  function Quote(s: string): string {
    ['"'] + Escape(s) + ['"']
  }

  function QuoteAll(items: seq<string>): string
    requires items != []
  {
    if |items| == 1 then Quote(items[0]) else Quote(items[0]) + (", " + QuoteAll(items[1..]))
  }

  function Entry(e: (string, string)): string {
    Quote(e.0) + (" = " + Quote(e.1))
  }

  function Entries(entries: seq<(string, string)>): string
    requires entries != []
  {
    if |entries| == 1 then Entry(entries[0]) else Entry(entries[0]) + (", " + Entries(entries[1..]))
  }

  /** The renderers never print an empty array or inline table. */
  predicate Printable(v: Value) {
    match v
    case Text(s) => IsSafe(s)
    case Array(items) => items != [] && forall i :: 0 <= i < |items| ==> IsSafe(items[i])
    case Table(entries) =>
      && entries != [] && DistinctKeys(entries)
      && forall i :: 0 <= i < |entries| ==> IsSafe(entries[i].0) && IsSafe(entries[i].1)
    case _ => true
  }

  function Print(v: Value): string
    requires Printable(v)
  {
    match v
    case Text(s) => Quote(s)
    case Number(n) => R.Digits(n)
    case Flag(b) => if b then "true" else "false"
    case Array(items) => "[" + (QuoteAll(items) + "]")
    case Table(entries) => "{" + (Entries(entries) + "}")
  }

  function FieldLine(f: (string, Value)): string
    requires Printable(f.1)
  {
    f.0 + (" = " + Print(f.1))
  }

  const PREFIX := "[mcp_servers."

  function HeaderLine(name: string): string {
    PREFIX + (Quote(name) + "]")
  }

  // ---- parsing ----

  function Skip(s: string): (r: string)
    ensures |r| <= |s|
  {
    if s != "" && (s[0] == ' ' || s[0] == '\t') then Skip(s[1..]) else s
  }

  /** The rest of a basic string after its opening quote; other escapes are outside this part of TOML. */
  function Unescape(s: string): (r: Option<(string, string)>)
    ensures r.Some? ==> |r.value.1| < |s|
  {
    if s == "" then None
    else if s[0] == '"' then Some(("", s[1..]))
    else if s[0] == '\\' then
      if |s| < 2 || (s[1] != '"' && s[1] != '\\') then None
      else
        (match Unescape(s[2..]) case None => None case Some((text, rest)) => Some(([s[1]] + text, rest)))
    else if IsControl(s[0]) then None
    else
      (match Unescape(s[1..]) case None => None case Some((text, rest)) => Some(([s[0]] + text, rest)))
  }

  function Unquote(s: string): (r: Option<(string, string)>)
    ensures r.Some? ==> |r.value.1| < |s|
  {
    if s != "" && s[0] == '"' then Unescape(s[1..]) else None
  }

  /** What follows a character, when it is next. */
  function Expect(s: string, c: char): Option<string> {
    if s != "" && s[0] == c then Some(s[1..]) else None
  }

  /** Items up to the closing bracket. */
  function ItemsTo(s: string): Option<(seq<string>, string)>
    decreases |s|
  {
    match Unquote(s)
    case None => None
    case Some((item, after)) =>
      var rest := Skip(after);
      if Expect(rest, ']').Some? then Some(([item], rest[1..]))
      else if Expect(rest, ',').None? then None
      else
        match ItemsTo(Skip(rest[1..]))
        case None => None
        case Some((more, end)) => Some(([item] + more, end))
  }

  function EntryFrom(s: string): (r: Option<((string, string), string)>)
    ensures r.Some? ==> |r.value.1| < |s|
  {
    match Unquote(s)
    case None => None
    case Some((key, after)) =>
      match Expect(Skip(after), '=')
      case None => None
      case Some(rest) =>
        match Unquote(Skip(rest))
        case None => None
        case Some((value, end)) => Some(((key, value), end))
  }

  /** Entries up to the closing brace. */
  function EntriesTo(s: string): Option<(seq<(string, string)>, string)>
    decreases |s|
  {
    match EntryFrom(s)
    case None => None
    case Some((entry, after)) =>
      var rest := Skip(after);
      if Expect(rest, '}').Some? then Some(([entry], rest[1..]))
      else if Expect(rest, ',').None? then None
      else
        match EntriesTo(Skip(rest[1..]))
        case None => None
        case Some((more, end)) => Some(([entry] + more, end))
  }

  predicate DistinctKeys<T>(entries: seq<(string, T)>) {
    forall i, j :: 0 <= i < j < |entries| ==> entries[i].0 != entries[j].0
  }

  function ParseValue(s: string): Option<(Value, string)> {
    if s == "" then None
    else if s[0] == '"' then
      (match Unquote(s) case None => None case Some((text, rest)) => Some((Text(text), rest)))
    else if s[0] == '[' then
      if Expect(Skip(s[1..]), ']').Some? then Some((Array([]), Skip(s[1..])[1..]))
      else (match ItemsTo(Skip(s[1..])) case None => None case Some((items, rest)) => Some((Array(items), rest)))
    else if s[0] == '{' then
      if Expect(Skip(s[1..]), '}').Some? then Some((Table([]), Skip(s[1..])[1..]))
      else
        (match EntriesTo(Skip(s[1..]))
         case None => None
         case Some((entries, rest)) => if DistinctKeys(entries) then Some((Table(entries), rest)) else None)
    else if "true" <= s then Some((Flag(true), s[4..]))
    else if "false" <= s then Some((Flag(false), s[5..]))
    else
      (match R.Number(s) case None => None case Some((n, rest)) => Some((Number(n), rest)))
  }

  function BareRun(s: string): (n: nat)
    ensures n <= |s|
  {
    if s != "" && IsBare(s[0]) then 1 + BareRun(s[1..]) else 0
  }

  function ParseField(line: string): Option<(string, Value)> {
    var n := BareRun(line);
    if n == 0 then None
    else
      match Expect(Skip(line[n..]), '=')
      case None => None
      case Some(rest) =>
        match ParseValue(Skip(rest))
        case None => None
        case Some((value, end)) => if Skip(end) == "" then Some((line[..n], value)) else None
  }

  function ParseHeader(line: string): Option<string> {
    if !(PREFIX <= line) then None
    else
      match Unquote(line[|PREFIX|..])
      case None => None
      case Some((name, rest)) => if Expect(rest, ']').Some? && Skip(rest[1..]) == "" then Some(name) else None
  }

  // ---- strings round trip ----

  function Close(rest: string): string {
    ['"'] + rest
  }

  lemma {:induction false} UnescapeReads(t: string, rest: string)
    requires IsSafe(t)
    ensures Unescape(Escape(t) + Close(rest)) == Some((t, rest))
  {
    if t == "" {
      assert Escape(t) + Close(rest) == Close(rest) && Close(rest)[1..] == rest;
    } else {
      UnescapeReads(t[1..], rest);
      UnescapeOne(t[0], Escape(t[1..]) + Close(rest), t[1..], rest);
      assert Escape(t) + Close(rest) == Escaped(t[0]) + (Escape(t[1..]) + Close(rest));
      assert t == [t[0]] + t[1..];
    }
  }

  lemma UnescapeOne(c: char, tail: string, text: string, rest: string)
    requires !IsControl(c) && Unescape(tail) == Some((text, rest))
    ensures Unescape(Escaped(c) + tail) == Some(([c] + text, rest))
  {
    assert (['\\', c] + tail)[2..] == tail && ([c] + tail)[1..] == tail;
  }

  lemma UnquoteReads(t: string, rest: string)
    requires IsSafe(t)
    ensures Unquote(Quote(t) + rest) == Some((t, rest))
  {
    UnescapeReads(t, rest);
    assert (Quote(t) + rest)[1..] == Escape(t) + Close(rest);
  }

  // ---- arrays and inline tables round trip ----

  lemma Regroups<T>(a: seq<T>, b: seq<T>, c: seq<T>, d: seq<T>)
    ensures (a + (b + c)) + d == a + (b + (c + d))
  {
  }

  lemma FirstMoves<T>(done: seq<T>, todo: seq<T>)
    requires todo != []
    ensures done + todo == (done + [todo[0]]) + todo[1..]
    ensures todo == [todo[0]] + todo[1..]
  {
  }

  /** What a separator leaves to be read: the printers put one space after each comma. */
  lemma CommaReads(more: string)
    requires more != "" && more[0] == '"'
    ensures var after := ", " + more; Skip(after) == after && after[0] == ',' && Skip(after[1..]) == more
  {
    var after := ", " + more;
    assert after[1..] == " " + more && (" " + more)[1..] == more;
  }

  lemma ItemsEnd(s: string, item: string, rest: string)
    requires Unquote(s) == Some((item, "]" + rest))
    ensures ItemsTo(s) == Some(([item], rest))
  {
    var end := "]" + rest;
    assert end[1..] == rest && end[0] == ']' && Skip(end) == end;
  }

  lemma ItemsStep(s: string, item: string, more: string, items: seq<string>, rest: string)
    requires more != "" && more[0] == '"' && Unquote(s) == Some((item, ", " + more)) && ItemsTo(more) == Some((items, rest))
    ensures ItemsTo(s) == Some(([item] + items, rest))
  {
    CommaReads(more);
  }

  lemma {:induction false} ItemsRead(items: seq<string>, rest: string)
    requires items != [] && forall i :: 0 <= i < |items| ==> IsSafe(items[i])
    ensures ItemsTo(QuoteAll(items) + ("]" + rest)) == Some((items, rest))
  {
    var end := "]" + rest;
    if |items| == 1 {
      UnquoteReads(items[0], end);
      assert items == [items[0]];
      ItemsEnd(QuoteAll(items) + end, items[0], rest);
    } else {
      ItemsRead(items[1..], rest);
      var more := QuoteAll(items[1..]) + end;
      UnquoteReads(items[0], ", " + more);
      Regroups(Quote(items[0]), ", ", QuoteAll(items[1..]), end);
      ItemsStep(QuoteAll(items) + end, items[0], more, items[1..], rest);
      FirstMoves([], items);
    }
  }

  lemma EqualsReads(value: string)
    requires value != "" && value[0] != ' ' && value[0] != '\t'
    ensures var after := " = " + value; Skip(after) == "= " + value && Skip(("= " + value)[1..]) == value
  {
    var after := " = " + value;
    assert after[1..] == "= " + value && ("= " + value)[1..] == " " + value && (" " + value)[1..] == value;
    assert Skip("= " + value) == "= " + value && Skip(value) == value;
  }

  lemma EntryReads(e: (string, string), rest: string)
    requires IsSafe(e.0) && IsSafe(e.1)
    ensures EntryFrom(Entry(e) + rest) == Some((e, rest))
  {
    var value := Quote(e.1) + rest;
    var after := " = " + value;
    assert Entry(e) + rest == Quote(e.0) + after;
    UnquoteReads(e.0, after);
    assert value[0] == '"';
    EqualsReads(value);
    UnquoteReads(e.1, rest);
  }

  lemma EntriesEnd(s: string, entry: (string, string), rest: string)
    requires EntryFrom(s) == Some((entry, "}" + rest))
    ensures EntriesTo(s) == Some(([entry], rest))
  {
    var end := "}" + rest;
    assert end[1..] == rest && end[0] == '}' && Skip(end) == end;
  }

  lemma EntriesStep(s: string, entry: (string, string), more: string, entries: seq<(string, string)>, rest: string)
    requires more != "" && more[0] == '"' && EntryFrom(s) == Some((entry, ", " + more)) && EntriesTo(more) == Some((entries, rest))
    ensures EntriesTo(s) == Some(([entry] + entries, rest))
  {
    CommaReads(more);
  }

  lemma {:induction false} EntriesRead(entries: seq<(string, string)>, rest: string)
    requires entries != [] && forall i :: 0 <= i < |entries| ==> IsSafe(entries[i].0) && IsSafe(entries[i].1)
    ensures EntriesTo(Entries(entries) + ("}" + rest)) == Some((entries, rest))
  {
    var end := "}" + rest;
    if |entries| == 1 {
      EntryReads(entries[0], end);
      assert entries == [entries[0]];
      EntriesEnd(Entries(entries) + end, entries[0], rest);
    } else {
      EntriesRead(entries[1..], rest);
      var more := Entries(entries[1..]) + end;
      EntryReads(entries[0], ", " + more);
      Regroups(Entry(entries[0]), ", ", Entries(entries[1..]), end);
      EntriesStep(Entries(entries) + end, entries[0], more, entries[1..], rest);
      FirstMoves([], entries);
    }
  }

  // ---- values and lines round trip ----

  lemma ArrayReads(items: seq<string>)
    requires Printable(Array(items))
    ensures ParseValue(Print(Array(items))) == Some((Array(items), ""))
  {
    ItemsRead(items, "");
    var body := QuoteAll(items) + "]";
    assert "]" + "" == "]" && Print(Array(items))[1..] == body && body[0] == '"' && Skip(body) == body;
  }

  lemma TableReads(entries: seq<(string, string)>)
    requires Printable(Table(entries))
    ensures ParseValue(Print(Table(entries))) == Some((Table(entries), ""))
  {
    EntriesRead(entries, "");
    var body := Entries(entries) + "}";
    assert "}" + "" == "}" && Print(Table(entries))[1..] == body && body[0] == '"' && Skip(body) == body;
  }

  lemma ValueReads(v: Value)
    requires Printable(v)
    ensures ParseValue(Print(v)) == Some((v, ""))
  {
    match v
    case Text(s) =>
      UnquoteReads(s, "");
      assert Quote(s) + "" == Quote(s);
    case Number(n) =>
      R.NumberReads(n, "");
      var digits := R.Digits(n);
      assert digits + "" == digits && R.IsDigit(digits[0]);
      assert "true"[0] == 't' && "false"[0] == 'f';
    case Flag(b) =>
      assert "true"[4..] == "" && "false"[5..] == "" && "false"[0] != "true"[0];
    case Array(items) => ArrayReads(items);
    case Table(entries) => TableReads(entries);
  }

  lemma {:induction false} BareRunStops(key: string, rest: string)
    requires (forall i :: 0 <= i < |key| ==> IsBare(key[i])) && rest != "" && !IsBare(rest[0])
    ensures BareRun(key + rest) == |key|
  {
    if key == "" {
      assert key + rest == rest;
    } else {
      assert (key + rest)[0] == key[0] && (key + rest)[1..] == key[1..] + rest;
      BareRunStops(key[1..], rest);
    }
  }

  lemma PrintStarts(v: Value)
    requires Printable(v)
    ensures Print(v) != "" && Print(v)[0] != ' ' && Print(v)[0] != '\t'
  {
  }

  lemma FieldReads(f: (string, Value))
    requires IsBareKey(f.0) && Printable(f.1)
    ensures ParseField(FieldLine(f)) == Some(f)
  {
    var value := Print(f.1);
    var after := " = " + value;
    BareRunStops(f.0, after);
    assert FieldLine(f)[..|f.0|] == f.0 && FieldLine(f)[|f.0|..] == after;
    PrintStarts(f.1);
    EqualsReads(value);
    ValueReads(f.1);
  }

  lemma HeaderReads(name: string)
    requires IsSafe(name)
    ensures ParseHeader(HeaderLine(name)) == Some(name)
  {
    UnquoteReads(name, "]");
    assert HeaderLine(name)[|PREFIX|..] == Quote(name) + "]";
  }

  // ---- documents ----

  /** Lines joined by newlines, with one more at the end. */
  function Lined(lines: seq<string>): string {
    if lines == [] then "" else lines[0] + (['\n'] + Lined(lines[1..]))
  }

  function LineEnd(s: string): (n: nat)
    ensures n <= |s| && (n < |s| ==> s[n] == '\n')
  {
    if s == "" || s[0] == '\n' then 0 else 1 + LineEnd(s[1..])
  }

  function Lines(s: string): seq<string>
    decreases |s|
  {
    if LineEnd(s) == |s| then [s] else [s[..LineEnd(s)]] + Lines(s[LineEnd(s) + 1..])
  }

  predicate Writable(section: Section) {
    && IsSafe(section.name) && DistinctKeys(section.fields)
    && forall i :: 0 <= i < |section.fields| ==> IsBareKey(section.fields[i].0) && Printable(section.fields[i].1)
  }

  function FieldLines(fields: seq<(string, Value)>): seq<string>
    requires forall i :: 0 <= i < |fields| ==> Printable(fields[i].1)
  {
    if fields == [] then [] else [FieldLine(fields[0])] + FieldLines(fields[1..])
  }

  predicate WritableAll(sections: seq<Section>) {
    forall i :: 0 <= i < |sections| ==> Writable(sections[i])
  }

  /** Every section with an empty line between it and the next. */
  function SectionLines(sections: seq<Section>): seq<string>
    requires WritableAll(sections)
    decreases |sections|, 0
  {
    if sections == [] then []
    else ([HeaderLine(sections[0].name)] + FieldLines(sections[0].fields)) + MoreLines(sections)
  }

  function MoreLines(sections: seq<Section>): seq<string>
    requires WritableAll(sections) && sections != []
    decreases |sections| - 1, 1
  {
    if |sections| == 1 then [] else [""] + SectionLines(sections[1..])
  }

  function Dump(sections: seq<Section>): string
    requires WritableAll(sections)
  {
    Lined(SectionLines(sections))
  }

  predicate DistinctNames(sections: seq<Section>) {
    forall i, j :: 0 <= i < j < |sections| ==> sections[i].name != sections[j].name
  }

  /** Reads line by line; a repeated table or key is an error, as TOML demands. */
  function Load(lines: seq<string>, read: seq<Section>): Option<seq<Section>>
    decreases |lines|
  {
    if lines == [] then Some(read)
    else if Skip(lines[0]) == "" then Load(lines[1..], read)
    else if lines[0][0] == '[' then
      match ParseHeader(lines[0])
      case None => None
      case Some(name) =>
        if exists i :: 0 <= i < |read| && read[i].name == name then None
        else Load(lines[1..], read + [Section(name, [])])
    else
      match ParseField(lines[0])
      case None => None
      case Some(field) =>
        if read == [] then None
        else
          var last := read[|read| - 1];
          if exists i :: 0 <= i < |last.fields| && last.fields[i].0 == field.0 then None
          else Load(lines[1..], read[..|read| - 1] + [Section(last.name, last.fields + [field])])
  }

  function Loads(text: string): Option<seq<Section>> {
    Load(Lines(text), [])
  }

  // ---- lines round trip ----

  predicate OneLine(s: string) {
    forall i :: 0 <= i < |s| ==> s[i] != '\n'
  }

  lemma {:induction false} LineEnds(line: string, rest: string)
    requires OneLine(line)
    ensures LineEnd(line + (['\n'] + rest)) == |line|
  {
    var s := line + (['\n'] + rest);
    if line != "" {
      assert s[0] == line[0] && s[1..] == line[1..] + (['\n'] + rest);
      LineEnds(line[1..], rest);
    }
  }

  lemma {:induction false} LinesRead(lines: seq<string>)
    requires forall i :: 0 <= i < |lines| ==> OneLine(lines[i])
    ensures Lines(Lined(lines)) == lines + [""]
  {
    if lines != [] {
      var rest := Lined(lines[1..]);
      var s := lines[0] + (['\n'] + rest);
      LineEnds(lines[0], rest);
      LinesRead(lines[1..]);
      assert s[..|lines[0]|] == lines[0] && s[|lines[0]| + 1..] == rest;
      assert lines + [""] == [lines[0]] + (lines[1..] + [""]);
    }
  }

  lemma {:induction false} EscapeIsSafe(s: string)
    requires IsSafe(s)
    ensures IsSafe(Escape(s))
  {
    if s != "" { EscapeIsSafe(s[1..]); }
  }

  lemma QuoteIsSafe(s: string)
    requires IsSafe(s)
    ensures IsSafe(Quote(s))
  {
    EscapeIsSafe(s);
  }

  lemma {:induction false} QuoteAllIsSafe(items: seq<string>)
    requires items != [] && forall i :: 0 <= i < |items| ==> IsSafe(items[i])
    ensures IsSafe(QuoteAll(items))
  {
    QuoteIsSafe(items[0]);
    if |items| > 1 {
      QuoteAllIsSafe(items[1..]);
      assert IsSafe(", " + QuoteAll(items[1..]));
    }
  }

  lemma {:induction false} EntriesAreSafe(entries: seq<(string, string)>)
    requires entries != [] && forall i :: 0 <= i < |entries| ==> IsSafe(entries[i].0) && IsSafe(entries[i].1)
    ensures IsSafe(Entries(entries))
  {
    QuoteIsSafe(entries[0].0);
    QuoteIsSafe(entries[0].1);
    assert IsSafe(" = " + Quote(entries[0].1));
    if |entries| > 1 {
      EntriesAreSafe(entries[1..]);
      assert IsSafe(", " + Entries(entries[1..]));
    }
  }

  lemma {:induction false} DigitsAreSafe(s: string)
    requires R.AllDigits(s)
    ensures IsSafe(s)
  {
    forall i | 0 <= i < |s| ensures !IsControl(s[i]) { assert R.IsDigit(s[i]); }
  }

  lemma PrintIsSafe(v: Value)
    requires Printable(v)
    ensures IsSafe(Print(v))
  {
    match v
    case Text(s) => QuoteIsSafe(s);
    case Number(n) => DigitsAreSafe(R.Digits(n));
    case Flag(b) =>
    case Array(items) =>
      QuoteAllIsSafe(items);
      assert IsSafe(QuoteAll(items) + "]");
    case Table(entries) =>
      EntriesAreSafe(entries);
      assert IsSafe(Entries(entries) + "}");
  }

  lemma {:induction false} FieldLinesAreLines(fields: seq<(string, Value)>)
    requires forall i :: 0 <= i < |fields| ==> IsBareKey(fields[i].0) && Printable(fields[i].1)
    ensures forall i :: 0 <= i < |FieldLines(fields)| ==> OneLine(FieldLines(fields)[i])
  {
    if fields != [] {
      FieldLinesAreLines(fields[1..]);
      PrintIsSafe(fields[0].1);
      assert IsSafe(" = " + Print(fields[0].1));
      assert OneLine(FieldLine(fields[0]));
    }
  }

  lemma HeaderIsALine(name: string)
    requires IsSafe(name)
    ensures OneLine(HeaderLine(name))
  {
    QuoteIsSafe(name);
    assert IsSafe(Quote(name) + "]");
  }

  lemma {:induction false} SectionLinesAreLines(sections: seq<Section>)
    requires WritableAll(sections)
    ensures forall i :: 0 <= i < |SectionLines(sections)| ==> OneLine(SectionLines(sections)[i])
  {
    if sections != [] {
      HeaderIsALine(sections[0].name);
      FieldLinesAreLines(sections[0].fields);
      if |sections| > 1 { SectionLinesAreLines(sections[1..]); }
      assert forall i :: 0 <= i < |MoreLines(sections)| ==> OneLine(MoreLines(sections)[i]);
    }
  }

  // ---- sections round trip ----

  lemma FieldStarts(f: (string, Value))
    requires IsBareKey(f.0) && Printable(f.1)
    ensures FieldLine(f) != "" && FieldLine(f)[0] != '[' && Skip(FieldLine(f)) == FieldLine(f)
  {
    assert FieldLine(f)[0] == f.0[0];
  }

  predicate FieldsOk(fields: seq<(string, Value)>) {
    forall i :: 0 <= i < |fields| ==> IsBareKey(fields[i].0) && Printable(fields[i].1)
  }

  lemma NewKey(done: seq<(string, Value)>, fields: seq<(string, Value)>)
    requires fields != [] && DistinctKeys(done + fields)
    ensures forall i :: 0 <= i < |done| ==> done[i].0 != fields[0].0
  {
    forall i | 0 <= i < |done| ensures done[i].0 != fields[0].0 {
      assert (done + fields)[i] == done[i] && (done + fields)[|done|] == fields[0];
    }
  }

  lemma FirstFieldLine(fields: seq<(string, Value)>, lines: seq<string>)
    requires fields != [] && FieldsOk(fields)
    ensures var all := FieldLines(fields) + lines;
            all != [] && all[0] == FieldLine(fields[0]) && all[1..] == FieldLines(fields[1..]) + lines
  {
    assert FieldLines(fields) == [FieldLine(fields[0])] + FieldLines(fields[1..]);
    ConsSplits(FieldLine(fields[0]), FieldLines(fields[1..]), lines);
  }

  lemma ConsSplits<T>(a: T, b: seq<T>, c: seq<T>)
    ensures var all := ([a] + b) + c; all != [] && all[0] == a && all[1..] == b + c && all == [a] + (b + c)
  {
  }

  lemma EndsMove<T>(a: T, b: seq<T>, c: seq<T>, d: seq<T>)
    ensures (([a] + b) + c) + d == [a] + (b + (c + d))
  {
    assert (([a] + b) + c) + d == ([a] + b) + (c + d);
    ConsSplits(a, b, c + d);
  }

  lemma {:induction false} FieldsLoad(fields: seq<(string, Value)>, lines: seq<string>, before: seq<Section>, name: string,
                                      done: seq<(string, Value)>)
    requires FieldsOk(fields) && DistinctKeys(done + fields)
    ensures Load(FieldLines(fields) + lines, before + [Section(name, done)]) == Load(lines, before + [Section(name, done + fields)])
    decreases |fields|
  {
    if fields == [] {
      assert FieldLines(fields) + lines == lines && done + fields == done;
    } else {
      FirstMoves(done, fields);
      NewKey(done, fields);
      FirstFieldLine(fields, lines);
      FieldReads(fields[0]);
      FieldStarts(fields[0]);
      FieldLoads(FieldLines(fields) + lines, before, name, done, fields[0]);
      FieldsLoad(fields[1..], lines, before, name, done + [fields[0]]);
    }
  }

  lemma FieldLoads(lines: seq<string>, before: seq<Section>, name: string, done: seq<(string, Value)>, f: (string, Value))
    requires lines != [] && ParseField(lines[0]) == Some(f) && Skip(lines[0]) == lines[0] != "" && lines[0][0] != '['
    requires forall i :: 0 <= i < |done| ==> done[i].0 != f.0
    ensures Load(lines, before + [Section(name, done)]) == Load(lines[1..], before + [Section(name, done + [f])])
  {
    var read := before + [Section(name, done)];
    assert read[|read| - 1] == Section(name, done) && read[..|read| - 1] == before;
  }

  lemma HeaderLoads(lines: seq<string>, read: seq<Section>, name: string)
    requires lines != [] && lines[0] == HeaderLine(name) && IsSafe(name)
    requires forall i :: 0 <= i < |read| ==> read[i].name != name
    ensures Load(lines, read) == Load(lines[1..], read + [Section(name, [])])
  {
    HeaderReads(name);
    assert HeaderLine(name)[0] == '[' && Skip(HeaderLine(name)) == HeaderLine(name);
  }

  lemma SectionLoads(s: Section, end: seq<string>, read: seq<Section>)
    requires Writable(s) && forall i :: 0 <= i < |read| ==> read[i].name != s.name
    ensures Load([HeaderLine(s.name)] + (FieldLines(s.fields) + end), read) == Load(end, read + [s])
  {
    var all := [HeaderLine(s.name)] + (FieldLines(s.fields) + end);
    assert all[1..] == FieldLines(s.fields) + end;
    HeaderLoads(all, read, s.name);
    assert [] + s.fields == s.fields;
    FieldsLoad(s.fields, end, read, s.name, []);
    assert Section(s.name, s.fields) == s;
  }

  lemma LastIsNew(read: seq<Section>, sections: seq<Section>)
    requires sections != [] && DistinctNames(read + sections)
    ensures forall i :: 0 <= i < |read| ==> read[i].name != sections[0].name
  {
    forall i | 0 <= i < |read| ensures read[i].name != sections[0].name {
      assert (read + sections)[i] == read[i] && (read + sections)[|read|] == sections[0];
    }
  }

  /** What comes after the first section, and the end of the text behind it. */
  function Following(sections: seq<Section>): seq<string>
    requires WritableAll(sections) && sections != []
  {
    MoreLines(sections) + [""]
  }

  lemma FollowingStarts(sections: seq<Section>)
    requires WritableAll(sections) && sections != []
    ensures Following(sections) != [] && Following(sections)[0] == ""
    ensures Following(sections)[1..] == if |sections| == 1 then [] else SectionLines(sections[1..]) + [""]
  {
    if |sections| > 1 { ConsSplits("", SectionLines(sections[1..]), [""]); }
  }

  lemma SectionLinesSplit(sections: seq<Section>)
    requires WritableAll(sections) && sections != []
    ensures SectionLines(sections) + [""]
         == [HeaderLine(sections[0].name)] + (FieldLines(sections[0].fields) + Following(sections))
  {
    EndsMove(HeaderLine(sections[0].name), FieldLines(sections[0].fields), MoreLines(sections), [""]);
  }

  lemma {:induction false} SectionsLoad(sections: seq<Section>, read: seq<Section>)
    requires WritableAll(sections) && DistinctNames(read + sections)
    ensures Load(SectionLines(sections) + [""], read) == Some(read + sections)
    decreases |sections|
  {
    if sections == [] {
      assert SectionLines(sections) + [""] == [""] && [""][1..] == [] && read + sections == read;
      BlankLoads([""], read);
    } else {
      SectionLinesSplit(sections);
      FollowingStarts(sections);
      FirstMoves(read, sections);
      LastIsNew(read, sections);
      SectionLoads(sections[0], Following(sections), read);
      BlankLoads(Following(sections), read + [sections[0]]);
      if |sections| == 1 {
        assert read + [sections[0]] == read + sections;
      } else {
        SectionsLoad(sections[1..], read + [sections[0]]);
      }
    }
  }

  lemma BlankLoads(lines: seq<string>, read: seq<Section>)
    requires lines != [] && lines[0] == ""
    ensures Load(lines, read) == Load(lines[1..], read)
  {
  }

  /** What is written is what is read, for every document the exporter can produce. */
  lemma DumpLoads(sections: seq<Section>)
    requires WritableAll(sections) && DistinctNames(sections)
    ensures Loads(Dump(sections)) == Some(sections)
  {
    SectionLinesAreLines(sections);
    LinesRead(SectionLines(sections));
    SectionsLoad(sections, []);
    assert [] + sections == sections;
  }
}
