/**
 Context that is appended to a user prompt and can be taken off again: append, detach, reattach, and
 the copy of a message that users are shown.
 */
module RuntimeContext {
  import opened Wrappers

  /** One block of a structured content; only text blocks matter here. */
  datatype Part = TextPart(text: string) | OtherPart(code: nat)

  /** Stringified stands for a value that is neither text nor a list, by its text. */
  datatype Content = Nothing | Text(text: string) | Parts(parts: seq<Part>) | Stringified(text: string)

  datatype Block = Block(source: string, content: string)

  /** A stored marker as it is read back; a source that is not a text is None. */
  datatype Marker = Marker(version: int, sources: seq<Option<string>>, suffix: Option<string>, blocks: Option<seq<Part>>)

  datatype Message = Message(content: Content, marker: Option<Marker>, others: map<string, nat>)

  const SEPARATOR := "\n\n"

  function Join(texts: seq<string>): string {
    if texts == [] then "" else if |texts| == 1 then texts[0] else texts[0] + SEPARATOR + Join(texts[1..])
  }

  function Contents(blocks: seq<Block>): seq<string> {
    seq(|blocks|, i requires 0 <= i < |blocks| => blocks[i].content)
  }

  function Sources(blocks: seq<Block>): seq<Option<string>> {
    seq(|blocks|, i requires 0 <= i < |blocks| => Some(blocks[i].source))
  }

  function TextParts(texts: seq<string>): seq<Part> {
    seq(|texts|, i requires 0 <= i < |texts| => TextPart(texts[i]))
  }

  function With(text: string, suffix: string): string {
    if text == "" then suffix else text + SEPARATOR + suffix
  }

  predicate EndsWith(s: string, end: string) {
    |end| <= |s| && s[|s| - |end|..] == end
  }

  // ---- append, detach, reattach ----

  function Append(content: Content, blocks: seq<Block>): (Content, Option<Marker>) {
    if blocks == [] then (content, None)
    else if content.Parts? then
      var added := TextParts(Contents(blocks));
      (Parts(content.parts + added), Some(Marker(1, Sources(blocks), None, Some(added))))
    else
      var suffix := Join(Contents(blocks));
      var text := if content.Nothing? then "" else content.text;
      (Text(With(text, suffix)), Some(Marker(1, Sources(blocks), Some(suffix), None)))
  }

  /** The sources that are non-empty texts. */
  function Named(sources: seq<Option<string>>): seq<string> {
    if sources == [] then []
    else (if sources[0].Some? && sources[0].value != "" then [sources[0].value] else []) + Named(sources[1..])
  }

  /** The text before the suffix, none where the content does not end in it. */
  function Before(content: string, suffix: string): Option<string> {
    if content == suffix then Some("")
    else if EndsWith(content, SEPARATOR + suffix) then Some(content[..|content| - |suffix| - 2])
    else None
  }

  function PartsBefore(content: seq<Part>, expected: seq<Part>): Option<seq<Part>> {
    if |expected| <= |content| && content[|content| - |expected|..] == expected then Some(content[..|content| - |expected|])
    else None
  }

  predicate TextMarker(content: Content, marker: Marker) {
    content.Text? && marker.suffix.Some? && marker.suffix.value != ""
  }

  predicate PartsMarker(content: Content, marker: Marker) {
    content.Parts? && marker.blocks.Some? && marker.blocks.value != []
  }

  function Detach(content: Content, marker: Marker): Option<(Content, seq<string>, seq<Part>)> {
    if marker.version != 1 then None
    else if TextMarker(content, marker) then
      match Before(content.text, marker.suffix.value)
      case None => None
      case Some(clean) => Some((Text(clean), Named(marker.sources), [TextPart(marker.suffix.value)]))
    else if PartsMarker(content, marker) then
      match PartsBefore(content.parts, marker.blocks.value)
      case None => None
      case Some(clean) => Some((Parts(clean), Named(marker.sources), marker.blocks.value))
    else None
  }

  function Texts(parts: seq<Part>): seq<string>
    requires forall i :: 0 <= i < |parts| ==> parts[i].TextPart?
  {
    seq(|parts|, i requires 0 <= i < |parts| => parts[i].text)
  }

  function Somes(sources: seq<string>): seq<Option<string>> {
    seq(|sources|, i requires 0 <= i < |sources| => Some(sources[i]))
  }

  function Reattach(content: Content, sources: seq<string>, parts: seq<Part>): (Content, Marker) {
    if content.Text? && forall i :: 0 <= i < |parts| ==> parts[i].TextPart? then
      var suffix := Join(Texts(parts));
      (Text(With(content.text, suffix)), Marker(1, Somes(sources), Some(suffix), None))
    else
      var visible :=
        match content
        case Parts(own) => own
        case Nothing => []
        case _ => [TextPart(content.text)];
      (Parts(visible + parts), Marker(1, Somes(sources), None, Some(parts)))
  }

  /** public_history_message: the marker is dropped, and the content loses exactly what it marked. */
  function Public(m: Message): Message {
    var cleaned := m.(marker := None);
    if m.marker.None? || m.marker.value.version != 1 then cleaned
    else if TextMarker(m.content, m.marker.value) then
      match Before(m.content.text, m.marker.value.suffix.value)
      case None => cleaned
      case Some(clean) => cleaned.(content := Text(clean))
    else if PartsMarker(m.content, m.marker.value) then
      match PartsBefore(m.content.parts, m.marker.value.blocks.value)
      case None => cleaned
      case Some(clean) => cleaned.(content := Parts(clean))
    else cleaned
  }

  // ---- normalisation ----

  /** What str.strip removes: the characters Python counts as whitespace. */
  predicate IsSpace(c: char) {
    var code := c as int;
    || 0x09 <= code <= 0x0D || 0x1C <= code <= 0x20 || code == 0x85 || code == 0xA0 || code == 0x1680
    || 0x2000 <= code <= 0x200A || code == 0x2028 || code == 0x2029 || code == 0x202F || code == 0x205F || code == 0x3000
  }

  function StripLeft(s: string): string {
    if s != [] && IsSpace(s[0]) then StripLeft(s[1..]) else s
  }

  function StripRight(s: string): string {
    if s != [] && IsSpace(s[|s| - 1]) then StripRight(s[..|s| - 1]) else s
  }

  function Strip(s: string): string {
    StripRight(StripLeft(s))
  }

  predicate Stripped(s: string) {
    s != "" ==> !IsSpace(s[0]) && !IsSpace(s[|s| - 1])
  }

  lemma {:induction false} StripRightStrips(s: string)
    requires s != "" ==> !IsSpace(s[0])
    ensures Stripped(StripRight(s))
    ensures StripRight(s) <= s
  {
    if s != [] && IsSpace(s[|s| - 1]) {
      StripRightStrips(s[..|s| - 1]);
    }
  }

  lemma {:induction false} StripLeftStrips(s: string)
    ensures StripLeft(s) != "" ==> !IsSpace(StripLeft(s)[0])
  {
    if s != [] && IsSpace(s[0]) {
      StripLeftStrips(s[1..]);
    }
  }

  lemma StripStrips(s: string)
    ensures Stripped(Strip(s)) && (Stripped(s) ==> Strip(s) == s)
  {
    StripLeftStrips(s);
    StripRightStrips(StripLeft(s));
  }

  datatype Given = GivenBlock(block: Block) | SomethingElse

  datatype Error = NotABlock | NoSource

  function Normalized(values: seq<Given>): Result<seq<Block>, Error> {
    if values == [] then Ok([])
    else
      match Normalized(values[..|values| - 1])
      case Err(e) => Err(e)
      case Ok(blocks) =>
        match values[|values| - 1]
        case SomethingElse => Err(NotABlock)
        case GivenBlock(b) =>
          if Strip(b.source) == "" then Err(NoSource)
          else if Strip(b.content) == "" then Ok(blocks)
          else Ok(blocks + [Block(Strip(b.source), Strip(b.content))])
  }

  /** normalize_runtime_context_blocks. */
  method Normalize(values: seq<Given>) returns (r: Result<seq<Block>, Error>)
    ensures r == Normalized(values)
  {
    var blocks := [];
    var i := 0;
    while i < |values|
      invariant 0 <= i <= |values| && Normalized(values[..i]) == Ok(blocks)
    {
      assert values[..i + 1][..i] == values[..i];
      if values[i].SomethingElse? {
        ErrorsStay(values, i + 1);
        return Err(NotABlock);
      }
      var source := Strip(values[i].block.source);
      var content := Strip(values[i].block.content);
      if source == "" {
        ErrorsStay(values, i + 1);
        return Err(NoSource);
      }
      if content != "" { blocks := blocks + [Block(source, content)]; }
      i := i + 1;
    }
    assert values[..i] == values;
    return Ok(blocks);
  }

  /** The first error of a prefix is the error of the whole. */
  lemma {:induction false} ErrorsStay(values: seq<Given>, n: nat)
    requires n <= |values| && Normalized(values[..n]).Err?
    ensures Normalized(values) == Normalized(values[..n])
    decreases |values|
  {
    if n == |values| {
      assert values[..n] == values;
    } else {
      var most := values[..|values| - 1];
      assert most[..n] == values[..n];
      ErrorsStay(most, n);
    }
  }

  predicate Normal(blocks: seq<Block>) {
    forall i :: 0 <= i < |blocks| ==>
      blocks[i].source != "" && blocks[i].content != "" && Stripped(blocks[i].source) && Stripped(blocks[i].content)
  }

  function AsGiven(blocks: seq<Block>): seq<Given> {
    seq(|blocks|, i requires 0 <= i < |blocks| => GivenBlock(blocks[i]))
  }

  /** Normalised blocks are normal, and exactly the normal lists are left as they are. */
  lemma {:induction false} NormalizationIsNormal(values: seq<Given>)
    ensures Normalized(values).Ok? ==> Normal(Normalized(values).value)
  {
    if values != [] {
      NormalizationIsNormal(values[..|values| - 1]);
      var last := values[|values| - 1];
      if last.GivenBlock? {
        StripStrips(last.block.source);
        StripStrips(last.block.content);
      }
    }
  }

  lemma {:induction false} NormalBlocksStay(blocks: seq<Block>)
    ensures Normalized(AsGiven(blocks)) == Ok(blocks) <==> Normal(blocks)
  {
    NormalizationIsNormal(AsGiven(blocks));
    if Normal(blocks) && blocks != [] {
      var most := blocks[..|blocks| - 1];
      NormalBlocksStay(most);
      var last := blocks[|blocks| - 1];
      assert AsGiven(blocks)[..|blocks| - 1] == AsGiven(most) && AsGiven(blocks)[|blocks| - 1] == GivenBlock(last);
      assert Normal(most) && blocks == most + [last];
      StripStrips(blocks[|blocks| - 1].source);
      StripStrips(blocks[|blocks| - 1].content);
    }
  }

  // ---- round trips ----

  /** How users see content that is neither text nor a list: None as nothing, other values as their text. */
  function Visible(content: Content): Content {
    match content
    case Nothing => Text("")
    case Stringified(text) => Text(text)
    case _ => content
  }

  function SourceNames(blocks: seq<Block>): seq<string> {
    seq(|blocks|, i requires 0 <= i < |blocks| => blocks[i].source)
  }

  /** What is appended, as detaching gives it back: one text for text, one part for each block of a list. */
  function Appended(content: Content, blocks: seq<Block>): seq<Part> {
    if content.Parts? then TextParts(Contents(blocks)) else [TextPart(Join(Contents(blocks)))]
  }

  lemma {:induction false} JoinIsNotEmpty(blocks: seq<Block>)
    requires Normal(blocks) && blocks != []
    ensures Join(Contents(blocks)) != ""
  {
    assert Contents(blocks)[0] == blocks[0].content;
  }

  lemma {:induction false} NamesAreKept(blocks: seq<Block>)
    requires Normal(blocks)
    ensures Named(Sources(blocks)) == SourceNames(blocks)
  {
    if blocks != [] {
      NamesAreKept(blocks[1..]);
      assert Sources(blocks)[1..] == Sources(blocks[1..]);
      assert SourceNames(blocks) == [blocks[0].source] + SourceNames(blocks[1..]);
    }
  }

  lemma WithEndsIn(text: string, suffix: string)
    requires suffix != ""
    ensures Before(With(text, suffix), suffix) == Some(text)
  {
    var whole := With(text, suffix);
    if text != "" {
      assert whole == text + (SEPARATOR + suffix);
      assert whole[|whole| - |SEPARATOR + suffix|..] == SEPARATOR + suffix;
      assert whole[..|whole| - |suffix| - 2] == text;
    }
  }

  lemma DetachAfterAppend(content: Content, blocks: seq<Block>)
    requires Normal(blocks) && blocks != []
    ensures var (merged, marker) := Append(content, blocks);
            marker.Some? && Detach(merged, marker.value) == Some((Visible(content), SourceNames(blocks), Appended(content, blocks)))
  {
    NamesAreKept(blocks);
    JoinIsNotEmpty(blocks);
    if content.Parts? {
      var added := TextParts(Contents(blocks));
      assert (content.parts + added)[|content.parts + added| - |added|..] == added;
      assert (content.parts + added)[..|content.parts + added| - |added|] == content.parts;
    } else {
      WithEndsIn(if content.Nothing? then "" else content.text, Join(Contents(blocks)));
    }
  }

  /** Users see exactly the content the context was appended to, and every other field unchanged. */
  lemma PublicShowsTheOriginal(content: Content, blocks: seq<Block>, others: map<string, nat>)
    requires Normal(blocks) && blocks != []
    ensures var (merged, marker) := Append(content, blocks);
            Public(Message(merged, marker, others)) == Message(Visible(content), None, others)
  {
    DetachAfterAppend(content, blocks);
    JoinIsNotEmpty(blocks);
  }

  lemma ReattachRebuildsAppend(content: Content, blocks: seq<Block>)
    requires Normal(blocks) && blocks != []
    ensures var (merged, marker) := Append(content, blocks);
            marker.Some? && Reattach(Visible(content), SourceNames(blocks), Appended(content, blocks)) == (merged, marker.value)
  {
    assert Somes(SourceNames(blocks)) == Sources(blocks);
    if !content.Parts? {
      assert Texts(Appended(content, blocks)) == [Join(Contents(blocks))];
    }
  }

  /**
   For any stored marker: what was detached reattaches to the very content it came from, except text
   whose whole visible part was the empty line before the suffix; that line is lost.
   */
  lemma ReattachAfterDetach(content: Content, marker: Marker)
    requires Detach(content, marker).Some?
    ensures var (clean, sources, parts) := Detach(content, marker).value;
            Reattach(clean, sources, parts).0 == content
            <==> !(content.Text? && content.text == SEPARATOR + marker.suffix.value)
  {
    var (clean, sources, parts) := Detach(content, marker).value;
    if content.Text? {
      var suffix := marker.suffix.value;
      assert Texts(parts) == [suffix];
      assert Join([suffix]) == suffix;
      if content.text != suffix {
        assert content.text == clean.text + (SEPARATOR + suffix);
      }
    }
  }
}
