/** The incremental parser of server-sent events: bytes are buffered, cut at blank lines, and
    each `data:` line yields usage updates. */
module SseParsing {
  import opened Types

  const NEWLINE: byte := 10

  datatype Json =
    | JsonNull
    | JsonBool(b: bool)
    | JsonNumber(unsigned: Option<nat>)
    | JsonString(s: string)
    | JsonArray(items: seq<Json>)
    | JsonObject(fields: map<string, Json>)
  {
    function Get(key: string): Option<Json> {
      if JsonObject? && key in fields then Some(fields[key]) else None
    }

    function AsUnsigned(): Option<nat> {
      if JsonNumber? then unsigned else None
    }
  }

  datatype SseChunk =
    | InputTokens(inputTokens: nat)
    | OutputTokens(outputTokens: nat)
    | Stop
    | Text(text: string)
    | ToolUse(id: string, name: string, input: Json, toolType: string)
    | Other(kind: string)

  /** Library code: UTF-8 decoding, JSON parsing, and the choice of a provider's own parser. */
  datatype Library = Library(
    decodeUtf8: seq<byte> -> Option<string>,
    parseJson: string -> Option<Json>,
    providerFor: string -> Option<string -> seq<SseChunk>>)

  // ---------------------------------------------------------------- cutting bytes into events

  predicate SeparatorAt(buffer: seq<byte>, i: nat) {
    i + 1 < |buffer| && buffer[i] == NEWLINE && buffer[i + 1] == NEWLINE
  }

  function FirstSeparator(buffer: seq<byte>, from: nat): (r: Option<nat>)
    ensures r.Some? ==> from <= r.value && SeparatorAt(buffer, r.value)
    ensures forall i: nat :: from <= i && (r.Some? ==> i < r.value) ==> !SeparatorAt(buffer, i)
    decreases |buffer| - from
  {
    if from + 1 >= |buffer| then None
    else if SeparatorAt(buffer, from) then Some(from)
    else FirstSeparator(buffer, from + 1)
  }

  ghost predicate SeparatorFree(buffer: seq<byte>) {
    forall i: nat :: !SeparatorAt(buffer, i)
  }

  /** The event ends with a separator and has no other. */
  ghost predicate IsEvent(event: seq<byte>) {
    && 2 <= |event|
    && SeparatorAt(event, |event| - 2)
    && forall i: nat :: i < |event| - 2 ==> !SeparatorAt(event, i)
  }

  datatype Cut = Cut(events: seq<seq<byte>>, rest: seq<byte>)

  function CutEvents(buffer: seq<byte>): (cut: Cut)
    decreases |buffer|
  {
    match FirstSeparator(buffer, 0)
    case None => Cut([], buffer)
    case Some(i) =>
      var tail := CutEvents(buffer[i + 2..]);
      Cut([buffer[..i + 2]] + tail.events, tail.rest)
  }

  function Concat<T>(parts: seq<seq<T>>): seq<T> {
    if parts == [] then [] else parts[0] + Concat(parts[1..])
  }

  /** What a cut of the bytes has to be. */
  ghost predicate IsCutOf(cut: Cut, buffer: seq<byte>) {
    && Concat(cut.events) + cut.rest == buffer
    && (forall k :: 0 <= k < |cut.events| ==> IsEvent(cut.events[k]))
    && SeparatorFree(cut.rest)
  }

  lemma FirstIsEvent(buffer: seq<byte>)
    requires FirstSeparator(buffer, 0).Some?
    ensures IsEvent(buffer[..FirstSeparator(buffer, 0).value + 2])
  {
    var i := FirstSeparator(buffer, 0).value;
    var event := buffer[..i + 2];
    forall j: nat | j < i
      ensures !SeparatorAt(event, j)
    {
      assert !SeparatorAt(buffer, j);
    }
  }

  /** No byte is lost or invented, every event has its only separator at its end, and none is
      left behind. */
  lemma {:induction false} CutEventsIsCut(buffer: seq<byte>)
    ensures IsCutOf(CutEvents(buffer), buffer)
    decreases |buffer|
  {
    if FirstSeparator(buffer, 0).Some? {
      var end := FirstSeparator(buffer, 0).value + 2;
      var head, rest := buffer[..end], buffer[end..];
      FirstIsEvent(buffer);
      CutEventsIsCut(rest);
      CutInFront(head, CutEvents(rest), rest);
      CutOne(buffer, end);
    }
  }

  lemma CutOne(buffer: seq<byte>, end: nat)
    requires FirstSeparator(buffer, 0) == Some(end - 2) && end <= |buffer|
    ensures
      var tail := CutEvents(buffer[end..]);
      CutEvents(buffer) == Cut([buffer[..end]] + tail.events, tail.rest) && buffer == buffer[..end] + buffer[end..]
  {
  }

  lemma CutInFront(head: seq<byte>, cut: Cut, buffer: seq<byte>)
    requires IsEvent(head) && IsCutOf(cut, buffer)
    ensures IsCutOf(Cut([head] + cut.events, cut.rest), head + buffer)
  {
    assert ([head] + cut.events)[1..] == cut.events;
    Regroup(head, Concat(cut.events), cut.rest);
  }

  /** There is no other way to cut the same bytes. */
  lemma {:induction false} CutIsUnique(cut: Cut, buffer: seq<byte>)
    requires IsCutOf(cut, buffer)
    ensures cut == CutEvents(buffer)
    decreases |cut.events|
  {
    if cut.events == [] {
      assert cut.rest == buffer;
    } else {
      var head := cut.events[0];
      var tail := Cut(cut.events[1..], cut.rest);
      var rest := Concat(tail.events) + tail.rest;
      assert buffer == head + rest;
      assert IsEvent(head);
      forall j: nat | j < |head| - 2
        ensures !SeparatorAt(buffer, j)
      {
        assert !SeparatorAt(head, j);
      }
      assert SeparatorAt(buffer, |head| - 2);
      assert FirstSeparator(buffer, 0) == Some(|head| - 2);
      assert buffer[|head|..] == rest && buffer[..|head|] == head;
      CutIsUnique(tail, rest);
    }
  }

  lemma {:induction false} ConcatAppend<T>(a: seq<seq<T>>, b: seq<seq<T>>)
    ensures Concat(a + b) == Concat(a) + Concat(b)
  {
    if a == [] {
      assert a + b == b;
    } else {
      assert (a + b)[1..] == a[1..] + b;
      ConcatAppend(a[1..], b);
    }
  }

  lemma CutsJoin(first: Cut, a: seq<byte>, second: Cut, b: seq<byte>)
    requires IsCutOf(first, a) && IsCutOf(second, first.rest + b)
    ensures IsCutOf(Cut(first.events + second.events, second.rest), a + b)
  {
    ConcatAppend(first.events, second.events);
    var bytes := Concat(first.events);
    assert bytes + (Concat(second.events) + second.rest) == (bytes + Concat(second.events)) + second.rest;
    assert bytes + (first.rest + b) == (bytes + first.rest) + b;
  }

  /** Bytes that arrive later only extend the cut of those that came before. */
  lemma CutExtends(a: seq<byte>, b: seq<byte>)
    ensures
      var before := CutEvents(a);
      var after := CutEvents(before.rest + b);
      CutEvents(a + b) == Cut(before.events + after.events, after.rest)
  {
    var before := CutEvents(a);
    var after := CutEvents(before.rest + b);
    CutEventsIsCut(a);
    CutEventsIsCut(before.rest + b);
    CutsJoin(before, a, after, b);
    CutIsUnique(Cut(before.events + after.events, after.rest), a + b);
  }

  // ---------------------------------------------------------------- reading an event

  predicate IsWhitespace(c: char) {
    || '\t' <= c <= '\r' || c == ' ' || c == '\U{85}' || c == '\U{A0}' || c == '\U{1680}'
    || '\U{2000}' <= c <= '\U{200A}' || c == '\U{2028}' || c == '\U{2029}' || c == '\U{202F}'
    || c == '\U{205F}' || c == '\U{3000}'
  }

  function TrimStart(s: string): string {
    if s != [] && IsWhitespace(s[0]) then TrimStart(s[1..]) else s
  }

  function TrimEnd(s: string): string {
    if s != [] && IsWhitespace(s[|s| - 1]) then TrimEnd(s[..|s| - 1]) else s
  }

  function IndexOf(s: string, c: char): (i: nat)
    ensures i <= |s|
    ensures i < |s| ==> s[i] == c
    ensures c !in s[..i]
  {
    if s == [] || s[0] == c then 0 else IndexOf(s[1..], c) + 1
  }

  /** Lines without their endings; a carriage return counts only before a line feed. */
  function Lines(s: string): seq<string>
    decreases |s|
  {
    if s == [] then []
    else
      var i := IndexOf(s, '\n');
      if i == |s| then [s]
      else [if 0 < i && s[i - 1] == '\r' then s[..i - 1] else s[..i]] + Lines(s[i + 1..])
  }

  const DATA: string := "data:"

  /** The trimmed payload of a data line, if there is one. */
  function DataPart(line: string): Option<string> {
    if DATA <= line then
      var part := TrimEnd(TrimStart(line[|DATA|..]));
      if part == [] then None else Some(part)
    else None
  }

  function ParseDataPart(lib: Library, url: Option<string>, part: string): seq<SseChunk> {
    if url.Some? && lib.providerFor(url.value).Some? then lib.providerFor(url.value).value(part)
    else ParseSseDataLine(lib, part)
  }

  function UpdatesOfLine(lib: Library, url: Option<string>, line: string): seq<SseChunk> {
    match DataPart(line)
    case None => []
    case Some(part) => ParseDataPart(lib, url, part)
  }

  function UpdatesOfLines(lib: Library, url: Option<string>, lines: seq<string>): seq<SseChunk> {
    if lines == [] then [] else UpdatesOfLine(lib, url, lines[0]) + UpdatesOfLines(lib, url, lines[1..])
  }

  /** Events that are not UTF-8 are skipped. */
  function UpdatesOfEvent(lib: Library, url: Option<string>, event: seq<byte>): seq<SseChunk> {
    match lib.decodeUtf8(event)
    case None => []
    case Some(text) => UpdatesOfLines(lib, url, Lines(text))
  }

  function UpdatesOf(lib: Library, url: Option<string>, events: seq<seq<byte>>): seq<SseChunk> {
    if events == [] then [] else UpdatesOfEvent(lib, url, events[0]) + UpdatesOf(lib, url, events[1..])
  }

  function Field(json: Json, a: string, b: string): Option<Json> {
    match json.Get(a)
    case None => None
    case Some(inner) => inner.Get(b)
  }

  function StringOr(json: Option<Json>, default: string): string {
    if json.Some? && json.value.JsonString? then json.value.s else default
  }

  function UpdatesOfType(json: Json, kind: string): (updates: seq<SseChunk>)
    ensures |updates| <= 1
    ensures Stop in updates <==> kind == "message_stop"
  {
    if kind == "message_start" then
      match Field(json, "message", "usage")
      case None => [Other(kind)]
      case Some(usage) =>
        var tokens := if usage.Get("input_tokens").Some? then usage.Get("input_tokens").value.AsUnsigned() else None;
        [if tokens.Some? then InputTokens(tokens.value) else Other(kind)]
    else if kind == "content_block_delta" then
      var text := Field(json, "delta", "text");
      [if text.Some? && text.value.JsonString? then Text(text.value.s) else Other(kind)]
    else if kind == "content_block_start" then
      if json.Get("index").Some? && json.Get("index").value.AsUnsigned().Some? then
        if Field(json, "content_block", "type") == Some(JsonString("tool_use")) then
          var block := json.Get("content_block").value;
          [ToolUse(StringOr(block.Get("id"), "unknown"), StringOr(block.Get("name"), "unknown"),
                   if block.Get("input").Some? then block.Get("input").value else JsonNull, "tool_use")]
        else []
      else [Other(kind)]
    else if kind == "message_delta" then
      var tokens := Field(json, "usage", "output_tokens");
      [if tokens.Some? && tokens.value.AsUnsigned().Some? then OutputTokens(tokens.value.AsUnsigned().value)
       else Other(kind)]
    else if kind == "message_stop" then [Stop]
    else [Other(kind)]
  }

  /** The value found by following these keys. */
  function At(json: Json, path: seq<string>): Option<Json>
    decreases |path|
  {
    if path == [] then Some(json)
    else
      match json.Get(path[0])
      case None => None
      case Some(inner) => At(inner, path[1..])
  }

  predicate IsCount(json: Option<Json>, n: nat) {
    json.Some? && json.value.AsUnsigned() == Some(n)
  }

  /** A block start that announces a tool. */
  ghost predicate StartsTool(json: Json, kind: string) {
    && kind == "content_block_start"
    && (exists n :: IsCount(At(json, ["index"]), n))
    && At(json, ["content_block", "type"]) == Some(JsonString("tool_use"))
  }

  lemma OneKey(json: Json, a: string, rest: seq<string>)
    ensures At(json, [a] + rest) == if json.Get(a).Some? then At(json.Get(a).value, rest) else None
  {
    assert ([a] + rest)[1..] == rest;
  }

  lemma TwoKeys(json: Json, a: string, b: string)
    ensures At(json, [a, b]) == Field(json, a, b)
  {
    OneKey(json, a, [b]);
    assert [a, b] == [a] + [b];
    if json.Get(a).Some? {
      OneKey(json.Get(a).value, b, []);
      assert [b] == [b] + [];
    }
  }

  lemma ThreeKeys(json: Json, a: string, b: string, c: string)
    ensures At(json, [a, b, c]) == if Field(json, a, b).Some? then Field(json, a, b).value.Get(c) else None
  {
    OneKey(json, a, [b, c]);
    assert [a, b, c] == [a] + [b, c];
    if json.Get(a).Some? {
      TwoKeys(json.Get(a).value, b, c);
    }
  }

  /** Which update a data line yields, and with what in it: counts and texts are those at their
      places in the event. */
  lemma UpdatesOfTypeIff(json: Json, kind: string)
    ensures forall n :: InputTokens(n) in UpdatesOfType(json, kind)
                        <==> kind == "message_start" && IsCount(At(json, ["message", "usage", "input_tokens"]), n)
    ensures forall n :: OutputTokens(n) in UpdatesOfType(json, kind)
                        <==> kind == "message_delta" && IsCount(At(json, ["usage", "output_tokens"]), n)
    ensures forall t :: Text(t) in UpdatesOfType(json, kind)
                        <==> kind == "content_block_delta" && At(json, ["delta", "text"]) == Some(JsonString(t))
  {
    ThreeKeys(json, "message", "usage", "input_tokens");
    TwoKeys(json, "usage", "output_tokens");
    TwoKeys(json, "delta", "text");
  }

  /** A tool use is announced exactly by a block start that says so; names it leaves out read
      "unknown". */
  lemma ToolUseIff(json: Json, kind: string, id: string, name: string, input: Json, toolType: string)
    ensures ToolUse(id, name, input, toolType) in UpdatesOfType(json, kind)
       <==> && StartsTool(json, kind) && toolType == "tool_use"
            && id == StringOr(At(json, ["content_block", "id"]), "unknown")
            && name == StringOr(At(json, ["content_block", "name"]), "unknown")
            && input == match At(json, ["content_block", "input"]) case Some(value) => value case None => JsonNull
  {
    OneKey(json, "index", []);
    assert ["index"] == ["index"] + [];
    TwoKeys(json, "content_block", "type");
    TwoKeys(json, "content_block", "id");
    TwoKeys(json, "content_block", "name");
    TwoKeys(json, "content_block", "input");
    if json.Get("index").Some? && json.Get("index").value.AsUnsigned().Some? {
      assert IsCount(At(json, ["index"]), json.Get("index").value.AsUnsigned().value);
    }
  }

  function ParseSseDataLine(lib: Library, data: string): (updates: seq<SseChunk>)
    ensures |updates| <= 1
  {
    match lib.parseJson(data)
    case None => [Other("ParseError")]
    case Some(json) =>
      var kind := json.Get("type");
      if kind.Some? && kind.value.JsonString? then UpdatesOfType(json, kind.value.s) else [Other("MissingType")]
  }

  // ---------------------------------------------------------------- what an event says

  /** The whitespace that trimming removes: the characters with the Unicode property White_Space. */
  lemma WhitespaceIs(c: char)
    ensures IsWhitespace(c)
       <==> c in {'\t', '\n', '\U{B}', '\U{C}', '\r', ' ', '\U{85}', '\U{A0}', '\U{1680}', '\U{2000}', '\U{2001}',
                  '\U{2002}', '\U{2003}', '\U{2004}', '\U{2005}', '\U{2006}', '\U{2007}', '\U{2008}', '\U{2009}',
                  '\U{200A}', '\U{2028}', '\U{2029}', '\U{202F}', '\U{205F}', '\U{3000}'}
  {
  }

  function Joined(pieces: seq<string>): string
    requires pieces != []
  {
    if |pieces| == 1 then pieces[0] else pieces[0] + "\n" + Joined(pieces[1..])
  }

  /** The text between its line feeds. */
  ghost predicate IsSplit(text: string, pieces: seq<string>) {
    pieces != [] && (forall k :: 0 <= k < |pieces| ==> '\n' !in pieces[k]) && Joined(pieces) == text
  }

  /** A line feed takes a carriage return before it along, and nothing follows the last one if the
      text ends there. */
  function Chomped(pieces: seq<string>): seq<string>
    requires pieces != []
  {
    if |pieces| == 1 then (if pieces[0] == "" then [] else pieces)
    else
      var piece := pieces[0];
      [if piece != "" && piece[|piece| - 1] == '\r' then piece[..|piece| - 1] else piece] + Chomped(pieces[1..])
  }

  lemma IndexOfFirst(s: string, c: char, rest: string)
    requires c !in s
    ensures IndexOf(s + [c] + rest, c) == |s|
  {
    if s != [] {
      assert (s + [c] + rest)[1..] == s[1..] + [c] + rest;
      IndexOfFirst(s[1..], c, rest);
    }
  }

  lemma {:induction false} LinesAreChomped(pieces: seq<string>)
    requires pieces != [] && forall k :: 0 <= k < |pieces| ==> '\n' !in pieces[k]
    ensures Lines(Joined(pieces)) == Chomped(pieces)
    decreases |pieces|
  {
    var piece := pieces[0];
    if |pieces| == 1 {
      if piece != "" {
        assert IndexOf(piece, '\n') == |piece| by {
          assert forall i :: 0 <= i < |piece| ==> piece[i] in piece;
        }
        assert pieces == [piece];
      }
    } else {
      var rest := Joined(pieces[1..]);
      var text := piece + ['\n'] + rest;
      IndexOfFirst(piece, '\n', rest);
      assert Joined(pieces) == text;
      LinesAreChomped(pieces[1..]);
      assert text[..|piece|] == piece && text[|piece| + 1..] == rest;
      assert piece != "" ==> text[|piece| - 1] == piece[|piece| - 1] && text[..|piece| - 1] == piece[..|piece| - 1];
    }
  }

  lemma {:induction false} SplitExists(text: string)
    ensures exists pieces :: IsSplit(text, pieces)
    decreases |text|
  {
    var i := IndexOf(text, '\n');
    if i == |text| {
      assert '\n' !in text by {
        assert text[..i] == text;
      }
      assert IsSplit(text, [text]);
    } else {
      SplitExists(text[i + 1..]);
      var rest :| IsSplit(text[i + 1..], rest);
      var pieces := [text[..i]] + rest;
      assert pieces[1..] == rest;
      assert text == text[..i] + "\n" + text[i + 1..];
      assert IsSplit(text, pieces);
    }
  }

  predicate AllSpace(s: string) {
    forall i :: 0 <= i < |s| ==> IsWhitespace(s[i])
  }

  /** The text is this much between whitespace. */
  predicate TrimmedAt(s: string, i: nat, j: nat, trimmed: string) {
    i <= j <= |s| && s[i..j] == trimmed && AllSpace(s[..i]) && AllSpace(s[j..])
  }

  /** What is left of the text without the whitespace at its ends. */
  ghost predicate Trims(s: string, trimmed: string) {
    && (exists i: nat, j: nat :: TrimmedAt(s, i, j, trimmed))
    && (trimmed != "" ==> !IsWhitespace(trimmed[0]) && !IsWhitespace(trimmed[|trimmed| - 1]))
  }

  lemma SpaceJoins(a: string, b: string)
    requires AllSpace(a) && AllSpace(b)
    ensures AllSpace(a + b)
  {
  }

  /** These many characters at the front are space, and this is the rest. */
  predicate FrontIsSpace(s: string, i: nat, rest: string) {
    i <= |s| && AllSpace(s[..i]) && rest == s[i..]
  }

  lemma {:induction false} TrimStartTrims(s: string) returns (i: nat)
    ensures FrontIsSpace(s, i, TrimStart(s))
    ensures TrimStart(s) != "" ==> !IsWhitespace(TrimStart(s)[0])
  {
    if s != [] && IsWhitespace(s[0]) {
      i := TrimStartTrims(s[1..]);
      OneMoreSpace(s, i, TrimStart(s[1..]));
      i := i + 1;
    } else {
      i := 0;
      assert s[0..] == s;
    }
  }

  lemma OneMoreSpace(s: string, i: nat, rest: string)
    requires s != "" && IsWhitespace(s[0]) && FrontIsSpace(s[1..], i, rest)
    ensures FrontIsSpace(s, i + 1, rest)
  {
    assert s[1..][i..] == s[i + 1..];
    assert s[..i + 1] == [s[0]] + s[1..][..i];
    SpaceJoins([s[0]], s[1..][..i]);
  }

  /** Everything from here on is space, and this comes before it. */
  predicate BackIsSpace(s: string, j: nat, rest: string) {
    j <= |s| && AllSpace(s[j..]) && rest == s[..j]
  }

  lemma {:induction false} TrimEndTrims(s: string) returns (j: nat)
    ensures BackIsSpace(s, j, TrimEnd(s))
    ensures TrimEnd(s) != "" ==> !IsWhitespace(TrimEnd(s)[|TrimEnd(s)| - 1])
    decreases |s|
  {
    if s != [] && IsWhitespace(s[|s| - 1]) {
      j := TrimEndTrims(s[..|s| - 1]);
      SpaceAtBack(s, j, TrimEnd(s[..|s| - 1]));
    } else {
      j := |s|;
      assert s[..|s|] == s;
    }
  }

  lemma SpaceAtBack(s: string, j: nat, rest: string)
    requires s != "" && IsWhitespace(s[|s| - 1]) && BackIsSpace(s[..|s| - 1], j, rest)
    ensures BackIsSpace(s, j, rest)
  {
    var front := s[..|s| - 1];
    assert front[..j] == s[..j];
    assert s[j..] == front[j..] + [s[|s| - 1]];
    SpaceJoins(front[j..], [s[|s| - 1]]);
  }

  lemma TrimmingTrims(s: string)
    ensures Trims(s, TrimEnd(TrimStart(s)))
  {
    var start := TrimStart(s);
    var i := TrimStartTrims(s);
    var n := TrimEndTrims(start);
    TrimmedBothEnds(s, i, n);
    if n > 0 {
      assert start[..n][0] == start[0];
    }
  }

  lemma TrimmedBothEnds(s: string, i: nat, n: nat)
    requires i <= |s| && n <= |s[i..]| && AllSpace(s[..i]) && AllSpace(s[i..][n..])
    ensures TrimmedAt(s, i, i + n, s[i..][..n])
  {
    assert s[i..][..n] == s[i..i + n];
    assert s[i..][n..] == s[i + n..];
  }

  /** There is one way to trim. */
  lemma TrimsOnce(s: string, a: string, b: string)
    requires Trims(s, a) && Trims(s, b)
    ensures a == b
  {
    var i: nat, j: nat :| TrimmedAt(s, i, j, a);
    var k: nat, l: nat :| TrimmedAt(s, k, l, b);
    if a != "" {
      assert a[0] == s[i] && a[|a| - 1] == s[j - 1];
    }
    if b != "" {
      assert b[0] == s[k] && b[|b| - 1] == s[l - 1];
    }
    OuterCovers(s, i, j, k, l);
    OuterCovers(s, k, l, i, j);
  }

  /** What begins and ends with something else than space lies inside any other trimming. */
  lemma OuterCovers(s: string, i: nat, j: nat, k: nat, l: nat)
    requires i <= j <= |s| && k <= l <= |s| && AllSpace(s[..i]) && AllSpace(s[j..])
    requires k < l ==> !IsWhitespace(s[k]) && !IsWhitespace(s[l - 1])
    ensures k < l ==> i <= k && l <= j
  {
    assert forall x :: 0 <= x < i ==> IsWhitespace(s[x]) by {
      assert forall x :: 0 <= x < i ==> s[..i][x] == s[x];
    }
    assert forall x :: j <= x < |s| ==> IsWhitespace(s[x]) by {
      assert forall x :: j <= x < |s| ==> s[x] == s[j..][x - j];
    }
  }

  /** The line announces data, and this is its payload. */
  ghost predicate IsDataLine(line: string, payload: string) {
    |line| >= 5 && line[..5] == "data:" && payload != "" && Trims(line[5..], payload)
  }

  /** What an event of this type yields: counts, texts and tools are those at their places, an event
      that lacks what its type calls for is passed on by type, and so is every other. */
  ghost predicate KindReads(json: Json, kind: string, us: seq<SseChunk>) {
    if kind == "message_stop" then us == [Stop]
    else if kind == "message_start" then
      && (forall n :: IsCount(At(json, ["message", "usage", "input_tokens"]), n) ==> us == [InputTokens(n)])
      && ((forall n :: !IsCount(At(json, ["message", "usage", "input_tokens"]), n)) ==> us == [Other(kind)])
    else if kind == "message_delta" then
      && (forall n :: IsCount(At(json, ["usage", "output_tokens"]), n) ==> us == [OutputTokens(n)])
      && ((forall n :: !IsCount(At(json, ["usage", "output_tokens"]), n)) ==> us == [Other(kind)])
    else if kind == "content_block_delta" then
      match At(json, ["delta", "text"])
      case Some(JsonString(text)) => us == [Text(text)]
      case _ => us == [Other(kind)]
    else if kind == "content_block_start" then
      if StartsTool(json, kind) then
        && |us| == 1 && us[0].ToolUse? && us[0].toolType == "tool_use"
        && us[0].id == StringOr(At(json, ["content_block", "id"]), "unknown")
        && us[0].name == StringOr(At(json, ["content_block", "name"]), "unknown")
        && us[0].input == match At(json, ["content_block", "input"]) case Some(value) => value case None => JsonNull
      else us == if exists n :: IsCount(At(json, ["index"]), n) then [] else [Other(kind)]
    else us == [Other(kind)]
  }

  /** What a payload yields without a provider's own parser. */
  ghost predicate Reads(parsed: Option<Json>, us: seq<SseChunk>) {
    match parsed
    case None => us == [Other("ParseError")]
    case Some(json) =>
      match At(json, ["type"])
      case Some(JsonString(kind)) => KindReads(json, kind, us)
      case _ => us == [Other("MissingType")]
  }

  /** What a line yields: a data line what its payload says, to the provider's parser if there is
      one, and any other line nothing. */
  ghost predicate LineReads(lib: Library, url: Option<string>, line: string, us: seq<SseChunk>) {
    if exists payload :: IsDataLine(line, payload)
    then
      forall payload | IsDataLine(line, payload) ::
        if url.Some? && lib.providerFor(url.value).Some? then us == lib.providerFor(url.value).value(payload)
        else Reads(lib.parseJson(payload), us)
    else us == []
  }

  /** What the lines yield, one after the other. */
  ghost predicate LinesRead(lib: Library, url: Option<string>, lines: seq<string>, us: seq<SseChunk>)
    decreases |lines|
  {
    if lines == [] then us == []
    else
      exists k :: 0 <= k <= |us| && LineReads(lib, url, lines[0], us[..k]) && LinesRead(lib, url, lines[1..], us[k..])
  }

  lemma KindIsRead(json: Json, kind: string)
    ensures KindReads(json, kind, UpdatesOfType(json, kind))
  {
    UpdatesOfTypeIff(json, kind);
    var us := UpdatesOfType(json, kind);
    if us != [] && us[0].ToolUse? {
      ToolUseIff(json, kind, us[0].id, us[0].name, us[0].input, us[0].toolType);
    }
    BlockStartIsRead(json);
  }

  lemma BlockStartIsRead(json: Json)
    ensures KindReads(json, "content_block_start", UpdatesOfType(json, "content_block_start"))
  {
    var kind := "content_block_start";
    var us := UpdatesOfType(json, kind);
    OneKey(json, "index", []);
    assert ["index"] == ["index"] + [];
    TwoKeys(json, "content_block", "type");
    if json.Get("index").Some? && json.Get("index").value.AsUnsigned().Some? {
      assert IsCount(At(json, ["index"]), json.Get("index").value.AsUnsigned().value);
    }
    if us != [] && us[0].ToolUse? {
      ToolUseIff(json, kind, us[0].id, us[0].name, us[0].input, us[0].toolType);
    }
  }

  lemma PayloadIsRead(lib: Library, payload: string)
    ensures Reads(lib.parseJson(payload), ParseSseDataLine(lib, payload))
  {
    match lib.parseJson(payload)
    case None =>
    case Some(json) =>
      OneKey(json, "type", []);
      assert ["type"] == ["type"] + [];
      if json.Get("type").Some? && json.Get("type").value.JsonString? {
        KindIsRead(json, json.Get("type").value.s);
      }
  }

  lemma LineIsRead(lib: Library, url: Option<string>, line: string)
    ensures LineReads(lib, url, line, UpdatesOfLine(lib, url, line))
  {
    if DATA <= line {
      var part := TrimEnd(TrimStart(line[|DATA|..]));
      TrimmingTrims(line[5..]);
      forall payload | IsDataLine(line, payload)
        ensures payload == part
      {
        TrimsOnce(line[5..], part, payload);
      }
      if part != "" {
        assert IsDataLine(line, part);
        PayloadIsRead(lib, part);
      }
    }
  }

  lemma {:induction false} LinesAreRead(lib: Library, url: Option<string>, lines: seq<string>)
    ensures LinesRead(lib, url, lines, UpdatesOfLines(lib, url, lines))
    decreases |lines|
  {
    if lines != [] {
      var first, us := UpdatesOfLine(lib, url, lines[0]), UpdatesOfLines(lib, url, lines);
      LineIsRead(lib, url, lines[0]);
      LinesAreRead(lib, url, lines[1..]);
      assert us[..|first|] == first && us[|first|..] == UpdatesOfLines(lib, url, lines[1..]);
    }
  }

  /** From the bytes of an event to its updates: an event that is not UTF-8 yields nothing; any other
      yields what its lines say, in order, however one splits it at its line feeds. */
  lemma EventIsRead(lib: Library, url: Option<string>, event: seq<byte>)
    ensures lib.decodeUtf8(event).None? ==> UpdatesOfEvent(lib, url, event) == []
    ensures lib.decodeUtf8(event).Some? ==>
              && (exists pieces :: IsSplit(lib.decodeUtf8(event).value, pieces))
              && (forall pieces :: IsSplit(lib.decodeUtf8(event).value, pieces) ==>
                                     LinesRead(lib, url, Chomped(pieces), UpdatesOfEvent(lib, url, event)))
  {
    if lib.decodeUtf8(event).Some? {
      var text := lib.decodeUtf8(event).value;
      SplitExists(text);
      TextIsRead(lib, url, text);
    }
  }

  lemma TextIsRead(lib: Library, url: Option<string>, text: string)
    ensures forall pieces :: IsSplit(text, pieces) ==>
                               LinesRead(lib, url, Chomped(pieces), UpdatesOfLines(lib, url, Lines(text)))
  {
    forall pieces | IsSplit(text, pieces)
      ensures LinesRead(lib, url, Chomped(pieces), UpdatesOfLines(lib, url, Lines(text)))
    {
      LinesAreChomped(pieces);
      LinesAreRead(lib, url, Chomped(pieces));
    }
  }

  lemma {:induction false} UpdatesOfAppend(lib: Library, url: Option<string>, a: seq<seq<byte>>, b: seq<seq<byte>>)
    ensures UpdatesOf(lib, url, a + b) == UpdatesOf(lib, url, a) + UpdatesOf(lib, url, b)
  {
    if a == [] {
      assert a + b == b;
    } else {
      assert (a + b)[1..] == a[1..] + b;
      UpdatesOfAppend(lib, url, a[1..], b);
    }
  }

  lemma {:induction false} UpdatesOfLinesAppend(lib: Library, url: Option<string>, lines: seq<string>, line: string)
    ensures UpdatesOfLines(lib, url, lines + [line]) == UpdatesOfLines(lib, url, lines) + UpdatesOfLine(lib, url, line)
  {
    if lines == [] {
      assert [] + [line] == [line];
    } else {
      assert (lines + [line])[1..] == lines[1..] + [line];
      UpdatesOfLinesAppend(lib, url, lines[1..], line);
    }
  }

  // ---------------------------------------------------------------- streams in chunks

  datatype Fed = Fed(updates: seq<SseChunk>, buffer: seq<byte>)

  function FeedOne(lib: Library, url: Option<string>, buffer: seq<byte>, chunk: seq<byte>): Fed {
    var cut := CutEvents(buffer + chunk);
    Fed(UpdatesOf(lib, url, cut.events), cut.rest)
  }

  function Feed(lib: Library, url: Option<string>, buffer: seq<byte>, chunks: seq<seq<byte>>): Fed
    decreases |chunks|
  {
    if chunks == [] then Fed([], buffer)
    else
      var first := FeedOne(lib, url, buffer, chunks[0]);
      var rest := Feed(lib, url, first.buffer, chunks[1..]);
      Fed(first.updates + rest.updates, rest.buffer)
  }

  lemma FeedTwice(lib: Library, url: Option<string>, buffer: seq<byte>, a: seq<byte>, b: seq<byte>)
    ensures
      var first := FeedOne(lib, url, buffer, a);
      var second := FeedOne(lib, url, first.buffer, b);
      FeedOne(lib, url, buffer, a + b) == Fed(first.updates + second.updates, second.buffer)
  {
    var before := CutEvents(buffer + a);
    assert (buffer + a) + b == buffer + (a + b);
    CutExtends(buffer + a, b);
    UpdatesOfAppend(lib, url, before.events, CutEvents(before.rest + b).events);
  }

  /** Feeding chunk by chunk is feeding everything at once. */
  lemma {:induction false} FeedIsBulk(lib: Library, url: Option<string>, buffer: seq<byte>, chunks: seq<seq<byte>>)
    requires SeparatorFree(buffer)
    ensures Feed(lib, url, buffer, chunks) == FeedOne(lib, url, buffer, Concat(chunks))
    decreases |chunks|
  {
    if chunks == [] {
      NothingNew(lib, url, buffer);
    } else {
      var first := FeedOne(lib, url, buffer, chunks[0]);
      CutEventsIsCut(buffer + chunks[0]);
      FeedIsBulk(lib, url, first.buffer, chunks[1..]);
      FeedTwice(lib, url, buffer, chunks[0], Concat(chunks[1..]));
    }
  }

  lemma NothingNew(lib: Library, url: Option<string>, buffer: seq<byte>)
    requires SeparatorFree(buffer)
    ensures FeedOne(lib, url, buffer, []) == Fed([], buffer)
  {
    assert buffer + [] == buffer;
    CutIsUnique(Cut([], buffer), buffer);
  }

  /** However a byte stream is cut into chunks, the parser yields the same updates and keeps
      the same buffer. */
  lemma CutsDoNotMatter(lib: Library, url: Option<string>, chunks: seq<seq<byte>>, chunks': seq<seq<byte>>)
    requires Concat(chunks) == Concat(chunks')
    ensures Feed(lib, url, [], chunks) == Feed(lib, url, [], chunks')
  {
    FeedIsBulk(lib, url, [], chunks);
    FeedIsBulk(lib, url, [], chunks');
  }

  // ---------------------------------------------------------------- the parser as an object

  class SseParser {
    const lib: Library
    const requestUrl: Option<string>
    var buffer: seq<byte>

    constructor (lib: Library, requestUrl: Option<string>)
      ensures this.lib == lib && this.requestUrl == requestUrl && buffer == []
    {
      this.lib := lib;
      this.requestUrl := requestUrl;
      buffer := [];
    }

    method ParseEventString(event: string) returns (updates: seq<SseChunk>)
      ensures updates == UpdatesOfLines(lib, requestUrl, Lines(event))
      ensures forall pieces :: IsSplit(event, pieces) ==> LinesRead(lib, requestUrl, Chomped(pieces), updates)
    {
      updates := [];
      var lines := Lines(event);
      var i := 0;
      while i < |lines|
        invariant 0 <= i <= |lines|
        invariant updates == UpdatesOfLines(lib, requestUrl, lines[..i])
      {
        var part := DataPart(lines[i]);
        if part.Some? {
          updates := updates + ParseDataPart(lib, requestUrl, part.value);
        }
        UpdatesOfLinesAppend(lib, requestUrl, lines[..i], lines[i]);
        assert lines[..i + 1] == lines[..i] + [lines[i]];
        i := i + 1;
      }
      assert lines[..i] == lines;
      TextIsRead(lib, requestUrl, event);
    }

    /** Removes the first event, up to and including its separator, and reads it. */
    method DrainEvent(index: nat) returns (updates: seq<SseChunk>, ghost event: seq<byte>)
      requires FirstSeparator(buffer, 0) == Some(index)
      modifies this
      ensures IsEvent(event) && event + buffer == old(buffer)
      ensures updates == UpdatesOfEvent(lib, requestUrl, event)
    {
      var data := buffer[..index + 2];
      FirstIsEvent(buffer);
      assert data + buffer[index + 2..] == buffer;
      buffer := buffer[index + 2..];
      event := data;
      updates := [];
      var text := lib.decodeUtf8(data);
      if text.Some? {
        updates := ParseEventString(text.value);
      }
    }

    method ProcessChunk(chunk: seq<byte>) returns (updates: seq<SseChunk>)
      modifies this
      ensures Fed(updates, buffer) == FeedOne(lib, requestUrl, old(buffer), chunk)
      ensures SeparatorFree(buffer)
    {
      ghost var all := buffer + chunk;
      buffer := buffer + chunk;
      updates := [];
      ghost var drained: seq<seq<byte>> := [];
      var index := FirstSeparator(buffer, 0);
      while index.Some?
        invariant index == FirstSeparator(buffer, 0)
        invariant Drained(drained, buffer, all)
        invariant updates == UpdatesOf(lib, requestUrl, drained)
        decreases |buffer|
      {
        ghost var before := buffer;
        var parsed, event := DrainEvent(index.value);
        DrainedOneMore(drained, event, buffer, before);
        UpdatesOfOne(lib, requestUrl, drained, event);
        updates := updates + parsed;
        drained := drained + [event];
        index := FirstSeparator(buffer, 0);
      }
      FedAs(lib, requestUrl, old(buffer), chunk, drained, buffer);
    }
  }

  /** These events have been taken off the front of the bytes. */
  ghost predicate Drained(drained: seq<seq<byte>>, buffer: seq<byte>, all: seq<byte>) {
    Concat(drained) + buffer == all && forall k :: 0 <= k < |drained| ==> IsEvent(drained[k])
  }

  lemma DrainedOneMore(drained: seq<seq<byte>>, event: seq<byte>, buffer: seq<byte>, before: seq<byte>)
    requires IsEvent(event) && event + buffer == before
    ensures forall all :: Drained(drained, before, all) ==> Drained(drained + [event], buffer, all)
  {
    ConcatOne(drained, event);
    assert (Concat(drained) + event) + buffer == Concat(drained) + before;
  }

  lemma FedAs(
    lib: Library, url: Option<string>, buffer: seq<byte>, chunk: seq<byte>, drained: seq<seq<byte>>,
    rest: seq<byte>)
    requires Drained(drained, rest, buffer + chunk) && SeparatorFree(rest)
    ensures FeedOne(lib, url, buffer, chunk) == Fed(UpdatesOf(lib, url, drained), rest)
  {
    CutIsUnique(Cut(drained, rest), buffer + chunk);
  }

  lemma ConcatOne(parts: seq<seq<byte>>, part: seq<byte>)
    ensures Concat(parts + [part]) == Concat(parts) + part
  {
    ConcatAppend(parts, [part]);
    assert Concat([part]) == part + [] == part;
  }

  lemma UpdatesOfOne(lib: Library, url: Option<string>, events: seq<seq<byte>>, event: seq<byte>)
    ensures UpdatesOf(lib, url, events + [event]) == UpdatesOf(lib, url, events) + UpdatesOfEvent(lib, url, event)
  {
    UpdatesOfAppend(lib, url, events, [event]);
    assert UpdatesOf(lib, url, [event]) == UpdatesOfEvent(lib, url, event) + [] == UpdatesOfEvent(lib, url, event);
  }
}
