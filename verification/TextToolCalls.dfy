/**
 `parseToolCallsFromText`: tool calls that a model wrote into its text are taken out of it.

 The JSON decoder is input. From a text that starts with a brace it decodes one object and
 says how much of the text that object takes, or fails.
 */
module TextToolCalls {
  import opened Options
  import opened Sequences
  import opened Text

  /**
   A decoded object: its `name` and `id` if they are strings, its `arguments` if that field
   is present (a string as it is, anything else as JSON), and the length of its text.
   */
  datatype Decoded = Broken | Object(name: Option<string>, id: Option<string>, arguments: Option<string>, used: nat)

  type Decoder = string -> Decoded

  /** An object consumes at least its braces and no more than there is. */
  ghost predicate Sound(decode: Decoder) {
    forall s: string :: decode(s).Object? ==> 2 <= decode(s).used <= |s| && s[0] == '{' && s[decode(s).used - 1] == '}'
  }

  datatype ToolCall = ToolCall(id: string, name: string, arguments: string)

  datatype Kind = Plain | LoneBrace | KeptObject | Taken(call: ToolCall)

  /** A stretch of the text. */
  datatype Segment = Segment(lo: nat, hi: nat, kind: Kind)

  /** The next opening brace, or the end of the text. */
  function NextBrace(text: string, from: nat): (b: nat)
    requires from <= |text|
    ensures from <= b <= |text| && (b < |text| ==> text[b] == '{') && '{' !in text[from..b]
    decreases |text| - from
  {
    if from == |text| || text[from] == '{' then from
    else
      var b := NextBrace(text, from + 1);
      assert text[from..b] == [text[from]] + text[from + 1..b];
      b
  }

  /** What becomes of the object decoded at `b`; `uuid` supplies IDs for calls without one. */
  function KindOf(d: Decoded, b: nat, uuid: nat -> string): Kind
    requires d.Object?
  {
    if d.name.None? || d.arguments.None? then KeptObject
    else
      var id := if d.id.Some? && d.id.value != "" then d.id.value else "call_" + uuid(b);
      Taken(ToolCall(id, d.name.value, d.arguments.value))
  }

  /** The stretch of the text that starts at `cursor`. */
  function NextSegment(text: string, cursor: nat, decode: Decoder, uuid: nat -> string): Segment
    requires cursor < |text|
  {
    if text[cursor] != '{' then Segment(cursor, NextBrace(text, cursor), Plain)
    else
      var d := decode(text[cursor..]);
      if d.Broken? then Segment(cursor, cursor + 1, LoneBrace)
      else Segment(cursor, cursor + d.used, KindOf(d, cursor, uuid))
  }

  lemma NextSegmentMovesOn(text: string, cursor: nat, decode: Decoder, uuid: nat -> string)
    requires Sound(decode) && cursor < |text|
    ensures var s := NextSegment(text, cursor, decode, uuid); s.lo == cursor < s.hi <= |text|
  {
  }

  /** The stretches of the text from `cursor` on. */
  ghost function Segments(text: string, cursor: nat, decode: Decoder, uuid: nat -> string): seq<Segment>
    requires Sound(decode) && cursor <= |text|
    decreases |text| - cursor
  {
    if cursor == |text| then []
    else
      NextSegmentMovesOn(text, cursor, decode, uuid);
      var s := NextSegment(text, cursor, decode, uuid);
      [s] + Segments(text, s.hi, decode, uuid)
  }

  predicate Within(segments: seq<Segment>, text: string) {
    forall s <- segments :: s.lo <= s.hi <= |text|
  }

  function Kept(s: Segment, text: string): string
    requires s.lo <= s.hi <= |text|
  {
    if s.kind.Taken? then "" else text[s.lo..s.hi]
  }

  /** What the stretches leave of the text. */
  function KeptText(segments: seq<Segment>, text: string): string
    requires Within(segments, text)
  {
    if segments == [] then "" else KeptText(segments[..|segments| - 1], text) + Kept(segments[|segments| - 1], text)
  }

  function Calls(s: Segment): seq<ToolCall> {
    if s.kind.Taken? then [s.kind.call] else []
  }

  function CallsOf(segments: seq<Segment>): seq<ToolCall> {
    if segments == [] then [] else CallsOf(segments[..|segments| - 1]) + Calls(segments[|segments| - 1])
  }

  lemma Snoc(segments: seq<Segment>, s: Segment, text: string)
    requires Within(segments, text) && s.lo <= s.hi <= |text|
    ensures Within(segments + [s], text)
    ensures KeptText(segments + [s], text) == KeptText(segments, text) + Kept(s, text)
    ensures CallsOf(segments + [s]) == CallsOf(segments) + Calls(s)
  {
    assert (segments + [s])[..|segments|] == segments;
  }

  /** The stretches `done` are those of the text before `cursor`. */
  ghost predicate Reached(text: string, decode: Decoder, uuid: nat -> string, done: seq<Segment>, cursor: nat)
    requires Sound(decode)
  {
    cursor <= |text| && Segments(text, 0, decode, uuid) == done + Segments(text, cursor, decode, uuid)
  }

  lemma ReachedNext(text: string, decode: Decoder, uuid: nat -> string, done: seq<Segment>, cursor: nat)
    requires Sound(decode) && Reached(text, decode, uuid, done, cursor) && cursor < |text|
    ensures var s := NextSegment(text, cursor, decode, uuid);
            s.lo == cursor < s.hi <= |text| && Reached(text, decode, uuid, done + [s], s.hi)
  {
    NextSegmentMovesOn(text, cursor, decode, uuid);
    var s := NextSegment(text, cursor, decode, uuid);
    hide Sound, NextSegment;
    assert done + ([s] + Segments(text, s.hi, decode, uuid)) == done + [s] + Segments(text, s.hi, decode, uuid);
    hide Segments;
  }

  lemma ReachedEnd(text: string, decode: Decoder, uuid: nat -> string, done: seq<Segment>)
    requires Sound(decode) && Reached(text, decode, uuid, done, |text|)
    ensures Segments(text, 0, decode, uuid) == done
  {
  }

  /** What the builder and the list of calls hold for a stretch. */
  method TakeSegment(text: string, s: Segment, ghost done: seq<Segment>, kept: string, calls: seq<ToolCall>)
    returns (kept': string, calls': seq<ToolCall>)
    requires Within(done, text) && s.lo <= s.hi <= |text| && kept == KeptText(done, text) && calls == CallsOf(done)
    ensures Within(done + [s], text) && kept' == KeptText(done + [s], text) && calls' == CallsOf(done + [s])
  {
    Snoc(done, s, text);
    kept', calls' := kept, calls;
    hide KeptText, CallsOf;
    if s.kind.Taken? {
      calls' := calls + [s.kind.call];
      assert kept + "" == kept;
    } else {
      kept' := kept + text[s.lo..s.hi];
      assert calls + [] == calls;
    }
  }

  /** Decode what starts at the brace under the cursor. */
  method ReadObject(text: string, cursor: nat, decode: Decoder, uuid: nat -> string) returns (s: Segment)
    requires cursor < |text| && text[cursor] == '{'
    ensures s == NextSegment(text, cursor, decode, uuid)
  {
    var candidate := decode(text[cursor..]);
    if candidate.Broken? {
      return Segment(cursor, cursor + 1, LoneBrace);
    }
    var end := cursor + candidate.used;
    if candidate.name.Some? && candidate.arguments.Some? {
      var id := "call_" + uuid(cursor);
      if candidate.id.Some? && candidate.id.value != "" {
        id := candidate.id.value;
      }
      s := Segment(cursor, end, Taken(ToolCall(id, candidate.name.value, candidate.arguments.value)));
    } else {
      s := Segment(cursor, end, KeptObject);
    }
  }

  /** The cursor loop. */
  method ParseToolCalls(text: string, decode: Decoder, uuid: nat -> string)
    returns (calls: seq<ToolCall>, remainder: string)
    requires Sound(decode)
    ensures Within(Segments(text, 0, decode, uuid), text)
    ensures calls == CallsOf(Segments(text, 0, decode, uuid))
    ensures remainder == TrimSpace(KeptText(Segments(text, 0, decode, uuid), text))
  {
    var kept, cursor := "", 0;
    calls := [];
    ghost var done: seq<Segment> := [];
    assert TrimSpace("") == "" && Reached(text, decode, uuid, done, cursor);
    assert Within(done, text) && kept == KeptText(done, text) && calls == CallsOf(done);
    hide Reached, TrimSpace, Sound, KeptText, CallsOf, Within, KindOf;
    if text == "" {
      ReachedEnd(text, decode, uuid, done);
      return [], "";
    }
    while cursor < |text|
      invariant cursor <= |text| && Reached(text, decode, uuid, done, cursor)
      invariant Within(done, text) && kept == KeptText(done, text) && calls == CallsOf(done)
    {
      var brace := NextBrace(text, cursor);
      if cursor < brace {
        ReachedNext(text, decode, uuid, done, cursor);
        var s := Segment(cursor, brace, Plain);
        assert s == NextSegment(text, cursor, decode, uuid);
        kept, calls := TakeSegment(text, s, done, kept, calls);
        done := done + [s];
        cursor := brace;
      }
      if cursor < |text| {
        ReachedNext(text, decode, uuid, done, cursor);
        var s := ReadObject(text, cursor, decode, uuid);
        kept, calls := TakeSegment(text, s, done, kept, calls);
        done := done + [s];
        cursor := s.hi;
      }
    }
    ReachedEnd(text, decode, uuid, done);
    remainder := TrimSpace(kept);
  }

  /******* What that means *******/

  /** The stretches lie end to end between two places of the text. */
  ghost predicate Tile(segments: seq<Segment>, from: nat, end: nat) {
    if segments == [] then from == end
    else segments[0].lo == from < segments[0].hi && Tile(segments[1..], segments[0].hi, end)
  }

  /** What a stretch is: text without a brace, a brace that starts no object, or exactly one decoded object. */
  predicate Right(s: Segment, text: string, decode: Decoder) {
    s.lo < s.hi <= |text| &&
    match s.kind
    case Plain => '{' !in text[s.lo..s.hi]
    case LoneBrace => text[s.lo..s.hi] == "{" && decode(text[s.lo..]).Broken?
    case KeptObject =>
      var d := decode(text[s.lo..]);
      d.Object? && s.hi == s.lo + d.used && (d.name.None? || d.arguments.None?)
    case Taken(call) =>
      var d := decode(text[s.lo..]);
      && d.Object? && s.hi == s.lo + d.used && d.name == Some(call.name) && d.arguments == Some(call.arguments)
      && (if d.id.Some? && d.id.value != "" then call.id == d.id.value else "call_" <= call.id)
  }

  lemma NextSegmentIsRight(text: string, cursor: nat, decode: Decoder, uuid: nat -> string)
    requires Sound(decode) && cursor < |text|
    ensures Right(NextSegment(text, cursor, decode, uuid), text, decode)
  {
    NextSegmentMovesOn(text, cursor, decode, uuid);
    hide Sound;
  }

  /** The stretches tile the text, and each is what its kind says. */
  lemma {:induction false} SegmentsPartition(text: string, cursor: nat, decode: Decoder, uuid: nat -> string)
    requires Sound(decode) && cursor <= |text|
    ensures Tile(Segments(text, cursor, decode, uuid), cursor, |text|)
    ensures forall s <- Segments(text, cursor, decode, uuid) :: Right(s, text, decode)
    decreases |text| - cursor
  {
    if cursor < |text| {
      NextSegmentIsRight(text, cursor, decode, uuid);
      NextSegmentMovesOn(text, cursor, decode, uuid);
      var s := NextSegment(text, cursor, decode, uuid);
      SegmentsPartition(text, s.hi, decode, uuid);
      hide Right, NextSegment, Sound;
      assert ([s] + Segments(text, s.hi, decode, uuid))[1..] == Segments(text, s.hi, decode, uuid);
    }
  }

  /** All the stretches, taken or not. */
  function Whole(segments: seq<Segment>, text: string): string
    requires Within(segments, text)
  {
    if segments == [] then ""
    else
      var s := segments[|segments| - 1];
      Whole(segments[..|segments| - 1], text) + text[s.lo..s.hi]
  }

  lemma {:induction false} WholeGrows(a: seq<Segment>, b: seq<Segment>, text: string)
    requires Within(a, text) && Within(b, text)
    ensures Within(a + b, text) && Whole(a + b, text) == Whole(a, text) + Whole(b, text)
  {
    if b == [] {
      assert a + b == a;
    } else {
      var before, s := b[..|b| - 1], b[|b| - 1];
      WholeGrows(a, before, text);
      assert (a + b)[..|a + b| - 1] == a + before && (a + b)[|a + b| - 1] == s;
      ConcatAssociates(Whole(a, text), Whole(before, text), text[s.lo..s.hi]);
    }
  }

  lemma {:induction false} KeptGrows(a: seq<Segment>, b: seq<Segment>, text: string)
    requires Within(a, text) && Within(b, text)
    ensures Within(a + b, text) && KeptText(a + b, text) == KeptText(a, text) + KeptText(b, text)
  {
    hide Kept;
    if b == [] {
      assert a + b == a;
    } else {
      var before, s := b[..|b| - 1], b[|b| - 1];
      KeptGrows(a, before, text);
      assert (a + b)[..|a + b| - 1] == a + before && (a + b)[|a + b| - 1] == s;
      ConcatAssociates(KeptText(a, text), KeptText(before, text), Kept(s, text));
    }
  }

  lemma {:induction false} TilesRebuild(segments: seq<Segment>, text: string, from: nat, end: nat)
    requires Within(segments, text) && Tile(segments, from, end) && end <= |text|
    ensures from <= end && Whole(segments, text) == text[from..end]
  {
    if segments != [] {
      var s, rest := segments[0], segments[1..];
      TilesRebuild(rest, text, s.hi, end);
      WholeGrows([s], rest, text);
      assert [s] + rest == segments;
      assert Whole([s], text) == text[s.lo..s.hi];
      SlicesJoin(text, s.lo, s.hi, end);
      hide Whole;
    }
  }

  lemma {:induction false} TilesAscend(segments: seq<Segment>, from: nat, end: nat, i: nat, j: nat)
    requires Tile(segments, from, end) && i < |segments| && i < j
    ensures from <= segments[i].lo < segments[i].hi <= end
    ensures j < |segments| ==> segments[i].hi <= segments[j].lo
  {
    if i > 0 {
      TilesAscend(segments[1..], segments[0].hi, end, i - 1, j - 1);
    } else if |segments| > 1 {
      if j == 1 || j >= |segments| {
        TilesAscend(segments[1..], segments[0].hi, end, 0, |segments|);
      } else {
        TilesAscend(segments[1..], segments[0].hi, end, 0, j - 1);
      }
    }
  }

  lemma KeptSplits(segments: seq<Segment>, text: string, i: nat)
    requires Within(segments, text) && i < |segments|
    ensures KeptText(segments, text) ==
            KeptText(segments[..i], text) + Kept(segments[i], text) + KeptText(segments[i + 1..], text)
  {
    hide KeptText, Kept;
    SplitsAt(segments, i);
    Snoc(segments[..i], segments[i], text);
    KeptGrows(segments[..i] + [segments[i]], segments[i + 1..], text);
  }

  /**
   The pieces that go to the remainder and the spans that become tool calls are disjoint,
   ascending stretches that rebuild the text; each is what its kind says.
   */
  lemma PartitionsText(text: string, decode: Decoder, uuid: nat -> string)
    requires Sound(decode)
    ensures var segments := Segments(text, 0, decode, uuid);
            && Within(segments, text) && Whole(segments, text) == text
            && (forall i, j :: 0 <= i < j < |segments| ==> segments[i].hi <= segments[j].lo)
            && forall s <- segments :: Right(s, text, decode)
  {
    SegmentsPartition(text, 0, decode, uuid);
    var segments := Segments(text, 0, decode, uuid);
    assert Within(segments, text);
    TilesRebuild(segments, text, 0, |text|);
    assert text[0..|text|] == text;
    forall i, j | 0 <= i < j < |segments| ensures segments[i].hi <= segments[j].lo {
      TilesAscend(segments, 0, |text|, i, j);
    }
    hide Sound, Segments, Right, Whole;
  }

  lemma {:induction false} NothingTaken(segments: seq<Segment>, text: string)
    requires Within(segments, text) && CallsOf(segments) == []
    ensures KeptText(segments, text) == Whole(segments, text)
  {
    if segments != [] {
      NothingTaken(segments[..|segments| - 1], text);
      assert !segments[|segments| - 1].kind.Taken?;
    }
  }

  /** A text in which no call is found stays as it is, but for the blanks around it. */
  lemma NoCallsNoChange(text: string, decode: Decoder, uuid: nat -> string)
    requires Sound(decode) && CallsOf(Segments(text, 0, decode, uuid)) == []
    ensures Within(Segments(text, 0, decode, uuid), text)
    ensures KeptText(Segments(text, 0, decode, uuid), text) == text
  {
    PartitionsText(text, decode, uuid);
    NothingTaken(Segments(text, 0, decode, uuid), text);
  }

  /******* Trimming *******/

  lemma {:induction false} TrimLeftStops(a: string, core: string)
    requires core != "" && !IsSpace(core[0])
    ensures TrimLeft(a + core) == TrimLeft(a) + core
  {
    if a == "" {
      assert a + core == core;
    } else {
      assert (a + core)[1..] == a[1..] + core;
      TrimLeftStops(a[1..], core);
    }
  }

  lemma {:induction false} TrimRightStops(core: string, b: string)
    requires core != "" && !IsSpace(core[|core| - 1])
    ensures TrimRight(core + b) == core + TrimRight(b)
  {
    if b == "" {
      assert core + b == core;
    } else {
      assert (core + b)[..|core + b| - 1] == core + b[..|b| - 1];
      TrimRightStops(core, b[..|b| - 1]);
    }
  }

  /** `core` stands somewhere in `s`. */
  ghost predicate Contains(s: string, core: string) {
    exists i: nat :: i <= |s| && core <= s[i..]
  }

  lemma TrimKeepsCore(a: string, core: string, b: string)
    requires core != "" && !IsSpace(core[0]) && !IsSpace(core[|core| - 1])
    ensures Contains(TrimSpace(a + core + b), core)
  {
    ConcatAssociates(a, core, b);
    TrimLeftStops(a, core + b);
    var left := TrimLeft(a);
    ConcatAssociates(left, core, b);
    TrimRightStops(left + core, b);
    var s := left + core + TrimRight(b);
    assert s[|left|..] == core + TrimRight(b);
    hide TrimLeft, TrimRight, IsSpace;
  }

  lemma KeptStretchStays(segments: seq<Segment>, text: string, i: nat)
    requires Within(segments, text) && i < |segments| && segments[i].lo < segments[i].hi && !segments[i].kind.Taken?
    requires !IsSpace(text[segments[i].lo]) && !IsSpace(text[segments[i].hi - 1])
    ensures Contains(TrimSpace(KeptText(segments, text)), text[segments[i].lo..segments[i].hi])
  {
    hide Contains, TrimSpace, KeptText, IsSpace;
    KeptSplits(segments, text, i);
    TrimKeepsCore(KeptText(segments[..i], text), text[segments[i].lo..segments[i].hi],
                  KeptText(segments[i + 1..], text));
  }

  lemma ObjectIsBraced(s: Segment, text: string, decode: Decoder)
    requires Sound(decode) && Right(s, text, decode) && s.kind.KeptObject?
    ensures s.lo < s.hi && !IsSpace(text[s.lo]) && !IsSpace(text[s.hi - 1])
  {
    var d := decode(text[s.lo..]);
    assert text[s.lo..][0] == text[s.lo] && text[s.lo..][d.used - 1] == text[s.hi - 1];
  }

  /** A decoded object that lacks a string name or an arguments field stays verbatim in the remainder. */
  lemma OtherObjectsStay(text: string, decode: Decoder, uuid: nat -> string, i: nat)
    requires Sound(decode)
    requires i < |Segments(text, 0, decode, uuid)| && Segments(text, 0, decode, uuid)[i].kind.KeptObject?
    ensures var segments := Segments(text, 0, decode, uuid);
            && Within(segments, text)
            && Contains(TrimSpace(KeptText(segments, text)), text[segments[i].lo..segments[i].hi])
  {
    hide Segments, Contains, Right, TrimSpace, KeptText, IsSpace, Sound, Within;
    var segments := Segments(text, 0, decode, uuid);
    assert Within(segments, text) && Right(segments[i], text, decode) by {
      PartitionsText(text, decode, uuid);
    }
    ObjectIsBraced(segments[i], text, decode);
    KeptStretchStays(segments, text, i);
  }
}
