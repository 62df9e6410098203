/**
 How a streamed model response is put together: the chunk loop of the OpenAI-compatible
 model and of the ARK model, and the final response they build.

 Decoding is input: a line of the stream has already been found to be something else, the
 end mark, undecodable or a chunk, and `parse` decodes the arguments of a tool call.
 */
module StreamAccumulation {
  import opened Numbers
  import opened Options
  import opened Sequences

  /** Token counts as a provider reports them, under one pair of names or the other. */
  datatype Usage = Usage(prompt: nat, input: nat, completion: nat, output: nat, total: nat)

  /** A fragment of a tool call; empty strings stand for absent fields. */
  datatype CallDelta = CallDelta(index: Option<int>, id: string, kind: string, name: string, arguments: string)

  datatype Delta = Delta(reasoning: string, text: string, calls: seq<CallDelta>)

  datatype Choice = Choice(finish: string, delta: Option<Delta>)

  datatype Chunk = Chunk(usage: Option<Usage>, choice: Option<Choice>)

  datatype Slot = Slot(id: string, kind: string, name: string, arguments: string)

  datatype Part = Thought(text: string) | Text(text: string) | Call(id: string, name: string, arguments: string)

  datatype Event =
    | Partial(part: Part)
    | Final(parts: seq<Part>, finish: string, usage: Option<Usage>)
    | Failed      // the error that the consumer receives
    | Crashed     // a panic: something to store at a negative tool call index

  type Parser = string -> Option<string>

  /******* Tool call slots *******/

  function Target(d: CallDelta): int {
    if d.index.Some? then d.index.value else 0
  }

  /** A negative index panics, but only when there is something to store in the slot. */
  predicate Panics(d: CallDelta) {
    Target(d) < 0 && !(d.id == "" && d.kind == "" && d.name == "" && d.arguments == "")
  }

  predicate NoPanic(deltas: seq<CallDelta>) {
    forall d <- deltas :: !Panics(d)
  }

  /** The fragments for slot `i`, in order. */
  function Only(deltas: seq<CallDelta>, i: int): seq<CallDelta> {
    if deltas == [] then []
    else
      var before, d := Only(deltas[..|deltas| - 1], i), deltas[|deltas| - 1];
      if Target(d) == i then before + [d] else before
  }

  function LastId(deltas: seq<CallDelta>): string {
    if deltas == [] then ""
    else if deltas[|deltas| - 1].id != "" then deltas[|deltas| - 1].id else LastId(deltas[..|deltas| - 1])
  }

  function LastKind(deltas: seq<CallDelta>): string {
    if deltas == [] then ""
    else if deltas[|deltas| - 1].kind != "" then deltas[|deltas| - 1].kind else LastKind(deltas[..|deltas| - 1])
  }

  function Names(deltas: seq<CallDelta>): string {
    if deltas == [] then "" else Names(deltas[..|deltas| - 1]) + deltas[|deltas| - 1].name
  }

  function Arguments(deltas: seq<CallDelta>): string {
    if deltas == [] then "" else Arguments(deltas[..|deltas| - 1]) + deltas[|deltas| - 1].arguments
  }

  /** What the fragments for one slot amount to. */
  function Assembled(deltas: seq<CallDelta>): Slot {
    Slot(LastId(deltas), LastKind(deltas), Names(deltas), Arguments(deltas))
  }

  /** One more than the highest index. */
  function Width(deltas: seq<CallDelta>): nat {
    if deltas == [] then 0
    else
      var d := deltas[|deltas| - 1];
      Max(Width(deltas[..|deltas| - 1]), if Target(d) >= 0 then Target(d) + 1 else 0)
  }

  /** The slots, each assembled from its own fragments alone. */
  function Slots(deltas: seq<CallDelta>): (slots: seq<Slot>)
    ensures |slots| == Width(deltas)
    ensures forall i :: 0 <= i < |slots| ==> slots[i] == Assembled(Only(deltas, i))
  {
    seq(Width(deltas), i => Assembled(Only(deltas, i)))
  }

  lemma OnlySnoc(deltas: seq<CallDelta>, d: CallDelta, i: int)
    ensures Only(deltas + [d], i) == if Target(d) == i then Only(deltas, i) + [d] else Only(deltas, i)
  {
    assert (deltas + [d])[..|deltas|] == deltas;
  }

  lemma AssembledSnoc(deltas: seq<CallDelta>, d: CallDelta)
    ensures Assembled(deltas + [d]) == With(Assembled(deltas), d)
  {
    assert (deltas + [d])[..|deltas|] == deltas;
  }

  lemma {:induction false} OnlyBeyondWidth(deltas: seq<CallDelta>, i: nat)
    requires Width(deltas) <= i
    ensures Only(deltas, i) == []
  {
    if deltas != [] {
      OnlyBeyondWidth(deltas[..|deltas| - 1], i);
    }
  }

  const BLANK := Slot("", "", "", "")

  /** A slot after one more of its fragments: the last non-empty ID and type win, names and arguments grow. */
  function With(slot: Slot, d: CallDelta): Slot {
    Slot(if d.id != "" then d.id else slot.id, if d.kind != "" then d.kind else slot.kind,
         slot.name + d.name, slot.arguments + d.arguments)
  }

  lemma SlotsGrow(deltas: seq<CallDelta>, d: CallDelta)
    ensures |Slots(deltas + [d])| == Max(|Slots(deltas)|, if Target(d) >= 0 then Target(d) + 1 else 0)
  {
    assert (deltas + [d])[..|deltas|] == deltas;
  }

  /** One more fragment changes its own slot and may add blank ones. */
  lemma SlotsSnoc(deltas: seq<CallDelta>, d: CallDelta, i: nat)
    requires i < |Slots(deltas + [d])|
    ensures var before := if i < |Slots(deltas)| then Slots(deltas)[i] else BLANK;
            Slots(deltas + [d])[i] == if i == Target(d) then With(before, d) else before
  {
    assert (deltas + [d])[..|deltas|] == deltas;
    OnlySnoc(deltas, d, i);
    AssembledSnoc(Only(deltas, i), d);
    if Width(deltas) <= i {
      OnlyBeyondWidth(deltas, i);
    }
  }

  /** Append blank slots until there are `n`. */
  method MakeRoom(slots: seq<Slot>, n: int) returns (after: seq<Slot>)
    ensures |after| == if |slots| < n then n else |slots|
    ensures forall i :: 0 <= i < |after| ==> after[i] == if i < |slots| then slots[i] else BLANK
  {
    after := slots;
    while |after| < n
      invariant |slots| <= |after| && (|slots| < |after| ==> |after| <= n)
      invariant forall i :: 0 <= i < |after| ==> after[i] == if i < |slots| then slots[i] else BLANK
    {
      after := after + [BLANK];
    }
  }

  method Merge(slot: Slot, d: CallDelta) returns (after: Slot)
    ensures after == With(slot, d)
  {
    after := slot;
    if d.id != "" {
      after := after.(id := d.id);
    }
    if d.kind != "" {
      after := after.(kind := d.kind);
    }
    if d.name != "" {
      after := after.(name := after.name + d.name);
    }
    if d.arguments != "" {
      after := after.(arguments := after.arguments + d.arguments);
    }
  }

  /** Add one fragment to its slot, making room for it; storing anything at a negative index panics. */
  method AddCall(slots: seq<Slot>, d: CallDelta, ghost before: seq<CallDelta>) returns (after: seq<Slot>, ok: bool)
    requires slots == Slots(before)
    ensures ok <==> !Panics(d)
    ensures ok ==> after == Slots(before + [d])
  {
    var target := 0;
    if d.index.Some? {
      target := d.index.value;
    }
    after := MakeRoom(slots, target + 1);
    ok := true;
    if d.id != "" || d.kind != "" || d.name != "" || d.arguments != "" {
      if target < 0 {
        return after, false;
      }
      var slot := Merge(after[target], d);
      after := after[target := slot];
    }
    SlotsGrow(before, d);
    hide Slots;
    forall i | 0 <= i < |after| ensures after[i] == Slots(before + [d])[i] {
      SlotsSnoc(before, d, i);
    }
  }

  /** Add the fragments to the slots, one after the other. */
  method AddCalls(slots: seq<Slot>, calls: seq<CallDelta>, ghost before: seq<CallDelta>)
    returns (after: seq<Slot>, ok: bool)
    requires slots == Slots(before)
    ensures ok <==> NoPanic(calls)
    ensures ok ==> after == Slots(before + calls)
  {
    hide Slots, Panics;
    after := slots;
    assert before + calls[..0] == before;
    for k := 0 to |calls|
      invariant NoPanic(calls[..k]) && after == Slots(before + calls[..k])
    {
      assert calls[k] in calls && before + calls[..k + 1] == before + calls[..k] + [calls[k]];
      after, ok := AddCall(after, calls[k], before + calls[..k]);
      if !ok {
        return;
      }
    }
    assert calls[..|calls|] == calls;
    ok := true;
  }

  /** Two fragment sequences that agree slot by slot make the same slots. */
  lemma {:induction false} OwnFragmentsDecide(a: seq<CallDelta>, b: seq<CallDelta>)
    requires forall i: nat :: Only(a, i) == Only(b, i)
    ensures Slots(a) == Slots(b)
  {
    WidthFromOnly(a, b);
    WidthFromOnly(b, a);
  }

  lemma {:induction false} WidthFromOnly(a: seq<CallDelta>, b: seq<CallDelta>)
    requires forall i: nat :: Only(a, i) == Only(b, i)
    ensures Width(a) <= Width(b)
  {
    if Width(b) < Width(a) {
      OnlyBelowWidth(a);
      OnlyBeyondWidth(b, Width(a) - 1);
    }
  }

  lemma {:induction false} OnlyBelowWidth(a: seq<CallDelta>)
    requires Width(a) > 0
    ensures Only(a, Width(a) - 1) != []
  {
    var before, d := a[..|a| - 1], a[|a| - 1];
    if Target(d) + 1 != Width(a) {
      OnlyBelowWidth(before);
    }
  }

  lemma {:induction false} OnlyConcat(a: seq<CallDelta>, b: seq<CallDelta>, i: int)
    ensures Only(a + b, i) == Only(a, i) + Only(b, i)
  {
    if b == [] {
      assert a + b == a;
    } else {
      var before, d := b[..|b| - 1], b[|b| - 1];
      OnlyConcat(a, before, i);
      assert (a + b)[..|a + b| - 1] == a + before;
    }
  }

  /** Fragments of different calls may arrive in either order. */
  lemma SwapChangesNothing(a: seq<CallDelta>, x: CallDelta, y: CallDelta, b: seq<CallDelta>)
    requires Target(x) != Target(y)
    ensures Slots(a + [x, y] + b) == Slots(a + [y, x] + b)
    ensures NoPanic(a + [x, y] + b) <==> NoPanic(a + [y, x] + b)
  {
    forall i: nat ensures Only(a + [x, y] + b, i) == Only(a + [y, x] + b, i) {
      OnlyConcat(a + [x, y], b, i);
      OnlyConcat(a + [y, x], b, i);
      assert a + [x, y] == a + [x] + [y] && a + [y, x] == a + [y] + [x];
      OnlySnoc(a, x, i);
      OnlySnoc(a + [x], y, i);
      OnlySnoc(a, y, i);
      OnlySnoc(a + [y], x, i);
    }
    assert forall d :: d in a + [y, x] + b <==> d in a + [x, y] + b;
    OwnFragmentsDecide(a + [x, y] + b, a + [y, x] + b);
  }

  /******* What a sequence of chunks says *******/

  function DeltaOf(c: Chunk): Delta {
    if c.choice.Some? && c.choice.value.delta.Some? then c.choice.value.delta.value else Delta("", "", [])
  }

  function Texts(chunks: seq<Chunk>): string {
    if chunks == [] then "" else Texts(chunks[..|chunks| - 1]) + DeltaOf(chunks[|chunks| - 1]).text
  }

  function Thoughts(chunks: seq<Chunk>): string {
    if chunks == [] then "" else Thoughts(chunks[..|chunks| - 1]) + DeltaOf(chunks[|chunks| - 1]).reasoning
  }

  function Calls(chunks: seq<Chunk>): seq<CallDelta> {
    if chunks == [] then [] else Calls(chunks[..|chunks| - 1]) + DeltaOf(chunks[|chunks| - 1]).calls
  }

  function LastUsage(chunks: seq<Chunk>): Option<Usage> {
    if chunks == [] then None
    else if chunks[|chunks| - 1].usage.Some? then chunks[|chunks| - 1].usage
    else LastUsage(chunks[..|chunks| - 1])
  }

  /** A finish reason that is empty or the `ignored` one does not count. */
  predicate Finishes(c: Chunk, ignored: string) {
    c.choice.Some? && c.choice.value.finish !in {"", ignored}
  }

  function LastFinish(chunks: seq<Chunk>, ignored: string): string {
    if chunks == [] then ""
    else if Finishes(chunks[|chunks| - 1], ignored) then chunks[|chunks| - 1].choice.value.finish
    else LastFinish(chunks[..|chunks| - 1], ignored)
  }

  function PartialsOf(d: Delta): seq<Event> {
    (if d.reasoning != "" then [Partial(Thought(d.reasoning))] else [])
    + (if d.text != "" then [Partial(Text(d.text))] else [])
  }

  /** The partial responses that the chunks lead to. */
  function Partials(chunks: seq<Chunk>): seq<Event> {
    if chunks == [] then [] else Partials(chunks[..|chunks| - 1]) + PartialsOf(DeltaOf(chunks[|chunks| - 1]))
  }

  /** The calls of slots that are not blank and whose arguments decode. */
  function CallParts(slots: seq<Slot>, parse: Parser): seq<Part> {
    if slots == [] then []
    else
      var before, slot := CallParts(slots[..|slots| - 1], parse), slots[|slots| - 1];
      if slot.id == "" && slot.name == "" && slot.arguments == "" then before
      else if parse(slot.arguments).None? then before
      else before + [Call(slot.id, slot.name, parse(slot.arguments).value)]
  }

  function TextParts(reasoning: string, text: string): seq<Part> {
    (if reasoning != "" then [Thought(reasoning)] else []) + (if text != "" then [Text(text)] else [])
  }

  predicate HasEnding(chunks: seq<Chunk>, ignored: string) {
    || Texts(chunks) != "" || Width(Calls(chunks)) > 0
    || LastFinish(chunks, ignored) != "" || LastUsage(chunks).Some?
  }

  function Ending(chunks: seq<Chunk>, ignored: string, parse: Parser): Event {
    var finish := LastFinish(chunks, ignored);
    Final(TextParts(Thoughts(chunks), Texts(chunks)) + CallParts(Slots(Calls(chunks)), parse),
          if finish == "" then "stop" else finish, LastUsage(chunks))
  }

  /** The first chunk with a fragment that panics, or the number of chunks. */
  function CrashAt(chunks: seq<Chunk>): (k: nat)
    ensures k <= |chunks|
    ensures k < |chunks| ==> !NoPanic(DeltaOf(chunks[k]).calls)
    ensures forall i :: 0 <= i < k ==> NoPanic(DeltaOf(chunks[i]).calls)
  {
    if chunks == [] || !NoPanic(DeltaOf(chunks[0]).calls) then 0 else 1 + CrashAt(chunks[1..])
  }

  /** Everything that is yielded to a consumer who never stops. */
  function Stream(chunks: seq<Chunk>, broken: bool, ignored: string, parse: Parser): seq<Event> {
    var k := CrashAt(chunks);
    if k < |chunks| then Partials(chunks[..k + 1]) + [Crashed]
    else if broken then Partials(chunks) + [Failed]
    else Partials(chunks) + (if HasEnding(chunks, ignored) then [Ending(chunks, ignored, parse)] else [])
  }

  /** What a consumer gets who stops after `patience` responses. */
  function Cut(events: seq<Event>, patience: Option<nat>): seq<Event> {
    if patience.Some? && patience.value < |events| then events[..patience.value] else events
  }

  lemma ChunksSnoc(before: seq<Chunk>, c: Chunk, ignored: string)
    ensures Texts(before + [c]) == Texts(before) + DeltaOf(c).text
    ensures Thoughts(before + [c]) == Thoughts(before) + DeltaOf(c).reasoning
    ensures Calls(before + [c]) == Calls(before) + DeltaOf(c).calls
    ensures LastUsage(before + [c]) == if c.usage.Some? then c.usage else LastUsage(before)
    ensures LastFinish(before + [c], ignored) ==
            if Finishes(c, ignored) then c.choice.value.finish else LastFinish(before, ignored)
    ensures Partials(before + [c]) == Partials(before) + PartialsOf(DeltaOf(c))
  {
    assert (before + [c])[..|before|] == before;
  }

  lemma SilentChunk(before: seq<Chunk>, c: Chunk, ignored: string)
    requires DeltaOf(c) == Delta("", "", [])
    ensures Texts(before + [c]) == Texts(before) && Thoughts(before + [c]) == Thoughts(before)
    ensures Calls(before + [c]) == Calls(before) && Partials(before + [c]) == Partials(before)
    ensures LastUsage(before + [c]) == if c.usage.Some? then c.usage else LastUsage(before)
    ensures LastFinish(before + [c], ignored) ==
            if Finishes(c, ignored) then c.choice.value.finish else LastFinish(before, ignored)
    ensures NoPanic(DeltaOf(c).calls)
  {
    ChunksSnoc(before, c, ignored);
  }

  /******* The loops *******/

  datatype Status = Going | Stopped | Panicked

  method BuildFinalResponse(
      text: string, reasoning: string, slots: seq<Slot>, usage: Option<Usage>, finish: string, parse: Parser)
    returns (final: Event)
    ensures final == Final(TextParts(reasoning, text) + CallParts(slots, parse), finish, usage)
  {
    var parts := [];
    if reasoning != "" {
      parts := parts + [Thought(reasoning)];
    }
    if text != "" {
      parts := parts + [Text(text)];
    }
    ghost var texts := parts;
    for k := 0 to |slots|
      invariant parts == texts + CallParts(slots[..k], parse)
    {
      assert slots[..k + 1][..k] == slots[..k];
      var slot := slots[k];
      if !(slot.id == "" && slot.name == "" && slot.arguments == "") {
        var decoded := parse(slot.arguments);
        if decoded.Some? {
          ConcatAssociates(texts, CallParts(slots[..k], parse), [Call(slot.id, slot.name, decoded.value)]);
          parts := parts + [Call(slot.id, slot.name, decoded.value)];
        }
      }
    }
    assert slots[..|slots|] == slots;
    final := Final(parts, finish, usage);
  }

  lemma {:induction false} PartialsGrow(a: seq<Chunk>, b: seq<Chunk>)
    ensures Partials(a + b) == Partials(a) + Partials(b)
  {
    hide PartialsOf;
    if b == [] {
      assert a + b == a;
    } else {
      var before, c := b[..|b| - 1], b[|b| - 1];
      PartialsGrow(a, before);
      assert (a + b)[..|a + b| - 1] == a + before && (a + b)[|a + b| - 1] == c;
      ConcatAssociates(Partials(a), Partials(before), PartialsOf(DeltaOf(c)));
    }
  }

  lemma CrashAtGrows(a: seq<Chunk>, c: Chunk, all: seq<Chunk>)
    requires CrashAt(a) == |a| && a + [c] <= all
    ensures |a| <= CrashAt(all)
    ensures if NoPanic(DeltaOf(c).calls) then CrashAt(a + [c]) == |a| + 1 else CrashAt(all) == |a|
  {
    assert forall i :: 0 <= i < |a| ==> (a + [c])[i] == a[i] == all[i];
    assert (a + [c])[|a|] == c == all[|a|];
  }

  lemma PartialsOfPrefix(a: seq<Chunk>, b: seq<Chunk>)
    requires a <= b
    ensures Partials(a) <= Partials(b)
  {
    PartialsGrow(a, b[|a|..]);
    assert a + b[|a|..] == b;
  }

  lemma PartialsComeFirst(a: seq<Chunk>, all: seq<Chunk>, broken: bool, ignored: string, parse: Parser)
    requires a <= all && (CrashAt(all) < |all| ==> |a| <= CrashAt(all) + 1)
    ensures Partials(a) <= Stream(all, broken, ignored, parse)
  {
    hide Partials, HasEnding, Ending, CrashAt;
    var k := CrashAt(all);
    var seen := if k < |all| then all[..k + 1] else all;
    PartialsOfPrefix(a, seen);
    assert Partials(seen) <= Stream(all, broken, ignored, parse);
  }

  lemma CrashEnds(a: seq<Chunk>, c: Chunk, all: seq<Chunk>, broken: bool, ignored: string, parse: Parser)
    requires a + [c] <= all && CrashAt(all) == |a|
    ensures Stream(all, broken, ignored, parse) == Partials(a + [c]) + [Crashed]
  {
    hide Partials, CrashAt;
    assert all[..|a| + 1] == a + [c];
  }

  /** What one more chunk `c` says about the stream of all chunks: its partials come next, or it ends the stream. */
  lemma NextChunk(a: seq<Chunk>, c: Chunk, all: seq<Chunk>, broken: bool, ignored: string, parse: Parser)
    requires CrashAt(a) == |a| && a + [c] <= all
    ensures Partials(a + [c]) <= Stream(all, broken, ignored, parse)
    ensures if NoPanic(DeltaOf(c).calls) then CrashAt(a + [c]) == |a| + 1
            else Stream(all, broken, ignored, parse) == Partials(a + [c]) + [Crashed]
  {
    hide Partials, CrashAt, Stream, NoPanic, DeltaOf;
    CrashAtGrows(a, c, all);
    PartialsComeFirst(a + [c], all, broken, ignored, parse);
    if !NoPanic(DeltaOf(c).calls) {
      CrashEnds(a, c, all, broken, ignored, parse);
    }
  }

  class Accumulator {
    var text: string
    var reasoning: string
    var slots: seq<Slot>
    var usage: Option<Usage>
    var finish: string
    var events: seq<Event>
    const ignored: string
    const patience: Option<nat>

    constructor (ignored: string, patience: Option<nat>)
      requires patience.Some? ==> patience.value > 0
      ensures this.ignored == ignored && this.patience == patience && Holds([]) && Wanted()
    {
      this.ignored, this.patience := ignored, patience;
      text, reasoning, slots, usage, finish, events := "", "", [], None, "", [];
    }

    /** The fields after the given chunks, when the consumer has not stopped. */
    ghost predicate Holds(chunks: seq<Chunk>)
      reads this
    {
      && text == Texts(chunks) && reasoning == Thoughts(chunks) && slots == Slots(Calls(chunks))
      && usage == LastUsage(chunks) && finish == LastFinish(chunks, ignored) && events == Partials(chunks)
    }

    predicate Wanted()
      reads this
    {
      patience.Some? ==> |events| < patience.value
    }

    method Yield(e: Event) returns (more: bool)
      requires Wanted()
      modifies this`events
      ensures events == old(events) + [e] && more == Wanted()
      ensures !more ==> patience == Some(|events|)
    {
      events := events + [e];
      more := patience.None? || |events| < patience.value;
    }

    method TakeDelta(delta: Delta, ghost calls: seq<CallDelta>) returns (status: Status)
      requires slots == Slots(calls) && Wanted()
      modifies `text, `reasoning, `slots, `events
      ensures status.Going? ==>
                && text == old(text) + delta.text && reasoning == old(reasoning) + delta.reasoning
                && slots == Slots(calls + delta.calls)
      ensures !status.Stopped? ==> events == old(events) + PartialsOf(delta) && Wanted()
      ensures !status.Stopped? ==> (status.Going? <==> NoPanic(delta.calls))
      ensures status.Stopped? ==> patience == Some(|events|) && events <= old(events) + PartialsOf(delta)
    {
      hide Slots, NoPanic;
      ghost var said: seq<Event> := [];
      if delta.reasoning != "" {
        reasoning := reasoning + delta.reasoning;
        var more := Yield(Partial(Thought(delta.reasoning)));
        said := [Partial(Thought(delta.reasoning))];
        if !more {
          return Stopped;
        }
      }
      assert events == old(events) + said;
      if delta.text != "" {
        text := text + delta.text;
        var more := Yield(Partial(Text(delta.text)));
        said := said + [Partial(Text(delta.text))];
        assert events == old(events) + said;
        if !more {
          return Stopped;
        }
      }
      var ok;
      slots, ok := AddCalls(slots, delta.calls, calls);
      status := if ok then Going else Panicked;
    }

    /** The body of the chunk loop. */
    method Take(c: Chunk, ghost before: seq<Chunk>) returns (status: Status)
      requires Holds(before) && Wanted()
      modifies this
      ensures status.Going? ==> Holds(before + [c])
      ensures !status.Stopped? ==> events == Partials(before + [c]) && Wanted()
      ensures !status.Stopped? ==> (status.Going? <==> NoPanic(DeltaOf(c).calls))
      ensures status.Stopped? ==> patience == Some(|events|) && events <= Partials(before + [c])
    {
      hide Texts, Thoughts, Calls, LastUsage, LastFinish, Partials, Slots, PartialsOf, NoPanic;
      if c.usage.Some? {
        usage := c.usage;
      }
      if c.choice.None? {
        SilentChunk(before, c, ignored);
        return Going;
      }
      if c.choice.value.finish != "" && c.choice.value.finish != ignored {
        finish := c.choice.value.finish;
      }
      if c.choice.value.delta.None? {
        SilentChunk(before, c, ignored);
        return Going;
      }
      ChunksSnoc(before, c, ignored);
      status := TakeDelta(c.choice.value.delta.value, Calls(before));
    }

    /** One round of the loop over all chunks; at its end the consumer has everything up to where it stops. */
    method TakeNext(c: Chunk, ghost before: seq<Chunk>, ghost all: seq<Chunk>, ghost broken: bool, ghost parse: Parser)
      returns (more: bool)
      requires Holds(before) && Wanted() && CrashAt(before) == |before| && before + [c] <= all
      modifies this
      ensures more ==> Holds(before + [c]) && Wanted() && CrashAt(before + [c]) == |before| + 1
      ensures !more ==> events == Cut(Stream(all, broken, ignored, parse), patience)
    {
      hide Holds, CrashAt, Stream, Partials, NoPanic, DeltaOf;
      NextChunk(before, c, all, broken, ignored, parse);
      var status := Take(c, before);
      if status.Panicked? {
        events := events + [Crashed];
      }
      more := status.Going?;
    }

    /** What follows the loop. */
    method Finish(broken: bool, parse: Parser, ghost chunks: seq<Chunk>)
      requires Holds(chunks) && Wanted() && CrashAt(chunks) == |chunks|
      modifies this
      ensures events == Cut(Stream(chunks, broken, ignored, parse), patience)
    {
      if broken {
        var _ := Yield(Failed);
        return;
      }
      if |text| > 0 || |slots| > 0 || finish != "" || usage.Some? {
        if finish == "" {
          finish := "stop";
        }
        var final := BuildFinalResponse(text, reasoning, slots, usage, finish, parse);
        var _ := Yield(final);
      }
    }
  }

  /** A line of the OpenAI-compatible event stream. */
  datatype Line = Other | Done | Undecodable | Data(chunk: Chunk)

  /** The chunks that are looked at: those before the end mark. */
  function Read(lines: seq<Line>): seq<Chunk> {
    if lines == [] || lines[0].Done? then []
    else if lines[0].Data? then [lines[0].chunk] + Read(lines[1..])
    else Read(lines[1..])
  }

  predicate HasEnd(lines: seq<Line>) {
    exists i :: 0 <= i < |lines| && lines[i].Done?
  }

  /** The first `k` lines are read, without an end mark, and gave the chunks `got`. */
  ghost predicate HasRead(lines: seq<Line>, k: nat, got: seq<Chunk>) {
    && k <= |lines| && (forall i :: 0 <= i < k ==> !lines[i].Done?)
    && got + Read(lines[k..]) == Read(lines)
  }

  lemma ReadNext(lines: seq<Line>, k: nat, got: seq<Chunk>)
    requires HasRead(lines, k, got) && k < |lines| && !lines[k].Done?
    ensures if lines[k].Data?
            then HasRead(lines, k + 1, got + [lines[k].chunk]) && got + [lines[k].chunk] <= Read(lines)
            else HasRead(lines, k + 1, got)
  {
    assert lines[k..][1..] == lines[k + 1..];
    if lines[k].Data? {
      ConcatAssociates(got, [lines[k].chunk], Read(lines[k + 1..]));
    }
    hide Read;
  }

  lemma ReadEnds(lines: seq<Line>, k: nat, got: seq<Chunk>)
    requires HasRead(lines, k, got) && (k < |lines| ==> lines[k].Done?)
    ensures got == Read(lines) && (HasEnd(lines) <==> k < |lines|)
  {
  }

  /** `generateStream` of the OpenAI-compatible model; `broken` says that reading ends with an error. */
  method GenerateStream(lines: seq<Line>, broken: bool, patience: Option<nat>, parse: Parser)
    returns (events: seq<Event>)
    requires patience.Some? ==> patience.value > 0
    ensures events == Cut(Stream(Read(lines), broken && !HasEnd(lines), "", parse), patience)
  {
    var acc := new Accumulator("", patience);
    ghost var got: seq<Chunk> := [];
    var k := 0;
    assert CrashAt(got) == |got| && HasRead(lines, k, got);
    hide Stream, CrashAt, Accumulator.Holds, Read, HasRead, HasEnd, Cut;
    while k < |lines| && !lines[k].Done?
      invariant k <= |lines| && HasRead(lines, k, got) && CrashAt(got) == |got|
      invariant fresh(acc) && acc.ignored == "" && acc.patience == patience
      invariant acc.Holds(got) && acc.Wanted()
    {
      ReadNext(lines, k, got);
      if lines[k].Data? {
        var more := acc.TakeNext(lines[k].chunk, got, Read(lines), broken && !HasEnd(lines), parse);
        if !more {
          return acc.events;
        }
        got := got + [lines[k].chunk];
      }
      k := k + 1;
    }
    ReadEnds(lines, k, got);
    acc.Finish(broken && k == |lines|, parse, got);
    events := acc.events;
  }

  /** `generateStream` of the ARK model, which also ignores the finish reason "null". */
  method ReceiveStream(chunks: seq<Chunk>, broken: bool, patience: Option<nat>, parse: Parser)
    returns (events: seq<Event>)
    requires patience.Some? ==> patience.value > 0
    ensures events == Cut(Stream(chunks, broken, "null", parse), patience)
  {
    var acc := new Accumulator("null", patience);
    assert chunks[..0] == [];
    hide Stream, CrashAt, Accumulator.Holds, Cut;
    for k := 0 to |chunks|
      invariant CrashAt(chunks[..k]) == k
      invariant fresh(acc) && acc.ignored == "null" && acc.patience == patience
      invariant acc.Holds(chunks[..k]) && acc.Wanted()
    {
      ghost var got := chunks[..k];
      assert chunks[..k + 1] == got + [chunks[k]];
      var more := acc.TakeNext(chunks[k], got, chunks, broken, parse);
      if !more {
        return acc.events;
      }
    }
    assert chunks[..|chunks|] == chunks;
    acc.Finish(broken, parse, chunks);
    events := acc.events;
  }

  /******* What the consumer can rely on *******/

  function Said(events: seq<Event>): string {
    if events == [] then ""
    else
      var e := events[|events| - 1];
      Said(events[..|events| - 1]) + if e.Partial? && e.part.Text? then e.part.text else ""
  }

  function Mused(events: seq<Event>): string {
    if events == [] then ""
    else
      var e := events[|events| - 1];
      Mused(events[..|events| - 1]) + if e.Partial? && e.part.Thought? then e.part.text else ""
  }

  predicate IsPartial(e: Event) {
    e.Partial? && !e.part.Call? && e.part.text != ""
  }

  lemma SaidSnoc(events: seq<Event>, d: Delta)
    ensures Said(events + PartialsOf(d)) == Said(events) + d.text
    ensures Mused(events + PartialsOf(d)) == Mused(events) + d.reasoning
  {
    var mused := if d.reasoning != "" then events + [Partial(Thought(d.reasoning))] else events;
    var said := if d.text != "" then mused + [Partial(Text(d.text))] else mused;
    assert mused[..|events|] == events && said[..|mused|] == mused;
    assert said == events + PartialsOf(d);
  }

  lemma {:induction false} PartialsSayIt(chunks: seq<Chunk>)
    ensures Said(Partials(chunks)) == Texts(chunks) && Mused(Partials(chunks)) == Thoughts(chunks)
    ensures forall e <- Partials(chunks) :: IsPartial(e)
  {
    if chunks != [] {
      PartialsSayIt(chunks[..|chunks| - 1]);
      SaidSnoc(Partials(chunks[..|chunks| - 1]), DeltaOf(chunks[|chunks| - 1]));
    }
  }

  lemma {:induction false} NoCrashExactly(chunks: seq<Chunk>)
    ensures CrashAt(chunks) == |chunks| <==> NoPanic(Calls(chunks))
  {
    if chunks == [] {
    } else {
      var before, c := chunks[..|chunks| - 1], chunks[|chunks| - 1];
      NoCrashExactly(before);
      assert before + [c] == chunks;
      assert NoPanic(Calls(chunks)) <==> NoPanic(Calls(before)) && NoPanic(DeltaOf(c).calls);
      if CrashAt(before) < |before| {
        assert chunks[CrashAt(before)] == before[CrashAt(before)];
      } else {
        CrashAtGrows(before, c, chunks);
      }
    }
  }

  /**
   A stream that is read to its end yields non-empty partials and then at most one final
   response, whose thought and text are the partials put together and whose calls are those
   of the slots. The final response comes exactly if there is text, a call, a finish reason
   or a usage report.
   */
  lemma FinalRepeatsPartials(chunks: seq<Chunk>, ignored: string, parse: Parser)
    requires NoPanic(Calls(chunks))
    ensures var events, partials := Stream(chunks, false, ignored, parse), Partials(chunks);
            && partials <= events && (forall e <- partials :: IsPartial(e))
            && var finals := events[|partials|..];
               && |finals| == (if HasEnding(chunks, ignored) then 1 else 0)
               && forall f <- finals ::
                    && f.Final? && f.usage == LastUsage(chunks) && f.finish != ""
                    && f.parts == TextParts(Mused(partials), Said(partials)) + CallParts(Slots(Calls(chunks)), parse)
  {
    NoCrashExactly(chunks);
    PartialsSayIt(chunks);
    var events, partials := Stream(chunks, false, ignored, parse), Partials(chunks);
    assert events[|partials|..] == if HasEnding(chunks, ignored) then [Ending(chunks, ignored, parse)] else [];
    hide Stream, Partials, HasEnding, Texts, Thoughts, Said, Mused, CallParts, Slots;
  }

  lemma OneChunk(c: Chunk, ignored: string)
    requires NoPanic(DeltaOf(c).calls)
    ensures CrashAt([c]) == 1 && Texts([c]) == DeltaOf(c).text && Calls([c]) == DeltaOf(c).calls
    ensures LastUsage([c]) == c.usage && Partials([c]) == PartialsOf(DeltaOf(c))
    ensures LastFinish([c], ignored) == if Finishes(c, ignored) then c.choice.value.finish else ""
  {
    ChunksSnoc([], c, ignored);
    assert [] + [c] == [c] && [c][1..] == [];
    assert CrashAt([]) == 0;
    hide PartialsOf, DeltaOf, NoPanic, Finishes;
  }

  /** A fragment that says nothing but a negative index does no harm. */
  lemma BlankFragmentPasses(index: int, ignored: string, parse: Parser)
    requires index < 0
    ensures var chunk := Chunk(None, Some(Choice("", Some(Delta("", "", [CallDelta(Some(index), "", "", "", "")])))));
            Stream([chunk], false, ignored, parse) == []
  {
    var d := CallDelta(Some(index), "", "", "", "");
    var chunk := Chunk(None, Some(Choice("", Some(Delta("", "", [d])))));
    OneChunk(chunk, ignored);
    assert [d][..|[d]| - 1] == [] && Width([d]) == 0;
    hide Width, Texts, Thoughts, Calls, LastUsage, LastFinish, Partials, CrashAt;
  }

  /** Reasoning alone is streamed but not repeated: no final response follows it. */
  lemma ReasoningAloneHasNoFinal(reasoning: string, ignored: string, parse: Parser)
    requires reasoning != ""
    ensures var chunk := Chunk(None, Some(Choice("", Some(Delta(reasoning, "", [])))));
            Stream([chunk], false, ignored, parse) == [Partial(Thought(reasoning))]
  {
    var chunk := Chunk(None, Some(Choice("", Some(Delta(reasoning, "", [])))));
    OneChunk(chunk, ignored);
    assert Width([]) == 0;
    hide Width, Texts, Thoughts, Calls, LastUsage, LastFinish, Partials, CrashAt;
  }

  /** Two chunks as one. */
  function Merged(x: Chunk, y: Chunk, ignored: string): Chunk {
    var dx, dy := DeltaOf(x), DeltaOf(y);
    Chunk(if y.usage.Some? then y.usage else x.usage,
          Some(Choice(
                 if Finishes(y, ignored) then y.choice.value.finish
                 else if Finishes(x, ignored) then x.choice.value.finish else "",
                 Some(Delta(dx.reasoning + dy.reasoning, dx.text + dy.text, dx.calls + dy.calls)))))
  }

  ghost predicate Alike(a: seq<Chunk>, b: seq<Chunk>, ignored: string) {
    && Texts(a) == Texts(b) && Thoughts(a) == Thoughts(b) && Calls(a) == Calls(b)
    && LastUsage(a) == LastUsage(b) && LastFinish(a, ignored) == LastFinish(b, ignored)
  }

  lemma MergedIsAlike(a: seq<Chunk>, x: Chunk, y: Chunk, ignored: string)
    ensures Alike(a + [x] + [y], a + [Merged(x, y, ignored)], ignored)
  {
    ChunksSnoc(a, x, ignored);
    ChunksSnoc(a + [x], y, ignored);
    ChunksSnoc(a, Merged(x, y, ignored), ignored);
    ConcatAssociates(Texts(a), DeltaOf(x).text, DeltaOf(y).text);
    ConcatAssociates(Thoughts(a), DeltaOf(x).reasoning, DeltaOf(y).reasoning);
    ConcatAssociates(Calls(a), DeltaOf(x).calls, DeltaOf(y).calls);
    hide Texts, Thoughts, Calls, LastUsage, LastFinish, Partials;
  }

  lemma {:induction false} AlikeGrows(a: seq<Chunk>, b: seq<Chunk>, more: seq<Chunk>, ignored: string)
    requires Alike(a, b, ignored)
    ensures Alike(a + more, b + more, ignored)
  {
    if more == [] {
      assert a + more == a && b + more == b;
    } else {
      var before, c := more[..|more| - 1], more[|more| - 1];
      AlikeGrows(a, b, before, ignored);
      assert a + more == a + before + [c] && b + more == b + before + [c];
      ChunksSnoc(a + before, c, ignored);
      ChunksSnoc(b + before, c, ignored);
      hide Texts, Thoughts, Calls, LastUsage, LastFinish, Partials;
    }
  }

  /** Where the provider cuts the stream into chunks makes no difference to the final response. */
  lemma CutsDoNotMatter(a: seq<Chunk>, x: Chunk, y: Chunk, b: seq<Chunk>, ignored: string, parse: Parser)
    ensures var apart, merged := a + [x] + [y] + b, a + [Merged(x, y, ignored)] + b;
            && (NoPanic(Calls(apart)) <==> NoPanic(Calls(merged)))
            && (HasEnding(apart, ignored) <==> HasEnding(merged, ignored))
            && Ending(apart, ignored, parse) == Ending(merged, ignored, parse)
  {
    MergedIsAlike(a, x, y, ignored);
    AlikeGrows(a + [x] + [y], a + [Merged(x, y, ignored)], b, ignored);
    hide Texts, Thoughts, Calls, LastUsage, LastFinish, Merged;
  }
}
