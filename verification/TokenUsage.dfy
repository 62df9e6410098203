/**
 The token counts of one invocation: `BeforeModel`, `AfterModel` and what they do to the
 span metadata. A model call is one `BeforeModel` and then an `AfterModel` for every
 response it streams; responses report the usage of the call so far, if any.
 */
module TokenUsage {
  import opened Numbers
  import opened Options
  import opened StreamAccumulation

  datatype Counts = Counts(prompt: int, candidate: int, total: int) {
    function Plus(c: Counts): Counts {
      Counts(prompt + c.prompt, candidate + c.candidate, total + c.total)
    }
  }

  function Zero(): Counts {
    Counts(0, 0, 0)
  }

  /** What `AfterModel` is given: an error, no response, or a response with or without a usage report. */
  datatype Response = Errored | Missing | Response(usage: Option<Counts>)

  /** The counters of the span metadata: now, and when the current call began. */
  datatype Meta = Meta(now: Counts, before: Counts) {
    function Started(): Meta {
      Meta(now, now)
    }

    function Reported(r: Response): Meta {
      if r.Response? && r.usage.Some? then Meta(MergeUsageTotals(before, r.usage.value), before) else this
    }
  }

  /** A report without a total counts its prompt and candidates. */
  function Normal(c: Counts): Counts {
    if c.total == 0 && (c.prompt > 0 || c.candidate > 0) then c.(total := c.prompt + c.candidate) else c
  }

  function MergeUsageTotals(prev: Counts, current: Counts): Counts {
    prev.Plus(Normal(current))
  }

  /** The metadata that the callbacks load from and store to the invocation's state. */
  class SpanMetadata {
    var promptTokens: int
    var candidateTokens: int
    var totalTokens: int
    var prevPromptTokens: int
    var prevCandidateTokens: int
    var prevTotalTokens: int

    constructor ()
      ensures Value() == Meta(Zero(), Zero())
    {
      promptTokens, candidateTokens, totalTokens := 0, 0, 0;
      prevPromptTokens, prevCandidateTokens, prevTotalTokens := 0, 0, 0;
    }

    ghost function Value(): Meta
      reads this
    {
      Meta(Counts(promptTokens, candidateTokens, totalTokens),
           Counts(prevPromptTokens, prevCandidateTokens, prevTotalTokens))
    }

    method BeforeModel()
      modifies this
      ensures Value() == old(Value()).Started()
    {
      prevPromptTokens := promptTokens;
      prevCandidateTokens := candidateTokens;
      prevTotalTokens := totalTokens;
    }

    method AfterModel(r: Response)
      modifies this
      ensures Value() == old(Value()).Reported(r)
    {
      if r.Errored? || r.Missing? {
        return;
      }
      if r.usage.Some? {
        Accumulate(r.usage.value);
      }
    }

    method Accumulate(current: Counts)
      modifies this
      ensures Value() == old(Value()).Reported(Response(Some(current)))
    {
      var currentTotal := current.total;
      if currentTotal == 0 && (current.prompt > 0 || current.candidate > 0) {
        currentTotal := current.prompt + current.candidate;
      }
      promptTokens := prevPromptTokens + current.prompt;
      candidateTokens := prevCandidateTokens + current.candidate;
      totalTokens := prevTotalTokens + currentTotal;
    }
  }

  /******* Whole invocations *******/

  type Call = seq<Response>

  function Responses(m: Meta, responses: Call): Meta {
    if responses == [] then m else Responses(m, responses[..|responses| - 1]).Reported(responses[|responses| - 1])
  }

  /** Calls that run one after another. */
  function Invocation(calls: seq<Call>): Meta {
    if calls == [] then Meta(Zero(), Zero())
    else Responses(Invocation(calls[..|calls| - 1]).Started(), calls[|calls| - 1])
  }

  /** The last usage that a call reported, whatever came before it. */
  function LastReport(responses: Call): Counts {
    if responses == [] then Zero()
    else
      var r := responses[|responses| - 1];
      if r.Response? && r.usage.Some? then Normal(r.usage.value) else LastReport(responses[..|responses| - 1])
  }

  function Total(calls: seq<Call>): Counts {
    if calls == [] then Zero() else Total(calls[..|calls| - 1]).Plus(LastReport(calls[|calls| - 1]))
  }

  lemma {:induction false} CallAddsLastReport(m: Meta, responses: Call)
    requires m.now == m.before
    ensures Responses(m, responses) == Meta(m.before.Plus(LastReport(responses)), m.before)
  {
    if responses != [] {
      CallAddsLastReport(m, responses[..|responses| - 1]);
    }
  }

  /**
   At every moment of an invocation the counts are the sum, over the calls so far, of what
   each call reported last: the last call may still be streaming.
   */
  lemma {:induction false} CountsAreSums(calls: seq<Call>)
    ensures Invocation(calls).now == Total(calls)
  {
    if calls != [] {
      CountsAreSums(calls[..|calls| - 1]);
      CallAddsLastReport(Invocation(calls[..|calls| - 1]).Started(), calls[|calls| - 1]);
    }
  }

  predicate ReportsNothing(r: Response) {
    r.Response? ==> r.usage.None?
  }

  /** Reports that a later report of the same call replaces do not count. */
  lemma PartialReportsDoNotCount(calls: seq<Call>, call: Call, last: Counts, more: Call)
    requires forall r <- more :: ReportsNothing(r)
    ensures Invocation(calls + [call + [Response(Some(last))] + more]).now
            == Invocation(calls + [[Response(Some(last))]]).now
    decreases |more|
  {
    var long := call + [Response(Some(last))] + more;
    CountsAreSums(calls + [long]);
    CountsAreSums(calls + [[Response(Some(last))]]);
    assert (calls + [long])[..|calls|] == calls && (calls + [[Response(Some(last))]])[..|calls|] == calls;
    LastReportSkips(call + [Response(Some(last))], more);
    assert LastReport(call + [Response(Some(last))]) == Normal(last) == LastReport([Response(Some(last))]);
  }

  lemma {:induction false} LastReportSkips(responses: Call, more: Call)
    requires forall r <- more :: ReportsNothing(r)
    ensures LastReport(responses + more) == LastReport(responses)
  {
    if more == [] {
      assert responses + more == responses;
    } else {
      assert more[|more| - 1] in more;
      LastReportSkips(responses, more[..|more| - 1]);
      assert (responses + more)[..|responses + more| - 1] == responses + more[..|more| - 1];
    }
  }

  /******* Calls that overlap *******/

  type CallId = nat

  /** The callbacks of any number of calls, in any order. The plugin does not see which call one belongs to. */
  datatype Callback = BeforeModel(call: CallId) | AfterModel(call: CallId, r: Response)

  function MetadataAfter(callbacks: seq<Callback>): Meta {
    if callbacks == [] then Meta(Zero(), Zero())
    else
      var m := MetadataAfter(callbacks[..|callbacks| - 1]);
      match callbacks[|callbacks| - 1]
      case BeforeModel(_) => m.Started()
      case AfterModel(_, r) => m.Reported(r)
  }

  /** The responses between one `BeforeModel` and the next, whichever calls they belong to; the last stretch is open. */
  datatype Stretches = Stretches(closed: seq<Call>, last: Call)

  function StretchesOf(callbacks: seq<Callback>): Stretches {
    if callbacks == [] then Stretches([], [])
    else
      var before := StretchesOf(callbacks[..|callbacks| - 1]);
      match callbacks[|callbacks| - 1]
      case BeforeModel(_) => Stretches(before.closed + [before.last], [])
      case AfterModel(_, r) => before.(last := before.last + [r])
  }

  lemma PlusZero(c: Counts)
    ensures c.Plus(Zero()) == c == Zero().Plus(c)
  {
  }

  lemma EmptySums()
    ensures Total([]) == Zero() && LastReport([]) == Zero()
  {
  }

  lemma TotalSnoc(calls: seq<Call>, call: Call)
    ensures Total(calls + [call]) == Total(calls).Plus(LastReport(call))
  {
    assert (calls + [call])[..|calls|] == calls;
  }

  lemma LastReportSnoc(responses: Call, r: Response)
    ensures LastReport(responses + [r]) ==
            if r.Response? && r.usage.Some? then Normal(r.usage.value) else LastReport(responses)
  {
    assert (responses + [r])[..|responses|] == responses;
  }

  /**
   However calls interleave, the counts are the sum over the stretches between one beginning
   of a call and the next of the last report in each, whichever call made it.
   */
  lemma {:induction false} CountsAreSumsOfStretches(callbacks: seq<Callback>)
    ensures var stretches := StretchesOf(callbacks);
            var before := Total(stretches.closed);
            MetadataAfter(callbacks) == Meta(before.Plus(LastReport(stretches.last)), before)
  {
    hide Total, LastReport, Normal, Counts.Plus, Zero;
    EmptySums();
    if callbacks != [] {
      var front := callbacks[..|callbacks| - 1];
      CountsAreSumsOfStretches(front);
      var before := StretchesOf(front);
      TotalSnoc(before.closed, before.last);
      match callbacks[|callbacks| - 1]
      case BeforeModel(_) => PlusZero(Total(before.closed + [before.last]));
      case AfterModel(_, r) => LastReportSnoc(before.last, r);
    } else {
      PlusZero(Zero());
    }
  }

  /** The responses of one call. */
  function ResponsesOf(callbacks: seq<Callback>, call: CallId): Call {
    if callbacks == [] then []
    else
      var before, c := ResponsesOf(callbacks[..|callbacks| - 1], call), callbacks[|callbacks| - 1];
      if c.AfterModel? && c.call == call then before + [c.r] else before
  }

  /** What the counts should be: the sum over the calls, numbered below `n`, of what each reported last. */
  function CallSums(callbacks: seq<Callback>, n: nat): Counts {
    if n == 0 then Zero() else CallSums(callbacks, n - 1).Plus(LastReport(ResponsesOf(callbacks, n - 1)))
  }

  predicate Reports(callbacks: seq<Callback>, i: nat) {
    i < |callbacks| && callbacks[i].AfterModel? && callbacks[i].r.Response? && callbacks[i].r.usage.Some?
  }

  /** No report comes between this one and the next beginning of a call. */
  ghost predicate LastInStretch(callbacks: seq<Callback>, i: nat) {
    Reports(callbacks, i) && forall j: nat :: i < j && Reports(callbacks, j) ==> BeginsBetween(callbacks, i, j)
  }

  ghost predicate BeginsBetween(callbacks: seq<Callback>, i: nat, j: nat) {
    exists k :: i < k < j && k < |callbacks| && callbacks[k].BeforeModel?
  }

  ghost predicate LastOfCall(callbacks: seq<Callback>, i: nat) {
    Reports(callbacks, i)
    && forall j: nat :: i < j && Reports(callbacks, j) ==> callbacks[j].call != callbacks[i].call
  }

  /** The sum of the reports at the chosen places among the first `n` callbacks. */
  function SumOf(callbacks: seq<Callback>, chosen: set<nat>, n: nat): Counts
    requires n <= |callbacks|
  {
    if n == 0 then Zero() else SumOf(callbacks, chosen, n - 1).Plus(Term(callbacks, chosen, n - 1))
  }

  function Term(callbacks: seq<Callback>, chosen: set<nat>, i: nat): Counts {
    if i in chosen && Reports(callbacks, i) then Normal(callbacks[i].r.usage.value) else Zero()
  }

  lemma {:induction false} SumOfDepends(a: seq<Callback>, b: seq<Callback>, x: set<nat>, y: set<nat>, n: nat)
    requires n <= |a| && n <= |b|
    requires forall i: nat :: i < n ==> a[i] == b[i] && (i in x <==> i in y)
    ensures SumOf(a, x, n) == SumOf(b, y, n)
  {
    if n > 0 {
      SumOfDepends(a, b, x, y, n - 1);
    }
  }

  lemma {:induction false} SumOfNothing(callbacks: seq<Callback>, chosen: set<nat>, n: nat)
    requires n <= |callbacks| && forall i: nat :: i < n ==> i !in chosen
    ensures SumOf(callbacks, chosen, n) == Zero()
  {
    if n > 0 {
      SumOfNothing(callbacks, chosen, n - 1);
    }
  }

  lemma TermOfBoth(callbacks: seq<Callback>, x: set<nat>, y: set<nat>, i: nat)
    requires !(i in x && i in y)
    ensures Term(callbacks, x + y, i) == Term(callbacks, x, i).Plus(Term(callbacks, y, i))
  {
    hide Normal, Reports;
  }

  lemma PlusShuffles(a: Counts, b: Counts, c: Counts, d: Counts)
    ensures a.Plus(b).Plus(c.Plus(d)) == a.Plus(c).Plus(b.Plus(d))
  {
  }

  lemma {:induction false} SumOfBoth(callbacks: seq<Callback>, x: set<nat>, y: set<nat>, n: nat)
    requires n <= |callbacks| && x !! y
    ensures SumOf(callbacks, x + y, n) == SumOf(callbacks, x, n).Plus(SumOf(callbacks, y, n))
  {
    hide Term, Counts.Plus, Zero;
    if n > 0 {
      SumOfBoth(callbacks, x, y, n - 1);
      TermOfBoth(callbacks, x, y, n - 1);
      PlusShuffles(SumOf(callbacks, x, n - 1), SumOf(callbacks, y, n - 1),
                   Term(callbacks, x, n - 1), Term(callbacks, y, n - 1));
    } else {
      PlusZero(Zero());
    }
  }

  ghost function LastsOfStretches(callbacks: seq<Callback>): set<nat> {
    set i: nat | i < |callbacks| && LastInStretch(callbacks, i)
  }

  /** Those that are followed by the beginning of a call. */
  ghost function LastsOfClosed(callbacks: seq<Callback>): set<nat> {
    set i: nat | i < |callbacks| && LastInStretch(callbacks, i) && BeginsBetween(callbacks, i, |callbacks|)
  }

  lemma BeginsAfter(callbacks: seq<Callback>, c: Callback, i: nat, j: nat)
    requires i < |callbacks| && j <= |callbacks| + 1
    ensures var n, more := |callbacks|, callbacks + [c];
            BeginsBetween(more, i, j) <==>
            if j <= n then BeginsBetween(callbacks, i, j) else c.BeforeModel? || BeginsBetween(callbacks, i, n)
  {
    var n, more := |callbacks|, callbacks + [c];
    assert more[n] == c;
    if BeginsBetween(more, i, j) {
      var k :| i < k < j && k < |more| && more[k].BeforeModel?;
      assert k < n ==> callbacks[k].BeforeModel?;
    }
    if BeginsBetween(callbacks, i, if j <= n then j else n) {
      var k :| i < k < (if j <= n then j else n) && k < n && callbacks[k].BeforeModel?;
      assert more[k].BeforeModel?;
    }
  }

  lemma LastInStretchAfter(callbacks: seq<Callback>, c: Callback, i: nat)
    requires i <= |callbacks|
    ensures var n, more := |callbacks|, callbacks + [c];
            LastInStretch(more, i) <==>
            if i == n then Reports(more, n)
            else LastInStretch(callbacks, i) && (Reports(more, n) ==> BeginsBetween(callbacks, i, n))
  {
    var n, more := |callbacks|, callbacks + [c];
    assert forall j: nat :: Reports(more, j) ==> j <= n;
    assert forall j: nat :: j < n ==> (Reports(more, j) <==> Reports(callbacks, j));
    assert forall j: nat :: Reports(callbacks, j) ==> j < n;
    hide Reports, BeginsBetween;
    if i < n {
      forall j: nat | j <= n ensures BeginsBetween(more, i, j) <==> BeginsBetween(callbacks, i, j) {
        BeginsAfter(callbacks, c, i, j);
      }
    }
  }

  lemma LastsAfter(callbacks: seq<Callback>, c: Callback)
    ensures var n, more := |callbacks|, callbacks + [c];
            && LastsOfClosed(more) == (if c.BeforeModel? then LastsOfStretches(callbacks) else LastsOfClosed(callbacks))
            && LastsOfStretches(more) ==
               if Reports(more, n) then LastsOfClosed(callbacks) + {n} else LastsOfStretches(callbacks)
  {
    var n, more := |callbacks|, callbacks + [c];
    assert c.BeforeModel? ==> !Reports(more, n);
    assert !BeginsBetween(more, n, n + 1);
    hide BeginsBetween, Reports, LastInStretch;
    forall i: nat | i <= n
      ensures LastInStretch(more, i) <==>
              if i == n then Reports(more, n)
              else LastInStretch(callbacks, i) && (Reports(more, n) ==> BeginsBetween(callbacks, i, n))
    {
      LastInStretchAfter(callbacks, c, i);
    }
    forall i: nat | i < n
      ensures BeginsBetween(more, i, n + 1) <==> c.BeforeModel? || BeginsBetween(callbacks, i, n)
    {
      BeginsAfter(callbacks, c, i, n + 1);
    }
  }

  lemma {:induction false} CountsAreLastsOfStretches(callbacks: seq<Callback>)
    ensures MetadataAfter(callbacks) == Meta(SumOf(callbacks, LastsOfStretches(callbacks), |callbacks|),
                                             SumOf(callbacks, LastsOfClosed(callbacks), |callbacks|))
  {
    hide Counts.Plus, Zero, Normal;
    if callbacks != [] {
      var n := |callbacks| - 1;
      var front, c := callbacks[..n], callbacks[n];
      CountsAreLastsOfStretches(front);
      LastsAfter(front, c);
      assert front + [c] == callbacks;
      assert n !in LastsOfStretches(front) && n !in LastsOfClosed(front);
      hide LastsOfStretches, LastsOfClosed;
      SumOfDepends(front, callbacks, LastsOfStretches(front), LastsOfStretches(front), n);
      SumOfDepends(front, callbacks, LastsOfClosed(front), LastsOfClosed(front), n);
      SumOfDepends(callbacks, callbacks, LastsOfClosed(front), LastsOfClosed(front) + {n}, n);
      PlusZero(SumOf(callbacks, LastsOfStretches(front), n));
      PlusZero(SumOf(callbacks, LastsOfClosed(front), n));
      UnrollsTo(callbacks);
    }
  }

  lemma UnrollsTo(callbacks: seq<Callback>)
    requires callbacks != []
    ensures var m, c := MetadataAfter(callbacks[..|callbacks| - 1]), callbacks[|callbacks| - 1];
            MetadataAfter(callbacks) == if c.BeforeModel? then m.Started() else m.Reported(c.r)
  {
  }

  /******* When the counts are the sums of the calls *******/

  /** The places of the last report of one call. */
  ghost function LastsOf(callbacks: seq<Callback>, call: CallId): set<nat> {
    set i: nat | i < |callbacks| && LastOfCall(callbacks, i) && callbacks[i].call == call
  }

  /** The places of the last reports of the calls below `n`. */
  ghost function LastsBelow(callbacks: seq<Callback>, n: nat): set<nat> {
    set i: nat | i < |callbacks| && LastOfCall(callbacks, i) && callbacks[i].call < n
  }

  lemma LastsOfAfter(callbacks: seq<Callback>, c: Callback, call: CallId)
    ensures var n, more := |callbacks|, callbacks + [c];
            LastsOf(more, call) == if Reports(more, n) && c.call == call then {n} else LastsOf(callbacks, call)
  {
    var n, more := |callbacks|, callbacks + [c];
    forall i: nat | i < n ensures Reports(more, i) <==> Reports(callbacks, i) {
    }
    hide Reports;
  }

  lemma {:induction false} LastReportIsSum(callbacks: seq<Callback>, call: CallId)
    ensures LastReport(ResponsesOf(callbacks, call)) == SumOf(callbacks, LastsOf(callbacks, call), |callbacks|)
  {
    hide LastReport, Counts.Plus, Zero, Normal;
    EmptySums();
    if callbacks != [] {
      var n := |callbacks| - 1;
      var front, c := callbacks[..n], callbacks[n];
      LastReportIsSum(front, call);
      assert n !in LastsOf(front, call);
      hide LastsOf;
      LastsOfAfter(front, c, call);
      assert front + [c] == callbacks;
      if c.AfterModel? {
        LastReportSnoc(ResponsesOf(front, call), c.r);
      }
      SumOfDepends(front, callbacks, LastsOf(front, call), LastsOf(front, call), n);
      SumOfNothing(callbacks, {n}, n);
      PlusZero(SumOf(callbacks, LastsOf(callbacks, call), n));
      PlusZero(Term(callbacks, {n}, n));
    }
  }

  lemma {:induction false} CallSumsAreLasts(callbacks: seq<Callback>, n: nat)
    ensures CallSums(callbacks, n) == SumOf(callbacks, LastsBelow(callbacks, n), |callbacks|)
  {
    if n == 0 {
      SumOfNothing(callbacks, LastsBelow(callbacks, 0), |callbacks|);
    } else {
      CallSumsAreLasts(callbacks, n - 1);
      LastReportIsSum(callbacks, n - 1);
      SumOfBoth(callbacks, LastsBelow(callbacks, n - 1), LastsOf(callbacks, n - 1), |callbacks|);
      assert LastsBelow(callbacks, n) == LastsBelow(callbacks, n - 1) + LastsOf(callbacks, n - 1);
      hide LastReport, SumOf, LastsBelow, LastsOf;
    }
  }

  /** The same callbacks in the same order; only what the reports say may differ. */
  ghost predicate SameSchedule(a: seq<Callback>, b: seq<Callback>) {
    |a| == |b| && forall i: nat :: i < |a| ==>
      && b[i].call == a[i].call && (b[i].BeforeModel? <==> a[i].BeforeModel?) && (Reports(b, i) <==> Reports(a, i))
  }

  predicate Numbered(callbacks: seq<Callback>, n: nat) {
    forall c <- callbacks :: c.call < n
  }

  lemma SameLasts(a: seq<Callback>, b: seq<Callback>, i: nat)
    requires SameSchedule(a, b)
    ensures LastInStretch(a, i) <==> LastInStretch(b, i)
    ensures LastOfCall(a, i) <==> LastOfCall(b, i)
  {
    forall j: nat ensures BeginsBetween(a, i, j) <==> BeginsBetween(b, i, j) {
      assert forall k: nat :: k < |a| ==> (b[k].BeforeModel? <==> a[k].BeforeModel?);
    }
    assert forall j: nat :: Reports(a, j) ==> j < |a|;
    assert forall j: nat :: Reports(b, j) ==> j < |b|;
    hide BeginsBetween, Reports;
  }

  /** The schedule in which only the report at `i` says something. */
  function Probe(callbacks: seq<Callback>, i: nat): (probe: seq<Callback>)
    ensures |probe| == |callbacks|
    ensures forall j: nat :: j < |callbacks| ==>
              probe[j] == if Reports(callbacks, j) then
                            AfterModel(callbacks[j].call,
                                       Response(Some(if j == i then Counts(1, 0, 1) else Zero())))
                          else callbacks[j]
  {
    seq(|callbacks|, j requires 0 <= j < |callbacks| =>
      if Reports(callbacks, j) then
        AfterModel(callbacks[j].call, Response(Some(if j == i then Counts(1, 0, 1) else Zero())))
      else callbacks[j])
  }

  lemma {:induction false} ProbeSum(callbacks: seq<Callback>, i: nat, chosen: set<nat>, n: nat)
    requires n <= |callbacks|
    ensures SumOf(Probe(callbacks, i), chosen, n)
            == if i < n && i in chosen && Reports(callbacks, i) then Counts(1, 0, 1) else Zero()
  {
    hide Term, Probe, Reports, Counts.Plus, Zero;
    if n > 0 {
      ProbeSum(callbacks, i, chosen, n - 1);
      ProbeTerm(callbacks, i, chosen, n - 1);
      PlusZero(Counts(1, 0, 1));
      PlusZero(Zero());
    }
  }

  lemma ProbeTerm(callbacks: seq<Callback>, i: nat, chosen: set<nat>, j: nat)
    requires j < |callbacks|
    ensures Term(Probe(callbacks, i), chosen, j)
            == if i == j && i in chosen && Reports(callbacks, i) then Counts(1, 0, 1) else Zero()
  {
    assert Reports(Probe(callbacks, i), j) <==> Reports(callbacks, j);
  }

  lemma CountsAreCallSums(callbacks: seq<Callback>, n: nat)
    requires Numbered(callbacks, n)
    requires forall i: nat :: LastInStretch(callbacks, i) <==> LastOfCall(callbacks, i)
    ensures MetadataAfter(callbacks).now == CallSums(callbacks, n)
  {
    CountsAreLastsOfStretches(callbacks);
    CallSumsAreLasts(callbacks, n);
    assert forall i: nat :: i < |callbacks| ==> callbacks[i] in callbacks;
    assert LastsBelow(callbacks, n) == LastsOfStretches(callbacks);
    hide LastInStretch, LastOfCall, SumOf;
  }

  lemma ProbeTells(callbacks: seq<Callback>, n: nat, i: nat)
    requires Numbered(callbacks, n) && (LastInStretch(callbacks, i) <==> !LastOfCall(callbacks, i))
    ensures SameSchedule(callbacks, Probe(callbacks, i))
    ensures MetadataAfter(Probe(callbacks, i)).now != CallSums(Probe(callbacks, i), n)
  {
    var probe := Probe(callbacks, i);
    assert forall j: nat :: j < |callbacks| ==> callbacks[j] in callbacks;
    assert Reports(callbacks, i);
    assert SameSchedule(callbacks, probe);
    SameLasts(callbacks, probe, i);
    CountsAreLastsOfStretches(probe);
    CallSumsAreLasts(probe, n);
    ProbeSum(callbacks, i, LastsOfStretches(probe), |callbacks|);
    ProbeSum(callbacks, i, LastsBelow(probe, n), |callbacks|);
    assert i in LastsOfStretches(probe) <==> LastInStretch(probe, i);
    assert i in LastsBelow(probe, n) <==> LastOfCall(probe, i);
    hide LastInStretch, LastOfCall, SumOf, LastsOfStretches, LastsBelow, MetadataAfter, CallSums;
  }

  /**
   Whatever calls report, the counts are the sum of what each reported last, exactly if a
   report is the last before the next call begins just when it is the last of its own call.
   */
  lemma CountsAreCallSumsExactly(callbacks: seq<Callback>, n: nat)
    requires Numbered(callbacks, n)
    ensures (forall other :: SameSchedule(callbacks, other) ==> MetadataAfter(other).now == CallSums(other, n))
            <==> (forall i: nat :: LastInStretch(callbacks, i) <==> LastOfCall(callbacks, i))
  {
    hide LastInStretch, LastOfCall, MetadataAfter, CallSums;
    if forall i: nat :: LastInStretch(callbacks, i) <==> LastOfCall(callbacks, i) {
      forall other | SameSchedule(callbacks, other) ensures MetadataAfter(other).now == CallSums(other, n) {
        forall i: nat ensures LastInStretch(other, i) <==> LastOfCall(other, i) {
          SameLasts(callbacks, other, i);
        }
        assert Numbered(other, n);
        CountsAreCallSums(other, n);
      }
    } else {
      var i: nat :| LastInStretch(callbacks, i) <==> !LastOfCall(callbacks, i);
      ProbeTells(callbacks, n, i);
    }
  }

  /** The call of callback `i` is the one that has begun last, at `b`. */
  predicate BeganLast(callbacks: seq<Callback>, b: nat, i: nat) {
    && b < i < |callbacks| && callbacks[b] == BeforeModel(callbacks[i].call)
    && forall k: nat :: b < k < i ==> !callbacks[k].BeforeModel?
  }

  /** Calls begin once, and none reports after another has begun. */
  ghost predicate OneAtATime(callbacks: seq<Callback>) {
    && (forall a: nat, b: nat :: a < b < |callbacks| && callbacks[a].BeforeModel? && callbacks[b].BeforeModel? ==>
          callbacks[a].call != callbacks[b].call)
    && (forall i: nat :: Reports(callbacks, i) ==> exists b: nat :: BeganLast(callbacks, b, i))
  }

  /** So the counts are right for calls that do not overlap. */
  lemma OneAtATimeIsRight(callbacks: seq<Callback>, n: nat)
    requires OneAtATime(callbacks) && Numbered(callbacks, n)
    ensures MetadataAfter(callbacks).now == CallSums(callbacks, n)
  {
    forall i: nat, j: nat | i < j && Reports(callbacks, i) && Reports(callbacks, j)
      ensures BeginsBetween(callbacks, i, j) <==> callbacks[j].call != callbacks[i].call
    {
      var a: nat :| BeganLast(callbacks, a, i);
      var b: nat :| BeganLast(callbacks, b, j);
      if a != b {
        assert callbacks[b].BeforeModel? && i < b;
      }
    }
    hide BeginsBetween, OneAtATime, Reports;
    CountsAreCallSums(callbacks, n);
  }

  lemma Unroll(callbacks: seq<Callback>, c: Callback)
    ensures MetadataAfter(callbacks + [c]) ==
            if c.BeforeModel? then MetadataAfter(callbacks).Started() else MetadataAfter(callbacks).Reported(c.r)
  {
    assert (callbacks + [c])[..|callbacks|] == callbacks;
  }

  /** Of two calls that have both begun, the report of the one is lost when the other reports. */
  lemma OverlappingCallsLoseCounts(
    callbacks: seq<Callback>, a: CallId, b: CallId, first: Counts, second: Counts)
    ensures var before := MetadataAfter(callbacks).now;
            var r1, r2 := AfterModel(a, Response(Some(first))), AfterModel(b, Response(Some(second)));
            var lost := MetadataAfter(callbacks + [BeforeModel(a)] + [BeforeModel(b)] + [r1] + [r2]).now;
            && lost == before.Plus(Normal(second))
            && (lost == before.Plus(Normal(first)).Plus(Normal(second)) <==> first == Zero())
  {
    hide MetadataAfter;
    var r1, r2 := AfterModel(a, Response(Some(first))), AfterModel(b, Response(Some(second)));
    Unroll(callbacks, BeforeModel(a));
    Unroll(callbacks + [BeforeModel(a)], BeforeModel(b));
    Unroll(callbacks + [BeforeModel(a)] + [BeforeModel(b)], r1);
    Unroll(callbacks + [BeforeModel(a)] + [BeforeModel(b)] + [r1], r2);
    assert Normal(first) == Zero() <==> first == Zero();
  }

  /** And two reports of one call count twice when another call begins between them. */
  lemma OverlappingCallsCountTwice(
    callbacks: seq<Callback>, a: CallId, b: CallId, first: Counts, second: Counts)
    ensures var before := MetadataAfter(callbacks).now;
            var r1, r2 := AfterModel(a, Response(Some(first))), AfterModel(a, Response(Some(second)));
            var twice := MetadataAfter(callbacks + [BeforeModel(a)] + [r1] + [BeforeModel(b)] + [r2]).now;
            && twice == before.Plus(Normal(first)).Plus(Normal(second))
            && (twice == before.Plus(Normal(second)) <==> first == Zero())
  {
    hide MetadataAfter;
    var r1, r2 := AfterModel(a, Response(Some(first))), AfterModel(a, Response(Some(second)));
    Unroll(callbacks, BeforeModel(a));
    Unroll(callbacks + [BeforeModel(a)], r1);
    Unroll(callbacks + [BeforeModel(a)] + [r1], BeforeModel(b));
    Unroll(callbacks + [BeforeModel(a)] + [r1] + [BeforeModel(b)], r2);
    assert Normal(first) == Zero() <==> first == Zero();
  }

  /******* Calls that are streamed by a model *******/

  /** A conversion to a 32-bit integer, which wraps around. */
  function Int32(x: int): int {
    (x + 0x8000_0000) % 0x1_0000_0000 - 0x8000_0000
  }

  lemma Int32Fits(x: int)
    requires 0 <= x < 0x8000_0000
    ensures Int32(x) == x
  {
  }

  /** `buildUsageMetadata` */
  function UsageMetadata(u: Usage): Counts {
    var prompt := if u.prompt == 0 then u.input else u.prompt;
    var completion := if u.completion == 0 then u.output else u.completion;
    var total := if u.total == 0 && (prompt > 0 || completion > 0) then prompt + completion else u.total;
    Counts(Int32(prompt), Int32(completion), Int32(total))
  }

  /**
   Counts that fit 32 bits arrive as they are, under whichever name they were reported, and
   what arrives already has its total: the plugin does not add one again.
   */
  lemma MetadataIsNormal(u: Usage)
    requires u.total < 0x8000_0000 && Max(u.prompt, u.input) + Max(u.completion, u.output) < 0x8000_0000
    ensures var counts := UsageMetadata(u);
            && Normal(counts) == counts
            && counts.prompt in {u.prompt, u.input} && counts.candidate in {u.completion, u.output}
            && (counts.prompt == 0 <==> u.prompt == u.input == 0)
            && (counts.candidate == 0 <==> u.completion == u.output == 0)
            && (counts.total == u.total || (u.total == 0 && counts.total == counts.prompt + counts.candidate))
            && (counts.total == 0 ==> counts.prompt == counts.candidate == 0)
  {
    var prompt := if u.prompt == 0 then u.input else u.prompt;
    var completion := if u.completion == 0 then u.output else u.completion;
    Int32Fits(prompt);
    Int32Fits(completion);
    Int32Fits(u.total);
    Int32Fits(prompt + completion);
    hide Int32;
  }

  /** What `AfterModel` is given for an event of the stream. */
  function ResponseFor(e: Event): Response {
    match e
    case Partial(_) => Response(None)
    case Final(_, _, usage) => Response(if usage.None? then None else Some(UsageMetadata(usage.value)))
    case Failed => Errored
    case Crashed => Errored
  }

  function ResponsesFor(events: seq<Event>): (responses: Call)
    ensures |responses| == |events| && forall i :: 0 <= i < |events| ==> responses[i] == ResponseFor(events[i])
  {
    seq(|events|, i requires 0 <= i < |events| => ResponseFor(events[i]))
  }

  function StreamedCall(chunks: seq<Chunk>, ignored: string, parse: Parser): Call {
    ResponsesFor(Stream(chunks, false, ignored, parse))
  }

  /** The calls of an invocation, each given by the chunks that the provider sends. */
  function Streamed(calls: seq<seq<Chunk>>, ignored: string, parse: Parser): (r: seq<Call>)
    ensures |r| == |calls|
  {
    if calls == [] then []
    else Streamed(calls[..|calls| - 1], ignored, parse) + [StreamedCall(calls[|calls| - 1], ignored, parse)]
  }

  function ProviderReport(usage: Option<Usage>): Counts {
    if usage.None? then Zero() else Normal(UsageMetadata(usage.value))
  }

  /** The last usage in the chunks of each call, summed up. */
  function ProviderTotal(calls: seq<seq<Chunk>>): Counts {
    if calls == [] then Zero()
    else ProviderTotal(calls[..|calls| - 1]).Plus(ProviderReport(LastUsage(calls[|calls| - 1])))
  }

  lemma PartialsReportNothing(partials: seq<Event>)
    requires forall e <- partials :: IsPartial(e)
    ensures LastReport(ResponsesFor(partials)) == Zero()
  {
    var responses := ResponsesFor(partials);
    forall r <- responses ensures ReportsNothing(r) {
      var i :| 0 <= i < |responses| && responses[i] == r;
      assert IsPartial(partials[i]);
    }
    LastReportSkips([], responses);
    assert [] + responses == responses;
  }

  lemma LastOfResponses(partials: seq<Event>, e: Event)
    ensures var r := ResponsesFor(partials + [e]);
            r[|r| - 1] == ResponseFor(e) && r[..|r| - 1] == ResponsesFor(partials)
  {
  }

  lemma StreamReportsLastUsage(chunks: seq<Chunk>, ignored: string, parse: Parser)
    requires NoPanic(Calls(chunks))
    ensures LastReport(StreamedCall(chunks, ignored, parse)) == ProviderReport(LastUsage(chunks))
  {
    hide Stream, Partials, TextParts, CallParts, Slots, Said, Mused, Calls, NoPanic, Texts, LastFinish;
    hide Width, LastUsage;
    FinalRepeatsPartials(chunks, ignored, parse);
    var events, partials := Stream(chunks, false, ignored, parse), Partials(chunks);
    var finals := events[|partials|..];
    PartialsReportNothing(partials);
    hide IsPartial, Normal, UsageMetadata;
    if finals == [] {
      assert events == partials;
    } else {
      assert finals[0] in finals && events == partials + [finals[0]];
      LastOfResponses(partials, finals[0]);
      hide ResponsesFor;
    }
  }

  /**
   Over streamed calls the invocation counts exactly the last usage that the provider sent
   for each call, however many partial responses lie between.
   */
  lemma {:induction false} StreamedCallsCountOnce(calls: seq<seq<Chunk>>, ignored: string, parse: Parser)
    requires forall chunks <- calls :: NoPanic(Calls(chunks))
    ensures Total(Streamed(calls, ignored, parse)) == ProviderTotal(calls)
    ensures Invocation(Streamed(calls, ignored, parse)).now == ProviderTotal(calls)
  {
    hide StreamedCall, LastUsage, LastReport, Invocation, ProviderReport, NoPanic, Calls;
    var streamed := Streamed(calls, ignored, parse);
    CountsAreSums(streamed);
    if calls != [] {
      var before, chunks := calls[..|calls| - 1], calls[|calls| - 1];
      assert chunks in calls;
      StreamedCallsCountOnce(before, ignored, parse);
      StreamReportsLastUsage(chunks, ignored, parse);
      assert streamed[..|streamed| - 1] == Streamed(before, ignored, parse);
    }
  }
}
