/**
 The ARK token provider: a cached key stamped with a generation, and shared fetches that
 may install their key only while the generation they were started for is still current.

 `TokenCache` holds the two fields guarded by the provider's mutex, one method for each
 critical section. The rest of the module interleaves those sections with every step of
 any number of `APIKey` calls and of the shared fetches they join. `singleflight` itself
 is represented by what the provider relies on: at most one flight in the group for each
 group key, joiners receive its reply, and it leaves the group when it completes.
 */
module ArkToken {
  import opened Text

  /** The value of the two guarded fields. An empty key means that nothing is cached. */
  datatype Cache = Cache(key: string, generation: nat) {
    function Invalidated(): Cache {
      Cache("", generation + 1)
    }

    function Settled(fetched: string, stamp: nat): Cache {
      if generation == stamp then Cache(fetched, generation) else this
    }
  }

  class TokenCache {
    var apiKey: string
    var generation: nat

    constructor ()
      ensures Value() == Cache("", 0)
    {
      apiKey, generation := "", 0;
    }

    function Value(): Cache
      reads this
    {
      Cache(apiKey, generation)
    }

    method CachedAPIKey() returns (key: string, stamp: nat)
      ensures Cache(key, stamp) == Value()
    {
      key, stamp := apiKey, generation;
    }

    method Install(key: string, stamp: nat) returns (installed: bool)
      modifies this
      ensures installed <==> old(generation) == stamp
      ensures Value() == old(Value()).Settled(key, stamp)
    {
      if generation != stamp {
        return false;
      }
      apiKey := key;
      installed := true;
    }

    method Invalidate()
      modifies this
      ensures Value() == old(Value()).Invalidated()
    {
      apiKey := "";
      generation := generation + 1;
    }
  }

  /******* The interleaved protocol *******/

  type CallId = nat
  type FlightId = nat

  /** What a shared fetch hands to everyone who joined it. */
  datatype Reply = Key(key: string) | Failed | Stale

  datatype Stage =
    | Spawned                   // the function passed to DoChan has not looked at the cache yet
    | Uncached                  // the second look at the cache found nothing
    | Fetching
    | Fetched(key: string)
    | Ended(reply: Reply)       // the function has returned; the flight is still in the group
    | Delivered(reply: Reply)   // out of the group, the reply sits in every joiner's channel

  datatype Flight = Flight(generation: nat, stage: Stage)

  datatype Outcome = Ok(key: string) | Error

  /** Where one `APIKey` call stands. */
  datatype Phase =
    | Reading
    | Joining(generation: nat)
    | Waiting(flight: FlightId)
    | Returned(outcome: Outcome)

  datatype State = State(
    cache: Cache,
    group: map<nat, FlightId>,
    flights: map<FlightId, Flight>,
    calls: map<CallId, Phase>)

  const INITIAL := State(Cache("", 0), map[], map[], map[])

  datatype Step =
    | Start(call: CallId)
    | Read(call: CallId)
    | Join(call: CallId, flight: FlightId)
    | Recheck(flight: FlightId)
    | BeginFetch(flight: FlightId)
    | EndFetch(flight: FlightId, success: bool, key: string)
    | Settle(flight: FlightId)
    | Complete(flight: FlightId)
    | Receive(call: CallId)
    | Cancel(call: CallId)
    | Invalidate
    | Elsewhere                 // some other part of the program moves

  predicate InStage(s: State, f: FlightId, stage: Stage) {
    f in s.flights && s.flights[f].stage == stage
  }

  predicate Enabled(s: State, step: Step) {
    match step
    case Start(c) => c !in s.calls
    case Read(c) => c in s.calls && s.calls[c] == Reading
    case Join(c, f) =>
      && c in s.calls && s.calls[c].Joining?
      && var g := s.calls[c].generation;
         if g in s.group then f == s.group[g] else f !in s.flights
    case Recheck(f) => InStage(s, f, Spawned)
    case BeginFetch(f) => InStage(s, f, Uncached)
    case EndFetch(f, success, key) => InStage(s, f, Fetching) && (success ==> TrimSpace(key) != "")
    case Settle(f) => f in s.flights && s.flights[f].stage.Fetched?
    case Complete(f) => f in s.flights && s.flights[f].stage.Ended?
    case Receive(c) =>
      && c in s.calls && s.calls[c].Waiting?
      && s.calls[c].flight in s.flights && s.flights[s.calls[c].flight].stage.Delivered?
    case Cancel(c) => c in s.calls && s.calls[c].Waiting?
    case Invalidate => true
    case Elsewhere => true
  }

  function WithStage(s: State, f: FlightId, stage: Stage): State
    requires f in s.flights
  {
    s.(flights := s.flights[f := s.flights[f].(stage := stage)])
  }

  function WithPhase(s: State, c: CallId, phase: Phase): State {
    s.(calls := s.calls[c := phase])
  }

  /** How a call continues once the reply of its flight arrives. */
  function OnReply(reply: Reply): Phase {
    match reply
    case Stale => Reading
    case Failed => Returned(Error)
    case Key(key) => Returned(if TrimSpace(key) == "" then Error else Ok(key))
  }

  function Apply(s: State, step: Step): State
    requires Enabled(s, step)
  {
    match step
    case Start(c) => WithPhase(s, c, Reading)
    case Read(c) =>
      WithPhase(s, c, if s.cache.key != "" then Returned(Ok(s.cache.key)) else Joining(s.cache.generation))
    case Join(c, f) =>
      var g := s.calls[c].generation;
      var joined := WithPhase(s, c, Waiting(f));
      if g in s.group then joined
      else joined.(group := s.group[g := f], flights := s.flights[f := Flight(g, Spawned)])
    case Recheck(f) =>
      WithStage(s, f, if s.cache.key != "" then Ended(Key(s.cache.key)) else Uncached)
    case BeginFetch(f) => WithStage(s, f, Fetching)
    case EndFetch(f, success, key) => WithStage(s, f, if success then Fetched(key) else Ended(Failed))
    case Settle(f) =>
      var stamp, key := s.flights[f].generation, s.flights[f].stage.key;
      WithStage(s, f, Ended(if s.cache.generation == stamp then Key(key) else Stale))
        .(cache := s.cache.Settled(key, stamp))
    case Complete(f) =>
      WithStage(s, f, Delivered(s.flights[f].stage.reply)).(group := s.group - {s.flights[f].generation})
    case Receive(c) => WithPhase(s, c, OnReply(s.flights[s.calls[c].flight].stage.reply))
    case Cancel(c) => WithPhase(s, c, Returned(Error))
    case Invalidate => s.(cache := s.cache.Invalidated())
    case Elsewhere => s
  }

  /** `steps[i]` leads from `states[i]` to `states[i + 1]`. */
  ghost predicate IsRun(states: seq<State>, steps: seq<Step>) {
    && |states| == |steps| + 1
    && states[0] == INITIAL
    && forall i :: 0 <= i < |steps| ==> Enabled(states[i], steps[i]) && states[i + 1] == Apply(states[i], steps[i])
  }

  /******* What every single state keeps *******/

  predicate InGroup(stage: Stage) {
    !stage.Delivered?
  }

  /** A flight in one of these stages may still try to install a key. */
  predicate MayInstall(stage: Stage) {
    stage == Uncached || stage == Fetching || stage.Fetched?
  }

  /** The group holds exactly the undelivered flights, one for each generation. */
  ghost predicate SingleFlight(s: State) {
    && (forall g <- s.group :: s.group[g] in s.flights && s.flights[s.group[g]].generation == g
                               && InGroup(s.flights[s.group[g]].stage))
    && (forall f <- s.flights :: InGroup(s.flights[f].stage) ==>
          s.flights[f].generation in s.group && s.group[s.flights[f].generation] == f)
  }

  ghost predicate CallsStamped(s: State) {
    && (forall c <- s.calls :: s.calls[c].Joining? ==> s.calls[c].generation <= s.cache.generation)
    && (forall c <- s.calls :: s.calls[c].Waiting? ==> s.calls[c].flight in s.flights)
  }

  ghost predicate FlightsStamped(s: State) {
    && (forall f <- s.flights :: s.flights[f].generation <= s.cache.generation)
    && (forall f <- s.flights ::
          s.flights[f].stage in {Ended(Stale), Delivered(Stale)} ==> s.flights[f].generation < s.cache.generation)
  }

  /** No stamp is ahead of the cache, and a reply says "stale" only after its generation has passed. */
  ghost predicate Stamped(s: State) {
    CallsStamped(s) && FlightsStamped(s)
  }

  /** A flight that may still install under the current stamp faces an empty cache. */
  ghost predicate InstallsOnce(s: State) {
    forall f <- s.flights ::
      MayInstall(s.flights[f].stage) && s.flights[f].generation == s.cache.generation ==> s.cache.key == ""
  }

  predicate NoBlank(stage: Stage) {
    match stage
    case Fetched(key) => TrimSpace(key) != ""
    case Ended(Key(key)) => TrimSpace(key) != ""
    case Delivered(Key(key)) => TrimSpace(key) != ""
    case _ => true
  }

  /** No blank key is ever fetched, cached or handed out. */
  ghost predicate NeverBlank(s: State) {
    && (s.cache.key != "" ==> TrimSpace(s.cache.key) != "")
    && (forall f <- s.flights :: NoBlank(s.flights[f].stage))
  }

  ghost predicate Inv(s: State) {
    SingleFlight(s) && Stamped(s) && InstallsOnce(s) && NeverBlank(s)
  }

  lemma StepKeepsSingleFlight(s: State, step: Step)
    requires SingleFlight(s) && Enabled(s, step)
    ensures SingleFlight(Apply(s, step))
  {
  }

  lemma StepKeepsCallsStamped(s: State, step: Step)
    requires SingleFlight(s) && CallsStamped(s) && Enabled(s, step)
    ensures CallsStamped(Apply(s, step))
  {
  }

  lemma StepKeepsFlightsStamped(s: State, step: Step)
    requires SingleFlight(s) && Stamped(s) && Enabled(s, step)
    ensures FlightsStamped(Apply(s, step))
  {
  }

  lemma StepKeepsInstallsOnce(s: State, step: Step)
    requires SingleFlight(s) && Stamped(s) && InstallsOnce(s) && Enabled(s, step)
    ensures InstallsOnce(Apply(s, step))
  {
  }

  lemma StepKeepsNeverBlank(s: State, step: Step)
    requires NeverBlank(s) && Enabled(s, step)
    ensures NeverBlank(Apply(s, step))
  {
  }

  lemma StepKeepsInv(s: State, step: Step)
    requires Inv(s) && Enabled(s, step)
    ensures Inv(Apply(s, step))
  {
    StepKeepsSingleFlight(s, step);
    StepKeepsCallsStamped(s, step);
    StepKeepsFlightsStamped(s, step);
    hide SingleFlight, CallsStamped, FlightsStamped, InstallsOnce, NeverBlank, Apply, Enabled;
    StepKeepsInstallsOnce(s, step);
    StepKeepsNeverBlank(s, step);
  }

  lemma {:induction false} InvAlways(states: seq<State>, steps: seq<Step>, n: nat)
    requires IsRun(states, steps) && n <= |steps|
    ensures Inv(states[n])
  {
    hide Apply, Enabled;
    if n > 0 {
      InvAlways(states, steps, n - 1);
      StepKeepsInv(states[n - 1], steps[n - 1]);
    }
  }

  /******* What whole runs keep *******/

  lemma CacheStep(s: State, step: Step)
    requires Inv(s) && Enabled(s, step)
    ensures var s' := Apply(s, step);
            || s'.cache == s.cache
            || s'.cache.generation == s.cache.generation + 1
            || (s'.cache.generation == s.cache.generation && s.cache.key == "")
  {
  }

  /** Generations never go back, and a key stays cached until its generation ends. */
  lemma {:induction false} CacheMovesForward(states: seq<State>, steps: seq<Step>, a: nat, b: nat)
    requires IsRun(states, steps) && a <= b <= |steps|
    ensures states[a].cache.generation <= states[b].cache.generation
    ensures states[a].cache.generation == states[b].cache.generation && states[a].cache.key != "" ==>
              states[a].cache.key == states[b].cache.key
  {
    hide Apply, Enabled, Inv;
    if a < b {
      CacheMovesForward(states, steps, a, b - 1);
      InvAlways(states, steps, b - 1);
      CacheStep(states[b - 1], steps[b - 1]);
    }
  }

  /** Steps `t` and `e` are the start and the success of one fetch of `key`. */
  ghost predicate Fetches(steps: seq<Step>, t: nat, e: nat, f: FlightId, key: string) {
    t < e < |steps| && steps[t] == BeginFetch(f) && steps[e] == EndFetch(f, true, key)
  }

  /** The key cached at instant `m`, if any, came from a fetch that began within the same generation. */
  ghost predicate Sourced(states: seq<State>, steps: seq<Step>, m: nat)
    requires m < |states| == |steps| + 1
  {
    states[m].cache.key != "" ==>
      exists t: nat, e: nat, f :: e < m && Fetches(steps, t, e, f, states[m].cache.key)
                                  && states[t].cache.generation == states[m].cache.generation
  }

  ghost predicate CachedAt(states: seq<State>, m: nat, key: string, stamp: nat)
    requires m < |states|
  {
    states[m].cache.key == key && stamp <= states[m].cache.generation
  }

  /** What the state of flight `f` after `n` steps says about the past. */
  ghost predicate FlightPast(states: seq<State>, steps: seq<Step>, n: nat, f: FlightId, flight: Flight)
    requires n < |states| == |steps| + 1
  {
    var Flight(stamp, stage) := flight;
    match stage
    case Fetching => exists t: nat :: t < n && steps[t] == BeginFetch(f) && stamp <= states[t].cache.generation
    case Fetched(key) =>
      exists t: nat, e: nat :: e < n && Fetches(steps, t, e, f, key) && stamp <= states[t].cache.generation
    case Ended(Key(key)) => exists m: nat :: m <= n && CachedAt(states, m, key, stamp)
    case Delivered(Key(key)) => exists m: nat :: m <= n && CachedAt(states, m, key, stamp)
    case _ => true
  }

  ghost predicate Past(states: seq<State>, steps: seq<Step>, n: nat)
    requires n < |states| == |steps| + 1
  {
    Sourced(states, steps, n) && forall f <- states[n].flights :: FlightPast(states, steps, n, f, states[n].flights[f])
  }

  lemma {:induction false} PastOf(states: seq<State>, steps: seq<Step>, n: nat)
    requires IsRun(states, steps) && n <= |steps|
    ensures Past(states, steps, n)
  {
    if n > 0 {
      PastOf(states, steps, n - 1);
      InvAlways(states, steps, n - 1);
      SourceAfterStep(states, steps, n - 1);
      forall f <- states[n].flights ensures FlightPast(states, steps, n, f, states[n].flights[f]) {
        FlightAfterStep(states, steps, n - 1, f);
      }
    }
  }

  lemma SourceAfterStep(states: seq<State>, steps: seq<Step>, n: nat)
    requires IsRun(states, steps) && n < |steps| && Past(states, steps, n)
    ensures Sourced(states, steps, n + 1)
  {
    var s, s' := states[n], states[n + 1];
    if s'.cache == s.cache || s'.cache.key == "" {
    } else {
      var f := steps[n].flight;
      var key := s.flights[f].stage.key;
      assert FlightPast(states, steps, n, f, states[n].flights[f]);
      var t: nat, e: nat :|
        e < n && Fetches(steps, t, e, f, key) && s.flights[f].generation <= states[t].cache.generation;
      CacheMovesForward(states, steps, t, n);
    }
  }

  lemma StillPast(states: seq<State>, steps: seq<Step>, n: nat, f: FlightId, flight: Flight)
    requires n + 1 < |states| == |steps| + 1 && FlightPast(states, steps, n, f, flight)
    ensures FlightPast(states, steps, n + 1, f, flight)
  {
  }

  lemma FlightAfterStep(states: seq<State>, steps: seq<Step>, n: nat, f: FlightId)
    requires IsRun(states, steps) && n < |steps| && Stamped(states[n]) && Past(states, steps, n)
    requires f in states[n + 1].flights
    ensures FlightPast(states, steps, n + 1, f, states[n + 1].flights[f])
  {
    var s, s' := states[n], states[n + 1];
    if f !in s.flights {
    } else if s'.flights[f] == s.flights[f] {
      StillPast(states, steps, n, f, s.flights[f]);
    } else {
      assert FlightPast(states, steps, n, f, s.flights[f]);
      MovedFlight(states, steps, n, f, s.flights[f], s'.flights[f]);
    }
  }

  lemma MovedFlight(states: seq<State>, steps: seq<Step>, n: nat, f: FlightId, before: Flight, after: Flight)
    requires IsRun(states, steps) && n < |steps| && Stamped(states[n]) && FlightPast(states, steps, n, f, before)
    requires f in states[n].flights && states[n].flights[f] == before
    requires f in states[n + 1].flights && states[n + 1].flights[f] == after != before
    ensures FlightPast(states, steps, n + 1, f, after)
  {
    var stamp := before.generation;
    match steps[n]
    case Recheck(_) =>
      assert CachedAt(states, n, states[n].cache.key, stamp);
    case EndFetch(_, true, key) =>
      var t: nat :| t < n && steps[t] == BeginFetch(f) && stamp <= states[t].cache.generation;
      assert Fetches(steps, t, n, f, key);
    case Settle(_) =>
      assert CachedAt(states, n + 1, states[n + 1].cache.key, states[n + 1].cache.generation);
    case Complete(_) =>
    case _ =>
  }

  /** What the phase of call `c`, started by step `i`, says about the steps since. */
  ghost predicate CallPast(states: seq<State>, i: nat, n: nat, c: CallId)
    requires i < n < |states| && c in states[n].calls
  {
    match states[n].calls[c]
    case Reading => true
    case Joining(stamp) => exists r: nat :: i < r <= n && states[r].cache == Cache("", stamp)
    case Waiting(f) =>
      && f in states[n].flights
      && exists r: nat :: i < r <= n && states[r].cache == Cache("", states[n].flights[f].generation)
    case Returned(Ok(key)) => key != "" && exists m: nat :: i < m <= n && states[m].cache.key == key
    case Returned(Error) => true
  }

  lemma {:induction false} CallPastOf(states: seq<State>, steps: seq<Step>, i: nat, n: nat, c: CallId)
    requires IsRun(states, steps) && i < n <= |steps| && steps[i] == Start(c)
    ensures c in states[n].calls && CallPast(states, i, n, c)
  {
    if n == i + 1 {
    } else {
      CallPastOf(states, steps, i, n - 1, c);
      CallAfterStep(states, steps, i, n - 1, c);
    }
  }

  lemma CallAfterStep(states: seq<State>, steps: seq<Step>, i: nat, n: nat, c: CallId)
    requires IsRun(states, steps) && i < n < |steps| && c in states[n].calls && CallPast(states, i, n, c)
    ensures c in states[n + 1].calls && CallPast(states, i, n + 1, c)
  {
    var s, s' := states[n], states[n + 1];
    if s'.calls[c] == s.calls[c] {
      StillWaiting(s, steps[n], c);
    } else if steps[n].Join? {
      InvAlways(states, steps, n);
      var r: nat :| i < r <= n && states[r].cache == Cache("", s.calls[c].generation);
    } else if steps[n].Receive? {
      CallReceives(states, steps, i, n, c);
    }
  }

  lemma StillWaiting(s: State, step: Step, c: CallId)
    requires Enabled(s, step) && c in s.calls
    ensures c in Apply(s, step).calls
    ensures s.calls[c].Waiting? && s.calls[c].flight in s.flights ==>
              && s.calls[c].flight in Apply(s, step).flights
              && Apply(s, step).flights[s.calls[c].flight].generation == s.flights[s.calls[c].flight].generation
  {
  }

  lemma CallReceives(states: seq<State>, steps: seq<Step>, i: nat, n: nat, c: CallId)
    requires IsRun(states, steps) && i < n < |steps| && c in states[n].calls && CallPast(states, i, n, c)
    requires steps[n] == Receive(c)
    ensures c in states[n + 1].calls && CallPast(states, i, n + 1, c)
  {
    var s := states[n];
    var f := s.calls[c].flight;
    var r: nat :| i < r <= n && states[r].cache == Cache("", s.flights[f].generation);
    var reply := s.flights[f].stage.reply;
    if reply.Key? && TrimSpace(reply.key) != "" {
      PastOf(states, steps, n);
      assert FlightPast(states, steps, n, f, s.flights[f]);
      var m: nat :| m <= n && CachedAt(states, m, reply.key, s.flights[f].generation);
      if m <= r {
        CacheMovesForward(states, steps, m, r);
        assert false;
      }
    }
  }

  lemma InvalidateAdvances(states: seq<State>, steps: seq<Step>, p: nat)
    requires IsRun(states, steps) && p < |steps| && steps[p] == Invalidate
    ensures states[p + 1].cache == states[p].cache.Invalidated()
  {
  }

  /******* The promises of `APIKey` and `Invalidate` *******/

  /**
   A key that `APIKey` returns was the cached key at an instant `m` inside the call, and the
   fetch that produced it began, at step `t`, after every `Invalidate` that preceded the call.
   */
  lemma ReturnedKeyIsCurrentAndFresh(states: seq<State>, steps: seq<Step>, i: nat, j: nat, c: CallId, key: string)
    returns (m: nat, t: nat, e: nat, f: FlightId)
    requires IsRun(states, steps) && i < j <= |steps| && steps[i] == Start(c)
    requires c in states[j].calls && states[j].calls[c] == Returned(Ok(key))
    ensures i < m <= j && states[m].cache.key == key
    ensures e < m && Fetches(steps, t, e, f, key)
    ensures forall p | 0 <= p < i && steps[p] == Invalidate :: p < t
  {
    hide Apply, Enabled;
    CallPastOf(states, steps, i, j, c);
    m :| i < m <= j && states[m].cache.key == key;
    PastOf(states, steps, m);
    t, e, f :| e < m && Fetches(steps, t, e, f, key) && states[t].cache.generation == states[m].cache.generation;
    forall p | 0 <= p < i && steps[p] == Invalidate ensures p < t {
      if t <= p {
        InvalidateAdvances(states, steps, p);
        CacheMovesForward(states, steps, t, p);
        CacheMovesForward(states, steps, p + 1, m);
        assert false;
      }
    }
  }

  /** The rejection of blank replies in `APIKey` never fires: a returned key is not blank. */
  lemma {:induction false} NoBlankReply(states: seq<State>, steps: seq<Step>, n: nat, c: CallId)
    requires IsRun(states, steps) && n < |steps| && steps[n] == Receive(c)
    requires states[n].flights[states[n].calls[c].flight].stage.reply.Key?
    ensures states[n + 1].calls[c] == Returned(Ok(states[n].flights[states[n].calls[c].flight].stage.reply.key))
  {
    InvAlways(states, steps, n);
  }

  predicate Installs(s: State, step: Step)
    requires Enabled(s, step)
  {
    step.Settle? && s.flights[step.flight].generation == s.cache.generation
  }

  /** Two installing steps never share a generation. */
  lemma OneInstallPerGeneration(states: seq<State>, steps: seq<Step>, a: nat, b: nat)
    requires IsRun(states, steps) && a < b < |steps|
    requires Installs(states[a], steps[a]) && Installs(states[b], steps[b])
    ensures states[a].cache.generation < states[b].cache.generation
  {
    InvAlways(states, steps, a);
    InvAlways(states, steps, b);
    CacheMovesForward(states, steps, a + 1, b);
    assert states[a + 1].cache.key != "";
  }

  /** How many of `steps[i..n]` are equal to `step`. */
  function Count(steps: seq<Step>, i: nat, n: nat, step: Step): nat
    requires i <= n <= |steps|
  {
    if n == i then 0 else Count(steps, i, n - 1, step) + (if steps[n - 1] == step then 1 else 0)
  }

  lemma {:induction false} GenerationCountsInvalidates(states: seq<State>, steps: seq<Step>, i: nat, n: nat)
    requires IsRun(states, steps) && i <= n <= |steps|
    ensures states[n].cache.generation == states[i].cache.generation + Count(steps, i, n, Invalidate)
  {
    if i < n {
      GenerationCountsInvalidates(states, steps, i, n - 1);
    }
  }

  /** An upper bound for the reads of one call that also says when the next one may come. */
  ghost function ReadLimit(s: State, c: CallId, first: nat): int
    requires c in s.calls && (s.calls[c].Waiting? ==> s.calls[c].flight in s.flights)
  {
    match s.calls[c]
    case Reading => s.cache.generation - first
    case Joining(stamp) => 1 + stamp - first
    case Waiting(f) => 1 + s.flights[f].generation - first
    case Returned(_) => 1 + s.cache.generation - first
  }

  lemma LimitStep(s: State, step: Step, c: CallId, first: nat)
    requires SingleFlight(s) && Stamped(s) && Enabled(s, step) && c in s.calls && Stamped(Apply(s, step))
    ensures c in Apply(s, step).calls
    ensures ReadLimit(s, c, first) + (if step == Read(c) then 1 else 0) <= ReadLimit(Apply(s, step), c, first)
  {
    StillWaiting(s, step, c);
    hide TrimSpace;
    if step.Join? && step.call == c {
      assert step.flight in s.flights ==> s.flights[step.flight].generation == s.calls[c].generation;
    } else {
      hide SingleFlight;
    }
  }

  lemma {:induction false} ReadsWithinLimit(states: seq<State>, steps: seq<Step>, i: nat, n: nat, c: CallId)
    requires IsRun(states, steps) && i < n <= |steps| && steps[i] == Start(c)
    ensures Inv(states[n]) && c in states[n].calls
    ensures Count(steps, i, n, Read(c)) <= ReadLimit(states[n], c, states[i].cache.generation)
  {
    InvAlways(states, steps, n);
    if n > i + 1 {
      hide Apply, Enabled;
      ReadsWithinLimit(states, steps, i, n - 1, c);
      LimitStep(states[n - 1], steps[n - 1], c, states[i].cache.generation);
    }
  }

  /** One call reads the cache at most once more than there are `Invalidate`s since it started. */
  lemma IterationsBoundedByInvalidates(states: seq<State>, steps: seq<Step>, i: nat, n: nat, c: CallId)
    requires IsRun(states, steps) && i < n <= |steps| && steps[i] == Start(c)
    ensures Count(steps, i, n, Read(c)) <= 1 + Count(steps, i, n, Invalidate)
  {
    ReadsWithinLimit(states, steps, i, n, c);
    GenerationCountsInvalidates(states, steps, i, n);
  }

  /** Each iteration of one call reads a strictly larger generation than the one before. */
  lemma IterationsReadLargerGenerations(states: seq<State>, steps: seq<Step>, a: nat, b: nat, c: CallId)
    requires IsRun(states, steps) && a < b < |steps| && steps[a] == steps[b] == Read(c)
    ensures states[a].cache.generation < states[b].cache.generation
  {
    LimitSinceRead(states, steps, a, b, c);
  }

  /** From the moment a call has read some generation, its next read is due in a later one. */
  lemma {:induction false} LimitSinceRead(states: seq<State>, steps: seq<Step>, a: nat, n: nat, c: CallId)
    requires IsRun(states, steps) && a < n <= |steps| && steps[a] == Read(c)
    ensures Inv(states[n]) && c in states[n].calls
    ensures 1 <= ReadLimit(states[n], c, states[a].cache.generation)
  {
    hide Apply;
    InvAlways(states, steps, n);
    InvAlways(states, steps, n - 1);
    if n > a + 1 {
      LimitSinceRead(states, steps, a, n - 1, c);
    }
    LimitStep(states[n - 1], steps[n - 1], c, states[a].cache.generation);
  }
}
