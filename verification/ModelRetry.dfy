/**
 How the model clients use the ARK token provider: resolve a key, send, and after an
 authentication failure invalidate the key, resolve again and send once more.

 `ArkClientCache` holds the client that `arkModel` keeps between requests. The state
 machine runs any number of requests, of both clients, over one provider: its runs
 project step by step onto runs of the provider.
 */
module ModelRetry {
  import opened Options
  import opened Text
  import ArkToken

  /** A client of the ARK SDK, known by the key it was built from. */
  datatype Client = Client(builtFrom: string)

  /** The fields of `arkModel` guarded by `clientMu`. */
  datatype Slot = Slot(client: Option<Client>, clientKey: string) {
    /** The cached client, if any, is the one built from the recorded key. */
    predicate Valid() {
      client.Some? ==> client.value.builtFrom == clientKey
    }

    function Bound(key: string): Slot {
      if client.None? || clientKey != key then Slot(Some(Client(key)), key) else this
    }

    function Dropped(key: string): Slot {
      if clientKey == key then Slot(None, "") else this
    }
  }

  class ArkClientCache {
    var client: Option<Client>
    var clientKey: string

    constructor ()
      ensures Value() == Slot(None, "") && Value().Valid()
    {
      client, clientKey := None, "";
    }

    function Value(): Slot
      reads this
    {
      Slot(client, clientKey)
    }

    method ClientForRequest(key: string) returns (c: Client)
      requires Value().Valid()
      modifies this
      ensures c.builtFrom == key
      ensures Value() == old(Value()).Bound(key) && Value().Valid()
    {
      if client.None? || clientKey != key {
        client := Some(Client(key));
        clientKey := key;
      }
      c := client.value;
    }

    method InvalidateClient(key: string)
      requires Value().Valid()
      modifies this
      ensures Value() == old(Value()).Dropped(key) && Value().Valid()
    {
      if clientKey == key {
        client := None;
        clientKey := "";
      }
    }
  }

  predicate IsAuthStatus(status: nat) {
    status == 401 || status == 403
  }

  /******* Requests over a shared provider *******/

  type RequestId = nat

  datatype Kind = Ark | OpenAI

  /** Where a request stands; `key` was resolved, `sendKey` is what goes over the wire. */
  datatype Stage =
    | Resolving(attempt: nat, call: ArkToken.CallId)
    | Ready(attempt: nat, key: string, sendKey: string)
    | Sent(attempt: nat, key: string)
    | Rejected(key: string)       // authentication failure of the first attempt
    | Invalidated(key: string)    // the provider has dropped its key
    | Retrying                    // the model has dropped its client as well
    | Finished

  datatype Request = Request(kind: Kind, stage: Stage)

  datatype State = State(provider: ArkToken.State, slot: Slot, requests: map<RequestId, Request>)

  const INITIAL := State(ArkToken.INITIAL, Slot(None, ""), map[])

  datatype Step =
    | Provider(step: ArkToken.Step)
    | Begin(request: RequestId, kind: Kind, call: ArkToken.CallId)
    | Resolve(request: RequestId)
    | Send(request: RequestId)
    | Reply(request: RequestId, status: nat)
    | InvalidateKey(request: RequestId)
    | DropClient(request: RequestId)
    | Retry(request: RequestId, call: ArkToken.CallId)

  /** What a step means to the provider. */
  function ForProvider(step: Step): ArkToken.Step {
    match step
    case Provider(p) => p
    case Begin(_, _, c) => ArkToken.Start(c)
    case Retry(_, c) => ArkToken.Start(c)
    case InvalidateKey(_) => ArkToken.Invalidate
    case _ => ArkToken.Elsewhere
  }

  predicate Enabled(s: State, step: Step) {
    && ArkToken.Enabled(s.provider, ForProvider(step))
    && match step
       case Provider(_) => true
       case Begin(r, _, _) => r !in s.requests
       case Resolve(r) =>
         && r in s.requests && s.requests[r].stage.Resolving?
         && s.requests[r].stage.call in s.provider.calls
         && s.provider.calls[s.requests[r].stage.call].Returned?
       case Send(r) => r in s.requests && s.requests[r].stage.Ready?
       case Reply(r, _) => r in s.requests && s.requests[r].stage.Sent?
       case InvalidateKey(r) => r in s.requests && s.requests[r].stage.Rejected?
       case DropClient(r) => r in s.requests && s.requests[r].stage.Invalidated?
       case Retry(r, _) => r in s.requests && s.requests[r].stage.Retrying?
  }

  function WithStage(s: State, r: RequestId, stage: Stage): State
    requires r in s.requests
  {
    s.(requests := s.requests[r := s.requests[r].(stage := stage)])
  }

  /** What a request does with the outcome of its `APIKey` call. */
  function Resolved(s: State, r: RequestId, attempt: nat, outcome: ArkToken.Outcome): State
    requires r in s.requests
  {
    match outcome
    case Error => WithStage(s, r, Finished)
    case Ok(key) =>
      if TrimSpace(key) == "" then WithStage(s, r, Finished)
      else if s.requests[r].kind.OpenAI? then WithStage(s, r, Ready(attempt, key, key))
      else
        var slot := s.slot.Bound(key);
        WithStage(s, r, Ready(attempt, key, slot.client.value.builtFrom)).(slot := slot)
  }

  function Move(s: State, step: Step): State
    requires Enabled(s, step)
  {
    match step
    case Provider(_) => s
    case Begin(r, kind, c) => s.(requests := s.requests[r := Request(kind, Resolving(1, c))])
    case Resolve(r) =>
      var Resolving(attempt, c) := s.requests[r].stage;
      Resolved(s, r, attempt, s.provider.calls[c].outcome)
    case Send(r) => WithStage(s, r, Sent(s.requests[r].stage.attempt, s.requests[r].stage.key))
    case Reply(r, status) =>
      var Sent(attempt, key) := s.requests[r].stage;
      WithStage(s, r, if attempt == 1 && IsAuthStatus(status) then Rejected(key) else Finished)
    case InvalidateKey(r) => WithStage(s, r, Invalidated(s.requests[r].stage.key))
    case DropClient(r) =>
      var slot := if s.requests[r].kind.Ark? then s.slot.Dropped(s.requests[r].stage.key) else s.slot;
      WithStage(s, r, Retrying).(slot := slot)
    case Retry(r, c) => WithStage(s, r, Resolving(2, c))
  }

  function Apply(s: State, step: Step): State
    requires Enabled(s, step)
  {
    Move(s, step).(provider := ArkToken.Apply(s.provider, ForProvider(step)))
  }

  ghost predicate IsRun(states: seq<State>, steps: seq<Step>) {
    && |states| == |steps| + 1
    && states[0] == INITIAL
    && forall i :: 0 <= i < |steps| ==> Enabled(states[i], steps[i]) && states[i + 1] == Apply(states[i], steps[i])
  }

  function Providers(states: seq<State>): (r: seq<ArkToken.State>) {
    seq(|states|, i requires 0 <= i < |states| => states[i].provider)
  }

  function ProviderSteps(steps: seq<Step>): (r: seq<ArkToken.Step>) {
    seq(|steps|, i requires 0 <= i < |steps| => ForProvider(steps[i]))
  }

  /** Seen from the provider, a run of requests is a run of the provider. */
  lemma ProjectsToProvider(states: seq<State>, steps: seq<Step>)
    requires IsRun(states, steps)
    ensures ArkToken.IsRun(Providers(states), ProviderSteps(steps))
  {
    hide Move, ArkToken.Apply, ArkToken.Enabled;
    var ps, qs := Providers(states), ProviderSteps(steps);
    forall i | 0 <= i < |qs| ensures ArkToken.Enabled(ps[i], qs[i]) && ps[i + 1] == ArkToken.Apply(ps[i], qs[i]) {
      assert Enabled(states[i], steps[i]) && states[i + 1] == Apply(states[i], steps[i]);
    }
  }

  /******* The client is the one for the key *******/

  /** The cached client matches the recorded key, and every request sends the key it resolved. */
  ghost predicate Inv(s: State) {
    && s.slot.Valid()
    && forall r <- s.requests :: s.requests[r].stage.Ready? ==> s.requests[r].stage.sendKey == s.requests[r].stage.key
  }

  lemma {:induction false} ClientMatchesKey(states: seq<State>, steps: seq<Step>, n: nat)
    requires IsRun(states, steps) && n <= |steps|
    ensures Inv(states[n])
  {
    hide ArkToken.Apply, ArkToken.Enabled;
    if n > 0 {
      ClientMatchesKey(states, steps, n - 1);
    }
  }

  /******* At most two sends, and the second one with a fresh key *******/

  function Sends(steps: seq<Step>, n: nat, r: RequestId): nat
    requires n <= |steps|
  {
    if n == 0 then 0 else Sends(steps, n - 1, r) + (if steps[n - 1] == Send(r) then 1 else 0)
  }

  /** The most sends a request can have behind it in a given stage. */
  function Budget(stage: Stage): int {
    match stage
    case Resolving(attempt, _) => attempt - 1
    case Ready(attempt, _, _) => attempt - 1
    case Sent(attempt, _) => attempt
    case Rejected(_) => 1
    case Invalidated(_) => 1
    case Retrying => 1
    case Finished => 2
  }

  predicate FirstOrSecond(stage: Stage) {
    stage.Resolving? || stage.Ready? || stage.Sent? ==> stage.attempt in {1, 2}
  }

  lemma BudgetStep(s: State, step: Step, r: RequestId)
    requires Enabled(s, step)
    ensures r in s.requests && FirstOrSecond(s.requests[r].stage) ==>
              && r in Apply(s, step).requests && FirstOrSecond(Apply(s, step).requests[r].stage)
              && Budget(s.requests[r].stage) + (if step == Send(r) then 1 else 0)
                 <= Budget(Apply(s, step).requests[r].stage)
    ensures r !in s.requests && r in Apply(s, step).requests ==>
              FirstOrSecond(Apply(s, step).requests[r].stage) && Budget(Apply(s, step).requests[r].stage) == 0
  {
    hide ArkToken.Apply, ArkToken.Enabled;
  }

  lemma {:induction false} SendsWithinBudget(states: seq<State>, steps: seq<Step>, n: nat, r: RequestId)
    requires IsRun(states, steps) && n <= |steps|
    ensures r !in states[n].requests ==> Sends(steps, n, r) == 0
    ensures r in states[n].requests ==>
              FirstOrSecond(states[n].requests[r].stage) && Sends(steps, n, r) <= Budget(states[n].requests[r].stage)
  {
    hide Move, ArkToken.Apply, ArkToken.Enabled;
    if n > 0 {
      SendsWithinBudget(states, steps, n - 1, r);
      BudgetStep(states[n - 1], steps[n - 1], r);
    }
  }

  /** However the server answers, a request is sent at most twice. */
  lemma AtMostTwoSends(states: seq<State>, steps: seq<Step>, r: RequestId)
    requires IsRun(states, steps)
    ensures Sends(steps, |steps|, r) <= 2
  {
    SendsWithinBudget(states, steps, |steps|, r);
  }

  /** Steps `x` and `p`: after its send `a`, request `r` was refused and then invalidated the key. */
  ghost predicate Refused(steps: seq<Step>, r: RequestId, a: nat, x: nat, p: nat) {
    && a < x < p < |steps|
    && steps[x].Reply? && steps[x].request == r && IsAuthStatus(steps[x].status)
    && steps[p] == InvalidateKey(r)
  }

  ghost predicate KeyReturned(states: seq<State>, j: nat, c: ArkToken.CallId, key: string) {
    j < |states| && c in states[j].provider.calls && states[j].provider.calls[c] == ArkToken.Returned(ArkToken.Ok(key))
  }

  /** After the refusal, step `i` starts the second `APIKey` call `c`, which has returned `key` by instant `j`. */
  ghost predicate Renewed(states: seq<State>, steps: seq<Step>, r: RequestId, a: nat, x: nat, p: nat, i: nat, j: nat,
                          c: ArkToken.CallId, key: string) {
    p < i < j <= |steps| && Refused(steps, r, a, x, p) && steps[i] == Retry(r, c) && KeyReturned(states, j, c, key)
  }

  /** What the stage of request `r`, once sent by step `a`, says about the steps since. */
  ghost predicate SincePast(states: seq<State>, steps: seq<Step>, a: nat, n: nat, r: RequestId, stage: Stage) {
    match stage
    case Resolving(_, c) =>
      && stage.attempt == 2
      && exists x: nat, p: nat, i: nat :: p < i < n <= |steps| && Refused(steps, r, a, x, p) && steps[i] == Retry(r, c)
    case Ready(_, key, _) =>
      exists x: nat, p: nat, i: nat, j: nat, c :: j < n && Renewed(states, steps, r, a, x, p, i, j, c, key)
    case Sent(_, _) => true
    case Rejected(_) =>
      exists x: nat :: a < x < n <= |steps| && steps[x].Reply? && steps[x].request == r && IsAuthStatus(steps[x].status)
    case Invalidated(_) => exists x: nat, p: nat :: p < n && Refused(steps, r, a, x, p)
    case Retrying => exists x: nat, p: nat :: p < n && Refused(steps, r, a, x, p)
    case Finished => true
  }

  lemma {:induction false} SincePastOf(states: seq<State>, steps: seq<Step>, a: nat, n: nat, r: RequestId)
    requires IsRun(states, steps) && a < n <= |steps| && steps[a] == Send(r)
    ensures r in states[n].requests && SincePast(states, steps, a, n, r, states[n].requests[r].stage)
  {
    hide ArkToken.Apply, ArkToken.Enabled;
    if n == a + 1 {
      assert states[n] == Apply(states[a], steps[a]);
    } else {
      SincePastOf(states, steps, a, n - 1, r);
      SincePastStep(states, steps, a, n - 1, r);
    }
  }

  lemma StillSince(states: seq<State>, steps: seq<Step>, a: nat, n: nat, r: RequestId, stage: Stage)
    requires n < |steps| && SincePast(states, steps, a, n, r, stage)
    ensures SincePast(states, steps, a, n + 1, r, stage)
  {
  }

  lemma SincePastStep(states: seq<State>, steps: seq<Step>, a: nat, n: nat, r: RequestId)
    requires IsRun(states, steps) && a < n < |steps|
    requires r in states[n].requests && SincePast(states, steps, a, n, r, states[n].requests[r].stage)
    ensures r in states[n + 1].requests && SincePast(states, steps, a, n + 1, r, states[n + 1].requests[r].stage)
  {
    hide ArkToken.Apply, ArkToken.Enabled, SincePast;
    assert Enabled(states[n], steps[n]) && states[n + 1] == Apply(states[n], steps[n]);
    hide IsRun;
    if states[n + 1].requests[r].stage == states[n].requests[r].stage {
      StillSince(states, steps, a, n, r, states[n].requests[r].stage);
    } else {
      MovedSince(states[n], states, steps, a, n, r);
    }
  }

  lemma MovedSince(s: State, states: seq<State>, steps: seq<Step>, a: nat, n: nat, r: RequestId)
    requires a < n < |steps| && n < |states| && s == states[n]
    requires Enabled(s, steps[n]) && r in s.requests && SincePast(states, steps, a, n, r, s.requests[r].stage)
    requires steps[n].Provider? || steps[n].Begin? || steps[n].request == r
    ensures SincePast(states, steps, a, n + 1, r, Apply(s, steps[n]).requests[r].stage)
  {
    hide ArkToken.Apply, ArkToken.Enabled;
    var stage := s.requests[r].stage;
    match steps[n]
    case Resolve(_) =>
      var stage' := Apply(s, steps[n]).requests[r].stage;
      if stage'.Ready? {
        var x: nat, p: nat, i: nat :| p < i < n && Refused(steps, r, a, x, p) && steps[i] == Retry(r, stage.call);
        assert Renewed(states, steps, r, a, x, p, i, n, stage.call, stage'.key);
      }
    case InvalidateKey(_) =>
      var x: nat :| a < x < n && steps[x].Reply? && steps[x].request == r && IsAuthStatus(steps[x].status);
      assert Refused(steps, r, a, x, n);
    case Retry(_, c) =>
      var x: nat, p: nat :| p < n && Refused(steps, r, a, x, p);
    case _ =>
  }

  /** The second send is ready only after a refusal, an invalidation and a second key. */
  lemma SecondSend(states: seq<State>, steps: seq<Step>, a: nat, b: nat, r: RequestId)
    returns (x: nat, p: nat, i: nat, j: nat, c: ArkToken.CallId)
    requires IsRun(states, steps) && a < b < |steps| && steps[a] == steps[b] == Send(r)
    ensures r in states[b].requests && states[b].requests[r].stage.Ready?
    ensures j < b && Renewed(states, steps, r, a, x, p, i, j, c, states[b].requests[r].stage.sendKey)
  {
    hide Move, ArkToken.Apply, ArkToken.Enabled;
    assert Enabled(states[b], steps[b]);
    hide IsRun, Enabled;
    SincePastOf(states, steps, a, b, r);
    ClientMatchesKey(states, steps, b);
    var key := states[b].requests[r].stage.key;
    x, p, i, j, c :| j < b && Renewed(states, steps, r, a, x, p, i, j, c, key);
  }

  /**
   The second send of a request happens after an authentication failure `x` of the first,
   and carries a key whose fetch began, at step `t`, after that failure.
   */
  lemma RetryKeyIsFresh(states: seq<State>, steps: seq<Step>, a: nat, b: nat, r: RequestId)
    returns (x: nat, t: nat, e: nat, f: ArkToken.FlightId)
    requires IsRun(states, steps) && a < b < |steps| && steps[a] == steps[b] == Send(r)
    ensures a < x < t < e < b && steps[x].Reply? && steps[x].request == r && IsAuthStatus(steps[x].status)
    ensures r in states[b].requests && states[b].requests[r].stage.Ready?
    ensures steps[t] == Provider(ArkToken.BeginFetch(f))
    ensures steps[e] == Provider(ArkToken.EndFetch(f, true, states[b].requests[r].stage.sendKey))
  {
    hide Enabled, Move, ArkToken.IsRun, ArkToken.Apply, ArkToken.Enabled;
    var p, i, j, c, m;
    x, p, i, j, c := SecondSend(states, steps, a, b, r);
    ProjectsToProvider(states, steps);
    var ps, qs := Providers(states), ProviderSteps(steps);
    assert qs[p] == ArkToken.Invalidate && qs[i] == ArkToken.Start(c);
    m, t, e, f := ArkToken.ReturnedKeyIsCurrentAndFresh(ps, qs, i, j, c, states[b].requests[r].stage.sendKey);
  }
}
