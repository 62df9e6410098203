/**
 The auto-save plugin: after every run it sends the events that a session has gained to
 long-term memory, and remembers in `savedEventCounts` how far it has got.

 A callback has two critical sections with the save between them, so callbacks interleave.
 Sessions are append-only; a callback sees some beginning of its session's events.
 */
module AutoSave {
  import opened Options
  import opened Sequences
  import Paths

  type Key = string
  type Event = nat
  type CallbackId = nat

  /** The map key of a session: application, user and session ID, separated by NUL. */
  function KeyOf(app: string, user: string, id: string): Key {
    Paths.Join([app, user, id], '\0')
  }

  /** Sessions do not share a key as long as no name contains the separator. */
  lemma KeysAreUnique(app: string, user: string, id: string, app': string, user': string, id': string)
    requires '\0' !in app + user + id && '\0' !in app' + user' + id'
    requires KeyOf(app, user, id) == KeyOf(app', user', id')
    ensures (app, user, id) == (app', user', id')
  {
    forall p <- [app, user, id] ensures '\0' !in p {
      assert forall c <- p :: c in app + user + id;
    }
    forall p <- [app', user', id'] ensures '\0' !in p {
      assert forall c <- p :: c in app' + user' + id';
    }
    Paths.SplitJoin([app, user, id], '\0');
    Paths.SplitJoin([app', user', id'], '\0');
    assert [app, user, id][0] == [app', user', id'][0] && [app, user, id][1] == [app', user', id'][1];
    assert [app, user, id][2] == [app', user', id'][2];
  }

  /******* The plugin's own state *******/

  type Counts = map<Key, nat>

  function CountOf(counts: Counts, key: Key): nat {
    if key in counts then counts[key] else 0
  }

  /** Where a callback that sees `current` events starts saving, if there is anything to save. */
  function StartOf(counts: Counts, key: Key, current: nat): Option<nat> {
    var start := if CountOf(counts, key) > current then 0 else CountOf(counts, key);
    if start == current then None else Some(start)
  }

  function Raised(counts: Counts, key: Key, current: nat): Counts {
    if CountOf(counts, key) < current then counts[key := current] else counts
  }

  /** `eventsFrom` */
  method EventsFrom(events: seq<Event>, start: int, end: int) returns (result: seq<Event>)
    ensures var lo, hi := if start < 0 then 0 else start, if end > |events| then |events| else end;
            result == if lo <= hi then events[lo..hi] else []
  {
    var lo := if start < 0 then 0 else start;
    var hi := if end > |events| then |events| else end;
    result := [];
    var i := lo;
    while i < hi
      invariant lo <= hi ==> lo <= i <= hi && result == events[lo..i]
      invariant lo > hi ==> i == lo && result == []
    {
      result := result + [events[i]];
      i := i + 1;
    }
  }

  class AutoSaver {
    var savedEventCounts: Counts

    constructor ()
      ensures savedEventCounts == map[]
    {
      savedEventCounts := map[];
    }

    /** The first critical section. */
    method Begin(key: Key, current: nat) returns (start: Option<nat>)
      ensures start == StartOf(savedEventCounts, key, current)
    {
      var from := if key in savedEventCounts then savedEventCounts[key] else 0;
      if from > current {
        from := 0;
      }
      if from == current {
        return None;
      }
      start := Some(from);
    }

    /** The second one. */
    method Commit(key: Key, current: nat)
      modifies this
      ensures savedEventCounts == Raised(old(savedEventCounts), key, current)
    {
      var saved := if key in savedEventCounts then savedEventCounts[key] else 0;
      if saved < current {
        savedEventCounts := savedEventCounts[key := current];
      }
    }

    /** A callback that nothing interrupts: whether there is a memory, and whether saving works, are input. */
    method AfterRun(key: Key, events: seq<Event>, memory: bool, works: bool) returns (saved: seq<Event>)
      modifies this
      ensures var start := StartOf(old(savedEventCounts), key, |events|);
              if start.None? || (memory && !works) then savedEventCounts == old(savedEventCounts) && saved == []
              else
                && savedEventCounts == Raised(old(savedEventCounts), key, |events|)
                && saved == if memory then events[start.value..] else []
    {
      saved := [];
      var start := Begin(key, |events|);
      if start.None? {
        return;
      }
      var gained := EventsFrom(events, start.value, |events|);
      if memory {
        if !works {
          return;
        }
        saved := gained;
      }
      Commit(key, |events|);
    }
  }

  /******* Interleaved callbacks *******/

  datatype Save = Save(key: Key, start: nat, events: seq<Event>)

  /** Between its critical sections a callback has something to save, and then has saved it or had no memory. */
  datatype Pc =
    | Saving(key: Key, start: nat, current: nat)
    | Committing(key: Key, start: nat, current: nat, saved: bool)
    | Ended

  /** `serial`: a callback only starts when no other one of its session is under way, and sees all events so far. */
  datatype State = State(
    serial: bool, events: map<Key, seq<Event>>, counts: Counts, callbacks: map<CallbackId, Pc>, saves: seq<Save>)

  function Initial(serial: bool): State {
    State(serial, map[], map[], map[], [])
  }

  function Log(s: State, key: Key): seq<Event> {
    if key in s.events then s.events[key] else []
  }

  /** `memory`: the plugin or the callback's context has a memory service. */
  datatype Step =
    | Append(key: Key, e: Event)
    | Enter(c: CallbackId, key: Key, view: nat)
    | SendOff(c: CallbackId, memory: bool, works: bool)
    | Finish(c: CallbackId)

  predicate UnderWay(s: State, c: CallbackId, key: Key) {
    c in s.callbacks && !s.callbacks[c].Ended? && s.callbacks[c].key == key
  }

  /** The bounds in the third case hold in every reachable state (`Inv`). */
  ghost predicate Enabled(s: State, step: Step) {
    match step
    case Append(_, _) => true
    case Enter(c, key, view) =>
      && c !in s.callbacks && view <= |Log(s, key)|
      && (s.serial ==> view == |Log(s, key)| && forall d <- s.callbacks :: !UnderWay(s, d, key))
    case SendOff(c, _, _) =>
      && c in s.callbacks && s.callbacks[c].Saving?
      && s.callbacks[c].start <= s.callbacks[c].current <= |Log(s, s.callbacks[c].key)|
    case Finish(c) => c in s.callbacks && s.callbacks[c].Committing?
  }

  ghost function Apply(s: State, step: Step): State
    requires Enabled(s, step)
  {
    match step
    case Append(key, e) => s.(events := s.events[key := Log(s, key) + [e]])
    case Enter(c, key, view) =>
      var start := StartOf(s.counts, key, view);
      s.(callbacks := s.callbacks[c := if start.None? then Ended else Saving(key, start.value, view)])
    case SendOff(c, memory, works) =>
      var pc := s.callbacks[c];
      if memory && !works then s.(callbacks := s.callbacks[c := Ended])
      else
        var save := Save(pc.key, pc.start, Log(s, pc.key)[pc.start..pc.current]);
        s.(callbacks := s.callbacks[c := Committing(pc.key, pc.start, pc.current, memory)],
           saves := if memory then s.saves + [save] else s.saves)
    case Finish(c) =>
      var pc := s.callbacks[c];
      s.(callbacks := s.callbacks[c := Ended], counts := Raised(s.counts, pc.key, pc.current))
  }

  ghost predicate IsRun(states: seq<State>, steps: seq<Step>, serial: bool) {
    && |states| == |steps| + 1
    && states[0] == Initial(serial)
    && forall i :: 0 <= i < |steps| ==> Enabled(states[i], steps[i]) && states[i + 1] == Apply(states[i], steps[i])
  }

  /******* What was saved *******/

  predicate Covers(s: State, save: Save, key: Key, i: nat) {
    && save.key == key && save.start <= i < save.start + |save.events| && i < |Log(s, key)|
    && save.events[i - save.start] == Log(s, key)[i]
  }

  /** Event `i` of a session was in some successful save. */
  ghost predicate Delivered(s: State, key: Key, i: nat) {
    exists save <- s.saves :: Covers(s, save, key, i)
  }

  ghost predicate DeliveredBelow(s: State, key: Key, n: nat) {
    forall i: nat :: i < n ==> Delivered(s, key, i)
  }

  /** The guarantee: every event below a watermark was saved. */
  ghost predicate AllDelivered(s: State) {
    forall key: Key :: DeliveredBelow(s, key, CountOf(s.counts, key))
  }

  /** The callback has saved event `i` and has not moved the watermark yet. */
  predicate HasSaved(pc: Pc, key: Key, i: nat) {
    pc.Committing? && pc.saved && pc.key == key && pc.start <= i < pc.current
  }

  ghost predicate SavedUnderWay(s: State, key: Key, i: nat) {
    exists c <- s.callbacks :: HasSaved(s.callbacks[c], key, i)
  }

  ghost predicate CallbackOk(s: State, pc: Pc) {
    match pc
    case Saving(key, start, current) => start < current <= |Log(s, key)| && start <= CountOf(s.counts, key)
    case Committing(key, start, current, saved) =>
      && start < current <= |Log(s, key)| && start <= CountOf(s.counts, key)
      && (saved ==> forall i: nat :: start <= i < current ==> Delivered(s, key, i))
    case Ended => true
  }

  ghost predicate CallbacksOk(s: State) {
    forall c <- s.callbacks :: CallbackOk(s, s.callbacks[c])
  }

  /** What was saved above the watermark was saved by a callback that is still to commit. */
  ghost predicate SaveOwned(s: State, save: Save) {
    forall i: nat :: save.start <= i < save.start + |save.events| ==>
      i < CountOf(s.counts, save.key) || SavedUnderWay(s, save.key, i)
  }

  ghost predicate Inv(s: State) {
    && CallbacksOk(s) && (forall save <- s.saves :: SaveOwned(s, save))
    && forall key: Key :: CountOf(s.counts, key) <= |Log(s, key)|
  }

  /** Sessions only grow, saves are never forgotten and the watermark never falls. */
  ghost predicate Grows(s: State, s': State) {
    && s'.serial == s.serial && s.saves <= s'.saves
    && (forall key: Key :: Log(s, key) <= Log(s', key) && CountOf(s.counts, key) <= CountOf(s'.counts, key))
  }

  lemma StepGrows(s: State, step: Step)
    requires Enabled(s, step)
    ensures Grows(s, Apply(s, step))
  {
    var s' := Apply(s, step);
    forall key: Key ensures Log(s, key) <= Log(s', key) && CountOf(s.counts, key) <= CountOf(s'.counts, key) {
    }
  }

  lemma DeliveredStays(s: State, s': State, key: Key, i: nat)
    requires Grows(s, s') && Delivered(s, key, i)
    ensures Delivered(s', key, i)
  {
    var save :| save in s.saves && Covers(s, save, key, i);
    assert Log(s', key)[i] == Log(s, key)[i];
    assert save in s'.saves && Covers(s', save, key, i);
  }

  lemma CallbackStaysOk(s: State, s': State, pc: Pc)
    requires Grows(s, s') && CallbackOk(s, pc)
    ensures CallbackOk(s', pc)
  {
    if pc.Committing? && pc.saved {
      forall i: nat | pc.start <= i < pc.current ensures Delivered(s', pc.key, i) {
        DeliveredStays(s, s', pc.key, i);
      }
    }
    hide Delivered;
  }

  lemma MovedCallbackOk(s: State, step: Step)
    requires Inv(s) && Enabled(s, step) && !step.Append?
    ensures CallbackOk(Apply(s, step), Apply(s, step).callbacks[step.c])
  {
    StepGrows(s, step);
    var s' := Apply(s, step);
    if step.SendOff? && step.memory && step.works {
      var pc := s.callbacks[step.c];
      assert CallbackOk(s, pc);
      var save := Save(pc.key, pc.start, Log(s, pc.key)[pc.start..pc.current]);
      assert save in s'.saves && Log(s', pc.key) == Log(s, pc.key);
      forall i: nat | pc.start <= i < pc.current ensures Delivered(s', pc.key, i) {
        assert Covers(s', save, pc.key, i);
      }
    }
    hide Delivered;
  }

  lemma StepKeepsCallbacks(s: State, step: Step)
    requires Inv(s) && Enabled(s, step)
    ensures CallbacksOk(Apply(s, step))
  {
    StepGrows(s, step);
    var s' := Apply(s, step);
    forall c <- s'.callbacks ensures CallbackOk(s', s'.callbacks[c]) {
      if !step.Append? && c == step.c {
        MovedCallbackOk(s, step);
      } else {
        CallbackStaysOk(s, s', s.callbacks[c]);
      }
      hide CallbackOk, Enabled;
    }
  }

  /** A callback that has saved an event goes on to have it saved until the watermark is above it. */
  lemma UnderWayStays(s: State, step: Step, key: Key, i: nat)
    requires Enabled(s, step) && SavedUnderWay(s, key, i)
    ensures i < CountOf(Apply(s, step).counts, key) || SavedUnderWay(Apply(s, step), key, i)
  {
    var s' := Apply(s, step);
    var c :| c in s.callbacks && HasSaved(s.callbacks[c], key, i);
    if !(step.Finish? && step.c == c) {
      assert c in s'.callbacks && HasSaved(s'.callbacks[c], key, i);
    }
  }

  lemma StepKeepsOwners(s: State, step: Step)
    requires Inv(s) && Enabled(s, step)
    ensures forall save <- Apply(s, step).saves :: SaveOwned(Apply(s, step), save)
  {
    StepGrows(s, step);
    var s' := Apply(s, step);
    forall save <- s'.saves, i: nat | save.start <= i < save.start + |save.events|
      ensures i < CountOf(s'.counts, save.key) || SavedUnderWay(s', save.key, i)
    {
      if save in s.saves {
        assert SaveOwned(s, save);
        if SavedUnderWay(s, save.key, i) {
          UnderWayStays(s, step, save.key, i);
        }
      } else {
        assert step.SendOff? && HasSaved(s'.callbacks[step.c], save.key, i);
      }
      hide SavedUnderWay;
    }
    hide SavedUnderWay;
  }

  lemma StepKeepsInv(s: State, step: Step)
    requires Inv(s) && Enabled(s, step)
    ensures Inv(Apply(s, step))
  {
    StepGrows(s, step);
    StepKeepsCallbacks(s, step);
    StepKeepsOwners(s, step);
    var s' := Apply(s, step);
    if step.Finish? {
      assert CallbackOk(s, s.callbacks[step.c]);
    }
    hide SaveOwned, CallbacksOk, Delivered;
    forall key: Key ensures CountOf(s'.counts, key) <= |Log(s', key)| {
    }
  }

  lemma InitialInv(serial: bool)
    ensures Inv(Initial(serial)) && AllDelivered(Initial(serial))
  {
  }

  lemma {:induction false} InvAlways(states: seq<State>, steps: seq<Step>, serial: bool, n: nat)
    requires IsRun(states, steps, serial) && n < |states|
    ensures Inv(states[n]) && states[n].serial == serial
  {
    hide Apply, Enabled, Inv;
    if n == 0 {
      InitialInv(serial);
    } else {
      InvAlways(states, steps, serial, n - 1);
      StepKeepsInv(states[n - 1], steps[n - 1]);
      StepGrows(states[n - 1], steps[n - 1]);
    }
  }

  /******* When every event below the watermark was saved *******/

  /** Above the watermark an event was saved exactly if a callback that is still to commit has saved it. */
  lemma AboveWatermark(s: State, key: Key, i: nat)
    requires Inv(s) && CountOf(s.counts, key) <= i
    ensures Delivered(s, key, i) <==> SavedUnderWay(s, key, i)
  {
    if Delivered(s, key, i) {
      var save :| save in s.saves && Covers(s, save, key, i);
      assert SaveOwned(s, save);
    }
    if SavedUnderWay(s, key, i) {
      var c :| c in s.callbacks && HasSaved(s.callbacks[c], key, i);
      assert CallbackOk(s, s.callbacks[c]);
    }
  }

  /** A callback that had no memory to save to commits. */
  predicate CommitsUnsaved(s: State, step: Step) {
    step.Finish? && step.c in s.callbacks && s.callbacks[step.c].Committing? && !s.callbacks[step.c].saved
  }

  /** It moves the watermark over events that no other callback has saved. */
  ghost predicate Skips(s: State, step: Step) {
    && CommitsUnsaved(s, step)
    && exists i: nat ::
         CountOf(s.counts, s.callbacks[step.c].key) <= i < s.callbacks[step.c].current
         && !SavedUnderWay(s, s.callbacks[step.c].key, i)
  }

  lemma StepDeliversExactly(s: State, step: Step)
    requires Inv(s) && AllDelivered(s) && Enabled(s, step)
    ensures AllDelivered(Apply(s, step)) <==> !Skips(s, step)
  {
    var s' := Apply(s, step);
    StepGrows(s, step);
    if step.Finish? {
      var pc := s.callbacks[step.c];
      assert CallbackOk(s, pc);
      assert s'.saves == s.saves && s'.events == s.events;
      forall i: nat ensures Delivered(s', pc.key, i) == Delivered(s, pc.key, i) {
        SameSaves(s, s', pc.key, i);
      }
      forall i: nat | CountOf(s.counts, pc.key) <= i ensures Delivered(s, pc.key, i) == SavedUnderWay(s, pc.key, i) {
        AboveWatermark(s, pc.key, i);
      }
      hide Delivered, SavedUnderWay, Inv;
      assert DeliveredBelow(s, pc.key, CountOf(s.counts, pc.key));
      if Skips(s, step) {
        var i: nat :| CountOf(s.counts, pc.key) <= i < pc.current && !SavedUnderWay(s, pc.key, i);
        assert !Delivered(s', pc.key, i);
        assert !DeliveredBelow(s', pc.key, CountOf(s'.counts, pc.key));
      } else {
        OtherKeysDelivered(s, step, pc.key);
        forall i: nat | i < CountOf(s'.counts, pc.key) ensures Delivered(s', pc.key, i) {
          assert i < CountOf(s.counts, pc.key) ==> Delivered(s, pc.key, i);
        }
      }
    } else {
      hide Inv;
      forall key: Key, i: nat | i < CountOf(s'.counts, key) ensures Delivered(s', key, i) {
        assert DeliveredBelow(s, key, CountOf(s.counts, key));
        DeliveredStays(s, s', key, i);
      }
    }
  }

  lemma SameSaves(s: State, s': State, key: Key, i: nat)
    requires s'.saves == s.saves && s'.events == s.events
    ensures Delivered(s', key, i) == Delivered(s, key, i)
  {
    assert forall save :: Covers(s', save, key, i) == Covers(s, save, key, i);
  }

  lemma OtherKeysDelivered(s: State, step: Step, except: Key)
    requires AllDelivered(s) && Enabled(s, step) && step.Finish? && s.callbacks[step.c].key == except
    ensures forall key: Key :: key != except ==>
              DeliveredBelow(Apply(s, step), key, CountOf(Apply(s, step).counts, key))
  {
    var s' := Apply(s, step);
    StepGrows(s, step);
    forall key: Key, i: nat | key != except && i < CountOf(s'.counts, key) ensures Delivered(s', key, i) {
      assert DeliveredBelow(s, key, CountOf(s.counts, key));
      DeliveredStays(s, s', key, i);
    }
  }

  ghost predicate AlwaysDelivered(states: seq<State>, n: nat)
    requires n < |states|
  {
    forall m: nat :: m <= n ==> AllDelivered(states[m])
  }

  ghost predicate NeverSkips(states: seq<State>, steps: seq<Step>, n: nat)
    requires n <= |steps| < |states|
  {
    forall m: nat :: m < n ==> !Skips(states[m], steps[m])
  }

  /**
   Whatever overlaps and whatever saves fail, every event below a watermark has been saved at
   every instant, exactly if no callback that had no memory has moved the watermark over
   events that no callback under way had saved.
   */
  lemma {:induction false} DeliveredExactly(states: seq<State>, steps: seq<Step>, serial: bool, n: nat)
    requires IsRun(states, steps, serial) && n < |states|
    ensures AlwaysDelivered(states, n) <==> NeverSkips(states, steps, n)
  {
    hide Apply, Enabled, Inv, Skips, AllDelivered;
    if n == 0 {
      InitialInv(serial);
    } else {
      DeliveredExactly(states, steps, serial, n - 1);
      InvAlways(states, steps, serial, n - 1);
      if AlwaysDelivered(states, n - 1) {
        assert AllDelivered(states[n - 1]);
        StepDeliversExactly(states[n - 1], steps[n - 1]);
      }
      assert AlwaysDelivered(states, n) <==> AlwaysDelivered(states, n - 1) && AllDelivered(states[n]);
      assert NeverSkips(states, steps, n) <==> NeverSkips(states, steps, n - 1) && !Skips(states[n - 1], steps[n - 1]);
    }
  }

  /** The first `n` steps send off with a memory, or all of them without. */
  predicate SentOff(steps: seq<Step>, n: nat, memory: bool) {
    forall m :: 0 <= m < n <= |steps| && steps[m].SendOff? ==> steps[m].memory == memory
  }

  lemma {:induction false} SavedAsSentOff(states: seq<State>, steps: seq<Step>, serial: bool, n: nat, memory: bool)
    requires IsRun(states, steps, serial) && n < |states| && SentOff(steps, n, memory)
    ensures forall c <- states[n].callbacks ::
              states[n].callbacks[c].Committing? ==> states[n].callbacks[c].saved == memory
  {
    if n > 0 {
      SavedAsSentOff(states, steps, serial, n - 1, memory);
      assert Enabled(states[n - 1], steps[n - 1]) && states[n] == Apply(states[n - 1], steps[n - 1]);
      hide IsRun;
    }
  }

  /** With a memory at hand for every callback the guarantee holds in every run. */
  lemma MemoryDelivers(states: seq<State>, steps: seq<Step>, serial: bool, n: nat)
    requires IsRun(states, steps, serial) && n < |states| && SentOff(steps, n, true)
    ensures AllDelivered(states[n])
  {
    hide AllDelivered;
    DeliveredExactly(states, steps, serial, n);
    forall m: nat | m < n ensures !Skips(states[m], steps[m]) {
      SavedAsSentOff(states, steps, serial, m, true);
    }
  }

  ghost predicate Counted(s: State) {
    exists key: Key :: CountOf(s.counts, key) > 0
  }

  lemma StepCountsExactly(s: State, step: Step)
    requires Inv(s) && Enabled(s, step)
    ensures Counted(Apply(s, step)) <==> Counted(s) || step.Finish?
  {
    var s' := Apply(s, step);
    StepGrows(s, step);
    if step.Finish? {
      assert CallbackOk(s, s.callbacks[step.c]);
      assert CountOf(s'.counts, s.callbacks[step.c].key) > 0;
    } else {
      assert s'.counts == s.counts;
    }
    hide Inv, Apply, Enabled;
  }

  /** Some watermark has moved exactly if some callback has finished. */
  lemma {:induction false} CountedExactly(states: seq<State>, steps: seq<Step>, serial: bool, n: nat)
    requires IsRun(states, steps, serial) && n < |states|
    ensures Counted(states[n]) <==> exists m: nat :: m < n && steps[m].Finish?
  {
    hide Inv, Apply, Enabled;
    if n > 0 {
      hide Counted;
      CountedExactly(states, steps, serial, n - 1);
      InvAlways(states, steps, serial, n - 1);
      StepCountsExactly(states[n - 1], steps[n - 1]);
    }
  }

  lemma {:induction false} NothingSaved(states: seq<State>, steps: seq<Step>, serial: bool, n: nat)
    requires IsRun(states, steps, serial) && n < |states| && SentOff(steps, n, false)
    ensures states[n].saves == []
  {
    if n > 0 {
      NothingSaved(states, steps, serial, n - 1);
      assert Enabled(states[n - 1], steps[n - 1]) && states[n] == Apply(states[n - 1], steps[n - 1]);
      hide IsRun;
    }
  }

  /** With no memory at all it holds exactly as long as no callback has finished. */
  lemma NoMemoryDeliversExactly(states: seq<State>, steps: seq<Step>, serial: bool, n: nat)
    requires IsRun(states, steps, serial) && n < |states| && SentOff(steps, n, false)
    ensures AllDelivered(states[n]) <==> forall m: nat :: m < n ==> !steps[m].Finish?
  {
    NothingSaved(states, steps, serial, n);
    CountedExactly(states, steps, serial, n);
    hide IsRun, SentOff;
    var s := states[n];
    forall key: Key | CountOf(s.counts, key) > 0 ensures !DeliveredBelow(s, key, CountOf(s.counts, key)) {
      assert !Delivered(s, key, 0);
    }
  }

  /** And a run gets there: one callback without a memory counts an event that nobody saved. */
  lemma WatermarkMovesWithoutMemory(key: Key, e: Event) returns (states: seq<State>, steps: seq<Step>)
    ensures IsRun(states, steps, true) && |steps| > 0 && steps[|steps| - 1].Finish?
    ensures var s := states[|states| - 1]; Log(s, key) == [e] && CountOf(s.counts, key) == 1 && s.saves == []
  {
    var s0 := Initial(true);
    var s1 := s0.(events := map[key := [e]]);
    var s2 := s1.(callbacks := map[1 := Saving(key, 0, 1)]);
    var s3 := s1.(callbacks := map[1 := Committing(key, 0, 1, false)]);
    var s4 := s1.(callbacks := map[1 := Ended], counts := map[key := 1]);
    states := [s0, s1, s2, s3, s4];
    steps := [Append(key, e), Enter(1, key, 1), SendOff(1, false, true), Finish(1)];
    assert [] + [e] == [e];
    assert Enabled(s0, steps[0]) && s1 == Apply(s0, steps[0]);
    assert Enabled(s1, steps[1]) && s2 == Apply(s1, steps[1]);
    assert Enabled(s2, steps[2]) && s3 == Apply(s2, steps[2]);
    assert Enabled(s3, steps[3]) && s4 == Apply(s3, steps[3]);
    hide Apply, Enabled;
  }

  /** Serialized callbacks: one at a time for each session, starting at the watermark. */
  ghost predicate Orderly(s: State) {
    forall c <- s.callbacks :: !s.callbacks[c].Ended? ==>
      && s.callbacks[c].start == CountOf(s.counts, s.callbacks[c].key)
      && forall d <- s.callbacks :: UnderWay(s, d, s.callbacks[c].key) ==> d == c
  }

  lemma StepStaysOrderly(s: State, step: Step)
    requires Inv(s) && s.serial && Orderly(s) && Enabled(s, step)
    ensures Orderly(Apply(s, step))
  {
    hide SaveOwned, CallbacksOk;
  }

  lemma {:induction false} OrderlyAlways(states: seq<State>, steps: seq<Step>, n: nat)
    requires IsRun(states, steps, true) && n < |states|
    ensures Orderly(states[n])
  {
    if n > 0 {
      hide Apply, Enabled, Inv, Orderly;
      OrderlyAlways(states, steps, n - 1);
      InvAlways(states, steps, true, n - 1);
      StepStaysOrderly(states[n - 1], steps[n - 1]);
    }
  }

  lemma OrderlySkipsExactly(s: State, step: Step)
    requires Inv(s) && Orderly(s) && Enabled(s, step)
    ensures Skips(s, step) <==> CommitsUnsaved(s, step)
  {
    if CommitsUnsaved(s, step) {
      var pc := s.callbacks[step.c];
      assert CallbackOk(s, pc) && UnderWay(s, step.c, pc.key);
      if SavedUnderWay(s, pc.key, pc.start) {
        var d :| d in s.callbacks && HasSaved(s.callbacks[d], pc.key, pc.start);
        assert UnderWay(s, d, pc.key);
      }
    }
  }

  /** When callbacks are serialized it holds at every instant exactly if no callback without a memory has finished. */
  lemma SerialDeliversExactly(states: seq<State>, steps: seq<Step>, n: nat)
    requires IsRun(states, steps, true) && n < |states|
    ensures AlwaysDelivered(states, n) <==> forall m: nat :: m < n ==> !CommitsUnsaved(states[m], steps[m])
  {
    DeliveredExactly(states, steps, true, n);
    forall m: nat | m < n ensures Skips(states[m], steps[m]) <==> CommitsUnsaved(states[m], steps[m]) {
      OrderlyAlways(states, steps, m);
      InvAlways(states, steps, true, m);
      assert Enabled(states[m], steps[m]);
      OrderlySkipsExactly(states[m], steps[m]);
    }
    hide AlwaysDelivered;
  }

  /******* Exactly once, when callbacks are serialized *******/

  /** All that was saved for a session, in the order of the saves. */
  function Saved(saves: seq<Save>, key: Key): seq<Event> {
    if saves == [] then []
    else
      var before, save := Saved(saves[..|saves| - 1], key), saves[|saves| - 1];
      if save.key == key then before + save.events else before
  }

  lemma SavedSnoc(saves: seq<Save>, save: Save, key: Key)
    ensures Saved(saves + [save], key) == if save.key == key then Saved(saves, key) + save.events else Saved(saves, key)
  {
    assert (saves + [save])[..|saves|] == saves;
  }

  /** Exactly the first `n` events of the session were saved, each of them once and in order. */
  ghost predicate SavedExactly(s: State, key: Key, n: nat) {
    n <= |Log(s, key)| && Saved(s.saves, key) == Log(s, key)[..n]
  }

  /** What was saved so far for a session with the callback `c` under way. */
  ghost predicate OneUnderWay(s: State, c: CallbackId, key: Key)
    requires c in s.callbacks
  {
    && (forall d <- s.callbacks :: UnderWay(s, d, key) ==> d == c)
    && (s.callbacks[c].Saving? ==>
          s.callbacks[c].start == CountOf(s.counts, key) && SavedExactly(s, key, CountOf(s.counts, key)))
    && (s.callbacks[c].Committing? ==>
          && s.callbacks[c].saved && CountOf(s.counts, key) <= s.callbacks[c].current
          && SavedExactly(s, key, s.callbacks[c].current))
  }

  ghost predicate SerialFor(s: State, key: Key) {
    && (forall c <- s.callbacks :: UnderWay(s, c, key) ==> OneUnderWay(s, c, key))
    && ((forall c <- s.callbacks :: !UnderWay(s, c, key)) ==> SavedExactly(s, key, CountOf(s.counts, key)))
  }

  lemma EnterStaysSerial(s: State, step: Step)
    requires Inv(s) && s.serial && Enabled(s, step) && step.Enter? && SerialFor(s, step.key)
    ensures SerialFor(Apply(s, step), step.key)
  {
    var s' := Apply(s, step);
    assert s'.saves == s.saves && Log(s', step.key) == Log(s, step.key);
    assert SavedExactly(s', step.key, CountOf(s.counts, step.key));
    hide Saved, Inv;
  }

  /** A save that succeeds adds exactly the events that the callback saw and that were not saved yet. */
  lemma SaveAddsTheRest(s: State, step: Step)
    requires Enabled(s, step) && step.SendOff? && step.memory && step.works
    requires SavedExactly(s, s.callbacks[step.c].key, s.callbacks[step.c].start)
    ensures SavedExactly(Apply(s, step), s.callbacks[step.c].key, s.callbacks[step.c].current)
  {
    var pc := s.callbacks[step.c];
    var log := Log(s, pc.key);
    SavedSnoc(s.saves, Save(pc.key, pc.start, log[pc.start..pc.current]), pc.key);
    SlicesJoin(log, 0, pc.start, pc.current);
    assert log[0..pc.start] == log[..pc.start] && log[0..pc.current] == log[..pc.current];
  }

  lemma SendOffStaysSerial(s: State, step: Step)
    requires Inv(s) && s.serial && Enabled(s, step) && step.SendOff? && step.memory
    requires SerialFor(s, s.callbacks[step.c].key)
    ensures SerialFor(Apply(s, step), s.callbacks[step.c].key)
  {
    var pc, s' := s.callbacks[step.c], Apply(s, step);
    assert UnderWay(s, step.c, pc.key) && OneUnderWay(s, step.c, pc.key) && CallbackOk(s, pc);
    if step.works {
      SaveAddsTheRest(s, step);
    } else {
      assert s'.saves == s.saves && Log(s', pc.key) == Log(s, pc.key);
      assert SavedExactly(s', pc.key, CountOf(s.counts, pc.key));
    }
    hide Saved, Inv, SavedExactly;
    assert forall d <- s'.callbacks :: d != step.c ==> UnderWay(s', d, pc.key) == UnderWay(s, d, pc.key);
    assert forall d <- s'.callbacks :: UnderWay(s', d, pc.key) ==> d == step.c;
    if step.works {
      assert UnderWay(s', step.c, pc.key) && OneUnderWay(s', step.c, pc.key);
    } else {
      assert forall d <- s'.callbacks :: !UnderWay(s', d, pc.key);
    }
  }

  lemma FinishStaysSerial(s: State, step: Step)
    requires Inv(s) && s.serial && Enabled(s, step) && step.Finish? && SerialFor(s, s.callbacks[step.c].key)
    ensures SerialFor(Apply(s, step), s.callbacks[step.c].key)
  {
    var pc, s' := s.callbacks[step.c], Apply(s, step);
    assert UnderWay(s, step.c, pc.key);
    assert OneUnderWay(s, step.c, pc.key);
    assert Log(s', pc.key) == Log(s, pc.key) && s'.saves == s.saves;
    assert SavedExactly(s', pc.key, CountOf(s'.counts, pc.key));
    assert forall d <- s'.callbacks :: !UnderWay(s', d, pc.key);
    hide Saved, Inv;
  }

  predicate StaysUnderWay(s: State, s': State, d: CallbackId, key: Key) {
    (UnderWay(s, d, key) <==> UnderWay(s', d, key)) && (UnderWay(s, d, key) ==> s'.callbacks[d] == s.callbacks[d])
  }

  lemma SameCallbacksStaySerial(s: State, s': State, key: Key)
    requires SerialFor(s, key) && forall d: CallbackId :: StaysUnderWay(s, s', d, key)
    requires Saved(s'.saves, key) == Saved(s.saves, key) && Log(s, key) <= Log(s', key)
    requires CountOf(s'.counts, key) == CountOf(s.counts, key)
    ensures SerialFor(s', key)
  {
    assert forall n: nat :: SavedExactly(s, key, n) ==> SavedExactly(s', key, n);
    hide Saved, SavedExactly;
    forall c <- s'.callbacks | UnderWay(s', c, key) ensures OneUnderWay(s', c, key) {
      assert StaysUnderWay(s, s', c, key) && OneUnderWay(s, c, key);
      assert forall d <- s'.callbacks :: StaysUnderWay(s, s', d, key);
    }
    if forall c <- s'.callbacks :: !UnderWay(s', c, key) {
      assert forall c <- s.callbacks :: StaysUnderWay(s, s', c, key);
    }
  }

  /** The step is an event that arrives or belongs to another session. */
  predicate IsForeign(s: State, step: Step, key: Key) {
    match step
    case Append(_, _) => true
    case Enter(_, k, _) => k != key
    case _ => step.c in s.callbacks && !s.callbacks[step.c].Ended? && s.callbacks[step.c].key != key
  }

  lemma ForeignStepSaves(s: State, step: Step, key: Key)
    requires Enabled(s, step) && IsForeign(s, step, key)
    ensures Saved(Apply(s, step).saves, key) == Saved(s.saves, key) && Log(s, key) <= Log(Apply(s, step), key)
    ensures CountOf(Apply(s, step).counts, key) == CountOf(s.counts, key)
  {
    if step.SendOff? {
      var pc := s.callbacks[step.c];
      SavedSnoc(s.saves, Save(pc.key, pc.start, Log(s, pc.key)[pc.start..pc.current]), key);
    }
    hide Saved;
  }

  lemma ForeignStepKeepsCallback(s: State, step: Step, key: Key, d: CallbackId)
    requires Enabled(s, step) && IsForeign(s, step, key)
    ensures StaysUnderWay(s, Apply(s, step), d, key)
  {
  }

  /** Such a step changes nothing of what was saved for this session. */
  lemma OthersStaySerial(s: State, step: Step, key: Key)
    requires Enabled(s, step) && SerialFor(s, key) && IsForeign(s, step, key)
    ensures SerialFor(Apply(s, step), key)
  {
    hide Saved, Apply, Enabled, SerialFor, IsForeign, StaysUnderWay;
    ForeignStepSaves(s, step, key);
    forall d: CallbackId ensures StaysUnderWay(s, Apply(s, step), d, key) {
      ForeignStepKeepsCallback(s, step, key, d);
    }
    SameCallbacksStaySerial(s, Apply(s, step), key);
  }

  lemma StepStaysSerial(s: State, step: Step, key: Key)
    requires Inv(s) && s.serial && Enabled(s, step) && SerialFor(s, key) && (step.SendOff? ==> step.memory)
    ensures SerialFor(Apply(s, step), key)
  {
    hide SerialFor, Inv;
    match step
    case Append(_, _) => OthersStaySerial(s, step, key);
    case Enter(_, k, _) => if k == key { EnterStaysSerial(s, step); } else { OthersStaySerial(s, step, key); }
    case SendOff(c, _, _) =>
      if s.callbacks[c].key == key { SendOffStaysSerial(s, step); } else { OthersStaySerial(s, step, key); }
    case Finish(c) =>
      if s.callbacks[c].key == key { FinishStaysSerial(s, step); } else { OthersStaySerial(s, step, key); }
  }

  lemma {:induction false} SerialAlways(states: seq<State>, steps: seq<Step>, n: nat, key: Key)
    requires IsRun(states, steps, true) && n < |states| && SentOff(steps, n, true)
    ensures SerialFor(states[n], key)
  {
    hide Apply, Enabled, Inv;
    if n > 0 {
      hide SerialFor;
      SerialAlways(states, steps, n - 1, key);
      InvAlways(states, steps, true, n - 1);
      StepStaysSerial(states[n - 1], steps[n - 1], key);
    }
  }

  /**
   When callbacks are serialized, the successful saves of a session put together are
   exactly its events up to the watermark: nothing lost, nothing twice, whatever saves
   fail. While a callback is between save and commit they are the events it saw.
   */
  lemma SavedExactlyOnce(states: seq<State>, steps: seq<Step>, n: nat, key: Key)
    requires IsRun(states, steps, true) && n < |states| && SentOff(steps, n, true)
    ensures exists m: nat ::
              && SavedExactly(states[n], key, m) && CountOf(states[n].counts, key) <= m
              && (m == CountOf(states[n].counts, key) ||
                  exists c <- states[n].callbacks ::
                    && UnderWay(states[n], c, key)
                    && states[n].callbacks[c].Committing?
                    && states[n].callbacks[c].current == m)
  {
    SerialAlways(states, steps, n, key);
    var s := states[n];
    hide IsRun, SavedExactly;
    if c :| c in s.callbacks && UnderWay(s, c, key) {
      assert OneUnderWay(s, c, key);
      var m := if s.callbacks[c].Committing? then s.callbacks[c].current else CountOf(s.counts, key);
      assert SavedExactly(s, key, m);
    } else {
      assert SavedExactly(s, key, CountOf(s.counts, key));
    }
  }

  /******* When an event is saved twice *******/

  ghost predicate SavedTwice(s: State, key: Key, i: nat) {
    exists j, k :: 0 <= j < k < |s.saves| && Covers(s, s.saves[j], key, i) && Covers(s, s.saves[k], key, i)
  }

  /** No event is in more than one successful save. */
  ghost predicate NeverTwice(s: State) {
    forall key: Key, i: nat :: !SavedTwice(s, key, i)
  }

  /** Every save is a stretch of its session's events. */
  ghost predicate SavesRight(s: State) {
    forall save <- s.saves :: exists end :: 0 <= save.start <= end <= |Log(s, save.key)|
                                            && save.events == Log(s, save.key)[save.start..end]
  }

  lemma StepKeepsSavesRight(s: State, step: Step)
    requires SavesRight(s) && Enabled(s, step)
    ensures SavesRight(Apply(s, step))
  {
    var s' := Apply(s, step);
    StepGrows(s, step);
    forall save <- s'.saves
      ensures exists end :: 0 <= save.start <= end <= |Log(s', save.key)|
                            && save.events == Log(s', save.key)[save.start..end]
    {
      if save in s.saves {
        var end :| save.start <= end <= |Log(s, save.key)| && save.events == Log(s, save.key)[save.start..end];
        assert save.events == Log(s', save.key)[save.start..end];
      } else {
        var pc := s.callbacks[step.c];
        assert save.events == Log(s', save.key)[pc.start..pc.current];
      }
    }
  }

  lemma {:induction false} SavesRightAlways(states: seq<State>, steps: seq<Step>, serial: bool, n: nat)
    requires IsRun(states, steps, serial) && n < |states|
    ensures SavesRight(states[n])
  {
    hide Apply, Enabled;
    if n > 0 {
      hide SavesRight;
      SavesRightAlways(states, steps, serial, n - 1);
      StepKeepsSavesRight(states[n - 1], steps[n - 1]);
    }
  }

  predicate Saves(s: State, step: Step) {
    step.SendOff? && step.memory && step.works && step.c in s.callbacks && s.callbacks[step.c].Saving?
  }

  /** A successful save has an event that was saved before. */
  ghost predicate Repeats(s: State, step: Step) {
    Saves(s, step) && exists i: nat ::
      s.callbacks[step.c].start <= i < s.callbacks[step.c].current && Delivered(s, s.callbacks[step.c].key, i)
  }

  /** What covers an event goes on to, and what does not never will. */
  lemma CoversStays(s: State, step: Step, j: nat, key: Key, i: nat)
    requires SavesRight(s) && Enabled(s, step) && j < |s.saves|
    ensures j < |Apply(s, step).saves| && Apply(s, step).saves[j] == s.saves[j]
    ensures Covers(Apply(s, step), s.saves[j], key, i) <==> Covers(s, s.saves[j], key, i)
  {
    StepGrows(s, step);
    var save := s.saves[j];
    assert save in s.saves;
    assert Log(s, key) <= Log(Apply(s, step), key);
  }

  lemma TwiceStays(s: State, step: Step, key: Key, i: nat)
    requires SavesRight(s) && Enabled(s, step) && SavedTwice(s, key, i)
    ensures SavedTwice(Apply(s, step), key, i)
  {
    var j, k :| 0 <= j < k < |s.saves| && Covers(s, s.saves[j], key, i) && Covers(s, s.saves[k], key, i);
    CoversStays(s, step, j, key, i);
    CoversStays(s, step, k, key, i);
  }

  /** A successful save covers what the callback has seen and not found saved. */
  lemma SaveCovers(s: State, step: Step, i: nat)
    requires Enabled(s, step) && Saves(s, step)
    ensures var s', pc := Apply(s, step), s.callbacks[step.c];
            && |s'.saves| == |s.saves| + 1 && s.saves <= s'.saves && s'.saves[|s.saves|].key == pc.key
            && (Covers(s', s'.saves[|s.saves|], pc.key, i) <==> pc.start <= i < pc.current)
  {
    assert Log(Apply(s, step), s.callbacks[step.c].key) == Log(s, s.callbacks[step.c].key);
  }

  lemma RepeatSavesTwice(s: State, step: Step)
    requires SavesRight(s) && Enabled(s, step) && Repeats(s, step)
    ensures !NeverTwice(Apply(s, step))
  {
    var s', pc := Apply(s, step), s.callbacks[step.c];
    var i: nat :| pc.start <= i < pc.current && Delivered(s, pc.key, i);
    var save :| save in s.saves && Covers(s, save, pc.key, i);
    var j :| 0 <= j < |s.saves| && s.saves[j] == save;
    hide SavesRight, Apply, Enabled, Delivered, Covers;
    CoversStays(s, step, j, pc.key, i);
    SaveCovers(s, step, i);
    assert SavedTwice(s', pc.key, i);
  }

  lemma OnlySavesSave(s: State, step: Step)
    requires Enabled(s, step) && !Saves(s, step)
    ensures Apply(s, step).saves == s.saves
  {
  }

  lemma TwiceAfterStep(s: State, step: Step, key: Key, i: nat)
    requires SavesRight(s) && Enabled(s, step) && SavedTwice(Apply(s, step), key, i)
    ensures SavedTwice(s, key, i) || Repeats(s, step)
  {
    if !Saves(s, step) {
      OnlySavesSave(s, step);
    }
    hide Apply, Enabled, SavesRight;
    var s' := Apply(s, step);
    var j, k :| 0 <= j < k < |s'.saves| && Covers(s', s'.saves[j], key, i) && Covers(s', s'.saves[k], key, i);
    assert s'.saves[j].key == key == s'.saves[k].key;
    hide Covers;
    if k < |s.saves| {
      CoversStays(s, step, j, key, i);
      CoversStays(s, step, k, key, i);
    } else {
      SaveCovers(s, step, i);
      CoversStays(s, step, j, key, i);
      assert s.saves[j] in s.saves;
      assert Delivered(s, s.callbacks[step.c].key, i);
    }
  }

  lemma StepSavesTwiceExactly(s: State, step: Step)
    requires SavesRight(s) && NeverTwice(s) && Enabled(s, step)
    ensures NeverTwice(Apply(s, step)) <==> !Repeats(s, step)
  {
    hide Apply, Enabled, SavesRight;
    if Repeats(s, step) {
      RepeatSavesTwice(s, step);
    } else {
      hide Repeats, SavedTwice;
      forall key: Key, i: nat ensures !SavedTwice(Apply(s, step), key, i) {
        if SavedTwice(Apply(s, step), key, i) {
          TwiceAfterStep(s, step, key, i);
        }
      }
    }
  }

  /** In any run, no event has been saved twice exactly if no save had an event that was saved before. */
  lemma {:induction false} NeverTwiceExactly(states: seq<State>, steps: seq<Step>, serial: bool, n: nat)
    requires IsRun(states, steps, serial) && n < |states|
    ensures NeverTwice(states[n]) <==> forall m: nat :: m < n ==> !Repeats(states[m], steps[m])
  {
    hide Apply, Enabled, SavesRight, Repeats;
    if n > 0 {
      var s, step := states[n - 1], steps[n - 1];
      NeverTwiceExactly(states, steps, serial, n - 1);
      SavesRightAlways(states, steps, serial, n - 1);
      if NeverTwice(s) {
        StepSavesTwiceExactly(s, step);
      } else {
        var key: Key, i: nat :| SavedTwice(s, key, i);
        TwiceStays(s, step, key, i);
      }
    }
  }

  /** Two stretches of one session's events, of which some are in both. */
  predicate Meets(a: Pc, b: Pc) {
    !a.Ended? && !b.Ended? && a.key == b.key && a.start < b.current && b.start < a.current
  }

  /**
   A callback saves that starts below the watermark, or that meets a callback which has saved
   and not yet moved the watermark.
   */
  predicate ComesLate(s: State, step: Step) {
    && Saves(s, step)
    && (s.callbacks[step.c].start < CountOf(s.counts, s.callbacks[step.c].key) ||
        exists d <- s.callbacks ::
          s.callbacks[d].Committing? && s.callbacks[d].saved && Meets(s.callbacks[d], s.callbacks[step.c]))
  }

  lemma RepeatsExactly(s: State, step: Step)
    requires Inv(s) && AllDelivered(s) && Enabled(s, step)
    ensures Repeats(s, step) <==> ComesLate(s, step)
  {
    if Saves(s, step) {
      var pc := s.callbacks[step.c];
      assert CallbackOk(s, pc) && DeliveredBelow(s, pc.key, CountOf(s.counts, pc.key));
      forall i: nat | CountOf(s.counts, pc.key) <= i ensures Delivered(s, pc.key, i) == SavedUnderWay(s, pc.key, i) {
        AboveWatermark(s, pc.key, i);
      }
      hide Delivered;
      if Repeats(s, step) && CountOf(s.counts, pc.key) <= pc.start {
        var i: nat :| pc.start <= i < pc.current && Delivered(s, pc.key, i);
        var d :| d in s.callbacks && HasSaved(s.callbacks[d], pc.key, i);
        assert Meets(s.callbacks[d], pc);
      }
      if ComesLate(s, step) {
        assert Delivered(s, pc.key, pc.start) by {
          if CountOf(s.counts, pc.key) <= pc.start {
            var d :| d in s.callbacks && s.callbacks[d].Committing? && s.callbacks[d].saved
                     && Meets(s.callbacks[d], pc);
            assert CallbackOk(s, s.callbacks[d]) && HasSaved(s.callbacks[d], pc.key, pc.start);
          }
        }
      }
    }
  }

  /**
   In every run that keeps the guarantee of delivery, whatever overlaps and whatever saves
   fail, no event is saved twice exactly if no callback that saves comes late.
   */
  lemma SavedOnceExactly(states: seq<State>, steps: seq<Step>, serial: bool, n: nat)
    requires IsRun(states, steps, serial) && n < |states| && AlwaysDelivered(states, n)
    ensures NeverTwice(states[n]) <==> forall m: nat :: m < n ==> !ComesLate(states[m], steps[m])
  {
    NeverTwiceExactly(states, steps, serial, n);
    forall m: nat | m < n ensures Repeats(states[m], steps[m]) <==> ComesLate(states[m], steps[m]) {
      InvAlways(states, steps, serial, m);
      assert Enabled(states[m], steps[m]) && AllDelivered(states[m]);
      RepeatsExactly(states[m], steps[m]);
    }
    hide NeverTwice;
  }

  lemma OrderlyNeverRepeats(s: State, step: Step)
    requires Inv(s) && Orderly(s) && Enabled(s, step)
    ensures !Repeats(s, step)
  {
    if Repeats(s, step) {
      var pc := s.callbacks[step.c];
      var i: nat :| pc.start <= i < pc.current && Delivered(s, pc.key, i);
      AboveWatermark(s, pc.key, i);
      var d :| d in s.callbacks && HasSaved(s.callbacks[d], pc.key, i);
      assert UnderWay(s, d, pc.key);
    }
  }

  /** Serialized callbacks never save an event twice, with or without a memory for each. */
  lemma SerialSavesOnce(states: seq<State>, steps: seq<Step>, n: nat)
    requires IsRun(states, steps, true) && n < |states|
    ensures NeverTwice(states[n])
  {
    NeverTwiceExactly(states, steps, true, n);
    forall m: nat | m < n ensures !Repeats(states[m], steps[m]) {
      OrderlyAlways(states, steps, m);
      InvAlways(states, steps, true, m);
      assert Enabled(states[m], steps[m]);
      OrderlyNeverRepeats(states[m], steps[m]);
    }
    hide NeverTwice;
  }

  /** Two callbacks are between their critical sections with events that both have seen. */
  predicate Overlap(s: State, c: CallbackId, d: CallbackId) {
    && c != d && c in s.callbacks && d in s.callbacks
    && s.callbacks[c].Saving? && s.callbacks[d].Saving? && Meets(s.callbacks[c], s.callbacks[d])
  }

  /** If both save, in whatever order, exactly those events are in both saves. */
  lemma OverlapSavesTwice(s: State, c: CallbackId, d: CallbackId)
    requires Inv(s) && Overlap(s, c, d)
    ensures Enabled(s, SendOff(c, true, true)) && Enabled(Apply(s, SendOff(c, true, true)), SendOff(d, true, true))
    ensures var s' := Apply(Apply(s, SendOff(c, true, true)), SendOff(d, true, true));
            var first, second := s.callbacks[c], s.callbacks[d];
            && |s'.saves| == |s.saves| + 2 && s.saves <= s'.saves
            && forall i: nat ::
                 Covers(s', s'.saves[|s.saves|], first.key, i) && Covers(s', s'.saves[|s.saves| + 1], first.key, i)
                 <==> first.start <= i < first.current && second.start <= i < second.current
  {
    assert CallbackOk(s, s.callbacks[c]) && CallbackOk(s, s.callbacks[d]);
    hide Inv, CallbackOk;
    var s1 := Apply(s, SendOff(c, true, true));
    var s2 := Apply(s1, SendOff(d, true, true));
    assert s1.callbacks[d] == s.callbacks[d] && Log(s2, s.callbacks[c].key) == Log(s, s.callbacks[c].key);
    forall i: nat
      ensures Covers(s2, s2.saves[|s.saves|], s.callbacks[c].key, i)
              <==> s.callbacks[c].start <= i < s.callbacks[c].current
      ensures Covers(s2, s2.saves[|s.saves| + 1], s.callbacks[c].key, i)
              <==> s.callbacks[d].start <= i < s.callbacks[d].current
    {
      SaveCovers(s, SendOff(c, true, true), i);
      SaveCovers(s1, SendOff(d, true, true), i);
    }
  }

  /** And they can overlap when nothing serializes them. */
  lemma OverlapHappens(key: Key, e: Event) returns (states: seq<State>, steps: seq<Step>)
    ensures IsRun(states, steps, false) && Overlap(states[|states| - 1], 1, 2)
  {
    var s0 := Initial(false);
    var s1 := s0.(events := map[key := [e]]);
    var s2 := s1.(callbacks := map[1 := Saving(key, 0, 1)]);
    var s3 := s2.(callbacks := map[1 := Saving(key, 0, 1), 2 := Saving(key, 0, 1)]);
    states, steps := [s0, s1, s2, s3], [Append(key, e), Enter(1, key, 1), Enter(2, key, 1)];
    assert [] + [e] == [e];
    assert Enabled(s0, steps[0]) && s1 == Apply(s0, steps[0]);
    assert Enabled(s1, steps[1]) && s2 == Apply(s1, steps[1]);
    assert Enabled(s2, steps[2]) && s3 == Apply(s2, steps[2]);
    hide Apply, Enabled;
  }

  /** An unserialized run, with a memory for every callback, that ends in `s`. */
  ghost predicate RunsTo(states: seq<State>, steps: seq<Step>, s: State) {
    IsRun(states, steps, false) && SentOff(steps, |steps|, true) && states[|steps|] == s
  }

  lemma RunsOn(states: seq<State>, steps: seq<Step>, s: State, step: Step, s': State)
    returns (states': seq<State>, steps': seq<Step>)
    requires RunsTo(states, steps, s) && Enabled(s, step) && (step.SendOff? ==> step.memory)
    requires Apply(s, step) == s'
    ensures RunsTo(states', steps', s')
  {
    hide Apply, Enabled;
    states', steps' := states + [s'], steps + [step];
  }

  function TwoEvents(key: Key, e: Event, f: Event): State {
    Initial(false).(events := map[key := [e, f]])
  }

  lemma TwoEventsArrive(key: Key, e: Event, f: Event) returns (states: seq<State>, steps: seq<Step>)
    ensures RunsTo(states, steps, TwoEvents(key, e, f))
  {
    var s0, s1 := Initial(false), Initial(false).(events := map[key := [e]]);
    states, steps := [s0], [];
    assert RunsTo(states, steps, s0);
    hide RunsTo;
    assert [] + [e] == [e] && [e] + [f] == [e, f];
    states, steps := RunsOn(states, steps, s0, Append(key, e), s1);
    states, steps := RunsOn(states, steps, s1, Append(key, f), TwoEvents(key, e, f));
  }

  function BothSaved(key: Key, e: Event, f: Event): State {
    TwoEvents(key, e, f).(callbacks := map[1 := Committing(key, 0, 2, true)], saves := [Save(key, 0, [e, f])])
  }

  lemma FirstSavesBoth(key: Key, e: Event, f: Event) returns (states: seq<State>, steps: seq<Step>)
    ensures RunsTo(states, steps, BothSaved(key, e, f))
  {
    states, steps := TwoEventsArrive(key, e, f);
    hide RunsTo;
    var s0 := TwoEvents(key, e, f);
    var s1 := s0.(callbacks := map[1 := Saving(key, 0, 2)]);
    assert [e, f][0..2] == [e, f];
    states, steps := RunsOn(states, steps, s0, Enter(1, key, 2), s1);
    states, steps := RunsOn(states, steps, s1, SendOff(1, true, true), BothSaved(key, e, f));
  }

  function SecondEntered(key: Key, e: Event, f: Event): State {
    BothSaved(key, e, f).(callbacks := map[1 := Ended, 2 := Saving(key, 0, 1)], counts := map[key := 2])
  }

  lemma SecondEnters(key: Key, e: Event, f: Event) returns (states: seq<State>, steps: seq<Step>)
    ensures RunsTo(states, steps, SecondEntered(key, e, f))
  {
    states, steps := FirstSavesBoth(key, e, f);
    hide RunsTo;
    var s0 := BothSaved(key, e, f);
    var s1 := s0.(callbacks := map[1 := Ended], counts := map[key := 2]);
    states, steps := RunsOn(states, steps, s0, Finish(1), s1);
    states, steps := RunsOn(states, steps, s1, Enter(2, key, 1), SecondEntered(key, e, f));
  }

  /**
   No two callbacks need to be under way at once: one that sees less than was saved before it
   began starts over, and saves the first event again.
   */
  lemma StaleViewSavesTwice(key: Key, e: Event, f: Event)
    returns (states: seq<State>, steps: seq<Step>, last: Step)
    ensures var s := SecondEntered(key, e, f);
            && RunsTo(states, steps, s) && Enabled(s, last) && ComesLate(s, last)
            && (forall c: CallbackId :: UnderWay(s, c, key) ==> c == 2)
            && SavedTwice(Apply(s, last), key, 0)
  {
    states, steps := SecondEnters(key, e, f);
    last := SendOff(2, true, true);
    hide RunsTo;
    var s' := Apply(SecondEntered(key, e, f), last);
    assert Covers(s', s'.saves[0], key, 0) && Covers(s', s'.saves[1], key, 0);
  }
}
