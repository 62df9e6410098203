/**
 Registries, snapshots, materializations and pruning over one shared skill cache, interleaved.

 Every pin and unpin, every directory that `Prune` visits and every disk action of
 `Materialize` is a step of its own. Locks appear as the conditions under which steps are
 enabled: a registry publishes or closes only while no snapshot of it is being taken, pins
 do not move while a sweep holds the cache's mutex, the gate admits one materialization or
 prune at a time, and a snapshot closes only after its running `Get` calls.

 `holds` is bookkeeping added to the state: who has pinned what and not released it yet.
 */
module PinProtocol {
  import opened Options
  import opened SkillRegistry

  type RegistryId = nat
  type SnapshotId = nat
  type GetId = nat

  /** What a registry is doing under its write lock. */
  datatype Work =
    | Idle
    | Pinning(next: set<Key>, todo: set<Key>)
    | Unpinning(next: set<Key>, todo: set<Key>)

  datatype Published = Published(keys: set<Key>, generation: nat, work: Work)

  datatype SnapStage = Opening(todo: set<Key>) | Open | Closing(todo: set<Key>) | Closed

  datatype Snap = Snap(registry: RegistryId, keys: set<Key>, stage: SnapStage)

  datatype GetStage = Queued | Loading | Staging | Done(success: bool)

  /** A `Materialize` call, made through a snapshot or directly on the cache. */
  datatype Getter = Getter(snapshot: Option<SnapshotId>, key: Key, stage: GetStage)

  datatype Revision = Intact | Damaged

  datatype Gate = Free | ForGet(get: GetId) | ForPrune

  /** A prune lists the directory first and then sweeps it while it holds the cache's mutex. */
  datatype Prune = NoPrune | Scheduled(names: set<Key>) | Sweeping(names: set<Key>)

  datatype Holder = OfGeneration(registry: RegistryId, generation: nat) | OfSnapshot(snapshot: SnapshotId)

  datatype State = State(
    pins: Pins,
    regs: map<RegistryId, Published>,
    snaps: map<SnapshotId, Snap>,
    gets: map<GetId, Getter>,
    gate: Gate,
    prune: Prune,
    disk: map<Key, Revision>,
    holds: set<(Holder, Key)>)

  /** What removing a directory did to it. */
  datatype Removal = Removed | Partly | Untouched

  /**
   The outcome of looking for a revision on disk. `Unreadable` stands for everything that is
   neither a hit nor a cancellation: the revision is missing or damaged, or checking it met a
   fault, as opening a file of an intact revision may. It is then removed.
   */
  datatype Lookup = Hit | Canceled | Unreadable(removal: Removal)

  datatype RegistryStep =
    | NewRegistry(r: RegistryId)
    | BeginPublish(r: RegistryId, next: set<Key>)
    | PinNext(r: RegistryId, k: Key)
    | BeginRelease(r: RegistryId)
    | UnpinOld(r: RegistryId, k: Key)
    | EndPublish(r: RegistryId)
    | BeginClose(r: RegistryId)

  datatype SnapshotStep =
    | BeginSnapshot(i: SnapshotId, r: RegistryId)
    | PinSnapshot(i: SnapshotId, k: Key)
    | EndSnapshot(i: SnapshotId)
    | BeginCloseSnapshot(i: SnapshotId)
    | UnpinSnapshot(i: SnapshotId, k: Key)
    | EndCloseSnapshot(i: SnapshotId)

  datatype GetStep =
    | BeginGet(g: GetId, i: SnapshotId, k: Key)
    | BeginDirect(g: GetId, k: Key)
    | EnterGate(g: GetId)
    | Load(g: GetId, lookup: Lookup)
    | PublishRevision(g: GetId, parsed: bool)   // the published document may still fail to parse
    | GiveUp(g: GetId)

  datatype PruneStep =
    | BeginPrune
    | BeginSweep
    | Visit(k: Key, removal: Removal)
    | EndPrune

  datatype Step =
    | ByRegistry(rs: RegistryStep)
    | BySnapshot(ss: SnapshotStep)
    | ByGet(gs: GetStep)
    | ByPrune(ps: PruneStep)

  const INITIAL := State(map[], map[], map[], map[], Free, NoPrune, map[], {})

  predicate RegistryIs(s: State, r: RegistryId, work: Work) {
    r in s.regs && s.regs[r].work == work
  }

  predicate SnapshotIs(s: State, i: SnapshotId, stage: SnapStage) {
    i in s.snaps && s.snaps[i].stage == stage
  }

  predicate GetIs(s: State, g: GetId, stage: GetStage) {
    g in s.gets && s.gets[g].stage == stage
  }

  /** The write lock of a registry is free: nobody publishes, closes or takes a snapshot. */
  predicate Unlocked(s: State, r: RegistryId) {
    RegistryIs(s, r, Idle) && forall i <- s.snaps :: s.snaps[i].registry == r ==> !s.snaps[i].stage.Opening?
  }

  predicate OnDisk(s: State, k: Key) {
    k in s.disk && s.disk[k] == Intact
  }

  predicate RegistryEnabled(s: State, step: RegistryStep) {
    match step
    case NewRegistry(r) => r !in s.regs
    case BeginPublish(r, next) => Unlocked(s, r)
    case PinNext(r, k) => !s.prune.Sweeping? && r in s.regs && s.regs[r].work.Pinning? && k in s.regs[r].work.todo
    case BeginRelease(r) => r in s.regs && s.regs[r].work.Pinning? && s.regs[r].work.todo == {}
    case UnpinOld(r, k) => !s.prune.Sweeping? && r in s.regs && s.regs[r].work.Unpinning? && k in s.regs[r].work.todo
    case EndPublish(r) => r in s.regs && s.regs[r].work.Unpinning? && s.regs[r].work.todo == {}
    case BeginClose(r) => Unlocked(s, r)
  }

  predicate SnapshotEnabled(s: State, step: SnapshotStep) {
    match step
    case BeginSnapshot(i, r) => i !in s.snaps && RegistryIs(s, r, Idle)
    case PinSnapshot(i, k) =>
      !s.prune.Sweeping? && i in s.snaps && s.snaps[i].stage.Opening? && k in s.snaps[i].stage.todo
    case EndSnapshot(i) => SnapshotIs(s, i, Opening({}))
    case BeginCloseSnapshot(i) =>
      SnapshotIs(s, i, Open) && forall g <- s.gets :: s.gets[g].snapshot == Some(i) ==> s.gets[g].stage.Done?
    case UnpinSnapshot(i, k) =>
      !s.prune.Sweeping? && i in s.snaps && s.snaps[i].stage.Closing? && k in s.snaps[i].stage.todo
    case EndCloseSnapshot(i) => SnapshotIs(s, i, Closing({}))
  }

  predicate GetEnabled(s: State, step: GetStep) {
    match step
    case BeginGet(g, i, k) => g !in s.gets && SnapshotIs(s, i, Open) && k in s.snaps[i].keys
    case BeginDirect(g, _) => g !in s.gets
    case EnterGate(g) => GetIs(s, g, Queued) && s.gate == Free
    case Load(g, lookup) => GetIs(s, g, Loading) && (lookup.Hit? ==> OnDisk(s, s.gets[g].key))
    case PublishRevision(g, _) => GetIs(s, g, Staging)
    case GiveUp(g) => GetIs(s, g, Queued) || GetIs(s, g, Staging)
  }

  predicate PruneEnabled(s: State, step: PruneStep) {
    match step
    case BeginPrune => s.gate == Free
    case BeginSweep => s.prune.Scheduled?
    case Visit(k, _) => s.prune.Sweeping? && k in s.prune.names
    case EndPrune => s.prune.Sweeping?
  }

  predicate Enabled(s: State, step: Step) {
    match step
    case ByRegistry(rs) => RegistryEnabled(s, rs)
    case BySnapshot(ss) => SnapshotEnabled(s, ss)
    case ByGet(gs) => GetEnabled(s, gs)
    case ByPrune(ps) => PruneEnabled(s, ps)
  }

  function WithWork(s: State, r: RegistryId, work: Work): State
    requires r in s.regs
  {
    s.(regs := s.regs[r := s.regs[r].(work := work)])
  }

  function WithSnapStage(s: State, i: SnapshotId, stage: SnapStage): State
    requires i in s.snaps
  {
    s.(snaps := s.snaps[i := s.snaps[i].(stage := stage)])
  }

  function WithGetStage(s: State, g: GetId, stage: GetStage): State
    requires g in s.gets
  {
    s.(gets := s.gets[g := s.gets[g].(stage := stage)])
  }

  /** A `Get` that leaves the gate with its result. */
  function Leave(s: State, g: GetId, success: bool): State
    requires g in s.gets
  {
    WithGetStage(s, g, Done(success)).(gate := Free)
  }

  function Pin(s: State, h: Holder, k: Key): State {
    s.(pins := Pinned(s.pins, k), holds := s.holds + {(h, k)})
  }

  function Unpin(s: State, h: Holder, k: Key): State {
    s.(pins := Unpinned(s.pins, k), holds := s.holds - {(h, k)})
  }

  /** `os.RemoveAll` of a revision */
  function AfterRemoval(disk: map<Key, Revision>, k: Key, removal: Removal): map<Key, Revision> {
    match removal
    case Removed => disk - {k}
    case Partly => if k in disk then disk[k := Damaged] else disk
    case Untouched => disk
  }

  function ApplyRegistry(s: State, step: RegistryStep): (s': State)
    requires RegistryEnabled(s, step)
    ensures s'.snaps == s.snaps && s'.gets == s.gets && s'.gate == s.gate && s'.prune == s.prune && s'.disk == s.disk
    ensures forall i, k :: (OfSnapshot(i), k) in s'.holds <==> (OfSnapshot(i), k) in s.holds
  {
    match step
    case NewRegistry(r) => s.(regs := s.regs[r := Published({}, 0, Idle)])
    case BeginPublish(r, next) => WithWork(s, r, Pinning(next, next))
    case PinNext(r, k) =>
      var Pinning(next, todo) := s.regs[r].work;
      Pin(WithWork(s, r, Pinning(next, todo - {k})), OfGeneration(r, s.regs[r].generation + 1), k)
    case BeginRelease(r) => WithWork(s, r, Unpinning(s.regs[r].work.next, s.regs[r].keys))
    case UnpinOld(r, k) =>
      var Unpinning(next, todo) := s.regs[r].work;
      Unpin(WithWork(s, r, Unpinning(next, todo - {k})), OfGeneration(r, s.regs[r].generation), k)
    case EndPublish(r) => s.(regs := s.regs[r := Published(s.regs[r].work.next, s.regs[r].generation + 1, Idle)])
    case BeginClose(r) => WithWork(s, r, Unpinning({}, s.regs[r].keys))
  }

  function ApplySnapshot(s: State, step: SnapshotStep): (s': State)
    requires SnapshotEnabled(s, step)
    ensures s'.regs == s.regs && s'.gets == s.gets && s'.gate == s.gate && s'.prune == s.prune && s'.disk == s.disk
    ensures forall r, n, k :: (OfGeneration(r, n), k) in s'.holds <==> (OfGeneration(r, n), k) in s.holds
  {
    match step
    case BeginSnapshot(i, r) => s.(snaps := s.snaps[i := Snap(r, s.regs[r].keys, Opening(s.regs[r].keys))])
    case PinSnapshot(i, k) => Pin(WithSnapStage(s, i, Opening(s.snaps[i].stage.todo - {k})), OfSnapshot(i), k)
    case EndSnapshot(i) => WithSnapStage(s, i, Open)
    case BeginCloseSnapshot(i) => WithSnapStage(s, i, Closing(s.snaps[i].keys))
    case UnpinSnapshot(i, k) => Unpin(WithSnapStage(s, i, Closing(s.snaps[i].stage.todo - {k})), OfSnapshot(i), k)
    case EndCloseSnapshot(i) => WithSnapStage(s, i, Closed)
  }

  function ApplyGet(s: State, step: GetStep): (s': State)
    requires GetEnabled(s, step)
    ensures s'.prune == s.prune
    ensures s'.pins == s.pins && s'.regs == s.regs && s'.snaps == s.snaps && s'.holds == s.holds
  {
    match step
    case BeginGet(g, i, k) => s.(gets := s.gets[g := Getter(Some(i), k, Queued)])
    case BeginDirect(g, k) => s.(gets := s.gets[g := Getter(None, k, Queued)])
    case EnterGate(g) => WithGetStage(s, g, Loading).(gate := ForGet(g))
    case Load(g, Hit) => Leave(s, g, true)
    case Load(g, Canceled) => Leave(s, g, false)
    case Load(g, Unreadable(removal)) =>
      (if removal.Removed? then WithGetStage(s, g, Staging) else Leave(s, g, false))
      .(disk := AfterRemoval(s.disk, s.gets[g].key, removal))
    case PublishRevision(g, parsed) => Leave(s, g, parsed).(disk := s.disk[s.gets[g].key := Intact])
    case GiveUp(g) => if s.gets[g].stage.Staging? then Leave(s, g, false) else WithGetStage(s, g, Done(false))
  }

  function ApplyPrune(s: State, step: PruneStep): (s': State)
    requires PruneEnabled(s, step)
    ensures s'.gets == s.gets
    ensures s'.pins == s.pins && s'.regs == s.regs && s'.snaps == s.snaps && s'.holds == s.holds
  {
    match step
    case BeginPrune => s.(gate := ForPrune, prune := Scheduled(s.disk.Keys))
    case BeginSweep => s.(prune := Sweeping(s.prune.names))
    case Visit(k, removal) =>
      var rest := s.(prune := Sweeping(s.prune.names - {k}));
      if CountOf(s.pins, k) > 0 then rest
      else (if removal.Removed? then rest else s.(prune := NoPrune, gate := Free))
           .(disk := AfterRemoval(s.disk, k, removal))
    case EndPrune => s.(prune := NoPrune, gate := Free)
  }

  function Apply(s: State, step: Step): State
    requires Enabled(s, step)
  {
    match step
    case ByRegistry(rs) => ApplyRegistry(s, rs)
    case BySnapshot(ss) => ApplySnapshot(s, ss)
    case ByGet(gs) => ApplyGet(s, gs)
    case ByPrune(ps) => ApplyPrune(s, ps)
  }

  ghost predicate IsRun(states: seq<State>, steps: seq<Step>) {
    && |states| == |steps| + 1
    && states[0] == INITIAL
    && forall i :: 0 <= i < |steps| ==> Enabled(states[i], steps[i]) && states[i + 1] == Apply(states[i], steps[i])
  }

  /******* The ledger *******/

  function Holders(holds: set<(Holder, Key)>, k: Key): set<Holder> {
    set p | p in holds && p.1 == k :: p.0
  }

  /** The counts are exactly what the ledger adds up to, and no stored count is zero or negative. */
  ghost predicate Balanced(s: State) {
    Positive(s.pins) && forall k :: CountOf(s.pins, k) == |Holders(s.holds, k)|
  }

  /** What a registry holds for its generation `n`. */
  predicate RegistryHas(p: Published, n: nat, k: Key) {
    match p.work
    case Idle => n == p.generation && k in p.keys
    case Pinning(next, todo) => (n == p.generation && k in p.keys) || (n == p.generation + 1 && k in next - todo)
    case Unpinning(next, todo) => (n == p.generation && k in todo) || (n == p.generation + 1 && k in next)
  }

  predicate SnapshotHas(p: Snap, k: Key) {
    match p.stage
    case Opening(todo) => k in p.keys - todo
    case Open => k in p.keys
    case Closing(todo) => k in todo
    case Closed => false
  }

  predicate SubsetTodo(p: Published) {
    match p.work
    case Idle => true
    case Pinning(next, todo) => todo <= next
    case Unpinning(_, todo) => todo <= p.keys
  }

  ghost predicate RegistriesHold(s: State) {
    && (forall r <- s.regs :: SubsetTodo(s.regs[r]))
    && forall r, n, k :: (OfGeneration(r, n), k) in s.holds <==> r in s.regs && RegistryHas(s.regs[r], n, k)
  }

  ghost predicate SnapshotsHold(s: State) {
    && (forall i <- s.snaps :: s.snaps[i].stage.Opening? ==> s.snaps[i].stage.todo <= s.snaps[i].keys)
    && forall i, k :: (OfSnapshot(i), k) in s.holds <==> i in s.snaps && SnapshotHas(s.snaps[i], k)
  }

  /** Only the owner of the gate loads, stages or sweeps. */
  ghost predicate GateOwned(s: State) {
    && (s.gate == ForPrune <==> s.prune != NoPrune)
    && (forall g <- s.gets :: s.gets[g].stage.Loading? || s.gets[g].stage.Staging? ==> s.gate == ForGet(g))
  }

  /** An unfinished `Get` of a snapshot keeps that snapshot open. */
  ghost predicate GetsServed(s: State) {
    forall g <- s.gets :: !s.gets[g].stage.Done? && s.gets[g].snapshot.Some? ==>
      SnapshotIs(s, s.gets[g].snapshot.value, Open) && s.gets[g].key in s.snaps[s.gets[g].snapshot.value].keys
  }

  ghost predicate Gated(s: State) {
    GateOwned(s) && GetsServed(s)
  }

  ghost predicate Inv(s: State) {
    Balanced(s) && RegistriesHold(s) && SnapshotsHold(s) && Gated(s)
  }

  lemma PinBalances(s: State, h: Holder, k: Key)
    requires Balanced(s) && (h, k) !in s.holds
    ensures Balanced(Pin(s, h, k))
  {
    var s' := Pin(s, h, k);
    assert Holders(s'.holds, k) == Holders(s.holds, k) + {h} by { assert (h, k) in s'.holds; }
    forall x | x != k ensures Holders(s'.holds, x) == Holders(s.holds, x) {}
  }

  lemma UnpinBalances(s: State, h: Holder, k: Key)
    requires Balanced(s) && (h, k) in s.holds
    ensures Balanced(Unpin(s, h, k)) && CountOf(s.pins, k) > 0
  {
    var s' := Unpin(s, h, k);
    assert h in Holders(s.holds, k);
    assert Holders(s'.holds, k) == Holders(s.holds, k) - {h};
    forall x | x != k ensures Holders(s'.holds, x) == Holders(s.holds, x) {}
  }

  lemma RegistryStepBalances(s: State, step: RegistryStep)
    requires Balanced(s) && RegistriesHold(s) && RegistryEnabled(s, step)
    ensures Balanced(ApplyRegistry(s, step))
  {
    hide Pinned, Unpinned, Balanced;
    match step
    case PinNext(r, k) =>
      var t := WithWork(s, r, Pinning(s.regs[r].work.next, s.regs[r].work.todo - {k}));
      SameLedger(s, t);
      PinBalances(t, OfGeneration(r, s.regs[r].generation + 1), k);
    case UnpinOld(r, k) =>
      var t := WithWork(s, r, Unpinning(s.regs[r].work.next, s.regs[r].work.todo - {k}));
      SameLedger(s, t);
      UnpinBalances(t, OfGeneration(r, s.regs[r].generation), k);
    case _ => SameLedger(s, ApplyRegistry(s, step));
  }

  lemma SnapshotStepBalances(s: State, step: SnapshotStep)
    requires Balanced(s) && SnapshotsHold(s) && SnapshotEnabled(s, step)
    ensures Balanced(ApplySnapshot(s, step))
  {
    hide Pinned, Unpinned, Balanced;
    match step
    case PinSnapshot(i, k) =>
      var t := WithSnapStage(s, i, Opening(s.snaps[i].stage.todo - {k}));
      SameLedger(s, t);
      PinBalances(t, OfSnapshot(i), k);
    case UnpinSnapshot(i, k) =>
      var t := WithSnapStage(s, i, Closing(s.snaps[i].stage.todo - {k}));
      SameLedger(s, t);
      UnpinBalances(t, OfSnapshot(i), k);
    case _ => SameLedger(s, ApplySnapshot(s, step));
  }

  lemma SameLedger(s: State, t: State)
    requires Balanced(s) && t.pins == s.pins && t.holds == s.holds
    ensures Balanced(t)
  {
  }

  lemma RegistryStepKeepsRegistries(s: State, step: RegistryStep)
    requires RegistriesHold(s) && RegistryEnabled(s, step)
    ensures RegistriesHold(ApplyRegistry(s, step))
  {
  }

  lemma SnapshotStepKeepsSnapshots(s: State, step: SnapshotStep)
    requires SnapshotsHold(s) && SnapshotEnabled(s, step)
    ensures SnapshotsHold(ApplySnapshot(s, step))
  {
  }

  lemma SnapshotStepKeepsGate(s: State, step: SnapshotStep)
    requires Gated(s) && SnapshotEnabled(s, step)
    ensures Gated(ApplySnapshot(s, step))
  {
  }

  lemma GetStepKeepsOwner(s: State, step: GetStep)
    requires GateOwned(s) && GetEnabled(s, step)
    ensures GateOwned(ApplyGet(s, step))
  {
    hide AfterRemoval, OnDisk, SnapshotIs;
  }

  lemma GetStepKeepsServed(s: State, step: GetStep)
    requires GetsServed(s) && GetEnabled(s, step)
    ensures GetsServed(ApplyGet(s, step))
  {
  }

  lemma PruneStepKeepsGate(s: State, step: PruneStep)
    requires Gated(s) && PruneEnabled(s, step)
    ensures Gated(ApplyPrune(s, step))
  {
  }

  lemma StepKeepsInv(s: State, step: Step)
    requires Inv(s) && Enabled(s, step)
    ensures Inv(Apply(s, step))
  {
    match step
    case ByRegistry(rs) =>
      hide ApplyRegistry, RegistryEnabled, Balanced;
      RegistryStepBalances(s, rs);
      RegistryStepKeepsRegistries(s, rs);
    case BySnapshot(ss) =>
      hide ApplySnapshot, SnapshotEnabled, Balanced;
      SnapshotStepBalances(s, ss);
      SnapshotStepKeepsSnapshots(s, ss);
      SnapshotStepKeepsGate(s, ss);
    case ByGet(gs) =>
      hide ApplyGet, GetEnabled, Balanced;
      SameLedger(s, ApplyGet(s, gs));
      GetStepKeepsOwner(s, gs);
      GetStepKeepsServed(s, gs);
    case ByPrune(ps) =>
      hide ApplyPrune, PruneEnabled, Balanced;
      SameLedger(s, ApplyPrune(s, ps));
      PruneStepKeepsGate(s, ps);
  }

  lemma {:induction false} InvAlways(states: seq<State>, steps: seq<Step>, n: nat)
    requires IsRun(states, steps) && n <= |steps|
    ensures Inv(states[n])
  {
    if n > 0 {
      hide Apply, Enabled;
      InvAlways(states, steps, n - 1);
      StepKeepsInv(states[n - 1], steps[n - 1]);
    }
  }

  /******* Live holders *******/

  /** The generation of a registry that is in force: the next one as soon as all of it is pinned. */
  function LiveGeneration(p: Published): (nat, set<Key>) {
    if p.work.Unpinning? then (p.generation + 1, p.work.next) else (p.generation, p.keys)
  }

  /** The current generations and open snapshots that rely on revision `k`. */
  function LiveHolders(s: State, k: Key): set<Holder> {
    (set r | r in s.regs && k in LiveGeneration(s.regs[r]).1 :: OfGeneration(r, LiveGeneration(s.regs[r]).0))
    + (set i | i in s.snaps && s.snaps[i].stage.Open? && k in s.snaps[i].keys :: OfSnapshot(i))
  }

  /** No registry and no snapshot is inside a critical section. */
  ghost predicate Quiet(s: State) {
    && (forall r <- s.regs :: s.regs[r].work.Idle?)
    && (forall i <- s.snaps :: s.snaps[i].stage.Open? || s.snaps[i].stage.Closed?)
  }

  lemma SubsetSize<T>(a: set<T>, b: set<T>)
    requires a <= b
    ensures |a| <= |b|
  {
    assert a + (b - a) == b;
  }

  /** A revision is pinned at least once for every live holder, and exactly so when nothing is under way. */
  lemma PinsCoverLiveHolders(states: seq<State>, steps: seq<Step>, n: nat, k: Key)
    requires IsRun(states, steps) && n <= |steps|
    ensures |LiveHolders(states[n], k)| <= CountOf(states[n].pins, k)
    ensures Quiet(states[n]) ==> CountOf(states[n].pins, k) == |LiveHolders(states[n], k)|
    ensures Positive(states[n].pins)
  {
    var s := states[n];
    InvAlways(states, steps, n);
    forall h <- LiveHolders(s, k) ensures h in Holders(s.holds, k) {
      assert (h, k) in s.holds;
    }
    SubsetSize(LiveHolders(s, k), Holders(s.holds, k));
    if Quiet(s) {
      forall h <- Holders(s.holds, k) ensures h in LiveHolders(s, k) {
        match h
        case OfGeneration(r, n) => assert (OfGeneration(r, n), k) in s.holds;
        case OfSnapshot(i) => assert (OfSnapshot(i), k) in s.holds;
      }
      assert Holders(s.holds, k) == LiveHolders(s, k);
    }
  }

  /** While a refresh replaces one generation by the next, a key of both stays pinned throughout. */
  lemma SharedKeyStaysPinned(states: seq<State>, steps: seq<Step>, n: nat, r: RegistryId, k: Key)
    requires IsRun(states, steps) && n <= |steps|
    requires r in states[n].regs && !states[n].regs[r].work.Idle?
    requires k in states[n].regs[r].keys && k in states[n].regs[r].work.next
    ensures CountOf(states[n].pins, k) > 0
  {
    PinsCoverLiveHolders(states, steps, n, k);
    var p := states[n].regs[r];
    assert OfGeneration(r, LiveGeneration(p).0) in LiveHolders(states[n], k);
  }

  /******* Revisions stay on disk *******/

  lemma OpenSnapshotPins(s: State, i: SnapshotId, k: Key)
    requires Inv(s) && SnapshotIs(s, i, Open) && k in s.snaps[i].keys
    ensures CountOf(s.pins, k) > 0
  {
    assert (OfSnapshot(i), k) in s.holds;
    assert OfSnapshot(i) in Holders(s.holds, k);
  }

  /** A lookup of revision `k` that does not find it readable and sets out to remove it. */
  predicate Discards(s: State, step: Step, k: Key) {
    && step.ByGet? && step.gs.Load? && step.gs.lookup.Unreadable? && step.gs.lookup.removal != Untouched
    && step.gs.g in s.gets && s.gets[step.gs.g].key == k
  }

  /** A revision that an open snapshot refers to survives exactly the steps that do not discard it. */
  lemma RevisionSurvivesExactly(s: State, step: Step, i: SnapshotId, k: Key)
    requires Inv(s) && Enabled(s, step)
    requires SnapshotIs(s, i, Open) && k in s.snaps[i].keys && OnDisk(s, k)
    ensures OnDisk(Apply(s, step), k) <==> !Discards(s, step, k)
  {
    OpenSnapshotPins(s, i, k);
    hide Inv, ApplyRegistry, ApplySnapshot;
  }

  predicate Shut(s: State, i: SnapshotId) {
    i in s.snaps && (s.snaps[i].stage.Closing? || s.snaps[i].stage.Closed?)
  }

  lemma SnapshotMovesOn(s: State, step: Step, i: SnapshotId)
    requires Enabled(s, step)
    ensures Shut(s, i) ==> Shut(Apply(s, step), i)
    ensures SnapshotIs(s, i, Open) ==>
              && i in Apply(s, step).snaps && Apply(s, step).snaps[i].keys == s.snaps[i].keys
              && (SnapshotIs(Apply(s, step), i, Open) || Shut(Apply(s, step), i))
  {
    match step
    case BySnapshot(_) =>
    case _ => hide ApplyRegistry, ApplyGet, ApplyPrune, RegistryEnabled, GetEnabled, PruneEnabled;
  }

  /** Once a snapshot is closing or closed it is never open again. */
  lemma {:induction false} NeverReopens(states: seq<State>, steps: seq<Step>, a: nat, b: nat, i: SnapshotId)
    requires IsRun(states, steps) && a <= b <= |steps| && Shut(states[a], i)
    ensures Shut(states[b], i)
  {
    hide Apply, Enabled;
    if a < b {
      NeverReopens(states, steps, a, b - 1, i);
      SnapshotMovesOn(states[b - 1], steps[b - 1], i);
    }
  }

  ghost predicate StaysOnDisk(states: seq<State>, a: nat, b: nat, k: Key)
    requires b < |states|
  {
    forall n :: a <= n <= b ==> OnDisk(states[n], k)
  }

  ghost predicate NeverDiscarded(states: seq<State>, steps: seq<Step>, a: nat, b: nat, k: Key)
    requires b <= |steps| < |states|
  {
    forall n :: a <= n < b ==> !Discards(states[n], steps[n], k)
  }

  /**
   A revision that is intact while an open snapshot refers to it stays so until that snapshot
   closes exactly if no lookup of it in between meets a fault and begins to remove it. Pins
   protect it from everything else: prunes, refreshes, other snapshots and materializations.
   */
  lemma {:induction false} RevisionOutlivesSnapshot(
    states: seq<State>, steps: seq<Step>, a: nat, b: nat, i: SnapshotId, k: Key)
    requires IsRun(states, steps) && a <= b <= |steps|
    requires SnapshotIs(states[a], i, Open) && k in states[a].snaps[i].keys && OnDisk(states[a], k)
    requires SnapshotIs(states[b], i, Open)
    ensures StaysOnDisk(states, a, b, k) <==> NeverDiscarded(states, steps, a, b, k)
    decreases b - a
  {
    hide Apply, Enabled, Inv, OnDisk, Discards;
    if a < b {
      InvAlways(states, steps, a);
      RevisionSurvivesExactly(states[a], steps[a], i, k);
      SnapshotMovesOn(states[a], steps[a], i);
      if Shut(states[a + 1], i) {
        NeverReopens(states, steps, a + 1, b, i);
        assert false;
      }
      if OnDisk(states[a + 1], k) {
        RevisionOutlivesSnapshot(states, steps, a + 1, b, i, k);
      }
    }
  }

  /** The same from the moment a `Get` through the snapshot has delivered the revision. */
  lemma MaterializedRevisionStays(
    states: seq<State>, steps: seq<Step>, a: nat, b: nat, g: GetId, i: SnapshotId)
    requires IsRun(states, steps) && a < b <= |steps|
    requires steps[a] == ByGet(Load(g, Hit)) || steps[a] == ByGet(PublishRevision(g, true))
    requires states[a].gets[g].snapshot == Some(i) && SnapshotIs(states[b], i, Open)
    ensures var k := states[a].gets[g].key;
            StaysOnDisk(states, a + 1, b, k) <==> NeverDiscarded(states, steps, a + 1, b, k)
  {
    InvAlways(states, steps, a);
    RevisionOutlivesSnapshot(states, steps, a + 1, b, i, states[a].gets[g].key);
    hide StaysOnDisk, NeverDiscarded;
  }

  /******* A pinned revision that disappears *******/

  /** Some run leads to `s`. */
  ghost predicate Reachable(s: State) {
    exists states: seq<State>, steps: seq<Step> :: EndsIn(states, steps, s)
  }

  ghost predicate EndsIn(states: seq<State>, steps: seq<Step>, s: State) {
    IsRun(states, steps) && states[|steps|] == s
  }

  lemma NextIsReachable(s: State, step: Step)
    requires Reachable(s) && Enabled(s, step)
    ensures Reachable(Apply(s, step))
  {
    hide Apply, Enabled;
    var states, steps :| EndsIn(states, steps, s);
    assert EndsIn(states + [Apply(s, step)], steps + [step], Apply(s, step));
  }

  lemma Reaches(s: State, step: Step, s': State)
    requires Reachable(s) && Enabled(s, step) && Apply(s, step) == s'
    ensures Reachable(s')
  {
    NextIsReachable(s, step);
  }

  /** A registry at work, before and after it has pinned revision `k`. */
  function Working(work: Work): State {
    INITIAL.(regs := map[0 := Published({}, 0, work)])
  }

  function WorkingOn(k: Key, work: Work): State {
    Working(work).(pins := map[k := 1], holds := {(OfGeneration(0, 1), k)})
  }

  function PublishedOnce(k: Key): State {
    WorkingOn(k, Idle).(regs := map[0 := Published({k}, 1, Idle)])
  }

  lemma PinnedOnceIsReachable(k: Key)
    ensures Reachable(WorkingOn(k, Pinning({k}, {})))
  {
    assert EndsIn([INITIAL], [], INITIAL);
    assert {k} - {k} == {};
    assert {} + {(OfGeneration(0, 1), k)} == {(OfGeneration(0, 1), k)};
    hide Reachable;
    Reaches(INITIAL, ByRegistry(NewRegistry(0)), Working(Idle));
    Reaches(Working(Idle), ByRegistry(BeginPublish(0, {k})), Working(Pinning({k}, {k})));
    Reaches(Working(Pinning({k}, {k})), ByRegistry(PinNext(0, k)), WorkingOn(k, Pinning({k}, {})));
  }

  lemma PublishedOnceIsReachable(k: Key)
    ensures Reachable(PublishedOnce(k))
  {
    hide Reachable;
    PinnedOnceIsReachable(k);
    Reaches(WorkingOn(k, Pinning({k}, {})), ByRegistry(BeginRelease(0)), WorkingOn(k, Unpinning({k}, {})));
    Reaches(WorkingOn(k, Unpinning({k}, {})), ByRegistry(EndPublish(0)), PublishedOnce(k));
  }

  /** And a snapshot of it, in stage `stage`. */
  function WithSnapshot(k: Key, stage: SnapStage): State {
    PublishedOnce(k).(snaps := map[0 := Snap(0, {k}, stage)])
  }

  function InSnapshot(k: Key): State {
    WithSnapshot(k, Open).(pins := map[k := 2], holds := {(OfGeneration(0, 1), k), (OfSnapshot(0), k)})
  }

  lemma InSnapshotIsReachable(k: Key)
    ensures Reachable(InSnapshot(k))
  {
    hide Reachable;
    PublishedOnceIsReachable(k);
    var s1 := WithSnapshot(k, Opening({k}));
    var s2 := WithSnapshot(k, Opening({})).(
                pins := map[k := 2], holds := {(OfGeneration(0, 1), k), (OfSnapshot(0), k)});
    assert {k} - {k} == {} && PublishedOnce(k).holds + {(OfSnapshot(0), k)} == s2.holds;
    Reaches(PublishedOnce(k), BySnapshot(BeginSnapshot(0, 0)), s1);
    Reaches(s1, BySnapshot(PinSnapshot(0, k)), s2);
    Reaches(s2, BySnapshot(EndSnapshot(0)), InSnapshot(k));
  }

  /** The snapshot's `Get` number 0 in stage `stage`. */
  function WithGet(k: Key, stage: GetStage): State {
    InSnapshot(k).(gets := map[0 := Getter(Some(0), k, stage)])
  }

  /** That `Get` has delivered the revision, and a second one stands at `stage`. */
  function Delivered(k: Key, stage: GetStage): State {
    WithGet(k, Done(true)).(gets := map[0 := Getter(Some(0), k, Done(true)), 1 := Getter(Some(0), k, stage)],
                            disk := map[k := Intact])
  }

  lemma SecondLoadIsReachable(k: Key)
    ensures Reachable(Delivered(k, Loading).(gate := ForGet(1)))
  {
    hide Reachable;
    InSnapshotIsReachable(k);
    var s1 := WithGet(k, Queued);
    var s2 := WithGet(k, Loading).(gate := ForGet(0));
    var s3 := WithGet(k, Staging).(gate := ForGet(0));
    var s4 := WithGet(k, Done(true)).(disk := map[k := Intact]);
    Reaches(InSnapshot(k), ByGet(BeginGet(0, 0, k)), s1);
    Reaches(s1, ByGet(EnterGate(0)), s2);
    Reaches(s2, ByGet(Load(0, Unreadable(Removed))), s3);
    Reaches(s3, ByGet(PublishRevision(0, true)), s4);
    Reaches(s4, ByGet(BeginGet(1, 0, k)), Delivered(k, Queued));
    Reaches(Delivered(k, Queued), ByGet(EnterGate(1)), Delivered(k, Loading).(gate := ForGet(1)));
  }

  /**
   Pins do not protect a revision from its own readers: a `Get` that fails to open a file of
   an intact, pinned and already delivered revision removes it under an open snapshot.
   */
  lemma PinnedRevisionCanVanish(k: Key) returns (before: State, step: Step)
    ensures Reachable(before) && Enabled(before, step) && Reachable(Apply(before, step))
    ensures SnapshotIs(before, 0, Open) && OnDisk(before, k)
    ensures 0 in before.gets && before.gets[0] == Getter(Some(0), k, Done(true))
    ensures var after := Apply(before, step);
            SnapshotIs(after, 0, Open) && CountOf(after.pins, k) == 2 && k !in after.disk
  {
    before, step := Delivered(k, Loading).(gate := ForGet(1)), ByGet(Load(1, Unreadable(Removed)));
    SecondLoadIsReachable(k);
    NextIsReachable(before, step);
    hide Reachable;
  }
}
