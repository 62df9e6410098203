/**
 The life of the sessions of a local skill runtime: commands, file operations,
 `cleanupSession` and `Close`, interleaved.

 The runtime has one lock, and every session state has its own. Threads wait for a lock,
 hold it for one section of code and release it; a thread's program counter says which
 lock it waits for and which ones it holds. A session state that has left the map may
 still be referenced by a thread that looked it up earlier, so states are identified by
 references and not by session ID. The session hash that names a workspace directory is
 injective here: a workspace is identified by the session ID.

 Which workspaces have expired is input: there is a thread for each one that
 `cleanupExpired` finds expired, which checks it and removes it.
 */
module SessionProtocol {
  import opened Options

  type SessionId = nat
  type Ref = nat
  type ThreadId = nat   // also identifies the command that the thread runs, if any

  /** The fields of a session state; `killed` adds the commands that have been sent a kill. */
  datatype Session = Session(id: SessionId, owned: bool, active: set<ThreadId>, closing: bool, killed: set<ThreadId>) {
    function Prepared(): Session {
      this.(owned := true)
    }

    function Started(t: ThreadId): Session {
      this.(active := active + {t})
    }

    function Forgotten(t: ThreadId): Session {
      this.(active := active - {t})
    }

    function Marked(): Session {
      this.(closing := true, killed := killed + active)
    }

    function Released(): Session {
      this.(owned := false)
    }
  }

  /** The sections of code that run under a session's own lock. */
  class SessionState {
    const id: SessionId
    var owned: bool
    var active: set<ThreadId>
    var closing: bool
    ghost var killed: set<ThreadId>

    constructor (id: SessionId)
      ensures Value() == Session(id, false, {}, false, {})
    {
      this.id, owned, active, closing, killed := id, false, {}, false, {};
    }

    ghost function Value(): Session
      reads this
    {
      Session(id, owned, active, closing, killed)
    }

    /**
     `ensureWorkspaceLocked`, with the outcomes of its file operations as inputs. The
     workspace belongs to the session even when the marker file cannot be touched.
     */
    method EnsureWorkspace(possible: bool, touched: bool) returns (ok: bool)
      modifies this
      ensures ok <==> !old(closing) && possible && touched
      ensures Value() == if !old(closing) && possible then old(Value()).Prepared() else old(Value())
    {
      if closing || !possible {
        return false;
      }
      owned := true;
      ok := touched;
    }

    method Start(command: ThreadId)
      modifies this
      ensures Value() == old(Value()).Started(command)
    {
      active := active + {command};
    }

    method Forget(command: ThreadId)
      modifies this
      ensures Value() == old(Value()).Forgotten(command)
    {
      active := active - {command};
    }

    /** Mark the session as closing and kill each of its commands. */
    method Mark()
      modifies this
      ensures Value() == old(Value()).Marked()
    {
      closing := true;
      var todo := active;
      while todo != {}
        invariant todo <= active && killed == old(killed) + (active - todo)
        invariant owned == old(owned) && active == old(active) && closing
        decreases todo
      {
        var command: ThreadId :| command in todo;
        killed := killed + {command};
        todo := todo - {command};
      }
      assert active - todo == active;
    }
  }

  /******* Threads *******/

  datatype Lock = RuntimeLock | StateLock(ref: Ref)

  /** What `Close` reports for a session. */
  datatype Verdict = Removed | Kept | Unowned | Failed

  type Sessions = map<SessionId, Ref>
  type Report = map<SessionId, Verdict>

  /** A thread of `runCommand` (`command`) or of a file operation. */
  datatype JobPc =
    | JobEnters(id: SessionId, command: bool)               // wants the runtime's lock, in session()
    | JobLooksUp(id: SessionId, command: bool)
    | JobApproaches(id: SessionId, ref: Ref, command: bool) // wants the state's lock, in lockSession()
    | JobPrepares(id: SessionId, ref: Ref, command: bool)
    | JobWorks(id: SessionId, ref: Ref, command: bool)
    | Running(id: SessionId, ref: Ref)                      // the command's wait is outstanding
    | Reaping(id: SessionId, ref: Ref)                      // wants the state's lock again
    | Forgetting(id: SessionId, ref: Ref)

  datatype CleanupPc =
    | CleanupEnters(id: SessionId)
    | CleanupLooksUp(id: SessionId)
    | WantsMark(id: SessionId, ref: Ref)
    | Marking(id: SessionId, ref: Ref)
    | WantsPoll(id: SessionId, ref: Ref)
    | Polling(id: SessionId, ref: Ref)
    | WantsRemoval(id: SessionId, ref: Ref)
    | Removing(id: SessionId, ref: Ref)
    | WantsDelete(id: SessionId, ref: Ref)
    | Deleting(id: SessionId, ref: Ref)

  /** `todo` is the part of the copied session map `all` that the current loop has not finished. */
  datatype ClosePc =
    | CloseEnters
    | ClosePlans
    | CloseMarks(todo: Sessions, all: Sessions)
    | CloseWantsMark(id: SessionId, todo: Sessions, all: Sessions)
    | CloseMarking(id: SessionId, todo: Sessions, all: Sessions)
    | ClosePolls(todo: Sessions, all: Sessions, report: Report)
    | CloseWantsPoll(id: SessionId, todo: Sessions, all: Sessions, report: Report)
    | ClosePolling(id: SessionId, todo: Sessions, all: Sessions, report: Report)
    | CloseRemoves(id: SessionId, todo: Sessions, all: Sessions, report: Report)

  /**
   What `cleanupExpired` does with one expired workspace: `sessionHashActive`, the one place
   that takes a state's lock while it holds the runtime's, and the removal.
   */
  datatype ScanPc =
    | ScanEnters(id: SessionId)
    | Scanning(id: SessionId)
    | ScanWantsState(id: SessionId, ref: Ref)
    | ScanInState(id: SessionId, ref: Ref)
    | ScanRemoves(id: SessionId)

  datatype Pc =
    | AtJob(job: JobPc)
    | AtCleanup(cleanup: CleanupPc)
    | AtClose(close: ClosePc)
    | AtScan(scan: ScanPc)
    | Closed(all: Sessions, report: Report)
    | Ended

  /** The lock a thread waits for. */
  function Wanted(pc: Pc): Option<Lock> {
    match pc
    case AtJob(JobEnters(_, _)) => Some(RuntimeLock)
    case AtJob(JobApproaches(_, ref, _)) => Some(StateLock(ref))
    case AtJob(Reaping(_, ref)) => Some(StateLock(ref))
    case AtCleanup(CleanupEnters(_)) => Some(RuntimeLock)
    case AtCleanup(WantsMark(_, ref)) => Some(StateLock(ref))
    case AtCleanup(WantsPoll(_, ref)) => Some(StateLock(ref))
    case AtCleanup(WantsRemoval(_, ref)) => Some(StateLock(ref))
    case AtCleanup(WantsDelete(_, _)) => Some(RuntimeLock)
    case AtClose(CloseEnters) => Some(RuntimeLock)
    case AtClose(CloseWantsMark(id, todo, _)) => if id in todo then Some(StateLock(todo[id])) else None
    case AtClose(CloseWantsPoll(id, todo, _, _)) => if id in todo then Some(StateLock(todo[id])) else None
    case AtScan(ScanEnters(_)) => Some(RuntimeLock)
    case AtScan(ScanWantsState(_, ref)) => Some(StateLock(ref))
    case _ => None
  }

  /** Where it goes on once it has that lock. */
  function Granted(pc: Pc): Pc {
    match pc
    case AtJob(JobEnters(id, command)) => AtJob(JobLooksUp(id, command))
    case AtJob(JobApproaches(id, ref, command)) => AtJob(JobPrepares(id, ref, command))
    case AtJob(Reaping(id, ref)) => AtJob(Forgetting(id, ref))
    case AtCleanup(CleanupEnters(id)) => AtCleanup(CleanupLooksUp(id))
    case AtCleanup(WantsMark(id, ref)) => AtCleanup(Marking(id, ref))
    case AtCleanup(WantsPoll(id, ref)) => AtCleanup(Polling(id, ref))
    case AtCleanup(WantsRemoval(id, ref)) => AtCleanup(Removing(id, ref))
    case AtCleanup(WantsDelete(id, ref)) => AtCleanup(Deleting(id, ref))
    case AtClose(CloseEnters) => AtClose(ClosePlans)
    case AtClose(CloseWantsMark(id, todo, all)) => AtClose(CloseMarking(id, todo, all))
    case AtClose(CloseWantsPoll(id, todo, all, report)) => AtClose(ClosePolling(id, todo, all, report))
    case AtScan(ScanEnters(id)) => AtScan(Scanning(id))
    case AtScan(ScanWantsState(id, ref)) => AtScan(ScanInState(id, ref))
    case _ => pc
  }

  /** The locks a thread holds. */
  function Held(pc: Pc): set<Lock> {
    match pc
    case AtJob(JobLooksUp(_, _)) => {RuntimeLock}
    case AtJob(JobPrepares(_, ref, _)) => {StateLock(ref)}
    case AtJob(JobWorks(_, ref, _)) => {StateLock(ref)}
    case AtJob(Forgetting(_, ref)) => {StateLock(ref)}
    case AtCleanup(CleanupLooksUp(_)) => {RuntimeLock}
    case AtCleanup(Marking(_, ref)) => {StateLock(ref)}
    case AtCleanup(Polling(_, ref)) => {StateLock(ref)}
    case AtCleanup(Removing(_, ref)) => {StateLock(ref)}
    case AtCleanup(Deleting(_, _)) => {RuntimeLock}
    case AtClose(ClosePlans) => {RuntimeLock}
    case AtClose(CloseMarking(id, todo, _)) => if id in todo then {StateLock(todo[id])} else {}
    case AtClose(ClosePolling(id, todo, _, _)) => if id in todo then {StateLock(todo[id])} else {}
    case AtScan(Scanning(_)) => {RuntimeLock}
    case AtScan(ScanWantsState(_, _)) => {RuntimeLock}
    case AtScan(ScanInState(_, ref)) => {RuntimeLock, StateLock(ref)}
    case _ => {}
  }

  /** The session that a program counter is cleaning up. */
  function CleanupOf(pc: Pc): Option<SessionId> {
    if pc.AtCleanup? then Some(pc.cleanup.id) else None
  }

  datatype State = State(
    keep: bool,                       // KeepWorkspacesOnClose
    closed: bool,
    sessions: Sessions,
    heap: map<Ref, Session>,
    workspaces: set<SessionId>,       // the owned workspaces that exist
    strays: set<SessionId>,           // the ones that nobody owns, because preparing them failed half-way
    threads: map<ThreadId, Pc>,
    locks: map<Lock, ThreadId>)

  function Initial(keep: bool): State {
    State(keep, false, map[], map[], {}, {}, map[], map[])
  }

  /**
   What the world decides in a step: whether its I/O works (`touched`: on the marker file;
   `made`: as far as the workspace's directory), the next map entry, a spare reference.
   */
  datatype Choice = Choice(possible: bool, made: bool, touched: bool, pick: SessionId, spare: Ref)

  datatype Step =
    | Begin(t: ThreadId, pc: Pc)
    | Acquire(t: ThreadId)
    | Cancel(t: ThreadId)                      // the context of a polling cleanup ends, or a job's scan fails
    | Advance(t: ThreadId, choice: Choice)

  predicate IsEntry(pc: Pc) {
    match pc
    case AtJob(job) => job.JobEnters?
    case AtCleanup(cleanup) => cleanup.CleanupEnters?
    case AtClose(close) => close.CloseEnters?
    case AtScan(scan) => scan.ScanEnters?
    case _ => false
  }

  predicate JobReady(s: State, pc: JobPc, c: Choice) {
    match pc
    case JobLooksUp(_, _) => c.spare !in s.heap
    case JobPrepares(_, ref, _) => ref in s.heap
    case JobWorks(_, ref, _) => ref in s.heap
    case Running(_, _) => true
    case Forgetting(_, ref) => ref in s.heap
    case _ => false
  }

  predicate CleanupReady(s: State, pc: CleanupPc, c: Choice) {
    match pc
    case CleanupLooksUp(_) => c.spare !in s.heap
    case Marking(_, ref) => ref in s.heap
    case Polling(_, ref) => ref in s.heap
    case Removing(_, ref) => ref in s.heap
    case Deleting(_, _) => true
    case _ => false
  }

  predicate CloseReady(s: State, pc: ClosePc, c: Choice) {
    match pc
    case ClosePlans => true
    case CloseMarks(todo, _) => todo == map[] || c.pick in todo
    case CloseMarking(id, todo, _) => id in todo && todo[id] in s.heap
    case ClosePolls(todo, _, _) => todo == map[] || c.pick in todo
    case ClosePolling(id, todo, _, _) => id in todo && todo[id] in s.heap
    case CloseRemoves(_, _, _, _) => true
    case _ => false
  }

  predicate ScanReady(s: State, pc: ScanPc) {
    match pc
    case Scanning(_) => true
    case ScanInState(_, ref) => ref in s.heap
    case ScanRemoves(_) => true
    case _ => false
  }

  predicate Ready(s: State, pc: Pc, c: Choice) {
    match pc
    case AtJob(job) => JobReady(s, job, c)
    case AtCleanup(cleanup) => CleanupReady(s, cleanup, c)
    case AtClose(close) => CloseReady(s, close, c)
    case AtScan(scan) => ScanReady(s, scan)
    case _ => false
  }

  /** A job that has looked its session up scans for expired workspaces before it wants the state's lock. */
  predicate MayGiveUp(pc: Pc) {
    (pc.AtCleanup? && pc.cleanup.WantsPoll?) || (pc.AtJob? && pc.job.JobApproaches?)
  }

  /** What the code itself allows. */
  predicate Possible(s: State, step: Step) {
    match step
    case Begin(t, pc) => t !in s.threads && IsEntry(pc)
    case Acquire(t) => t in s.threads && Wanted(s.threads[t]).Some? && Wanted(s.threads[t]).value !in s.locks
    case Cancel(t) => t in s.threads && MayGiveUp(s.threads[t])
    case Advance(t, c) => t in s.threads && Ready(s, s.threads[t], c)
  }

  /** What callers have to see to: they never overlap two cleanups of one session. */
  predicate NoOverlap(s: State, step: Step) {
    step.Begin? && step.pc.AtCleanup? ==> forall u <- s.threads :: CleanupOf(s.threads[u]) != CleanupOf(step.pc)
  }

  predicate Enabled(s: State, step: Step) {
    Possible(s, step) && NoOverlap(s, step)
  }

  /******* What a section of code does *******/

  function WithSession(s: State, ref: Ref, x: Session): State {
    s.(heap := s.heap[ref := x])
  }

  predicate SameThreads(s: State, s': State) {
    s'.threads == s.threads && s'.locks == s.locks && s'.keep == s.keep
  }

  /** session(): the state that a lookup finds or adds, and the state of the runtime afterwards. */
  function Found(s: State, id: SessionId, spare: Ref): (Ref, State) {
    if id in s.sessions then (s.sessions[id], s)
    else (spare, WithSession(s, spare, Session(id, false, {}, false, {})).(sessions := s.sessions[id := spare]))
  }

  /** The workspace's directory is there, and preparing it has failed after that. */
  function HalfMade(s: State, id: SessionId, ref: Ref): State
    requires ref in s.heap
  {
    if s.heap[ref].owned then s.(workspaces := s.workspaces + {id}) else s.(strays := s.strays + {id})
  }

  function JobMove(s: State, t: ThreadId, pc: JobPc, c: Choice): (r: (Pc, State))
    requires JobReady(s, pc, c)
    ensures SameThreads(s, r.1)
  {
    match pc
    case JobLooksUp(id, command) =>
      var (ref, s') := Found(s, id, c.spare);
      if s.closed then (Ended, s) else (AtJob(JobApproaches(id, ref, command)), s')
    case JobPrepares(id, ref, command) =>
      if s.heap[ref].closing then (Ended, s)
      else if !c.possible then (Ended, if c.made then HalfMade(s, id, ref) else s)
      else (if c.touched then AtJob(JobWorks(id, ref, command)) else Ended,
            WithSession(s, ref, s.heap[ref].Prepared()).(
              workspaces := s.workspaces + {id}, strays := s.strays - {id}))
    case JobWorks(id, ref, command) =>
      if !command then (Ended, s)
      else if c.possible then (AtJob(Running(id, ref)), WithSession(s, ref, s.heap[ref].Started(t)))
      else (AtJob(Reaping(id, ref)), s)
    case Running(id, ref) => (AtJob(Reaping(id, ref)), s)
    case Forgetting(_, ref) => (Ended, WithSession(s, ref, s.heap[ref].Forgotten(t)))
  }

  function CleanupMove(s: State, pc: CleanupPc, c: Choice): (r: (Pc, State))
    requires CleanupReady(s, pc, c)
    ensures SameThreads(s, r.1)
  {
    match pc
    case CleanupLooksUp(id) =>
      var (ref, s') := Found(s, id, c.spare);
      if s.closed then (Ended, s) else (AtCleanup(WantsMark(id, ref)), s')
    case Marking(id, ref) => (AtCleanup(WantsPoll(id, ref)), WithSession(s, ref, s.heap[ref].Marked()))
    case Polling(id, ref) =>
      (AtCleanup(if s.heap[ref].active == {} then WantsRemoval(id, ref) else WantsPoll(id, ref)), s)
    case Removing(id, ref) =>
      if !s.heap[ref].owned then (AtCleanup(WantsDelete(id, ref)), s)
      else if !c.possible then (Ended, s)
      else (AtCleanup(WantsDelete(id, ref)),
            WithSession(s, ref, s.heap[ref].Released()).(
              workspaces := s.workspaces - {id}, strays := s.strays - {id}))
    case Deleting(id, _) => (Ended, s.(sessions := s.sessions - {id}))
  }

  /** One poll of `Close`; an impossible choice stands for the deadline having passed. */
  function PollVerdict(s: State, x: Session, c: Choice): Option<Verdict> {
    if x.active == {} then
      if !x.owned then Some(Unowned) else if s.keep then Some(Kept) else None
    else if c.possible then None else Some(Failed)
  }

  function CloseMove(s: State, pc: ClosePc, c: Choice): (r: (Pc, State))
    requires CloseReady(s, pc, c)
    ensures SameThreads(s, r.1)
  {
    match pc
    case ClosePlans =>
      if s.closed then (Ended, s) else (AtClose(CloseMarks(s.sessions, s.sessions)), s.(closed := true))
    case CloseMarks(todo, all) =>
      (AtClose(if todo == map[] then ClosePolls(all, all, map[]) else CloseWantsMark(c.pick, todo, all)), s)
    case CloseMarking(id, todo, all) =>
      (AtClose(CloseMarks(todo - {id}, all)), WithSession(s, todo[id], s.heap[todo[id]].Marked()))
    case ClosePolls(todo, all, report) =>
      (if todo == map[] then Closed(all, report) else AtClose(CloseWantsPoll(c.pick, todo, all, report)), s)
    case ClosePolling(id, todo, all, report) =>
      var verdict := PollVerdict(s, s.heap[todo[id]], c);
      (AtClose(if verdict.Some? then ClosePolls(todo - {id}, all, report[id := verdict.value])
               else if s.heap[todo[id]].active == {} then CloseRemoves(id, todo, all, report)
               else CloseWantsPoll(id, todo, all, report)), s)
    case CloseRemoves(id, todo, all, report) =>
      if c.possible then
        (AtClose(ClosePolls(todo - {id}, all, report[id := Removed])),
         s.(workspaces := s.workspaces - {id}, strays := s.strays - {id}))
      else (AtClose(ClosePolls(todo - {id}, all, report[id := Failed])), s)
  }

  /** A session that is not in the map counts as inactive. */
  function ScanMove(s: State, pc: ScanPc, c: Choice): (r: (Pc, State))
    requires ScanReady(s, pc)
    ensures SameThreads(s, r.1)
  {
    match pc
    case Scanning(id) =>
      (AtScan(if id in s.sessions then ScanWantsState(id, s.sessions[id]) else ScanRemoves(id)), s)
    case ScanInState(id, ref) => (if s.heap[ref].active == {} then AtScan(ScanRemoves(id)) else Ended, s)
    case ScanRemoves(id) =>
      (Ended, if c.possible then s.(workspaces := s.workspaces - {id}, strays := s.strays - {id}) else s)
  }

  function Move(s: State, t: ThreadId, pc: Pc, c: Choice): (r: (Pc, State))
    requires Ready(s, pc, c)
    ensures SameThreads(s, r.1)
  {
    match pc
    case AtJob(job) => JobMove(s, t, job, c)
    case AtCleanup(cleanup) => CleanupMove(s, cleanup, c)
    case AtClose(close) => CloseMove(s, close, c)
    case AtScan(scan) => ScanMove(s, scan, c)
  }

  /** The one state lock that a thread can hold. */
  function HeldRef(pc: Pc): (ref: Option<Ref>)
    ensures forall l <- Held(pc) :: l == RuntimeLock || ref == Some(l.ref)
    ensures ref.Some? ==> StateLock(ref.value) in Held(pc)
  {
    match pc
    case AtJob(JobPrepares(_, ref, _)) => Some(ref)
    case AtJob(JobWorks(_, ref, _)) => Some(ref)
    case AtJob(Forgetting(_, ref)) => Some(ref)
    case AtCleanup(Marking(_, ref)) => Some(ref)
    case AtCleanup(Polling(_, ref)) => Some(ref)
    case AtCleanup(Removing(_, ref)) => Some(ref)
    case AtClose(CloseMarking(id, todo, _)) => if id in todo then Some(todo[id]) else None
    case AtClose(ClosePolling(id, todo, _, _)) => if id in todo then Some(todo[id]) else None
    case AtScan(ScanInState(_, ref)) => Some(ref)
    case _ => None
  }

  /** The locks when thread `t` takes those that it holds at `pc`. */
  function Taken(locks: map<Lock, ThreadId>, pc: Pc, t: ThreadId): (r: map<Lock, ThreadId>)
    ensures r.Keys == locks.Keys + Held(pc)
    ensures forall l <- r :: r[l] == if l in Held(pc) then t else locks[l]
  {
    var ref := HeldRef(pc);
    var withRef := if ref.Some? then locks[StateLock(ref.value) := t] else locks;
    if RuntimeLock in Held(pc) then withRef[RuntimeLock := t] else withRef
  }

  /** Thread `t` goes on at `pc`, releasing and taking locks accordingly. */
  function Goto(s: State, t: ThreadId, pc: Pc): State {
    var before := if t in s.threads then Held(s.threads[t]) else {};
    s.(threads := s.threads[t := pc], locks := Taken(s.locks - before, pc, t))
  }

  function Apply(s: State, step: Step): State
    requires Possible(s, step)
  {
    match step
    case Begin(t, pc) => Goto(s, t, pc)
    case Acquire(t) => Goto(s, t, Granted(s.threads[t]))
    case Cancel(t) => Goto(s, t, Ended)
    case Advance(t, c) => var (pc, s') := Move(s, t, s.threads[t], c); Goto(s', t, pc)
  }

  ghost predicate IsRun(states: seq<State>, steps: seq<Step>, keep: bool) {
    && |states| == |steps| + 1
    && states[0] == Initial(keep)
    && forall i :: 0 <= i < |steps| ==> Enabled(states[i], steps[i]) && states[i + 1] == Apply(states[i], steps[i])
  }

  /******* Locks *******/

  /** A lock is taken by exactly the thread whose program counter says so. */
  ghost predicate LocksHeld(s: State) {
    forall l, t :: (l in s.locks && s.locks[l] == t) <==> (t in s.threads && l in Held(s.threads[t]))
  }

  lemma JobTakesNoLock(s: State, t: ThreadId, pc: JobPc, c: Choice)
    requires JobReady(s, pc, c)
    ensures Held(JobMove(s, t, pc, c).0) <= Held(AtJob(pc))
  {
  }

  lemma CleanupTakesNoLock(s: State, pc: CleanupPc, c: Choice)
    requires CleanupReady(s, pc, c)
    ensures Held(CleanupMove(s, pc, c).0) <= Held(AtCleanup(pc))
  {
  }

  lemma CloseTakesNoLock(s: State, pc: ClosePc, c: Choice)
    requires CloseReady(s, pc, c)
    ensures Held(CloseMove(s, pc, c).0) <= Held(AtClose(pc))
  {
  }

  lemma MoveTakesNoLock(s: State, t: ThreadId, pc: Pc, c: Choice)
    requires Ready(s, pc, c)
    ensures Held(Move(s, t, pc, c).0) <= Held(pc)
  {
    match pc
    case AtJob(job) => JobTakesNoLock(s, t, job, c); hide JobMove;
    case AtCleanup(cleanup) => CleanupTakesNoLock(s, cleanup, c); hide CleanupMove;
    case AtClose(close) => CloseTakesNoLock(s, close, c); hide CloseMove;
    case AtScan(_) =>
  }

  lemma GotoKeepsLocks(s: State, t: ThreadId, pc: Pc)
    requires LocksHeld(s)
    requires forall l <- Held(pc) :: l !in s.locks || (t in s.threads && l in Held(s.threads[t]))
    ensures LocksHeld(Goto(s, t, pc))
  {
    hide Held, Taken;
    var s', before := Goto(s, t, pc), if t in s.threads then Held(s.threads[t]) else {};
    assert forall l <- before :: l in s.locks && s.locks[l] == t;
    forall l: Lock, u: ThreadId
      ensures (l in s'.locks && s'.locks[l] == u) <==> (u in s'.threads && l in Held(s'.threads[u]))
    {
      assert l in s'.locks <==> (l in s.locks && l !in before) || l in Held(pc);
      assert (l in s.locks && s.locks[l] == u) <==> (u in s.threads && l in Held(s.threads[u]));
      assert l in Held(pc) ==> l !in s.locks || s.locks[l] == t;
    }
  }

  lemma StepKeepsLocks(s: State, step: Step)
    requires LocksHeld(s) && Enabled(s, step)
    ensures LocksHeld(Apply(s, step))
  {
    match step
    case Begin(t, pc) => GotoKeepsLocks(s, t, pc);
    case Acquire(t) =>
      assert Held(Granted(s.threads[t])) <= Held(s.threads[t]) + {Wanted(s.threads[t]).value};
      GotoKeepsLocks(s, t, Granted(s.threads[t]));
    case Cancel(t) => GotoKeepsLocks(s, t, Ended);
    case Advance(t, c) =>
      MoveTakesNoLock(s, t, s.threads[t], c);
      var (pc, s') := Move(s, t, s.threads[t], c);
      hide Move, Held, Ready;
      GotoKeepsLocks(s', t, pc);
  }

  /******* What every state keeps *******/

  /** A session state that can neither run commands nor own a workspace ever again. */
  predicate Dead(x: Session) {
    x.closing && x.active == {} && !x.owned
  }

  predicate RefOk(s: State, id: SessionId, ref: Ref) {
    ref in s.heap && s.heap[ref].id == id
  }

  predicate Attached(s: State, id: SessionId, ref: Ref) {
    id in s.sessions && s.sessions[id] == ref && RefOk(s, id, ref)
  }

  /** The map is right, detached states are dead, closing states have been killed, and workspaces have owners. */
  ghost predicate DataInv(s: State) {
    && (forall id <- s.sessions :: RefOk(s, id, s.sessions[id]))
    && (forall ref <- s.heap :: Attached(s, s.heap[ref].id, ref) || Dead(s.heap[ref]))
    && (forall ref <- s.heap :: s.heap[ref].closing ==> s.heap[ref].active <= s.heap[ref].killed)
    && (forall id <- s.workspaces :: id in s.sessions && s.heap[s.sessions[id]].owned)
  }

  predicate RunsUnder(pc: Pc, ref: Ref) {
    pc.AtJob? && (pc.job.Running? || pc.job.Reaping? || pc.job.Forgetting?) && pc.job.ref == ref
  }

  ghost predicate ActiveInv(s: State) {
    forall ref <- s.heap, t <- s.heap[ref].active :: t in s.threads && RunsUnder(s.threads[t], ref)
  }

  ghost predicate OneCleanup(s: State) {
    forall t <- s.threads, u <- s.threads ::
      t != u && CleanupOf(s.threads[t]).Some? ==> CleanupOf(s.threads[t]) != CleanupOf(s.threads[u])
  }

  ghost predicate AllClosing(s: State) {
    forall ref <- s.heap :: s.heap[ref].closing
  }

  /** Every session state is closing, except those that the marking loop has not reached. */
  ghost predicate Covered(s: State, todo: Sessions) {
    forall ref <- s.heap :: s.heap[ref].closing || (s.heap[ref].id in todo && todo[s.heap[ref].id] == ref)
  }

  predicate SubMap(a: Sessions, b: Sessions) {
    forall id <- a :: id in b && b[id] == a[id]
  }

  predicate VerdictOk(s: State, id: SessionId, v: Verdict) {
    match v
    case Removed => id !in s.workspaces
    case Unowned => id !in s.workspaces
    case Kept => s.keep
    case Failed => true
  }

  ghost predicate Reported(s: State, todo: Sessions, all: Sessions, report: Report) {
    forall id <- all :: id in todo || (id in report && VerdictOk(s, id, report[id]))
  }

  /** What the copy `all` of the session map has to do with the present one. */
  ghost predicate Copied(s: State, todo: Sessions, all: Sessions) {
    && s.closed && SubMap(s.sessions, all) && SubMap(todo, all)
    && forall id <- all :: RefOk(s, id, all[id])
  }

  ghost predicate JobOk(s: State, t: ThreadId, pc: JobPc) {
    match pc
    case JobEnters(_, _) => true
    case JobLooksUp(_, _) => true
    case JobApproaches(id, ref, _) => RefOk(s, id, ref)
    case JobPrepares(id, ref, _) => RefOk(s, id, ref)
    case JobWorks(id, ref, _) => RefOk(s, id, ref) && !s.heap[ref].closing
    case Running(id, ref) => RefOk(s, id, ref) && t in s.heap[ref].active
    case Reaping(id, ref) => RefOk(s, id, ref)
    case Forgetting(id, ref) => RefOk(s, id, ref)
  }

  ghost predicate CleanupOk(s: State, pc: CleanupPc) {
    match pc
    case CleanupEnters(_) => true
    case CleanupLooksUp(_) => true
    case WantsMark(id, ref) => Attached(s, id, ref)
    case Marking(id, ref) => Attached(s, id, ref)
    case WantsPoll(id, ref) => Attached(s, id, ref) && s.heap[ref].closing
    case Polling(id, ref) => Attached(s, id, ref) && s.heap[ref].closing
    case WantsRemoval(id, ref) => Attached(s, id, ref) && s.heap[ref].closing && s.heap[ref].active == {}
    case Removing(id, ref) => Attached(s, id, ref) && s.heap[ref].closing && s.heap[ref].active == {}
    case WantsDelete(id, ref) => Attached(s, id, ref) && Dead(s.heap[ref])
    case Deleting(id, ref) => Attached(s, id, ref) && Dead(s.heap[ref])
  }

  ghost predicate CloseOk(s: State, pc: ClosePc) {
    match pc
    case CloseEnters => true
    case ClosePlans => true
    case CloseMarks(todo, all) => Copied(s, todo, all) && Covered(s, todo)
    case CloseWantsMark(id, todo, all) => Copied(s, todo, all) && Covered(s, todo) && id in todo
    case CloseMarking(id, todo, all) => Copied(s, todo, all) && Covered(s, todo) && id in todo
    case ClosePolls(todo, all, report) => Copied(s, todo, all) && AllClosing(s) && Reported(s, todo, all, report)
    case CloseWantsPoll(id, todo, all, report) =>
      Copied(s, todo, all) && AllClosing(s) && Reported(s, todo, all, report) && id in todo
    case ClosePolling(id, todo, all, report) =>
      Copied(s, todo, all) && AllClosing(s) && Reported(s, todo, all, report) && id in todo
    case CloseRemoves(id, todo, all, report) =>
      && Copied(s, todo, all) && AllClosing(s) && Reported(s, todo, all, report)
      && id in todo && s.heap[todo[id]].active == {}
  }

  ghost predicate ThreadOk(s: State, t: ThreadId, pc: Pc) {
    match pc
    case AtJob(job) => JobOk(s, t, job)
    case AtCleanup(cleanup) => CleanupOk(s, cleanup)
    case AtClose(close) => CloseOk(s, close)
    case AtScan(scan) => scan.ScanWantsState? || scan.ScanInState? ==> Attached(s, scan.id, scan.ref)
    case Closed(all, report) => Copied(s, map[], all) && AllClosing(s) && Reported(s, map[], all, report)
    case Ended => true
  }

  ghost predicate ThreadsOk(s: State) {
    forall t <- s.threads :: ThreadOk(s, t, s.threads[t])
  }

  ghost predicate Inv(s: State) {
    LocksHeld(s) && DataInv(s) && ActiveInv(s) && OneCleanup(s) && ThreadsOk(s)
  }

  /******* How one thread's step looks to the others *******/

  /** Closing is final: a closing session only loses commands and never regains a workspace. */
  predicate Evolves(x: Session, x': Session) {
    && x'.id == x.id
    && (x.closing ==> x'.closing && x'.active <= x.active && (x'.owned ==> x.owned))
  }

  ghost predicate Respects(s: State, s': State, t: ThreadId, pc: Pc) {
    && s'.keep == s.keep && (s.closed ==> s'.closed)
    && (forall ref <- s.heap :: ref in s'.heap && Evolves(s.heap[ref], s'.heap[ref]))
    && (forall ref <- s.heap, u <- s.heap[ref].active :: u != t ==> u in s'.heap[ref].active)
    // only the owner of a state's lock starts closing it
    && (forall ref <- s.heap :: s'.heap[ref].closing && !s.heap[ref].closing ==> StateLock(ref) in Held(pc))
    // only a cleanup of a session takes it out of the map, under the runtime's lock
    && (forall id <- s.sessions ::
          || (id in s'.sessions && s'.sessions[id] == s.sessions[id])
          || (CleanupOf(pc) == Some(id) && RuntimeLock in Held(pc)))
    // nothing is added once the runtime is closed
    && (s.closed ==> SubMap(s'.sessions, s.sessions) && s'.heap.Keys == s.heap.Keys)
    // no workspace is added once every session is closing
    && (AllClosing(s) ==> s'.workspaces <= s.workspaces && s'.strays <= s.strays)
  }

  lemma UpdateRespects(
    s: State, ref: Ref, x: Session, workspaces: set<SessionId>, strays: set<SessionId>, t: ThreadId, pc: Pc)
    requires ref in s.heap && Evolves(s.heap[ref], x)
    requires forall u <- s.heap[ref].active :: u != t ==> u in x.active
    requires x.closing && !s.heap[ref].closing ==> StateLock(ref) in Held(pc)
    requires AllClosing(s) ==> workspaces <= s.workspaces && strays <= s.strays
    ensures Respects(s, WithSession(s, ref, x).(workspaces := workspaces, strays := strays), t, pc)
  {
  }

  lemma FoundRespects(s: State, id: SessionId, spare: Ref, t: ThreadId, pc: Pc)
    requires !s.closed && spare !in s.heap
    ensures Respects(s, Found(s, id, spare).1, t, pc)
  {
    var s' := Found(s, id, spare).1;
    assert s'.workspaces == s.workspaces && s'.strays == s.strays;
    assert forall ref <- s.heap :: ref in s'.heap && s'.heap[ref] == s.heap[ref];
    hide Found, AllClosing, Held;
  }

  lemma HalfMadeRespects(s: State, id: SessionId, ref: Ref, t: ThreadId, pc: Pc)
    requires ref in s.heap && !s.heap[ref].closing
    ensures Respects(s, HalfMade(s, id, ref), t, pc)
  {
  }

  lemma NothingRespects(s: State, t: ThreadId, pc: Pc)
    ensures Respects(s, s, t, pc)
  {
  }

  lemma JobRespects(s: State, t: ThreadId, pc: JobPc, c: Choice)
    requires JobOk(s, t, pc) && JobReady(s, pc, c)
    ensures Respects(s, JobMove(s, t, pc, c).1, t, AtJob(pc))
  {
    hide Respects;
    NothingRespects(s, t, AtJob(pc));
    match pc
    case JobLooksUp(id, _) =>
      if !s.closed { FoundRespects(s, id, c.spare, t, AtJob(pc)); }
    case JobPrepares(id, ref, _) =>
      if !s.heap[ref].closing {
        HalfMadeRespects(s, id, ref, t, AtJob(pc));
        UpdateRespects(s, ref, s.heap[ref].Prepared(), s.workspaces + {id}, s.strays - {id}, t, AtJob(pc));
      }
    case JobWorks(_, ref, _) =>
      UpdateRespects(s, ref, s.heap[ref].Started(t), s.workspaces, s.strays, t, AtJob(pc));
    case Forgetting(_, ref) =>
      UpdateRespects(s, ref, s.heap[ref].Forgotten(t), s.workspaces, s.strays, t, AtJob(pc));
    case _ =>
  }

  lemma CleanupRespects(s: State, t: ThreadId, pc: CleanupPc, c: Choice)
    requires CleanupOk(s, pc) && CleanupReady(s, pc, c)
    ensures Respects(s, CleanupMove(s, pc, c).1, t, AtCleanup(pc))
  {
    NothingRespects(s, t, AtCleanup(pc));
    match pc
    case CleanupLooksUp(id) =>
      if !s.closed { FoundRespects(s, id, c.spare, t, AtCleanup(pc)); }
    case Marking(_, ref) =>
      UpdateRespects(s, ref, s.heap[ref].Marked(), s.workspaces, s.strays, t, AtCleanup(pc));
    case Removing(id, ref) =>
      UpdateRespects(s, ref, s.heap[ref].Released(), s.workspaces - {id}, s.strays - {id}, t, AtCleanup(pc));
    case _ =>
  }

  lemma CloseRespects(s: State, t: ThreadId, pc: ClosePc, c: Choice)
    requires CloseOk(s, pc) && CloseReady(s, pc, c)
    ensures Respects(s, CloseMove(s, pc, c).1, t, AtClose(pc))
  {
    if pc.CloseMarking? {
      UpdateRespects(s, pc.todo[pc.id], s.heap[pc.todo[pc.id]].Marked(), s.workspaces, s.strays, t, AtClose(pc));
    }
  }

  lemma ScanRespects(s: State, t: ThreadId, pc: ScanPc, c: Choice)
    requires ScanReady(s, pc)
    ensures Respects(s, ScanMove(s, pc, c).1, t, AtScan(pc))
  {
  }

  /** What holds of a job goes on to hold when another thread moves. */
  lemma JobStaysOk(s: State, s': State, t: ThreadId, u: ThreadId, pc: JobPc)
    requires LocksHeld(s) && t in s.threads && u in s.threads && t != u && s.threads[u] == AtJob(pc)
    requires JobOk(s, u, pc) && Respects(s, s', t, s.threads[t])
    ensures JobOk(s', u, pc)
  {
    if pc.JobWorks? {
      assert StateLock(pc.ref) in Held(s.threads[u]);
      assert s.locks[StateLock(pc.ref)] == u;
      assert StateLock(pc.ref) !in Held(s.threads[t]);
    }
  }

  lemma CleanupStaysOk(s: State, s': State, t: ThreadId, u: ThreadId, pc: CleanupPc)
    requires OneCleanup(s) && t in s.threads && u in s.threads && t != u && s.threads[u] == AtCleanup(pc)
    requires CleanupOk(s, pc) && Respects(s, s', t, s.threads[t])
    ensures CleanupOk(s', pc)
  {
    assert CleanupOf(s.threads[u]) == Some(pc.id) != CleanupOf(s.threads[t]);
  }

  lemma CopiedStaysOk(s: State, s': State, t: ThreadId, pc: Pc, todo: Sessions, all: Sessions)
    requires Copied(s, todo, all) && Respects(s, s', t, pc)
    ensures Copied(s', todo, all)
    ensures Covered(s, todo) ==> Covered(s', todo)
    ensures AllClosing(s) ==> AllClosing(s')
    ensures AllClosing(s) ==> forall report :: Reported(s, todo, all, report) ==> Reported(s', todo, all, report)
  {
  }

  lemma CloseStaysOk(s: State, s': State, t: ThreadId, pc: ClosePc)
    requires t in s.threads && CloseOk(s, pc) && Respects(s, s', t, s.threads[t])
    ensures CloseOk(s', pc)
  {
    if !pc.CloseEnters? && !pc.ClosePlans? {
      CopiedStaysOk(s, s', t, s.threads[t], pc.todo, pc.all);
      assert pc.CloseRemoves? ==> RefOk(s, pc.id, pc.todo[pc.id]) && s'.heap[pc.todo[pc.id]].active == {};
    }
    hide Copied, Covered, Reported, AllClosing, Respects;
  }

  /** The runtime's lock keeps the map as the scan found it. */
  lemma ScanStaysOk(s: State, s': State, t: ThreadId, u: ThreadId, pc: ScanPc)
    requires LocksHeld(s) && t in s.threads && u in s.threads && t != u && s.threads[u] == AtScan(pc)
    requires ThreadOk(s, u, AtScan(pc)) && Respects(s, s', t, s.threads[t])
    ensures ThreadOk(s', u, AtScan(pc))
  {
    if pc.ScanWantsState? || pc.ScanInState? {
      assert RuntimeLock in Held(s.threads[u]);
      assert s.locks[RuntimeLock] == u;
      assert RuntimeLock !in Held(s.threads[t]);
    }
  }

  lemma OthersStayOk(s: State, s': State, t: ThreadId, u: ThreadId)
    requires Inv(s) && t in s.threads && u in s.threads && t != u
    requires Respects(s, s', t, s.threads[t])
    ensures ThreadOk(s', u, s.threads[u])
  {
    var pc := s.threads[u];
    assert ThreadOk(s, u, pc);
    match pc
    case AtJob(job) => JobStaysOk(s, s', t, u, job);
    case AtCleanup(cleanup) => CleanupStaysOk(s, s', t, u, cleanup);
    case AtClose(close) => CloseStaysOk(s, s', t, close);
    case Closed(all, _) =>
      CopiedStaysOk(s, s', t, s.threads[t], map[], all);
      hide Copied, Covered, Reported, AllClosing;
    case AtScan(scan) => ScanStaysOk(s, s', t, u, scan);
    case _ =>
  }

  /******* How a step leaves its own thread and the data *******/

  lemma FoundIsOk(s: State, id: SessionId, spare: Ref)
    requires DataInv(s) && spare !in s.heap
    ensures var (ref, s') := Found(s, id, spare); Attached(s', id, ref) && DataInv(s')
  {
    if id !in s.sessions {
      var s' := Found(s, id, spare).1;
      forall ref <- s'.heap ensures Attached(s', s'.heap[ref].id, ref) || Dead(s'.heap[ref]) {
        assert ref != spare ==> Attached(s, s.heap[ref].id, ref) || Dead(s.heap[ref]);
      }
    }
  }

  lemma JobMoveOk(s: State, t: ThreadId, pc: JobPc, c: Choice)
    requires DataInv(s) && JobOk(s, t, pc) && JobReady(s, pc, c)
    ensures var (pc', s') := JobMove(s, t, pc, c); ThreadOk(s', t, pc')
  {
    if pc.JobLooksUp? && !s.closed {
      FoundIsOk(s, pc.id, c.spare);
    }
    hide DataInv;
  }

  lemma CleanupMoveOk(s: State, t: ThreadId, pc: CleanupPc, c: Choice)
    requires DataInv(s) && CleanupOk(s, pc) && CleanupReady(s, pc, c)
    ensures var (pc', s') := CleanupMove(s, pc, c); ThreadOk(s', t, pc')
  {
    if pc.CleanupLooksUp? && !s.closed {
      FoundIsOk(s, pc.id, c.spare);
    }
    hide DataInv;
  }

  lemma CloseMarksOk(s: State, t: ThreadId, pc: ClosePc, c: Choice)
    requires DataInv(s) && CloseOk(s, pc) && CloseReady(s, pc, c)
    requires pc.ClosePlans? || pc.CloseMarks? || pc.CloseMarking?
    ensures var (pc', s') := CloseMove(s, pc, c); ThreadOk(s', t, pc')
  {
  }

  /** Reporting on one more session leaves the rest of the report right. */
  lemma ReportGrows(s: State, s': State, id: SessionId, todo: Sessions, all: Sessions, report: Report, v: Verdict)
    requires Copied(s, todo, all) && Reported(s, todo, all, report) && VerdictOk(s', id, v)
    requires s' == s.(workspaces := s'.workspaces, strays := s'.strays) && s'.workspaces <= s.workspaces
    ensures Copied(s', todo - {id}, all) && Reported(s', todo - {id}, all, report[id := v])
  {
  }

  lemma ClosePollingOk(s: State, t: ThreadId, pc: ClosePc, c: Choice)
    requires DataInv(s) && CloseOk(s, pc) && CloseReady(s, pc, c) && pc.ClosePolling?
    ensures var (pc', s') := CloseMove(s, pc, c); ThreadOk(s', t, pc')
  {
    var ref := pc.todo[pc.id];
    assert RefOk(s, pc.id, ref);
    var verdict := PollVerdict(s, s.heap[ref], c);
    if verdict.Some? {
      assert VerdictOk(s, pc.id, verdict.value);
      ReportGrows(s, s, pc.id, pc.todo, pc.all, pc.report, verdict.value);
    }
    hide DataInv, Copied, Reported, AllClosing;
  }

  lemma ClosePollsOk(s: State, t: ThreadId, pc: ClosePc, c: Choice)
    requires DataInv(s) && CloseOk(s, pc) && CloseReady(s, pc, c)
    requires pc.ClosePolls? || pc.CloseRemoves?
    ensures var (pc', s') := CloseMove(s, pc, c); ThreadOk(s', t, pc')
  {
    hide DataInv;
    if pc.CloseRemoves? {
      var s' := CloseMove(s, pc, c).1;
      ReportGrows(s, s', pc.id, pc.todo, pc.all, pc.report, if c.possible then Removed else Failed);
      hide Copied, Reported;
    }
  }

  /** Replacing a session by a fitting one keeps the data right. */
  lemma UpdateKeepsData(s: State, ref: Ref, x: Session, workspaces: set<SessionId>, strays: set<SessionId>)
    requires DataInv(s) && ref in s.heap && x.id == s.heap[ref].id
    requires Attached(s, x.id, ref) || Dead(x)
    requires x.closing ==> x.active <= x.killed
    requires forall id <- workspaces :: if Attached(s, id, ref) then x.owned else id in s.workspaces
    ensures DataInv(WithSession(s, ref, x).(workspaces := workspaces, strays := strays))
  {
  }

  lemma HalfMadeKeepsData(s: State, id: SessionId, ref: Ref)
    requires DataInv(s) && RefOk(s, id, ref) && !s.heap[ref].closing
    ensures DataInv(HalfMade(s, id, ref))
  {
  }

  lemma JobKeepsData(s: State, t: ThreadId, pc: JobPc, c: Choice)
    requires DataInv(s) && JobOk(s, t, pc) && JobReady(s, pc, c)
    ensures DataInv(JobMove(s, t, pc, c).1)
  {
    hide HalfMade;
    match pc
    case JobLooksUp(id, _) =>
      if !s.closed { FoundIsOk(s, id, c.spare); }
    case JobPrepares(id, ref, _) =>
      if !s.heap[ref].closing {
        HalfMadeKeepsData(s, id, ref);
        UpdateKeepsData(s, ref, s.heap[ref].Prepared(), s.workspaces + {id}, s.strays - {id});
      }
    case JobWorks(_, ref, _) =>
      UpdateKeepsData(s, ref, s.heap[ref].Started(t), s.workspaces, s.strays);
    case Forgetting(_, ref) =>
      UpdateKeepsData(s, ref, s.heap[ref].Forgotten(t), s.workspaces, s.strays);
    case _ =>
  }

  lemma CleanupKeepsData(s: State, t: ThreadId, pc: CleanupPc, c: Choice)
    requires DataInv(s) && CleanupOk(s, pc) && CleanupReady(s, pc, c)
    ensures DataInv(CleanupMove(s, pc, c).1)
  {
    match pc
    case CleanupLooksUp(id) =>
      if !s.closed { FoundIsOk(s, id, c.spare); }
    case Marking(_, ref) =>
      UpdateKeepsData(s, ref, s.heap[ref].Marked(), s.workspaces, s.strays);
    case Removing(id, ref) =>
      UpdateKeepsData(s, ref, s.heap[ref].Released(), s.workspaces - {id}, s.strays - {id});
    case _ =>
  }

  lemma CloseKeepsData(s: State, pc: ClosePc, c: Choice)
    requires DataInv(s) && CloseOk(s, pc) && CloseReady(s, pc, c)
    ensures DataInv(CloseMove(s, pc, c).1)
  {
    if pc.CloseMarking? {
      var ref := pc.todo[pc.id];
      UpdateKeepsData(s, ref, s.heap[ref].Marked(), s.workspaces, s.strays);
    }
  }

  lemma ScanMoveOk(s: State, t: ThreadId, pc: ScanPc, c: Choice)
    requires DataInv(s) && ScanReady(s, pc)
    ensures var (pc', s') := ScanMove(s, pc, c); DataInv(s') && ThreadOk(s', t, pc')
  {
  }

  lemma MoveOk(s: State, t: ThreadId, c: Choice)
    requires Inv(s) && t in s.threads && Ready(s, s.threads[t], c)
    ensures var (pc', s') := Move(s, t, s.threads[t], c);
            Respects(s, s', t, s.threads[t]) && DataInv(s') && ThreadOk(s', t, pc')
  {
    hide JobMove, CleanupMove, CloseMove, ScanMove, Respects, DataInv, LocksHeld, ActiveInv, OneCleanup;
    assert ThreadOk(s, t, s.threads[t]);
    match s.threads[t]
    case AtJob(pc) =>
      JobRespects(s, t, pc, c);
      JobKeepsData(s, t, pc, c);
      JobMoveOk(s, t, pc, c);
    case AtCleanup(pc) =>
      CleanupRespects(s, t, pc, c);
      CleanupKeepsData(s, t, pc, c);
      CleanupMoveOk(s, t, pc, c);
    case AtClose(pc) =>
      CloseRespects(s, t, pc, c);
      CloseKeepsData(s, pc, c);
      if pc.ClosePlans? || pc.CloseMarks? || pc.CloseMarking? {
        CloseMarksOk(s, t, pc, c);
      } else if pc.ClosePolling? {
        ClosePollingOk(s, t, pc, c);
      } else {
        ClosePollsOk(s, t, pc, c);
      }
    case AtScan(pc) =>
      ScanRespects(s, t, pc, c);
      ScanMoveOk(s, t, pc, c);
  }

  /******* The invariant over whole runs *******/

  /** `u` can only become active under `ref` by being thread `t`, which then runs a command there. */
  ghost predicate ActiveGrowsBy(s: State, s': State, t: ThreadId, pc': Pc, ref: Ref, u: ThreadId) {
    ref in s'.heap && u in s'.heap[ref].active ==>
      if u == t then RunsUnder(pc', ref) else ref in s.heap && u in s.heap[ref].active
  }

  lemma JobActive(s: State, t: ThreadId, pc: JobPc, c: Choice, ref: Ref, u: ThreadId)
    requires JobReady(s, pc, c)
    requires ref in s.heap && t in s.heap[ref].active ==> RunsUnder(AtJob(pc), ref)
    ensures var (pc', s') := JobMove(s, t, pc, c); ActiveGrowsBy(s, s', t, pc', ref, u)
  {
  }

  lemma CleanupActive(s: State, t: ThreadId, pc: CleanupPc, c: Choice, ref: Ref, u: ThreadId)
    requires CleanupReady(s, pc, c)
    requires ref in s.heap ==> t !in s.heap[ref].active
    ensures var (pc', s') := CleanupMove(s, pc, c); ActiveGrowsBy(s, s', t, pc', ref, u)
  {
  }

  lemma CloseActive(s: State, t: ThreadId, pc: ClosePc, c: Choice, ref: Ref, u: ThreadId)
    requires CloseReady(s, pc, c)
    requires ref in s.heap ==> t !in s.heap[ref].active
    ensures var (pc', s') := CloseMove(s, pc, c); ActiveGrowsBy(s, s', t, pc', ref, u)
  {
  }

  /** Only a command's own thread adds it to or takes it out of a set of active commands. */
  lemma MoveKeepsActive(s: State, t: ThreadId, c: Choice, ref: Ref, u: ThreadId)
    requires ActiveInv(s) && t in s.threads && Ready(s, s.threads[t], c)
    ensures var (pc', s') := Move(s, t, s.threads[t], c); ActiveGrowsBy(s, s', t, pc', ref, u)
  {
    hide JobMove, CleanupMove, CloseMove;
    assert ref in s.heap && t in s.heap[ref].active ==> RunsUnder(s.threads[t], ref);
    match s.threads[t]
    case AtJob(pc) => JobActive(s, t, pc, c, ref, u); hide ActiveGrowsBy;
    case AtCleanup(pc) => CleanupActive(s, t, pc, c, ref, u); hide ActiveGrowsBy;
    case AtClose(pc) => CloseActive(s, t, pc, c, ref, u); hide ActiveGrowsBy;
    case AtScan(_) =>
  }

  lemma StepKeepsActive(s: State, step: Step)
    requires ActiveInv(s) && Enabled(s, step)
    ensures ActiveInv(Apply(s, step))
  {
    var s' := Apply(s, step);
    match step
    case Advance(t, c) =>
      forall ref <- s'.heap, u <- s'.heap[ref].active ensures u in s'.threads && RunsUnder(s'.threads[u], ref) {
        MoveKeepsActive(s, t, c, ref, u);
        hide Move;
      }
    case _ => assert s'.heap == s.heap;
  }

  lemma MoveKeepsCleanup(s: State, t: ThreadId, pc: Pc, c: Choice)
    requires Ready(s, pc, c)
    ensures CleanupOf(Move(s, t, pc, c).0) in {CleanupOf(pc), None}
  {
  }

  lemma StepKeepsOneCleanup(s: State, step: Step)
    requires OneCleanup(s) && Enabled(s, step)
    ensures OneCleanup(Apply(s, step))
  {
    match step
    case Advance(t, c) => MoveKeepsCleanup(s, t, s.threads[t], c); hide Move, Ready;
    case Acquire(t) => assert CleanupOf(Granted(s.threads[t])) == CleanupOf(s.threads[t]);
    case _ =>
  }

  /** A thread that goes somewhere else without touching the data leaves everything said of threads in place. */
  lemma GotoKeepsThreadOk(s: State, t: ThreadId, next: Pc, u: ThreadId, pc: Pc)
    ensures ThreadOk(Goto(s, t, next), u, pc) == ThreadOk(s, u, pc)
  {
    hide Held, Taken, HeldRef;
  }

  lemma GrantedOk(s: State, t: ThreadId)
    requires Inv(s) && t in s.threads && Wanted(s.threads[t]).Some? && Wanted(s.threads[t]).value !in s.locks
    ensures ThreadOk(s, t, Granted(s.threads[t]))
  {
    assert ThreadOk(s, t, s.threads[t]);
  }

  lemma StepKeepsThreads(s: State, step: Step)
    requires Inv(s) && Enabled(s, step)
    ensures ThreadsOk(Apply(s, step)) && DataInv(Apply(s, step))
  {
    hide LocksHeld, ActiveInv, OneCleanup;
    match step
    case Begin(t, pc) => QuietStepKeepsThreads(s, t, pc);
    case Acquire(t) =>
      GrantedOk(s, t);
      QuietStepKeepsThreads(s, t, Granted(s.threads[t]));
    case Cancel(t) => QuietStepKeepsThreads(s, t, Ended);
    case Advance(t, c) =>
      MoveOk(s, t, c);
      var (pc, s') := Move(s, t, s.threads[t], c);
      forall u <- s.threads | u != t ensures ThreadOk(s', u, s.threads[u]) {
        OthersStayOk(s, s', t, u);
      }
      forall u <- Goto(s', t, pc).threads ensures ThreadOk(Goto(s', t, pc), u, Goto(s', t, pc).threads[u]) {
        GotoKeepsThreadOk(s', t, pc, u, Goto(s', t, pc).threads[u]);
        hide Move, Respects, DataInv, ThreadOk;
      }
  }

  lemma QuietStepKeepsThreads(s: State, t: ThreadId, pc: Pc)
    requires ThreadsOk(s) && DataInv(s) && ThreadOk(s, t, pc)
    ensures ThreadsOk(Goto(s, t, pc)) && DataInv(Goto(s, t, pc))
  {
    forall u <- Goto(s, t, pc).threads ensures ThreadOk(Goto(s, t, pc), u, Goto(s, t, pc).threads[u]) {
      GotoKeepsThreadOk(s, t, pc, u, Goto(s, t, pc).threads[u]);
      hide ThreadOk, DataInv;
    }
  }

  lemma StepKeepsInv(s: State, step: Step)
    requires Inv(s) && Enabled(s, step)
    ensures Inv(Apply(s, step))
  {
    StepKeepsLocks(s, step);
    StepKeepsActive(s, step);
    StepKeepsOneCleanup(s, step);
    StepKeepsThreads(s, step);
    hide Apply, Enabled, LocksHeld, DataInv, ActiveInv, OneCleanup, ThreadsOk;
  }

  lemma InitialInv(keep: bool)
    ensures Inv(Initial(keep))
  {
  }

  lemma {:induction false} InvAlways(states: seq<State>, steps: seq<Step>, keep: bool, n: nat)
    requires IsRun(states, steps, keep) && n < |states|
    ensures Inv(states[n])
  {
    hide Apply, Enabled, Inv;
    if n == 0 {
      InitialInv(keep);
    } else {
      InvAlways(states, steps, keep, n - 1);
      StepKeepsInv(states[n - 1], steps[n - 1]);
    }
  }

  /******* Closing sessions *******/

  predicate StartsCommand(s: State, step: Step) {
    && step.Advance? && step.t in s.threads && s.threads[step.t].AtJob? && s.threads[step.t].job.JobWorks?
    && s.threads[step.t].job.command && step.choice.possible
  }

  /** The step starts a command on a session state. */
  predicate Starts(s: State, step: Step, ref: Ref) {
    StartsCommand(s, step) && s.threads[step.t].job.ref == ref
  }

  /** What all steps have in common: they follow `Respects` for the thread that moves. */
  lemma StepEvolves(s: State, step: Step)
    requires Inv(s) && Enabled(s, step)
    ensures forall ref <- s.heap :: ref in Apply(s, step).heap && Evolves(s.heap[ref], Apply(s, step).heap[ref])
    ensures s.closed ==> Apply(s, step).closed && Apply(s, step).heap.Keys == s.heap.Keys
    ensures Apply(s, step).keep == s.keep
    ensures AllClosing(s) ==> Apply(s, step).workspaces <= s.workspaces && Apply(s, step).strays <= s.strays
  {
    if step.Advance? {
      MoveOk(s, step.t, step.choice);
      hide Move, Inv, DataInv, ThreadOk;
    }
  }

  lemma StartingSessionIsOpen(s: State, step: Step, ref: Ref)
    requires Inv(s) && Enabled(s, step) && Starts(s, step, ref)
    ensures ref in s.heap && !s.heap[ref].closing
    ensures ref in Apply(s, step).heap && step.t in Apply(s, step).heap[ref].active
  {
    assert ThreadOk(s, step.t, s.threads[step.t]);
  }

  /** What `ref` has become in `s'`, given that it was closing in `s`. */
  ghost predicate StillClosing(s: State, s': State, ref: Ref) {
    && ref in s.heap && ref in s'.heap && s'.heap[ref].closing
    && s'.heap[ref].active <= s.heap[ref].active && (s'.heap[ref].owned ==> s.heap[ref].owned)
  }

  lemma StepKeepsClosing(s: State, step: Step, ref: Ref)
    requires Inv(s) && Enabled(s, step) && ref in s.heap && s.heap[ref].closing
    ensures StillClosing(s, Apply(s, step), ref)
  {
    StepEvolves(s, step);
    hide Apply, Enabled, Inv;
  }

  /** A closing session stays closing, loses commands only, and never regains a workspace. */
  lemma {:induction false} ClosingIsFinal(states: seq<State>, steps: seq<Step>, keep: bool, a: nat, b: nat, ref: Ref)
    requires IsRun(states, steps, keep) && a <= b < |states|
    requires ref in states[a].heap && states[a].heap[ref].closing
    ensures StillClosing(states[a], states[b], ref)
  {
    hide Apply, Enabled, Inv;
    if a < b {
      ClosingIsFinal(states, steps, keep, a, b - 1, ref);
      InvAlways(states, steps, keep, b - 1);
      StepKeepsClosing(states[b - 1], steps[b - 1], ref);
    }
  }

  /** Once a session state is marked as closing, no command is ever started on it. */
  lemma NoStartOnceClosing(states: seq<State>, steps: seq<Step>, keep: bool, a: nat, b: nat, ref: Ref)
    requires IsRun(states, steps, keep) && a <= b < |steps|
    requires ref in states[a].heap && states[a].heap[ref].closing
    ensures !Starts(states[b], steps[b], ref)
  {
    hide Apply, Enabled, Inv, Starts;
    ClosingIsFinal(states, steps, keep, a, b, ref);
    InvAlways(states, steps, keep, b);
    if Starts(states[b], steps[b], ref) {
      StartingSessionIsOpen(states[b], steps[b], ref);
    }
  }

  ghost predicate OneOpen(s: State) {
    forall a <- s.heap, b <- s.heap ::
      s.heap[a].id == s.heap[b].id && !s.heap[a].closing && !s.heap[b].closing ==> a == b
  }

  /** At most one state of a session is open; every command of a closing one has been sent a kill. */
  lemma OneOpenState(states: seq<State>, steps: seq<Step>, keep: bool, n: nat)
    requires IsRun(states, steps, keep) && n < |states|
    ensures OneOpen(states[n])
    ensures forall a <- states[n].heap ::
              states[n].heap[a].closing ==> states[n].heap[a].active <= states[n].heap[a].killed
  {
    InvAlways(states, steps, keep, n);
    hide IsRun, LocksHeld, ActiveInv, OneCleanup, ThreadsOk;
  }

  /** The map leads to states of the right session. */
  ghost predicate MapRight(s: State) {
    forall id <- s.sessions :: RefOk(s, id, s.sessions[id])
  }

  /** Every state that is not closing is in the map. */
  ghost predicate OpenMapped(s: State) {
    forall ref <- s.heap :: s.heap[ref].closing || Attached(s, s.heap[ref].id, ref)
  }

  /**
   What rules overlapping cleanups out: a cleanup deletes by session ID, not by state. The
   next lookup of the session leaves one open state exactly if the state that was deleted
   from the map is a closing one, which it is when no second cleanup has come in between.
   */
  lemma DeletingKeepsOneOpenExactly(s: State, t: ThreadId, c: Choice, id: SessionId, spare: Ref)
    requires MapRight(s) && OpenMapped(s) && !s.closed && t in s.threads && spare !in s.heap
    requires s.threads[t].AtCleanup? && s.threads[t].cleanup.Deleting? && s.threads[t].cleanup.id == id
    ensures var s' := Found(Apply(s, Advance(t, c)), id, spare).1;
            OneOpen(s') <==> (id in s.sessions ==> s.heap[s.sessions[id]].closing)
  {
    var s' := Found(Apply(s, Advance(t, c)), id, spare).1;
    assert s'.heap == s.heap[spare := Session(id, false, {}, false, {})];
    hide Apply, Enabled, Found;
    if id in s.sessions && !s.heap[s.sessions[id]].closing {
      assert s'.heap[s.sessions[id]].id == s'.heap[spare].id;
    }
  }

  /** No thread waits for a command of this session. */
  ghost predicate Quiet(s: State, id: SessionId) {
    forall t <- s.threads :: !(s.threads[t].AtJob? && s.threads[t].job.Running? && s.threads[t].job.id == id)
  }

  lemma IdleIsQuiet(s: State, id: SessionId, ref: Ref)
    requires DataInv(s) && ThreadsOk(s) && RefOk(s, id, ref) && s.heap[ref].active == {}
    requires id in s.sessions ==> s.sessions[id] == ref
    ensures Quiet(s, id)
  {
    forall t <- s.threads ensures !(s.threads[t].AtJob? && s.threads[t].job.Running? && s.threads[t].job.id == id) {
      assert ThreadOk(s, t, s.threads[t]);
    }
  }

  /** Where a workspace is removed: `cleanupSession` and `Close`. */
  predicate Removes(pc: Pc, id: SessionId) {
    || (pc.AtCleanup? && pc.cleanup.Removing? && pc.cleanup.id == id)
    || (pc.AtClose? && pc.close.CloseRemoves? && pc.close.id == id)
  }

  /**
   Whichever of the two removes a workspace, no command of that session has an outstanding
   wait at that moment, and only the workspace of that session goes.
   */
  lemma RemovalIsQuiet(states: seq<State>, steps: seq<Step>, keep: bool, n: nat, id: SessionId)
    requires IsRun(states, steps, keep) && n < |steps| && steps[n].Advance?
    requires Removes(states[n].threads[steps[n].t], id)
    ensures Quiet(states[n], id)
    ensures states[n + 1].workspaces in {states[n].workspaces, states[n].workspaces - {id}}
  {
    var s, t := states[n], steps[n].t;
    InvAlways(states, steps, keep, n);
    assert ThreadOk(s, t, s.threads[t]);
    var ref := if s.threads[t].AtCleanup? then s.threads[t].cleanup.ref else s.threads[t].close.todo[id];
    hide LocksHeld, ActiveInv, OneCleanup;
    assert Quiet(s, id) by { IdleIsQuiet(s, id, ref); }
    hide Quiet, DataInv, ThreadsOk, Reported;
  }

  /** The workspace's directory exists. */
  predicate Exists(s: State, id: SessionId) {
    id in s.workspaces || id in s.strays
  }

  /** A workspace only ever disappears in such a removal, or because it has expired. */
  lemma OnlyRemovalsRemove(states: seq<State>, steps: seq<Step>, keep: bool, n: nat, id: SessionId)
    requires IsRun(states, steps, keep) && n < |steps|
    requires Exists(states[n], id) && !Exists(states[n + 1], id)
    ensures steps[n].Advance?
    ensures Removes(states[n].threads[steps[n].t], id) || states[n].threads[steps[n].t] == AtScan(ScanRemoves(id))
  {
    var s, step := states[n], steps[n];
    assert Enabled(s, step) && states[n + 1] == Apply(s, step);
    hide IsRun;
    if step.Advance? {
      OnlyRemovingMovesRemove(s, step.t, s.threads[step.t], step.choice, id);
      hide Move;
    }
  }

  lemma OnlyRemovingMovesRemove(s: State, t: ThreadId, pc: Pc, c: Choice, id: SessionId)
    requires Ready(s, pc, c) && Exists(s, id) && !Exists(Move(s, t, pc, c).1, id)
    ensures Removes(pc, id) || pc == AtScan(ScanRemoves(id))
  {
  }

  /******* Expired workspaces *******/

  predicate IsRunning(s: State, t: ThreadId, id: SessionId) {
    t in s.threads && s.threads[t].AtJob? && s.threads[t].job.Running? && s.threads[t].job.id == id
  }

  /** The step starts a command of a session. */
  predicate StartsIn(s: State, step: Step, id: SessionId) {
    StartsCommand(s, step) && s.threads[step.t].job.id == id
  }

  /** The step is a thread's finding that a session with an expired workspace is inactive. */
  predicate FindsInactive(s: State, step: Step, id: SessionId) {
    && step.Advance? && step.t in s.threads && s.threads[step.t].AtScan? && ScanReady(s, s.threads[step.t].scan)
    && ScanMove(s, s.threads[step.t].scan, step.choice).0 == AtScan(ScanRemoves(id))
  }

  lemma InactiveIsQuiet(s: State, step: Step, id: SessionId)
    requires Inv(s) && Enabled(s, step) && FindsInactive(s, step, id)
    ensures Quiet(s, id)
  {
    var scan := s.threads[step.t].scan;
    assert ThreadOk(s, step.t, s.threads[step.t]);
    if scan.ScanInState? {
      IdleIsQuiet(s, id, scan.ref);
    } else {
      forall t <- s.threads ensures !IsRunning(s, t, id) {
        assert ThreadOk(s, t, s.threads[t]);
      }
    }
  }

  lemma RunningHasStarted(s: State, step: Step, id: SessionId, t: ThreadId)
    requires Enabled(s, step) && IsRunning(Apply(s, step), t, id)
    ensures IsRunning(s, t, id) || (StartsIn(s, step, id) && step.t == t)
  {
  }

  /** Every command that runs when an expired workspace is removed was started after the check. */
  lemma {:induction false} ExpiryHitsNewCommands(
    states: seq<State>, steps: seq<Step>, keep: bool, m: nat, n: nat, id: SessionId, t: ThreadId)
    requires IsRun(states, steps, keep) && m < n < |states| && FindsInactive(states[m], steps[m], id)
    requires IsRunning(states[n], t, id)
    ensures exists j: nat :: m < j < n && StartsIn(states[j], steps[j], id) && steps[j].t == t
  {
    hide Apply, Enabled, Inv, StartsIn, FindsInactive, IsRunning;
    RunningHasStarted(states[n - 1], steps[n - 1], id, t);
    if n - 1 == m {
      InvAlways(states, steps, keep, m);
      InactiveIsQuiet(states[m], steps[m], id);
      NotAtOnce(states[m], steps[m], id, t);
    } else if IsRunning(states[n - 1], t, id) {
      ExpiryHitsNewCommands(states, steps, keep, m, n - 1, id, t);
    }
  }

  lemma NotAtOnce(s: State, step: Step, id: SessionId, t: ThreadId)
    requires Quiet(s, id) && FindsInactive(s, step, id)
    ensures !IsRunning(s, t, id) && !StartsIn(s, step, id)
  {
  }

  /** The wait of the command that thread `t` runs comes to its end. */
  predicate EndsWait(s: State, step: Step, t: ThreadId) {
    step.Advance? && step.t == t && t in s.threads && s.threads[t].AtJob? && s.threads[t].job.Running?
  }

  /** The thread runs no command any more. */
  predicate HasEnded(s: State, t: ThreadId) {
    t in s.threads
    && (s.threads[t].Ended? || (s.threads[t].AtJob? && (s.threads[t].job.Reaping? || s.threads[t].job.Forgetting?)))
  }

  lemma RunningGoesOn(s: State, step: Step, id: SessionId, t: ThreadId)
    requires Enabled(s, step)
    ensures IsRunning(s, t, id) && !EndsWait(s, step, t) ==> IsRunning(Apply(s, step), t, id)
    ensures EndsWait(s, step, t) || HasEnded(s, t) ==> HasEnded(Apply(s, step), t)
    ensures StartsIn(s, step, id) && step.t == t ==> IsRunning(Apply(s, step), t, id)
  {
    hide Wanted, Taken, HeldRef, Held;
  }

  lemma {:induction false} EndedStays(
    states: seq<State>, steps: seq<Step>, keep: bool, k: nat, n: nat, id: SessionId, t: ThreadId)
    requires IsRun(states, steps, keep) && k < n < |states| && EndsWait(states[k], steps[k], t)
    ensures HasEnded(states[n], t)
  {
    hide Apply, Enabled, EndsWait, HasEnded, IsRunning, StartsIn;
    if k < n - 1 {
      EndedStays(states, steps, keep, k, n - 1, id, t);
    }
    RunningGoesOn(states[n - 1], steps[n - 1], id, t);
  }

  lemma {:induction false} RunsUntilEnded(
    states: seq<State>, steps: seq<Step>, keep: bool, j: nat, n: nat, id: SessionId, t: ThreadId)
    requires IsRun(states, steps, keep) && j < n < |states|
    requires StartsIn(states[j], steps[j], id) && steps[j].t == t
    requires forall k: nat :: j < k < n ==> !EndsWait(states[k], steps[k], t)
    ensures IsRunning(states[n], t, id)
  {
    hide Apply, Enabled, EndsWait, HasEnded, IsRunning, StartsIn;
    if j < n - 1 {
      RunsUntilEnded(states, steps, keep, j, n - 1, id, t);
    }
    RunningGoesOn(states[n - 1], steps[n - 1], id, t);
  }

  /** Every command of the session that was started between two instants has come to its end by the second. */
  ghost predicate StartedHaveEnded(states: seq<State>, steps: seq<Step>, m: nat, n: nat, id: SessionId)
    requires n <= |steps| < |states|
  {
    forall j: nat :: m < j < n && StartsIn(states[j], steps[j], id) ==>
      exists k: nat :: j < k < n && EndsWait(states[k], steps[k], steps[j].t)
  }

  /**
   Removing an expired workspace is not safe as such, because nothing is locked between the
   check and the removal. No command runs in it then exactly if every command of the session
   that has been started since the check has come to its end.
   */
  lemma ExpiryIsQuietExactly(states: seq<State>, steps: seq<Step>, keep: bool, m: nat, n: nat, id: SessionId)
    requires IsRun(states, steps, keep) && m < n < |states| && FindsInactive(states[m], steps[m], id)
    ensures Quiet(states[n], id) <==> StartedHaveEnded(states, steps, m, n, id)
  {
    hide FindsInactive, StartsIn, EndsWait, Apply, Enabled;
    if t :| t in states[n].threads && IsRunning(states[n], t, id) {
      ExpiryHitsNewCommands(states, steps, keep, m, n, id, t);
      var j: nat :| m < j < n && StartsIn(states[j], steps[j], id) && steps[j].t == t;
      forall k: nat | j < k < n ensures !EndsWait(states[k], steps[k], t) {
        if EndsWait(states[k], steps[k], t) {
          EndedStays(states, steps, keep, k, n, id, t);
        }
      }
    } else if !StartedHaveEnded(states, steps, m, n, id) {
      var j: nat :| m < j < n && StartsIn(states[j], steps[j], id)
                    && !exists k: nat :: j < k < n && EndsWait(states[k], steps[k], steps[j].t);
      RunsUntilEnded(states, steps, keep, j, n, id, steps[j].t);
    }
  }

  /******* After Close *******/

  /** `Close` has marked every session it copied. */
  predicate HasMarked(pc: Pc) {
    || pc.Closed?
    || (pc.AtClose? &&
        (pc.close.ClosePolls? || pc.close.CloseWantsPoll? || pc.close.ClosePolling? || pc.close.CloseRemoves?))
  }

  /** Every session state that exists is closing, and none can be added. */
  ghost predicate ShutDown(s: State, refs: set<Ref>) {
    s.closed && AllClosing(s) && s.heap.Keys == refs
  }

  lemma MarkedIsShutDown(s: State, t: ThreadId)
    requires Inv(s) && t in s.threads && HasMarked(s.threads[t])
    ensures ShutDown(s, s.heap.Keys)
  {
    assert ThreadOk(s, t, s.threads[t]);
    hide Reported, LocksHeld, DataInv, ActiveInv, OneCleanup;
  }

  lemma StaysShutDown(s: State, step: Step, refs: set<Ref>)
    requires Inv(s) && Enabled(s, step) && ShutDown(s, refs)
    ensures ShutDown(Apply(s, step), refs)
    ensures Apply(s, step).workspaces <= s.workspaces && Apply(s, step).strays <= s.strays
  {
    StepEvolves(s, step);
    hide Apply, Enabled, Inv;
  }

  lemma {:induction false} AllStayClosing(states: seq<State>, steps: seq<Step>, keep: bool, a: nat, b: nat, t: ThreadId)
    requires IsRun(states, steps, keep) && a <= b < |states|
    requires t in states[a].threads && HasMarked(states[a].threads[t])
    ensures ShutDown(states[b], states[a].heap.Keys)
    ensures states[b].workspaces <= states[a].workspaces && states[b].strays <= states[a].strays
  {
    hide Apply, Enabled, Inv, ShutDown, HasMarked;
    InvAlways(states, steps, keep, b);
    if a < b {
      AllStayClosing(states, steps, keep, a, b - 1, t);
      InvAlways(states, steps, keep, b - 1);
      StaysShutDown(states[b - 1], steps[b - 1], states[a].heap.Keys);
    } else {
      MarkedIsShutDown(states[a], t);
    }
  }

  /** From then on no command starts on any session that ever existed, and no workspace appears. */
  lemma NoStartAfterClose(states: seq<State>, steps: seq<Step>, keep: bool, a: nat, b: nat, t: ThreadId, ref: Ref)
    requires IsRun(states, steps, keep) && a <= b < |steps|
    requires t in states[a].threads && HasMarked(states[a].threads[t])
    ensures !Starts(states[b], steps[b], ref)
    ensures states[b + 1].workspaces <= states[b].workspaces && states[b + 1].strays <= states[b].strays
  {
    hide Apply, Enabled, Inv, Starts, HasMarked;
    AllStayClosing(states, steps, keep, a, b, t);
    InvAlways(states, steps, keep, b);
    StaysShutDown(states[b], steps[b], states[a].heap.Keys);
    if Starts(states[b], steps[b], ref) {
      StartingSessionIsOpen(states[b], steps[b], ref);
    }
  }

  /**
   When `Close` returns, a workspace that is left is kept by configuration, or covered by an
   error, or one that preparation left half-made and that nobody owns.
   */
  lemma CloseAccountsForWorkspaces(states: seq<State>, steps: seq<Step>, keep: bool, n: nat, t: ThreadId, id: SessionId)
    requires IsRun(states, steps, keep) && n < |states|
    requires t in states[n].threads && states[n].threads[t].Closed? && Exists(states[n], id)
    ensures id in states[n].workspaces ==>
              && id in states[n].threads[t].report
              && (keep || states[n].threads[t].report[id] == Failed)
    ensures keep || (id in states[n].threads[t].report && states[n].threads[t].report[id] == Failed)
            || id in states[n].strays
  {
    InvAlways(states, steps, keep, n);
    KeepNeverChanges(states, steps, keep, n);
    assert ThreadOk(states[n], t, states[n].threads[t]);
    hide IsRun, LocksHeld, ActiveInv, OneCleanup;
  }

  lemma {:induction false} KeepNeverChanges(states: seq<State>, steps: seq<Step>, keep: bool, n: nat)
    requires IsRun(states, steps, keep) && n < |states|
    ensures states[n].keep == keep
  {
    hide Possible, Move;
    if n > 0 {
      KeepNeverChanges(states, steps, keep, n - 1);
      assert states[n] == Apply(states[n - 1], steps[n - 1]);
      hide IsRun;
    }
  }

  /******* No lock-wait cycle *******/

  /** Thread `t` waits for a lock that thread `u` holds. */
  predicate Waits(s: State, t: ThreadId, u: ThreadId) {
    && t in s.threads && Wanted(s.threads[t]).Some?
    && Wanted(s.threads[t]).value in s.locks && s.locks[Wanted(s.threads[t]).value] == u
  }

  ghost predicate WaitChain(s: State, ts: seq<ThreadId>) {
    forall i :: 0 <= i < |ts| - 1 ==> Waits(s, ts[i], ts[i + 1])
  }

  /** A holder that waits is the scan: it holds the runtime's lock and wants a state's. */
  lemma HoldersWaitInOrder(s: State, t: ThreadId, u: ThreadId)
    requires LocksHeld(s) && Waits(s, t, u)
    ensures u in s.threads
    ensures Wanted(s.threads[u]).Some? ==>
              Wanted(s.threads[t]).value == RuntimeLock && Wanted(s.threads[u]).value.StateLock?
  {
    var l := Wanted(s.threads[t]).value;
    assert s.locks[l] == u;
    assert l in Held(s.threads[u]);
    hide LocksHeld;
  }

  /** Waiting never reaches further than two locks, so no chain of waiting threads comes back to itself. */
  lemma WaitChainsAreShort(states: seq<State>, steps: seq<Step>, keep: bool, n: nat, ts: seq<ThreadId>)
    requires IsRun(states, steps, keep) && n < |states| && WaitChain(states[n], ts)
    ensures |ts| <= 3
    ensures forall i, j :: 0 <= i < j < |ts| ==> ts[i] != ts[j]
  {
    InvAlways(states, steps, keep, n);
    var s := states[n];
    hide IsRun, Inv, DataInv;
    assert LocksHeld(s) by { assert Inv(s); }
    hide LocksHeld, Wanted;
    if |ts| > 1 {
      assert Waits(s, ts[0], ts[1]);
      HoldersWaitInOrder(s, ts[0], ts[1]);
      if |ts| > 2 {
        assert Waits(s, ts[1], ts[2]);
        HoldersWaitInOrder(s, ts[1], ts[2]);
        assert |ts| > 3 ==> Waits(s, ts[2], ts[3]);
      }
    }
  }

  lemma {:induction false} FreshRef(refs: set<Ref>) returns (ref: Ref)
    ensures forall r <- refs :: r < ref
    decreases |refs|
  {
    if refs == {} {
      ref := 0;
    } else {
      var r :| r in refs;
      var above := FreshRef(refs - {r});
      assert refs == refs - {r} + {r};
      ref := if r < above then above else r + 1;
    }
  }

  /** A thread that has not ended and waits for no lock can go on, whatever the other threads do. */
  lemma CanAdvance(s: State, t: ThreadId) returns (c: Choice)
    requires Inv(s) && t in s.threads && Wanted(s.threads[t]).None?
    requires !s.threads[t].Ended? && !s.threads[t].Closed?
    ensures Ready(s, s.threads[t], c)
  {
    var pc := s.threads[t];
    assert ThreadOk(s, t, pc);
    hide LocksHeld, DataInv, ActiveInv, OneCleanup, Reported, Covered, AllClosing;
    var spare := FreshRef(s.heap.Keys);
    var pick: SessionId := 0;
    if pc.AtClose? && (pc.close.CloseMarks? || pc.close.ClosePolls?) && pc.close.todo != map[] {
      assert pc.close.todo.Keys != {};
      pick :| pick in pc.close.todo;
    }
    c := Choice(true, true, true, pick, spare);
  }

  /** A step of thread `t` itself. */
  predicate IsStepOf(step: Step, t: ThreadId) {
    (step.Acquire? || step.Advance?) && step.t == t
  }

  /**
   No deadlock: as long as a thread has not ended, it or a thread it waits for,
   directly or through one more thread, can take a step.
   */
  lemma AlwaysProgress(states: seq<State>, steps: seq<Step>, keep: bool, n: nat, t: ThreadId)
    returns (step: Step, ts: seq<ThreadId>)
    requires IsRun(states, steps, keep) && n < |states| && t in states[n].threads
    requires !states[n].threads[t].Ended? && !states[n].threads[t].Closed?
    ensures 1 <= |ts| <= 3 && ts[0] == t && WaitChain(states[n], ts)
    ensures IsStepOf(step, ts[|ts| - 1]) && Enabled(states[n], step)
  {
    InvAlways(states, steps, keep, n);
    var s := states[n];
    hide IsRun;
    ts := [t];
    step := StepOrHolder(s, t);
    if step.t != t {
      ts := ts + [step.t];
      HoldersWaitInOrder(s, t, step.t);
      HolderNotEnded(s, t, step.t);
      var u := step.t;
      step := StepOrHolder(s, u);
      if step.t != u {
        ts := ts + [step.t];
        HoldersWaitInOrder(s, u, step.t);
        HolderNotEnded(s, u, step.t);
        var v := step.t;
        step := StepOrHolder(s, v);
      }
    }
  }

  lemma HolderNotEnded(s: State, t: ThreadId, u: ThreadId)
    requires LocksHeld(s) && Waits(s, t, u)
    ensures u in s.threads && !s.threads[u].Ended? && !s.threads[u].Closed?
  {
    assert Wanted(s.threads[t]).value in Held(s.threads[u]);
  }

  /** An enabled step of thread `t`, or an acquisition by the thread that holds the lock it waits for. */
  lemma StepOrHolder(s: State, t: ThreadId) returns (step: Step)
    requires Inv(s) && t in s.threads && !s.threads[t].Ended? && !s.threads[t].Closed?
    ensures step.t != t ==> Waits(s, t, step.t)
    ensures step.t == t ==> IsStepOf(step, t) && Enabled(s, step)
  {
    if Wanted(s.threads[t]).Some? {
      var l := Wanted(s.threads[t]).value;
      step := Acquire(if l in s.locks then s.locks[l] else t);
      assert l !in Held(s.threads[t]);
    } else {
      var c := CanAdvance(s, t);
      step := Advance(t, c);
    }
  }

  /******* Runs that show what is not guaranteed *******/

  const NEW := Session(0, false, {}, false, {})
  const OLD := Session(0, false, {}, true, {})
  const WAITS := AtCleanup(WantsDelete(0, 0))
  const ENTERS := AtJob(JobEnters(0, true))

  function Choose(spare: Ref): Choice {
    Choice(true, true, true, 0, spare)
  }

  /** A run of the code in which callers do as they like. */
  ghost predicate IsFreeRun(states: seq<State>, steps: seq<Step>, keep: bool) {
    && |states| == |steps| + 1
    && states[0] == Initial(keep)
    && forall i :: 0 <= i < |steps| ==> Possible(states[i], steps[i]) && states[i + 1] == Apply(states[i], steps[i])
  }

  /** The session that a step deletes from the map. */
  function Deleted(s: State, step: Step): Option<SessionId> {
    if step.Advance? && step.t in s.threads && s.threads[step.t].AtCleanup? && s.threads[step.t].cleanup.Deleting?
    then Some(s.threads[step.t].cleanup.id) else None
  }

  /** The session that a step looks up and does not find in the map. */
  function Missed(s: State, step: Step): Option<SessionId> {
    if !step.Advance? || step.t !in s.threads || s.closed then None
    else match s.threads[step.t]
      case AtJob(JobLooksUp(id, _)) => if id in s.sessions then None else Some(id)
      case AtCleanup(CleanupLooksUp(id)) => if id in s.sessions then None else Some(id)
      case _ => None
  }

  /** A cleanup deletes a state that is not closing from the map. */
  predicate Orphans(s: State, step: Step) {
    && Deleted(s, step).Some? && Deleted(s, step).value in s.sessions
    && var ref := s.sessions[Deleted(s, step).value]; ref in s.heap && !s.heap[ref].closing
  }

  /** A lookup adds a state for a session that has one outside of the map that is not closing. */
  predicate Splits(s: State, step: Step) {
    Missed(s, step).Some? && exists ref <- s.heap :: !s.heap[ref].closing && s.heap[ref].id == Missed(s, step).value
  }

  /** The map and the identities are the same, and no state has been opened. */
  predicate OnlyCloses(s: State, s': State) {
    && s'.sessions == s.sessions && s'.heap.Keys == s.heap.Keys
    && forall ref <- s.heap :: s'.heap[ref].id == s.heap[ref].id && (s.heap[ref].closing ==> s'.heap[ref].closing)
  }

  /** A state has been added for a session that had none in the map. */
  predicate Adds(s: State, s': State, id: SessionId, spare: Ref) {
    && id !in s.sessions && spare !in s.heap && s'.sessions == s.sessions[id := spare]
    && s'.heap == s.heap[spare := Session(id, false, {}, false, {})]
  }

  lemma JobMoveAdds(s: State, t: ThreadId, pc: JobPc, c: Choice)
    requires JobReady(s, pc, c)
    ensures var s' := JobMove(s, t, pc, c).1;
            if pc.JobLooksUp? && !s.closed && pc.id !in s.sessions then Adds(s, s', pc.id, c.spare)
            else OnlyCloses(s, s')
  {
  }

  lemma CleanupMoveAdds(s: State, pc: CleanupPc, c: Choice)
    requires CleanupReady(s, pc, c)
    ensures var s' := CleanupMove(s, pc, c).1;
            if pc.CleanupLooksUp? && !s.closed && pc.id !in s.sessions then Adds(s, s', pc.id, c.spare)
            else if pc.Deleting? then s' == s.(sessions := s.sessions - {pc.id})
            else OnlyCloses(s, s')
  {
  }

  lemma CloseMoveAdds(s: State, pc: ClosePc, c: Choice)
    requires CloseReady(s, pc, c)
    ensures OnlyCloses(s, CloseMove(s, pc, c).1)
  {
  }

  lemma MoveAdds(s: State, t: ThreadId, c: Choice)
    requires t in s.threads && Ready(s, s.threads[t], c)
    ensures var step, s' := Advance(t, c), Move(s, t, s.threads[t], c).1;
            if Missed(s, step).Some? then Adds(s, s', Missed(s, step).value, c.spare)
            else if Deleted(s, step).Some?
            then s'.heap == s.heap && s'.sessions == s.sessions - {Deleted(s, step).value}
            else OnlyCloses(s, s')
  {
    hide JobMove, CleanupMove, CloseMove;
    match s.threads[t]
    case AtJob(pc) => JobMoveAdds(s, t, pc, c); hide Adds, OnlyCloses;
    case AtCleanup(pc) => CleanupMoveAdds(s, pc, c); hide Adds, OnlyCloses;
    case AtClose(pc) => CloseMoveAdds(s, pc, c); hide Adds, OnlyCloses;
    case AtScan(_) =>
  }

  /** What a step does to the map and to who is open in it. */
  lemma StepAdds(s: State, step: Step)
    requires Possible(s, step)
    ensures var s' := Apply(s, step);
            if Missed(s, step).Some? then Adds(s, s', Missed(s, step).value, step.choice.spare)
            else if Deleted(s, step).Some?
            then s'.heap == s.heap && s'.sessions == s.sessions - {Deleted(s, step).value}
            else OnlyCloses(s, s')
  {
    hide Move, Taken, Wanted, Held, Granted;
    if step.Advance? {
      MoveAdds(s, step.t, step.choice);
    }
  }

  lemma AddingKeepsOpenExactly(s: State, s': State, id: SessionId, spare: Ref)
    requires MapRight(s) && Adds(s, s', id, spare)
    ensures MapRight(s') && (OpenMapped(s) ==> OpenMapped(s'))
    ensures OneOpen(s) ==>
              (OneOpen(s') <==> !exists ref <- s.heap :: !s.heap[ref].closing && s.heap[ref].id == id)
  {
    if ref :| ref in s.heap && !s.heap[ref].closing && s.heap[ref].id == id {
      assert s'.heap[ref].id == s'.heap[spare].id && ref != spare;
    }
  }

  lemma StepKeepsOpenExactly(s: State, step: Step)
    requires MapRight(s) && Possible(s, step)
    ensures MapRight(Apply(s, step))
    ensures OpenMapped(s) ==> (OpenMapped(Apply(s, step)) <==> !Orphans(s, step))
    ensures OneOpen(s) ==> (OneOpen(Apply(s, step)) <==> !Splits(s, step))
  {
    StepAdds(s, step);
    if Missed(s, step).Some? {
      assert Deleted(s, step).None?;
      AddingKeepsOpenExactly(s, Apply(s, step), Missed(s, step).value, step.choice.spare);
      hide Adds, MapRight, OpenMapped, OneOpen;
    }
    hide Apply, Possible, Missed, Deleted;
  }

  /**
   In every run of the code, however cleanups overlap, the states that are not closing stay in
   the map exactly if none of them is ever deleted from it.
   */
  lemma {:induction false} OpenStaysMappedExactly(states: seq<State>, steps: seq<Step>, keep: bool, n: nat)
    requires IsFreeRun(states, steps, keep) && n < |states|
    ensures MapRight(states[n])
    ensures (forall m: nat :: m <= n ==> OpenMapped(states[m]))
            <==> (forall m: nat :: m < n ==> !Orphans(states[m], steps[m]))
  {
    hide Apply, Possible, Orphans;
    if n > 0 {
      OpenStaysMappedExactly(states, steps, keep, n - 1);
      StepKeepsOpenExactly(states[n - 1], steps[n - 1]);
    }
  }

  /**
   And a session has one open state at most, exactly if no session is looked up that has an
   open state outside of the map, which takes such a deletion before.
   */
  lemma {:induction false} OneOpenExactly(states: seq<State>, steps: seq<Step>, keep: bool, n: nat)
    requires IsFreeRun(states, steps, keep) && n < |states|
    ensures (forall m: nat :: m <= n ==> OneOpen(states[m]))
            <==> (forall m: nat :: m < n ==> !Splits(states[m], steps[m]))
    ensures (forall m: nat :: m < n ==> !Orphans(states[m], steps[m])) ==> OneOpen(states[n])
  {
    hide Apply, Possible, Orphans;
    OpenStaysMappedExactly(states, steps, keep, n);
    if n > 0 {
      OneOpenExactly(states, steps, keep, n - 1);
      OpenStaysMappedExactly(states, steps, keep, n - 1);
      StepKeepsOpenExactly(states[n - 1], steps[n - 1]);
    }
  }

  /** Some such run leads to `s`. */
  ghost predicate Reachable(s: State) {
    exists states: seq<State>, steps: seq<Step> :: EndsIn(states, steps, s)
  }

  ghost predicate EndsIn(states: seq<State>, steps: seq<Step>, s: State) {
    IsFreeRun(states, steps, false) && states[|steps|] == s
  }

  lemma Reaches(s: State, step: Step, s': State)
    requires Reachable(s) && Possible(s, step) && Apply(s, step) == s'
    ensures Reachable(s')
  {
    hide Apply, Possible;
    var states, steps :| EndsIn(states, steps, s);
    assert EndsIn(states + [s'], steps + [step], s');
  }

  lemma Begins(s: State, t: ThreadId, pc: Pc, s': State)
    requires Reachable(s) && t !in s.threads && IsEntry(pc) && s' == s.(threads := s.threads[t := pc])
    ensures Reachable(s')
  {
    assert Held(pc) == {};
    assert Taken(s.locks - {}, pc, t) == s.locks;
    Reaches(s, Begin(t, pc), s');
    hide Reachable;
  }

  /** The data in `s0` is that of `s`. */
  predicate SameData(s: State, s0: State) {
    s0 == s.(threads := s0.threads, locks := s0.locks)
  }

  lemma JobIgnoresThreads(s: State, s0: State, t: ThreadId, pc: JobPc, c: Choice)
    requires JobReady(s, pc, c) && SameData(s, s0)
    ensures JobReady(s0, pc, c) && JobMove(s0, t, pc, c).0 == JobMove(s, t, pc, c).0
    ensures SameData(JobMove(s, t, pc, c).1, JobMove(s0, t, pc, c).1)
  {
  }

  lemma CleanupIgnoresThreads(s: State, s0: State, pc: CleanupPc, c: Choice)
    requires CleanupReady(s, pc, c) && SameData(s, s0)
    ensures CleanupReady(s0, pc, c) && CleanupMove(s0, pc, c).0 == CleanupMove(s, pc, c).0
    ensures SameData(CleanupMove(s, pc, c).1, CleanupMove(s0, pc, c).1)
  {
  }

  lemma CloseIgnoresThreads(s: State, s0: State, pc: ClosePc, c: Choice)
    requires CloseReady(s, pc, c) && SameData(s, s0)
    ensures CloseReady(s0, pc, c) && CloseMove(s0, pc, c).0 == CloseMove(s, pc, c).0
    ensures SameData(CloseMove(s, pc, c).1, CloseMove(s0, pc, c).1)
  {
  }

  /** What a section of code does does not depend on the threads or the locks. */
  lemma MoveIgnoresThreads(s: State, s0: State, t: ThreadId, pc: Pc, c: Choice)
    requires Ready(s, pc, c) && SameData(s, s0)
    ensures Ready(s0, pc, c) && Move(s0, t, pc, c).0 == Move(s, t, pc, c).0
    ensures SameData(Move(s, t, pc, c).1, Move(s0, t, pc, c).1)
  {
    hide JobMove, CleanupMove, CloseMove, JobReady, CleanupReady, CloseReady;
    match pc
    case AtJob(job) => JobIgnoresThreads(s, s0, t, job, c);
    case AtCleanup(cleanup) => CleanupIgnoresThreads(s, s0, cleanup, c);
    case AtClose(close) => CloseIgnoresThreads(s, s0, close, c);
    case AtScan(_) =>
  }

  /** With no lock taken, thread `t` takes the one it wants, goes through the section it guards and releases it. */
  lemma Passes(s: State, t: ThreadId, c: Choice, s': State)
    requires Reachable(s) && s.locks == map[] && t in s.threads && Wanted(s.threads[t]).Some?
    requires Held(s.threads[t]) == {} && Ready(s, Granted(s.threads[t]), c)
    requires var (pc, s1) := Move(s, t, Granted(s.threads[t]), c);
             Held(pc) == {} && s' == s1.(threads := s1.threads[t := pc])
    ensures Reachable(s')
  {
    var granted := Granted(s.threads[t]);
    var s0 := Apply(s, Acquire(t));
    MoveIgnoresThreads(s, s0, t, granted, c);
    var (pc, s1) := Move(s0, t, granted, c);
    assert s0.threads[t] == granted && s0.locks.Keys == Held(granted);
    assert Apply(s0, Advance(t, c)) == s';
    Reaches(s, Acquire(t), s0);
    hide Reachable, Move;
    Reaches(s0, Advance(t, c), s');
  }

  /** With a workspace left from an earlier process, a scan that is about to remove it, and a command on its way. */
  function Expiring(job: JobPc, x: Session, workspaces: set<SessionId>, locks: map<Lock, ThreadId>): State {
    Initial(false).(sessions := map[0 := 0], heap := map[0 := x], workspaces := workspaces, locks := locks,
                    threads := map[0 := AtScan(ScanRemoves(0)), 1 := AtJob(job)])
  }

  lemma CommandArrives()
    ensures Reachable(Expiring(JobApproaches(0, 0, true), NEW, {}, map[]))
  {
    assert EndsIn([Initial(false)], [], Initial(false));
    var scans := Initial(false).(threads := map[0 := AtScan(ScanEnters(0))]);
    var removes := Initial(false).(threads := map[0 := AtScan(ScanRemoves(0))]);
    var enters := removes.(threads := map[0 := AtScan(ScanRemoves(0)), 1 := ENTERS]);
    hide Reachable;
    Begins(Initial(false), 0, AtScan(ScanEnters(0)), scans);
    Passes(scans, 0, Choose(0), removes);
    Begins(removes, 1, ENTERS, enters);
    Passes(enters, 1, Choose(0), Expiring(JobApproaches(0, 0, true), NEW, {}, map[]));
  }

  lemma CommandPrepares()
    ensures Reachable(Expiring(JobPrepares(0, 0, true), NEW, {}, map[StateLock(0) := 1]))
  {
    CommandArrives();
    hide Reachable;
    var s1 := Expiring(JobApproaches(0, 0, true), NEW, {}, map[]);
    Reaches(s1, Acquire(1), Expiring(JobPrepares(0, 0, true), NEW, {}, map[StateLock(0) := 1]));
  }

  lemma CommandWorks()
    ensures Reachable(Expiring(JobWorks(0, 0, true), NEW.Prepared(), {0}, map[StateLock(0) := 1]))
  {
    CommandPrepares();
    hide Reachable;
    var s1 := Expiring(JobPrepares(0, 0, true), NEW, {}, map[StateLock(0) := 1]);
    Reaches(s1, Advance(1, Choose(1)), Expiring(JobWorks(0, 0, true), NEW.Prepared(), {0}, map[StateLock(0) := 1]));
  }

  lemma CommandRuns()
    ensures Reachable(Expiring(Running(0, 0), NEW.Prepared().Started(1), {0}, map[]))
  {
    CommandWorks();
    hide Reachable;
    var s1 := Expiring(JobWorks(0, 0, true), NEW.Prepared(), {0}, map[StateLock(0) := 1]);
    Reaches(s1, Advance(1, Choose(1)), Expiring(Running(0, 0), NEW.Prepared().Started(1), {0}, map[]));
  }

  /** The workspace of a command that is running can be taken for expired and removed. */
  lemma ExpiryHitsRunningCommand() returns (before: State, step: Step)
    ensures Reachable(before) && Possible(before, step) && Reachable(Apply(before, step))
    ensures IsRunning(before, 1, 0) && 0 in before.workspaces
    ensures IsRunning(Apply(before, step), 1, 0) && 0 !in Apply(before, step).workspaces
  {
    before, step := Expiring(Running(0, 0), NEW.Prepared().Started(1), {0}, map[]), Advance(0, Choose(1));
    CommandRuns();
    Reaches(before, step, Apply(before, step));
    hide Reachable;
  }

  /** One session, two cleanups at `a` and `b`, no lock taken. */
  function TwoCleanups(a: CleanupPc, b: CleanupPc, sessions: Sessions, heap: map<Ref, Session>): State {
    Initial(false).(sessions := sessions, heap := heap, threads := map[0 := AtCleanup(a), 1 := AtCleanup(b)])
  }

  lemma BothLookUp()
    ensures Reachable(TwoCleanups(WantsMark(0, 0), WantsMark(0, 0), map[0 := 0], map[0 := NEW]))
  {
    assert EndsIn([Initial(false)], [], Initial(false));
    var s1 := Initial(false).(threads := map[0 := AtCleanup(CleanupEnters(0))]);
    var s2 := TwoCleanups(CleanupEnters(0), CleanupEnters(0), map[], map[]);
    var s3 := TwoCleanups(WantsMark(0, 0), CleanupEnters(0), map[0 := 0], map[0 := NEW]);
    hide Reachable;
    Begins(Initial(false), 0, AtCleanup(CleanupEnters(0)), s1);
    Begins(s1, 1, AtCleanup(CleanupEnters(0)), s2);
    Passes(s2, 0, Choose(0), s3);
    Passes(s3, 1, Choose(1), TwoCleanups(WantsMark(0, 0), WantsMark(0, 0), map[0 := 0], map[0 := NEW]));
  }

  lemma BothMark()
    ensures Reachable(TwoCleanups(WantsPoll(0, 0), WantsPoll(0, 0), map[0 := 0], map[0 := OLD]))
  {
    var found, dead := map[0 := 0], map[0 := OLD];
    hide Reachable;
    assert NEW.Marked() == OLD && OLD.Marked() == OLD;
    BothLookUp();
    Passes(TwoCleanups(WantsMark(0, 0), WantsMark(0, 0), found, map[0 := NEW]), 0, Choose(1),
           TwoCleanups(WantsPoll(0, 0), WantsMark(0, 0), found, dead));
    Passes(TwoCleanups(WantsPoll(0, 0), WantsMark(0, 0), found, dead), 1, Choose(1),
           TwoCleanups(WantsPoll(0, 0), WantsPoll(0, 0), found, dead));
  }

  lemma BothPoll()
    ensures Reachable(TwoCleanups(WantsRemoval(0, 0), WantsRemoval(0, 0), map[0 := 0], map[0 := OLD]))
  {
    var found, dead := map[0 := 0], map[0 := OLD];
    hide Reachable;
    BothMark();
    Passes(TwoCleanups(WantsPoll(0, 0), WantsPoll(0, 0), found, dead), 0, Choose(1),
           TwoCleanups(WantsRemoval(0, 0), WantsPoll(0, 0), found, dead));
    Passes(TwoCleanups(WantsRemoval(0, 0), WantsPoll(0, 0), found, dead), 1, Choose(1),
           TwoCleanups(WantsRemoval(0, 0), WantsRemoval(0, 0), found, dead));
  }

  lemma OneDeletes()
    ensures Reachable(TwoCleanups(Deleting(0, 0), WantsDelete(0, 0), map[], map[0 := OLD]).(
                        threads := map[0 := Ended, 1 := AtCleanup(WantsDelete(0, 0))]))
  {
    var found, dead := map[0 := 0], map[0 := OLD];
    hide Reachable;
    BothPoll();
    Passes(TwoCleanups(WantsRemoval(0, 0), WantsRemoval(0, 0), found, dead), 0, Choose(1),
           TwoCleanups(WantsDelete(0, 0), WantsRemoval(0, 0), found, dead));
    Passes(TwoCleanups(WantsDelete(0, 0), WantsRemoval(0, 0), found, dead), 1, Choose(1),
           TwoCleanups(WantsDelete(0, 0), WantsDelete(0, 0), found, dead));
    assert found - {0} == map[];
    Passes(TwoCleanups(WantsDelete(0, 0), WantsDelete(0, 0), found, dead), 0, Choose(1),
           TwoCleanups(Deleting(0, 0), WantsDelete(0, 0), map[], dead).(
           threads := map[0 := Ended, 1 := AtCleanup(WantsDelete(0, 0))]));
  }

  function At(threads: map<ThreadId, Pc>, sessions: Sessions, heap: map<Ref, Session>): State {
    Initial(false).(threads := threads, sessions := sessions, heap := heap)
  }

  /** The first cleanup has ended, and a command looks the session up anew. */
  lemma CommandLooksUp()
    ensures Reachable(At(map[0 := Ended, 1 := WAITS, 2 := AtJob(JobApproaches(0, 1, true))],
                         map[0 := 1], map[0 := OLD, 1 := NEW]))
  {
    OneDeletes();
    var s0 := At(map[0 := Ended, 1 := WAITS], map[], map[0 := OLD]);
    var s1 := At(map[0 := Ended, 1 := WAITS, 2 := ENTERS], map[], map[0 := OLD]);
    var s2 := At(map[0 := Ended, 1 := WAITS, 2 := AtJob(JobApproaches(0, 1, true))],
                 map[0 := 1], map[0 := OLD, 1 := NEW]);
    assert s0 == TwoCleanups(Deleting(0, 0), WantsDelete(0, 0), map[], map[0 := OLD]).(
                   threads := map[0 := Ended, 1 := WAITS]);
    hide Reachable;
    Begins(s0, 2, ENTERS, s1);
    Passes(s1, 2, Choose(1), s2);
  }

  /**
   Without the care of callers the session splits: the second cleanup deletes the command's
   state from the map, and the next command gets another open state beside it.
   */
  lemma OverlappingCleanupsSplitSession() returns (s: State)
    ensures Reachable(s) && !OneOpen(s)
  {
    var first, second := AtJob(JobApproaches(0, 1, true)), AtJob(JobApproaches(0, 2, true));
    var s2 := At(map[0 := Ended, 1 := WAITS, 2 := first], map[0 := 1], map[0 := OLD, 1 := NEW]);
    var s3 := At(map[0 := Ended, 1 := Ended, 2 := first], map[], map[0 := OLD, 1 := NEW]);
    var s4 := At(map[0 := Ended, 1 := Ended, 2 := first, 3 := ENTERS], map[], map[0 := OLD, 1 := NEW]);
    s := At(map[0 := Ended, 1 := Ended, 2 := first, 3 := second], map[0 := 2], map[0 := OLD, 1 := NEW, 2 := NEW]);
    hide Reachable;
    CommandLooksUp();
    assert map[0 := 1] - {0} == map[];
    Passes(s2, 1, Choose(0), s3);
    Begins(s3, 3, ENTERS, s4);
    Passes(s4, 3, Choose(2), s);
    assert s.heap[1].id == s.heap[2].id && 1 != 2;
  }

  /** A step of a thread that takes and holds no lock. */
  lemma GoesOn(s: State, t: ThreadId, c: Choice, s': State)
    requires Reachable(s) && s.locks == map[] && t in s.threads && Held(s.threads[t]) == {} && Ready(s, s.threads[t], c)
    requires var (pc, s1) := Move(s, t, s.threads[t], c);
             Held(pc) == {} && s' == s1.(threads := s1.threads[t := pc])
    ensures Reachable(s')
  {
    assert Apply(s, Advance(t, c)) == s';
    hide Reachable, Move;
    Reaches(s, Advance(t, c), s');
  }

  /** One workspace that preparation left half-made, and a thread that closes the runtime. */
  function WithStray(closer: Pc, x: Session): State {
    At(map[0 := Ended, 1 := closer], map[0 := 0], map[0 := x]).(strays := {0}, closed := true)
  }

  lemma StrayIsMade()
    ensures Reachable(At(map[0 := Ended], map[0 := 0], map[0 := NEW]).(strays := {0}))
  {
    assert EndsIn([Initial(false)], [], Initial(false));
    var s1 := Initial(false).(threads := map[0 := ENTERS]);
    var s2 := At(map[0 := AtJob(JobApproaches(0, 0, true))], map[0 := 0], map[0 := NEW]);
    hide Reachable;
    Begins(Initial(false), 0, ENTERS, s1);
    Passes(s1, 0, Choose(0), s2);
    Passes(s2, 0, Choose(0).(possible := false), At(map[0 := Ended], map[0 := 0], map[0 := NEW]).(strays := {0}));
  }

  lemma CloseBegins()
    ensures Reachable(WithStray(AtClose(CloseMarks(map[0 := 0], map[0 := 0])), NEW))
  {
    var all: Sessions := map[0 := 0];
    var s0 := At(map[0 := Ended], all, map[0 := NEW]).(strays := {0});
    var s1 := WithStray(AtClose(CloseEnters), NEW).(closed := false);
    StrayIsMade();
    hide Reachable;
    Begins(s0, 1, AtClose(CloseEnters), s1);
    Passes(s1, 1, Choose(0), WithStray(AtClose(CloseMarks(all, all)), NEW));
  }

  lemma CloseMarksOwner()
    ensures Reachable(WithStray(AtClose(CloseMarks(map[], map[0 := 0])), OLD))
  {
    var all: Sessions := map[0 := 0];
    assert NEW.Marked() == OLD && all - {0} == map[];
    CloseBegins();
    hide Reachable;
    GoesOn(WithStray(AtClose(CloseMarks(all, all)), NEW), 1, Choose(0),
           WithStray(AtClose(CloseWantsMark(0, all, all)), NEW));
    Passes(WithStray(AtClose(CloseWantsMark(0, all, all)), NEW), 1, Choose(0),
           WithStray(AtClose(CloseMarks(map[], all)), OLD));
  }

  lemma ClosePollsOwner()
    ensures Reachable(WithStray(AtClose(CloseWantsPoll(0, map[0 := 0], map[0 := 0], map[])), OLD))
  {
    var all: Sessions := map[0 := 0];
    CloseMarksOwner();
    hide Reachable;
    GoesOn(WithStray(AtClose(CloseMarks(map[], all)), OLD), 1, Choose(0),
           WithStray(AtClose(ClosePolls(all, all, map[])), OLD));
    GoesOn(WithStray(AtClose(ClosePolls(all, all, map[])), OLD), 1, Choose(0),
           WithStray(AtClose(CloseWantsPoll(0, all, all, map[])), OLD));
  }

  /** `Close` reports success and leaves the half-made workspace behind. */
  lemma StrayOutlivesClose() returns (s: State)
    ensures Reachable(s) && 0 in s.strays
    ensures 1 in s.threads && s.threads[1] == Closed(map[0 := 0], map[0 := Unowned])
  {
    var all: Sessions := map[0 := 0];
    var report: Report := map[0 := Unowned];
    s := WithStray(Closed(all, report), OLD);
    assert all - {0} == map[];
    ClosePollsOwner();
    hide Reachable;
    Passes(WithStray(AtClose(CloseWantsPoll(0, all, all, map[])), OLD), 1, Choose(0),
           WithStray(AtClose(ClosePolls(map[], all, report)), OLD));
    GoesOn(WithStray(AtClose(ClosePolls(map[], all, report)), OLD), 1, Choose(0), s);
  }
}
