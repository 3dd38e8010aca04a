/**
 The invariant of the process table protocol.
 */
module ProtocolInv {
  import opened Protocol
  import opened Wrappers

  // ---------------------------------------------------------- CPUs and threads

  /** What CPU c says of the process that it executes, or is about to take or leave. */
  predicate CpuOk(s: State, c: nat)
    requires c < |s.cpus|
  {
    var u := s.cpus[c];
    && u.pc.i < |s.procs|
    && (if u.run >= 0 then u.run < |s.procs| && s.procs[u.run].on == c && u.pc == Back(u.run) && u.proc == u.run
        else if u.pc.Back? then u.proc == u.pc.i && s.procs[u.pc.i].on == -1
        else u.proc == -1)
  }

  predicate OnOk(s: State, p: nat)
    requires p < |s.procs|
  {
    s.procs[p].on == -1 || (0 <= s.procs[p].on < |s.cpus| && s.cpus[s.procs[p].on].run == p)
  }

  ghost predicate CpusInv(s: State) {
    && s.init < |s.procs|
    && (forall c | 0 <= c < |s.cpus| :: CpuOk(s, c))
    && (forall p | 0 <= p < |s.procs| :: OnOk(s, p))
  }

  /** A lock is held by exactly the CPU whose program point says so. */
  ghost predicate LocksInv(s: State) {
    && (forall l | l in s.locks :: s.locks[l] < |s.cpus|)
    && (forall c: nat, l: LockId | c < |s.cpus| :: Holder(s, l) == c <==> CpuLocked(s, c, l))
  }

  // ------------------------------------------------------------- one process

  predicate Alive(q: ProcSlot) {
    q.state.RUNNABLE? || q.state.RUNNING? || q.state.SLEEPING?
  }

  /** The thread may be entered by swtch. */
  predicate Resumable(q: ProcSlot) {
    q.intr.YieldBack? || (q.intr.NoYield? && (q.pc.ForkRet? || q.pc.SleepBack?))
  }

  /** A thread at pc is setting up slot i, which it has taken already. */
  predicate Builds(pc: Pc, i: nat) {
    || pc == MemAcq(i) || pc == MemBody(i) || pc == FailAcq(i) || pc == FailBody(i) || pc == Copied(i)
    || pc == ParentAcq(i) || pc == ParentBody(i) || pc == RunAcq(i) || pc == RunBody(i)
  }

  /** State, program point and CPU of a slot fit together. */
  predicate ProcOk(s: State, p: nat)
    requires p < |s.procs|
  {
    var q := s.procs[p];
    && (!q.state.UNUSED? ==> 0 < q.pid < s.nextpid)
    && (q.chan.ProcChan? ==> q.chan.p == p)
    && (!q.intr.NoYield? ==> NoLocks(q.pc, p) && (q.state.RUNNING? || q.intr.YieldBack?))
    && match q.state
       case UNUSED => q == UNUSED_SLOT
       case USED => && q.on == -1 && q.intr.NoYield? && q.chan.NoChan?
                    && q.pc == (if q.pages then ForkRet else Idle) && (q.parent == -1 || q.parent == q.maker)
                    && 0 <= q.maker < |s.procs| && q.maker != p && Builds(s.procs[q.maker].pc, p)
       case RUNNABLE => && q.on == -1 && Resumable(q) && q.pages && q.maker == -1 && !q.pc.Idle? && !q.pc.Dead?
       case SLEEPING => q.on == -1 && q.intr.NoYield? && q.pc.SleepBack? && !q.chan.NoChan? && q.pages && q.maker == -1
       case RUNNING => && q.on >= 0 && q.pages && q.maker == -1
                       && !q.pc.Idle? && !q.pc.Dead? && !q.pc.ExitRel? && !q.pc.ExitSched?
       case ZOMBIE => && q.intr.NoYield? && q.pages && q.maker == -1
                      && (if q.on == -1 then q.pc.Dead? else q.pc.ExitRel? || q.pc.ExitSched?)
  }

  /** None of the first n slots has parent p. */
  predicate NoKids(s: State, p: nat, n: nat) {
    forall z | 0 <= z < n && z < |s.procs| :: s.procs[z].parent != p
  }

  /** None of the first n slots is a zombie child of p. */
  predicate NoZombies(s: State, p: nat, n: nat) {
    forall z | 0 <= z < n && z < |s.procs| :: s.procs[z].parent == p ==> !s.procs[z].state.ZOMBIE?
  }

  /** Process p has a child. */
  predicate HasKid(s: State, p: nat) {
    exists z :: 0 <= z < |s.procs| && s.procs[z].parent == p
  }

  lemma KidsKept(s: State, s': State, p: nat)
    requires |s'.procs| == |s.procs|
    requires forall z | 0 <= z < |s.procs| && s.procs[z].parent == p :: s'.procs[z].parent == p
    ensures HasKid(s, p) ==> HasKid(s', p)
  {
    if HasKid(s, p) {
      var z :| 0 <= z < |s.procs| && s.procs[z].parent == p;
      assert s'.procs[z].parent == p;
    }
  }

  /** Process q is registered on its own channel. */
  predicate Registered(s: State, q: int) {
    0 <= q < |s.procs| && s.procs[q].chan == ProcChan(q)
  }

  /** Slot i is being set up by process p. */
  predicate Making(s: State, p: nat, i: nat, pages: bool, parent: int) {
    && i < |s.procs| && s.procs[i].state.USED? && s.procs[i].maker == p
    && s.procs[i].pages == pages && s.procs[i].parent == parent
  }

  /** What process p knows at its program point. */
  predicate PcOk(s: State, p: nat)
    requires p < |s.procs|
  {
    var n := |s.procs|;
    match s.procs[p].pc
    case AllocAcq(i) => i <= n
    case AllocBody(i) => i < n
    case PidAcq(i) => i < n && s.procs[i].state.UNUSED?
    case PidBody(i) => i < n && s.procs[i].state.UNUSED?
    case MemAcq(i) => Making(s, p, i, false, -1)
    case MemBody(i) => Making(s, p, i, false, -1)
    case FailAcq(i) => Making(s, p, i, false, -1)
    case FailBody(i) => Making(s, p, i, false, -1)
    case FailRel(i) => i < n
    case Copied(i) => Making(s, p, i, true, -1)
    case ParentAcq(i) => Making(s, p, i, true, -1)
    case ParentBody(i) => Making(s, p, i, true, -1)
    case RunAcq(i) => Making(s, p, i, true, p)
    case RunBody(i) => Making(s, p, i, true, p)
    case ExitAcq => p != s.init
    case Reparent(i) => p != s.init && i <= n && NoKids(s, p, i)
    case OwnAcq => p != s.init && NoKids(s, p, n) && !Registered(s, s.procs[p].parent)
    case ZombieBody => p != s.init && NoKids(s, p, n) && !Registered(s, s.procs[p].parent)
    case WakeAcq(ch, i, k) => i <= n && WakeOk(s, p, ch, i, k)
    case WakeBody(ch, i, k) => i < n && WakeOk(s, p, ch, i, k)
    case Scan(i, havekids) =>
      i <= n && NoZombies(s, p, i) && (havekids <==> !NoKids(s, p, i)) && (havekids ==> HasKid(s, p))
    case ChildAcq(i) => i < n && NoZombies(s, p, i) && s.procs[i].parent == p
    case ChildBody(i) => i < n && NoZombies(s, p, i) && s.procs[i].parent == p
    case OutAcq(i) => i < n && NoZombies(s, p, i) && s.procs[i].parent == p
    case OutBody(i) => i < n && NoZombies(s, p, i) && s.procs[i].parent == p
    case ReapAcq(i) => Reaped(s, i)
    case ReapBody(i) => Reaped(s, i)
    case ReapRel(i) => i < n
    case KilledAcq => NoZombies(s, p, n) && HasKid(s, p)
    case KilledBody => NoZombies(s, p, n) && HasKid(s, p)
    case WaitDrop => HasKid(s, p)
    case SleepAcq(w) => w.InWait? ==> HasKid(s, p)
    case SleepBody(w) => w.InWait? ==> HasKid(s, p)
    case SleepBack(w) => w.InWait? ==> HasKid(s, p)
    case PrepAcq(ch, w) => PrepOk(s, p, ch, w)
    case PrepBody(ch, w) => PrepOk(s, p, ch, w)
    case KillAcq(pid, i) => i <= n && pid != 0
    case KillBody(pid, i) => i < n && pid != 0
    case _ => true
  }

  /** A zombie taken from its parent, off every CPU, about to be freed. */
  predicate Reaped(s: State, i: nat) {
    i < |s.procs| && s.procs[i].state.ZOMBIE? && s.procs[i].parent == -1 && s.procs[i].on == -1
  }

  predicate PrepOk(s: State, p: nat, ch: Chan, w: Where) {
    if w.InWait? then ch == ProcChan(p) && NoZombies(s, p, |s.procs|) && HasKid(s, p) else ch.OtherChan?
  }

  /** The wakeups of kexit and reparent. */
  predicate WakeOk(s: State, p: nat, ch: Chan, i: nat, k: Cont)
    requires p < |s.procs|
  {
    match k
    case ToUser => true
    case ToReparent(t) => p != s.init && t < |s.procs| && NoKids(s, p, t + 1) && ch == ProcChan(s.init)
    case ToExit => && p != s.init && NoKids(s, p, |s.procs|)
                   && s.procs[p].parent >= 0 && ch == ProcChan(s.procs[p].parent)
                   && (s.procs[p].parent < i ==> !Registered(s, s.procs[p].parent))
  }

  ghost predicate ThreadsInv(s: State) {
    forall p | 0 <= p < |s.procs| :: ProcOk(s, p) && PcOk(s, p)
  }

  // --------------------------------------------------------- the process family

  /** The program point of the thread that holds wait_lock. */
  function Waiter(s: State): Option<Pc> {
    var c := Holder(s, WaitLock);
    if 0 <= c < |s.cpus| && 0 <= s.cpus[c].run < |s.procs| then Some(s.procs[s.cpus[c].run].pc) else None
  }

  /** The holder of wait_lock has found zombie z and is about to free it. */
  predicate BeingReaped(s: State, z: nat) {
    Waiter(s) == Some(ReapAcq(z)) || Waiter(s) == Some(ReapBody(z))
  }

  predicate FamilyOk(s: State, z: nat)
    requires z < |s.procs|
  {
    var q := s.procs[z];
    && q.parent >= -1
    && (q.parent >= 0 ==> q.parent < |s.procs| && Alive(s.procs[q.parent]))
    && (Alive(q) && z != s.init ==> q.parent >= 0)
    && (q.state.ZOMBIE? ==> q.parent >= 0 || BeingReaped(s, z))
  }

  ghost predicate FamilyInv(s: State) {
    && s.init < |s.procs|
    && Alive(s.procs[s.init]) && s.procs[s.init].parent == -1
    && forall z | 0 <= z < |s.procs| :: FamilyOk(s, z)
  }

  /** The holder of wait_lock is waking init up, inside reparent, and has not got to it yet. */
  predicate WakingInit(s: State) {
    match Waiter(s)
    case Some(WakeAcq(ch, i, k)) => k.ToReparent? && i <= s.init
    case Some(WakeBody(ch, i, k)) => k.ToReparent? && i <= s.init
    case _ => false
  }

  /** A process registered to be woken up by its children has no zombie child. */
  predicate NotLost(s: State, z: nat)
    requires z < |s.procs|
  {
    var q := s.procs[z];
    q.state.ZOMBIE? && Registered(s, q.parent) ==> q.parent == s.init && WakingInit(s)
  }

  ghost predicate WakeupsInv(s: State) {
    forall z | 0 <= z < |s.procs| :: NotLost(s, z)
  }

  ghost predicate PidsInv(s: State) {
    forall i, j | 0 <= i < j < |s.procs| && !s.procs[i].state.UNUSED? && !s.procs[j].state.UNUSED? ::
      s.procs[i].pid != s.procs[j].pid
  }

  ghost predicate Inv(s: State) {
    CpusInv(s) && LocksInv(s) && ThreadsInv(s) && FamilyInv(s) && WakeupsInv(s) && PidsInv(s)
  }
}
