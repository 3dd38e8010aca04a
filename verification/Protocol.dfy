/**
 The process table of proc.c as a system of interleaved atomic steps: any number of CPUs,
 each in its scheduler or in the kernel thread of a process, any number of processes.

 A step is one of: acquiring a lock, releasing one, or what happens between. The lock of a
 process is handed over across swtch: the scheduler acquires it and the process releases
 it, and the other way round. Everything that a process does outside of fork, exit, wait,
 sleep, wakeup, yield and kill is the one program point User.
 */
module Protocol {
  import opened Wrappers

  datatype RunState = UNUSED | USED | SLEEPING | RUNNABLE | RUNNING | ZOMBIE

  /** A wait channel: none, the address of a process slot, or any other address. */
  datatype Chan = NoChan | ProcChan(p: nat) | OtherChan(n: nat)

  datatype LockId = WaitLock | PidLock | MemLock | ProcLock(i: nat)

  /** Where wakeup returns to: system calls at large, kexit, or round i of reparent. */
  datatype Cont = ToUser | ToExit | ToReparent(i: nat)

  /** Whether a sleep is the one of kwait. */
  datatype Where = Plain | InWait

  /** The program points of a process's kernel thread. "Acq" points are about to acquire a lock. */
  datatype Pc =
    | Idle                                         // no context
    | ForkRet                                      // forkret, with its own lock from the scheduler
    | User
    // kfork and allocproc, with the slot i that they set up
    | AllocAcq(i: nat) | AllocBody(i: nat)
    | PidAcq(i: nat) | PidBody(i: nat)
    | MemAcq(i: nat) | MemBody(i: nat) | Copied(i: nat)
    | FailAcq(i: nat) | FailBody(i: nat) | FailRel(i: nat)
    | ParentAcq(i: nat) | ParentBody(i: nat)
    | RunAcq(i: nat) | RunBody(i: nat)
    // kexit and reparent
    | ExitAcq | Reparent(i: nat) | OwnAcq | ZombieBody | ExitRel | ExitSched | Dead
    // wakeup
    | WakeAcq(chan: Chan, i: nat, k: Cont) | WakeBody(chan: Chan, i: nat, k: Cont)
    // kwait
    | WaitAcq | Scan(i: nat, havekids: bool)
    | ChildAcq(i: nat) | ChildBody(i: nat)
    | OutAcq(i: nat) | OutBody(i: nat)             // copyout of the exit status needs memory
    | ReapAcq(i: nat) | ReapBody(i: nat) | ReapRel(i: nat) | WaitRel
    | KilledAcq | KilledBody | WaitDrop
    // sleep_prepare and sleep
    | PrepAcq(chan: Chan, w: Where) | PrepBody(chan: Chan, w: Where)
    | SleepAcq(w: Where) | SleepBody(w: Where) | SleepBack(w: Where)
    // kkill and setkilled
    | KillAcq(pid: nat, i: nat) | KillBody(pid: nat, i: nat)
    | SetAcq | SetBody

  /** yield, on top of the point where the timer interrupted the thread. */
  datatype Yield = NoYield | YieldAcq | YieldBody | YieldBack

  /**
   A slot of the process table. The last two fields are history: on is the CPU that runs the
   thread, maker the process that is setting up a USED slot; no guard of a step reads them.
   */
  datatype ProcSlot = ProcSlot(state: RunState, chan: Chan, killed: bool, pid: nat, parent: int, pages: bool,
                               pc: Pc, intr: Yield, on: int, maker: int)

  /** The scheduler loop: before acquiring, with the lock, back from swtch, before releasing. */
  datatype SchedPc = Pick(i: nat) | Test(i: nat) | Back(i: nat) | Leave(i: nat)

  /** A CPU: the process whose thread it executes (-1 for the scheduler), c->proc, and its scheduler. */
  datatype Cpu = Cpu(run: int, proc: int, pc: SchedPc)

  /** locks has the locks that are held, with the CPU that holds them; init is initproc. */
  datatype State = State(procs: seq<ProcSlot>, cpus: seq<Cpu>, locks: map<LockId, nat>, nextpid: nat, init: nat)

  /** A slot as freeproc leaves it. */
  const UNUSED_SLOT := ProcSlot(UNUSED, NoChan, false, 0, -1, false, Idle, NoYield, -1, -1)

  // -------------------------------------------------------------------- locks

  /** The CPU that holds a lock, -1 for none. */
  function Holder(s: State, l: LockId): int {
    if l in s.locks then s.locks[l] else -1
  }

  function Take(s: State, l: LockId, c: nat): State { s.(locks := s.locks[l := c]) }
  function Free(s: State, l: LockId): State { s.(locks := s.locks - {l}) }

  /** Program points between an acquire and a release of wait_lock. */
  predicate HasWait(pc: Pc) {
    || pc.ParentBody?
    || pc.Reparent? || pc.OwnAcq? || pc.ZombieBody? || pc.ExitRel?
    || ((pc.WakeAcq? || pc.WakeBody?) && !pc.k.ToUser?)
    || pc.Scan? || pc.ChildAcq? || pc.ChildBody? || pc.OutAcq? || pc.OutBody?
    || pc.ReapAcq? || pc.ReapBody? || pc.ReapRel? || pc.WaitRel?
    || pc.KilledAcq? || pc.KilledBody? || pc.WaitDrop?
    || ((pc.PrepAcq? || pc.PrepBody?) && pc.w.InWait?)
  }

  /** The slot whose p->lock the thread of process p holds at pc, -1 for none: never two at a time. */
  function SlotLock(pc: Pc, p: nat): int {
    if || pc.AllocBody? || pc.PidAcq? || pc.PidBody? || pc.MemAcq? || pc.MemBody? || pc.Copied?
       || pc.FailAcq? || pc.FailBody? || pc.FailRel? || pc.RunBody? || pc.WakeBody? || pc.KillBody?
       || pc.ChildBody? || pc.OutAcq? || pc.OutBody? || pc.ReapAcq? || pc.ReapBody? || pc.ReapRel?
    then pc.i
    else if || pc.ForkRet? || pc.ZombieBody? || pc.ExitRel? || pc.ExitSched?
            || pc.KilledBody? || pc.SetBody? || pc.PrepBody? || pc.SleepBody? || pc.SleepBack?
    then p
    else -1
  }

  /** The thread of process p holds lock l at pc. */
  predicate Locked(pc: Pc, p: nat, l: LockId) {
    match l
    case WaitLock => HasWait(pc)
    case PidLock => pc.PidBody?
    case MemLock => pc.MemBody? || pc.FailBody? || pc.OutBody? || pc.ReapBody?
    case ProcLock(i) => SlotLock(pc, p) == i
  }

  predicate NoLocks(pc: Pc, p: nat) { !HasWait(pc) && SlotLock(pc, p) == -1 }

  predicate ThreadLocked(q: ProcSlot, p: nat, l: LockId) {
    match q.intr
    case NoYield => Locked(q.pc, p, l)
    case YieldAcq => false
    case _ => l == ProcLock(p)
  }

  /** CPU c holds lock l, by the program point of what it executes. */
  predicate CpuLocked(s: State, c: nat, l: LockId)
    requires c < |s.cpus|
  {
    var u := s.cpus[c];
    if 0 <= u.run < |s.procs| then ThreadLocked(s.procs[u.run], u.run, l)
    else !u.pc.Pick? && l == ProcLock(u.pc.i)
  }

  /** The lock that a thread is about to acquire. */
  function Want(q: ProcSlot, p: nat, n: nat): Option<LockId> {
    if q.intr.YieldAcq? then Some(ProcLock(p))
    else if !q.intr.NoYield? then None
    else
      match q.pc
      case AllocAcq(i) => if i < n then Some(ProcLock(i)) else None
      case PidAcq(_) => Some(PidLock)
      case MemAcq(_) => Some(MemLock)
      case FailAcq(_) => Some(MemLock)
      case ParentAcq(_) => Some(WaitLock)
      case RunAcq(i) => Some(ProcLock(i))
      case ExitAcq => Some(WaitLock)
      case OwnAcq => Some(ProcLock(p))
      case WakeAcq(_, i, _) => if i < n then Some(ProcLock(i)) else None
      case WaitAcq => Some(WaitLock)
      case ChildAcq(i) => Some(ProcLock(i))
      case OutAcq(_) => Some(MemLock)
      case ReapAcq(_) => Some(MemLock)
      case KilledAcq => Some(ProcLock(p))
      case PrepAcq(_, _) => Some(ProcLock(p))
      case SleepAcq(_) => Some(ProcLock(p))
      case KillAcq(_, i) => if i < n then Some(ProcLock(i)) else None
      case SetAcq => Some(ProcLock(p))
      case _ => None
  }

  /** The program point behind an acquire. */
  function Got(pc: Pc): Pc {
    match pc
    case AllocAcq(i) => AllocBody(i)
    case PidAcq(i) => PidBody(i)
    case MemAcq(i) => MemBody(i)
    case FailAcq(i) => FailBody(i)
    case ParentAcq(i) => ParentBody(i)
    case RunAcq(i) => RunBody(i)
    case ExitAcq => Reparent(0)
    case OwnAcq => ZombieBody
    case WakeAcq(ch, i, k) => WakeBody(ch, i, k)
    case WaitAcq => Scan(0, false)
    case ChildAcq(i) => ChildBody(i)
    case OutAcq(i) => OutBody(i)
    case ReapAcq(i) => ReapBody(i)
    case KilledAcq => KilledBody
    case PrepAcq(ch, w) => PrepBody(ch, w)
    case SleepAcq(w) => SleepBody(w)
    case KillAcq(pid, i) => KillBody(pid, i)
    case SetAcq => SetBody
    case _ => pc
  }

  /** Program points at which the thread does nothing but release a lock. */
  function Lets(q: ProcSlot, p: nat): Option<LockId> {
    if q.intr.YieldBack? then Some(ProcLock(p))
    else if !q.intr.NoYield? then None
    else
      match q.pc
      case ForkRet => Some(ProcLock(p))
      case Copied(i) => Some(ProcLock(i))
      case FailRel(i) => Some(ProcLock(i))
      case ExitRel => Some(WaitLock)
      case OutBody(_) => Some(MemLock)
      case ReapRel(i) => Some(ProcLock(i))
      case WaitRel => Some(WaitLock)
      case WaitDrop => Some(WaitLock)
      case SleepBack(_) => Some(ProcLock(p))
      case _ => None
  }

  /** The program point behind a release. */
  function Gone(pc: Pc): Pc {
    match pc
    case ForkRet => User
    case Copied(i) => ParentAcq(i)
    case FailRel(_) => User
    case ExitRel => ExitSched
    case OutBody(i) => ChildBody(i)
    case ReapRel(_) => WaitRel
    case WaitRel => User
    case WaitDrop => SleepAcq(InWait)
    case SleepBack(w) => if w.InWait? then WaitAcq else User
    case _ => pc
  }

  // -------------------------------------------------------------------- steps

  function Upd(s: State, i: nat, q: ProcSlot): State
    requires i < |s.procs|
  {
    s.(procs := s.procs[i := q])
  }

  /** The thread of process p goes on at pc. */
  function Goto(s: State, p: nat, pc: Pc): State
    requires p < |s.procs|
  {
    Upd(s, p, s.procs[p].(pc := pc))
  }

  /** Process p gives CPU c back to the scheduler, which finds itself behind its swtch. */
  function Switch(s: State, c: nat, p: nat): State
    requires p < |s.procs| && c < |s.cpus|
  {
    Upd(s, p, s.procs[p].(on := -1)).(cpus := s.cpus[c := s.cpus[c].(run := -1)])
  }

  /** What a process may start at User; x is the choice. */
  predicate Starts(pc: Pc, p: nat, init: nat) {
    match pc
    case AllocAcq(i) => i == 0
    case ExitAcq => p != init                        // otherwise panic("init exiting")
    case WaitAcq => true
    case KillAcq(pid, i) => i == 0 && pid != 0       // kkill(0) returns at once
    case SetAcq => true
    case PrepAcq(ch, w) => w.Plain? && ch.OtherChan?
    case WakeAcq(ch, i, k) => i == 0 && k.ToUser? && ch.OtherChan?
    case _ => false
  }

  /** A process after wakeup(chan) has looked at it. */
  function Woken(q: ProcSlot, chan: Chan): ProcSlot {
    if q.chan == chan then q.(chan := NoChan, state := if q.state.SLEEPING? then RUNNABLE else q.state) else q
  }

  function Killed(q: ProcSlot): ProcSlot {
    q.(killed := true, state := if q.state.SLEEPING? then RUNNABLE else q.state)
  }

  /** Program points of kfork at which something other than an acquire or a release happens. */
  predicate ForkPc(pc: Pc, n: nat) {
    match pc
    case AllocAcq(i) => i >= n
    case AllocBody(i) => i < n
    case PidBody(i) => i < n
    case MemBody(i) => i < n
    case FailBody(i) => i < n
    case ParentBody(i) => i < n
    case RunBody(i) => i < n
    case _ => false
  }

  /** The steps of kfork; ok says whether all allocations succeed. */
  function ForkWork(s: State, p: nat, ok: bool): State
    requires p < |s.procs| && ForkPc(s.procs[p].pc, |s.procs|)
  {
    match s.procs[p].pc
    // no unused slot
    case AllocAcq(_) => Goto(s, p, User)
    // `if (p->state == UNUSED) goto found; else release(&p->lock)`
    case AllocBody(i) =>
      if s.procs[i].state.UNUSED? then Goto(s, p, PidAcq(i))
      else Free(Goto(s, p, AllocAcq(i + 1)), ProcLock(i))
    // allocpid, p->pid and p->state
    case PidBody(i) =>
      var t := Upd(s, i, s.procs[i].(pid := s.nextpid, state := USED, maker := p)).(nextpid := s.nextpid + 1);
      Free(Goto(t, p, MemAcq(i)), PidLock)
    // all allocations of allocproc and uvmcopy
    case MemBody(i) =>
      if ok then Free(Goto(Upd(s, i, s.procs[i].(pages := true, pc := ForkRet)), p, Copied(i)), MemLock)
      else Free(Goto(s, p, FailAcq(i)), MemLock)
    // freeproc(np)
    case FailBody(i) => Free(Goto(Upd(s, i, UNUSED_SLOT), p, FailRel(i)), MemLock)
    // np->parent = p; release(&wait_lock)
    case ParentBody(i) => Free(Goto(Upd(s, i, s.procs[i].(parent := p)), p, RunAcq(i)), WaitLock)
    // np->state = RUNNABLE; release(&np->lock)
    case RunBody(i) => Free(Goto(Upd(s, i, s.procs[i].(state := RUNNABLE, maker := -1)), p, User), ProcLock(i))
  }

  predicate ExitPc(pc: Pc) {
    pc.Reparent? || pc.ZombieBody? || pc.ExitSched?
  }

  /** The steps of kexit. */
  function ExitWork(s: State, c: nat, p: nat): State
    requires p < |s.procs| && c < |s.cpus| && ExitPc(s.procs[p].pc)
  {
    var me := s.procs[p];
    match me.pc
    // one round of reparent, and `wakeup(p->parent)` behind its loop
    case Reparent(i) =>
      if i >= |s.procs| then
        Goto(s, p, WakeAcq(if me.parent >= 0 then ProcChan(me.parent) else NoChan, 0, ToExit))
      else if s.procs[i].parent == p then
        Goto(Upd(s, i, s.procs[i].(parent := s.init)), p, WakeAcq(ProcChan(s.init), 0, ToReparent(i)))
      else Goto(s, p, Reparent(i + 1))
    case ZombieBody => Upd(s, p, me.(state := ZOMBIE, pc := ExitRel))
    // sched(), which never returns
    case ExitSched => Switch(Goto(s, p, Dead), c, p)
  }

  predicate WakePc(pc: Pc, n: nat) {
    match pc
    case WakeAcq(_, i, _) => i >= n
    case WakeBody(_, i, _) => i < n
    case KillAcq(_, i) => i >= n
    case KillBody(_, i) => i < n
    case SetBody => true
    case _ => false
  }

  /** The rounds of wakeup and kkill, the ends of their loops, and setkilled. */
  function WakeWork(s: State, p: nat): State
    requires p < |s.procs| && WakePc(s.procs[p].pc, |s.procs|)
  {
    match s.procs[p].pc
    case WakeAcq(_, _, k) =>
      Goto(s, p, match k case ToUser => User case ToExit => OwnAcq case ToReparent(i) => Reparent(i + 1))
    case WakeBody(ch, i, k) => Free(Goto(Upd(s, i, Woken(s.procs[i], ch)), p, WakeAcq(ch, i + 1, k)), ProcLock(i))
    case KillAcq(_, _) => Goto(s, p, User)
    case KillBody(pid, i) =>
      if s.procs[i].pid == pid then Free(Goto(Upd(s, i, Killed(s.procs[i])), p, User), ProcLock(i))
      else Free(Goto(s, p, KillAcq(pid, i + 1)), ProcLock(i))
    case SetBody => Free(Upd(s, p, s.procs[p].(killed := true, pc := User)), ProcLock(p))
  }

  predicate WaitPc(pc: Pc, n: nat) {
    match pc
    case Scan(_, _) => true
    case ChildBody(i) => i < n
    case ReapBody(i) => i < n
    case KilledBody => true
    case _ => false
  }

  /** The steps of kwait; ok says whether the exit status can be copied out. */
  function WaitWork(s: State, p: nat, ok: bool): State
    requires p < |s.procs| && WaitPc(s.procs[p].pc, |s.procs|)
  {
    var me := s.procs[p];
    match me.pc
    // one round of the loop, and what follows it
    case Scan(i, havekids) =>
      if i >= |s.procs| then Goto(s, p, if havekids then KilledAcq else WaitRel)
      else if s.procs[i].parent == p then Goto(s, p, ChildAcq(i))
      else Goto(s, p, Scan(i + 1, havekids))
    // a child: leave it, reap it, or fail to report it
    case ChildBody(i) =>
      if !s.procs[i].state.ZOMBIE? then Free(Goto(s, p, Scan(i + 1, true)), ProcLock(i))
      else if ok then Goto(Upd(s, i, s.procs[i].(parent := -1)), p, ReapAcq(i))
      else Goto(s, p, ReapRel(i))
    // freeproc(pp)
    case ReapBody(i) => Free(Goto(Upd(s, i, UNUSED_SLOT), p, ReapRel(i)), MemLock)
    // killed(p)
    case KilledBody =>
      Free(Goto(s, p, if me.killed then WaitRel else PrepAcq(ProcChan(p), InWait)), ProcLock(p))
  }

  predicate SleepPc(pc: Pc) {
    pc.PrepBody? || pc.SleepBody?
  }

  /** sleep_prepare and sleep, with the lock of the process. */
  function SleepWork(s: State, c: nat, p: nat): State
    requires p < |s.procs| && c < |s.cpus| && SleepPc(s.procs[p].pc)
  {
    var me := s.procs[p];
    match me.pc
    // p->chan = chan; release(&p->lock)
    case PrepBody(ch, w) =>
      Free(Upd(s, p, me.(chan := ch, pc := if w.InWait? then WaitDrop else SleepAcq(Plain))), ProcLock(p))
    // `if (p->chan != 0) { p->state = SLEEPING; sched(); }`
    case SleepBody(w) =>
      if me.chan.NoChan? then Goto(s, p, SleepBack(w))
      else Switch(Upd(s, p, me.(state := SLEEPING, pc := SleepBack(w))), c, p)
  }

  /** Program points at which Work applies. */
  predicate Works(pc: Pc, n: nat) {
    ForkPc(pc, n) || ExitPc(pc) || WakePc(pc, n) || WaitPc(pc, n) || SleepPc(pc)
  }

  /** The steps that are neither an acquire nor a release; ok is the outcome of what is not modelled. */
  function Work(s: State, c: nat, p: nat, ok: bool): State
    requires p < |s.procs| && c < |s.cpus| && Works(s.procs[p].pc, |s.procs|)
  {
    var (pc, n) := (s.procs[p].pc, |s.procs|);
    if ForkPc(pc, n) then ForkWork(s, p, ok)
    else if ExitPc(pc) then ExitWork(s, c, p)
    else if WakePc(pc, n) then WakeWork(s, p)
    else if WaitPc(pc, n) then WaitWork(s, p, ok)
    else SleepWork(s, c, p)
  }

  /** The kinds of step that the thread of process p on CPU c can take. */
  datatype Act = Start(pc: Pc) | Preempt | Acquire | Release | Body(ok: bool) | CopyOut | YieldSwitch | Sched

  ghost predicate Step(s: State, s': State, c: nat, a: Act) {
    && c < |s.cpus|
    && (if a.Sched? then s.cpus[c].run < 0 && SchedStep(s, s', c)
        else 0 <= s.cpus[c].run < |s.procs| && ThreadStep(s, s', c, s.cpus[c].run, a))
  }

  ghost predicate ThreadStep(s: State, s': State, c: nat, p: nat, a: Act)
    requires c < |s.cpus| && p < |s.procs|
  {
    var me := s.procs[p];
    match a
    case Start(pc) => me.intr.NoYield? && me.pc.User? && Starts(pc, p, s.init) && s' == Goto(s, p, pc)
    // a timer interrupt: only where no lock is held, for acquire disables interrupts
    case Preempt =>
      && me.intr.NoYield? && NoLocks(me.pc, p)
      && s' == Upd(s, p, me.(intr := YieldAcq))
    case Acquire =>
      && Want(me, p, |s.procs|).Some?
      && var l := Want(me, p, |s.procs|).value;
         && Holder(s, l) == -1
         && var t := Take(s, l, c);
            s' == if me.intr.YieldAcq? then Upd(t, p, t.procs[p].(intr := YieldBody)) else Goto(t, p, Got(me.pc))
    case Release =>
      && Lets(me, p).Some?
      && var t := Free(s, Lets(me, p).value);
         s' == if me.intr.YieldBack? then Upd(t, p, t.procs[p].(intr := NoYield)) else Goto(t, p, Gone(me.pc))
    case Body(ok) => me.intr.NoYield? && Works(me.pc, |s.procs|) && s' == Work(s, c, p, ok)
    // a fault inside the copyout of kwait, as often as it likes before it ends
    case CopyOut =>
      && me.intr.NoYield? && me.pc.ChildBody? && me.pc.i < |s.procs| && s.procs[me.pc.i].state.ZOMBIE?
      && s' == Goto(s, p, OutAcq(me.pc.i))
    // p->state = RUNNABLE; sched()
    case YieldSwitch =>
      me.intr.YieldBody? && s' == Switch(Upd(s, p, me.(state := RUNNABLE, intr := YieldBack)), c, p)
    case Sched => false
  }

  /** One step of the scheduler loop of CPU c. */
  ghost predicate SchedStep(s: State, s': State, c: nat)
    requires c < |s.cpus|
  {
    var u := s.cpus[c];
    match u.pc
    case Pick(i) =>
      && Holder(s, ProcLock(i)) == -1
      && s' == Take(s, ProcLock(i), c).(cpus := s.cpus[c := u.(pc := Test(i))])
    case Test(i) =>
      && i < |s.procs|
      && s' == if s.procs[i].state.RUNNABLE?
               then Upd(s, i, s.procs[i].(state := RUNNING, on := c)).(cpus := s.cpus[c := Cpu(i, i, Back(i))])
               else s.(cpus := s.cpus[c := u.(pc := Leave(i))])
    case Back(i) => s' == s.(cpus := s.cpus[c := u.(proc := -1, pc := Leave(i))])
    case Leave(i) =>
      s' == Free(s, ProcLock(i)).(cpus := s.cpus[c := u.(pc := Pick(if i + 1 < |s.procs| then i + 1 else 0))])
  }

  /** After userinit: one runnable process, and every CPU at the start of its scheduler. */
  ghost predicate Init(s: State) {
    && s.init < |s.procs|
    && (forall i | 0 <= i < |s.procs| && i != s.init :: s.procs[i] == UNUSED_SLOT)
    && s.procs[s.init] == ProcSlot(RUNNABLE, NoChan, false, 1, -1, true, ForkRet, NoYield, -1, -1)
    && (forall c | 0 <= c < |s.cpus| :: s.cpus[c] == Cpu(-1, -1, Pick(0)))
    && s.locks == map[] && s.nextpid == 2
  }
}
