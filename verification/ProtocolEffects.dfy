/**
 What the steps of the protocol do, field by field: for each field of a slot, the steps that
 change it and what they make of it. Every other step of every CPU leaves it as it was.
 */
module ProtocolEffects {
  import opened Protocol
  import opened Wrappers

  /** The thread that CPU c runs, -1 for the scheduler. */
  function Runs(s: State, c: nat): int {
    if c < |s.cpus| && 0 <= s.cpus[c].run < |s.procs| then s.cpus[c].run else -1
  }

  /** The program point at which CPU c works in a step by a, Idle when the step is of another kind. */
  function Doing(s: State, c: nat, a: Act): Pc {
    if Runs(s, c) >= 0 && a.Body? && s.procs[Runs(s, c)].intr.NoYield? then s.procs[Runs(s, c)].pc else Idle
  }

  /** Slot x is cleared: a fork that failed gives it up, or a parent frees the zombie in it. */
  predicate Clears(pc: Pc, x: nat) { pc == FailBody(x) || pc == ReapBody(x) }

  /** A wakeup looks at a slot that is on its channel. */
  predicate Wakes(q: ProcSlot, pc: Pc, x: nat) { pc.WakeBody? && pc.i == x && pc.chan == q.chan }

  /** A kill looks at a slot with the pid that it is for. */
  predicate Kills(q: ProcSlot, pc: Pc, x: nat) { pc.KillBody? && pc.i == x && pc.pid == q.pid }

  /** The scheduler of CPU c, with the lock of slot x, finds it runnable. */
  predicate Enters(s: State, c: nat, a: Act, x: nat) {
    && a.Sched? && c < |s.cpus| && s.cpus[c].run < 0 && s.cpus[c].pc == Test(x)
    && x < |s.procs| && s.procs[x].state.RUNNABLE?
  }

  /** A process goes to sleep: no wakeup has come since its sleep_prepare. */
  predicate Sleeps(q: ProcSlot, pc: Pc, mine: bool) { mine && pc.SleepBody? && q.chan != NoChan }

  // ---------------------------------------------------- a slot after a step at pc

  /** In what follows, q is slot x, pc is where the CPU works, and mine says whether it runs q's thread. */
  function StateAfter(q: ProcSlot, pc: Pc, mine: bool, x: nat): RunState {
    if Clears(pc, x) then UNUSED
    else if pc == PidBody(x) then USED
    else if pc == RunBody(x) then RUNNABLE
    else if q.state.SLEEPING? && (Wakes(q, pc, x) || Kills(q, pc, x)) then RUNNABLE
    else if Sleeps(q, pc, mine) then SLEEPING
    else if mine && pc.ZombieBody? then ZOMBIE
    else q.state
  }

  /** sleep_prepare sets the channel, and a wakeup on it takes it away. */
  function ChanAfter(q: ProcSlot, pc: Pc, mine: bool, x: nat): Chan {
    if Clears(pc, x) || Wakes(q, pc, x) then NoChan else if mine && pc.PrepBody? then pc.chan else q.chan
  }

  predicate KilledAfter(q: ProcSlot, pc: Pc, mine: bool, x: nat) {
    !Clears(pc, x) && (q.killed || Kills(q, pc, x) || (mine && pc.SetBody?))
  }

  function PidAfter(q: ProcSlot, pc: Pc, x: nat, nextpid: nat): nat {
    if Clears(pc, x) then 0 else if pc == PidBody(x) then nextpid else q.pid
  }

  /** fork by p sets the parent, exit passes its children to init, and kwait takes a zombie that it could report. */
  function ParentAfter(q: ProcSlot, pc: Pc, ok: bool, x: nat, p: int, init: nat): int {
    if Clears(pc, x) || (pc == ChildBody(x) && q.state.ZOMBIE? && ok) then -1
    else if pc == ParentBody(x) then p
    else if pc == Reparent(x) && q.parent == p then init
    else q.parent
  }

  predicate PagesAfter(q: ProcSlot, pc: Pc, ok: bool, x: nat) {
    !Clears(pc, x) && (q.pages || (pc == MemBody(x) && ok))
  }

  function OnAfter(q: ProcSlot, pc: Pc, mine: bool, x: nat): int {
    if Clears(pc, x) || Sleeps(q, pc, mine) || (mine && pc.ExitSched?) then -1 else q.on
  }

  /** A thread that is not on the CPU gets a context in fork, and loses it with its slot. */
  function ContextAfter(q: ProcSlot, pc: Pc, ok: bool, x: nat): Pc {
    if Clears(pc, x) then Idle else if pc == MemBody(x) && ok then ForkRet else q.pc
  }

  /** Slot x after a step at the program point of process p; where p itself goes on is not said here. */
  predicate SlotAfter(s: State, s': State, p: nat, ok: bool, x: nat)
    requires x < |s.procs| == |s'.procs| && p < |s.procs|
  {
    var (q, q', pc, mine) := (s.procs[x], s'.procs[x], s.procs[p].pc, x == p);
    && q'.state == StateAfter(q, pc, mine, x) && q'.chan == ChanAfter(q, pc, mine, x)
    && q'.killed == KilledAfter(q, pc, mine, x) && q'.pid == PidAfter(q, pc, x, s.nextpid)
    && q'.parent == ParentAfter(q, pc, ok, x, p, s.init) && q'.pages == PagesAfter(q, pc, ok, x)
    && q'.on == OnAfter(q, pc, mine, x) && (Clears(pc, x) || q'.intr == q.intr)
    && (mine || q'.pc == ContextAfter(q, pc, ok, x))
    && s'.init == s.init && s'.nextpid == s.nextpid + if pc.PidBody? then 1 else 0
  }

  lemma AllocEffect(s: State, p: nat, ok: bool, x: nat)
    requires p < |s.procs| && x < |s.procs| && ForkPc(s.procs[p].pc, |s.procs|)
    requires s.procs[p].pc.AllocAcq? || s.procs[p].pc.AllocBody? || s.procs[p].pc.PidBody?
    ensures |ForkWork(s, p, ok).procs| == |s.procs| && SlotAfter(s, ForkWork(s, p, ok), p, ok, x)
  {
  }

  lemma PagesEffect(s: State, p: nat, ok: bool, x: nat)
    requires p < |s.procs| && x < |s.procs| && ForkPc(s.procs[p].pc, |s.procs|)
    requires s.procs[p].pc.MemBody? || s.procs[p].pc.FailBody?
    ensures |ForkWork(s, p, ok).procs| == |s.procs| && SlotAfter(s, ForkWork(s, p, ok), p, ok, x)
  {
  }

  lemma ChildEffect(s: State, p: nat, ok: bool, x: nat)
    requires p < |s.procs| && x < |s.procs| && ForkPc(s.procs[p].pc, |s.procs|)
    requires s.procs[p].pc.ParentBody? || s.procs[p].pc.RunBody?
    ensures |ForkWork(s, p, ok).procs| == |s.procs| && SlotAfter(s, ForkWork(s, p, ok), p, ok, x)
  {
  }

  lemma ForkEffect(s: State, p: nat, ok: bool, x: nat)
    requires p < |s.procs| && x < |s.procs| && ForkPc(s.procs[p].pc, |s.procs|)
    ensures |ForkWork(s, p, ok).procs| == |s.procs| && SlotAfter(s, ForkWork(s, p, ok), p, ok, x)
  {
    hide SlotAfter, ForkWork;
    var pc := s.procs[p].pc;
    if pc.MemBody? || pc.FailBody? {
      PagesEffect(s, p, ok, x);
    } else if pc.ParentBody? || pc.RunBody? {
      ChildEffect(s, p, ok, x);
    } else {
      AllocEffect(s, p, ok, x);
    }
  }

  lemma ReparentEffect(s: State, c: nat, p: nat, ok: bool, x: nat)
    requires p < |s.procs| && x < |s.procs| && c < |s.cpus| && s.procs[p].pc.Reparent?
    ensures |ExitWork(s, c, p).procs| == |s.procs| && SlotAfter(s, ExitWork(s, c, p), p, ok, x)
  {
  }

  lemma ExitEffect(s: State, c: nat, p: nat, ok: bool, x: nat)
    requires p < |s.procs| && x < |s.procs| && c < |s.cpus| && ExitPc(s.procs[p].pc)
    ensures |ExitWork(s, c, p).procs| == |s.procs| && SlotAfter(s, ExitWork(s, c, p), p, ok, x)
  {
    if s.procs[p].pc.Reparent? {
      hide SlotAfter, ExitWork;
      ReparentEffect(s, c, p, ok, x);
    }
  }

  lemma WakeupEffect(s: State, p: nat, ok: bool, x: nat)
    requires p < |s.procs| && x < |s.procs| && WakePc(s.procs[p].pc, |s.procs|)
    requires s.procs[p].pc.WakeAcq? || s.procs[p].pc.WakeBody?
    ensures |WakeWork(s, p).procs| == |s.procs| && SlotAfter(s, WakeWork(s, p), p, ok, x)
  {
  }

  lemma KillEffect(s: State, p: nat, ok: bool, x: nat)
    requires p < |s.procs| && x < |s.procs| && s.procs[p].pc.KillBody? && s.procs[p].pc.i < |s.procs|
    ensures |WakeWork(s, p).procs| == |s.procs| && SlotAfter(s, WakeWork(s, p), p, ok, x)
  {
    if x != s.procs[p].pc.i && x != p {
      assert WakeWork(s, p).procs[x] == s.procs[x];
    }
  }

  lemma SetKilledEffect(s: State, p: nat, ok: bool, x: nat)
    requires p < |s.procs| && x < |s.procs| && WakePc(s.procs[p].pc, |s.procs|)
    requires s.procs[p].pc.KillAcq? || s.procs[p].pc.SetBody?
    ensures |WakeWork(s, p).procs| == |s.procs| && SlotAfter(s, WakeWork(s, p), p, ok, x)
  {
  }

  lemma WakeEffect(s: State, p: nat, ok: bool, x: nat)
    requires p < |s.procs| && x < |s.procs| && WakePc(s.procs[p].pc, |s.procs|)
    ensures |WakeWork(s, p).procs| == |s.procs| && SlotAfter(s, WakeWork(s, p), p, ok, x)
  {
    hide SlotAfter, WakeWork;
    if s.procs[p].pc.WakeAcq? || s.procs[p].pc.WakeBody? {
      WakeupEffect(s, p, ok, x);
    } else if !s.procs[p].pc.KillBody? {
      SetKilledEffect(s, p, ok, x);
    } else {
      KillEffect(s, p, ok, x);
    }
  }

  lemma ReapEffect(s: State, p: nat, ok: bool, x: nat)
    requires p < |s.procs| && x < |s.procs| && WaitPc(s.procs[p].pc, |s.procs|)
    requires s.procs[p].pc.ChildBody? || s.procs[p].pc.ReapBody?
    ensures |WaitWork(s, p, ok).procs| == |s.procs| && SlotAfter(s, WaitWork(s, p, ok), p, ok, x)
  {
  }

  lemma WaitEffect(s: State, p: nat, ok: bool, x: nat)
    requires p < |s.procs| && x < |s.procs| && WaitPc(s.procs[p].pc, |s.procs|)
    ensures |WaitWork(s, p, ok).procs| == |s.procs| && SlotAfter(s, WaitWork(s, p, ok), p, ok, x)
  {
    if s.procs[p].pc.ChildBody? || s.procs[p].pc.ReapBody? {
      hide SlotAfter, WaitWork;
      ReapEffect(s, p, ok, x);
    }
  }

  lemma SleepEffect(s: State, c: nat, p: nat, ok: bool, x: nat)
    requires p < |s.procs| && x < |s.procs| && c < |s.cpus| && SleepPc(s.procs[p].pc)
    ensures |SleepWork(s, c, p).procs| == |s.procs| && SlotAfter(s, SleepWork(s, c, p), p, ok, x)
  {
  }

  lemma WorkEffect(s: State, c: nat, p: nat, ok: bool, x: nat)
    requires p < |s.procs| && x < |s.procs| && c < |s.cpus| && Works(s.procs[p].pc, |s.procs|)
    ensures |Work(s, c, p, ok).procs| == |s.procs| && SlotAfter(s, Work(s, c, p, ok), p, ok, x)
  {
    hide SlotAfter, ForkWork, ExitWork, WakeWork, WaitWork, SleepWork;
    var (pc, n) := (s.procs[p].pc, |s.procs|);
    if ForkPc(pc, n) {
      ForkEffect(s, p, ok, x);
    } else if ExitPc(pc) {
      ExitEffect(s, c, p, ok, x);
    } else if WakePc(pc, n) {
      WakeEffect(s, p, ok, x);
    } else if WaitPc(pc, n) {
      WaitEffect(s, p, ok, x);
    } else {
      SleepEffect(s, c, p, ok, x);
    }
  }

  // --------------------------------------------------------------- every step

  /** A step that is neither work at a program point, nor a switch, changes where one thread is. */
  predicate MovesOnly(q: ProcSlot, q': ProcSlot) { q' == q.(pc := q'.pc, intr := q'.intr) }

  /** Slot x after any step. */
  predicate Effect(s: State, s': State, c: nat, a: Act, x: nat)
    requires c < |s.cpus| && x < |s.procs| == |s'.procs|
  {
    var (q, q', p) := (s.procs[x], s'.procs[x], Runs(s, c));
    match a
    case Sched => q' == if Enters(s, c, a, x) then q.(state := RUNNING, on := c) else q
    case YieldSwitch => q' == if x == p then q.(state := RUNNABLE, intr := YieldBack, on := -1) else q
    case Body(ok) => p >= 0 && SlotAfter(s, s', p, ok, x)
    case _ => if x == p then MovesOnly(q, q') else q' == q
  }

  lemma InitKept(s: State, s': State, p: nat, ok: bool, x: nat)
    requires x < |s.procs| == |s'.procs| && p < |s.procs| && SlotAfter(s, s', p, ok, x)
    ensures s'.init == s.init
  {
  }

  /** Every step of every CPU does this to every slot; slots neither come nor go. */
  lemma StepEffect(s: State, s': State, c: nat, a: Act, x: nat)
    requires Step(s, s', c, a) && x < |s.procs|
    ensures c < |s.cpus| && |s'.procs| == |s.procs| && s'.init == s.init && Effect(s, s', c, a, x)
  {
    hide SlotAfter, Work;
    if a.Body? {
      hide Works;
      WorkEffect(s, c, s.cpus[c].run, a.ok, x);
      InitKept(s, s', s.cpus[c].run, a.ok, x);
    } else {
      hide Works, Starts, Want, Lets, Got, Gone, NoLocks;
    }
  }
}
