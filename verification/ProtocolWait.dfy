/**
 kwait, kfork and kexit from beginning to end, in any run.
 */
module ProtocolWait {
  import opened Protocol
  import opened ProtocolInv
  import opened ProtocolSafety
  import opened ProtocolEffects
  import opened ProtocolCalls

  // ----------------------------------------------------------------------- kwait

  /** The program points of kwait, with the sleep inside it. */
  predicate InKwait(pc: Pc) {
    || pc.WaitAcq? || pc.Scan? || pc.ChildAcq? || pc.ChildBody? || pc.OutAcq? || pc.OutBody?
    || pc.ReapAcq? || pc.ReapBody? || pc.ReapRel? || pc.WaitRel? || pc.KilledAcq? || pc.KilledBody? || pc.WaitDrop?
    || ((pc.PrepAcq? || pc.PrepBody? || pc.SleepAcq? || pc.SleepBody? || pc.SleepBack?) && pc.w.InWait?)
  }

  /** Slot i is a zombie child of p. */
  predicate ZombieOf(s: State, p: nat, i: nat) {
    i < |s.procs| && s.procs[i].parent == p && s.procs[i].state.ZOMBIE?
  }

  /** What kwait knows at its program points: the children seen so far, and the child that it looks at. */
  lemma Knows(s: State, p: nat)
    requires Inv(s) && p < |s.procs|
    ensures var (pc, n) := (s.procs[p].pc, |s.procs|);
            && (pc.Scan? ==> pc.i <= n && (pc.havekids <==> !NoKids(s, p, pc.i)))
            && (pc.ChildBody? ==> pc.i < n && s.procs[pc.i].parent == p)
            && (pc.ReapBody? ==> pc.i < n && s.procs[pc.i].state.ZOMBIE? && s.procs[pc.i].parent == -1 && pc.i != p)
            && ((pc.PrepAcq? || pc.PrepBody?) && pc.w.InWait? ==> pc.chan == ProcChan(p))
  {
    assert PcOk(s, p) && ProcOk(s, p);
    hide Inv, NoKids;
  }

  /** A step of kwait that acquires or releases a lock, or that begins a fault in its copyout. */
  predicate WaitLocks(pc: Pc, pc': Pc) {
    match pc
    case WaitAcq => pc' == Scan(0, false)
    case ChildAcq(i) => pc' == ChildBody(i)
    case ChildBody(i) => pc' == OutAcq(i)
    case OutAcq(i) => pc' == OutBody(i)
    case OutBody(i) => pc' == ChildBody(i)
    case ReapAcq(i) => pc' == ReapBody(i)
    case ReapRel(_) => pc' == WaitRel
    case WaitRel => pc' == User
    case KilledAcq => pc' == KilledBody
    case WaitDrop => pc' == SleepAcq(InWait)
    case PrepAcq(ch, _) => pc' == PrepBody(ch, InWait)
    case SleepAcq(_) => pc' == SleepBody(InWait)
    case SleepBack(_) => pc' == WaitAcq
    case _ => false
  }

  /** A step of kwait at which it decides something. */
  predicate Decides(s: State, s': State, p: nat, ok: bool)
    requires p < |s.procs| == |s'.procs|
  {
    var (pc, pc', n) := (s.procs[p].pc, s'.procs[p].pc, |s.procs|);
    match pc
    case Scan(i, h) => if i < n then pc' == ChildAcq(i) || pc' == Scan(i + 1, h)
                       else if NoKids(s, p, n) then pc' == WaitRel else pc' == KilledAcq
    case ChildBody(i) => if !ZombieOf(s, p, i) then pc' == Scan(i + 1, true)
                         else if ok then pc' == ReapAcq(i) && s'.procs[i].parent == -1
                         else pc' == ReapRel(i) && ZombieOf(s', p, i)
    case ReapBody(i) => pc' == ReapRel(i) && i < n && s.procs[i].state.ZOMBIE? && s'.procs[i] == UNUSED_SLOT
    case KilledBody => pc' == if s.procs[p].killed then WaitRel else PrepAcq(ProcChan(p), InWait)
    case PrepBody(ch, _) => pc' == WaitDrop && s'.procs[p].chan == ProcChan(p)
    case SleepBody(_) => pc' == SleepBack(InWait) && (s.procs[p].chan == NoChan || Asleep(s', p, s.procs[p].chan))
    case _ => false
  }

  lemma WaitDecides(s: State, c: nat, p: nat, ok: bool)
    requires Inv(s) && p < |s.procs| && WaitPc(s.procs[p].pc, |s.procs|)
    ensures |WaitWork(s, p, ok).procs| == |s.procs| && Decides(s, WaitWork(s, p, ok), p, ok)
  {
    hide Inv;
    Knows(s, p);
  }

  lemma SleepDecides(s: State, c: nat, p: nat, ok: bool)
    requires Inv(s) && p < |s.procs| && c < |s.cpus| && SleepPc(s.procs[p].pc) && s.procs[p].pc.w.InWait?
    ensures |SleepWork(s, c, p).procs| == |s.procs| && Decides(s, SleepWork(s, c, p), p, ok)
  {
    hide Inv;
    Knows(s, p);
  }

  lemma WorkDecides(s: State, c: nat, p: nat, ok: bool)
    requires Inv(s) && p < |s.procs| && c < |s.cpus| && InKwait(s.procs[p].pc) && Works(s.procs[p].pc, |s.procs|)
    ensures |Work(s, c, p, ok).procs| == |s.procs| && Decides(s, Work(s, c, p, ok), p, ok)
  {
    hide Inv, Decides, ForkWork, ExitWork, WakeWork, WaitWork, SleepWork;
    if SleepPc(s.procs[p].pc) {
      SleepDecides(s, c, p, ok);
    } else {
      WaitDecides(s, c, p, ok);
    }
  }

  /** One step of kwait. */
  lemma WaitFlow(s: State, s': State, c: nat, a: Act, p: nat)
    requires Inv(s) && Step(s, s', c, a) && p < |s.procs| && InKwait(s.procs[p].pc)
    ensures |s'.procs| == |s.procs|
    ensures var (pc, pc') := (s.procs[p].pc, s'.procs[p].pc);
            || pc' == pc
            || (!a.Body? && WaitLocks(pc, pc'))
            || (a.Body? && Doing(s, c, a) == pc && Runs(s, c) == p && Decides(s, s', p, a.ok))
  {
    hide Inv, Effect, Work, Decides, Step, Moves, WaitLocks;
    Turn(s, s', c, a, p);
    if Moves(s, s', c, a, p) {
      WaitMoves(s, s', c, a, p);
    }
  }

  lemma WaitMoves(s: State, s': State, c: nat, a: Act, p: nat)
    requires Inv(s) && Step(s, s', c, a) && p < |s.procs| == |s'.procs| && c < |s.cpus| && InKwait(s.procs[p].pc)
    requires Moves(s, s', c, a, p)
    ensures !a.Body? ==> WaitLocks(s.procs[p].pc, s'.procs[p].pc)
    ensures a.Body? ==> Doing(s, c, a) == s.procs[p].pc && Runs(s, c) == p && Decides(s, s', p, a.ok)
  {
    hide Inv, Work, Decides, Works, Step, WaitLocks, Want, Lets, Got, Gone, Starts, InKwait;
    if a.Body? {
      WorkIs(s, s', c, a, p);
      WorkDecides(s, c, p, a.ok);
    } else {
      WaitLocksMoves(s, s', c, a, p);
    }
  }

  lemma WorkIs(s: State, s': State, c: nat, a: Act, p: nat)
    requires Step(s, s', c, a) && p < |s.procs| && c < |s.cpus| && Runs(s, c) == p && a.Body?
    ensures Works(s.procs[p].pc, |s.procs|) && s' == Work(s, c, p, a.ok)
  {
    hide Work, Works;
  }

  lemma WaitLocksMoves(s: State, s': State, c: nat, a: Act, p: nat)
    requires p < |s.procs| == |s'.procs| && c < |s.cpus| && InKwait(s.procs[p].pc)
    requires Moves(s, s', c, a, p) && !a.Body?
    ensures WaitLocks(s.procs[p].pc, s'.procs[p].pc)
  {
    hide Work, Works;
  }

  /** At time u, process p takes its zombie child in slot i, whose exit status it could report. */
  predicate Takes(run: seq<State>, u: nat, p: nat, i: nat) {
    u + 1 < |run| && ZombieOf(run[u], p, i) && PcAt(run[u], p) == ChildBody(i) && PcAt(run[u + 1], p) == ReapAcq(i)
  }

  ghost function Taking(run: seq<State>, p: nat, i: nat): nat -> bool { (u: nat) => Takes(run, u, p, i) }

  /** At time u, process p frees the zombie in slot i. */
  predicate Frees(run: seq<State>, u: nat, p: nat, i: nat) {
    && u + 1 < |run| && i < |run[u].procs| == |run[u + 1].procs| && PcAt(run[u], p) == ReapBody(i)
    && run[u].procs[i].state.ZOMBIE? && run[u + 1].procs[i] == UNUSED_SLOT
  }

  /** At time u, process p fails to report the exit status of its zombie child in slot i, which stays what it is. */
  predicate Unreported(run: seq<State>, u: nat, p: nat, i: nat) {
    && u + 1 < |run| && PcAt(run[u], p) == ChildBody(i) && PcAt(run[u + 1], p) == ReapRel(i)
    && ZombieOf(run[u], p, i) && ZombieOf(run[u + 1], p, i)
  }

  /** At time u, process p has looked at every slot with wait_lock and has no child. */
  predicate Childless(run: seq<State>, u: nat, p: nat) {
    u < |run| && PcAt(run[u], p).Scan? && NoKids(run[u], p, |run[u].procs|)
  }

  /** At time u, process p finds that it has been killed. */
  predicate FindsKilled(run: seq<State>, u: nat, p: nat) {
    u < |run| && PcAt(run[u], p).KilledBody? && p < |run[u].procs| && run[u].procs[p].killed
  }

  ghost predicate Reaps(run: seq<State>, a: nat, u: nat, p: nat) {
    exists i: nat :: Frees(run, u, p, i) && Since(a, u, Taking(run, p, i))
  }

  ghost predicate FailsToReport(run: seq<State>, u: nat, p: nat) {
    exists i: nat :: Unreported(run, u, p, i)
  }

  /** What lets a kwait that began at time a go to its end, at time u. */
  ghost predicate MayLeave(run: seq<State>, a: nat, u: nat, p: nat) {
    Reaps(run, a, u, p) || FailsToReport(run, u, p) || Childless(run, u, p) || FindsKilled(run, u, p)
  }

  ghost function Leaving(run: seq<State>, a: nat, p: nat): nat -> bool { (u: nat) => MayLeave(run, a, u, p) }

  /** A kwait that began at time a, at time t. */
  ghost predicate Waiting(run: seq<State>, a: nat, t: nat, p: nat) {
    && a <= t < |run| && p < |run[t].procs|
    && var pc := run[t].procs[p].pc;
       && InKwait(pc)
       && (pc.ReapAcq? || pc.ReapBody? ==> Since(a, t, Taking(run, p, pc.i)))
       && (pc.ReapRel? || pc.WaitRel? ==> Since(a, t, Leaving(run, a, p)))
  }

  ghost predicate WaitDone(run: seq<State>, a: nat, u: nat, p: nat) {
    a <= u && u + 1 < |run| && PcAt(run[u + 1], p) == User && Since(a, u, Leaving(run, a, p))
  }

  lemma WaitGoesOn(run: seq<State>, a: nat, t: nat, p: nat)
    requires IsRun(run) && Waiting(run, a, t, p) && t + 1 < |run|
    ensures Waiting(run, a, t + 1, p) || WaitDone(run, a, t, p)
  {
    hide Inv, Step, IsRun, Since, NoKids;
    var c, act := StepAt(run, t);
    var (pc, pc') := (run[t].procs[p].pc, PcAt(run[t + 1], p));
    WaitFlow(run[t], run[t + 1], c, act, p);
    if pc.ReapAcq? || (pc.ReapBody? && pc' == pc) || (pc.ChildBody? && pc'.ReapAcq?) {
      assert pc.ChildBody? ==> Takes(run, t, p, pc.i);
      SinceNext(a, t, Taking(run, p, pc.i));
    }
    if pc.ReapRel? || pc.WaitRel? {
      SinceNext(a, t, Leaving(run, a, p));
    } else if pc'.ReapRel? || pc'.WaitRel? {
      assert pc.ChildBody? ==> Unreported(run, t, p, pc.i);
      assert pc.ReapBody? ==> Frees(run, t, p, pc.i);
      SinceNext(a, t, Leaving(run, a, p));
    }
  }

  /**
   kwait, from its start to its return, whatever sleeps and wakeups lie in between: it has
   freed a zombie child after taking it, or failed to report one, or it has no child at all,
   or it has been killed.
   */
  lemma {:induction false} KwaitReturns(run: seq<State>, a: nat, t: nat, p: nat)
    requires IsRun(run) && a <= t < |run| && PcAt(run[a], p) == WaitAcq
    requires forall u | a < u < t :: PcAt(run[u], p) != User
    ensures Waiting(run, a, t, p) || (t > a && WaitDone(run, a, t - 1, p))
  {
    hide IsRun, Since;
    if t > a {
      hide Waiting;
      KwaitReturns(run, a, t - 1, p);
      WaitGoesOn(run, a, t - 1, p);
    }
  }

  // ------------------------------------------------------------- kwait goes to sleep

  /** At time u, process p, which has registered to be woken up, goes to sleep in kwait, unless it was woken already. */
  predicate Settles(run: seq<State>, u: nat, p: nat) {
    && u + 1 < |run| && p < |run[u].procs| && PcAt(run[u], p) == SleepBody(InWait)
    && (run[u].procs[p].chan == NoChan || Asleep(run[u + 1], p, run[u].procs[p].chan))
  }

  /** At time u, process p registers to be woken up by its children. */
  predicate Registers(run: seq<State>, u: nat, p: nat) {
    && u + 1 < |run| && PcAt(run[u], p) == PrepBody(ProcChan(p), InWait)
    && p < |run[u + 1].procs| && run[u + 1].procs[p].chan == ProcChan(p)
  }

  ghost function Settling(run: seq<State>, p: nat): nat -> bool { (u: nat) => Settles(run, u, p) }

  ghost function Registering(run: seq<State>, p: nat): nat -> bool { (u: nat) => Registers(run, u, p) }

  /** Between the end of a scan that found a child, at time a, and the end of the sleep behind it. */
  ghost predicate Parking(run: seq<State>, a: nat, t: nat, p: nat) {
    && a <= t < |run| && p < |run[t].procs|
    && var pc := run[t].procs[p].pc;
       && (|| (pc.Scan? && pc.havekids && pc.i == |run[t].procs|) || pc.KilledAcq? || pc.KilledBody?
           || pc == PrepAcq(ProcChan(p), InWait) || pc == PrepBody(ProcChan(p), InWait) || pc.WaitDrop?
           || pc == SleepAcq(InWait) || pc == SleepBody(InWait) || pc == SleepBack(InWait))
       && (pc.WaitDrop? || pc.SleepAcq? || pc.SleepBody? || pc.SleepBack? ==> Since(a, t, Registering(run, p)))
       && (pc.SleepBack? ==> Since(a, t, Settling(run, p)))
  }

  /** It ends with the next scan, after having registered and slept, or with -1, after having been killed. */
  ghost predicate ParkDone(run: seq<State>, a: nat, u: nat, p: nat) {
    && a <= u && u + 1 < |run|
    && (|| (PcAt(run[u + 1], p) == WaitRel && FindsKilled(run, u, p))
        || (PcAt(run[u + 1], p) == WaitAcq && Since(a, u, Registering(run, p)) && Since(a, u, Settling(run, p))))
  }

  lemma ParkGoesOn(run: seq<State>, a: nat, t: nat, p: nat)
    requires IsRun(run) && Parking(run, a, t, p) && t + 1 < |run|
    ensures Parking(run, a, t + 1, p) || ParkDone(run, a, t, p)
  {
    hide Inv, Step, IsRun, Since, NoKids, Asleep;
    var c, act := StepAt(run, t);
    var pc := run[t].procs[p].pc;
    Knows(run[t], p);
    WaitFlow(run[t], run[t + 1], c, act, p);
    if pc.WaitDrop? || pc.SleepAcq? || pc.SleepBody? || pc.SleepBack? || Registers(run, t, p) {
      SinceNext(a, t, Registering(run, p));
    }
    if pc.SleepBack? || Settles(run, t, p) {
      SinceNext(a, t, Settling(run, p));
    }
  }

  /**
   A scan of kwait that has seen every slot and has a child does not end the call: unless p
   has been killed, it registers on its channel and goes to sleep, and scans again only then.
   */
  lemma {:induction false} KwaitSleeps(run: seq<State>, a: nat, t: nat, p: nat)
    requires IsRun(run) && a <= t < |run| && p < |run[a].procs| && HasKid(run[a], p)
    requires run[a].procs[p].pc.Scan? && run[a].procs[p].pc.i == |run[a].procs|
    requires forall u | a < u < t :: !PcAt(run[u], p).WaitRel? && !PcAt(run[u], p).WaitAcq?
    ensures Parking(run, a, t, p) || (t > a && ParkDone(run, a, t - 1, p))
  {
    hide IsRun, Since, Inv;
    if t > a {
      hide Parking;
      KwaitSleeps(run, a, t - 1, p);
      ParkGoesOn(run, a, t - 1, p);
    } else {
      RunKeeps(run, a);
      Knows(run[a], p);
    }
  }

  // ----------------------------------------------------------------------- kfork

  predicate InKfork(pc: Pc) {
    || pc.AllocAcq? || pc.AllocBody? || pc.PidAcq? || pc.PidBody? || pc.MemAcq? || pc.MemBody? || pc.Copied?
    || pc.FailAcq? || pc.FailBody? || pc.FailRel? || pc.ParentAcq? || pc.ParentBody? || pc.RunAcq? || pc.RunBody?
  }

  /** A step of kfork that acquires or releases a lock. */
  predicate ForkLocks(pc: Pc, pc': Pc, n: nat) {
    match pc
    case AllocAcq(i) => i < n && pc' == AllocBody(i)
    case PidAcq(i) => pc' == PidBody(i)
    case MemAcq(i) => pc' == MemBody(i)
    case Copied(i) => pc' == ParentAcq(i)
    case FailAcq(i) => pc' == FailBody(i)
    case FailRel(_) => pc' == User
    case ParentAcq(i) => pc' == ParentBody(i)
    case RunAcq(i) => pc' == RunBody(i)
    case _ => false
  }

  /** The slot of a child that is ready to run for the first time. */
  predicate Newborn(q: ProcSlot, p: nat) {
    q.state.RUNNABLE? && q.parent == p && q.pages && q.pc.ForkRet? && q.chan == NoChan
  }

  /** A step of kfork at which it decides something. */
  predicate ForkDecides(s: State, s': State, p: nat, ok: bool)
    requires p < |s.procs| == |s'.procs|
  {
    var (pc, pc', n) := (s.procs[p].pc, s'.procs[p].pc, |s.procs|);
    match pc
    case AllocAcq(i) => i >= n && pc' == User
    case AllocBody(i) => i < n && pc' == if s.procs[i].state.UNUSED? then PidAcq(i) else AllocAcq(i + 1)
    case PidBody(i) => pc' == MemAcq(i) && i < n && s'.procs[i].state.USED? && s'.procs[i].pid == s.nextpid
    case MemBody(i) => pc' == if ok then Copied(i) else FailAcq(i)
    case FailBody(i) => pc' == FailRel(i) && i < n && s'.procs[i] == UNUSED_SLOT
    case ParentBody(i) => pc' == RunAcq(i)
    case RunBody(i) => pc' == User && i < n && s.procs[i].state.USED? && s'.procs[i].state.RUNNABLE?
                       && s'.procs[i] == s.procs[i].(state := RUNNABLE, maker := -1)
    case _ => false
  }

  /** What kfork knows of the slot that it sets up. */
  lemma KnowsChild(s: State, p: nat)
    requires Inv(s) && p < |s.procs|
    ensures var (pc, n) := (s.procs[p].pc, |s.procs|);
            && (pc.AllocAcq? || pc.AllocBody? ==> pc.i <= n)
            && (pc.PidBody? ==> pc.i < n && pc.i != p)
            && (pc.FailBody? ==> pc.i < n && pc.i != p)
            && (pc.RunBody? ==> && pc.i < n && pc.i != p && s.procs[pc.i].state.USED? && s.procs[pc.i].parent == p
                                && s.procs[pc.i].pages && s.procs[pc.i].pc.ForkRet? && s.procs[pc.i].chan == NoChan)
  {
    assert PcOk(s, p) && ProcOk(s, p);
    if s.procs[p].pc.FailBody? || s.procs[p].pc.RunBody? {
      assert ProcOk(s, s.procs[p].pc.i);
    }
    hide Inv;
  }

  lemma ForkWorkDecides(s: State, p: nat, ok: bool)
    requires Inv(s) && p < |s.procs| && InKfork(s.procs[p].pc) && ForkPc(s.procs[p].pc, |s.procs|)
    ensures |ForkWork(s, p, ok).procs| == |s.procs| && ForkDecides(s, ForkWork(s, p, ok), p, ok)
  {
    hide Inv;
    KnowsChild(s, p);
  }

  /** One step of kfork. */
  lemma ForkFlow(s: State, s': State, c: nat, a: Act, p: nat)
    requires Inv(s) && Step(s, s', c, a) && p < |s.procs| && InKfork(s.procs[p].pc)
    ensures |s'.procs| == |s.procs|
    ensures var (pc, pc') := (s.procs[p].pc, s'.procs[p].pc);
            || pc' == pc
            || (!a.Body? && ForkLocks(pc, pc', |s.procs|))
            || (a.Body? && Doing(s, c, a) == pc && Runs(s, c) == p && ForkDecides(s, s', p, a.ok))
  {
    hide Inv, Effect, ForkWork, ExitWork, WakeWork, WaitWork, SleepWork, ForkDecides;
    Turn(s, s', c, a, p);
    if a.Body? && s'.procs[p].pc != s.procs[p].pc {
      ForkWorkDecides(s, p, a.ok);
    } else {
      hide Step;
    }
  }

  /** At time u, process p finds slot i in use. */
  predicate Busy(run: seq<State>, u: nat, p: nat, i: nat) {
    u < |run| && PcAt(run[u], p) == AllocBody(i) && i < |run[u].procs| && !run[u].procs[i].state.UNUSED?
  }

  ghost function Finding(run: seq<State>, p: nat): (nat, nat) -> bool { (u: nat, i: nat) => Busy(run, u, p, i) }

  /** At time u, process p gives up slot i, for which memory has run out. */
  predicate GivesUp(run: seq<State>, u: nat, p: nat) {
    && u + 1 < |run| && PcAt(run[u], p).FailBody?
    && var i := PcAt(run[u], p).i; i < |run[u + 1].procs| && run[u + 1].procs[i] == UNUSED_SLOT
  }

  ghost function GivingUp(run: seq<State>, p: nat): nat -> bool { (u: nat) => GivesUp(run, u, p) }

  /** At time u, the child that process p has made in slot i becomes ready to run. */
  predicate Bears(run: seq<State>, u: nat, p: nat) {
    && u + 1 < |run| && PcAt(run[u], p).RunBody?
    && var i := PcAt(run[u], p).i;
       && i < |run[u].procs| == |run[u + 1].procs|
       && run[u].procs[i].state.USED? && Newborn(run[u + 1].procs[i], p)
  }

  /** A kfork that began at time a, at time t. */
  ghost predicate Forking(run: seq<State>, a: nat, t: nat, p: nat) {
    && a <= t < |run| && p < |run[t].procs| == |run[a].procs|
    && var pc := run[t].procs[p].pc;
       && InKfork(pc)
       && (pc.AllocAcq? || pc.AllocBody? ==> pc.i <= |run[t].procs| && Looked(a, t, Finding(run, p), pc.i))
       && (pc.FailRel? ==> Since(a, t, GivingUp(run, p)))
  }

  ghost predicate ForkDone(run: seq<State>, a: nat, u: nat, p: nat) {
    && a <= u && u + 1 < |run| && PcAt(run[u + 1], p) == User
    && (|| Bears(run, u, p) || Since(a, u, GivingUp(run, p)) || Looked(a, u, Finding(run, p), |run[a].procs|))
  }

  lemma ForkGoesOn(run: seq<State>, a: nat, t: nat, p: nat)
    requires IsRun(run) && Forking(run, a, t, p) && t + 1 < |run|
    ensures Forking(run, a, t + 1, p) || ForkDone(run, a, t, p)
  {
    hide Inv, Step, IsRun, Since, Looked;
    var c, act := StepAt(run, t);
    var pc := run[t].procs[p].pc;
    KnowsChild(run[t], p);
    ForkFlow(run[t], run[t + 1], c, act, p);
    if pc.AllocAcq? || pc.AllocBody? {
      LookedNext(a, t, Finding(run, p), pc.i);
    }
    if pc.FailRel? || GivesUp(run, t, p) {
      SinceNext(a, t, GivingUp(run, p));
    }
  }

  /**
   kfork, from its start to its return: it ends with a child of p that is ready to run for the
   first time, or it has given up the slot because memory ran out, or it has looked at every
   slot and found each in use.
   */
  lemma {:induction false} KforkReturns(run: seq<State>, a: nat, t: nat, p: nat)
    requires IsRun(run) && a <= t < |run| && PcAt(run[a], p) == AllocAcq(0)
    requires forall u | a < u < t :: PcAt(run[u], p) != User
    ensures Forking(run, a, t, p) || (t > a && ForkDone(run, a, t - 1, p))
  {
    hide IsRun, Since, LookedAt;
    if t > a {
      hide Forking, Looked, Bears;
      KforkReturns(run, a, t - 1, p);
      ForkGoesOn(run, a, t - 1, p);
    }
  }

  // ----------------------------------------------------------------------- kexit

  predicate InKexit(pc: Pc) {
    || pc.ExitAcq? || pc.Reparent? || ((pc.WakeAcq? || pc.WakeBody?) && !pc.k.ToUser?)
    || pc.OwnAcq? || pc.ZombieBody? || pc.ExitRel? || pc.ExitSched? || pc.Dead?
  }

  predicate ExitLocks(pc: Pc, pc': Pc) {
    match pc
    case ExitAcq => pc' == Pc.Reparent(0)
    case WakeAcq(ch, i, k) => pc' == WakeBody(ch, i, k)
    case OwnAcq => pc' == ZombieBody
    case ExitRel => pc' == ExitSched
    case _ => false
  }

  /** A step of kexit at which it decides something. */
  predicate ExitDecides(s: State, s': State, p: nat)
    requires p < |s.procs| == |s'.procs|
  {
    var (pc, pc', n, q) := (s.procs[p].pc, s'.procs[p].pc, |s.procs|, s.procs[p]);
    match pc
    case Reparent(i) =>
      if i >= n then pc' == WakeAcq(if q.parent >= 0 then ProcChan(q.parent) else NoChan, 0, ToExit) && NoKids(s, p, n)
      else if s.procs[i].parent == p then
        pc' == WakeAcq(ProcChan(s.init), 0, ToReparent(i)) && s'.procs[i].parent == s.init
      else pc' == Pc.Reparent(i + 1)
    case WakeAcq(ch, i, k) => i >= n && pc' == ReturnsTo(k)
    case WakeBody(ch, i, k) => pc' == WakeAcq(ch, i + 1, k)
    case ZombieBody => pc' == ExitRel && s'.procs[p].state.ZOMBIE? && NoKids(s, p, n)
    case ExitSched => pc' == Dead && s'.procs[p].on == -1
    case _ => false
  }

  lemma KnowsNoKids(s: State, p: nat)
    requires Inv(s) && p < |s.procs|
    ensures var (pc, n) := (s.procs[p].pc, |s.procs|);
            (pc.Reparent? && pc.i >= n) || pc.ZombieBody? ==> NoKids(s, p, n)
  {
    assert PcOk(s, p);
    hide Inv;
  }

  lemma ExitWorkDecides(s: State, c: nat, p: nat)
    requires Inv(s) && p < |s.procs| && c < |s.cpus| && ExitPc(s.procs[p].pc)
    ensures |ExitWork(s, c, p).procs| == |s.procs| && ExitDecides(s, ExitWork(s, c, p), p)
  {
    hide Inv;
    KnowsNoKids(s, p);
  }

  /** A dead thread stays dead until its slot is cleared. */
  lemma DeadStays(s: State, s': State, c: nat, a: Act, p: nat)
    requires Inv(s) && Step(s, s', c, a) && p < |s.procs| && s.procs[p].pc.Dead?
    ensures |s'.procs| == |s.procs| && (s'.procs[p].pc.Dead? || s'.procs[p].pc.Idle?)
  {
    StepEffect(s, s', c, a, p);
    assert ProcOk(s, p);
    assert CpuOk(s, c);
    if Runs(s, c) >= 0 {
      assert PcOk(s, Runs(s, c));
    }
    hide Inv, Step;
  }

  /** One step of kexit. */
  lemma ExitFlow(s: State, s': State, c: nat, a: Act, p: nat)
    requires Inv(s) && Step(s, s', c, a) && p < |s.procs| && InKexit(s.procs[p].pc)
    ensures |s'.procs| == |s.procs|
    ensures var (pc, pc') := (s.procs[p].pc, s'.procs[p].pc);
            || pc' == pc || (pc.Dead? && pc'.Idle?)
            || (!a.Body? && ExitLocks(pc, pc'))
            || (a.Body? && Doing(s, c, a) == pc && Runs(s, c) == p && ExitDecides(s, s', p))
  {
    hide Inv, Effect, ForkWork, ExitWork, WaitWork, SleepWork, ExitDecides;
    if s.procs[p].pc.Dead? {
      hide Step;
      DeadStays(s, s', c, a, p);
    } else {
      Turn(s, s', c, a, p);
      if !a.Body? || s'.procs[p].pc == s.procs[p].pc {
        hide Step;
      } else if ExitPc(s.procs[p].pc) {
        ExitWorkDecides(s, c, p);
      } else {
        WakeDecides(s, p);
      }
    }
  }

  lemma WakeDecides(s: State, p: nat)
    requires p < |s.procs| && WakePc(s.procs[p].pc, |s.procs|) && (s.procs[p].pc.WakeAcq? || s.procs[p].pc.WakeBody?)
    ensures |WakeWork(s, p).procs| == |s.procs| && ExitDecides(s, WakeWork(s, p), p)
  {
  }

  /** At time u, process p, in kexit, wakes its parent up if that waits for its children. */
  predicate WakesParent(run: seq<State>, u: nat, p: nat) {
    && u < |run| && p < |run[u].procs| && run[u].procs[p].parent >= 0
    && var parent := run[u].procs[p].parent; Rouses(run, u, p, ProcChan(parent), parent)
  }

  ghost function WakingParent(run: seq<State>, p: nat): nat -> bool { (u: nat) => WakesParent(run, u, p) }

  /** At time u, process p becomes a zombie: it has no children any more, and has woken its parent up. */
  ghost predicate Dies(run: seq<State>, a: nat, u: nat, p: nat) {
    && u + 1 < |run| && p < |run[u].procs| == |run[u + 1].procs| && PcAt(run[u], p) == ZombieBody
    && run[u + 1].procs[p].state.ZOMBIE? && NoKids(run[u], p, |run[u].procs|)
    && Since(a, u, WakingParent(run, p))
  }

  ghost function Dying(run: seq<State>, a: nat, p: nat): nat -> bool { (u: nat) => Dies(run, a, u, p) }

  predicate Wakening(pc: Pc) { (pc.WakeAcq? || pc.WakeBody?) && pc.k.ToExit? }

  /** What kexit knows of its parent while it wakes it up. */
  lemma KnowsParent(s: State, p: nat)
    requires Inv(s) && p < |s.procs| && Wakening(s.procs[p].pc)
    ensures 0 <= s.procs[p].parent < |s.procs| && s.procs[p].pc.chan == ProcChan(s.procs[p].parent)
  {
    assert PcOk(s, p) && FamilyOk(s, p);
    hide Inv;
  }

  /** A kexit that began at time a, at time t. */
  ghost predicate Exiting(run: seq<State>, a: nat, t: nat, p: nat) {
    && a <= t < |run| && p < |run[t].procs|
    && var q := run[t].procs[p];
       && InKexit(q.pc)
       && (Wakening(q.pc) && q.parent < q.pc.i ==> Since(a, t, WakingParent(run, p)))
       && (q.pc.OwnAcq? || q.pc.ZombieBody? ==> Since(a, t, WakingParent(run, p)))
       && (q.pc.ExitRel? || q.pc.ExitSched? || q.pc.Dead? ==> Since(a, t, Dying(run, a, p)))
  }

  lemma ExitGoesOn(run: seq<State>, a: nat, t: nat, p: nat)
    requires IsRun(run) && Exiting(run, a, t, p) && t + 1 < |run|
    ensures Exiting(run, a, t + 1, p) || PcAt(run[t + 1], p) == Idle
  {
    hide Inv, Step, IsRun, Since, NoKids, WokenBy;
    var c, act := StepAt(run, t);
    var q := run[t].procs[p];
    ExitFlow(run[t], run[t + 1], c, act, p);
    RunKeeps(run, t + 1);
    if Wakening(q.pc) {
      KnowsParent(run[t], p);
      RouseNow(run, t, c, act, p);
    }
    if Wakening(PcAt(run[t + 1], p)) {
      KnowsParent(run[t + 1], p);
    }
    if Since(a, t, WakingParent(run, p)) || WakesParent(run, t, p) {
      SinceNext(a, t, WakingParent(run, p));
    }
    if Since(a, t, Dying(run, a, p)) || Dies(run, a, t, p) {
      SinceNext(a, t, Dying(run, a, p));
    }
  }

  lemma RouseNow(run: seq<State>, t: nat, c: nat, act: Act, p: nat)
    requires t + 1 < |run| && Inv(run[t]) && Step(run[t], run[t + 1], c, act)
    requires p < |run[t].procs| && Wakening(run[t].procs[p].pc)
    ensures var pc := run[t].procs[p].pc;
            pc.WakeBody? && PcAt(run[t + 1], p) != pc ==> Rouses(run, t, p, pc.chan, pc.i)
  {
    hide Inv, Step, WokenBy;
    var pc := run[t].procs[p].pc;
    WakeFlow(run[t], run[t + 1], c, act, p);
    if pc.WakeBody? && PcAt(run[t + 1], p) != pc {
      WakeStep(run[t], run[t + 1], c, act, p, pc.chan, pc.i, pc.k);
    }
  }

  /**
   kexit never returns: as long as its slot is not cleared, the process stays in kexit, and it
   is dead only after it has given its children away, woken its parent up and become a zombie.
   */
  lemma {:induction false} KexitDies(run: seq<State>, a: nat, t: nat, p: nat)
    requires IsRun(run) && a <= t < |run| && PcAt(run[a], p) == ExitAcq
    requires forall u | a < u <= t :: PcAt(run[u], p) != Idle
    ensures Exiting(run, a, t, p)
  {
    hide IsRun, Since;
    if t > a {
      hide Exiting;
      KexitDies(run, a, t - 1, p);
      ExitGoesOn(run, a, t - 1, p);
    }
  }
}
