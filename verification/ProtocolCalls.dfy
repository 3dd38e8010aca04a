/**
 System calls from beginning to end, in any run: what kkill, wakeup, kwait, kfork and kexit
 have done when they return, however the steps of other processes and CPUs fall in between.
 */
module ProtocolCalls {
  import opened Protocol
  import opened ProtocolInv
  import opened ProtocolSteps
  import opened ProtocolSafety
  import opened ProtocolEffects

  function PcAt(s: State, p: nat): Pc { if p < |s.procs| then s.procs[p].pc else Idle }

  /** Something happened in the steps at times a, ..., t - 1. */
  ghost predicate Since(a: nat, t: nat, event: nat -> bool) {
    exists u: nat :: a <= u < t && event(u)
  }

  lemma SinceNext(a: nat, t: nat, event: nat -> bool)
    requires a <= t && (Since(a, t, event) || event(t))
    ensures Since(a, t + 1, event)
  {
  }

  /** It happened to each of the first n slots. */
  ghost predicate Looked(a: nat, t: nat, event: (nat, nat) -> bool, n: nat) {
    forall i: nat | i < n :: LookedAt(a, t, event, i)
  }

  ghost predicate LookedAt(a: nat, t: nat, event: (nat, nat) -> bool, i: nat) {
    exists u: nat :: a <= u < t && event(u, i)
  }

  lemma LookedNext(a: nat, t: nat, event: (nat, nat) -> bool, n: nat)
    requires a <= t && Looked(a, t, event, n)
    ensures Looked(a, t + 1, event, n) && (event(t, n) ==> Looked(a, t + 1, event, n + 1))
  {
    var next := t + 1;
    forall i: nat | i < n ensures LookedAt(a, next, event, i) {
      assert LookedAt(a, t, event, i);
    }
  }

  /** Threads that may lose or get their program point by what another one does. */
  predicate Passive(pc: Pc) { pc.Idle? || pc.ForkRet? || pc.Dead? }

  /** A step by the thread of p on CPU c that moves it on. */
  predicate Moves(s: State, s': State, c: nat, a: Act, p: nat)
    requires c < |s.cpus| && p < |s.procs| == |s'.procs|
  {
    var (q, pc') := (s.procs[p], s'.procs[p].pc);
    && Runs(s, c) == p && q.intr.NoYield?
    && match a
       case Start(pc) => q.pc.User? && Starts(pc, p, s.init) && pc' == pc
       case Acquire => Want(q, p, |s.procs|).Some? && pc' == Got(q.pc)
       case Release => Lets(q, p).Some? && pc' == Gone(q.pc)
       case Body(ok) => Works(q.pc, |s.procs|) && pc' == PcAt(Work(s, c, p, ok), p)
       case CopyOut => q.pc.ChildBody? && pc' == OutAcq(q.pc.i)
       case _ => false
  }

  /** A thread that is not passive goes on by its own steps only. */
  lemma Turn(s: State, s': State, c: nat, a: Act, p: nat)
    requires Inv(s) && Step(s, s', c, a) && p < |s.procs| && !Passive(s.procs[p].pc)
    ensures c < |s.cpus| && |s'.procs| == |s.procs| && s'.init == s.init && Effect(s, s', c, a, p)
    ensures s'.procs[p].pc == s.procs[p].pc || Moves(s, s', c, a, p)
  {
    StepEffect(s, s', c, a, p);
    assert ProcOk(s, p);
    if Runs(s, c) >= 0 {
      assert PcOk(s, Runs(s, c));
    }
    hide Inv, ProcOk, Work, Works, Want, Lets, Got, Gone, Starts, NoLocks;
  }

  // ----------------------------------------------------------------------- kkill

  lemma KillFlow(s: State, s': State, c: nat, a: Act, p: nat)
    requires Inv(s) && Step(s, s', c, a) && p < |s.procs| && (s.procs[p].pc.KillAcq? || s.procs[p].pc.KillBody?)
    ensures |s'.procs| == |s.procs|
    ensures var (pc, pc', n) := (s.procs[p].pc, s'.procs[p].pc, |s.procs|);
            || pc' == pc
            || (pc.KillAcq? && pc' == if pc.i < n then KillBody(pc.pid, pc.i) else User)
            || (pc.KillBody? && Doing(s, c, a) == pc && Runs(s, c) == p && pc.i < n
                && pc' == if s.procs[pc.i].pid == pc.pid then User else KillAcq(pc.pid, pc.i + 1))
  {
    hide Inv, Step, Effect, ForkWork, ExitWork, WaitWork, SleepWork;
    Turn(s, s', c, a, p);
  }

  /** What a kill does to slot i, in a step by process p: nothing else changes, but where p is. */
  predicate HitBy(s: State, s': State, p: nat, i: nat)
    requires p < |s.procs| == |s'.procs| && i < |s.procs|
  {
    && (var (q, q') := (s.procs[i], s'.procs[i]);
        && q'.killed && q'.state == (if q.state.SLEEPING? then RUNNABLE else q.state)
        && q' == q.(killed := true, state := q'.state, pc := q'.pc) && (i != p ==> q'.pc == q.pc))
    && (forall x | 0 <= x < |s.procs| && x != i ::
          s'.procs[x] == if x == p then s.procs[x].(pc := s'.procs[x].pc) else s.procs[x])
  }

  /** What a kill does with a slot that has another pid. */
  predicate LeftBy(s: State, s': State, p: nat)
    requires p < |s.procs| == |s'.procs|
  {
    forall x | 0 <= x < |s.procs| ::
      s'.procs[x] == if x == p then s.procs[x].(pc := s'.procs[x].pc) else s.procs[x]
  }

  /** The holder of a slot's lock gives it back, and no other lock changes hands. */
  predicate Unlocks(s: State, s': State, c: nat, i: nat) {
    Holder(s, ProcLock(i)) == c && s'.locks == s.locks - {ProcLock(i)}
  }

  lemma DoesWake(s: State, s': State, c: nat, a: Act, p: nat)
    requires Step(s, s', c, a) && p < |s.procs| && Runs(s, c) == p && a.Body? && s.procs[p].intr.NoYield?
    requires s.procs[p].pc.WakeBody? || s.procs[p].pc.KillBody?
    ensures WakePc(s.procs[p].pc, |s.procs|) && s' == WakeWork(s, p)
  {
    hide WakeWork, ForkWork, ExitWork, WaitWork, SleepWork;
  }

  /** The lock of the slot that a thread at pc works on. */
  lemma HasSlot(s: State, c: nat, p: nat, i: nat)
    requires Inv(s) && p < |s.procs| && Runs(s, c) == p && s.procs[p].intr.NoYield?
    requires SlotLock(s.procs[p].pc, p) == i
    ensures Holder(s, ProcLock(i)) == c
  {
    hide CpusInv, ThreadsInv, FamilyInv, WakeupsInv, PidsInv;
    HoldsIts(s, c, p, ProcLock(i));
  }

  /** The step of kkill(pid) by process p that looks at slot i, whose lock it holds. */
  lemma KillStep(s: State, s': State, c: nat, a: Act, p: nat, pid: nat, i: nat)
    requires Inv(s) && Step(s, s', c, a) && p < |s.procs| && Runs(s, c) == p && Doing(s, c, a) == KillBody(pid, i)
    ensures i < |s.procs| == |s'.procs| && Unlocks(s, s', c, i)
    ensures if s.procs[i].pid == pid then HitBy(s, s', p, i) && s'.procs[p].pc == User
            else LeftBy(s, s', p) && s'.procs[p].pc == KillAcq(pid, i + 1)
  {
    hide Inv, Step;
    HasSlot(s, c, p, i);
    DoesWake(s, s', c, a, p);
  }

  /** The state at time t of a run is in order, and this is the step that follows it. */
  lemma StepAt(run: seq<State>, t: nat) returns (c: nat, a: Act)
    requires IsRun(run) && t + 1 < |run|
    ensures Inv(run[t]) && Step(run[t], run[t + 1], c, a)
  {
    hide Inv, Step;
    RunKeeps(run, t);
    assert Steps(run[t], run[t + 1]);
    c, a :| Step(run[t], run[t + 1], c, a);
  }

  /** At time u, process p looks at slot i in kkill(pid) and passes it by. */
  predicate PassesBy(run: seq<State>, u: nat, p: nat, pid: nat, i: nat) {
    && u + 1 < |run| && p < |run[u].procs| == |run[u + 1].procs| && i < |run[u].procs|
    && run[u].procs[p].pc == KillBody(pid, i) && run[u].procs[i].pid != pid && LeftBy(run[u], run[u + 1], p)
  }

  /** At time u, process p finds pid in slot i in kkill(pid), and kills it. */
  predicate Hits(run: seq<State>, u: nat, p: nat, pid: nat, i: nat) {
    && u + 1 < |run| && p < |run[u].procs| == |run[u + 1].procs| && i < |run[u].procs|
    && run[u].procs[p].pc == KillBody(pid, i) && run[u].procs[i].pid == pid && HitBy(run[u], run[u + 1], p, i)
  }

  ghost function Passing(run: seq<State>, p: nat, pid: nat): (nat, nat) -> bool {
    (u: nat, i: nat) => PassesBy(run, u, p, pid, i)
  }

  /** A kkill that began at time a, at time t: the slots before the next one were passed by. */
  ghost predicate Killing(run: seq<State>, a: nat, t: nat, p: nat, pid: nat) {
    && a <= t < |run| && p < |run[t].procs| == |run[a].procs|
    && var pc := run[t].procs[p].pc;
       && (pc.KillAcq? || pc.KillBody?) && pc.pid == pid && pc.i <= |run[a].procs|
       && Looked(a, t, Passing(run, p, pid), pc.i)
  }

  /** The kkill that began at time a returns with the step at time u: with the victim, or after looking at all. */
  ghost predicate KillDone(run: seq<State>, a: nat, u: nat, p: nat, pid: nat) {
    && u + 1 < |run| && PcAt(run[u + 1], p) == User
    && (HitAt(run, u, p, pid) || (a < |run| && Looked(a, u, Passing(run, p, pid), |run[a].procs|)))
  }

  ghost predicate HitAt(run: seq<State>, u: nat, p: nat, pid: nat) {
    exists i: nat :: Hits(run, u, p, pid, i)
  }

  lemma KillGoesOn(run: seq<State>, a: nat, t: nat, p: nat, pid: nat)
    requires IsRun(run) && Killing(run, a, t, p, pid) && t + 1 < |run|
    ensures Killing(run, a, t + 1, p, pid) || KillDone(run, a, t, p, pid)
  {
    hide Inv, Step, IsRun, Looked;
    var c, act := StepAt(run, t);
    var pc := run[t].procs[p].pc;
    KillFlow(run[t], run[t + 1], c, act, p);
    LookedNext(a, t, Passing(run, p, pid), pc.i);
    if pc.KillBody? && run[t + 1].procs[p].pc != pc {
      KillStep(run[t], run[t + 1], c, act, p, pid, pc.i);
      hide HitBy, LeftBy;
      assert Hits(run, t, p, pid, pc.i) || PassesBy(run, t, p, pid, pc.i);
    }
  }

  /**
   kkill(pid), from its start to its return: it returns with the step that killed the process
   with that pid, or it has looked at every slot, and none had that pid when it did.
   */
  lemma {:induction false} KillReturns(run: seq<State>, a: nat, t: nat, p: nat, pid: nat)
    requires IsRun(run) && a <= t < |run| && PcAt(run[a], p) == KillAcq(pid, 0)
    requires forall u | a < u < t :: PcAt(run[u], p) != User
    ensures Killing(run, a, t, p, pid) || (t > a && KillDone(run, a, t - 1, p, pid))
  {
    hide IsRun, HitAt, LookedAt;
    if t > a {
      hide Killing;
      KillReturns(run, a, t - 1, p, pid);
      KillGoesOn(run, a, t - 1, p, pid);
    }
  }

  /** A process that keeps its slot and its pid has been killed when a kkill of its pid returns. */
  lemma KillKills(run: seq<State>, a: nat, b: nat, p: nat, pid: nat, x: nat)
    requires IsRun(run) && a < b < |run| && PcAt(run[a], p) == KillAcq(pid, 0) && pid != 0
    requires PcAt(run[b], p) == User && forall u | a < u < b :: PcAt(run[u], p) != User
    requires forall u | a <= u < b :: x < |run[u].procs| && run[u].procs[x].pid == pid
    ensures Hits(run, b - 1, p, pid, x)
  {
    hide IsRun, HitBy, LeftBy;
    KillReturns(run, a, b, p, pid);
    RunKeeps(run, b - 1);
    hide Inv;
    assert !LookedAt(a, b - 1, Passing(run, p, pid), x);
    if HitAt(run, b - 1, p, pid) {
      var i: nat :| Hits(run, b - 1, p, pid, i);
      SamePid(run[b - 1], i, x);
    }
  }

  lemma SamePid(s: State, i: nat, x: nat)
    requires Inv(s) && i < |s.procs| && x < |s.procs| && s.procs[i].pid == s.procs[x].pid != 0
    ensures i == x
  {
    assert ProcOk(s, i) && ProcOk(s, x);
    hide CpusInv, LocksInv, ThreadsInv, FamilyInv, WakeupsInv;
  }

  // ---------------------------------------------------------------------- wakeup

  /** What wakeup(ch) does to slot i: a process on that channel is taken off it, and runnable if it slept. */
  predicate WokenBy(s: State, s': State, p: nat, ch: Chan, i: nat)
    requires p < |s.procs| == |s'.procs| && i < |s.procs|
  {
    && (var (q, q') := (s.procs[i], s'.procs[i]);
        if q.chan == ch
        then && q'.chan == NoChan && q'.state == (if q.state.SLEEPING? then RUNNABLE else q.state)
             && q' == q.(chan := NoChan, state := q'.state, pc := q'.pc) && (i != p ==> q'.pc == q.pc)
        else q' == if i == p then q.(pc := q'.pc) else q)
    && (forall x | 0 <= x < |s.procs| && x != i ::
          s'.procs[x] == if x == p then s.procs[x].(pc := s'.procs[x].pc) else s.procs[x])
  }

  /** The step of wakeup(ch) by process p that looks at slot i, whose lock it holds; ch may be any channel. */
  lemma WakeStep(s: State, s': State, c: nat, a: Act, p: nat, ch: Chan, i: nat, k: Cont)
    requires Inv(s) && Step(s, s', c, a) && p < |s.procs| && Runs(s, c) == p && Doing(s, c, a) == WakeBody(ch, i, k)
    ensures i < |s.procs| == |s'.procs| && Unlocks(s, s', c, i)
    ensures WokenBy(s, s', p, ch, i) && s'.procs[p].pc == WakeAcq(ch, i + 1, k)
  {
    hide Inv, Step;
    HasSlot(s, c, p, i);
    DoesWake(s, s', c, a, p);
  }

  /** Where wakeup returns to. */
  function ReturnsTo(k: Cont): Pc {
    match k
    case ToUser => User
    case ToExit => OwnAcq
    case ToReparent(j) => Pc.Reparent(j + 1)
  }

  lemma WakeFlow(s: State, s': State, c: nat, a: Act, p: nat)
    requires Inv(s) && Step(s, s', c, a) && p < |s.procs| && (s.procs[p].pc.WakeAcq? || s.procs[p].pc.WakeBody?)
    ensures |s'.procs| == |s.procs|
    ensures var (pc, pc', n) := (s.procs[p].pc, s'.procs[p].pc, |s.procs|);
            || pc' == pc
            || (pc.WakeAcq? && pc' == if pc.i < n then WakeBody(pc.chan, pc.i, pc.k) else ReturnsTo(pc.k))
            || (pc.WakeBody? && Doing(s, c, a) == pc && Runs(s, c) == p && pc' == WakeAcq(pc.chan, pc.i + 1, pc.k))
  {
    hide Inv, Step, Effect, ForkWork, ExitWork, WaitWork, SleepWork;
    Turn(s, s', c, a, p);
  }

  /** At time u, process p looks at slot i in wakeup(ch). */
  predicate Rouses(run: seq<State>, u: nat, p: nat, ch: Chan, i: nat) {
    && u + 1 < |run| && p < |run[u].procs| == |run[u + 1].procs| && i < |run[u].procs|
    && run[u].procs[p].pc.WakeBody? && run[u].procs[p].pc.chan == ch && run[u].procs[p].pc.i == i
    && WokenBy(run[u], run[u + 1], p, ch, i)
  }

  ghost function Rousing(run: seq<State>, p: nat, ch: Chan): (nat, nat) -> bool {
    (u: nat, i: nat) => Rouses(run, u, p, ch, i)
  }

  /** A wakeup that began at time a, at time t: all slots before the next one were looked at. */
  ghost predicate Waking(run: seq<State>, a: nat, t: nat, p: nat, ch: Chan, k: Cont) {
    && a <= t < |run| && p < |run[t].procs| == |run[a].procs|
    && var pc := run[t].procs[p].pc;
       && (pc.WakeAcq? || pc.WakeBody?) && pc.chan == ch && pc.k == k && pc.i <= |run[a].procs|
       && Looked(a, t, Rousing(run, p, ch), pc.i)
  }

  ghost predicate WakeDone(run: seq<State>, a: nat, u: nat, p: nat, ch: Chan, k: Cont) {
    && a <= u && u + 1 < |run| && PcAt(run[u + 1], p) == ReturnsTo(k)
    && Looked(a, u, Rousing(run, p, ch), |run[a].procs|)
  }

  lemma WakeGoesOn(run: seq<State>, a: nat, t: nat, p: nat, ch: Chan, k: Cont)
    requires IsRun(run) && Waking(run, a, t, p, ch, k) && t + 1 < |run|
    ensures Waking(run, a, t + 1, p, ch, k) || WakeDone(run, a, t, p, ch, k)
  {
    hide Inv, Step, IsRun, Looked;
    var c, act := StepAt(run, t);
    var pc := run[t].procs[p].pc;
    WakeFlow(run[t], run[t + 1], c, act, p);
    LookedNext(a, t, Rousing(run, p, ch), pc.i);
    if pc.WakeBody? && run[t + 1].procs[p].pc != pc {
      WakeStep(run[t], run[t + 1], c, act, p, ch, pc.i, k);
      hide WokenBy;
      assert Rouses(run, t, p, ch, pc.i);
    }
  }

  /** wakeup, from its start to its return: it has looked at every slot. */
  lemma {:induction false} WakeReturns(run: seq<State>, a: nat, t: nat, p: nat, ch: Chan, k: Cont)
    requires IsRun(run) && a <= t < |run| && PcAt(run[a], p) == WakeAcq(ch, 0, k)
    requires forall u | a < u < t :: PcAt(run[u], p) != ReturnsTo(k)
    ensures Waking(run, a, t, p, ch, k) || (t > a && WakeDone(run, a, t - 1, p, ch, k))
  {
    hide IsRun, LookedAt;
    if t > a {
      hide Waking, Looked;
      WakeReturns(run, a, t - 1, p, ch, k);
      WakeGoesOn(run, a, t - 1, p, ch, k);
    }
  }

  predicate Asleep(s: State, x: nat, ch: Chan) {
    x < |s.procs| && s.procs[x].state.SLEEPING? && s.procs[x].chan == ch
  }

  /** A process asleep on a channel does not sleep through a wakeup on it. */
  lemma WakeupWakes(run: seq<State>, a: nat, b: nat, p: nat, ch: Chan, k: Cont, x: nat)
    requires IsRun(run) && a < b < |run| && PcAt(run[a], p) == WakeAcq(ch, 0, k) && ch != NoChan
    requires PcAt(run[b], p) == ReturnsTo(k) && forall u | a < u < b :: PcAt(run[u], p) != ReturnsTo(k)
    requires x < |run[a].procs|
    ensures exists u: nat :: a <= u <= b && !Asleep(run[u], x, ch)
  {
    hide IsRun;
    WakeReturns(run, a, b, p, ch, k);
    assert LookedAt(a, b - 1, Rousing(run, p, ch), x);
    var u: nat :| a <= u < b - 1 && Rouses(run, u, p, ch, x);
    assert !Asleep(run[u + 1], x, ch);
  }

  // ----------------------------------------------------------------------- sleep

  /** The step from s to s' ends the sleep of process x: a wakeup on its channel, or a kill of its pid. */
  predicate Wakened(s: State, s': State, c: nat, a: Act, x: nat) {
    && x < |s.procs| == |s'.procs| && s.procs[x].state.SLEEPING? && s'.procs[x].state.RUNNABLE?
    && (Wakes(s.procs[x], Doing(s, c, a), x) || Kills(s.procs[x], Doing(s, c, a), x))
  }

  lemma SleepStep(s: State, s': State, c: nat, a: Act, x: nat)
    requires Inv(s) && Step(s, s', c, a) && x < |s.procs| && s.procs[x].state.SLEEPING?
    ensures |s'.procs| == |s.procs|
    ensures Wakened(s, s', c, a, x) || Asleep(s', x, s.procs[x].chan)
  {
    StepEffect(s, s', c, a, x);
    assert ProcOk(s, x) && OnOk(s, x);
    if Runs(s, c) >= 0 {
      assert PcOk(s, Runs(s, c));
    }
    assert c < |s.cpus| && CpuOk(s, c);
    hide Inv, Step, CpusInv, LocksInv, ThreadsInv, FamilyInv, WakeupsInv, PidsInv, OnOk;
  }

  /** A sleep ends with a wakeup on the channel that it began on, or with a kill. */
  lemma {:induction false} SleepEnds(run: seq<State>, a: nat, t: nat, x: nat, ch: Chan)
    requires IsRun(run) && a <= t < |run| && Asleep(run[a], x, ch)
    ensures Asleep(run[t], x, ch) || exists u: nat :: a <= u < t && EndsSleep(run, u, x, ch)
  {
    hide IsRun, Asleep, Inv, Step, Wakened;
    if t > a {
      SleepEnds(run, a, t - 1, x, ch);
      var c, act := StepAt(run, t - 1);
      if Asleep(run[t - 1], x, ch) {
        AsleepNext(run, t - 1, c, act, x, ch);
      }
    }
  }

  /** At time u, process x is woken from its sleep on ch, or killed in it. */
  ghost predicate EndsSleep(run: seq<State>, u: nat, x: nat, ch: Chan) {
    && u + 1 < |run| && Asleep(run[u], x, ch)
    && WakensNow(run[u], run[u + 1], x)
  }

  ghost predicate WakensNow(s: State, s': State, x: nat) {
    exists c: nat, a: Act :: Step(s, s', c, a) && Wakened(s, s', c, a, x)
  }

  lemma AsleepNext(run: seq<State>, u: nat, c: nat, a: Act, x: nat, ch: Chan)
    requires u + 1 < |run| && Inv(run[u]) && Step(run[u], run[u + 1], c, a) && Asleep(run[u], x, ch)
    ensures Asleep(run[u + 1], x, ch) || EndsSleep(run, u, x, ch)
  {
    hide Inv, Step, Wakened;
    SleepStep(run[u], run[u + 1], c, a, x);
  }

  // -------------------------------------------------------------------- programs

  /** What a program that runs may ask for, at any time: all but the exit of init. */
  lemma UserMay(s: State, c: nat, p: nat, pc: Pc)
    requires p < |s.procs| && Runs(s, c) == p && s.procs[p].intr.NoYield? && s.procs[p].pc.User?
    ensures (exists s' :: Step(s, s', c, Act.Start(pc))) <==>
            || pc == AllocAcq(0) || pc == WaitAcq || pc == SetAcq || (pc == ExitAcq && p != s.init)
            || (pc.KillAcq? && pc.i == 0 && pc.pid != 0)
            || (pc.PrepAcq? && pc.w == Plain && pc.chan.OtherChan?)
            || (pc.WakeAcq? && pc.i == 0 && pc.k == ToUser && pc.chan.OtherChan?)
  {
    if Starts(pc, p, s.init) {
      assert Step(s, Goto(s, p, pc), c, Act.Start(pc));
    }
  }

  /** The timer can interrupt a thread exactly when its CPU holds no lock. */
  lemma PreemptMay(s: State, c: nat, p: nat)
    requires Inv(s) && p < |s.procs| && Runs(s, c) == p && s.procs[p].intr.NoYield?
    ensures (exists s' :: Step(s, s', c, Preempt)) <==> forall l :: Holder(s, l) != c
  {
    Holding(s, c, p);
    hide Inv, Holder;
    var (q, w) := (s.procs[p], WaitLock);
    if NoLocks(q.pc, p) {
      assert Step(s, Upd(s, p, q.(intr := YieldAcq)), c, Preempt);
      forall l ensures Holder(s, l) != c {
        assert Holder(s, l) == c <==> ThreadLocked(q, p, l);
      }
    } else {
      var l := if HasWait(q.pc) then w else ProcLock(SlotLock(q.pc, p));
      assert Holder(s, l) == c <==> ThreadLocked(q, p, l);
    }
  }

  /** A preempted thread takes p->lock, becomes RUNNABLE, and goes on where it was after it has been run again. */
  lemma PreemptedStays(s: State, s': State, c: nat, a: Act, p: nat)
    requires Inv(s) && Step(s, s', c, a) && p < |s.procs| && !s.procs[p].intr.NoYield?
    ensures |s'.procs| == |s.procs| && s'.procs[p].pc == s.procs[p].pc
    ensures var (q, q') := (s.procs[p], s'.procs[p]);
            || q'.intr == q.intr
            || (q.intr.YieldAcq? && q'.intr.YieldBody? && Holder(s', ProcLock(p)) == c)
            || (q.intr.YieldBody? && q'.intr.YieldBack? && q'.state.RUNNABLE? && s'.cpus[c].run == -1)
            || (q.intr.YieldBack? && q'.intr.NoYield? && Holder(s', ProcLock(p)) == -1)
  {
    StepEffect(s, s', c, a, p);
    assert ProcOk(s, p);
    if Runs(s, c) >= 0 {
      assert PcOk(s, Runs(s, c));
    }
    hide Inv, ProcOk, Work, Works, Starts, Got, Gone;
  }
}
