/**
 The scheduler: it runs what is runnable, and it looks at every slot in turn.
 */
module ProtocolSched {
  import opened Protocol
  import opened ProtocolInv
  import opened ProtocolSteps
  import opened ProtocolSafety
  import opened ProtocolEffects
  import opened ProtocolCalls

  // -------------------------------------------------------------- one slot

  /** CPU c is in its scheduler, at pc. */
  predicate Scheduling(s: State, c: nat, pc: SchedPc) {
    c < |s.cpus| && s.cpus[c].run < 0 && s.cpus[c].pc == pc
  }

  /** Only CPU c changes between s and s', and it is in its scheduler still, with c->proc == -1. */
  predicate GoesTo(s: State, s': State, c: nat, pc: SchedPc) {
    && s'.procs == s.procs && s'.nextpid == s.nextpid && s'.init == s.init && Scheduling(s', c, pc)
    && |s'.cpus| == |s.cpus| && s'.cpus[c].proc == -1
    && forall d | 0 <= d < |s.cpus| && d != c :: s'.cpus[d] == s.cpus[d]
  }

  /** CPU c runs process i, whose lock it holds: nothing but the state and the place of i has changed. */
  predicate Hands(s: State, s': State, c: nat, i: nat) {
    && i < |s.procs| == |s'.procs| && s'.procs[i].state.RUNNING? && s'.procs[i].on == c
    && s'.procs[i] == s.procs[i].(state := RUNNING, on := c)
    && (forall x | 0 <= x < |s.procs| && x != i :: s'.procs[x] == s.procs[x])
    && c < |s.cpus| == |s'.cpus| && s'.cpus[c].run == i && s'.cpus[c].proc == i
    && (forall d | 0 <= d < |s.cpus| && d != c :: s'.cpus[d] == s.cpus[d])
    && s'.locks == s.locks && Holder(s', ProcLock(i)) == c && s'.nextpid == s.nextpid && s'.init == s.init
  }

  /**
   The scheduler of CPU c has the lock of slot i. It can go on, and whatever it does, it runs
   the process in that slot if it is runnable; otherwise it does nothing but give the lock back.
   */
  lemma RunsRunnable(run: seq<State>, t: nat, c: nat, i: nat)
    requires IsRun(run) && t < |run| && Scheduling(run[t], c, Test(i))
    ensures i < |run[t].procs| && Holder(run[t], ProcLock(i)) == c
    ensures exists s' :: Step(run[t], s', c, Sched)
    ensures forall s', a | Step(run[t], s', c, a) ::
              if run[t].procs[i].state.RUNNABLE? then Hands(run[t], s', c, i)
              else GoesTo(run[t], s', c, Leave(i)) && s'.locks == run[t].locks
  {
    hide Inv, IsRun;
    RunKeeps(run, t);
    SchedHas(run[t], c, i);
    TestCan(run[t], c, i);
    forall s', a | Step(run[t], s', c, a)
      ensures if run[t].procs[i].state.RUNNABLE? then Hands(run[t], s', c, i)
              else GoesTo(run[t], s', c, Leave(i)) && s'.locks == run[t].locks
    {
      TestStep(run[t], s', c, a, i);
    }
  }

  /** In every state, a scheduler past its acquire has the lock of the slot that it is at, and no process. */
  lemma SchedHas(s: State, c: nat, i: nat)
    requires Inv(s) && (Scheduling(s, c, Test(i)) || Scheduling(s, c, Leave(i)) || Scheduling(s, c, Pick(i)))
    ensures i < |s.procs| && s.cpus[c].proc == -1
    ensures Scheduling(s, c, Pick(i)) || Holder(s, ProcLock(i)) == c
  {
    assert CpuOk(s, c);
    hide CpusInv, ThreadsInv, FamilyInv, WakeupsInv, PidsInv;
    assert Holder(s, ProcLock(i)) == c <==> CpuLocked(s, c, ProcLock(i));
  }

  lemma TestCan(s: State, c: nat, i: nat)
    requires Scheduling(s, c, Test(i)) && i < |s.procs|
    ensures exists s' :: Step(s, s', c, Sched)
  {
    var s' := if s.procs[i].state.RUNNABLE?
              then Upd(s, i, s.procs[i].(state := RUNNING, on := c)).(cpus := s.cpus[c := Cpu(i, i, SchedPc.Back(i))])
              else s.(cpus := s.cpus[c := s.cpus[c].(pc := Leave(i))]);
    assert Step(s, s', c, Sched);
  }

  lemma TestStep(s: State, s': State, c: nat, a: Act, i: nat)
    requires Inv(s) && Scheduling(s, c, Test(i)) && Step(s, s', c, a)
    ensures i < |s.procs|
    ensures if s.procs[i].state.RUNNABLE? then Hands(s, s', c, i)
            else GoesTo(s, s', c, Leave(i)) && s'.locks == s.locks
  {
    hide Inv;
    SchedHas(s, c, i);
    hide ThreadStep;
  }

  /** Then it gives the lock back, and goes on to the next slot, or from the last to the first. */
  lemma LeaveStep(s: State, s': State, c: nat, a: Act, i: nat)
    requires Inv(s) && Scheduling(s, c, Leave(i)) && Step(s, s', c, a)
    ensures i < |s.procs| && Unlocks(s, s', c, i)
    ensures GoesTo(s, s', c, Pick(if i + 1 < |s.procs| then i + 1 else 0))
  {
    hide Inv;
    SchedHas(s, c, i);
    hide ThreadStep;
  }

  // ------------------------------------------------------------------ rounds

  /** A step that is not the scheduler's own leaves its place alone. */
  lemma PlaceKept(s: State, s': State, c: nat, a: Act, d: nat)
    requires Step(s, s', c, a) && d < |s.cpus| && !(a.Sched? && c == d)
    ensures |s'.cpus| == |s.cpus| && s'.cpus[d].pc == s.cpus[d].pc && s'.cpus[d].proc == s.cpus[d].proc
    ensures d != c ==> s'.cpus[d] == s.cpus[d]
  {
    if a.Body? {
      WorkCpus(s, c, s.cpus[c].run, a.ok);
      hide Work, Works;
    } else {
      hide Work, Works, Starts, Want, Lets, Got, Gone, NoLocks;
    }
  }

  /** Work leaves the CPUs alone, but that c may go back to its scheduler. */
  lemma WorkCpus(s: State, c: nat, p: nat, ok: bool)
    requires p < |s.procs| && c < |s.cpus| && Works(s.procs[p].pc, |s.procs|)
    ensures var s' := Work(s, c, p, ok); s'.cpus == s.cpus || s'.cpus == s.cpus[c := s.cpus[c].(run := -1)]
  {
  }

  /** At time u, the scheduler of CPU c looks at slot i, and runs the process in it if it is runnable. */
  predicate Tests(run: seq<State>, u: nat, c: nat, i: nat) {
    && u + 1 < |run| && Scheduling(run[u], c, Test(i)) && i < |run[u].procs|
    && (if run[u].procs[i].state.RUNNABLE? then Hands(run[u], run[u + 1], c, i)
        else GoesTo(run[u], run[u + 1], c, Leave(i)))
  }

  ghost function Testing(run: seq<State>, c: nat): (nat, nat) -> bool { (u: nat, i: nat) => Tests(run, u, c, i) }

  /** The scheduler of CPU d moves on, or the step is one of something else. */
  lemma SchedFlow(s: State, s': State, c: nat, a: Act, d: nat)
    requires Inv(s) && Step(s, s', c, a) && d < |s.cpus|
    ensures |s'.procs| == |s.procs| && |s'.cpus| == |s.cpus| && s.cpus[d].pc.i < |s.procs|
    ensures var (pc, pc', n) := (s.cpus[d].pc, s'.cpus[d].pc, |s.procs|);
            || pc' == pc
            || (pc.Pick? && pc' == Test(pc.i))
            || (pc.Test? && c == d && Scheduling(s, c, pc) && (pc' == SchedPc.Back(pc.i) || pc' == Leave(pc.i)))
            || (pc.Back? && pc' == Leave(pc.i))
            || (pc.Leave? && pc' == Pick(if pc.i + 1 < n then pc.i + 1 else 0))
  {
    StepEffect(s, s', c, a, s.init);
    assert CpuOk(s, d);
    hide Inv, Effect;
    if a.Sched? && c == d {
      hide ThreadStep;
    } else {
      PlaceKept(s, s', c, a, d);
      hide Step;
    }
  }

  /** A round of the scheduler that began with slot 0 at time a, at time t: the slots before its own were looked at. */
  ghost predicate Turning(run: seq<State>, a: nat, t: nat, c: nat) {
    && a <= t < |run| && c < |run[t].cpus| && |run[t].procs| == |run[a].procs|
    && var pc := run[t].cpus[c].pc;
       Looked(a, t, Testing(run, c), if pc.Pick? || pc.Test? then pc.i else pc.i + 1)
  }

  /** With the step at time u, CPU c begins a new round. */
  predicate Wraps(run: seq<State>, u: nat, c: nat) {
    && u + 1 < |run| && c < |run[u].cpus| == |run[u + 1].cpus|
    && run[u].cpus[c].pc.Leave? && run[u + 1].cpus[c].pc == Pick(0)
  }

  ghost predicate TurnDone(run: seq<State>, a: nat, u: nat, c: nat) {
    a <= u < |run| && Wraps(run, u, c) && Looked(a, u, Testing(run, c), |run[a].procs|)
  }

  lemma TurnGoesOn(run: seq<State>, a: nat, t: nat, c: nat)
    requires IsRun(run) && Turning(run, a, t, c) && t + 1 < |run|
    ensures Turning(run, a, t + 1, c) || TurnDone(run, a, t, c)
  {
    hide Inv, Step, IsRun, LookedAt;
    var d, act := StepAt(run, t);
    SchedFlow(run[t], run[t + 1], d, act, c);
    var (pc, pc') := (run[t].cpus[c].pc, run[t + 1].cpus[c].pc);
    LookedNext(a, t, Testing(run, c), if pc.Pick? || pc.Test? then pc.i else pc.i + 1);
    if pc.Test? && pc' != pc {
      TestStep(run[t], run[t + 1], d, act, pc.i);
      hide Hands, GoesTo;
      assert Tests(run, t, c, pc.i);
    }
  }

  /**
   The scheduler leaves out no slot: before it begins a new round, it has looked at every slot,
   and has run each process that was runnable when it did.
   */
  lemma {:induction false} RoundsAreFull(run: seq<State>, a: nat, t: nat, c: nat)
    requires IsRun(run) && a <= t < |run| && c < |run[a].cpus| && run[a].cpus[c].pc == Pick(0)
    requires forall u | a <= u < t - 1 :: !Wraps(run, u, c)
    ensures Turning(run, a, t, c) || (t > a && TurnDone(run, a, t - 1, c))
  {
    hide IsRun, LookedAt;
    if t > a {
      hide Turning, Looked;
      RoundsAreFull(run, a, t - 1, c);
      TurnGoesOn(run, a, t - 1, c);
    }
  }
}
