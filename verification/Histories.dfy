/**
 Histories of the whole system: any number of processes are made, forked, act and are freed.
 Each entry of a history's trace is in order, each step means what its event stands for, and
 from that it follows that no process notices another and that no page is ever lost.
 */
module Histories {
  import opened Riscv
  import opened PageTable
  import opened Kalloc
  import opened Space
  import opened UserMemory
  import opened Copy
  import opened ProcTable
  import opened Proc
  import opened Processes
  import opened Syscalls
  import opened Fork
  import opened Runs
  import opened Conservation

  /** What may happen to the memory of the process table. */
  datatype Event = EvAlloc | EvFork(parent: nat) | EvOp(i: nat, op: Op) | EvFree(i: nat)

  /** The state between two events; free counts the pages on the free list. */
  datatype Snapshot = Snapshot(mem: Mem, own: Owners, procs: seq<Proc>, nextpid: nat, free: nat) {
    predicate Live(i: nat) { i < |procs| && procs[i].used }
  }

  ghost function Now(k: Kernel): Snapshot
    reads k, k.m
  {
    Snapshot(k.m.mem, k.m.own, k.procs, k.nextpid, |k.m.free|)
  }

  ghost predicate WellFormed(s: Snapshot, tramp: nat) {
    && PtInv(s.mem, s.own) && s.mem.Keys == s.own.Keys && 0 !in s.own
    && ProcsInv(s.mem, s.own, s.procs, s.nextpid, tramp)
    && forall i | 0 <= i < |s.procs| && s.procs[i].used :: s.procs[i].pagetable != 0
  }

  lemma ValidInOrder(k: Kernel)
    requires k.Valid()
    ensures WellFormed(Now(k), k.tramp)
  {
    NotNull(k.m.mem, k.m.own);
    hide PtInv, ProcsInv;
  }

  /** allocproc returned r: the first unused slot, or -1 with every page back. */
  ghost predicate Allocated(s: Snapshot, s': Snapshot, r: int) {
    && -1 <= r < |s.procs| && OthersKept(s.mem, s.procs, s'.mem, s'.procs, r)
    && (r == -1 <==> AllUsed(s.procs) || s.free < 5)
    && s'.nextpid == s.nextpid + (if AllUsed(s.procs) then 0 else 1)
    && (if r == -1
        then s'.procs == s.procs && Restored(s.mem, s.own, s'.mem, s'.own)
        else && !s.procs[r].used && (forall j | 0 <= j < r :: s.procs[j].used)
             && s'.procs == s.procs[r := s'.procs[r]]
             && s'.procs[r].used && s'.procs[r].pid == s.nextpid && s'.procs[r].sz == 0
             && NoneBelong(s.own, r, s'.procs[r].pagetable)
             && Gained(s.mem, s.own, s'.mem, s'.own, r, s'.procs[r].pagetable))
  }

  /** fork by process i returned pid: that of a child with a copy of its memory, or -1 with every page back. */
  ghost predicate HasForked(s: Snapshot, i: nat, s': Snapshot, pid: int)
    requires i < |s.procs|
  {
    && s'.nextpid == s.nextpid + (if AllUsed(s.procs) then 0 else 1)
    && (pid == -1 <==> AllUsed(s.procs) || s.free < 5 + ForkNeed(s.mem, s.procs[i]))
    && (if pid == -1
        then && s'.procs == s.procs && Restored(s.mem, s.own, s'.mem, s'.own)
             && OthersKept(s.mem, s.procs, s'.mem, s'.procs, -1)
        else && pid == s.nextpid
             && exists j: nat :: Forked(s.mem, s.own, s.procs, s'.mem, s'.own, s'.procs, i, j, s.nextpid))
  }

  /** Process i did op, and learned out. */
  ghost predicate HasActed(s: Snapshot, i: nat, op: Op, s': Snapshot, out: Outcome)
    requires i < |s.procs|
  {
    && s'.nextpid == s.nextpid && Acted(s.mem, s.own, s.procs, s'.mem, s'.own, s'.procs, i)
    && Sound(ImageOf(s.mem, s.procs[i]))
    && var (image, image') := (ImageOf(s.mem, s.procs[i]), ImageOf(s'.mem, s'.procs[i]));
       && ((image', out) == Do(image, op) || (s.free < Price(s.mem, s.procs[i], op) && Short(image, op, image', out)))
       && (op.OpSbrk? && s.free < Price(s.mem, s.procs[i], op) ==> Short(image, op, image', out))
       && Retabled(s.mem, s'.mem, s.procs[i], s'.procs[i].sz, op, out)
  }

  /** The slot of process i is free again, with all its pages. */
  ghost predicate HasFreed(s: Snapshot, i: nat, s': Snapshot)
    requires i < |s.procs|
  {
    && s'.nextpid == s.nextpid && s'.procs == s.procs[i := UNUSED]
    && SlotReleased(s.mem, s.own, s'.mem, s'.own, i, s.procs[i].pagetable)
    && OthersKept(s.mem, s.procs, s'.mem, s'.procs, i)
  }

  /** What event e does, with outcome out; an event of a process that does not exist is skipped. */
  ghost predicate Means(s: Snapshot, e: Event, out: Outcome, s': Snapshot) {
    match e
    case EvAlloc => out.Returned? && Allocated(s, s', out.r)
    case EvFork(i) => if s.Live(i) then out.Returned? && HasForked(s, i, s', out.r) else s' == s && out == Nothing
    case EvOp(i, op) => if s.Live(i) then HasActed(s, i, op, s', out) else s' == s && out == Nothing
    case EvFree(i) => out == Nothing && if s.Live(i) then HasFreed(s, i, s') else s' == s
  }

  ghost predicate IsHistory(trace: seq<Snapshot>, events: seq<Event>, outs: seq<Outcome>, tramp: nat) {
    && |trace| == |events| + 1 && |outs| == |events|
    && (forall t | 0 <= t < |trace| :: WellFormed(trace[t], tramp))
    && (forall t | 0 <= t < |events| :: Means(trace[t], events[t], outs[t], trace[t + 1]))
  }

  lemma HistoryStart(s: Snapshot, tramp: nat)
    requires WellFormed(s, tramp)
    ensures IsHistory([s], [], [], tramp)
  {
    hide WellFormed;
  }

  lemma HistoryNext(trace: seq<Snapshot>, events: seq<Event>, outs: seq<Outcome>, tramp: nat, out: Outcome, s: Snapshot)
    requires |events| > 0 && IsHistory(trace, events[..|events| - 1], outs, tramp)
    requires WellFormed(s, tramp) && Means(trace[|trace| - 1], events[|events| - 1], out, s)
    ensures IsHistory(trace + [s], events, outs + [out], tramp)
  {
    hide WellFormed, Means;
    var n := |events| - 1;
    forall t | 0 <= t < |events|
      ensures Means((trace + [s])[t], events[t], (outs + [out])[t], (trace + [s])[t + 1])
    {
      if t < n {
        assert events[..n][t] == events[t];
        assert Means(trace[t], events[..n][t], outs[t], trace[t + 1]);
      }
    }
  }

  /**
   Any history on any number of processes: every state on the way is in order, every step
   does what its event means, and no precondition on the way fails, so none of the panics
   that they stand for can be reached.
   */
  method History(k: Kernel, events: seq<Event>) returns (outs: seq<Outcome>, ghost trace: seq<Snapshot>)
    requires k.Valid()
    modifies k, k.m
    ensures k.Valid() && IsHistory(trace, events, outs, k.tramp)
    ensures trace[0] == old(Now(k)) && trace[|events|] == Now(k)
  {
    hide *;
    outs, trace := [], [Now(k)];
    ValidInOrder(k);
    assert events[..0] == [];
    HistoryStart(Now(k), k.tramp);
    var t := 0;
    while t < |events|
      invariant t <= |events| && k.Valid()
      invariant IsHistory(trace, events[..t], outs, k.tramp)
      invariant |trace| == t + 1 && trace[0] == old(Now(k)) && trace[t] == Now(k)
    {
      var out := Happen(k, events[t]);
      ValidInOrder(k);
      assert events[..t + 1][..t] == events[..t];
      HistoryNext(trace, events[..t + 1], outs, k.tramp, out, Now(k));
      outs, trace, t := outs + [out], trace + [Now(k)], t + 1;
    }
    assert events[..t] == events;
  }

  /** One event. */
  method Happen(k: Kernel, e: Event) returns (out: Outcome)
    requires k.Valid()
    modifies k, k.m
    ensures k.Valid() && Means(old(Now(k)), e, out, Now(k))
  {
    hide PtInv, ProcsInv, OthersKept, Restored, NoneBelong, Gained, Forked, Acted, Sound, Do, Short, SlotReleased,
      ImageOf, AllUsed, Price, Retabled, ForkNeed, Missing, FreshMissing;
    match e {
      case EvAlloc =>
        var r := k.AllocProc();
        out := Returned(r);
      case EvFork(i) =>
        if i < |k.procs| && k.procs[i].used {
          var pid;
          ghost var j;
          pid, j := KFork(k, i);
          out := Returned(pid);
        } else {
          out := Nothing;
        }
      case EvOp(i, op) =>
        if i < |k.procs| && k.procs[i].used {
          ghost var oom;
          out, oom := DoOp(k, i, op);
        } else {
          out := Nothing;
        }
      case EvFree(i) =>
        if i < |k.procs| && k.procs[i].used {
          k.FreeProc(i);
        }
        out := Nothing;
    }
  }

  // ------------------------------------------------------------------ isolation

  /** Event e is process j's own: it acts or is freed. */
  predicate Concerns(e: Event, j: nat) {
    match e
    case EvOp(i, _) => i == j
    case EvFree(i) => i == j
    case _ => false
  }

  lemma StepIsolates(s: Snapshot, e: Event, out: Outcome, s': Snapshot, j: nat, tramp: nat)
    requires WellFormed(s, tramp) && Means(s, e, out, s') && s.Live(j) && !Concerns(e, j)
    ensures s'.Live(j) && s'.procs[j] == s.procs[j] && ImageOf(s'.mem, s'.procs[j]) == ImageOf(s.mem, s.procs[j])
  {
    hide PtInv, ProcsInv, ImageOf, Restored, Gained, NoneBelong, SlotReleased, SlotFrame, Sound, Do, Short, SameBits;
  }

  /**
   Whatever the others do, from the first state of a history to the last: a process that
   neither acts nor is freed keeps its slot, its size and its memory.
   */
  lemma {:induction false} HistoryIsolates(trace: seq<Snapshot>, events: seq<Event>, outs: seq<Outcome>,
                                           tramp: nat, j: nat)
    requires IsHistory(trace, events, outs, tramp) && trace[0].Live(j)
    requires forall t | 0 <= t < |events| :: !Concerns(events[t], j)
    ensures var (s, s') := (trace[0], trace[|events|]);
            && s'.Live(j) && s'.procs[j] == s.procs[j]
            && ImageOf(s'.mem, s'.procs[j]) == ImageOf(s.mem, s.procs[j])
  {
    hide WellFormed, Means, ImageOf, Concerns;
    if events != [] {
      var n := |events| - 1;
      HistoryIsolates(trace[..n + 1], events[..n], outs[..n], tramp, j);
      StepIsolates(trace[n], events[n], outs[n], trace[n + 1], j, tramp);
    }
  }

  // --------------------------------------------------------------- conservation

  /** The kernel's own pages stay its own. */
  ghost predicate KernSame(own: Owners, own': Owners) {
    own'.Keys == own.Keys && forall p | p in own :: own'[p].Kern? <==> own[p].Kern?
  }

  lemma StepKeepsKern(s: Snapshot, e: Event, out: Outcome, s': Snapshot)
    requires Means(s, e, out, s')
    ensures KernSame(s.own, s'.own)
  {
    hide ImageOf, OthersKept, NoneBelong, Sound, Do, Short, SameBits;
  }

  lemma {:induction false} HistoryKeepsKern(trace: seq<Snapshot>, events: seq<Event>, outs: seq<Outcome>, tramp: nat)
    requires IsHistory(trace, events, outs, tramp)
    ensures KernSame(trace[0].own, trace[|events|].own)
  {
    hide WellFormed, Means;
    if events != [] {
      var n := |events| - 1;
      HistoryKeepsKern(trace[..n + 1], events[..n], outs[..n], tramp);
      StepKeepsKern(trace[n], events[n], outs[n], trace[n + 1]);
    }
  }

  /** A page that is neither free nor the kernel's belongs to a process that runs. */
  lemma SomeoneHas(s: Snapshot, tramp: nat, p: nat)
    requires WellFormed(s, tramp) && p in s.own && !s.own[p].Free? && !s.own[p].Kern?
    ensures exists i: nat :: s.Live(i)
  {
    OneRole(s.mem, s.own, s.procs, p, s.nextpid, tramp);
    var role := OwnRole(s.own, p);
    assert RoleOf(s.own, s.procs, p, role);
    assert Accounted(s.own, s.procs, p);
    hide PtInv, Lookup;
    if !role.OnFreeList? {
      assert SlotInv(s.mem, s.own, s.procs[role.i], role.i, tramp);
      assert s.Live(role.i);
    }
  }

  /**
   No page is ever lost: whatever happened in between, and however often memory ran out,
   when no process is left every page that is not the kernel's own is free.
   */
  lemma NothingLost(trace: seq<Snapshot>, events: seq<Event>, outs: seq<Outcome>, tramp: nat, p: nat)
    requires IsHistory(trace, events, outs, tramp) && p in trace[0].own
    requires forall i: nat :: !trace[|events|].Live(i)
    ensures p in trace[|events|].own
    ensures trace[|events|].own[p].Free? <==> !trace[0].own[p].Kern?
  {
    HistoryKeepsKern(trace, events, outs, tramp);
    var s := trace[|events|];
    assert WellFormed(s, tramp);
    hide WellFormed, Means;
    if !s.own[p].Free? && !s.own[p].Kern? {
      SomeoneHas(s, tramp, p);
    }
  }
}
