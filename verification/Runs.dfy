/**
 Runs of one process: what it sees is independent of how its heap is filled, and its life
 gives back what it took.
 */
module Runs {
  import opened Riscv
  import opened PageTable
  import opened Kalloc
  import opened Vm
  import opened Space
  import opened Uvm
  import opened UserMemory
  import opened Copy
  import opened ProcTable
  import opened Proc
  import opened Processes
  import opened Syscalls
  import opened Fork

  /** What a process may do with its memory; eager is the choice of the sbrk caller. */
  datatype Op =
    | OpSbrk(n: int32, eager: bool)
    | OpWrite(va: nat, src: seq<byte>)
    | OpRead(va: nat, len: nat)
    | OpReadStr(va: nat, max: nat)
    | OpFault(va: nat)

  /** What it learns from it. */
  datatype Outcome = Returned(r: int) | Stored(ok: bool) | Loaded(bytes: seq<byte>, ok: bool) | Nothing

  ghost predicate Sound(s: Image) {
    s.mem.Valid() && s.sz <= USYSCALL && |s.mem.pages| == Pages(s.sz)
  }

  /** One operation, on sizes and bytes alone; the choice of eager plays no part. */
  ghost function Do(s: Image, op: Op): (r: (Image, Outcome))
    requires Sound(s)
    ensures Sound(r.0)
  {
    match op
    case OpSbrk(n, _) => SbrkSound(s, n); (Sbrk(s, n).0, Returned(Sbrk(s, n).1))
    case OpWrite(va, src) =>
      CopyOutSound(s, va, src);
      (s.(mem := CopyOut(s.mem, va, src).0), Stored(CopyOut(s.mem, va, src).1))
    case OpRead(va, len) => (s, Loaded(CopyIn(s.mem, va, len).0, CopyIn(s.mem, va, len).1))
    case OpReadStr(va, max) => (s, Loaded(CopyInStr(s.mem, va, max).0, CopyInStr(s.mem, va, max).1))
    case OpFault(_) => (s, Nothing)
  }

  lemma SbrkSound(s: Image, n: int32)
    requires Sound(s)
    ensures Sound(Sbrk(s, n).0)
  {
    ResizeValid(s.mem, Pages(Sbrk(s, n).0.sz));
  }

  lemma ResizeValid(s: UserMem, n: nat)
    requires s.Valid() && n <= USYS_VPN
    ensures Resize(s, n).Valid()
  {
    assert |FreshPage().bytes| == 4096;
  }

  lemma CopyOutSound(s: Image, va: nat, src: seq<byte>)
    requires Sound(s)
    ensures Sound(s.(mem := CopyOut(s.mem, va, src).0))
  {
    CopyOutMeaning(s.mem, va, src);
  }

  /** The free pages that an operation may take: a page and two tables for each page it touches. */
  function Cost(op: Op): nat {
    match op
    case OpSbrk(n, eager) => SbrkCost(n, eager)
    case OpWrite(va, src) => 3 * Rounds(va, |src|)
    case OpRead(va, len) => 3 * Rounds(va, len)
    case OpReadStr(va, max) => 3 * Rounds(va, max)
    case OpFault(_) => 3
  }

  /**
   What it may take in fact: pages that are mapped already cost nothing. For sbrk this is exact: an
   eager growth takes the new pages and the tables missing for them, unless it asks for too much.
   */
  ghost function Price(mem: Mem, p: Proc, op: Op): (n: nat)
    ensures n <= Cost(op)
  {
    match op
    case OpSbrk(n, eager) => if eager then GrowNeed(mem, p, n) else 0
    case OpWrite(va, src) => 3 * HolesOf(mem, p, va, |src|)
    case OpRead(va, len) => 3 * HolesOf(mem, p, va, len)
    case OpReadStr(va, max) => 3 * HolesOf(mem, p, va, max)
    case OpFault(va) => if Hole(mem, p.pagetable, va / 4096, Pages(p.sz)) then 3 else 0
  }

  function TotalCost(ops: seq<Op>): nat {
    if ops == [] then 0 else TotalCost(ops[..|ops| - 1]) + Cost(ops[|ops| - 1])
  }

  /** What an operation that runs out of memory does: it fails, and at most a prefix is written. */
  ghost predicate Short(s: Image, op: Op, s': Image, out: Outcome)
    requires Sound(s)
  {
    match op
    case OpSbrk(n, eager) => eager && n > 0 && s' == s && out == Returned(-1)
    case OpWrite(va, src) => s'.sz == s.sz && out == Stored(false) && WrotePrefix(s.mem, s'.mem, va, src)
    case OpRead(_, _) => s' == s && out.Loaded? && !out.ok
    case OpReadStr(_, _) => s' == s && out.Loaded? && !out.ok
    case OpFault(_) => false
  }

  /**
   What an operation does to the page table of the process: sbrk as SbrkPages says, and all
   others map the pages of the bytes that they copied, or the page of the fault.
   */
  ghost predicate Retabled(mem: Mem, mem': Mem, p: Proc, sz': nat, op: Op, out: Outcome) {
    match op
    case OpSbrk(n, eager) => out.Returned? && SbrkPages(mem, mem', p, sz', n, eager, out.r != -1)
    case OpWrite(va, src) =>
      out.Stored? && exists k: nat | k <= |src| && (out.ok <==> k == |src|) :: Copied(mem, mem', p, va, k)
    case OpRead(va, len) => out.Loaded? && (out.ok ==> |out.bytes| == len) && Copied(mem, mem', p, va, |out.bytes|)
    case OpReadStr(va, max) => out.Loaded? && Copied(mem, mem', p, va, |out.bytes|)
    case OpFault(va) =>
      || Brought(mem, mem', p.pagetable, va / 4096, 0)
      || (va < p.sz && Brought(mem, mem', p.pagetable, va / 4096, 1))
  }

  /** The pages of the len bytes from va on are mapped, and no other translation changed. */
  ghost predicate Copied(mem: Mem, mem': Mem, p: Proc, va: nat, len: nat) {
    Brought(mem, mem', p.pagetable, va / 4096, Rounds(va, len))
  }

  ghost function Run(s: Image, ops: seq<Op>): (r: (Image, seq<Outcome>))
    requires Sound(s)
    ensures Sound(r.0)
  {
    if ops == [] then (s, [])
    else
      var (s1, outs) := Run(s, ops[..|ops| - 1]);
      var (s2, out) := Do(s1, ops[|ops| - 1]);
      (s2, outs + [out])
  }

  /** The same operations, except that growth may be eager in one and lazy in the other. */
  predicate Alike(ops: seq<Op>, ops': seq<Op>) {
    && |ops| == |ops'|
    && forall j | 0 <= j < |ops| ::
         ops[j] == ops'[j] || (ops[j].OpSbrk? && ops'[j].OpSbrk? && ops[j].n == ops'[j].n)
  }

  lemma {:induction false} AlikeRuns(s: Image, ops: seq<Op>, ops': seq<Op>)
    requires Sound(s) && Alike(ops, ops')
    ensures Run(s, ops) == Run(s, ops')
  {
    if ops != [] {
      AlikeRuns(s, ops[..|ops| - 1], ops'[..|ops'| - 1]);
    }
  }

  lemma ImageSound(mem: Mem, own: Owners, procs: seq<Proc>, i: nat, nextpid: nat, tramp: nat)
    requires PtInv(mem, own) && ProcsInv(mem, own, procs, nextpid, tramp)
    requires i < |procs| && procs[i].pagetable != 0
    ensures Sound(ImageOf(mem, procs[i]))
  {
    hide PtInv, ProcsInv, Lookup, UserOk, ViewOf;
    Running(mem, own, procs, i, nextpid, tramp);
    ViewValid(mem, own, procs[i].pagetable, procs[i].sz);
    UserOkFacts(mem, own, procs[i].pagetable, procs[i].sz);
  }

  /** One operation of process i, by the kernel. */
  method DoOp(k: Kernel, i: nat, op: Op) returns (out: Outcome, ghost oom: bool)
    requires k.Valid() && i < |k.procs| && k.procs[i].used
    modifies k, k.m
    ensures k.Valid() && k.nextpid == old(k.nextpid) && |k.procs| == |old(k.procs)| && k.procs[i].used
    ensures Acted(old(k.m.mem), old(k.m.own), old(k.procs), k.m.mem, k.m.own, k.procs, i)
    ensures Sound(old(ImageOf(k.m.mem, k.procs[i])))
    ensures !oom ==> (ImageOf(k.m.mem, k.procs[i]), out) == Do(old(ImageOf(k.m.mem, k.procs[i])), op)
    ensures oom ==> Short(old(ImageOf(k.m.mem, k.procs[i])), op, ImageOf(k.m.mem, k.procs[i]), out)
    ensures oom ==> |old(k.m.free)| < Price(old(k.m.mem), old(k.procs)[i], op)
    ensures op.OpSbrk? && |old(k.m.free)| < Price(old(k.m.mem), old(k.procs)[i], op) ==> oom
    ensures Retabled(old(k.m.mem), k.m.mem, old(k.procs)[i], k.procs[i].sz, op, out)
    ensures |old(k.m.free)| <= |k.m.free| + Price(old(k.m.mem), old(k.procs)[i], op)
  {
    hide PtInv, SlotInv, ProcsInv, Lookup, UserOk, ViewOf, Acted, Sound, Resize, CopyOut, CopyIn, CopyInStr, Rounds,
      Remaps, UserStep, HolesOf, Hole, Missing, Brought, SbrkPages, GrowNeed;
    ghost var mem0, own0, procs0, s := k.m.mem, k.m.own, k.procs, ImageOf(k.m.mem, k.procs[i]);
    ImageSound(k.m.mem, k.m.own, k.procs, i, k.nextpid, k.tramp);
    ImageSize(k.m.mem, k.procs[i]);
    match op {
      case OpSbrk(n, eager) =>
        var r;
        r, oom := SysSbrk(k, i, n, eager);
        out := Returned(r);
      case OpWrite(va, src) =>
        var ok;
        ghost var cnt;
        ok, cnt, oom := Write(k, i, va, src);
        out := Stored(ok);
        assert Copied(mem0, k.m.mem, procs0[i], va, cnt);
      case OpRead(va, len) =>
        var bytes, ok;
        bytes, ok, oom := Read(k, i, va, len);
        out := Loaded(bytes, ok);
      case OpReadStr(va, max) =>
        var bytes, ok;
        bytes, ok, oom := ReadStr(k, i, va, max);
        out := Loaded(bytes, ok);
      case OpFault(va) =>
        var _ := Fault(k, i, va);
        out, oom := Nothing, false;
    }
    ActedSlot(mem0, own0, procs0, k.m.mem, k.m.own, k.procs, i);
  }

  /**
   A run of process i. Its outcomes and the memory that it sees are those of Run, which knows
   nothing of pages, faults and eager allocation, whenever the free pages cover the cost of
   the run.
   */
  method RunOps(k: Kernel, i: nat, ops: seq<Op>) returns (outs: seq<Outcome>, ghost oom: bool)
    requires k.Valid() && i < |k.procs| && k.procs[i].used
    modifies k, k.m
    ensures k.Valid() && k.nextpid == old(k.nextpid) && |k.procs| == |old(k.procs)| && |outs| == |ops|
    ensures Acted(old(k.m.mem), old(k.m.own), old(k.procs), k.m.mem, k.m.own, k.procs, i)
    ensures Sound(old(ImageOf(k.m.mem, k.procs[i])))
    ensures !oom ==> (ImageOf(k.m.mem, k.procs[i]), outs) == Run(old(ImageOf(k.m.mem, k.procs[i])), ops)
    ensures TotalCost(ops) <= |old(k.m.free)| ==> !oom
    ensures |old(k.m.free)| <= |k.m.free| + TotalCost(ops)
  {
    hide PtInv, SlotInv, ProcsInv, Lookup, UserOk, ViewOf, Acted, Sound, Do, Short, Cost, Price;
    ghost var mem0, own0, procs0, s := k.m.mem, k.m.own, k.procs, ImageOf(k.m.mem, k.procs[i]);
    ImageSound(mem0, own0, procs0, i, k.nextpid, k.tramp);
    ActedNothing(mem0, own0, procs0, i);
    outs, oom := [], false;
    var t := 0;
    while t < |ops|
      invariant t <= |ops| && |outs| == t
      invariant k.Valid() && k.nextpid == old(k.nextpid) && |k.procs| == |procs0| && k.procs[i].used
      invariant Acted(mem0, own0, procs0, k.m.mem, k.m.own, k.procs, i)
      invariant !oom ==> (ImageOf(k.m.mem, k.procs[i]), outs) == Run(s, ops[..t])
      invariant oom ==> |old(k.m.free)| < TotalCost(ops[..t])
      invariant |old(k.m.free)| <= |k.m.free| + TotalCost(ops[..t])
    {
      ghost var mem1, own1, procs1 := k.m.mem, k.m.own, k.procs;
      var out;
      ghost var short;
      out, short := DoOp(k, i, ops[t]);
      ActedTrans(mem0, own0, procs0, mem1, own1, procs1, k.m.mem, k.m.own, k.procs, i);
      assert ops[..t + 1][..t] == ops[..t];
      outs, oom, t := outs + [out], oom || short, t + 1;
    }
    assert ops[..t] == ops;
  }

  /**
   The lazy heap looks like the eager one: two processes, on two machines, with the same
   size and memory, that do the same things except for when their heaps are filled, learn
   the same and end up with the same size and memory, namely those of Run.
   */
  method LazyIsEager(k: Kernel, i: nat, ops: seq<Op>, k': Kernel, i': nat, ops': seq<Op>)
    returns (outs: seq<Outcome>, outs': seq<Outcome>, ghost oom: bool)
    requires k.Valid() && i < |k.procs| && k.procs[i].used
    requires k'.Valid() && i' < |k'.procs| && k'.procs[i'].used
    requires k != k' && k.m != k'.m
    requires Alike(ops, ops') && ImageOf(k.m.mem, k.procs[i]) == ImageOf(k'.m.mem, k'.procs[i'])
    modifies k, k.m, k', k'.m
    ensures k.Valid() && i < |k.procs| && k'.Valid() && i' < |k'.procs|
    ensures Acted(old(k.m.mem), old(k.m.own), old(k.procs), k.m.mem, k.m.own, k.procs, i)
    ensures Acted(old(k'.m.mem), old(k'.m.own), old(k'.procs), k'.m.mem, k'.m.own, k'.procs, i')
    ensures Sound(old(ImageOf(k.m.mem, k.procs[i])))
    ensures !oom ==>
              && (ImageOf(k.m.mem, k.procs[i]), outs) == Run(old(ImageOf(k.m.mem, k.procs[i])), ops)
              && (ImageOf(k'.m.mem, k'.procs[i']), outs') == Run(old(ImageOf(k'.m.mem, k'.procs[i'])), ops')
              && outs == outs' && ImageOf(k.m.mem, k.procs[i]) == ImageOf(k'.m.mem, k'.procs[i'])
    ensures |outs| == |outs'| == |ops|
    ensures TotalCost(ops) <= |old(k.m.free)| && TotalCost(ops') <= |old(k'.m.free)| ==> !oom
  {
    hide PtInv, ProcsInv, Lookup, ViewOf, Acted, Sound, Run, Alike, ImageOf, TotalCost;
    ghost var oom1, oom2;
    ghost var s := ImageOf(k.m.mem, k.procs[i]);
    outs, oom1 := RunOps(k, i, ops);
    outs', oom2 := RunOps(k', i', ops');
    oom := oom1 || oom2;
    SameLength(ops, ops');
    AlikeRuns(s, ops, ops');
  }

  lemma SameLength(ops: seq<Op>, ops': seq<Op>)
    requires Alike(ops, ops')
    ensures |ops| == |ops'|
  {
  }

  /**
   A process from allocproc to freeproc, with any run in between: every page that it took
   is free again, and every other process is as it was.
   */
  method Lifetime(k: Kernel, ops: seq<Op>) returns (r: int, outs: seq<Outcome>, ghost oom: bool)
    requires k.Valid()
    modifies k, k.m
    ensures k.Valid() && k.procs == old(k.procs)
    ensures Restored(old(k.m.mem), old(k.m.own), k.m.mem, k.m.own)
    ensures OthersKept(old(k.m.mem), old(k.procs), k.m.mem, k.procs, -1)
    ensures -1 <= r < |k.procs|
    // no slot, or no memory for the process
    ensures r == -1 <==> AllUsed(k.procs) || |old(k.m.free)| < 5
    ensures r == -1 ==> outs == []
    ensures r >= 0 ==> !k.procs[r].used && (forall j | 0 <= j < r :: k.procs[j].used) && |outs| == |ops|
    ensures r >= 0 && !oom ==>
              var s := Image(0, UserMem([], UserPage(true, false, PidPage(old(k.nextpid)))));
              Sound(s) && outs == Run(s, ops).1
    ensures 5 + TotalCost(ops) <= |old(k.m.free)| ==> !oom
  {
    hide PtInv, SlotInv, ProcsInv, Lookup, Acted, Sound, Run, ImageOf, OthersKept, Gained, SlotFrame, Restored,
      NoneBelong, SlotReleased, PidPage, TotalCost, Missing, FreshMissing;
    ghost var mem0, own0, procs0, nextpid0 := k.m.mem, k.m.own, k.procs, k.nextpid;
    outs, oom := [], false;
    var c := k.AllocProc();
    r := c;
    if c < 0 {
      return;
    }
    ghost var mem1, own1, procs1 := k.m.mem, k.m.own, k.procs;
    SharedPage(mem1, own1, procs1, c, k.nextpid, k.tramp);
    EmptyImage(mem1, procs1[c]);
    outs, oom := RunOps(k, c, ops);
    ActedSlot(mem1, own1, procs1, k.m.mem, k.m.own, k.procs, c);
    ghost var mem2, own2, procs2 := k.m.mem, k.m.own, k.procs;
    k.FreeProc(c);
    LifeConserves(mem0, own0, mem1, own1, mem2, own2, k.m.mem, k.m.own, c, procs1[c].pagetable);
    UnusedSlot(mem0, own0, procs0, c, nextpid0, k.tramp);
    assert k.procs == procs0;
    RestoredKept(mem0, own0, procs0, k.m.mem, k.m.own, nextpid0, k.tramp);
  }

  lemma EmptyImage(mem: Mem, p: Proc)
    requires p.sz == 0
    ensures ImageOf(mem, p) == Image(0, UserMem([], ImageOf(mem, p).mem.shared))
  {
  }

  // ------------------------------------------------------------- the shared page

  /**
   In every reachable state, whatever was written, copied or forked, a program that reads
   the int at USYSCALL gets what getpid returns; the rest of the page is zero.
   */
  lemma UgetpidIsGetpid(k: Kernel, i: nat)
    requires k.Valid() && i < |k.procs| && k.procs[i].used
    ensures Sound(ImageOf(k.m.mem, k.procs[i]))
    ensures var s := ImageOf(k.m.mem, k.procs[i]).mem;
            && CopyIn(s, USYSCALL, 4) == (IntBytes(k.procs[i].pid), true)
            && ReadInt(IntBytes(k.procs[i].pid)) == GetPid(k.procs[i].pid)
            && (forall a | USYSCALL + 4 <= a < USYSCALL + 4096 :: s.CanRead(a) && s.Byte(a) == 0)
  {
    hide PtInv, ProcsInv, SlotInv, Lookup, ImageOf, PidPage, IntBytes, ReadInt;
    ImageSound(k.m.mem, k.m.own, k.procs, i, k.nextpid, k.tramp);
    SharedPage(k.m.mem, k.m.own, k.procs, i, k.nextpid, k.tramp);
    PidReadBack(k.procs[i].pid);
    PidBytes(k.procs[i].pid);
    SharedReads(ImageOf(k.m.mem, k.procs[i]).mem, k.procs[i].pid);
  }

  lemma PidBytes(pid: nat)
    ensures PidPage(pid)[..4] == IntBytes(pid)
    ensures forall a | 4 <= a < 4096 :: PidPage(pid)[a] == 0
    ensures ReadInt(PidPage(pid)) == ReadInt(IntBytes(pid))
  {
  }

  lemma SharedReads(s: UserMem, pid: nat)
    requires s.Valid() && s.shared == UserPage(true, false, PidPage(pid))
    requires PidPage(pid)[..4] == IntBytes(pid) && forall a | 4 <= a < 4096 :: PidPage(pid)[a] == 0
    ensures CopyIn(s, USYSCALL, 4) == (IntBytes(pid), true)
    ensures forall a | USYSCALL + 4 <= a < USYSCALL + 4096 :: s.CanRead(a) && s.Byte(a) == 0
  {
    hide PidPage, IntBytes;
    CopyInMeaning(s, USYSCALL, 4);
    InPage(USYSCALL, 4096);
    assert USYSCALL / 4096 == USYS_VPN;
    var (bytes, ok) := CopyIn(s, USYSCALL, 4);
    forall j | 0 <= j < 4 && j < |bytes| ensures bytes[j] == IntBytes(pid)[j] {
      assert s.Byte(USYSCALL + j) == bytes[USYSCALL + j - USYSCALL];
      assert PidPage(pid)[j] == PidPage(pid)[..4][j];
    }
    assert forall a | USYSCALL <= a < USYSCALL + 4 :: s.CanRead(a);
    assert bytes == IntBytes(pid);
  }
}
