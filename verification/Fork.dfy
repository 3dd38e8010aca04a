/**
 kfork of proc.c: the child's memory, and where every page comes from and goes to.
 */
module Fork {
  import opened Riscv
  import opened PageTable
  import opened Kalloc
  import opened Vm
  import opened Space
  import opened Need
  import opened Uvm
  import opened FreeWalk
  import opened UserMemory
  import opened Copy
  import opened ProcTable
  import opened Proc
  import opened Processes
  import opened Syscalls

  // ------------------------------------------------------------- conservation

  lemma SlotFrameTrans(mem: Mem, own: Owners, mem1: Mem, own1: Owners, mem2: Mem, own2: Owners, i: nat, pt: nat)
    requires SlotFrame(mem, own, mem1, own1, i, pt) && SlotFrame(mem1, own1, mem2, own2, i, pt)
    ensures SlotFrame(mem, own, mem2, own2, i, pt)
  {
  }

  /**
   The life of a process: it starts with nothing and gains pages in allocproc, it acts in any
   way within its frame, and freeproc releases it. Then every page has its owner back, and
   what was not free has its contents.
   */
  lemma LifeConserves(mem: Mem, own: Owners, mem1: Mem, own1: Owners, mem2: Mem, own2: Owners,
                      mem3: Mem, own3: Owners, i: nat, pt: nat)
    requires NoneBelong(own, i, pt) && Gained(mem, own, mem1, own1, i, pt)
    requires SlotFrame(mem1, own1, mem2, own2, i, pt)
    requires SlotReleased(mem2, own2, mem3, own3, i, pt)
    ensures Restored(mem, own, mem3, own3)
  {
    forall p | p in own
      ensures own3[p] == own[p] && (own[p].Free? || mem3[p] == mem[p])
    {
      assert !Belongs(own, p, i, pt);
    }
  }

  // ---------------------------------------------------------------- the child

  lemma ForkPages(mem: Mem, own: Owners, mem': Mem, own': Owners, parent: nat, child: nat, n: nat)
    requires PtInv(mem, own) && PtInv(mem', own') && IsRoot(own, child) && IsRoot(own', child) && IsRoot(own, parent)
    requires n <= USYS_VPN && forall v: nat | v < n :: !Lookup(mem, child, v).f.v
    requires Grown(mem, own, mem', own', child, 0, n) && Copied(mem, parent, mem', child, n)
    ensures ViewOf(mem', child, n).pages == ViewOf(mem, parent, n).pages
    ensures forall w: nat | w < n :: Lookup(mem', child, w).f == Lookup(mem, parent, w).f
  {
    hide PtInv, Lookup, Grown, Copied, View;
    forall w: nat | w < n
      ensures View(mem', child, w) == View(mem, parent, w)
      ensures Lookup(mem', child, w).f == Lookup(mem, parent, w).f
    {
      CopyView(mem, own, mem', own', parent, child, n, w);
    }
  }

  /** The shared page of a process holds its pid, may be read, and may not be written. */
  lemma SharedPage(mem: Mem, own: Owners, procs: seq<Proc>, i: nat, nextpid: nat, tramp: nat)
    requires ProcsInv(mem, own, procs, nextpid, tramp) && i < |procs| && procs[i].pagetable != 0
    ensures ImageOf(mem, procs[i]).mem.shared == UserPage(true, false, PidPage(procs[i].pid))
    ensures ImageOf(mem, procs[i]).sz == procs[i].sz
  {
    assert SlotInv(mem, own, procs[i], i, tramp);
    hide Lookup, PidPage;
  }

  /** Writing to the trapframe page of slot j changes nothing else. */
  lemma TrapWrite(mem: Mem, own: Owners, procs: seq<Proc>, j: nat, bytes: seq<byte>, nextpid: nat, tramp: nat)
    requires PtInv(mem, own) && ProcsInv(mem, own, procs, nextpid, tramp)
    requires j < |procs| && procs[j].pagetable != 0 && |bytes| == 4096
    ensures var mem' := mem[procs[j].trapframe := Data(bytes)];
            && procs[j].trapframe in own && own[procs[j].trapframe] == TrapPage(j)
            && PtInv(mem', own) && ProcsInv(mem', own, procs, nextpid, tramp)
            && SlotFrame(mem, own, mem', own, j, procs[j].pagetable)
            && SameVpnLookups(mem, own, mem')
  {
    hide PtInv, NodeOk, Lookup, PidPage, ProcsInv, PidsOk;
    FactsOf(mem, own, procs, nextpid, tramp, j);
    var tf := procs[j].trapframe;
    var mem' := mem[tf := Data(bytes)];
    Retype(mem, own, tf, Data(bytes), TrapPage(j));
    SameLeaves(mem, own, mem');
    assert own[tf := TrapPage(j)] == own;
    NotNull(mem, own);
    TrapSlot(mem, own, mem', procs[j], j, tramp);
    assert procs[j := procs[j]] == procs;
    SlotChange(mem, own, procs, mem', own, j, procs[j], procs[j].pagetable, nextpid, nextpid, tramp);
  }

  lemma TrapSlot(mem: Mem, own: Owners, mem': Mem, p: Proc, j: nat, tramp: nat)
    requires SlotInv(mem, own, p, j, tramp) && p.pagetable != 0
    requires SameVpnLookups(mem, own, mem') && mem'.Keys == mem.Keys
    requires forall q | q in mem && q != p.trapframe :: mem'[q] == mem[q]
    requires IsData(mem'[p.trapframe])
    ensures SlotInv(mem', own, p, j, tramp)
  {
    hide Lookup, PidPage;
  }

  lemma TrapImage(mem: Mem, own: Owners, mem': Mem, p: Proc, j: nat, tramp: nat)
    requires PtInv(mem, own) && SlotInv(mem, own, p, j, tramp) && p.pagetable != 0
    requires SameVpnLookups(mem, own, mem') && mem'.Keys == mem.Keys
    requires forall q | q in mem && q != p.trapframe :: mem'[q] == mem[q]
    ensures ImageOf(mem', p) == ImageOf(mem, p)
    ensures SameLookupsUnder(mem, mem', p.pagetable)
  {
    hide PtInv, Lookup, PidPage, View, TopMapped;
    SameUnder(mem, own, mem', p.pagetable);
    forall w: nat | w < Pages(p.sz) || w == USYS_VPN
      ensures View(mem', p.pagetable, w) == View(mem, p.pagetable, w)
    {
      PageOwner(mem, own, p, j, tramp, w);
      NotTrapframe(mem, mem', own, p, j, w);
    }
    ViewSame(mem, mem', p.pagetable, Pages(p.sz));
  }

  lemma NotTrapframe(mem: Mem, mem': Mem, own: Owners, p: Proc, j: nat, w: nat)
    requires p.trapframe in own && own[p.trapframe] == TrapPage(j)
    requires mem'.Keys == mem.Keys && forall q | q in mem && q != p.trapframe :: mem'[q] == mem[q]
    requires Lookup(mem', p.pagetable, w) == Lookup(mem, p.pagetable, w)
    requires var e := Lookup(mem, p.pagetable, w);
             e.f.v ==> e.ppn in own && (own[e.ppn] == SysPage(j) || Mine(own, e.ppn, p.pagetable))
    ensures View(mem', p.pagetable, w) == View(mem, p.pagetable, w)
  {
    hide Lookup;
  }

  /** A failed uvmcopy left at most tables in the child's tree. */
  lemma CopyFailed(mem: Mem, own: Owners, procs: seq<Proc>, mem': Mem, own': Owners, j: nat, nextpid: nat, tramp: nat)
    requires PtInv(mem, own) && 0 !in mem' && ProcsInv(mem, own, procs, nextpid, tramp)
    requires j < |procs| && procs[j].pagetable != 0 && procs[j].sz == 0
    requires Grown(mem, own, mem', own', procs[j].pagetable, 0, 0)
    ensures ProcsInv(mem', own', procs, nextpid, tramp)
    ensures SlotFrame(mem, own, mem', own', j, procs[j].pagetable)
  {
    hide PtInv, ProcsInv, Lookup, UserOk, Grown, SizeStep, SlotFrame, OthersKept, ViewOf;
    Running(mem, own, procs, j, nextpid, tramp);
    GrownSize(mem, own, mem', own', procs[j].pagetable, 0, 0, 0);
    assert procs[j := procs[j].(sz := 0)] == procs;
    Resized(mem, own, procs, mem', own', j, 0, nextpid, tramp);
  }

  /** After a successful uvmcopy, with the child's size set. */
  lemma CopySucceeded(mem: Mem, own: Owners, procs: seq<Proc>, mem': Mem, own': Owners, i: nat, j: nat,
                      nextpid: nat, tramp: nat)
    requires PtInv(mem, own) && PtInv(mem', own') && 0 !in mem' && ProcsInv(mem, own, procs, nextpid, tramp)
    requires i < |procs| && j < |procs| && i != j && procs[i].pagetable != 0
    requires procs[j].pagetable != 0 && procs[j].sz == 0
    requires Grown(mem, own, mem', own', procs[j].pagetable, 0, Pages(procs[i].sz)) && IsRoot(own', procs[j].pagetable)
    requires Copied(mem, procs[i].pagetable, mem', procs[j].pagetable, Pages(procs[i].sz))
    ensures var procs' := procs[j := procs[j].(sz := procs[i].sz)];
            && ProcsInv(mem', own', procs', nextpid, tramp)
            && SlotFrame(mem, own, mem', own', j, procs[j].pagetable)
            && OthersKept(mem, procs, mem', procs', j)
            && ImageOf(mem', procs'[j]).mem.pages == ImageOf(mem, procs[i]).mem.pages
    ensures SameBits(mem, procs[i].pagetable, mem', procs[j].pagetable, Pages(procs[i].sz))
  {
    hide PtInv, ProcsInv, Lookup, UserOk, Grown, Copied, SizeStep, SlotFrame, OthersKept, ViewOf;
    Running(mem, own, procs, i, nextpid, tramp);
    Running(mem, own, procs, j, nextpid, tramp);
    GrownSize(mem, own, mem', own', procs[j].pagetable, 0, 0, Pages(procs[i].sz));
    Resized(mem, own, procs, mem', own', j, procs[i].sz, nextpid, tramp);
    ForkPages(mem, own, mem', own', procs[i].pagetable, procs[j].pagetable, Pages(procs[i].sz));
  }

  /** The first n pages of both processes have the same PTE bits; in particular the same are mapped. */
  ghost predicate SameBits(mem: Mem, parent: nat, mem': Mem, child: nat, n: nat) {
    forall w: nat | w < n :: Lookup(mem', child, w).f == Lookup(mem, parent, w).f
  }

  /** The trapframe of a child: its parent's, with a0 set to zero; the rest of the page stays. */
  function ForkFrame(parent: seq<byte>, page: seq<byte>): (r: seq<byte>)
    requires |parent| == 4096 && |page| == 4096
    ensures |r| == 4096
  {
    Splice(Splice(page, 0, parent[..288]), 112, [0, 0, 0, 0, 0, 0, 0, 0])
  }

  /** The outcome of a successful fork by process i: slot j is its child. */
  ghost predicate Forked(mem: Mem, own: Owners, procs: seq<Proc>, mem': Mem, own': Owners, procs': seq<Proc>,
                         i: nat, j: nat, pid: nat) {
    && i < |procs'| == |procs| && j < |procs|
    && !procs[j].used && procs'[j].used && procs'[j].pagetable != 0 && procs'[j].pid == pid
    // the child's pages were free before, and no other process notices the fork
    && NoneBelong(own, j, procs'[j].pagetable)
    && SlotFrame(mem, own, mem', own', j, procs'[j].pagetable)
    && OthersKept(mem, procs, mem', procs', j)
    // the child has the parent's size and memory, and its own pid in the shared page
    && ImageOf(mem', procs'[j]) ==
       Image(procs[i].sz, UserMem(ImageOf(mem, procs[i]).mem.pages, UserPage(true, false, PidPage(pid))))
    && SameBits(mem, procs[i].pagetable, mem', procs'[j].pagetable, Pages(procs[i].sz))
    // the child returns 0 from fork with all other registers of the parent
    && (forall b | 0 <= b < 288 ::
          BytesAt(mem', procs'[j].trapframe, b) ==
          if 112 <= b < 120 then 0 else BytesAt(mem, procs[i].trapframe, b))
  }

  function BytesAt(mem: Mem, p: nat, b: nat): byte {
    if b < |BytesOf(mem, p)| then BytesOf(mem, p)[b] else 0
  }

  /** The free pages that copying the memory of p into a new process takes. */
  ghost function ForkNeed(mem: Mem, p: Proc): nat {
    MapNeed(MappedIn(mem, p.pagetable), FreshMissing, Pages(p.sz))
  }

  /** That does not change while the new process is set up. */
  lemma SameNeed(mem: Mem, mem1: Mem, p: Proc, child: nat)
    requires SameLookupsUnder(mem, mem1, p.pagetable)
    requires forall w: nat :: Missing(mem1, child, w) == FreshMissing(w)
    ensures MapNeed(MappedIn(mem1, p.pagetable), MissingIn(mem1, child), Pages(p.sz)) == ForkNeed(mem, p)
  {
    hide Lookup, Missing, FreshMissing;
    MapNeedSame(MappedIn(mem, p.pagetable), MappedIn(mem1, p.pagetable), FreshMissing, MissingIn(mem1, child),
                Pages(p.sz));
  }

  /** kfork, called by process i, up to the point where the child gets its parent and may run. */
  method KFork(k: Kernel, i: nat) returns (pid: int, ghost j: int)
    requires k.Valid() && i < |k.procs| && k.procs[i].used
    modifies k, k.m
    ensures k.Valid() && |k.procs| == |old(k.procs)|
    ensures k.nextpid == old(k.nextpid) + if AllUsed(old(k.procs)) then 0 else 1
    ensures pid == -1 <==> AllUsed(old(k.procs)) || |old(k.m.free)| < 5 + ForkNeed(old(k.m.mem), old(k.procs)[i])
    ensures pid == -1 ==>
              && Restored(old(k.m.mem), old(k.m.own), k.m.mem, k.m.own)
              && k.procs == old(k.procs)
              && OthersKept(old(k.m.mem), old(k.procs), k.m.mem, k.procs, -1)
    ensures pid != -1 ==>
              && pid == old(k.nextpid) && j >= 0
              && Forked(old(k.m.mem), old(k.m.own), old(k.procs), k.m.mem, k.m.own, k.procs, i, j, pid)
  {
    hide PtInv, SlotInv, ProcsInv, Lookup, OthersKept, Gained, SlotFrame, NoneBelong, Restored, Forked, Grown, Copied,
      MapNeed, MakesTable, Missing, FreshMissing;
    ghost var mem0, own0, procs0, nextpid0 := k.m.mem, k.m.own, k.procs, k.nextpid;
    var c := k.AllocProc();
    j := c;
    if c == -1 {
      return -1, j;
    }
    ghost var mem1, own1, procs1 := k.m.mem, k.m.own, k.procs;
    TwoTables(mem1, own1, procs1, i, c, k.nextpid, k.tramp);
    ghost var pt := k.procs[c].pagetable;
    GainedFrame(mem0, own0, mem1, own1, c, pt);
    FreshTable(mem0, own0, c, pt);
    ParentSame(mem0, own0, procs0, mem1, own1, i, c, pt, nextpid0, k.tramp);
    SameNeed(mem0, mem1, procs0[i], pt);
    var np := k.procs[c];
    var r := UvmCopy(k.m, k.procs[i].pagetable, np.pagetable, k.procs[i].sz);
    if r < 0 {
      UndoFork(k, c, mem0, own0, procs0, nextpid0, mem1, own1);
      return -1, j;
    }
    CopySucceeded(mem1, own1, procs1, k.m.mem, k.m.own, i, c, k.nextpid, k.tramp);
    k.procs := k.procs[c := np.(sz := k.procs[i].sz)];
    ghost var mem2, own2, procs2 := k.m.mem, k.m.own, k.procs;
    CopyTrapframe(k, i, c);
    SlotFrameTrans(mem0, own0, mem1, own1, mem2, own2, c, pt);
    ParentSame(mem0, own0, procs0, mem2, own2, i, c, pt, nextpid0, k.tramp);
    SlotFrameTrans(mem0, own0, mem2, own2, k.m.mem, k.m.own, c, pt);
    BitsTrans(mem0, mem1, mem2, k.m.mem, procs0[i].pagetable, pt, Pages(procs0[i].sz));
    ForkDone(mem0, own0, procs0, mem1, own1, procs1, mem2, own2, procs2, k.m.mem, k.m.own, i, c,
             k.nextpid, k.tramp);
    return np.pid, j;
  }

  lemma FreshTable(mem: Mem, own: Owners, c: nat, pt: nat)
    requires NoneBelong(own, c, pt)
    ensures !IsRoot(own, pt)
  {
    if pt in own {
      assert !Belongs(own, pt, c, pt);
    }
  }

  /** What uvmcopy may rely on: two different trees, the child's without user pages. */
  lemma TwoTables(mem: Mem, own: Owners, procs: seq<Proc>, i: nat, c: nat, nextpid: nat, tramp: nat)
    requires ProcsInv(mem, own, procs, nextpid, tramp) && i < |procs| && c < |procs| && i != c
    requires procs[i].pagetable != 0 && procs[c].pagetable != 0 && procs[c].sz == 0
    ensures IsRoot(own, procs[i].pagetable) && IsRoot(own, procs[c].pagetable)
    ensures procs[i].pagetable != procs[c].pagetable && procs[i].sz <= USYSCALL
    ensures forall v: nat | v < Pages(procs[i].sz) :: !Lookup(mem, procs[c].pagetable, v).f.v
  {
    assert SlotInv(mem, own, procs[i], i, tramp) && SlotInv(mem, own, procs[c], c, tramp);
    hide Lookup, PidPage;
  }

  /** The failure path of kfork: freeproc gives back all that allocproc and uvmcopy took. */
  method UndoFork(k: Kernel, c: nat, ghost mem0: Mem, ghost own0: Owners, ghost procs0: seq<Proc>,
                  ghost nextpid0: nat, ghost mem1: Mem, ghost own1: Owners)
    requires k.m.Valid() && PtInv(mem0, own0) && ProcsInv(mem0, own0, procs0, nextpid0, k.tramp)
    requires PtInv(mem1, own1) && ProcsInv(mem1, own1, k.procs, k.nextpid, k.tramp)
    requires c < |k.procs| == |procs0| && !procs0[c].used && k.procs == procs0[c := k.procs[c]]
    requires k.procs[c].pagetable != 0 && k.procs[c].sz == 0
    requires forall p | 0 <= p < |procs0| && procs0[p].used :: procs0[p].pagetable != 0
    requires NoneBelong(own0, c, k.procs[c].pagetable) && Gained(mem0, own0, mem1, own1, c, k.procs[c].pagetable)
    requires Grown(mem1, own1, k.m.mem, k.m.own, k.procs[c].pagetable, 0, 0)
    modifies k, k.m
    ensures k.Valid() && k.procs == procs0 && k.nextpid == old(k.nextpid)
    ensures Restored(mem0, own0, k.m.mem, k.m.own) && OthersKept(mem0, procs0, k.m.mem, procs0, -1)
  {
    hide PtInv, SlotInv, ProcsInv, Lookup, OthersKept, Gained, SlotFrame, SlotReleased, NoneBelong, Restored, Grown;
    ghost var mem2, own2, pt := k.m.mem, k.m.own, k.procs[c].pagetable;
    CopyFailed(mem1, own1, k.procs, mem2, own2, c, k.nextpid, k.tramp);
    UnusedSlot(mem0, own0, procs0, c, nextpid0, k.tramp);
    k.FreeProc(c);
    LifeConserves(mem0, own0, mem1, own1, mem2, own2, k.m.mem, k.m.own, c, pt);
    RestoredKept(mem0, own0, procs0, k.m.mem, k.m.own, nextpid0, k.tramp);
  }

  /** `*(np->trapframe) = *(p->trapframe)` and `np->trapframe->a0 = 0` */
  method CopyTrapframe(k: Kernel, i: nat, c: nat)
    requires k.Valid() && i < |k.procs| && c < |k.procs| && i != c
    requires k.procs[i].used && k.procs[c].used
    modifies k.m
    ensures k.Valid() && k.m.own == old(k.m.own)
    ensures SlotFrame(old(k.m.mem), old(k.m.own), k.m.mem, k.m.own, c, k.procs[c].pagetable)
    ensures OthersKept(old(k.m.mem), k.procs, k.m.mem, k.procs, c)
    ensures ImageOf(k.m.mem, k.procs[c]) == old(ImageOf(k.m.mem, k.procs[c]))
    ensures SameLookupsUnder(old(k.m.mem), k.m.mem, k.procs[c].pagetable)
    ensures TrapCopied(old(k.m.mem), k.procs[i].trapframe, k.m.mem, k.procs[c].trapframe)
  {
    hide PtInv, SlotInv, ProcsInv, Lookup, OthersKept, SlotFrame, ImageOf, SameVpnLookups;
    ghost var mem0 := k.m.mem;
    var from, to := k.procs[i].trapframe, k.procs[c].trapframe;
    TrapData(k.m.mem, k.m.own, k.procs, i, k.nextpid, k.tramp);
    TrapData(k.m.mem, k.m.own, k.procs, c, k.nextpid, k.tramp);
    var bytes := ForkFrame(k.m.mem[from].bytes, k.m.mem[to].bytes);
    TrapWrite(k.m.mem, k.m.own, k.procs, c, bytes, k.nextpid, k.tramp);
    TrapOther(k.m.mem, k.m.own, k.procs, c, k.m.mem[to := Data(bytes)], k.nextpid, k.tramp);
    FreeKept(k.m.end, k.m.mem, k.m.freelist, k.m.free, k.m.own, k.m.mem[to := Data(bytes)], k.m.own);
    k.m.mem := k.m.mem[to := Data(bytes)];
  }

  ghost predicate TrapCopied(mem: Mem, from: nat, mem': Mem, to: nat) {
    forall b | 0 <= b < 288 :: BytesAt(mem', to, b) == if 112 <= b < 120 then 0 else BytesAt(mem, from, b)
  }

  lemma TrapData(mem: Mem, own: Owners, procs: seq<Proc>, i: nat, nextpid: nat, tramp: nat)
    requires ProcsInv(mem, own, procs, nextpid, tramp) && i < |procs| && procs[i].pagetable != 0
    ensures procs[i].trapframe in mem && IsData(mem[procs[i].trapframe])
    ensures procs[i].trapframe in own && own[procs[i].trapframe] == TrapPage(i)
    ensures SlotInv(mem, own, procs[i], i, tramp)
    ensures IsRoot(own, procs[i].pagetable) && own[procs[i].pagetable].parent == i
  {
    assert SlotInv(mem, own, procs[i], i, tramp);
    hide Lookup, PidPage;
  }

  lemma TrapOther(mem: Mem, own: Owners, procs: seq<Proc>, c: nat, mem': Mem, nextpid: nat, tramp: nat)
    requires PtInv(mem, own) && PtInv(mem', own) && ProcsInv(mem, own, procs, nextpid, tramp)
    requires c < |procs| && procs[c].pagetable != 0
    requires SlotFrame(mem, own, mem', own, c, procs[c].pagetable) && SameVpnLookups(mem, own, mem')
    requires forall q | q in mem && q != procs[c].trapframe :: q in mem' && mem'[q] == mem[q]
    ensures OthersKept(mem, procs, mem', procs, c)
    ensures ImageOf(mem', procs[c]) == ImageOf(mem, procs[c])
    ensures SameLookupsUnder(mem, mem', procs[c].pagetable)
  {
    NotNull(mem, own);
    NotNull(mem', own);
    hide PtInv, SlotInv, ProcsInv, OthersKept, SlotFrame, ImageOf, SameVpnLookups, SameLookupsUnder;
    TrapData(mem, own, procs, c, nextpid, tramp);
    TrapImage(mem, own, mem', procs[c], c, tramp);
    Isolation(mem, own, procs, mem', own, procs, c, procs[c].pagetable, nextpid, tramp);
  }

  /** The parent, while only the child's slot acts. */
  lemma ParentSame(mem: Mem, own: Owners, procs: seq<Proc>, mem': Mem, own': Owners, i: nat, c: nat, pt: nat,
                   nextpid: nat, tramp: nat)
    requires PtInv(mem, own) && 0 !in mem' && ProcsInv(mem, own, procs, nextpid, tramp)
    requires i < |procs| && i != c && procs[i].pagetable != 0
    requires SlotFrame(mem, own, mem', own', c, pt) && (IsRoot(own, pt) ==> own[pt].parent == c)
    ensures SameLookupsUnder(mem, mem', procs[i].pagetable)
    ensures SameBytes(mem, mem', procs[i].trapframe)
  {
    hide PtInv, SlotInv, ProcsInv, Lookup;
    TrapData(mem, own, procs, i, nextpid, tramp);
    OtherLookups(mem, own, mem', own', c, pt, procs[i].pagetable);
  }

  predicate SameBytes(mem: Mem, mem': Mem, p: nat) {
    BytesOf(mem', p) == BytesOf(mem, p)
  }

  lemma BitsTrans(mem: Mem, mem1: Mem, mem2: Mem, mem3: Mem, parent: nat, child: nat, n: nat)
    requires SameLookupsUnder(mem, mem1, parent) && SameLookupsUnder(mem2, mem3, child)
    requires SameBits(mem1, parent, mem2, child, n)
    ensures SameBits(mem, parent, mem3, child, n)
  {
    hide Lookup;
  }

  lemma OthersTrans(mem: Mem, procs: seq<Proc>, mem1: Mem, procs1: seq<Proc>, mem2: Mem, procs2: seq<Proc>, i: int)
    requires OthersKept(mem, procs, mem1, procs1, i) && OthersKept(mem1, procs1, mem2, procs2, i)
    ensures OthersKept(mem, procs, mem2, procs2, i)
  {
    hide ImageOf;
  }

  lemma OtherKept(mem: Mem, procs: seq<Proc>, mem': Mem, procs': seq<Proc>, i: int, j: nat)
    requires OthersKept(mem, procs, mem', procs', i) && j < |procs| && j != i && procs[j].pagetable != 0
    ensures procs'[j] == procs[j] && ImageOf(mem', procs'[j]) == ImageOf(mem, procs[j])
  {
    hide ImageOf;
  }

  /** An image is its size, its private pages and the shared page. */
  lemma ImageParts(mem: Mem, p: Proc, s: Image, shared: UserPage)
    requires p.sz == s.sz && ImageOf(mem, p).mem.pages == s.mem.pages && ImageOf(mem, p).mem.shared == shared
    ensures ImageOf(mem, p) == Image(s.sz, UserMem(s.mem.pages, shared))
  {
    hide ViewOf;
  }

  /** The steps of a successful kfork together. */
  lemma ForkDone(mem: Mem, own: Owners, procs: seq<Proc>, mem1: Mem, own1: Owners, procs1: seq<Proc>,
                 mem2: Mem, own2: Owners, procs2: seq<Proc>, mem3: Mem, own3: Owners, i: nat, c: nat,
                 nextpid: nat, tramp: nat)
    requires i < |procs| && c < |procs| && i != c && !procs[c].used && |procs1| == |procs|
    requires procs1 == procs[c := procs1[c]] && procs[i].pagetable != 0
    requires procs1[c].used && procs1[c].pagetable != 0
    requires procs2 == procs1[c := procs1[c].(sz := procs1[i].sz)]
    requires NoneBelong(own, c, procs1[c].pagetable) && SlotFrame(mem, own, mem3, own3, c, procs1[c].pagetable)
    requires OthersKept(mem, procs, mem1, procs1, c) && OthersKept(mem1, procs1, mem2, procs2, c)
    requires OthersKept(mem2, procs2, mem3, procs2, c)
    requires ProcsInv(mem3, own3, procs2, nextpid, tramp)
    requires ImageOf(mem2, procs2[c]).mem.pages == ImageOf(mem1, procs1[i]).mem.pages
    requires ImageOf(mem3, procs2[c]) == ImageOf(mem2, procs2[c])
    requires SameBits(mem, procs[i].pagetable, mem3, procs1[c].pagetable, Pages(procs[i].sz))
    requires TrapCopied(mem2, procs[i].trapframe, mem3, procs1[c].trapframe)
    requires SameBytes(mem, mem2, procs[i].trapframe)
    ensures Forked(mem, own, procs, mem3, own3, procs2, i, c, procs1[c].pid)
  {
    hide ProcsInv, SlotFrame, NoneBelong, PidPage, ImageOf, SameBits, OthersKept;
    OtherKept(mem, procs, mem1, procs1, c, i);
    OthersTrans(mem, procs, mem1, procs1, mem2, procs2, c);
    OthersTrans(mem, procs, mem2, procs2, mem3, procs2, c);
    SharedPage(mem3, own3, procs2, c, nextpid, tramp);
    ImageSize(mem, procs[i]);
    ImageParts(mem3, procs2[c], ImageOf(mem, procs[i]), UserPage(true, false, PidPage(procs1[c].pid)));
  }
}
