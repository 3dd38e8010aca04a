/**
 The memory life of processes over one machine: allocproc, freeproc, growproc and kfork of
 proc.c, and sys_sbrk of sysproc.c.
 */
module Processes {
  import opened Riscv
  import opened PageTable
  import opened Kalloc
  import opened Vm
  import opened Space
  import opened Uvm
  import opened FreeWalk
  import opened UserMemory
  import opened Copy
  import opened ProcTable
  import opened Proc

  // ------------------------------------------------------ gaining and releasing

  /** Slot i gained free pages and lost none; nothing else changed. */
  ghost predicate Gained(mem: Mem, own: Owners, mem': Mem, own': Owners, i: nat, pt: nat) {
    && own'.Keys == own.Keys && mem.Keys == own.Keys && mem'.Keys == own.Keys
    && (forall p | p in own :: own'[p] == own[p] || (own[p].Free? && Belongs(own', p, i, pt)))
    && (forall p | p in own && !own[p].Free? :: mem'[p] == mem[p])
  }

  lemma GainedTrans(mem: Mem, own: Owners, mem1: Mem, own1: Owners, mem2: Mem, own2: Owners, i: nat, pt: nat)
    requires PtInv(mem1, own1)
    requires Gained(mem, own, mem1, own1, i, 0) && Gained(mem1, own1, mem2, own2, i, pt)
    ensures Gained(mem, own, mem2, own2, i, pt)
    ensures forall p | p in own1 && own1[p].Free? :: p in own && own[p].Free?
  {
    NullTree(mem1, own1);
    hide PtInv;
  }

  /** No tree hangs below the null pointer. */
  lemma NullTree(mem: Mem, own: Owners)
    requires PtInv(mem, own)
    ensures forall p :: !Mine(own, p, 0)
  {
    forall p | p in own && own[p].Node? ensures own[p].root != 0 {
      assert NodeOk(mem, own, p);
    }
  }

  lemma NotNull(mem: Mem, own: Owners)
    requires PtInv(mem, own)
    ensures mem.Keys == own.Keys && 0 !in own
  {
  }

  /** A slot that had nothing and releases what it gained leaves all owners as they were. */
  lemma GainedReleased(mem: Mem, own: Owners, mem1: Mem, own1: Owners, mem2: Mem, own2: Owners, i: nat, pt: nat)
    requires Gained(mem, own, mem1, own1, i, pt) && SlotReleased(mem1, own1, mem2, own2, i, pt)
    requires forall p :: !Belongs(own, p, i, pt)
    ensures Restored(mem, own, mem2, own2)
  {
    forall p | p in own ensures own2[p] == own[p] {
      assert !Belongs(own, p, i, pt);
    }
  }

  /** An unused slot owns nothing. */
  lemma NothingYet(mem: Mem, own: Owners, procs: seq<Proc>, i: nat, pt: nat)
    requires PtInv(mem, own) && i < |procs| && procs[i] == UNUSED
    requires forall p | p in own :: Accounted(own, procs, p)
    requires pt == 0 || (pt in own && own[pt].Free?)
    ensures forall p :: !Belongs(own, p, i, pt)
  {
    if pt == 0 {
      NullTree(mem, own);
    } else {
      NotMineYet(mem, own, pt);
    }
    hide PtInv;
    forall p ensures !Belongs(own, p, i, pt) {
      if p in own {
        assert Accounted(own, procs, p);
      }
    }
  }

  lemma GainedFrame(mem: Mem, own: Owners, mem': Mem, own': Owners, i: nat, pt: nat)
    requires Gained(mem, own, mem', own', i, pt)
    ensures SlotFrame(mem, own, mem', own', i, pt)
  {
  }

  lemma ReleasedFrame(mem: Mem, own: Owners, mem': Mem, own': Owners, i: nat, pt: nat)
    requires SlotReleased(mem, own, mem', own', i, pt)
    ensures SlotFrame(mem, own, mem', own', i, pt)
    ensures forall p :: !Belongs(own', p, i, pt)
  {
  }

  // ---------------------------------------------------- the steps of allocproc

  /** Slot i becomes used, with the next pid. */
  lemma TakeSlot(mem: Mem, own: Owners, procs: seq<Proc>, i: nat, nextpid: nat, tramp: nat)
    requires ProcsInv(mem, own, procs, nextpid, tramp) && i < |procs| && !procs[i].used
    ensures ProcsInv(mem, own, procs[i := UNUSED.(used := true, pid := nextpid)], nextpid + 1, tramp)
  {
    assert SlotInv(mem, own, procs[i], i, tramp);
    hide SlotInv, PidPage;
    var procs' := procs[i := UNUSED.(used := true, pid := nextpid)];
    forall p | p in own ensures Accounted(own, procs', p) {
      assert Accounted(own, procs, p);
    }
    forall j | 0 <= j < |procs'| ensures SlotInv(mem, own, procs'[j], j, tramp) {
      if j == i {
        FreshSlot(mem, own, nextpid, i, tramp);
      } else {
        assert SlotInv(mem, own, procs[j], j, tramp);
      }
    }
  }

  lemma FreshSlot(mem: Mem, own: Owners, pid: nat, i: nat, tramp: nat)
    ensures SlotInv(mem, own, UNUSED.(used := true, pid := pid), i, tramp)
  {
  }

  /** Slot i gains its trapframe page or its usyscall page. */
  lemma GainPage(mem: Mem, own: Owners, procs: seq<Proc>, mem': Mem, own': Owners, i: nat, p': Proc, pn: nat,
                 nextpid: nat, tramp: nat)
    requires PtInv(mem, own) && 0 !in mem' && ProcsInv(mem, own, procs, nextpid, tramp)
    requires i < |procs| && procs[i].used && procs[i].pagetable == 0
    requires || (Moved(mem, own, mem', own', pn, Free, TrapPage(i)) && IsData(mem'[pn])
                 && procs[i].trapframe == 0 && p' == procs[i].(trapframe := pn))
             || (Moved(mem, own, mem', own', pn, Free, SysPage(i)) && mem'[pn] == Data(PidPage(procs[i].pid))
                 && procs[i].usyscall == 0 && p' == procs[i].(usyscall := pn))
    ensures ProcsInv(mem', own', procs[i := p'], nextpid, tramp)
    ensures Gained(mem, own, mem', own', i, 0)
  {
    NullTree(mem, own);
    FactsOf(mem, own, procs, nextpid, tramp, i);
    hide PtInv, PidPage, ProcsInv, SameVpnLookups, SlotInv, Gained, SlotFrame, PidsOk, NoneBelong;
    GainedSlot(mem, own, procs[i], mem', own', i, p', pn, tramp);
    MovedGained(mem, own, mem', own', i, pn);
    GainedFrame(mem, own, mem', own', i, 0);
    GainedPids(procs, i, p', nextpid);
    forall q | q in own' && (own'[q].Held? || Belongs(own', q, i, 0)) ensures Accounted(own', procs[i := p'], q) {
      assert Accounted(own, procs, q);
    }
    SlotChange(mem, own, procs, mem', own', i, p', 0, nextpid, nextpid, tramp);
  }

  lemma GainedSlot(mem: Mem, own: Owners, p: Proc, mem': Mem, own': Owners, i: nat, p': Proc, pn: nat, tramp: nat)
    requires SlotInv(mem, own, p, i, tramp) && p.used && p.pagetable == 0
    requires || (Moved(mem, own, mem', own', pn, Free, TrapPage(i)) && IsData(mem'[pn])
                 && p.trapframe == 0 && p' == p.(trapframe := pn))
             || (Moved(mem, own, mem', own', pn, Free, SysPage(i)) && mem'[pn] == Data(PidPage(p.pid))
                 && p.usyscall == 0 && p' == p.(usyscall := pn))
    ensures SlotInv(mem', own', p', i, tramp)
  {
    hide PidPage, SameVpnLookups;
  }

  lemma MovedGained(mem: Mem, own: Owners, mem': Mem, own': Owners, i: nat, pn: nat)
    requires Moved(mem, own, mem', own', pn, Free, TrapPage(i)) || Moved(mem, own, mem', own', pn, Free, SysPage(i))
    ensures Gained(mem, own, mem', own', i, 0)
  {
    hide SameVpnLookups;
  }

  lemma GainedPids(procs: seq<Proc>, i: nat, p': Proc, nextpid: nat)
    requires PidsOk(procs, nextpid) && i < |procs| && p'.pid == procs[i].pid && p'.used == procs[i].used
    ensures PidsOk(procs[i := p'], nextpid)
  {
  }

  /** Slot i gains its page table. */
  lemma GainTable(mem: Mem, own: Owners, procs: seq<Proc>, mem': Mem, own': Owners, i: nat, pt: nat,
                  nextpid: nat, tramp: nat)
    requires PtInv(mem, own) && PtInv(mem', own') && ProcsInv(mem, own, procs, nextpid, tramp)
    requires i < |procs| && procs[i].used && procs[i].pagetable == 0
    requires procs[i].trapframe != 0 && procs[i].usyscall != 0
    requires Built(mem, own, mem', own', pt, i) && IsRoot(own', pt)
    requires forall v: nat | v < USYS_VPN :: Lookup(mem', pt, v) == ZERO
    requires TopMapped(mem', procs[i].(pagetable := pt), tramp)
    ensures ProcsInv(mem', own', procs[i := procs[i].(pagetable := pt)], nextpid, tramp)
    ensures Gained(mem, own, mem', own', i, pt)
  {
    RootsSelf(mem', own');
    NotMineYet(mem, own, pt);
    assert 0 !in mem';
    FactsOf(mem, own, procs, nextpid, tramp, i);
    hide PtInv, PidPage, ProcsInv, SlotInv, Lookup, TopMapped, Built, Gained, PidsOk;
    var p' := procs[i].(pagetable := pt);
    TabledSlot(mem, own, mem', own', procs[i], i, pt, tramp);
    BuiltGained(mem, own, mem', own', pt, i);
    GainedFrame(mem, own, mem', own', i, pt);
    TableHeld(mem, own, procs, mem', own', i, pt);
    SamePidsWith(procs, i, pt, nextpid);
    SlotChange(mem, own, procs, mem', own', i, p', pt, nextpid, nextpid, tramp);
  }

  lemma TableHeld(mem: Mem, own: Owners, procs: seq<Proc>, mem': Mem, own': Owners, i: nat, pt: nat)
    requires Built(mem, own, mem', own', pt, i) && i < |procs| && procs[i].pagetable == 0
    requires (forall p | p in own :: Accounted(own, procs, p)) && (forall p :: !Mine(own, p, pt))
    requires forall p | p in own' && own'[p].Node? && own'[p].path.P3? :: own'[p].root == p
    ensures forall q | q in own' && (own'[q].Held? || Belongs(own', q, i, pt)) ::
              Accounted(own', procs[i := procs[i].(pagetable := pt)], q)
  {
    forall q | q in own' && (own'[q].Held? || Belongs(own', q, i, pt))
      ensures Accounted(own', procs[i := procs[i].(pagetable := pt)], q)
    {
      assert Accounted(own, procs, q);
    }
  }

  lemma SamePidsWith(procs: seq<Proc>, i: nat, pt: nat, nextpid: nat)
    requires PidsOk(procs, nextpid) && i < |procs|
    ensures PidsOk(procs[i := procs[i].(pagetable := pt)], nextpid)
  {
  }

  lemma TabledSlot(mem: Mem, own: Owners, mem': Mem, own': Owners, p: Proc, i: nat, pt: nat, tramp: nat)
    requires SlotInv(mem, own, p, i, tramp) && p.used && p.pagetable == 0 && p.trapframe != 0 && p.usyscall != 0
    requires Built(mem, own, mem', own', pt, i) && IsRoot(own', pt)
    requires forall v: nat | v < USYS_VPN :: Lookup(mem', pt, v) == ZERO
    requires TopMapped(mem', p.(pagetable := pt), tramp)
    ensures SlotInv(mem', own', p.(pagetable := pt), i, tramp)
  {
    hide PidPage, Lookup, TopMapped;
  }

  lemma BuiltGained(mem: Mem, own: Owners, mem': Mem, own': Owners, pt: nat, i: nat)
    requires Built(mem, own, mem', own', pt, i)
    ensures Gained(mem, own, mem', own', i, pt)
  {
  }

  lemma BuiltRoot(mem: Mem, own: Owners, mem': Mem, own': Owners, pt: nat, i: nat)
    requires Built(mem, own, mem', own', pt, i)
    ensures pt in own && own[pt].Free? && IsRoot(own', pt)
  {
  }

  // ----------------------------------------------------- the steps of freeproc

  /** Page pn was given back when it was not null; otherwise nothing happened. */
  ghost predicate GaveBack(mem: Mem, own: Owners, mem': Mem, own': Owners, pn: nat, o: Owner) {
    if pn != 0 then Moved(mem, own, mem', own', pn, o, Free) else mem' == mem && own' == own
  }

  /** The three steps of freeproc together release everything that slot i has. */
  lemma ReleaseSlot(mem: Mem, own: Owners, procs: seq<Proc>, mem1: Mem, own1: Owners, mem2: Mem, own2: Owners,
                    mem3: Mem, own3: Owners, i: nat, nextpid: nat, tramp: nat)
    requires PtInv(mem, own) && 0 !in mem3 && ProcsInv(mem, own, procs, nextpid, tramp) && i < |procs|
    requires GaveBack(mem, own, mem1, own1, procs[i].trapframe, TrapPage(i))
    requires GaveBack(mem1, own1, mem2, own2, procs[i].usyscall, SysPage(i))
    requires procs[i].pagetable != 0 ==> Released(mem2, own2, mem3, own3, procs[i].pagetable)
    requires procs[i].pagetable == 0 ==> mem3 == mem2 && own3 == own2
    ensures SlotReleased(mem, own, mem3, own3, i, procs[i].pagetable)
    ensures ProcsInv(mem3, own3, procs[i := UNUSED], nextpid, tramp)
  {
    FactsOf(mem, own, procs, nextpid, tramp, i);
    var pt := procs[i].pagetable;
    AllReleased(mem, own, procs, mem1, own1, mem2, own2, mem3, own3, i);
    ReleasedFrame(mem, own, mem3, own3, i, pt);
    hide PtInv, ProcsInv, SlotReleased, SlotFrame, GaveBack, Released;
    UnusedOk(mem3, own3, procs, i, nextpid, tramp);
    hide SlotInv, PidsOk;
    NoneHeld(mem, own, procs, mem3, own3, i, pt);
    SlotChange(mem, own, procs, mem3, own3, i, UNUSED, pt, nextpid, nextpid, tramp);
  }

  lemma AllReleased(mem: Mem, own: Owners, procs: seq<Proc>, mem1: Mem, own1: Owners, mem2: Mem, own2: Owners,
                    mem3: Mem, own3: Owners, i: nat)
    requires PtInv(mem, own) && i < |procs| && (forall p | p in own :: Accounted(own, procs, p))
    requires GaveBack(mem, own, mem1, own1, procs[i].trapframe, TrapPage(i))
    requires GaveBack(mem1, own1, mem2, own2, procs[i].usyscall, SysPage(i))
    requires procs[i].pagetable != 0 ==> Released(mem2, own2, mem3, own3, procs[i].pagetable)
    requires procs[i].pagetable == 0 ==> mem3 == mem2 && own3 == own2
    ensures SlotReleased(mem, own, mem3, own3, i, procs[i].pagetable)
  {
    NullTree(mem, own);
    assert mem.Keys == own.Keys && 0 !in own;
    hide PtInv, SameVpnLookups;
    forall p | p in own
      ensures if Belongs(own, p, i, procs[i].pagetable) then own3[p].Free?
              else own3[p] == own[p] && (own[p].Free? || mem3[p] == mem[p])
    {
      assert Accounted(own, procs, p);
    }
  }

  lemma UnusedOk(mem: Mem, own: Owners, procs: seq<Proc>, i: nat, nextpid: nat, tramp: nat)
    requires i < |procs| && PidsOk(procs, nextpid)
    ensures SlotInv(mem, own, UNUSED, i, tramp) && PidsOk(procs[i := UNUSED], nextpid)
  {
  }

  lemma NoneHeld(mem: Mem, own: Owners, procs: seq<Proc>, mem': Mem, own': Owners, i: nat, pt: nat)
    requires forall p | p in own :: Accounted(own, procs, p)
    requires SlotReleased(mem, own, mem', own', i, pt)
    ensures forall q | q in own' :: !own'[q].Held?
  {
    forall q | q in own' ensures !own'[q].Held? {
      assert Accounted(own, procs, q);
    }
  }

  // ------------------------------------------------------------ the user's view

  /** What a process can tell about its memory: its size, and the bytes it can reach. */
  datatype Image = Image(sz: nat, mem: UserMem)

  ghost function ImageOf(mem: Mem, p: Proc): Image {
    Image(p.sz, ViewOf(mem, p.pagetable, Pages(p.sz)))
  }

  /** Every process other than i, its slot and its memory, is as it was; i is -1 for all of them. */
  ghost predicate OthersKept(mem: Mem, procs: seq<Proc>, mem': Mem, procs': seq<Proc>, i: int) {
    && |procs'| == |procs|
    && (forall j | 0 <= j < |procs| && j != i ::
          procs'[j] == procs[j] && (procs[j].pagetable != 0 ==> ImageOf(mem', procs[j]) == ImageOf(mem, procs[j])))
  }

  /** A step within the frame of slot i is invisible to every other process. */
  lemma Isolation(mem: Mem, own: Owners, procs: seq<Proc>, mem': Mem, own': Owners, procs': seq<Proc>, i: nat,
                  pt: nat, nextpid: nat, tramp: nat)
    requires PtInv(mem, own) && 0 !in mem' && ProcsInv(mem, own, procs, nextpid, tramp) && i < |procs|
    requires SlotFrame(mem, own, mem', own', i, pt) && (IsRoot(own, pt) ==> own[pt].parent == i)
    requires |procs'| == |procs| && forall j | 0 <= j < |procs| && j != i :: procs'[j] == procs[j]
    ensures OthersKept(mem, procs, mem', procs', i)
  {
    hide PtInv, SlotInv, SlotFrame, ImageOf, PidsOk;
    forall j | 0 <= j < |procs| && j != i && procs[j].pagetable != 0
      ensures ImageOf(mem', procs[j]) == ImageOf(mem, procs[j])
    {
      assert SlotInv(mem, own, procs[j], j, tramp);
      OtherImage(mem, own, procs[j], j, mem', own', i, pt, tramp);
    }
  }

  lemma OtherImage(mem: Mem, own: Owners, q: Proc, j: nat, mem': Mem, own': Owners, i: nat, pt: nat, tramp: nat)
    requires PtInv(mem, own) && 0 !in mem' && SlotInv(mem, own, q, j, tramp) && q.pagetable != 0 && j != i
    requires SlotFrame(mem, own, mem', own', i, pt) && (IsRoot(own, pt) ==> own[pt].parent == i)
    ensures ImageOf(mem', q) == ImageOf(mem, q)
  {
    OtherLookups(mem, own, mem', own', i, pt, q.pagetable);
    hide Lookup, PtInv, PidPage, View;
    forall w: nat | w < Pages(q.sz) || w == USYS_VPN
      ensures View(mem', q.pagetable, w) == View(mem, q.pagetable, w)
    {
      OtherPage(mem, own, q, j, mem', own', i, pt, tramp, w);
    }
    ViewSame(mem, mem', q.pagetable, Pages(q.sz));
  }

  lemma OtherPage(mem: Mem, own: Owners, q: Proc, j: nat, mem': Mem, own': Owners, i: nat, pt: nat, tramp: nat, w: nat)
    requires PtInv(mem, own) && SlotInv(mem, own, q, j, tramp) && q.pagetable != 0 && j != i
    requires SlotFrame(mem, own, mem', own', i, pt) && (IsRoot(own, pt) ==> own[pt].parent == i)
    requires forall v: nat :: Lookup(mem', q.pagetable, v) == Lookup(mem, q.pagetable, v)
    requires w < Pages(q.sz) || w == USYS_VPN
    ensures View(mem', q.pagetable, w) == View(mem, q.pagetable, w)
  {
    hide Lookup, PtInv, SlotInv, SlotFrame, View;
    PageOwner(mem, own, q, j, tramp, w);
    PageKept(mem, own, mem', own', q.pagetable, j, i, pt, w);
  }

  lemma PageKept(mem: Mem, own: Owners, mem': Mem, own': Owners, root: nat, j: nat, i: nat, pt: nat, w: nat)
    requires root in own && own[root].Node? && own[root].parent == j && root != pt && j != i
    requires SlotFrame(mem, own, mem', own', i, pt)
    requires Lookup(mem', root, w) == Lookup(mem, root, w)
    requires var e := Lookup(mem, root, w);
             e.f.v ==> e.ppn in own && (own[e.ppn] == SysPage(j) || Mine(own, e.ppn, root))
    ensures View(mem', root, w) == View(mem, root, w)
  {
    hide Lookup;
  }

  /** A page that a process can reach is one of its own. */
  lemma PageOwner(mem: Mem, own: Owners, q: Proc, j: nat, tramp: nat, w: nat)
    requires PtInv(mem, own) && SlotInv(mem, own, q, j, tramp) && q.pagetable != 0
    requires w < Pages(q.sz) || w == USYS_VPN
    ensures IsRoot(own, q.pagetable) && own[q.pagetable].parent == j
    ensures var e := Lookup(mem, q.pagetable, w);
            e.f.v ==> e.ppn in own && (own[e.ppn] == SysPage(j) || Mine(own, e.ppn, q.pagetable))
  {
    if w < USYS_VPN {
      UserLeaf(mem, own, q.pagetable, w);
    }
    hide Lookup, PtInv, PidPage;
  }

  // ----------------------------------------------------------------- the kernel

  class Kernel {
    const m: Machine
    const tramp: nat          // the page of the trampoline code
    var procs: seq<Proc>
    var nextpid: nat

    /** The invariant while an allocproc is under way. */
    ghost predicate Partial()
      reads this, m
    {
      m.Valid() && ProcsInv(m.mem, m.own, procs, nextpid, tramp)
    }

    /** Between system calls, a used slot has its page table. */
    ghost predicate Valid()
      reads this, m
    {
      Partial() && forall i | 0 <= i < |procs| && procs[i].used :: procs[i].pagetable != 0
    }

    /** An empty process table over freshly booted memory. */
    constructor (end: nat, nproc: nat, tramp: nat)
      requires KERNBASE < end <= PHYSTOP
      ensures Valid() && fresh(m) && |procs| == nproc
      ensures forall i | 0 <= i < nproc :: procs[i] == UNUSED
    {
      m := new Machine(end);
      this.tramp := tramp;
      procs := seq(nproc, _ => UNUSED);
      nextpid := 1;
    }

    /** freeproc: gives back everything slot i has, and clears the slot. */
    method FreeProc(i: nat)
      requires Partial() && i < |procs|
      modifies this, m
      ensures Partial() && procs == old(procs)[i := UNUSED] && nextpid == old(nextpid)
      ensures SlotReleased(old(m.mem), old(m.own), m.mem, m.own, i, old(procs)[i].pagetable)
      ensures OthersKept(old(m.mem), old(procs), m.mem, procs, i)
    {
      hide PtInv, SlotInv, ProcsInv, Lookup, SlotReleased, Released, OthersKept;
      ghost var mem0, own0, procs0 := m.mem, m.own, procs;
      var p := procs[i];
      SlotPages(mem0, own0, procs, i, nextpid, tramp);
      if p.trapframe != 0 {
        FreeHeld(m, p.trapframe);
      }
      ghost var mem1, own1 := m.mem, m.own;
      if p.usyscall != 0 {
        FreeHeld(m, p.usyscall);
      }
      ghost var mem2, own2 := m.mem, m.own;
      if p.pagetable != 0 {
        SameTable(mem0, own0, mem1, own1, mem2, own2, p, i);
        ProcFreePagetable(m, p.pagetable, p.sz);
      }
      ReleaseSlot(mem0, own0, procs, mem1, own1, mem2, own2, m.mem, m.own, i, nextpid, tramp);
      procs := procs[i := UNUSED];
      ReleasedFrame(mem0, own0, m.mem, m.own, i, p.pagetable);
      Isolation(mem0, own0, procs0, m.mem, m.own, procs, i, p.pagetable, nextpid, tramp);
    }

    /**
     allocproc: takes the first unused slot and gives it a pid, a trapframe, a usyscall page
     and a page table. When memory runs out on the way, every page is back where it was.
     */
    method AllocProc() returns (r: int)
      requires Valid()
      modifies this, m
      ensures Valid() && OthersKept(old(m.mem), old(procs), m.mem, procs, r)
      ensures nextpid == old(nextpid) + if AllUsed(old(procs)) then 0 else 1
      ensures -1 <= r < |procs| == |old(procs)|
      ensures procs == if r == -1 then old(procs) else old(procs)[r := procs[r]]
      ensures r == -1 ==> Restored(old(m.mem), old(m.own), m.mem, m.own)
      ensures r == -1 <==> AllUsed(old(procs)) || |old(m.free)| < 5
      ensures r >= 0 ==> |m.free| == |old(m.free)| - 5
      ensures r >= 0 ==> forall w: nat :: Missing(m.mem, procs[r].pagetable, w) == FreshMissing(w)
      ensures r >= 0 ==>
                && !old(procs)[r].used && (forall j | 0 <= j < r :: old(procs)[j].used)
                && procs[r].used && procs[r].pid == old(nextpid) && procs[r].sz == 0
                && NoneBelong(old(m.own), r, procs[r].pagetable)
                && Gained(old(m.mem), old(m.own), m.mem, m.own, r, procs[r].pagetable)
    {
      hide PtInv, SlotInv, ProcsInv, OthersKept, Gained, Restored, Missing, FreshMissing;
      var i := 0;
      while i < |procs|
        invariant i <= |procs| && forall j | 0 <= j < i :: procs[j].used
      {
        if !procs[i].used {
          var ok := SetUp(i);
          return if ok then i else -1;
        }
        i := i + 1;
      }
      RestoredNothing(m.mem, m.own);
      RestoredKept(m.mem, m.own, procs, m.mem, m.own, nextpid, tramp);
      return -1;
    }

    /** allocproc from its label found on. */
    method SetUp(i: nat) returns (ok: bool)
      requires Valid() && i < |procs| && !procs[i].used
      modifies this, m
      ensures Valid() && OthersKept(old(m.mem), old(procs), m.mem, procs, if ok then i else -1)
      ensures nextpid == old(nextpid) + 1 && |procs| == |old(procs)|
      ensures procs == if ok then old(procs)[i := procs[i]] else old(procs)
      ensures !ok ==> Restored(old(m.mem), old(m.own), m.mem, m.own)
      ensures ok <==> 5 <= |old(m.free)|
      ensures ok ==> |m.free| == |old(m.free)| - 5
      ensures ok ==> forall w: nat :: Missing(m.mem, procs[i].pagetable, w) == FreshMissing(w)
      ensures ok ==>
                && procs[i].used && procs[i].pid == old(nextpid) && procs[i].sz == 0
                && NoneBelong(old(m.own), i, procs[i].pagetable)
                && Gained(old(m.mem), old(m.own), m.mem, m.own, i, procs[i].pagetable)
    {
      hide PtInv, SlotInv, ProcsInv, Lookup, Gained, Restored, OthersKept, NoneBelong, PidPage, Missing, FreshMissing;
      ghost var mem0, own0, procs0 := m.mem, m.own, procs;
      UnusedSlot(mem0, own0, procs, i, nextpid, tramp);
      TakeSlot(mem0, own0, procs, i, nextpid, tramp);
      procs := procs[i := UNUSED.(used := true, pid := nextpid)];
      nextpid := nextpid + 1;
      ok := TakeTrapframe(i);
      if !ok {
        GiveUp(i, mem0, own0, procs0, nextpid - 1);
        return;
      }
      ghost var mem1, own1 := m.mem, m.own;
      ok := TakeUsyscall(i);
      GainedTrans(mem0, own0, mem1, own1, m.mem, m.own, i, 0);
      if !ok {
        GiveUp(i, mem0, own0, procs0, nextpid - 1);
        return;
      }
      ghost var mem2, own2 := m.mem, m.own;
      ok := TakeTable(i);
      GainedTrans(mem0, own0, mem2, own2, m.mem, m.own, i, procs[i].pagetable);
      if !ok {
        GiveUp(i, mem0, own0, procs0, nextpid - 1);
        return;
      }
      Settled(mem0, own0, procs0, m.mem, m.own, procs, i, procs[i].pagetable, nextpid - 1, tramp);
    }

    /** `p->trapframe = kalloc()` */
    method TakeTrapframe(i: nat) returns (ok: bool)
      requires Partial() && i < |procs| && procs[i].used && procs[i].pagetable == 0 && procs[i].trapframe == 0
      modifies this, m
      ensures Partial() && nextpid == old(nextpid)
      ensures Gained(old(m.mem), old(m.own), m.mem, m.own, i, 0)
      ensures |procs| == |old(procs)| && procs == old(procs)[i := old(procs)[i].(trapframe := procs[i].trapframe)]
      ensures ok <==> procs[i].trapframe != 0
      ensures if ok then |m.free| == |old(m.free)| - 1 else old(m.free) == []
    {
      hide PtInv, SlotInv, ProcsInv, Lookup, Gained, PidPage;
      ghost var mem0, own0 := m.mem, m.own;
      var pn := AllocFilled(m, Fill(5), TrapPage(i));
      if pn == 0 {
        GainedNothing(mem0, own0, i);
        return false;
      }
      GainPage(mem0, own0, procs, m.mem, m.own, i, procs[i].(trapframe := pn), pn, nextpid, tramp);
      procs := procs[i := procs[i].(trapframe := pn)];
      return true;
    }

    /** `p->usyscall = kalloc()`, zeroed, with the pid in front. */
    method TakeUsyscall(i: nat) returns (ok: bool)
      requires Partial() && i < |procs| && procs[i].used && procs[i].pagetable == 0 && procs[i].usyscall == 0
      modifies this, m
      ensures Partial() && nextpid == old(nextpid)
      ensures Gained(old(m.mem), old(m.own), m.mem, m.own, i, 0)
      ensures |procs| == |old(procs)| && procs == old(procs)[i := old(procs)[i].(usyscall := procs[i].usyscall)]
      ensures ok <==> procs[i].usyscall != 0
      ensures if ok then |m.free| == |old(m.free)| - 1 else old(m.free) == []
    {
      hide PtInv, SlotInv, ProcsInv, Lookup, Gained, PidPage;
      ghost var mem0, own0 := m.mem, m.own;
      var pn := AllocFilled(m, PidPage(procs[i].pid), SysPage(i));
      if pn == 0 {
        GainedNothing(mem0, own0, i);
        return false;
      }
      GainPage(mem0, own0, procs, m.mem, m.own, i, procs[i].(usyscall := pn), pn, nextpid, tramp);
      procs := procs[i := procs[i].(usyscall := pn)];
      return true;
    }

    /** `p->pagetable = proc_pagetable(p)` */
    method TakeTable(i: nat) returns (ok: bool)
      requires Partial() && i < |procs| && procs[i].used && procs[i].pagetable == 0
      requires procs[i].trapframe != 0 && procs[i].usyscall != 0
      modifies this, m
      ensures Partial() && nextpid == old(nextpid)
      ensures |procs| == |old(procs)| && procs == old(procs)[i := old(procs)[i].(pagetable := procs[i].pagetable)]
      ensures Gained(old(m.mem), old(m.own), m.mem, m.own, i, procs[i].pagetable)
      ensures ok <==> procs[i].pagetable != 0
      ensures ok ==> procs[i].pagetable in old(m.own) && old(m.own)[procs[i].pagetable].Free?
      ensures if ok then |m.free| == |old(m.free)| - 3 else |old(m.free)| < 3
      ensures ok ==> forall w: nat :: Missing(m.mem, procs[i].pagetable, w) == FreshMissing(w)
    {
      hide PtInv, SlotInv, ProcsInv, Lookup, Gained, Restored, OthersKept, Built, Missing, FreshMissing;
      ghost var mem0, own0 := m.mem, m.own;
      var pt := ProcPagetable(m, i, tramp, procs[i].trapframe, procs[i].usyscall);
      if pt == 0 {
        RestoredKept(mem0, own0, procs, m.mem, m.own, nextpid, tramp);
        RestoredGained(mem0, own0, m.mem, m.own, i);
        return false;
      }
      TopsMapped(m.mem, procs[i].(pagetable := pt), tramp);
      BuiltRoot(mem0, own0, m.mem, m.own, pt, i);
      GainTable(mem0, own0, procs, m.mem, m.own, i, pt, nextpid, tramp);
      procs := procs[i := procs[i].(pagetable := pt)];
      return true;
    }

    /** The failure paths of allocproc. */
    method GiveUp(i: nat, ghost mem0: Mem, ghost own0: Owners, ghost procs0: seq<Proc>, ghost nextpid0: nat)
      requires Partial() && i < |procs| && procs[i].pagetable == 0
      requires PtInv(mem0, own0) && ProcsInv(mem0, own0, procs0, nextpid0, tramp)
      requires |procs| == |procs0| && procs0[i] == UNUSED && procs == procs0[i := procs[i]]
      requires Gained(mem0, own0, m.mem, m.own, i, 0)
      modifies this, m
      ensures Partial() && procs == procs0 && nextpid == old(nextpid)
      ensures Restored(mem0, own0, m.mem, m.own) && OthersKept(mem0, procs0, m.mem, procs, -1)
    {
      hide PtInv, SlotInv, ProcsInv, Gained, SlotReleased, Restored, OthersKept, NoneBelong;
      ghost var mem1, own1 := m.mem, m.own;
      FreeProc(i);
      FactsOf(mem0, own0, procs0, nextpid0, tramp, i);
      NothingYet(mem0, own0, procs0, i, 0);
      GainedReleased(mem0, own0, mem1, own1, m.mem, m.own, i, 0);
      RestoredKept(mem0, own0, procs0, m.mem, m.own, nextpid0, tramp);
    }
  }

  predicate AllUsed(procs: seq<Proc>) {
    forall j | 0 <= j < |procs| :: procs[j].used
  }

  /** No page belongs to slot i. */
  predicate NoneBelong(own: Owners, i: nat, pt: nat) {
    forall p | p in own :: !Belongs(own, p, i, pt)
  }

  lemma GainedNothing(mem: Mem, own: Owners, i: nat)
    requires mem.Keys == own.Keys
    ensures Gained(mem, own, mem, own, i, 0)
  {
  }

  lemma RestoredGained(mem: Mem, own: Owners, mem': Mem, own': Owners, i: nat)
    requires Restored(mem, own, mem', own')
    ensures Gained(mem, own, mem', own', i, 0)
  {
  }

  lemma RestoredNothing(mem: Mem, own: Owners)
    requires mem.Keys == own.Keys
    ensures Restored(mem, own, mem, own)
  {
  }

  lemma UnusedSlot(mem: Mem, own: Owners, procs: seq<Proc>, i: nat, nextpid: nat, tramp: nat)
    requires ProcsInv(mem, own, procs, nextpid, tramp) && i < |procs| && !procs[i].used
    ensures procs[i] == UNUSED
  {
    assert SlotInv(mem, own, procs[i], i, tramp);
  }

  /** When every page is back, every process is as it was. */
  lemma RestoredKept(mem: Mem, own: Owners, procs: seq<Proc>, mem': Mem, own': Owners, nextpid: nat, tramp: nat)
    requires PtInv(mem, own) && 0 !in mem' && ProcsInv(mem, own, procs, nextpid, tramp)
    requires Restored(mem, own, mem', own')
    ensures OthersKept(mem, procs, mem', procs, -1)
    ensures ProcsInv(mem', own', procs, nextpid, tramp)
  {
    NullTree(mem, own);
    hide PtInv, SlotInv, ImageOf;
    forall j | 0 <= j < |procs|
      ensures SlotInv(mem', own', procs[j], j, tramp)
      ensures procs[j].pagetable != 0 ==> ImageOf(mem', procs[j]) == ImageOf(mem, procs[j])
    {
      RestoredFrame(mem, own, mem', own', j + 1);
      OtherSlot(mem, own, mem', own', procs[j], j, j + 1, 0, tramp);
      if procs[j].pagetable != 0 {
        OtherImage(mem, own, procs[j], j, mem', own', j + 1, 0, tramp);
      }
    }
    forall p | p in own' ensures Accounted(own', procs, p) {
      assert Accounted(own, procs, p);
    }
  }

  lemma RestoredFrame(mem: Mem, own: Owners, mem': Mem, own': Owners, i: nat)
    requires Restored(mem, own, mem', own')
    ensures SlotFrame(mem, own, mem', own', i, 0)
  {
  }

  lemma TopsMapped(mem: Mem, p: Proc, tramp: nat)
    requires forall w: nat | USYS_VPN <= w < NVPN ::
               Lookup(mem, p.pagetable, w) ==
               if w == TRAMP_VPN then Pte(tramp, RX.(v := true))
               else if w == TRAP_VPN then Pte(p.trapframe, RW.(v := true))
               else Pte(p.usyscall, RU.(v := true))
    ensures TopMapped(mem, p, tramp)
  {
    hide Lookup;
  }

  /** allocproc has succeeded. */
  lemma Settled(mem: Mem, own: Owners, procs: seq<Proc>, mem': Mem, own': Owners, procs': seq<Proc>, i: nat,
                pt: nat, nextpid: nat, tramp: nat)
    requires PtInv(mem, own) && 0 !in mem' && ProcsInv(mem, own, procs, nextpid, tramp)
    requires i < |procs| && procs[i] == UNUSED && Gained(mem, own, mem', own', i, pt)
    requires pt in own && own[pt].Free?
    requires |procs'| == |procs| && procs' == procs[i := procs'[i]]
    ensures NoneBelong(own, i, pt) && OthersKept(mem, procs, mem', procs', i)
  {
    hide PtInv, SlotInv, Gained, OthersKept, PidsOk, SlotFrame;
    NothingYet(mem, own, procs, i, pt);
    GainedFrame(mem, own, mem', own', i, pt);
    Isolation(mem, own, procs, mem', own', procs', i, pt, nextpid, tramp);
  }

  /** What slot i has. */
  lemma SlotPages(mem: Mem, own: Owners, procs: seq<Proc>, i: nat, nextpid: nat, tramp: nat)
    requires ProcsInv(mem, own, procs, nextpid, tramp) && i < |procs|
    ensures var p := procs[i];
            && (p.trapframe != 0 ==> p.trapframe in own && own[p.trapframe] == TrapPage(i))
            && (p.usyscall != 0 ==> p.usyscall in own && own[p.usyscall] == SysPage(i))
            && (p.pagetable != 0 ==>
                  && IsRoot(own, p.pagetable) && own[p.pagetable].parent == i && p.sz <= USYSCALL
                  && forall v: nat | Pages(p.sz) <= v < USYS_VPN :: Lookup(mem, p.pagetable, v) == ZERO)
  {
    assert SlotInv(mem, own, procs[i], i, tramp);
    hide PidPage, Lookup;
  }

  /** Giving back the two single pages leaves the page table as it was. */
  lemma SameTable(mem: Mem, own: Owners, mem1: Mem, own1: Owners, mem2: Mem, own2: Owners, p: Proc, i: nat)
    requires IsRoot(own, p.pagetable)
    requires GaveBack(mem, own, mem1, own1, p.trapframe, TrapPage(i))
    requires GaveBack(mem1, own1, mem2, own2, p.usyscall, SysPage(i))
    ensures IsRoot(own2, p.pagetable)
    ensures forall v: nat :: Lookup(mem2, p.pagetable, v) == Lookup(mem, p.pagetable, v)
  {
    hide Lookup;
    assert IsRoot(own1, p.pagetable);
  }
}
