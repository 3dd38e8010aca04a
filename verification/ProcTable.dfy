/**
 The page tables of processes: proc_pagetable and proc_freepagetable of proc.c.
 */
module ProcTable {
  import opened Riscv
  import opened PageTable
  import opened Kalloc
  import opened Vm
  import opened Space
  import opened Uvm
  import opened FreeWalk

  /** A new tree under pt, made of free pages; all other pages are as they were. */
  ghost predicate Built(mem: Mem, own: Owners, mem': Mem, own': Owners, pt: nat, i: nat) {
    && own'.Keys == own.Keys && mem.Keys == own.Keys && mem'.Keys == own.Keys
    && pt in own && own[pt].Free? && own'[pt] == Node(pt, P3, i)
    && (forall p | p in own :: own'[p] == own[p] || (own[p].Free? && Mine(own', p, pt)))
    && (forall p | p in own && !own[p].Free? :: mem'[p] == mem[p])
  }

  /** Every page has its owner back, and every page that was not free its contents. */
  ghost predicate Restored(mem: Mem, own: Owners, mem': Mem, own': Owners) {
    && own' == own && mem.Keys == own.Keys && mem'.Keys == own.Keys
    && (forall p | p in own && !own[p].Free? :: mem'[p] == mem[p])
  }

  lemma BuiltMore(mem: Mem, own: Owners, mem1: Mem, own1: Owners, mem2: Mem, own2: Owners, pt: nat, i: nat)
    requires PtInv(mem, own) && Built(mem, own, mem1, own1, pt, i) && Grew(mem1, own1, mem2, own2, pt, {})
    ensures Built(mem, own, mem2, own2, pt, i)
  {
    NotMineYet(mem, own, pt);
    hide PtInv;
  }

  lemma BuiltUndone(mem: Mem, own: Owners, mem1: Mem, own1: Owners, mem2: Mem, own2: Owners, pt: nat, i: nat)
    requires PtInv(mem, own) && Built(mem, own, mem1, own1, pt, i) && Released(mem1, own1, mem2, own2, pt)
    ensures Restored(mem, own, mem2, own2)
  {
    NotMineYet(mem, own, pt);
    forall p | p in own ensures own2[p] == own[p] {
    }
  }

  lemma NotMineYet(mem: Mem, own: Owners, pt: nat)
    requires PtInv(mem, own) && pt in own && own[pt].Free?
    ensures forall p :: !Mine(own, p, pt)
  {
    forall p | p in own && own[p].Node? ensures own[p].root != pt {
      assert NodeOk(mem, own, p);
    }
  }

  /** Page v of the tree is mapped to p with the bits perm, and no other lookup of it changed. */
  ghost predicate TopStep(mem: Mem, mem': Mem, pt: nat, v: nat, e: Pte) {
    forall w: nat :: Lookup(mem', pt, w) == if w == v then e else Lookup(mem, pt, w)
  }

  /** The tables on the way to page v are there now. */
  ghost predicate TablesStep(mem: Mem, mem': Mem, pt: nat, v: nat) {
    forall w: nat :: Missing(mem', pt, w) == LeftMissing(Missing(mem, pt, w), v, w)
  }

  /** The tables that are missing are those of a tree in which only the top pages can be reached. */
  ghost predicate FreshTables(mem: Mem, pt: nat) {
    forall w: nat :: Missing(mem, pt, w) == FreshMissing(w)
  }

  lemma FirstTables(mem: Mem, mem': Mem, pt: nat)
    requires TablesStep(mem, mem', pt, TRAMP_VPN) && forall w: nat :: Missing(mem, pt, w) == 2
    ensures FreshTables(mem', pt)
  {
    FreshIs();
    hide Missing, LeftMissing, FreshMissing;
  }

  lemma TablesFor(mem: Mem, pt: nat, v: nat)
    requires FreshTables(mem, pt)
    ensures Missing(mem, pt, v) == FreshMissing(v)
  {
    hide Missing, FreshMissing;
  }

  /** The other two top pages need no tables of their own. */
  lemma MoreTables(mem: Mem, mem': Mem, pt: nat, v: nat)
    requires FreshTables(mem, pt) && TablesStep(mem, mem', pt, v) && (v == TRAP_VPN || v == USYS_VPN)
    ensures FreshTables(mem', pt)
  {
    TopsShare();
    hide Missing, LeftMissing, FreshMissing;
  }

  /** Maps one of the three top pages. */
  method MapTop(m: Machine, pt: nat, va: nat, pn: nat, perm: Flags) returns (ok: bool)
    requires m.Valid() && IsRoot(m.own, pt) && perm.r
    requires USYSCALL <= va < MAXVA && va % 4096 == 0 && !Lookup(m.mem, pt, va / 4096).f.v
    modifies m
    ensures m.Valid() && IsRoot(m.own, pt)
    ensures Grew(old(m.mem), old(m.own), m.mem, m.own, pt, {})
    ensures ok ==> TopStep(old(m.mem), m.mem, pt, va / 4096, Pte(pn, perm.(v := true)))
    ensures !ok ==> SameLookupsUnder(old(m.mem), m.mem, pt)
    ensures ok ==>
              && |m.free| == |old(m.free)| - Missing(old(m.mem), pt, va / 4096)
              && TablesStep(old(m.mem), m.mem, pt, va / 4096)
    ensures !ok ==> |old(m.free)| < Missing(old(m.mem), pt, va / 4096)
  {
    hide PtInv, Lookup, Missing, LeftMissing, GainedTable, GainedFor;
    ghost var mem0, own0, v := m.mem, m.own, va / 4096;
    var r, k := MapPages(m, pt, va, 4096, pn, perm);
    TopMapDone(mem0, own0, m.mem, m.own, pt, v, k, pn, perm);
    ok := r == 0;
    if ok {
      TopTables(mem0, own0, m.mem, m.own, pt, v);
    }
  }

  lemma TopTables(mem: Mem, own: Owners, mem': Mem, own': Owners, pt: nat, v: nat)
    requires PtInv(mem, own) && PtInv(mem', own') && IsRoot(own, pt) && IsRoot(own', pt)
    requires Grew(mem, own, mem', own', pt, {}) && GainedFor(own, own', pt, v) && Lookup(mem', pt, v).f.v
    ensures TablesStep(mem, mem', pt, v)
  {
    assert OnlyFreeChange(own, own');
    MappedThere(mem', own', pt, v);
    hide PtInv, Lookup, Missing, LeftMissing, GainedFor, Grew, OnlyFreeChange;
    forall w: nat ensures Missing(mem', pt, w) == LeftMissing(Missing(mem, pt, w), v, w) {
      MissingAfter(mem, own, mem', own', pt, v, w);
    }
  }

  lemma TopMapDone(mem: Mem, own: Owners, mem': Mem, own': Owners, pt: nat, v: nat, k: nat, pn: nat, perm: Flags)
    requires MapDone(mem, own, mem', own', pt, v, k, 1, pn, perm) && k <= 1 && USYS_VPN <= v && IsRoot(own, pt)
    ensures Grew(mem, own, mem', own', pt, {})
    ensures k == 1 ==> TopStep(mem, mem', pt, v, Pte(pn, perm.(v := true)))
    ensures k == 0 ==> SameLookupsUnder(mem, mem', pt)
  {
    hide Lookup;
    assert Span(own, pn, v, k) == {};
  }

  /**
   proc_pagetable: a page table with the trampoline, the trapframe and the shared page, and
   no user memory. It takes three pages, and fails exactly when there are fewer; then it gives
   back every page that it took.
   */
  method ProcPagetable(m: Machine, ghost i: nat, tramp: nat, trapframe: nat, usyscall: nat) returns (pt: nat)
    requires m.Valid()
    modifies m
    ensures m.Valid()
    ensures pt == 0 ==> Restored(old(m.mem), old(m.own), m.mem, m.own)
    ensures pt == 0 <==> |old(m.free)| < 3
    ensures pt != 0 ==> |m.free| == |old(m.free)| - 3 && FreshTables(m.mem, pt)
    ensures pt != 0 ==>
              && Built(old(m.mem), old(m.own), m.mem, m.own, pt, i)
              && TopsAre(m.mem, pt, 3, tramp, trapframe, usyscall)
  {
    hide PtInv, FreeOk, Built, Restored, Missing, LeftMissing, TopsAre, FreshTables;
    assert FreshMissing(TRAP_VPN) == 0 && FreshMissing(USYS_VPN) == 0 by {
      TopsShare();
    }
    hide FreshMissing;
    pt := BuildTable(m, i, tramp, trapframe, usyscall);
  }

  /** The same, without the knowledge that the three top pages share their tables. */
  method BuildTable(m: Machine, ghost i: nat, tramp: nat, trapframe: nat, usyscall: nat) returns (pt: nat)
    requires m.Valid()
    modifies m
    ensures m.Valid()
    ensures pt == 0 ==> Restored(old(m.mem), old(m.own), m.mem, m.own)
    ensures var (trap, usys) := (FreshMissing(TRAP_VPN), FreshMissing(USYS_VPN));
            && (pt == 0 ==> |old(m.free)| < 3 || trap > 0 || usys > 0)
            && (pt != 0 ==> |m.free| + 3 + trap + usys == |old(m.free)|)
    ensures pt != 0 ==> FreshTables(m.mem, pt)
    ensures pt != 0 ==>
              && Built(old(m.mem), old(m.own), m.mem, m.own, pt, i)
              && TopsAre(m.mem, pt, 3, tramp, trapframe, usyscall)
  {
    hide PtInv, Lookup, Grew, Built, Released, Unmapped, Missing, TopStep, TopsAre, SameLookupsUnder, GainedTable,
      TablesStep, FreshTables, FreshMissing, OnlyTops;
    ghost var mem0, own0 := m.mem, m.own;
    assert mem0.Keys == own0.Keys;
    hide FreeOk;
    pt := UvmCreate(m, i);
    if pt == 0 {
      return 0;
    }
    hide Restored, IsRoot;
    BuiltStart(mem0, own0, m.mem, m.own, pt, i);
    TopsNone(m.mem, pt, tramp, trapframe, usyscall);
    ghost var mem1, own1 := m.mem, m.own;
    var ok := MapTop(m, pt, TRAMPOLINE, tramp, RX);
    BuiltMore(mem0, own0, mem1, own1, m.mem, m.own, pt, i);
    if !ok {
      TopsSame(mem1, m.mem, pt, 0, tramp, trapframe, usyscall);
      ghost var mem2, own2 := m.mem, m.own;
      UvmFree(m, pt, 0);
      BuiltUndone(mem0, own0, mem2, own2, m.mem, m.own, pt, i);
      return 0;
    }
    TopsNext(mem1, m.mem, pt, 0, tramp, trapframe, usyscall);
    FirstTables(mem1, m.mem, pt);
    pt := MapRest(m, pt, tramp, trapframe, usyscall, mem0, own0, i);
  }

  /** The second half of proc_pagetable: maps the trapframe and the shared page, or gives everything back. */
  method MapRest(m: Machine, root: nat, tramp: nat, trapframe: nat, usyscall: nat,
                 ghost mem0: Mem, ghost own0: Owners, ghost i: nat) returns (pt: nat)
    requires m.Valid() && PtInv(mem0, own0) && Built(mem0, own0, m.mem, m.own, root, i)
    requires IsRoot(m.own, root) && root != 0
    requires TopsAre(m.mem, root, 1, tramp, trapframe, usyscall) && FreshTables(m.mem, root)
    requires !Lookup(m.mem, root, TRAP_VPN).f.v
    modifies m
    ensures m.Valid() && (pt == 0 || pt == root)
    ensures pt == 0 ==> Restored(mem0, own0, m.mem, m.own)
    ensures var (trap, usys) := (FreshMissing(TRAP_VPN), FreshMissing(USYS_VPN));
            && (pt == 0 ==> trap > 0 || usys > 0)
            && (pt != 0 ==> |m.free| + trap + usys == |old(m.free)|)
    ensures pt != 0 ==> FreshTables(m.mem, pt)
    ensures pt != 0 ==>
              && Built(mem0, own0, m.mem, m.own, pt, i)
              && TopsAre(m.mem, pt, 3, tramp, trapframe, usyscall)
  {
    hide PtInv, Lookup, Grew, Built, Restored, Released, Unmapped, Missing, TopStep, TopsAre, SameLookupsUnder,
      GainedTable, TablesStep, FreshTables, FreshMissing, OnlyTops, FreeOk;
    pt := root;
    TablesFor(m.mem, pt, TRAP_VPN);
    ghost var mem2, own2 := m.mem, m.own;
    var ok := MapTop(m, pt, TRAPFRAME, trapframe, RW);
    BuiltMore(mem0, own0, mem2, own2, m.mem, m.own, pt, i);
    if !ok {
      TopsSame(mem2, m.mem, pt, 1, tramp, trapframe, usyscall);
      UndoTable(m, pt, 1, mem0, own0, i);
      return 0;
    }
    TopsNext(mem2, m.mem, pt, 1, tramp, trapframe, usyscall);
    MoreTables(mem2, m.mem, pt, TRAP_VPN);
    TablesFor(m.mem, pt, USYS_VPN);
    ghost var mem3, own3 := m.mem, m.own;
    ok := MapTop(m, pt, USYSCALL, usyscall, RU);
    BuiltMore(mem0, own0, mem3, own3, m.mem, m.own, pt, i);
    if !ok {
      TopsSame(mem3, m.mem, pt, 2, tramp, trapframe, usyscall);
      UndoTable(m, pt, 2, mem0, own0, i);
      return 0;
    }
    TopsNext(mem3, m.mem, pt, 2, tramp, trapframe, usyscall);
    MoreTables(mem3, m.mem, pt, USYS_VPN);
  }

  /** The first n of the three top pages are mapped, and nothing else. */
  ghost predicate TopsAre(mem: Mem, pt: nat, n: nat, tramp: nat, trapframe: nat, usyscall: nat) {
    forall w: nat :: Lookup(mem, pt, w) ==
                     if w == TRAMP_VPN && n > 0 then Pte(tramp, RX.(v := true))
                     else if w == TRAP_VPN && n > 1 then Pte(trapframe, RW.(v := true))
                     else if w == USYS_VPN && n > 2 then Pte(usyscall, RU.(v := true))
                     else ZERO
  }

  lemma TopsNone(mem: Mem, pt: nat, tramp: nat, trapframe: nat, usyscall: nat)
    requires forall w: nat :: Lookup(mem, pt, w) == ZERO
    ensures TopsAre(mem, pt, 0, tramp, trapframe, usyscall) && !Lookup(mem, pt, TRAMP_VPN).f.v
  {
    hide Lookup;
  }

  /** One more of them has been mapped. */
  lemma TopsNext(mem: Mem, mem': Mem, pt: nat, n: nat, tramp: nat, trapframe: nat, usyscall: nat)
    requires TopsAre(mem, pt, n, tramp, trapframe, usyscall) && n < 3
    requires TopStep(mem, mem', pt, if n == 0 then TRAMP_VPN else if n == 1 then TRAP_VPN else USYS_VPN,
                     if n == 0 then Pte(tramp, RX.(v := true))
                     else if n == 1 then Pte(trapframe, RW.(v := true)) else Pte(usyscall, RU.(v := true)))
    ensures TopsAre(mem', pt, n + 1, tramp, trapframe, usyscall)
    ensures n == 0 ==> !Lookup(mem', pt, TRAP_VPN).f.v
    ensures n == 1 ==> !Lookup(mem', pt, USYS_VPN).f.v
  {
    hide Lookup;
  }

  /** The next one could not be mapped. */
  lemma TopsSame(mem: Mem, mem': Mem, pt: nat, n: nat, tramp: nat, trapframe: nat, usyscall: nat)
    requires TopsAre(mem, pt, n, tramp, trapframe, usyscall) && SameLookupsUnder(mem, mem', pt) && n < 3
    ensures n > 0 ==> OnlyTops(mem', pt, n)
    ensures n == 0 ==> forall w: nat :: Lookup(mem', pt, w) == ZERO
  {
    hide Lookup;
  }

  /** At most the first n top pages are mapped. */
  ghost predicate OnlyTops(mem: Mem, pt: nat, n: nat) {
    forall w: nat | w != TRAMP_VPN && (n == 2 ==> w != TRAP_VPN) :: Lookup(mem, pt, w) == ZERO
  }

  lemma BuiltStart(mem: Mem, own: Owners, mem': Mem, own': Owners, pt: nat, i: nat)
    requires Moved(mem, own, mem', own', pt, Free, Node(pt, P3, i))
    ensures Built(mem, own, mem', own', pt, i) && IsRoot(own', pt)
  {
  }

  /** The failure paths of proc_pagetable: unmaps the top pages mapped so far and frees the tree. */
  method UndoTable(m: Machine, pt: nat, mapped: nat, ghost mem0: Mem, ghost own0: Owners, ghost i: nat)
    requires m.Valid() && PtInv(mem0, own0) && Built(mem0, own0, m.mem, m.own, pt, i) && IsRoot(m.own, pt)
    requires 1 <= mapped <= 2 && OnlyTops(m.mem, pt, mapped)
    modifies m
    ensures m.Valid() && Restored(mem0, own0, m.mem, m.own)
  {
    hide PtInv, Lookup, Built, Released, Unmapped;
    ghost var mem1, own1 := m.mem, m.own;
    if mapped == 2 {
      UvmUnmap(m, pt, TRAPFRAME, 1, false);
      UnmappedLookups(mem1, own1, m.mem, m.own, pt, TRAP_VPN, TRAP_VPN + 1);
    } else {
      UnmapNothing(mem1, own1, pt, TRAP_VPN);
    }
    ghost var mem2, own2 := m.mem, m.own;
    UvmUnmap(m, pt, TRAMPOLINE, 1, false);
    UnmappedLookups(mem2, own2, m.mem, m.own, pt, TRAMP_VPN, TRAMP_VPN + 1);
    ghost var mem3, own3 := m.mem, m.own;
    UvmFree(m, pt, 0);
    ReleasedAfter(mem2, own2, mem3, own3, m.mem, m.own, pt, TRAMP_VPN, TRAMP_VPN + 1);
    ReleasedAfter(mem1, own1, mem2, own2, m.mem, m.own, pt, TRAP_VPN, TRAP_VPN + mapped - 1);
    BuiltUndone(mem0, own0, mem1, own1, m.mem, m.own, pt, i);
  }

  lemma ReleasedAfter(mem: Mem, own: Owners, mem1: Mem, own1: Owners, mem2: Mem, own2: Owners,
                      root: nat, lo: nat, hi: nat)
    requires Unmapped(mem, own, mem1, own1, root, lo, hi) && Released(mem1, own1, mem2, own2, root)
    ensures Released(mem, own, mem2, own2, root)
  {
    hide Lookup;
  }

  /** proc_freepagetable: unmaps the three top pages and frees everything else of the tree. */
  method ProcFreePagetable(m: Machine, pt: nat, sz: nat)
    requires m.Valid() && IsRoot(m.own, pt) && sz <= USYSCALL
    requires forall v: nat | Pages(sz) <= v < USYS_VPN :: Lookup(m.mem, pt, v) == ZERO
    modifies m
    ensures m.Valid()
    ensures Released(old(m.mem), old(m.own), m.mem, m.own, pt)
  {
    hide PtInv, Lookup, Released, Unmapped;
    ghost var mem0, own0 := m.mem, m.own;
    UvmUnmap(m, pt, TRAMPOLINE, 1, false);
    ghost var mem1, own1 := m.mem, m.own;
    UnmappedLookups(mem0, own0, mem1, own1, pt, TRAMP_VPN, TRAMP_VPN + 1);
    UvmUnmap(m, pt, TRAPFRAME, 1, false);
    ghost var mem2, own2 := m.mem, m.own;
    UnmappedLookups(mem1, own1, mem2, own2, pt, TRAP_VPN, TRAP_VPN + 1);
    UvmUnmap(m, pt, USYSCALL, 1, false);
    ghost var mem3, own3 := m.mem, m.own;
    UnmappedLookups(mem2, own2, mem3, own3, pt, USYS_VPN, USYS_VPN + 1);
    UvmFree(m, pt, sz);
    ReleasedAfter(mem2, own2, mem3, own3, m.mem, m.own, pt, USYS_VPN, USYS_VPN + 1);
    ReleasedAfter(mem1, own1, mem2, own2, m.mem, m.own, pt, TRAP_VPN, TRAP_VPN + 1);
    ReleasedAfter(mem0, own0, mem1, own1, m.mem, m.own, pt, TRAMP_VPN, TRAMP_VPN + 1);
  }
}
