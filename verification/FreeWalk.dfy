/**
 Destroying a page table: freewalk and uvmfree of vm.c.
 */
module FreeWalk {
  import opened Riscv
  import opened PageTable
  import opened Kalloc
  import opened Vm
  import opened Space
  import opened Uvm

  /** Position q is p or lies below p. */
  predicate Under(q: Path, p: Path) {
    match p
    case P3 => true
    case P2(a) => !q.P3? && q.a == a
    case P1(a, b) => (q.P1? || q.P0?) && q.a == a && q.b == b
    case P0(_, _, _) => q == p
  }

  /** The slot of the table at p through which the way down to q leads. */
  function SlotTowards(q: Path, p: Path): nat
    requires Under(q, p) && q != p
  {
    match p
    case P3 => q.a
    case P2(_) => q.b
    case P1(_, _) => q.c
  }

  function LevelOf(p: Path): nat {
    match p
    case P3 => 3
    case P2(_) => 2
    case P1(_, _) => 1
    case P0(_, _, _) => 0
  }

  /** All leaves at or below p have been unmapped. */
  ghost predicate NoLeaves(mem: Mem, own: Owners, root: nat, p: Path) {
    forall t | Mine(own, t, root) && Under(own[t].path, p) ::
      !own[t].path.P0? && (own[t].path.P1? ==> forall i | 0 <= i < 512 :: Slot(mem, t, i) == ZERO)
  }

  /** The nodes of root's tree at or below p are free; nothing else changed. */
  ghost predicate Swept(mem: Mem, own: Owners, mem': Mem, own': Owners, root: nat, p: Path) {
    && own'.Keys == own.Keys && mem.Keys == own.Keys && mem'.Keys == own.Keys
    && (forall t | t in own ::
          if Mine(own, t, root) && Under(own[t].path, p) then own'[t].Free?
          else own'[t] == own[t] && (own[t].Free? || mem'[t] == mem[t]))
  }

  /** The same for the subtrees below the first i slots of table q at p, whose slots are zero now. */
  ghost predicate SweptUpTo(mem: Mem, own: Owners, mem': Mem, own': Owners, root: nat, p: Path, q: nat, i: nat) {
    && own'.Keys == own.Keys && mem.Keys == own.Keys && mem'.Keys == own.Keys
    && (forall t | t in own ::
          if Mine(own, t, root) && Under(own[t].path, p) && own[t].path != p && SlotTowards(own[t].path, p) < i
          then own'[t].Free?
          else own'[t] == own[t] && (own[t].Free? || t == q || mem'[t] == mem[t]))
    && (forall j | 0 <= j < 512 :: Slot(mem', q, j) == if j < i then ZERO else Slot(mem, q, j))
  }

  /** Positions below slot i of table p. */
  lemma UnderSlot(q: Path, p: Path, i: nat)
    requires !p.P0?
    ensures Under(q, Extend(p, i)) <==> Under(q, p) && q != p && SlotTowards(q, p) == i
  {
  }

  lemma SweepSlot(mem: Mem, own: Owners, mem1: Mem, own1: Owners, mem2: Mem, own2: Owners,
                  root: nat, p: Path, q: nat, i: nat)
    requires !p.P0? && i < 512 && q in mem1 && IsTable(mem1[q])
    requires q in own && own[q].Node? && own[q].path == p
    requires SweptUpTo(mem, own, mem1, own1, root, p, q, i)
    requires Swept(mem1, own1, mem2, own2, root, Extend(p, i))
    ensures q in mem2 && IsTable(mem2[q])
    ensures SweptUpTo(mem, own, WithSlot(mem2, q, i, ZERO), own2, root, p, q, i + 1)
    ensures own2[q] == own[q]
  {
    forall t ensures t in own && own[t].Node? ==>
                       (Under(own[t].path, Extend(p, i)) <==>
                        Under(own[t].path, p) && own[t].path != p && SlotTowards(own[t].path, p) == i)
    {
      if t in own && own[t].Node? {
        UnderSlot(own[t].path, p, i);
      }
    }
    assert mem2[q] == mem1[q];
    var mem' := WithSlot(mem2, q, i, ZERO);
    forall j | 0 <= j < 512
      ensures Slot(mem', q, j) == if j < i + 1 then ZERO else Slot(mem, q, j)
    {
      assert Slot(mem1, q, j) == if j < i then ZERO else Slot(mem, q, j);
    }
  }

  /** No node lies below an invalid slot. */
  lemma {:induction false} EmptySlot(mem: Mem, own: Owners, root: nat, q: nat, i: nat, t: nat)
    requires PtInv(mem, own) && Mine(own, q, root) && !own[q].path.P0? && !Slot(mem, q, i).f.v
    requires Mine(own, t, root)
    ensures !Under(own[t].path, Extend(own[q].path, i))
    decreases 3 - LevelOf(own[t].path)
  {
    assert NodeOk(mem, own, t);
    if own[t].path == Extend(own[q].path, i) {
      Reached(mem, own, q);
      Reached(mem, own, own[t].parent);
    } else if Under(own[t].path, Extend(own[q].path, i)) {
      EmptySlot(mem, own, root, q, i, own[t].parent);
    }
  }

  lemma SkipSlot(mem: Mem, own: Owners, mem1: Mem, own1: Owners, root: nat, p: Path, q: nat, i: nat)
    requires PtInv(mem1, own1) && Mine(own1, q, root) && own1[q].path == p && !p.P0? && i < 512
    requires SweptUpTo(mem, own, mem1, own1, root, p, q, i) && Slot(mem1, q, i) == ZERO
    ensures SweptUpTo(mem, own, mem1, own1, root, p, q, i + 1)
  {
    forall t | Mine(own, t, root) && Under(own[t].path, p) && own[t].path != p && SlotTowards(own[t].path, p) < i + 1
      ensures own1[t].Free?
    {
      if !own1[t].Free? {
        UnderSlot(own[t].path, p, i);
        EmptySlot(mem1, own1, root, q, i, t);
      }
    }
  }

  lemma SweptNone(mem: Mem, own: Owners, root: nat, p: Path, q: nat)
    requires mem.Keys == own.Keys
    ensures SweptUpTo(mem, own, mem, own, root, p, q, 0)
  {
  }

  /** A valid slot of a table without leaves points at a table of the next level. */
  lemma SlotFacts(mem: Mem, own: Owners, q: nat, i: nat)
    requires PtInv(mem, own) && q in own && own[q].Node? && !own[q].path.P0? && i < 512
    requires NoLeaves(mem, own, own[q].root, own[q].path)
    ensures IsTable(mem[q])
    ensures var e := Slot(mem, q, i);
            if !e.f.v then e == ZERO
            else && !own[q].path.P1? && e.f == V && e.ppn in own
                 && own[e.ppn] == Node(own[q].root, Extend(own[q].path, i), q)
  {
    assert NodeOk(mem, own, q);
    assert SlotOk(mem, own, q, i);
    assert Under(own[q].path, own[q].path);
  }

  lemma NoLeavesBelow(mem: Mem, own: Owners, root: nat, p: Path, i: nat)
    requires NoLeaves(mem, own, root, p) && !p.P0?
    ensures NoLeaves(mem, own, root, Extend(p, i))
  {
    forall t | Mine(own, t, root) && Under(own[t].path, Extend(p, i))
      ensures Under(own[t].path, p)
    {
      UnderSlot(own[t].path, p, i);
    }
  }

  lemma NoLeavesKept(mem: Mem, own: Owners, mem': Mem, own': Owners, root: nat, p: Path, q: nat, i: nat)
    requires NoLeaves(mem, own, root, p) && SweptUpTo(mem, own, mem', own', root, p, q, i)
    requires Mine(own, q, root) && own[q].path == p
    ensures NoLeaves(mem', own', root, p)
  {
    forall t | Mine(own', t, root) && Under(own'[t].path, p)
      ensures !own'[t].path.P0? && (own'[t].path.P1? ==> forall j | 0 <= j < 512 :: Slot(mem', t, j) == ZERO)
    {
      assert Mine(own, t, root);
      if own[t].path.P1? {
        forall j | 0 <= j < 512 ensures Slot(mem', t, j) == ZERO {
          assert Slot(mem, t, j) == ZERO;
        }
      }
    }
  }

  /** When all slots of table q are done, q is the only node left at or below its position. */
  lemma AllSwept(mem: Mem, own: Owners, mem': Mem, own': Owners, root: nat, p: Path, q: nat)
    requires PtInv(mem, own) && PtInv(mem', own')
    requires Mine(own, q, root) && own[q].path == p && !p.P0?
    requires SweptUpTo(mem, own, mem', own', root, p, q, 512)
    ensures forall t | Mine(own, t, root) && Under(own[t].path, p) :: t == q || own'[t].Free?
    ensures p.P3? ==> forall t | t in own' && own'[t].Node? && own'[t].root == q :: t == q
    ensures forall j | 0 <= j < 512 :: !Slot(mem', q, j).f.v
  {
    assert NodeOk(mem, own, q);
    forall t | Mine(own, t, root) && Under(own[t].path, p)
      ensures t == q || own'[t].Free?
    {
      assert NodeOk(mem, own, t);
      Reached(mem, own, t);
      Reached(mem, own, q);
    }
    forall t | p.P3? && t in own' && own'[t].Node? && own'[t].root == q ensures t == q {
      assert Mine(own', t, root) && Mine(own, t, root);
    }
  }

  /** Removing table q from its parent's slot, before and after its page is overwritten. */
  lemma DetachedSlot(mem: Mem, own: Owners, q: nat, pg: Page)
    requires PtInv(mem, own) && q in own && own[q].Node? && !own[q].path.P0?
    ensures own[q].path.P3? ==> Detached(mem, own, q)[q := pg] == mem[q := pg]
    ensures !own[q].path.P3? ==>
              var (par, i) := (own[q].parent, Last(own[q].path));
              && par in mem && par != q && IsTable(mem[par]) && i < 512
              && Detached(mem, own, q)[q := pg] == WithSlot(mem[q := pg], par, i, ZERO)
  {
    assert NodeOk(mem, own, q);
    if !own[q].path.P3? {
      assert NodeOk(mem, own, own[q].parent);
    }
  }

  lemma SweepTable(mem: Mem, own: Owners, mem1: Mem, own1: Owners, mem2: Mem, own2: Owners,
                   root: nat, p: Path, q: nat)
    requires Mine(own, q, root) && own[q].path == p
    requires SweptUpTo(mem, own, mem1, own1, root, p, q, 512)
    requires forall t | Mine(own, t, root) && Under(own[t].path, p) :: t == q || own1[t].Free?
    requires own2 == own1[q := Free] && mem2.Keys == mem1.Keys
    requires forall t | t in mem1 && t != q :: mem2[t] == mem1[t]
    ensures Swept(mem, own, mem2, own2, root, p)
  {
    forall t | t in own
      ensures if Mine(own, t, root) && Under(own[t].path, p) then own2[t].Free?
              else own2[t] == own[t] && (own[t].Free? || mem2[t] == mem[t])
    {
      assert Under(p, p);
    }
  }

  /**
   freewalk: frees table page q and all tables below it. Every slot is cleared after its
   subtree was freed; the slot that points at q itself is its caller's to clear, and PtInv
   holds again as soon as that is done.
   */
  method FreeWalk(m: Machine, q: nat, ghost root: nat)
    requires m.Valid() && Mine(m.own, q, root) && !m.own[q].path.P0?
    requires NoLeaves(m.mem, m.own, root, m.own[q].path)   // otherwise panic("freewalk: leaf")
    modifies m
    ensures m.FreeListOk()
    ensures Swept(old(m.mem), old(m.own), m.mem, m.own, root, old(m.own)[q].path)
    ensures old(m.own)[q].path.P3? ==> PtInv(m.mem, m.own)
    ensures !old(m.own)[q].path.P3? ==>
              var (par, i) := (old(m.own)[q].parent, Last(old(m.own)[q].path));
              && par in m.mem && IsTable(m.mem[par]) && i < 512
              && PtInv(WithSlot(m.mem, par, i, ZERO), m.own)
    decreases LevelOf(m.own[q].path)
  {
    hide PtInv, NoLeaves, SweptUpTo, Swept;
    ghost var mem0, own0, p := m.mem, m.own, m.own[q].path;
    SweptNone(mem0, own0, root, p, q);
    for i := 0 to 512
      invariant m.Valid() && Mine(m.own, q, root) && m.own[q] == own0[q]
      invariant SweptUpTo(mem0, own0, m.mem, m.own, root, p, q, i)
      invariant NoLeaves(m.mem, m.own, root, p)
    {
      SlotFacts(m.mem, m.own, q, i);
      var pte := Slot(m.mem, q, i);
      if pte.f.v && !pte.f.r && !pte.f.w && !pte.f.x {
        ghost var mem1, own1 := m.mem, m.own;
        NoLeavesBelow(mem1, own1, root, p, i);
        FreeWalk(m, pte.ppn, root);
        SweepSlot(mem0, own0, mem1, own1, m.mem, m.own, root, p, q, i);
        ghost var mem2, own2 := m.mem, m.own;
        m.mem := WithSlot(m.mem, q, i, ZERO);
        FreeKept(m.end, mem2, m.freelist, m.free, m.own, m.mem, m.own);
        NoLeavesKept(mem0, own0, m.mem, m.own, root, p, q, i + 1);
      } else if pte.f.v {
        assert false;  // panic("freewalk: leaf")
      } else {
        SkipSlot(mem0, own0, m.mem, m.own, root, p, q, i);
      }
    }
    AllSwept(mem0, own0, m.mem, m.own, root, p, q);
    ghost var mem3, own3, pg := m.mem, m.own, Run(m.freelist);
    UnlinkTable(mem3, own3, q, pg, Free);
    m.Kfree(q);
    DetachedSlot(mem3, own3, q, pg);
    SweepTable(mem0, own0, mem3, own3, m.mem, m.own, root, p, q);
  }

  /** A tree none of whose pages is mapped has only tables, with zero leaves. */
  lemma NothingMapped(mem: Mem, own: Owners, root: nat)
    requires PtInv(mem, own) && IsRoot(own, root)
    requires forall v: nat | v < NVPN :: Lookup(mem, root, v) == ZERO
    ensures NoLeaves(mem, own, root, P3)
  {
    forall a, b, c | PathOk(P0(a, b, c)) ensures Leaf(mem, root, a, b, c) == ZERO {
      SplitVpn(a, b, c);
      assert Lookup(mem, root, Vpn(a, b, c)) == ZERO;
    }
    forall t | Mine(own, t, root)
      ensures !own[t].path.P0? && (own[t].path.P1? ==> forall i | 0 <= i < 512 :: Slot(mem, t, i) == ZERO)
    {
      assert NodeOk(mem, own, t);
      Reached(mem, own, t);
      if own[t].path.P1? {
        forall i: nat | i < 512 ensures Slot(mem, t, i) == ZERO {
          assert Leaf(mem, root, own[t].path.a, own[t].path.b, i) == ZERO;
        }
      }
    }
  }

  /** All pages of the tree under root are free; nothing else changed. */
  ghost predicate Released(mem: Mem, own: Owners, mem': Mem, own': Owners, root: nat) {
    && own'.Keys == own.Keys && mem.Keys == own.Keys && mem'.Keys == own.Keys
    && (forall t | t in own ::
          if Mine(own, t, root) then own'[t].Free?
          else own'[t] == own[t] && (own[t].Free? || mem'[t] == mem[t]))
  }

  /**
   uvmfree: frees the user pages below sz and then every table of the tree. The three
   top pages have been unmapped before, and no user page lies at or above sz.
   */
  method UvmFree(m: Machine, root: nat, sz: nat)
    requires m.Valid() && IsRoot(m.own, root) && sz <= USYSCALL
    requires forall v: nat | Pages(sz) <= v < NVPN :: Lookup(m.mem, root, v) == ZERO
    modifies m
    ensures m.Valid()
    ensures Released(old(m.mem), old(m.own), m.mem, m.own, root)
  {
    hide PtInv, Lookup, Unmapped, NoLeaves;
    ghost var mem0, own0 := m.mem, m.own;
    if sz > 0 {
      UvmUnmap(m, root, 0, PgRoundUp(sz) / 4096, true);
    } else {
      UnmapNothing(mem0, own0, root, 0);
    }
    ghost var mem1, own1 := m.mem, m.own;
    UnmappedLookups(mem0, own0, mem1, own1, root, 0, Pages(sz));
    NothingMapped(mem1, own1, root);
    FreeWalk(m, root, root);
    ReleasedAll(mem0, own0, mem1, own1, m.mem, m.own, root, 0, Pages(sz));
  }

  lemma UnmappedLookups(mem: Mem, own: Owners, mem': Mem, own': Owners, root: nat, lo: nat, hi: nat)
    requires Unmapped(mem, own, mem', own', root, lo, hi) && IsRoot(own, root)
    ensures forall v: nat :: Lookup(mem', root, v) == if lo <= v < hi then ZERO else Lookup(mem, root, v)
  {
  }

  lemma ReleasedAll(mem: Mem, own: Owners, mem1: Mem, own1: Owners, mem2: Mem, own2: Owners,
                    root: nat, lo: nat, hi: nat)
    requires Unmapped(mem, own, mem1, own1, root, lo, hi)
    requires Swept(mem1, own1, mem2, own2, root, P3)
    ensures Released(mem, own, mem2, own2, root)
  {
    hide Lookup;
  }
}
