/**
 The page-table operations of vm.c on one process's tree.
 */
module Vm {
  import opened Riscv
  import opened PageTable
  import opened Kalloc

  /** A pte_t pointer: a slot of a table page, or null. */
  datatype PtePtr = Null | At(page: nat, idx: nat)

  /** The PTE of virtual page v below root is slot ptr. */
  ghost predicate PointsTo(own: Owners, ptr: PtePtr, root: nat, v: nat) {
    && ptr.At?
    && IsLeafTable(own, ptr.page) && own[ptr.page].root == root
    && ptr.idx == I0(v)
    && own[ptr.page].path == TablePath(0, v)
  }

  ghost predicate SameVpnLookups(mem: Mem, own: Owners, mem': Mem) {
    forall r, v :: IsRoot(own, r) ==> Lookup(mem', r, v) == Lookup(mem, r, v)
  }

  /**
   walk: the slot of va's PTE. With alloc it creates the missing tables, and it fails exactly
   when there are fewer free pages than missing tables; a table that it creates stays even
   when a later allocation fails.
   */
  method Walk(m: Machine, root: nat, va: nat, alloc: bool) returns (pte: PtePtr)
    requires m.Valid() && IsRoot(m.own, root)
    requires va < MAXVA                        // otherwise panic("walk")
    modifies m
    ensures m.Valid() && IsRoot(m.own, root)
    ensures !alloc ==> unchanged(m)
    ensures Grew(old(m.mem), old(m.own), m.mem, m.own, root, {})
    ensures SameVpnLookups(old(m.mem), old(m.own), m.mem)
    ensures pte.At? ==> PointsTo(m.own, pte, root, va / 4096)
    ensures pte.At? ==> Slot(m.mem, pte.page, pte.idx) == Lookup(m.mem, root, va / 4096)
    ensures pte.Null? ==> Lookup(m.mem, root, va / 4096) == ZERO
    ensures var missing := Missing(old(m.mem), root, va / 4096);
            && (pte.At? <==> missing <= if alloc then |old(m.free)| else 0)
            && (alloc ==> |m.free| == if pte.At? then |old(m.free)| - missing else 0)
    ensures |m.free| <= |old(m.free)| && (|m.free| == |old(m.free)| ==> m.own == old(m.own))
    ensures |m.free| < |old(m.free)| <==> GainedTable(old(m.own), m.own, root)
    ensures GainedFor(old(m.own), m.own, root, va / 4096)
    ensures pte.At? ==> Missing(m.mem, root, va / 4096) == 0
  {
    hide PtInv, Lookup, Grew, SameVpnLookups, FreeOk, Missing, GainedTable, GainedFor, Walked;
    ghost var mem0, own0 := m.mem, m.own;
    var pagetable := WalkDown(m, root, va, va / 4096, alloc);
    WalkedFacts(mem0, own0, m.mem, m.own, root, va / 4096, |old(m.free)|, |m.free|);
    if pagetable == 0 {
      return Null;
    }
    WalkEnd(m.mem, m.own, pagetable, va, va / 4096);
    return At(pagetable, Px(0, va));
  }

  /** The loop of walk: the last table on the way to page v, 0 when there is none and none can be made. */
  method WalkDown(m: Machine, root: nat, va: nat, ghost v: nat, alloc: bool) returns (pagetable: nat)
    requires m.Valid() && IsRoot(m.own, root) && va < MAXVA && v == va / 4096
    modifies m
    ensures m.Valid() && IsRoot(m.own, root)
    ensures !alloc ==> unchanged(m)
    ensures Walked(old(m.mem), old(m.own), m.mem, m.own, root, v, |old(m.free)|, |m.free|)
    ensures pagetable != 0 ==>
              && pagetable in m.own && m.own[pagetable].Node? && m.own[pagetable].root == root
              && m.own[pagetable].path == TablePath(0, v)
    ensures pagetable == 0 ==>
              Lookup(m.mem, root, v) == ZERO && Missing(m.mem, root, v) > 0 && (alloc ==> m.free == [])
  {
    hide PtInv, Lookup, FreeOk, Missing, Walked, TablePath;
    ghost var mem0, own0 := m.mem, m.own;
    WalkStart(mem0, own0, root, v, |m.free|);
    pagetable := root;
    var level := 2;
    while level > 0
      invariant level <= 2 && pagetable != 0
      invariant m.Valid() && IsRoot(m.own, root)
      invariant !alloc ==> unchanged(m)
      invariant Walked(mem0, own0, m.mem, m.own, root, v, |old(m.free)|, |m.free|)
      invariant pagetable in m.own && m.own[pagetable].Node? && m.own[pagetable].root == root
      invariant m.own[pagetable].path == TablePath(level, v)
    {
      ghost var mem1, own1, free1 := m.mem, m.own, |m.free|;
      var next := NextTable(m, root, pagetable, level, va, v, alloc);
      WalkedMore(mem0, own0, mem1, own1, m.mem, m.own, root, v, |old(m.free)|, free1, |m.free|);
      if next == 0 {
        return 0;
      }
      pagetable := next;
      level := level - 1;
    }
  }

  /** A walk starts at the root. */
  lemma WalkStart(mem: Mem, own: Owners, root: nat, v: nat, free: nat)
    requires PtInv(mem, own) && IsRoot(own, root)
    ensures Walked(mem, own, mem, own, root, v, free, free)
    ensures root in own && own[root].Node? && own[root].root == root && own[root].path == TablePath(2, v)
    ensures root != 0
  {
    WalkedNothing(mem, own, root, v, free);
    hide Walked;
  }

  /** The end of a walk. */
  lemma WalkEnd(mem: Mem, own: Owners, p: nat, va: nat, v: nat)
    requires PtInv(mem, own) && p in own && own[p].Node? && own[p].path == TablePath(0, v)
    requires va < MAXVA && v == va / 4096
    ensures PointsTo(own, At(p, Px(0, va)), own[p].root, v)
    ensures Slot(mem, p, Px(0, va)) == Lookup(mem, own[p].root, v) && Missing(mem, own[p].root, v) == 0
  {
    PxOfPage(va);
    IndexRange(v);
    Descend(mem, own, p, 0, v);
    MissingAt(mem, own, p, 0, v);
    hide PtInv, Lookup, Missing;
  }

  /** A part of a walk to page v that takes free pages for tables, from free pages to free'. */
  ghost predicate Walked(mem: Mem, own: Owners, mem': Mem, own': Owners, root: nat, v: nat, free: nat, free': nat) {
    && Grew(mem, own, mem', own', root, {}) && SameVpnLookups(mem, own, mem')
    && free' <= free && free' + Missing(mem, root, v) == free + Missing(mem', root, v)
    && (free' == free ==> own' == own)
    && (free' < free ==> GainedTable(own, own', root))
    && GainedFor(own, own', root, v)
  }

  lemma WalkedNothing(mem: Mem, own: Owners, root: nat, v: nat, free: nat)
    requires mem.Keys == own.Keys
    ensures Walked(mem, own, mem, own, root, v, free, free)
  {
  }

  lemma WalkedFacts(mem: Mem, own: Owners, mem': Mem, own': Owners, root: nat, v: nat, free: nat, free': nat)
    requires Walked(mem, own, mem', own', root, v, free, free')
    ensures Grew(mem, own, mem', own', root, {}) && SameVpnLookups(mem, own, mem')
    ensures free' <= free && free' + Missing(mem, root, v) == free + Missing(mem', root, v)
    ensures free' == free ==> own' == own
    ensures free' < free <==> GainedTable(own, own', root)
    ensures GainedFor(own, own', root, v)
  {
    hide Grew, SameVpnLookups, Missing, GainedFor;
  }

  /** One round of walk's loop: the table below table p on the way to va, 0 when there is none and none can be made. */
  method NextTable(m: Machine, ghost root: nat, p: nat, level: nat, va: nat, ghost v: nat, alloc: bool)
    returns (q: nat)
    requires m.Valid() && IsRoot(m.own, root) && 0 < level <= 2 && va < MAXVA && v == va / 4096
    requires p in m.own && m.own[p].Node? && m.own[p].root == root && m.own[p].path == TablePath(level, v)
    modifies m
    ensures m.Valid() && IsRoot(m.own, root)
    ensures !alloc ==> unchanged(m)
    ensures Walked(old(m.mem), old(m.own), m.mem, m.own, root, v, |old(m.free)|, |m.free|)
    ensures q != 0 ==> q in m.own && m.own[q].Node? && m.own[q].root == root && m.own[q].path == TablePath(level - 1, v)
    ensures q == 0 ==> Missing(m.mem, root, v) == level && (alloc ==> m.free == [])
    ensures q == 0 ==> Lookup(m.mem, root, v) == ZERO
  {
    WalkedNothing(m.mem, m.own, root, v, |m.free|);
    hide PtInv, Lookup, Grew, SameVpnLookups, FreeOk, Missing, GainedTable, GainedFor;
    ghost var own0 := m.own;
    PxOfPage(va);
    IndexRange(v);
    var idx := Px(level, va);
    Descend(m.mem, m.own, p, level, v);
    MissingAt(m.mem, m.own, p, level, v);
    var e := Slot(m.mem, p, idx);
    if e.f.v {
      return e.ppn;
    }
    if !alloc {
      return 0;
    }
    q := AllocTable(m, root, p, idx);
    if q != 0 {
      TableGained(own0, root, q, m.own[q], v);
      NewTableBelow(m.mem, m.own, q, level - 1, v);
    }
  }

  lemma WalkedMore(mem: Mem, own: Owners, mem1: Mem, own1: Owners, mem2: Mem, own2: Owners, root: nat, v: nat,
                   free: nat, free1: nat, free2: nat)
    requires Walked(mem, own, mem1, own1, root, v, free, free1) && Walked(mem1, own1, mem2, own2, root, v, free1, free2)
    ensures Walked(mem, own, mem2, own2, root, v, free, free2)
  {
    WalkedOn(mem, own, mem1, own1, mem2, own2, root);
    GainedMore(mem, own, mem1, own1, mem2, own2, root, v);
    hide Grew, SameVpnLookups, GainedTable, GainedFor, Missing;
  }

  lemma GainedMore(mem: Mem, own: Owners, mem1: Mem, own1: Owners, mem2: Mem, own2: Owners, root: nat, v: nat)
    requires Grew(mem, own, mem1, own1, root, {}) && Grew(mem1, own1, mem2, own2, root, {})
    requires GainedFor(own, own1, root, v) && GainedFor(own1, own2, root, v)
    ensures GainedFor(own, own2, root, v)
    ensures GainedTable(own, own1, root) || GainedTable(own1, own2, root) ==> GainedTable(own, own2, root)
  {
    hide TablePath;
    if p :| p in own && own[p].Free? && MyTable(own1, p, root) {
      assert MyTable(own2, p, root);
    }
    if p :| p in own1 && own1[p].Free? && MyTable(own2, p, root) {
      assert own[p].Free?;
    }
  }

  /** One more table on the way to page v. */
  lemma TableGained(own: Owners, root: nat, q: nat, node: Owner, v: nat)
    requires q in own && own[q].Free? && node.Node? && node.root == root
    requires node.path == TablePath(1, v) || node.path == TablePath(0, v)
    ensures GainedTable(own, own[q := node], root) && GainedFor(own, own[q := node], root, v)
  {
    assert MyTable(own[q := node], q, root);
  }

  /** A new table on the way to page v is empty, so everything below it is missing. */
  lemma NewTableBelow(mem: Mem, own: Owners, q: nat, level: nat, v: nat)
    requires PtInv(mem, own) && q in own && own[q].Node? && own[q].path == TablePath(level, v)
    requires level <= 1 && v < NVPN && q in mem && mem[q] == EmptyTable()
    ensures Missing(mem, own[q].root, v) == level
  {
    IndexRange(v);
    MissingAt(mem, own, q, level, v);
    hide PtInv;
  }

  lemma WalkedOn(mem: Mem, own: Owners, mem1: Mem, own1: Owners, mem2: Mem, own2: Owners, root: nat)
    requires Grew(mem, own, mem1, own1, root, {}) && SameVpnLookups(mem, own, mem1)
    requires Grew(mem1, own1, mem2, own2, root, {}) && SameVpnLookups(mem1, own1, mem2)
    ensures Grew(mem, own, mem2, own2, root, {}) && SameVpnLookups(mem, own, mem2)
  {
    GrewTrans(mem, own, mem1, own1, mem2, own2, root, {}, {});
    var none: set<nat> := {};
    assert none + none == none;
    GrewKeeps(mem, own, mem1, own1, root, {});
    hide Lookup, Grew;
  }

  /** The allocating branch of walk: kalloc, memset to zero, link below slot idx. */
  method AllocTable(m: Machine, ghost root: nat, p: nat, idx: nat) returns (q: nat)
    requires m.Valid() && IsInner(m.own, p) && m.own[p].root == root && idx < 512
    requires m.own[p].path.P3? ==> idx < 256
    requires !Slot(m.mem, p, idx).f.v
    modifies m
    ensures m.Valid() && IsRoot(m.own, root)
    ensures q == 0 <==> old(m.free) == []
    ensures q == 0 ==> m.mem == old(m.mem) && m.own == old(m.own) && m.free == old(m.free)
    ensures q != 0 ==> |m.free| == |old(m.free)| - 1
    ensures q != 0 ==> && q in old(m.own) && old(m.own)[q].Free?
                       && m.own == old(m.own)[q := Node(root, Extend(old(m.own)[p].path, idx), p)]
                       && q in m.mem && m.mem[q] == EmptyTable()
    ensures Grew(old(m.mem), old(m.own), m.mem, m.own, root, {})
    ensures SameVpnLookups(old(m.mem), old(m.own), m.mem)
  {
    ghost var mem0, own0 := m.mem, m.own;
    TableFacts(mem0, own0, p);
    GrewNothing(mem0, own0, root);
    OnList(m.end, m.mem, m.freelist, m.free, m.own);
    q := m.Kalloc();
    if q != 0 {
      Link(m, root, p, idx, q, mem0, own0);
    }
  }

  /** memset to zero, and `*pte = PA2PTE(pagetable) | PTE_V`. */
  method Link(m: Machine, ghost root: nat, p: nat, idx: nat, q: nat, ghost mem0: Mem, ghost own0: Owners)
    requires m.FreeListOk() && PtInv(mem0, own0) && IsInner(own0, p) && own0[p].root == root && idx < 512
    requires (own0[p].path.P3? ==> idx < 256) && !Slot(mem0, p, idx).f.v
    requires q in own0 && own0[q].Free? && m.own == own0[q := Held] && m.mem.Keys == mem0.Keys
    requires forall t | t in mem0 && t != q :: m.mem[t] == mem0[t]
    modifies m
    ensures m.Valid() && IsRoot(m.own, root) && m.free == old(m.free)
    ensures m.own == own0[q := Node(root, Extend(own0[p].path, idx), p)] && q in m.mem && m.mem[q] == EmptyTable()
    ensures Grew(mem0, own0, m.mem, m.own, root, {}) && SameVpnLookups(mem0, own0, m.mem)
  {
    AddedTable(mem0, own0, m.mem, m.own, p, idx, q);
    hide PtInv, Grew, SameVpnLookups, FreeOk;
    ghost var node := Node(root, Extend(m.own[p].path, idx), p);
    NewNodeFree(m.end, m.mem, m.freelist, m.free, m.own, p, idx, q, node);
    m.mem := Linked(m.mem, p, idx, q);
    m.own := m.own[q := node];
  }

  lemma GrewNothing(mem: Mem, own: Owners, root: nat)
    requires mem.Keys == own.Keys
    ensures Grew(mem, own, mem, own, root, {}) && SameVpnLookups(mem, own, mem)
  {
  }

  lemma TableFacts(mem: Mem, own: Owners, p: nat)
    requires PtInv(mem, own) && IsInner(own, p)
    ensures mem.Keys == own.Keys && IsRoot(own, own[p].root) && IsTable(mem[p])
  {
    assert NodeOk(mem, own, p);
  }

  /** What linking a table that was just taken from the list makes of all trees. */
  lemma AddedTable(mem: Mem, own: Owners, mem1: Mem, own1: Owners, p: nat, i: nat, q: nat)
    requires PtInv(mem, own) && IsInner(own, p) && i < 512
    requires (own[p].path.P3? ==> i < 256) && !Slot(mem, p, i).f.v
    requires q in own && own[q].Free? && own1 == own[q := Held] && mem1.Keys == mem.Keys
    requires forall t | t in mem && t != q :: mem1[t] == mem[t]
    ensures p in mem1 && IsTable(mem1[p]) && p != q
    ensures var (mem', own') := (Linked(mem1, p, i, q), own1[q := Node(own[p].root, Extend(own[p].path, i), p)]);
            && PtInv(mem', own') && SameVpnLookups(mem, own, mem') && Grew(mem, own, mem', own', own[p].root, {})
            && IsRoot(own', own[p].root)
            && own' == own[q := Node(own[p].root, Extend(own[p].path, i), p)]
            && mem'[q] == EmptyTable() && q in mem'
  {
    AddTable(mem, own, mem1, own1, p, i, q);
    TableFacts(mem, own, p);
    hide PtInv, Grew, NodeOk;
  }

  /** The free list does not notice that page q becomes a table. */
  lemma NewNodeFree(end: nat, mem: Mem, head: nat, free: seq<nat>, own: Owners, p: nat, i: nat, q: nat, node: Owner)
    requires FreeOk(end, mem, head, free, own) && p in own && !own[p].Free? && p != q && q in own && !own[q].Free?
    requires p in mem && IsTable(mem[p]) && i < 512 && node.Node?
    ensures FreeOk(end, Linked(mem, p, i, q), head, free, own[q := node])
  {
    FreeKept(end, mem, head, free, own, Linked(mem, p, i, q), own[q := node]);
  }

  lemma SameLeaves(mem: Mem, own: Owners, mem': Mem)
    requires SameLookups(mem, own, mem')
    ensures SameVpnLookups(mem, own, mem')
  {
  }

  /** Page pn has been allocated and filled, and nothing refers to it yet. */
  predicate InHand(mem: Mem, own: Owners, pn: nat) {
    pn in own && own[pn].Held? && pn in mem && IsData(mem[pn])
  }

  /** Pages v0, v0 + 1, ... under root now lead to pn, pn + 1, ..., k of them; nothing else changed. */
  ghost predicate Mapped(mem: Mem, own: Owners, mem': Mem, root: nat, v0: nat, k: nat, pn: nat, perm: Flags) {
    forall r, w: nat :: IsRoot(own, r) ==>
                          Lookup(mem', r, w) ==
                          if r == root && v0 <= w < v0 + k then Pte(pn + w - v0, perm.(v := true))
                          else Lookup(mem, r, w)
  }

  /** Page p, mapped at v or still in hand, holds what it held in mem. */
  ghost predicate Placed(mem: Mem, mem': Mem, own': Owners, root: nat, v: int, p: nat, mapped: bool) {
    && 0 <= v && p in mem && p in mem' && p in own' && mem'[p] == mem[p]
    && (if mapped then own'[p].Node? && own'[p].root == root && own'[p].path == PagePath(v)
        else own'[p].Held? && IsData(mem'[p]))
  }

  /** The physical pages that mappages links: those of virtual pages below the top three. */
  predicate InSpan(pn: nat, v0: nat, n: nat, p: nat) {
    pn <= p < pn + n && v0 + (p - pn) < USYS_VPN
  }

  ghost function Span(own: Owners, pn: nat, v0: nat, n: nat): set<nat> {
    set p | p in own && InSpan(pn, v0, n, p)
  }

  /** The effect of mapping the first k of n pages. */
  ghost predicate MapDone(mem: Mem, own: Owners, mem': Mem, own': Owners, root: nat,
                          v0: nat, k: nat, n: nat, pn: nat, perm: Flags) {
    && Mapped(mem, own, mem', root, v0, k, pn, perm)
    && Grew(mem, own, mem', own', root, Span(own, pn, v0, k))
    && (forall p: nat | InSpan(pn, v0, n, p) ::
          Placed(mem, mem', own', root, v0 + p - pn, p, p < pn + k))
  }

  lemma MapNothing(mem: Mem, own: Owners, root: nat, v0: nat, n: nat, pn: nat, perm: Flags)
    requires mem.Keys == own.Keys
    requires forall p: nat | InSpan(pn, v0, n, p) :: InHand(mem, own, p)
    ensures MapDone(mem, own, mem, own, root, v0, 0, n, pn, perm)
  {
    assert Span(own, pn, v0, 0) == {};
  }

  /** A walk that fails changes only tables, so the pages mapped so far stay as they are. */
  lemma MapStop(mem: Mem, own: Owners, mem1: Mem, own1: Owners, mem2: Mem, own2: Owners, root: nat,
                v0: nat, k: nat, n: nat, pn: nat, perm: Flags)
    requires MapDone(mem, own, mem1, own1, root, v0, k, n, pn, perm) && k < n
    requires forall r | IsRoot(own, r) :: IsRoot(own1, r)
    requires SameVpnLookups(mem1, own1, mem2)
    requires Grew(mem1, own1, mem2, own2, root, {})
    ensures MapDone(mem, own, mem2, own2, root, v0, k, n, pn, perm)
  {
    assert Mapped(mem, own, mem2, root, v0, k, pn, perm) by {
      hide Lookup, Grew;
    }
    GrewTrans(mem, own, mem1, own1, mem2, own2, root, Span(own, pn, v0, k), {});
    assert Span(own, pn, v0, k) + {} == Span(own, pn, v0, k);
    forall p: nat | InSpan(pn, v0, n, p)
      ensures Placed(mem, mem2, own2, root, v0 + p - pn, p, p < pn + k)
    {
      hide Lookup;
      assert Placed(mem, mem1, own1, root, v0 + p - pn, p, p < pn + k);
    }
  }

  lemma MapNext(mem: Mem, own: Owners, mem1: Mem, own1: Owners, mem2: Mem, own2: Owners, root: nat,
                v0: nat, k: nat, n: nat, pn: nat, perm: Flags)
    requires MapDone(mem, own, mem1, own1, root, v0, k, n, pn, perm) && k < n
    requires forall r | IsRoot(own, r) :: IsRoot(own1, r)
    requires LeafBecomes(mem1, own1, mem2, root, v0 + k, Pte(pn + k, perm.(v := true)))
    requires Grew(mem1, own1, mem2, own2, root, if v0 + k < USYS_VPN then {pn + k} else {})
    requires v0 + k < USYS_VPN ==> Placed(mem1, mem2, own2, root, v0 + k, pn + k, true)
    ensures MapDone(mem, own, mem2, own2, root, v0, k + 1, n, pn, perm)
  {
    assert Mapped(mem, own, mem2, root, v0, k + 1, pn, perm) by {
      hide Lookup, Grew;
    }
    forall p: nat | InSpan(pn, v0, n, p)
      ensures Placed(mem, mem2, own2, root, v0 + p - pn, p, p < pn + k + 1)
    {
      hide Lookup;
      assert Placed(mem, mem1, own1, root, v0 + p - pn, p, p < pn + k);
    }
    assert Grew(mem, own, mem2, own2, root, Span(own, pn, v0, k + 1)) by {
      hide Lookup;
      if v0 + k < USYS_VPN {
        assert InSpan(pn, v0, n, pn + k);
      }
    }
  }

  /**
   mappages: maps the pages of [va, va + size) to consecutive physical pages from pn on.
   It is not atomic: when walk cannot allocate, the first k pages stay mapped.
   */
  method MapPages(m: Machine, root: nat, va: nat, size: nat, pn: nat, perm: Flags)
    returns (r: int, ghost k: nat)
    requires m.Valid() && IsRoot(m.own, root) && perm.r
    requires va % 4096 == 0 && size % 4096 == 0 && size > 0   // otherwise panic("mappages: ...")
    requires va + size <= MAXVA                               // otherwise panic("walk")
    requires forall v | va / 4096 <= v < (va + size) / 4096 ::
               !Lookup(m.mem, root, v).f.v                    // otherwise panic("mappages: remap")
    requires forall p | InSpan(pn, va / 4096, size / 4096, p) :: InHand(m.mem, m.own, p)
    modifies m
    ensures m.Valid() && IsRoot(m.own, root)
    ensures r == (if k == size / 4096 then 0 else -1) && k <= size / 4096
    ensures r == -1 ==> m.free == []
    ensures |m.free| <= |old(m.free)| <= |m.free| + 2 * k + (if r == 0 then 0 else 1)
    ensures size == 4096 ==>
              var missing := Missing(old(m.mem), root, va / 4096);
              && (r == 0 <==> missing <= |old(m.free)|)
              && |m.free| == (if r == 0 then |old(m.free)| - missing else 0)
              && (|m.free| < |old(m.free)| <==> GainedTable(old(m.own), m.own, root))
              && GainedFor(old(m.own), m.own, root, va / 4096)
    ensures MapDone(old(m.mem), old(m.own), m.mem, m.own, root, va / 4096, k, size / 4096, pn, perm)
  {
    hide PtInv, Lookup, Grew, Missing, GainedTable, GainedFor;
    var a, pa, last := va, pn, va + size - 4096;
    ghost var v0, n := va / 4096, size / 4096;
    ghost var mem0, own0 := m.mem, m.own;
    k := 0;
    MapNothing(mem0, own0, root, v0, n, pn, perm);
    while true
      invariant m.Valid() && IsRoot(m.own, root)
      invariant a == va + 4096 * k && pa == pn + k && k < n
      invariant |m.free| <= |old(m.free)| <= |m.free| + 2 * k
      invariant k == 0 ==> m.mem == mem0 && m.own == own0 && m.free == old(m.free)
      invariant k > 0 ==> size > 4096
      invariant MapDone(mem0, own0, m.mem, m.own, root, v0, k, n, pn, perm)
      invariant forall r | IsRoot(own0, r) :: IsRoot(m.own, r)
      decreases n - k
    {
      ghost var mem1, own1 := m.mem, m.own;
      assert v0 + k < USYS_VPN ==> InSpan(pn, v0, n, pa);
      var ok := MapPage(m, root, a, pa, perm);
      if !ok {
        MapStop(mem0, own0, mem1, own1, m.mem, m.own, root, v0, k, n, pn, perm);
        return -1, k;
      }
      MapNext(mem0, own0, mem1, own1, m.mem, m.own, root, v0, k, n, pn, perm);
      k := k + 1;
      if a == last {
        break;
      }
      a, pa := a + 4096, pa + 1;
    }
    return 0, k;
  }

  /** One round of mappages' loop. */
  method MapPage(m: Machine, root: nat, a: nat, pa: nat, perm: Flags) returns (ok: bool)
    requires m.Valid() && IsRoot(m.own, root) && perm.r
    requires a < MAXVA && !Lookup(m.mem, root, a / 4096).f.v
    requires a / 4096 < USYS_VPN ==> InHand(m.mem, m.own, pa)
    modifies m
    ensures m.Valid() && forall r | IsRoot(old(m.own), r) :: IsRoot(m.own, r)
    ensures ok ==> LeafBecomes(old(m.mem), old(m.own), m.mem, root, a / 4096, Pte(pa, perm.(v := true)))
    ensures !ok ==> SameVpnLookups(old(m.mem), old(m.own), m.mem)
    ensures var missing := Missing(old(m.mem), root, a / 4096);
            && (ok <==> missing <= |old(m.free)|)
            && |m.free| == if ok then |old(m.free)| - missing else 0
    ensures |m.free| < |old(m.free)| <==> GainedTable(old(m.own), m.own, root)
    ensures GainedFor(old(m.own), m.own, root, a / 4096)
    ensures Grew(old(m.mem), old(m.own), m.mem, m.own, root, if ok && a / 4096 < USYS_VPN then {pa} else {})
    ensures a / 4096 < USYS_VPN ==> Placed(old(m.mem), m.mem, m.own, root, a / 4096, pa, ok)
  {
    hide PtInv, FreeOk, Lookup, Missing, GainedTable, GainedFor;
    ghost var own0 := m.own;
    var pte := Walk(m, root, a, true);
    ghost var own1 := m.own;
    assert forall r | IsRoot(own0, r) :: IsRoot(m.own, r);
    if pte.Null? {
      return false;
    }
    if Slot(m.mem, pte.page, pte.idx).f.v {
      assert false;  // panic("mappages: remap")
    }
    SetLeaf(m, root, pte, a / 4096, Pte(pa, perm.(v := true)));
    LeafGained(own0, own1, m.own, root, a / 4096, pa);
    return true;
  }

  /** Mapping a page gains no table. */
  lemma LeafGained(own: Owners, own1: Owners, own2: Owners, root: nat, v: nat, pa: nat)
    requires own1.Keys == own.Keys && GainedFor(own, own1, root, v)
    requires own2 == own1 || (pa in own1 && !own1[pa].Node? && own2.Keys == own1.Keys
                              && own2[pa].Node? && own2[pa].path.P0?
                              && forall p | p in own1 && p != pa :: own2[p] == own1[p])
    ensures GainedTable(own, own2, root) <==> GainedTable(own, own1, root)
    ensures GainedFor(own, own2, root, v)
  {
    hide TablePath;
    if p :| p in own && own[p].Free? && MyTable(own2, p, root) {
      assert MyTable(own1, p, root);
    }
    if p :| p in own && own[p].Free? && MyTable(own1, p, root) {
      assert MyTable(own2, p, root);
    }
  }

  /** `*pte = PA2PTE(pa) | perm | PTE_V` on an invalid slot. */
  method SetLeaf(m: Machine, ghost root: nat, pte: PtePtr, ghost v: nat, e: Pte)
    requires m.Valid() && v < NVPN && PointsTo(m.own, pte, root, v)
    requires !Slot(m.mem, pte.page, pte.idx).f.v && e.f.v && e.f.r
    requires v < USYS_VPN ==> InHand(m.mem, m.own, e.ppn)
    modifies m
    ensures m.Valid() && m.free == old(m.free)
    ensures LeafBecomes(old(m.mem), old(m.own), m.mem, root, v, e)
    ensures Grew(old(m.mem), old(m.own), m.mem, m.own, root, if v < USYS_VPN then {e.ppn} else {})
    ensures v < USYS_VPN ==> m.mem[e.ppn] == old(m.mem)[e.ppn]
    ensures m.own == if v < USYS_VPN then old(m.own)[e.ppn := Node(root, PagePath(v), pte.page)] else old(m.own)
  {
    ghost var t := pte.page;
    MapLeaf(m.mem, m.own, t, v, e);
    ghost var own' := if v < USYS_VPN then m.own[e.ppn := Node(root, PagePath(v), t)] else m.own;
    FreeKept(m.end, m.mem, m.freelist, m.free, m.own, WithSlot(m.mem, t, I0(v), e), own');
    m.mem := WithSlot(m.mem, pte.page, pte.idx, e);
    m.own := own';
  }

  // -------------------------------------------------------------- unmapping

  /**
   uvmunmap: unmaps npages pages from va on; pages that are not mapped are skipped. User
   pages are freed with their mapping, the three top pages are only unmapped: freeing
   them here, or leaking a user page, is ruled out by the requirement on doFree.
   */
  method UvmUnmap(m: Machine, root: nat, va: nat, npages: nat, doFree: bool)
    requires m.Valid() && IsRoot(m.own, root)
    requires va % 4096 == 0                   // otherwise panic("uvmunmap: not aligned")
    requires va + npages * 4096 <= MAXVA      // otherwise panic("walk")
    requires if doFree then va + npages * 4096 <= USYSCALL else USYSCALL <= va
    modifies m
    ensures m.Valid() && IsRoot(m.own, root)
    ensures Unmapped(old(m.mem), old(m.own), m.mem, m.own, root, va / 4096, va / 4096 + npages)
    ensures |old(m.free)| <= |m.free|
  {
    hide PtInv, Lookup, Unmapped;
    ghost var mem0, own0, lo, k := m.mem, m.own, va / 4096, 0;
    UnmapNothing(mem0, own0, root, lo);
    var a := va;
    while a < va + npages * 4096
      invariant m.Valid() && IsRoot(m.own, root)
      invariant a == va + k * 4096 && k <= npages
      invariant Unmapped(mem0, own0, m.mem, m.own, root, lo, lo + k)
      invariant |old(m.free)| <= |m.free|
      decreases npages - k
    {
      ghost var mem1, own1 := m.mem, m.own;
      UnmapPage(m, root, a, doFree);
      UnmapTrans(mem0, own0, mem1, own1, m.mem, m.own, root, lo, lo + k, lo + k + 1);
      a, k := a + 4096, k + 1;
    }
  }

  lemma UnmapNothing(mem: Mem, own: Owners, root: nat, v: nat)
    requires mem.Keys == own.Keys
    ensures Unmapped(mem, own, mem, own, root, v, v)
  {
  }

  /** One round of uvmunmap's loop. */
  method UnmapPage(m: Machine, root: nat, a: nat, doFree: bool)
    requires m.Valid() && IsRoot(m.own, root)
    requires a < MAXVA && a % 4096 == 0
    requires doFree <==> a < USYSCALL
    modifies m
    ensures m.Valid() && IsRoot(m.own, root)
    ensures Unmapped(old(m.mem), old(m.own), m.mem, m.own, root, a / 4096, a / 4096 + 1)
    ensures |old(m.free)| <= |m.free|
  {
    hide PtInv, Lookup, Unmapped, FreeOk, Missing, GainedTable, GainedFor;
    ghost var mem0, own0, v := m.mem, m.own, a / 4096;
    RamOwned(m.end, m.mem, m.freelist, m.free, m.own);
    var pte := Walk(m, root, a, false);
    if pte.Null? || !Slot(m.mem, pte.page, pte.idx).f.v {
      UnmapAbsent(mem0, own0, root, v);
      return;
    }
    var e := Slot(m.mem, pte.page, pte.idx);
    LeafPage(mem0, own0, pte.page, v);
    if doFree {
      m.Kfree(e.ppn);
    }
    UnmapLeaf(mem0, own0, pte.page, v, e.ppn, m.mem, m.own);
    ghost var mem1 := m.mem;
    RamOwned(m.end, m.mem, m.freelist, m.free, m.own);
    m.mem := WithSlot(m.mem, pte.page, pte.idx, ZERO);
    FreeKept(m.end, mem1, m.freelist, m.free, m.own, m.mem, m.own);
    RootKept(mem0, own0, m.mem, m.own, root, v, v + 1);
  }

  lemma RootKept(mem: Mem, own: Owners, mem': Mem, own': Owners, root: nat, lo: nat, hi: nat)
    requires Unmapped(mem, own, mem', own', root, lo, hi)
    ensures forall r | IsRoot(own, r) :: IsRoot(own', r)
  {
  }
}
