/**
 Growing, shrinking, faulting, copying and destroying user memory: the uvm* functions,
 vmfault and freewalk of vm.c.
 */
module Uvm {
  import opened Riscv
  import opened PageTable
  import opened Kalloc
  import opened Vm
  import opened Space
  import opened Need

  // ------------------------------------------------------- one page at a time

  /** Page pn changed from owner o to owner o'; no other page changed owner or contents. */
  ghost predicate Moved(mem: Mem, own: Owners, mem': Mem, own': Owners, pn: nat, o: Owner, o': Owner) {
    && mem.Keys == own.Keys == mem'.Keys == own'.Keys
    && pn in own && own[pn] == o && own'[pn] == o'
    && (forall p | p in own && p != pn :: own'[p] == own[p] && mem'[p] == mem[p])
    && SameVpnLookups(mem, own, mem')
  }

  /** Free page pn, taken from the list, filled and mapped at v: the tree has grown by one page. */
  lemma FreshMapped(mem: Mem, own: Owners, mem1: Mem, own1: Owners, mem2: Mem, own2: Owners,
                    root: nat, v: nat, pn: nat, perm: Flags, bytes: seq<byte>)
    requires IsRoot(own, root) && v < USYS_VPN
    requires Moved(mem, own, mem1, own1, pn, Free, Held) && mem1[pn] == Data(bytes)
    requires MapDone(mem1, own1, mem2, own2, root, v, 1, 1, pn, perm)
    ensures Grown(mem, own, mem2, own2, root, v, v + 1)
    ensures MappedTo(mem2, root, v, perm, bytes) && Lookup(mem2, root, v).ppn == pn
  {
    hide Lookup, PagePath, InRange, Grew, Moved, MapDone;
    PathInRange(v, v, v + 1);
    PathIsLeaf(v);
    FreshOwners(mem, own, mem1, own1, mem2, own2, root, v, pn, perm, bytes);
    FreshLookups(mem, own, mem1, own1, mem2, own2, root, v, pn, perm);
  }

  lemma FreshOwners(mem: Mem, own: Owners, mem1: Mem, own1: Owners, mem2: Mem, own2: Owners,
                    root: nat, v: nat, pn: nat, perm: Flags, bytes: seq<byte>)
    requires IsRoot(own, root) && v < USYS_VPN
    requires Moved(mem, own, mem1, own1, pn, Free, Held) && mem1[pn] == Data(bytes)
    requires MapDone(mem1, own1, mem2, own2, root, v, 1, 1, pn, perm)
    ensures own2.Keys == own.Keys && mem.Keys == own.Keys && mem2.Keys == own.Keys
    ensures pn in own && own[pn].Free? && Mine(own2, pn, root) && own2[pn].path == PagePath(v)
    ensures pn in mem2 && mem2[pn] == Data(bytes)
    ensures forall p | p in own && p != pn ::
              own2[p] == own[p] || (own[p].Free? && MyTable(own2, p, root) && !own2[p].path.P3?)
    ensures forall p | p in own && !own[p].Free? && !MyTable(own, p, root) :: mem2[p] == mem[p]
  {
    hide Lookup, PagePath, SameVpnLookups, Mapped;
    assert InSpan(pn, v, 1, pn);
    assert Placed(mem1, mem2, own2, root, v, pn, true);
    assert forall p | p in Span(own1, pn, v, 1) :: p == pn;
  }

  lemma FreshLookups(mem: Mem, own: Owners, mem1: Mem, own1: Owners, mem2: Mem, own2: Owners,
                     root: nat, v: nat, pn: nat, perm: Flags)
    requires IsRoot(own, root) && Moved(mem, own, mem1, own1, pn, Free, Held)
    requires MapDone(mem1, own1, mem2, own2, root, v, 1, 1, pn, perm)
    ensures Lookup(mem2, root, v) == Pte(pn, perm.(v := true))
    ensures forall r, w: nat | IsRoot(own, r) && !(r == root && v <= w < v + 1) ::
              Lookup(mem2, r, w) == Lookup(mem, r, w)
  {
    hide Lookup, Grew, Placed;
    assert IsRoot(own1, root);
    forall r, w: nat | IsRoot(own, r) && !(r == root && v <= w < v + 1)
      ensures Lookup(mem2, r, w) == Lookup(mem, r, w)
    {
      assert IsRoot(own1, r);
    }
  }

  lemma PathIsLeaf(v: nat)
    ensures PagePath(v).P0?
  {
  }

  /** The same, when mappages failed and pn went back to the list: only tables were gained. */
  lemma FreshFailed(mem: Mem, own: Owners, mem1: Mem, own1: Owners, mem2: Mem, own2: Owners,
                    mem3: Mem, own3: Owners, root: nat, v: nat, pn: nat, perm: Flags)
    requires IsRoot(own, root) && v < USYS_VPN
    requires Moved(mem, own, mem1, own1, pn, Free, Held)
    requires MapDone(mem1, own1, mem2, own2, root, v, 0, 1, pn, perm)
    requires Moved(mem2, own2, mem3, own3, pn, Held, Free)
    ensures Grown(mem, own, mem3, own3, root, v, v)
  {
    FailedOwners(mem, own, mem1, own1, mem2, own2, mem3, own3, root, v, pn, perm);
    FailedLookups(mem, own, mem1, own1, mem2, own2, mem3, own3, root, v, pn, perm);
    hide Lookup, Moved, MapDone;
  }

  lemma FailedOwners(mem: Mem, own: Owners, mem1: Mem, own1: Owners, mem2: Mem, own2: Owners,
                     mem3: Mem, own3: Owners, root: nat, v: nat, pn: nat, perm: Flags)
    requires Moved(mem, own, mem1, own1, pn, Free, Held)
    requires MapDone(mem1, own1, mem2, own2, root, v, 0, 1, pn, perm)
    requires Moved(mem2, own2, mem3, own3, pn, Held, Free)
    ensures own3.Keys == own.Keys && mem.Keys == own.Keys && mem3.Keys == own.Keys
    ensures forall p | p in own :: own3[p] == own[p] || (own[p].Free? && MyTable(own3, p, root) && !own3[p].path.P3?)
    ensures forall p | p in own && !own[p].Free? && !MyTable(own, p, root) :: mem3[p] == mem[p]
  {
    assert forall p | p in own1 :: p !in Span(own1, pn, v, 0);
    hide Lookup, Mapped, SameVpnLookups, Placed, IsRoot;
  }

  lemma FailedLookups(mem: Mem, own: Owners, mem1: Mem, own1: Owners, mem2: Mem, own2: Owners,
                      mem3: Mem, own3: Owners, root: nat, v: nat, pn: nat, perm: Flags)
    requires Moved(mem, own, mem1, own1, pn, Free, Held)
    requires MapDone(mem1, own1, mem2, own2, root, v, 0, 1, pn, perm)
    requires Moved(mem2, own2, mem3, own3, pn, Held, Free)
    ensures forall r, w: nat :: IsRoot(own, r) ==> Lookup(mem3, r, w) == Lookup(mem, r, w)
  {
    hide Lookup, Placed;
    forall r, w: nat | IsRoot(own, r)
      ensures Lookup(mem3, r, w) == Lookup(mem, r, w)
    {
      assert IsRoot(own1, r) && IsRoot(own2, r);
    }
  }

  lemma GrownNothing(mem: Mem, own: Owners, root: nat, v: nat)
    requires mem.Keys == own.Keys
    ensures Grown(mem, own, mem, own, root, v, v)
  {
  }

  /** kalloc followed by filling the page, for owner o: a page in hand unless its place is known. */
  method AllocFilled(m: Machine, bytes: seq<byte>, ghost o: Owner) returns (pn: nat)
    requires m.Valid() && |bytes| == 4096 && !o.Node? && !o.Free?
    modifies m
    ensures m.Valid()
    ensures pn == 0 <==> old(m.free) == []
    ensures pn == 0 ==> m.mem == old(m.mem) && m.own == old(m.own) && m.free == old(m.free)
    ensures pn != 0 ==>
              && Moved(old(m.mem), old(m.own), m.mem, m.own, pn, Free, o)
              && m.mem[pn] == Data(bytes) && |m.free| == |old(m.free)| - 1
  {
    hide PtInv, Lookup;
    ghost var mem0, own0 := m.mem, m.own;
    OnList(m.end, m.mem, m.freelist, m.free, m.own);
    pn := m.Kalloc();
    if pn != 0 {
      Retype(mem0, own0, pn, Data(bytes), o);
      SameLeaves(mem0, own0, mem0[pn := Data(bytes)]);
      assert m.mem[pn := Data(bytes)] == mem0[pn := Data(bytes)];
      ghost var mem1, own1 := m.mem, m.own;
      m.mem := m.mem[pn := Data(bytes)];
      m.own := m.own[pn := o];
      assert m.own == own0[pn := o];
      FreeKept(m.end, mem1, m.freelist, m.free, own1, m.mem, m.own);
    }
  }

  /** kfree of a page that no tree refers to. */
  method FreeHeld(m: Machine, pn: nat)
    requires m.Valid() && pn in m.own && !m.own[pn].Free? && !m.own[pn].Node?
    modifies m
    ensures m.Valid() && m.free == [pn] + old(m.free)
    ensures Moved(old(m.mem), old(m.own), m.mem, m.own, pn, old(m.own)[pn], Free)
  {
    hide PtInv, Lookup;
    Retype(m.mem, m.own, pn, Run(m.freelist), Free);
    SameLeaves(m.mem, m.own, m.mem[pn := Run(m.freelist)]);
    m.Kfree(pn);
  }

  /**
   The sequence kalloc, fill, mappages, and kfree when mappages fails, that uvmalloc,
   uvmcopy and vmfault share. It succeeds exactly when there is a free page for the data and
   one for each missing table. Tables made by a failing mappages stay in the tree.
   */
  method MapFresh(m: Machine, root: nat, a: nat, bytes: seq<byte>, perm: Flags) returns (pn: nat)
    requires m.Valid() && IsRoot(m.own, root) && perm.r && |bytes| == 4096
    requires a % 4096 == 0 && a < USYSCALL && !Lookup(m.mem, root, a / 4096).f.v
    modifies m
    ensures m.Valid() && IsRoot(m.own, root)
    ensures Grown(old(m.mem), old(m.own), m.mem, m.own, root, a / 4096, a / 4096 + if pn == 0 then 0 else 1)
    ensures pn != 0 ==> MappedTo(m.mem, root, a / 4096, perm, bytes) && Lookup(m.mem, root, a / 4096).ppn == pn
    ensures var (missing, free) := (Missing(old(m.mem), root, a / 4096), |old(m.free)|);
            && (pn != 0 <==> missing < free)
            && |m.free| == (if pn != 0 then free - 1 - missing else if free == 0 then 0 else 1)
            && (GainedTable(old(m.own), m.own, root) <==> missing > 0 && free >= 2)
    ensures GainedFor(old(m.own), m.own, root, a / 4096)
  {
    hide PtInv, Lookup, Grown, MapDone, Missing, GainedTable, GainedFor;
    ghost var v, mem0, own0 := a / 4096, m.mem, m.own;
    NoneGained(own0, root, v);
    pn := AllocFilled(m, bytes, Held);
    if pn == 0 {
      GrownNothing(mem0, own0, root, v);
      return;
    }
    ghost var mem1, own1 := m.mem, m.own;
    MovedTables(mem0, own0, mem1, own1, pn, root, v);
    var r, k := MapPages(m, root, a, 4096, pn, perm);
    ghost var mem2, own2 := m.mem, m.own;
    if r != 0 {
      StillHeld(mem1, own1, mem2, own2, root, v, pn, perm);
      FreeHeld(m, pn);
      FreshFailed(mem0, own0, mem1, own1, mem2, own2, m.mem, m.own, root, v, pn, perm);
      FailedTables(mem0, own0, mem1, own1, mem2, own2, m.mem, m.own, root, v, pn);
      pn := 0;
    } else {
      FreshMapped(mem0, own0, mem1, own1, mem2, own2, root, v, pn, perm, bytes);
      MappedTables(mem0, own0, mem1, own1, mem2, own2, root, v, pn, perm);
    }
  }

  /** Taking a page from the list makes no table and loses none. */
  lemma MovedTables(mem: Mem, own: Owners, mem1: Mem, own1: Owners, pn: nat, root: nat, v: nat)
    requires PtInv(mem, own) && PtInv(mem1, own1) && IsRoot(own, root)
    requires Moved(mem, own, mem1, own1, pn, Free, Held)
    ensures IsRoot(own1, root) && Missing(mem1, root, v) == Missing(mem, root, v)
    ensures Lookup(mem1, root, v) == Lookup(mem, root, v)
  {
    assert SameTables(own, own1, root);
    MissingKept(mem, own, mem1, own1, root, v);
    hide PtInv, Missing, Lookup;
  }

  /** The tables gained when mappages succeeded, counted from before the page was taken. */
  lemma MappedTables(mem: Mem, own: Owners, mem1: Mem, own1: Owners, mem2: Mem, own2: Owners,
                     root: nat, v: nat, pn: nat, perm: Flags)
    requires Moved(mem, own, mem1, own1, pn, Free, Held) && v < USYS_VPN
    requires MapDone(mem1, own1, mem2, own2, root, v, 1, 1, pn, perm) && GainedFor(own1, own2, root, v)
    ensures GainedTable(own, own2, root) <==> GainedTable(own1, own2, root)
    ensures GainedFor(own, own2, root, v)
  {
    assert InSpan(pn, v, 1, pn);
    assert Placed(mem1, mem2, own2, root, v, pn, true);
    PathIsLeaf(v);
    hide MapDone, PagePath, TablePath;
    SameGained(own, own1, own2, root, v, pn);
  }

  lemma SameGained(own: Owners, own1: Owners, own2: Owners, root: nat, v: nat, pn: nat)
    requires own1.Keys == own.Keys && pn in own && !own1[pn].Free? && !MyTable(own2, pn, root)
    requires (forall p | p in own && p != pn :: own1[p] == own[p]) && GainedFor(own1, own2, root, v)
    ensures GainedTable(own, own2, root) <==> GainedTable(own1, own2, root)
    ensures GainedFor(own, own2, root, v)
  {
    hide TablePath;
    if p :| p in own && own[p].Free? && MyTable(own2, p, root) {
      assert own1[p].Free?;
    }
    if p :| p in own1 && own1[p].Free? && MyTable(own2, p, root) {
      assert own[p].Free?;
    }
  }

  /** The same, when it failed and the page went back. */
  lemma FailedTables(mem: Mem, own: Owners, mem1: Mem, own1: Owners, mem2: Mem, own2: Owners, mem3: Mem, own3: Owners,
                     root: nat, v: nat, pn: nat)
    requires Moved(mem, own, mem1, own1, pn, Free, Held) && Moved(mem2, own2, mem3, own3, pn, Held, Free)
    requires GainedFor(own1, own2, root, v) && own2.Keys == own1.Keys
    ensures GainedTable(own, own3, root) <==> GainedTable(own1, own2, root)
    ensures GainedFor(own, own3, root, v)
  {
    SameGained(own, own1, own2, root, v, pn);
    hide TablePath, SameVpnLookups;
    if p :| p in own && own[p].Free? && MyTable(own2, p, root) {
      assert MyTable(own3, p, root);
    }
    if p :| p in own && own[p].Free? && MyTable(own3, p, root) {
      assert MyTable(own2, p, root);
    }
  }

  lemma StillHeld(mem: Mem, own: Owners, mem': Mem, own': Owners, root: nat, v: nat, pn: nat, perm: Flags)
    requires MapDone(mem, own, mem', own', root, v, 0, 1, pn, perm) && v < USYS_VPN
    ensures pn in own' && own'[pn].Held?
  {
    assert InSpan(pn, v, 1, pn);
    assert Placed(mem, mem', own', root, v, pn, false);
  }

  // -------------------------------------------------------- creating, growing

  /** uvmcreate: an empty page table; slot is the process that it is for. */
  method UvmCreate(m: Machine, ghost slot: nat) returns (root: nat)
    requires m.Valid()
    modifies m
    ensures m.Valid()
    ensures root == 0 <==> old(m.free) == []
    ensures root == 0 ==> m.mem == old(m.mem) && m.own == old(m.own) && m.free == old(m.free)
    ensures root != 0 ==>
              && Moved(old(m.mem), old(m.own), m.mem, m.own, root, Free, Node(root, P3, slot))
              && |m.free| == |old(m.free)| - 1
              && forall w: nat :: Lookup(m.mem, root, w) == ZERO && Missing(m.mem, root, w) == 2
  {
    hide PtInv;
    ghost var mem0, own0 := m.mem, m.own;
    OnList(m.end, m.mem, m.freelist, m.free, m.own);
    root := m.Kalloc();
    if root != 0 {
      Retype(mem0, own0, root, EmptyTable(), Held);
      SameLeaves(mem0, own0, mem0[root := EmptyTable()]);
      assert m.mem[root := EmptyTable()] == mem0[root := EmptyTable()];
      ghost var mem1, own1 := m.mem, m.own;
      NewRoot(m.mem[root := EmptyTable()], m.own, root, slot);
      m.mem := m.mem[root := EmptyTable()];
      m.own := m.own[root := Node(root, P3, slot)];
      FreeKept(m.end, mem1, m.freelist, m.free, own1, m.mem, m.own);
    }
  }

  /** Virtual pages [lo, hi) are mapped with the bits perm to pages of zeros. */
  ghost predicate AllMapped(mem: Mem, root: nat, lo: nat, hi: nat, perm: Flags) {
    forall w: nat | lo <= w < hi :: MappedTo(mem, root, w, perm, Fill(0))
  }

  lemma AllMappedNext(mem: Mem, own: Owners, mem': Mem, own': Owners, root: nat, lo: nat, v: nat, perm: Flags)
    requires PtInv(mem, own) && IsRoot(own, root) && v < USYS_VPN
    requires AllMapped(mem, root, lo, v, perm) && Grown(mem, own, mem', own', root, v, v + 1)
    requires MappedTo(mem', root, v, perm, Fill(0))
    ensures AllMapped(mem', root, lo, v + 1, perm)
  {
    hide PtInv, Grown;
    forall w: nat | lo <= w < v + 1 ensures MappedTo(mem', root, w, perm, Fill(0)) {
      if w < v {
        GrownMapped(mem, own, mem', own', root, v, v + 1, w, perm, Fill(0));
      }
    }
  }

  /**
   uvmalloc: allocates and maps the pages that newsz has beyond oldsz. On failure it
   unmaps what it mapped; the tables it made on the way remain in the tree.
   */
  method UvmAlloc(m: Machine, root: nat, oldsz: nat, newsz: nat, xperm: Flags) returns (r: nat)
    requires m.Valid() && IsRoot(m.own, root) && newsz <= USYSCALL && oldsz <= USYSCALL
    requires forall v: nat | Pages(oldsz) <= v < Pages(newsz) :: !Lookup(m.mem, root, v).f.v
    modifies m
    ensures m.Valid() && IsRoot(m.own, root)
    ensures newsz < oldsz ==> r == oldsz && unchanged(m)
    ensures newsz >= oldsz ==> r == newsz || r == 0
    ensures newsz >= oldsz && r == newsz ==>
              && Grown(old(m.mem), old(m.own), m.mem, m.own, root, Pages(oldsz), Pages(newsz))
              && AllMapped(m.mem, root, Pages(oldsz), Pages(newsz), xperm.(r := true, u := true))
    ensures newsz >= oldsz && r != newsz ==>
              var (picked, missing) := (From(Pages(oldsz)), MissingIn(old(m.mem), root));
              && Grown(old(m.mem), old(m.own), m.mem, m.own, root, Pages(oldsz), Pages(oldsz))
              && (m.own != old(m.own) <==> MakesTable(picked, missing, Pages(newsz), |old(m.free)|))
    ensures newsz >= oldsz ==>
              var need := MapNeed(From(Pages(oldsz)), MissingIn(old(m.mem), root), Pages(newsz));
              && (r == newsz <==> need <= |old(m.free)|)
              && (r == newsz ==> |m.free| == |old(m.free)| - need)
  {
    hide PtInv, Lookup, Grown, AllMapped, MappedTo, Missing, GainedTable, GainedFor, MapNeed, MakesTable, NeedState;
    if newsz < oldsz {
      return oldsz;
    }
    assert m.mem.Keys == m.own.Keys;
    hide FreeOk;
    var perm := xperm.(r := true, u := true);
    var base := PgRoundUp(oldsz);
    var a := base;
    ghost var mem0, own0, lo, hi := m.mem, m.own, Pages(oldsz), Pages(newsz);
    ghost var v, picked := lo, From(lo);
    GrownNothing(mem0, own0, root, lo);
    AllMappedNone(mem0, root, lo, perm);
    NeedStart(picked, mem0, own0, root, lo, |m.free|);
    while a < newsz
      invariant m.Valid() && IsRoot(m.own, root)
      invariant a == 4096 * v && lo <= v <= hi
      invariant Grown(mem0, own0, m.mem, m.own, root, lo, v)
      invariant AllMapped(m.mem, root, lo, v, perm)
      invariant NeedState(picked, mem0, own0, m.mem, m.own, root, v, |old(m.free)|, |m.free|)
      decreases hi - v
    {
      ghost var mem1, own1, free1 := m.mem, m.own, |m.free|;
      GrownLookup(mem0, own0, mem1, own1, root, lo, v, v);
      var pn := MapFresh(m, root, a, Fill(0), perm);
      if pn == 0 {
        GrownTrans(mem0, own0, mem1, own1, m.mem, m.own, root, lo, v, v);
        NeedShort(picked, mem0, own0, mem1, own1, m.mem, m.own, root, lo, v, hi, |old(m.free)|, free1);
        UndoAlloc(m, root, a, base, mem0, own0);
        GainedOnly(mem0, own0, m.mem, m.own, root, lo);
        return 0;
      }
      AllMappedNext(mem1, own1, m.mem, m.own, root, lo, v, perm);
      GrownTrans(mem0, own0, mem1, own1, m.mem, m.own, root, lo, v, v + 1);
      FreshValid(m.mem, root, v, perm);
      NeedMore(picked, mem0, own0, mem1, own1, m.mem, m.own, root, lo, v, |old(m.free)|, free1, |m.free|);
      a, v := a + 4096, v + 1;
    }
    NeedDone(picked, mem0, own0, m.mem, m.own, root, v, |old(m.free)|, |m.free|);
    return newsz;
  }

  lemma FreshValid(mem: Mem, root: nat, v: nat, perm: Flags)
    requires MappedTo(mem, root, v, perm, Fill(0))
    ensures Lookup(mem, root, v).f.v
  {
  }

  /** The failure path of uvmalloc: unmaps [base, a), which was unmapped in mem0. */
  method UndoAlloc(m: Machine, root: nat, a: nat, base: nat, ghost mem0: Mem, ghost own0: Owners)
    requires m.Valid() && PtInv(mem0, own0) && IsRoot(own0, root) && IsRoot(m.own, root)
    requires base % 4096 == 0 && a % 4096 == 0 && base <= a <= USYSCALL
    requires Grown(mem0, own0, m.mem, m.own, root, base / 4096, a / 4096)
    requires forall v: nat | base / 4096 <= v < a / 4096 :: !Lookup(mem0, root, v).f.v
    modifies m
    ensures m.Valid() && IsRoot(m.own, root)
    ensures Grown(mem0, own0, m.mem, m.own, root, base / 4096, base / 4096)
    ensures GainedTable(own0, m.own, root) <==> GainedTable(own0, old(m.own), root)
  {
    hide PtInv, Lookup, Grown, Unmapped, GainedTable;
    ghost var mem2, own2 := m.mem, m.own;
    ZeroLeaves(mem0, own0, root, base / 4096, a / 4096);
    var _ := UvmDealloc(m, root, a, base);
    if base < a {
      GrownUndone(mem0, own0, mem2, own2, m.mem, m.own, root, base / 4096, a / 4096);
      GrownKeeps(mem0, own0, mem2, own2, root, base / 4096, a / 4096);
      TablesStay(own0, mem2, own2, m.mem, m.own, root, base / 4096, a / 4096);
    }
  }

  lemma AllMappedNone(mem: Mem, root: nat, lo: nat, perm: Flags)
    ensures AllMapped(mem, root, lo, lo, perm)
  {
  }

  lemma GrownLookup(mem: Mem, own: Owners, mem': Mem, own': Owners, root: nat, lo: nat, hi: nat, w: nat)
    requires Grown(mem, own, mem', own', root, lo, hi) && IsRoot(own, root) && !(lo <= w < hi)
    ensures Lookup(mem', root, w) == Lookup(mem, root, w)
  {
  }

  lemma ZeroLeaves(mem: Mem, own: Owners, root: nat, lo: nat, hi: nat)
    requires PtInv(mem, own) && IsRoot(own, root)
    requires forall v: nat | lo <= v < hi :: !Lookup(mem, root, v).f.v
    ensures forall v: nat | lo <= v < hi :: Lookup(mem, root, v) == ZERO
  {
    forall v: nat | lo <= v < hi ensures Lookup(mem, root, v) == ZERO {
      LeafOwner(mem, own, root, I2(v), I1(v), I0(v));
    }
  }

  /**
   uvmdealloc: unmaps and frees the pages that oldsz has beyond newsz. When newsz is not
   smaller (as after a 64-bit wrap of sz + n) nothing happens.
   */
  method UvmDealloc(m: Machine, root: nat, oldsz: nat, newsz: nat) returns (r: nat)
    requires m.Valid() && IsRoot(m.own, root) && oldsz <= USYSCALL
    modifies m
    ensures m.Valid() && IsRoot(m.own, root)
    ensures newsz >= oldsz ==> r == oldsz && unchanged(m)
    ensures newsz < oldsz ==>
              && r == newsz
              && Unmapped(old(m.mem), old(m.own), m.mem, m.own, root, Pages(newsz), Pages(oldsz))
    ensures |old(m.free)| <= |m.free|
  {
    hide PtInv, Lookup, Unmapped;
    if newsz >= oldsz {
      return oldsz;
    }
    if PgRoundUp(newsz) < PgRoundUp(oldsz) {
      var npages := (PgRoundUp(oldsz) - PgRoundUp(newsz)) / 4096;
      UvmUnmap(m, root, PgRoundUp(newsz), npages, true);
    } else {
      UnmapNothing(m.mem, m.own, root, Pages(newsz));
    }
    return newsz;
  }

  // ------------------------------------------------------------------ faults

  /** ismapped: whether va's page has a valid PTE. */
  method IsMapped(m: Machine, root: nat, va: nat) returns (b: bool)
    requires m.Valid() && IsRoot(m.own, root)
    requires va < MAXVA  // otherwise panic("walk")
    modifies m
    ensures unchanged(m)
    ensures b <==> Lookup(m.mem, root, va / 4096).f.v
  {
    var pte := Walk(m, root, va, false);
    if pte.Null? {
      return false;
    }
    return Slot(m.mem, pte.page, pte.idx).f.v;
  }

  /**
   vmfault: maps a page of zeros at a virtual page below psz that has none; 0 when va is
   out of range or mapped already, or when memory ran out.
   */
  method VmFault(m: Machine, root: nat, psz: nat, va: nat) returns (pn: nat)
    requires m.Valid() && IsRoot(m.own, root) && psz <= USYSCALL
    modifies m
    ensures m.Valid() && IsRoot(m.own, root)
    ensures va >= psz || Lookup(old(m.mem), root, va / 4096).f.v ==> pn == 0 && unchanged(m)
    ensures va < psz && !Lookup(old(m.mem), root, va / 4096).f.v ==>
              (pn != 0 <==> Missing(old(m.mem), root, va / 4096) < |old(m.free)|)
    ensures pn != 0 ==>
              && MappedTo(m.mem, root, va / 4096, RWU, Fill(0))
              && Lookup(m.mem, root, va / 4096).ppn == pn
    ensures Grown(old(m.mem), old(m.own), m.mem, m.own, root, va / 4096, va / 4096 + if pn == 0 then 0 else 1)
    ensures |m.free| <= |old(m.free)| <= |m.free| + 3
  {
    hide PtInv, Lookup, Grown;
    GrownNothing(m.mem, m.own, root, va / 4096);
    if va >= psz {
      return 0;
    }
    var page := PgRoundDown(va);
    var mapped := IsMapped(m, root, page);
    if mapped {
      return 0;
    }
    pn := MapFresh(m, root, page, Fill(0), RWU);
  }

  // ----------------------------------------------------------------- copying

  /**
   Virtual page w of child is a copy of page w of parent: the same PTE bits and the same
   bytes on a page of its own, or no mapping when the parent has none.
   */
  ghost predicate CopyOf(mem: Mem, parent: nat, mem': Mem, child: nat, w: nat) {
    var e := Lookup(mem, parent, w);
    if e.f.v then MappedTo(mem', child, w, e.f, BytesOf(mem, e.ppn))
    else Lookup(mem', child, w) == ZERO
  }

  ghost predicate Copied(mem: Mem, parent: nat, mem': Mem, child: nat, n: nat) {
    forall w: nat | w < n :: CopyOf(mem, parent, mem', child, w)
  }

  /** One more page copied, while the parent is still what it was at the start. */
  lemma CopiedNext(mem0: Mem, own0: Owners, mem: Mem, own: Owners, mem': Mem, own': Owners,
                   parent: nat, child: nat, v: nat)
    requires PtInv(mem0, own0) && IsRoot(own0, parent) && parent != child
    requires PtInv(mem, own) && IsRoot(own, child) && v < USYS_VPN
    requires Grown(mem0, own0, mem, own, child, 0, v) && Grown(mem, own, mem', own', child, v, v + 1)
    requires Copied(mem0, parent, mem, child, v) && CopyOf(mem, parent, mem', child, v)
    ensures Copied(mem0, parent, mem', child, v + 1)
  {
    ParentKept(mem0, own0, mem, own, parent, child, v, v);
    assert CopyOf(mem0, parent, mem', child, v) by {
      hide PtInv, Grown, Lookup, MappedTo;
    }
    hide PtInv, Grown, Lookup, CopyOf;
    forall w: nat | w < v ensures CopyOf(mem0, parent, mem', child, w) {
      CopyKept(mem0, mem, own, mem', own', parent, child, v, w);
    }
  }

  lemma CopyKept(mem0: Mem, mem: Mem, own: Owners, mem': Mem, own': Owners, parent: nat, child: nat, v: nat, w: nat)
    requires PtInv(mem, own) && IsRoot(own, child) && w < v < USYS_VPN
    requires Grown(mem, own, mem', own', child, v, v + 1)
    requires CopyOf(mem0, parent, mem, child, w)
    ensures CopyOf(mem0, parent, mem', child, w)
  {
    hide PtInv, Grown, Lookup;
    var e := Lookup(mem0, parent, w);
    if e.f.v {
      GrownMapped(mem, own, mem', own', child, v, v + 1, w, e.f, BytesOf(mem0, e.ppn));
    } else {
      GrownLookup(mem, own, mem', own', child, v, v + 1, w);
    }
  }

  lemma ParentKept(mem: Mem, own: Owners, mem': Mem, own': Owners, parent: nat, child: nat, k: nat, v: nat)
    requires PtInv(mem, own) && IsRoot(own, parent) && parent != child && v < USYS_VPN
    requires Grown(mem, own, mem', own', child, 0, k)
    ensures Lookup(mem', parent, v) == Lookup(mem, parent, v)
    ensures var e := Lookup(mem, parent, v);
            e.f.v ==> BytesOf(mem', e.ppn) == BytesOf(mem, e.ppn)
  {
    UserLeaf(mem, own, parent, v);
    hide Lookup;
  }

  /**
   uvmcopy: copies the mapped pages below sz of one process into the empty tree of
   another. It succeeds exactly when the free pages cover what the copy takes. On failure the
   child's pages are freed and only its tables remain: some do exactly when the copy got as
   far as making one.
   */
  method UvmCopy(m: Machine, parent: nat, child: nat, sz: nat) returns (r: int)
    requires m.Valid() && IsRoot(m.own, parent) && IsRoot(m.own, child) && parent != child
    requires sz <= USYSCALL
    requires forall v: nat | v < Pages(sz) :: !Lookup(m.mem, child, v).f.v
    modifies m
    ensures m.Valid() && IsRoot(m.own, child)
    ensures r == 0 || r == -1
    ensures r == 0 ==>
              && Grown(old(m.mem), old(m.own), m.mem, m.own, child, 0, Pages(sz))
              && Copied(old(m.mem), parent, m.mem, child, Pages(sz))
    ensures r == -1 ==> Grown(old(m.mem), old(m.own), m.mem, m.own, child, 0, 0)
    ensures r == 0 <==> MapNeed(MappedIn(old(m.mem), parent), MissingIn(old(m.mem), child), Pages(sz)) <= |old(m.free)|
    ensures r == 0 ==> |m.free| == |old(m.free)|
                       - MapNeed(MappedIn(old(m.mem), parent), MissingIn(old(m.mem), child), Pages(sz))
    ensures r == -1 ==>
              var missing := MissingIn(old(m.mem), child);
              m.own != old(m.own) <==> MakesTable(MappedIn(old(m.mem), parent), missing, Pages(sz), |old(m.free)|)
  {
    hide PtInv, Lookup, Grown, Copied, CopyOf, Missing, GainedTable, GainedFor, MapNeed, MakesTable, NeedState;
    assert m.mem.Keys == m.own.Keys;
    hide FreeOk;
    ghost var mem0, own0, k := m.mem, m.own, 0;
    var i := 0;
    GrownNothing(mem0, own0, child, 0);
    CopiedNone(mem0, parent, m.mem, child);
    ZeroLeaves(mem0, own0, child, 0, Pages(sz));
    ghost var picked := MappedIn(mem0, parent);
    NeedStart(picked, mem0, own0, child, 0, |m.free|);
    while i < sz
      invariant m.Valid() && IsRoot(m.own, child) && IsRoot(m.own, parent)
      invariant i == 4096 * k && k <= Pages(sz)
      invariant Grown(mem0, own0, m.mem, m.own, child, 0, k)
      invariant Copied(mem0, parent, m.mem, child, k)
      invariant NeedState(picked, mem0, own0, m.mem, m.own, child, k, |old(m.free)|, |m.free|)
      decreases Pages(sz) - k
    {
      ghost var mem1, own1, free1 := m.mem, m.own, |m.free|;
      GrownLookup(mem0, own0, mem1, own1, child, 0, k, k);
      ParentLookup(mem0, own0, mem1, own1, parent, child, k);
      var ok := CopyPage(m, parent, child, i);
      if !ok {
        GrownTrans(mem0, own0, mem1, own1, m.mem, m.own, child, 0, k, k);
        NeedShort(picked, mem0, own0, mem1, own1, m.mem, m.own, child, 0, k, Pages(sz), |old(m.free)|, free1);
        UndoCopy(m, child, i / 4096, mem0, own0);
        GainedOnly(mem0, own0, m.mem, m.own, child, 0);
        return -1;
      }
      CopiedNext(mem0, own0, mem1, own1, m.mem, m.own, parent, child, k);
      GrownTrans(mem0, own0, mem1, own1, m.mem, m.own, child, 0, k, k + 1);
      NeedMore(picked, mem0, own0, mem1, own1, m.mem, m.own, child, 0, k, |old(m.free)|, free1, |m.free|);
      i, k := i + 4096, k + 1;
    }
    NeedDone(picked, mem0, own0, m.mem, m.own, child, k, |old(m.free)|, |m.free|);
    return 0;
  }

  lemma ParentLookup(mem: Mem, own: Owners, mem1: Mem, own1: Owners, parent: nat, child: nat, k: nat)
    requires Grown(mem, own, mem1, own1, child, 0, k) && IsRoot(own, parent) && parent != child
    ensures Lookup(mem1, parent, k) == Lookup(mem, parent, k)
  {
  }

  /** When growing has left no page behind, a table is all that can have changed. */
  lemma GainedOnly(mem: Mem, own: Owners, mem': Mem, own': Owners, root: nat, lo: nat)
    requires Grown(mem, own, mem', own', root, lo, lo)
    ensures own' != own <==> GainedTable(own, own', root)
  {
    hide Lookup;
    if p :| p in own && own[p].Free? && MyTable(own', p, root) {
      assert own'[p] != own[p];
    }
    if !GainedTable(own, own', root) {
      forall p | p in own ensures own'[p] == own[p] {
        assert !(own[p].Free? && MyTable(own', p, root));
      }
      assert own' == own;
    }
  }

  /** The tables of a child of allocproc serve the topmost 512 pages alone. */
  lemma FreshLacks(u: nat)
    requires u < NVPN
    ensures FreshMissing(u) == 0 <==> NVPN - 512 <= u
  {
    assert u / 0x4_0000 == u / 0x200 / 512;
    TopTable(u / 0x200);
    assert NVPN - 512 <= u <==> 0x1_FFFF <= u / 0x200;
  }

  /** The last of the 2^17 tables of the lower half. */
  lemma TopTable(q: nat)
    requires q < 0x2_0000
    ensures q / 512 == 255 && q % 512 == 511 <==> q == 0x1_FFFF
  {
  }

  /**
   Tables do remain. A machine with seven pages: a tree with one page at address 0 takes four
   of them, and an empty tree one. With the two that are left uvmcopy takes a page and the
   first of two tables, fails, and gives back the page alone.
   */
  method TablesRemain() returns (m: Machine, child: nat, r: int, ghost before: Owners)
    ensures m.Valid() && r == -1 && child != 0
    ensures before.Keys == m.own.Keys && m.own != before && GainedTable(before, m.own, child)
  {
    hide PtInv, Lookup, FreeOk, Grown, Copied, Missing, GainedTable, GainedFor;
    m := new Machine(PHYSTOP - 7 * 4096);
    ghost var mem0, own0 := m.mem, m.own;
    var parent := UvmCreate(m, 0);
    ghost var mem1, own1 := m.mem, m.own;
    var pn := MapFresh(m, parent, 0, Fill(0), RWU);
    ghost var mem2, own2 := m.mem, m.own;
    GrownKeeps(mem1, own1, mem2, own2, parent, 0, 1);
    child := UvmCreate(m, 1);
    OtherRoot(mem2, own2, m.mem, m.own, parent, child, pn);
    before := m.own;
    ghost var mem3, free3 := m.mem, |m.free|;
    r := UvmCopy(m, parent, child, 4096);
    OnePage(mem3, parent, child, 2);
    if r == -1 {
      GainedOnly(mem3, before, m.mem, m.own, child, 0);
      GrownKeeps(mem3, before, m.mem, m.own, child, 0, 0);
    }
  }

  /** The tree made first is as it was when another has been made. */
  lemma OtherRoot(mem: Mem, own: Owners, mem': Mem, own': Owners, parent: nat, child: nat, pn: nat)
    requires IsRoot(own, parent) && Moved(mem, own, mem', own', child, Free, Node(child, P3, 1))
    requires MappedTo(mem, parent, 0, RWU, Fill(0))
    ensures IsRoot(own', parent) && IsRoot(own', child) && parent != child
    ensures Lookup(mem', parent, 0).f.v
  {
    hide Lookup;
  }

  /** What copying one page into an empty tree takes. */
  lemma OnePage(mem: Mem, parent: nat, child: nat, free: nat)
    requires Lookup(mem, parent, 0).f.v && Missing(mem, child, 0) == 2
    ensures MapNeed(MappedIn(mem, parent), MissingIn(mem, child), 1) == 3
    ensures MakesTable(MappedIn(mem, parent), MissingIn(mem, child), 1, free) <==> free >= 2
  {
    hide Lookup, Missing;
    LacksNow(MappedIn(mem, parent), MissingIn(mem, child), 0, 0);
    FirstPageDecides(MappedIn(mem, parent), MissingIn(mem, child), 1, free, 0);
    MapNeedNext(MappedIn(mem, parent), MissingIn(mem, child), 0);
    hide Lacks;
  }

  /** The failure path of uvmcopy: unmaps the first n pages, which were unmapped in mem0. */
  method UndoCopy(m: Machine, child: nat, n: nat, ghost mem0: Mem, ghost own0: Owners)
    requires m.Valid() && PtInv(mem0, own0) && IsRoot(own0, child) && IsRoot(m.own, child) && n <= USYS_VPN
    requires Grown(mem0, own0, m.mem, m.own, child, 0, n)
    requires forall v: nat | v < n :: Lookup(mem0, child, v) == ZERO
    modifies m
    ensures m.Valid() && IsRoot(m.own, child) && Grown(mem0, own0, m.mem, m.own, child, 0, 0)
    ensures GainedTable(own0, m.own, child) <==> GainedTable(own0, old(m.own), child)
  {
    hide PtInv, Lookup, Grown, Unmapped, FreeOk, GainedTable;
    ghost var mem2, own2 := m.mem, m.own;
    UvmUnmap(m, child, 0, n, true);
    GrownUndone(mem0, own0, mem2, own2, m.mem, m.own, child, 0, n);
    GrownKeeps(mem0, own0, mem2, own2, child, 0, n);
    TablesStay(own0, mem2, own2, m.mem, m.own, child, 0, n);
  }

  /** Unmapping pages takes no table away. */
  lemma TablesStay(own0: Owners, mem: Mem, own: Owners, mem': Mem, own': Owners, root: nat,
                   lo: nat, hi: nat)
    requires Unmapped(mem, own, mem', own', root, lo, hi) && own.Keys == own0.Keys
    ensures GainedTable(own0, own', root) <==> GainedTable(own0, own, root)
  {
    hide Lookup, Vpn;
    if p :| p in own0 && own0[p].Free? && MyTable(own, p, root) {
      assert MyTable(own', p, root);
    }
    if p :| p in own0 && own0[p].Free? && MyTable(own', p, root) {
      assert MyTable(own, p, root);
    }
  }

  /** One round of uvmcopy's loop: page i of the parent, when it is mapped. */
  method CopyPage(m: Machine, parent: nat, child: nat, i: nat) returns (ok: bool)
    requires m.Valid() && IsRoot(m.own, parent) && IsRoot(m.own, child) && parent != child
    requires i % 4096 == 0 && i < USYSCALL && Lookup(m.mem, child, i / 4096) == ZERO
    modifies m
    ensures m.Valid() && IsRoot(m.own, parent) && IsRoot(m.own, child)
    ensures Grown(old(m.mem), old(m.own), m.mem, m.own, child, i / 4096, i / 4096 + if ok then 1 else 0)
    ensures ok ==> CopyOf(old(m.mem), parent, m.mem, child, i / 4096)
    ensures !Lookup(old(m.mem), parent, i / 4096).f.v ==> ok && unchanged(m)
    ensures Lookup(old(m.mem), parent, i / 4096).f.v ==>
              var (missing, free) := (Missing(old(m.mem), child, i / 4096), |old(m.free)|);
              && (ok <==> missing < free)
              && (ok ==> |m.free| == free - 1 - missing && Lookup(m.mem, child, i / 4096).f.v)
              && (GainedTable(old(m.own), m.own, child) <==> missing > 0 && free >= 2)
              && GainedFor(old(m.own), m.own, child, i / 4096)
  {
    hide PtInv, Lookup, Grown, Missing, GainedTable, GainedFor;
    ghost var mem0, own0, v := m.mem, m.own, i / 4096;
    GrownNothing(mem0, own0, child, v);
    GrownWider(mem0, own0, mem0, own0, child, v, v, v + 1);
    UserLeaf(mem0, own0, parent, v);
    var pte := Walk(m, parent, i, false);
    if pte.Null? || !Slot(m.mem, pte.page, pte.idx).f.v {
      return true;
    }
    var e := Slot(m.mem, pte.page, pte.idx);
    var pn := MapFresh(m, child, i, BytesOf(m.mem, e.ppn), e.f);
    GrownKeeps(mem0, own0, m.mem, m.own, child, v, v + if pn == 0 then 0 else 1);
    return pn != 0;
  }

  lemma CopiedNone(mem: Mem, parent: nat, mem': Mem, child: nat)
    ensures Copied(mem, parent, mem', child, 0)
  {
  }

  lemma GrownWider(mem: Mem, own: Owners, mem': Mem, own': Owners, root: nat, lo: nat, hi: nat, hi': nat)
    requires Grown(mem, own, mem', own', root, lo, hi) && hi <= hi'
    ensures Grown(mem, own, mem', own', root, lo, hi')
  {
    hide Lookup;
  }

  /** A copied page has the view of the original, and its physical page was free before. */
  lemma CopyView(mem: Mem, own: Owners, mem': Mem, own': Owners, parent: nat, child: nat, n: nat, w: nat)
    requires PtInv(mem, own) && PtInv(mem', own') && IsRoot(own, child) && IsRoot(own', child)
    requires IsRoot(own, parent)
    requires w < n <= USYS_VPN && forall v: nat | v < n :: !Lookup(mem, child, v).f.v
    requires Grown(mem, own, mem', own', child, 0, n) && Copied(mem, parent, mem', child, n)
    ensures View(mem', child, w) == View(mem, parent, w)
    ensures Lookup(mem', child, w).f == Lookup(mem, parent, w).f
    ensures var p := Lookup(mem', child, w).ppn;
            Lookup(mem', child, w).f.v ==> p in own && own[p].Free?
  {
    assert CopyOf(mem, parent, mem', child, w);
    UserLeaf(mem', own', child, w);
    UserLeaf(mem, own, parent, w);
    NoPages(mem, own, child, 0, n);
    PathInRange(w, 0, n);
    hide Lookup;
  }
}
