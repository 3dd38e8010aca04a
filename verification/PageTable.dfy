/**
 Physical memory as a map from page numbers to pages, the three-level page tables
 stored in it, and the ownership invariant that ties both together.

 Every page of RAM has exactly one owner. A page that belongs to a page table is a
 Node: it records the root of its tree, its position in the tree and the table page
 whose slot points at it. PtInv makes pointers and owners agree in both directions,
 so no table page has two parents and no user page is mapped twice.
 */
module PageTable {
  import opened Riscv

  type byte = b: int | 0 <= b < 256

  /** What a page holds: 512 PTEs, 4096 bytes, or the link of the free list. */
  datatype Page = Table(slots: seq<Pte>) | Data(bytes: seq<byte>) | Run(next: nat)

  type Mem = map<nat, Page>

  /** A position in a tree: the root, a level-1 table, a level-0 table, a user page. */
  datatype Path = P3 | P2(a: nat) | P1(a: nat, b: nat) | P0(a: nat, b: nat, c: nat)

  datatype Owner =
    | Free
    | Held                                       // allocated, not yet linked anywhere
    | Kern                                       // kernel stacks, kernel tables, pipe buffers, ...
    | TrapPage(slot: nat)                        // trapframe of a process slot
    | SysPage(slot: nat)                         // usyscall page of a process slot
    | Node(root: nat, path: Path, parent: nat)   // part of the tree under root

  type Owners = map<nat, Owner>

  /** A page's worth of one byte value: what memset leaves. */
  function Fill(c: byte): (s: seq<byte>)
    ensures |s| == 4096 && forall i | 0 <= i < 4096 :: s[i] == c
  {
    seq(4096, _ => c)
  }

  /** A zeroed page, read as a page table. */
  function EmptyTable(): (pg: Page)
    ensures IsTable(pg) && forall i | 0 <= i < 512 :: pg.slots[i] == ZERO
  {
    Table(seq(512, _ => ZERO))
  }

  predicate IsTable(pg: Page) { pg.Table? && |pg.slots| == 512 }
  predicate IsData(pg: Page) { pg.Data? && |pg.bytes| == PGSIZE }

  // ---------------------------------------------------------------- lookups

  /** The PTE in slot i of table page p; ZERO when there is no such slot. */
  function Slot(mem: Mem, p: nat, i: nat): Pte {
    if p in mem && mem[p].Table? && i < |mem[p].slots| then mem[p].slots[i] else ZERO
  }

  /** The page that a valid slot points at; 0 when the slot is invalid. */
  function Child(mem: Mem, p: nat, i: nat): nat {
    if Slot(mem, p, i).f.v then Slot(mem, p, i).ppn else 0
  }

  /** The level-0 table that translates the pages with upper indices a, b. */
  function LeafTable(mem: Mem, root: nat, a: nat, b: nat): nat {
    Child(mem, Child(mem, root, a), b)
  }

  /** The translation of the page with indices a, b, c; ZERO when a table is missing. */
  function Leaf(mem: Mem, root: nat, a: nat, b: nat, c: nat): Pte {
    Slot(mem, LeafTable(mem, root, a, b), c)
  }

  /** The flat map that a tree stands for: virtual page number to PTE. */
  function Lookup(mem: Mem, root: nat, v: nat): Pte {
    Leaf(mem, root, I2(v), I1(v), I0(v))
  }

  /** The number of tables that are missing on the way from root to the PTE of page v. */
  function Missing(mem: Mem, root: nat, v: nat): (n: nat)
    ensures n <= 2
  {
    if Child(mem, root, I2(v)) == 0 then 2 else if LeafTable(mem, root, I2(v), I1(v)) == 0 then 1 else 0
  }

  // -------------------------------------------------------------- invariant

  function Extend(path: Path, i: nat): Path
    requires !path.P0?
  {
    match path
    case P3 => P2(i)
    case P2(a) => P1(a, i)
    case P1(a, b) => P0(a, b, i)
  }

  function Last(path: Path): nat
    requires !path.P3?
  {
    match path
    case P2(a) => a
    case P1(_, b) => b
    case P0(_, _, c) => c
  }

  /** USYSCALL, TRAPFRAME and TRAMPOLINE: leaves whose pages the tree does not own. */
  predicate Top(path: Path) {
    path.P0? && path.a == 255 && path.b == 511 && 509 <= path.c
  }

  predicate PathOk(path: Path) {
    match path
    case P3 => true
    case P2(a) => a < 256
    case P1(a, b) => a < 256 && b < 512
    case P0(a, b, c) => a < 256 && b < 512 && c < 512
  }

  predicate IsRoot(own: Owners, r: nat) {
    r in own && own[r].Node? && own[r].path.P3? && own[r].root == r
  }

  predicate IsInner(own: Owners, p: nat) {
    p in own && own[p].Node? && (own[p].path.P3? || own[p].path.P2?)
  }

  predicate IsLeafTable(own: Owners, p: nat) {
    p in own && own[p].Node? && own[p].path.P1?
  }

  /** A slot of table page p is zero or the pointer its position asks for. */
  ghost predicate SlotOk(mem: Mem, own: Owners, p: nat, i: nat)
    requires p in own && own[p].Node? && !own[p].path.P0?
  {
    var e := Slot(mem, p, i);
    var child := Extend(own[p].path, i);
    if !e.f.v then e == ZERO
    else if own[p].path.P1? then
      e.f.r && (!Top(child) ==> e.ppn in own && own[e.ppn] == Node(own[p].root, child, p))
    else
      e.f == V && e.ppn in own && own[e.ppn] == Node(own[p].root, child, p)
  }

  /** The parent recorded for node p is a table whose slot points at p. */
  ghost predicate BackOk(mem: Mem, own: Owners, p: nat)
    requires p in own && own[p].Node? && !own[p].path.P3?
  {
    var q := own[p].parent;
    && q in own && own[q].Node? && !own[q].path.P0?
    && own[q].root == own[p].root
    && own[p].path == Extend(own[q].path, Last(own[p].path))
    && !Top(own[p].path)
    && Child(mem, q, Last(own[p].path)) == p
  }

  ghost predicate NodeOk(mem: Mem, own: Owners, p: nat)
    requires p in own && own[p].Node? && p in mem
  {
    && IsRoot(own, own[p].root)
    && PathOk(own[p].path)
    && (if own[p].path.P3? then own[p].root == p else BackOk(mem, own, p))
    && (if own[p].path.P0? then IsData(mem[p])
        else IsTable(mem[p]) && forall i | 0 <= i < 512 :: SlotOk(mem, own, p, i))
  }

  ghost predicate PtInv(mem: Mem, own: Owners) {
    && mem.Keys == own.Keys
    && 0 !in own
    && forall p | p in own && own[p].Node? :: NodeOk(mem, own, p)
  }

  // --------------------------------------------------- structure of a tree

  /** The tables on the way to (a, b) are exactly the nodes with those paths. */
  lemma Tables(mem: Mem, own: Owners, r: nat, a: nat, b: nat)
    requires PtInv(mem, own) && IsRoot(own, r)
    ensures var m := Child(mem, r, a);
            m != 0 ==> m in own && own[m] == Node(r, P2(a), r)
    ensures var m, t := Child(mem, r, a), LeafTable(mem, r, a, b);
            t != 0 ==> m != 0 && t in own && own[t] == Node(r, P1(a, b), m)
  {
    assert a < 512 ==> SlotOk(mem, own, r, a);
    var m := Child(mem, r, a);
    if m != 0 {
      assert b < 512 ==> SlotOk(mem, own, m, b);
    }
  }

  /** The upper half of a root stays empty: no address below MAXVA leads there. */
  lemma UpperHalfEmpty(mem: Mem, own: Owners, r: nat, i: nat)
    requires PtInv(mem, own) && IsRoot(own, r) && 256 <= i < 512
    ensures Slot(mem, r, i) == ZERO
  {
    forall q | q in own && own[q].Node? ensures PathOk(own[q].path) {
      assert NodeOk(mem, own, q);
    }
    assert SlotOk(mem, own, r, i);
  }

  /** Every table node is reached from its root along its path. */
  lemma Reached(mem: Mem, own: Owners, p: nat)
    requires PtInv(mem, own) && p in own && own[p].Node?
    ensures match own[p].path
            case P3 => IsRoot(own, p)
            case P2(a) => Child(mem, own[p].root, a) == p
            case P1(a, b) => LeafTable(mem, own[p].root, a, b) == p
            case P0(a, b, c) =>
              && Leaf(mem, own[p].root, a, b, c).f.v
              && Leaf(mem, own[p].root, a, b, c).ppn == p
  {
    assert NodeOk(mem, own, p);
    if !own[p].path.P3? {
      var q := own[p].parent;
      assert NodeOk(mem, own, q);
      if !own[q].path.P3? {
        var s := own[q].parent;
        assert NodeOk(mem, own, s);
        if !own[s].path.P3? {
          assert NodeOk(mem, own, own[s].parent);
        }
      }
    }
  }

  /** A user page's owner is its mapping, and a mapping owns its page. */
  lemma LeafOwner(mem: Mem, own: Owners, r: nat, a: nat, b: nat, c: nat)
    requires PtInv(mem, own) && IsRoot(own, r)
    ensures var e := Leaf(mem, r, a, b, c);
            if !e.f.v then e == ZERO
            else && PathOk(P0(a, b, c)) && e.f.r
                      && (!Top(P0(a, b, c)) ==>
                            && e.ppn in own
                            && own[e.ppn] == Node(r, P0(a, b, c), LeafTable(mem, r, a, b))
                            && IsData(mem[e.ppn]))
  {
    Tables(mem, own, r, a, b);
    var t := LeafTable(mem, r, a, b);
    if t != 0 {
      assert NodeOk(mem, own, t);
      assert c < 512 ==> SlotOk(mem, own, t, c);
    }
  }

  // ------------------------------------------------------------ transitions

  /** Every table page other than p holds the same slots in both memories. */
  ghost predicate TablesSameBut(mem: Mem, own: Owners, mem': Mem, p: nat) {
    forall q | q in own && own[q].Node? && !own[q].path.P0? && q != p && q in mem ::
      q in mem' && mem'[q] == mem[q]
  }

  /** The translations under every root are the same in both memories. */
  ghost predicate SameLookups(mem: Mem, own: Owners, mem': Mem) {
    forall r, a, b, c :: IsRoot(own, r) ==> Leaf(mem', r, a, b, c) == Leaf(mem, r, a, b, c)
  }

  lemma TablesSame(mem: Mem, own: Owners, mem': Mem, r: nat, a: nat, b: nat, c: nat)
    requires PtInv(mem, own) && IsRoot(own, r)
    requires forall q | q in own && own[q].Node? && own[q].root == r && !own[q].path.P0? ::
               q in mem' && mem'[q] == mem[q]
    requires 0 !in mem'
    ensures Child(mem', r, a) == Child(mem, r, a)
    ensures LeafTable(mem', r, a, b) == LeafTable(mem, r, a, b)
    ensures Leaf(mem', r, a, b, c) == Leaf(mem, r, a, b, c)
  {
    Tables(mem, own, r, a, b);
  }

  /** A page that no tree owns may change its content and its owner freely. */
  lemma Retype(mem: Mem, own: Owners, p: nat, pg: Page, o: Owner)
    requires PtInv(mem, own) && p in own && !own[p].Node? && !o.Node?
    ensures PtInv(mem[p := pg], own[p := o])
    ensures SameLookups(mem, own, mem[p := pg])
  {
    var mem', own' := mem[p := pg], own[p := o];
    forall q | q in own' && own'[q].Node?
      ensures NodeOk(mem', own', q)
    {
      assert NodeOk(mem, own, q);
      if !own[q].path.P0? {
        forall i | 0 <= i < 512 ensures SlotOk(mem', own', q, i) {
          assert SlotOk(mem, own, q, i);
        }
      }
    }
    forall r, a, b, c | IsRoot(own, r) ensures Leaf(mem', r, a, b, c) == Leaf(mem, r, a, b, c) {
      TablesSame(mem, own, mem', r, a, b, c);
    }
  }

  /** Memory after writing e to slot i of table page p. */
  function WithSlot(mem: Mem, p: nat, i: nat, e: Pte): Mem
    requires p in mem && IsTable(mem[p]) && i < 512
  {
    mem[p := Table(mem[p].slots[i := e])]
  }

  /** Writing one slot of a level-0 table changes the translation of one page only. */
  lemma LeafSet(mem: Mem, own: Owners, p: nat, i: nat, e: Pte, mem': Mem)
    requires PtInv(mem, own) && IsLeafTable(own, p) && i < 512
    requires TablesSameBut(mem, own, mem', p) && 0 !in mem'
    requires p in mem' && mem'[p] == Table(mem[p].slots[i := e])
    ensures forall r, a, b, c :: IsRoot(own, r) ==>
              Leaf(mem', r, a, b, c) ==
              if r == own[p].root && P0(a, b, c) == Extend(own[p].path, i) then e
              else Leaf(mem, r, a, b, c)
  {
    forall r, a, b, c | IsRoot(own, r)
      ensures Leaf(mem', r, a, b, c) ==
              if r == own[p].root && P0(a, b, c) == Extend(own[p].path, i) then e
              else Leaf(mem, r, a, b, c)
    {
      Tables(mem, own, r, a, b);
      Reached(mem, own, p);
      assert NodeOk(mem, own, p);
    }
  }

  /** Linking a zeroed page as a table below an invalid slot translates nothing new. */
  lemma LinkTable(mem: Mem, own: Owners, p: nat, i: nat, q: nat)
    requires PtInv(mem, own) && IsInner(own, p) && i < 512
    requires own[p].path.P3? ==> i < 256
    requires !Slot(mem, p, i).f.v
    requires q in own && !own[q].Node? && mem[q] == EmptyTable()
    ensures IsTable(mem[p])
    ensures var mem' := WithSlot(mem, p, i, Pte(q, V));
            var own' := own[q := Node(own[p].root, Extend(own[p].path, i), p)];
            PtInv(mem', own')
  {
    assert NodeOk(mem, own, p);
    assert IsTable(mem[p]);
    var mem' := WithSlot(mem, p, i, Pte(q, V));
    var own' := own[q := Node(own[p].root, Extend(own[p].path, i), p)];
    forall t | t in own && own[t].Node? ensures NodeOk(mem', own', t) {
      assert NodeOk(mem, own, t);
      hide NodeOk, SlotOk;
      LinkTableNode(mem, own, p, i, q, t);
    }
    hide SlotOk;
    LinkTableOwn(mem, own, p, i, q);
  }

  lemma LinkTableNode(mem: Mem, own: Owners, p: nat, i: nat, q: nat, t: nat)
    requires mem.Keys == own.Keys && 0 !in own && IsInner(own, p) && i < 512 && IsTable(mem[p])
    requires !Slot(mem, p, i).f.v && q in own && !own[q].Node? && mem[q] == EmptyTable()
    requires t in own && own[t].Node? && NodeOk(mem, own, t)
    ensures NodeOk(WithSlot(mem, p, i, Pte(q, V)), own[q := Node(own[p].root, Extend(own[p].path, i), p)], t)
  {
    var mem' := WithSlot(mem, p, i, Pte(q, V));
    var own' := own[q := Node(own[p].root, Extend(own[p].path, i), p)];
    if !own[t].path.P0? {
      forall j | 0 <= j < 512 ensures SlotOk(mem', own', t, j) {
        assert SlotOk(mem, own, t, j);
      }
    }
  }

  lemma LinkTableOwn(mem: Mem, own: Owners, p: nat, i: nat, q: nat)
    requires mem.Keys == own.Keys && 0 !in own && IsInner(own, p) && i < 512 && IsTable(mem[p])
    requires own[p].path.P3? ==> i < 256
    requires q in own && !own[q].Node? && mem[q] == EmptyTable() && NodeOk(mem, own, p)
    ensures NodeOk(WithSlot(mem, p, i, Pte(q, V)), own[q := Node(own[p].root, Extend(own[p].path, i), p)], q)
  {
    var mem' := WithSlot(mem, p, i, Pte(q, V));
    var own' := own[q := Node(own[p].root, Extend(own[p].path, i), p)];
    forall j | 0 <= j < 512 ensures SlotOk(mem', own', q, j) {
      assert Slot(mem', q, j) == ZERO;
    }
  }

  lemma LinkTableLookups(mem: Mem, own: Owners, p: nat, i: nat, q: nat)
    requires PtInv(mem, own) && IsInner(own, p) && i < 512
    requires !Slot(mem, p, i).f.v
    requires q in own && !own[q].Node? && mem[q] == EmptyTable()
    ensures IsTable(mem[p])
    ensures SameLookups(mem, own, WithSlot(mem, p, i, Pte(q, V)))
  {
    assert NodeOk(mem, own, p);
    var mem' := WithSlot(mem, p, i, Pte(q, V));
    forall r, a, b, c | IsRoot(own, r) ensures Leaf(mem', r, a, b, c) == Leaf(mem, r, a, b, c) {
      Tables(mem, own, r, a, b);
      Reached(mem, own, p);
    }
  }

  /** Mapping a page that no tree owns at an invalid leaf. */
  lemma LinkLeaf(mem: Mem, own: Owners, p: nat, i: nat, e: Pte)
    requires PtInv(mem, own) && IsLeafTable(own, p) && i < 512
    requires !Slot(mem, p, i).f.v && e.f.v && e.f.r
    requires !Top(Extend(own[p].path, i))
    requires e.ppn in own && !own[e.ppn].Node? && IsData(mem[e.ppn])
    ensures IsTable(mem[p])
    ensures PtInv(WithSlot(mem, p, i, e), own[e.ppn := Node(own[p].root, Extend(own[p].path, i), p)])
  {
    assert NodeOk(mem, own, p);
    assert IsTable(mem[p]);
    var mem' := WithSlot(mem, p, i, e);
    var own' := own[e.ppn := Node(own[p].root, Extend(own[p].path, i), p)];
    forall t | t in own && own[t].Node? ensures NodeOk(mem', own', t) {
      assert NodeOk(mem, own, t);
      hide NodeOk, SlotOk;
      LinkLeafNode(mem, own, p, i, e, t);
    }
    hide SlotOk;
    LinkLeafOwn(mem, own, p, i, e);
  }

  lemma LinkLeafNode(mem: Mem, own: Owners, p: nat, i: nat, e: Pte, t: nat)
    requires mem.Keys == own.Keys && 0 !in own && IsLeafTable(own, p) && i < 512 && IsTable(mem[p])
    requires !Slot(mem, p, i).f.v && e.f.v && e.f.r && !Top(Extend(own[p].path, i))
    requires e.ppn in own && !own[e.ppn].Node?
    requires t in own && own[t].Node? && NodeOk(mem, own, t)
    ensures NodeOk(WithSlot(mem, p, i, e), own[e.ppn := Node(own[p].root, Extend(own[p].path, i), p)], t)
  {
    var mem' := WithSlot(mem, p, i, e);
    var own' := own[e.ppn := Node(own[p].root, Extend(own[p].path, i), p)];
    if !own[t].path.P0? {
      forall j | 0 <= j < 512 ensures SlotOk(mem', own', t, j) {
        assert SlotOk(mem, own, t, j);
      }
    }
  }

  lemma LinkLeafOwn(mem: Mem, own: Owners, p: nat, i: nat, e: Pte)
    requires mem.Keys == own.Keys && IsLeafTable(own, p) && i < 512 && IsTable(mem[p])
    requires e.f.v && e.f.r && !Top(Extend(own[p].path, i)) && NodeOk(mem, own, p)
    requires e.ppn in own && !own[e.ppn].Node? && IsData(mem[e.ppn]) && e.ppn != 0
    ensures NodeOk(WithSlot(mem, p, i, e), own[e.ppn := Node(own[p].root, Extend(own[p].path, i), p)], e.ppn)
  {
  }

  /** Rewriting a leaf without changing who owns what: a top page, or the bits of a mapped page. */
  lemma Rewrite(mem: Mem, own: Owners, p: nat, i: nat, e: Pte)
    requires PtInv(mem, own) && IsLeafTable(own, p) && i < 512
    requires if e.f.v then e.f.r else e == ZERO
    requires Top(Extend(own[p].path, i)) || (Slot(mem, p, i).f.v && e.f.v && e.ppn == Slot(mem, p, i).ppn)
    ensures IsTable(mem[p])
    ensures PtInv(WithSlot(mem, p, i, e), own)
  {
    assert NodeOk(mem, own, p);
    var mem' := WithSlot(mem, p, i, e);
    forall t | t in own && own[t].Node?
      ensures NodeOk(mem', own, t)
    {
      assert NodeOk(mem, own, t);
      if !own[t].path.P0? {
        forall j | 0 <= j < 512 ensures SlotOk(mem', own, t, j) {
          assert SlotOk(mem, own, t, j);
        }
      }
    }
  }

  /** Clearing a leaf whose page has been given to owner o. */
  lemma UnlinkLeaf(mem: Mem, own: Owners, p: nat, i: nat, pg: Page, o: Owner)
    requires PtInv(mem, own) && IsLeafTable(own, p) && i < 512
    requires Slot(mem, p, i).f.v && !o.Node? && !Top(Extend(own[p].path, i))
    ensures IsTable(mem[p])
    ensures var q := Slot(mem, p, i).ppn;
            && q in mem && q != p
            && PtInv(WithSlot(mem[q := pg], p, i, ZERO), own[q := o])
  {
    assert NodeOk(mem, own, p);
    assert SlotOk(mem, own, p, i);
    var q := Slot(mem, p, i).ppn;
    var mem', own' := WithSlot(mem[q := pg], p, i, ZERO), own[q := o];
    forall t | t in own' && own'[t].Node? ensures NodeOk(mem', own', t) {
      assert NodeOk(mem, own, t);
      hide NodeOk, SlotOk;
      UnlinkLeafNode(mem, own, p, i, q, pg, o, t);
    }
  }

  lemma UnlinkLeafNode(mem: Mem, own: Owners, p: nat, i: nat, q: nat, pg: Page, o: Owner, t: nat)
    requires mem.Keys == own.Keys && 0 !in own && IsLeafTable(own, p) && i < 512 && IsTable(mem[p])
    requires q in own && q != p && own[q] == Node(own[p].root, Extend(own[p].path, i), p) && !o.Node?
    requires Slot(mem, p, i).f.v && Slot(mem, p, i).ppn == q
    requires t in own && t != q && own[t].Node? && NodeOk(mem, own, t)
    ensures NodeOk(WithSlot(mem[q := pg], p, i, ZERO), own[q := o], t)
  {
    var mem', own' := WithSlot(mem[q := pg], p, i, ZERO), own[q := o];
    if !own[t].path.P0? {
      forall j | 0 <= j < 512 ensures SlotOk(mem', own', t, j) {
        assert SlotOk(mem, own, t, j);
      }
    }
  }

  /** Overwriting the bytes of a user page. */
  lemma DataWrite(mem: Mem, own: Owners, q: nat, bytes: seq<byte>)
    requires PtInv(mem, own) && q in own && own[q].Node? && own[q].path.P0? && |bytes| == PGSIZE
    ensures PtInv(mem[q := Data(bytes)], own)
    ensures SameLookups(mem, own, mem[q := Data(bytes)])
  {
    var mem' := mem[q := Data(bytes)];
    forall t | t in own && own[t].Node?
      ensures NodeOk(mem', own, t)
    {
      assert NodeOk(mem, own, t);
      if !own[t].path.P0? {
        forall j | 0 <= j < 512 ensures SlotOk(mem', own, t, j) {
          assert SlotOk(mem, own, t, j);
        }
      }
    }
    forall r, a, b, c | IsRoot(own, r) ensures Leaf(mem', r, a, b, c) == Leaf(mem, r, a, b, c) {
      TablesSame(mem, own, mem', r, a, b, c);
    }
  }

  /** A zeroed page becomes the root of an empty tree. */
  lemma NewRoot(mem: Mem, own: Owners, q: nat, slot: nat)
    requires PtInv(mem, own) && q in own && !own[q].Node? && mem[q] == EmptyTable()
    ensures PtInv(mem, own[q := Node(q, P3, slot)])
    ensures forall a, b, c :: Leaf(mem, q, a, b, c) == ZERO
  {
    var own' := own[q := Node(q, P3, slot)];
    forall t | t in own' && own'[t].Node?
      ensures NodeOk(mem, own', t)
    {
      if t != q {
        assert NodeOk(mem, own, t);
        if !own[t].path.P0? {
          forall j | 0 <= j < 512 ensures SlotOk(mem, own', t, j) {
            assert SlotOk(mem, own, t, j);
          }
        }
      }
    }
  }

  /**
   Removing a table whose slots are all invalid: the slot of its parent is cleared and
   the page goes to owner o. The root has no parent slot and must be its tree's last node.
   */
  lemma UnlinkTable(mem: Mem, own: Owners, q: nat, pg: Page, o: Owner)
    requires PtInv(mem, own) && q in own && own[q].Node? && !own[q].path.P0? && !o.Node?
    requires forall i | 0 <= i < 512 :: !Slot(mem, q, i).f.v
    requires own[q].path.P3? ==> forall t | t in own && own[t].Node? && own[t].root == q :: t == q
    ensures PtInv(Detached(mem, own, q)[q := pg], own[q := o])
  {
    var mem', own' := Detached(mem, own, q)[q := pg], own[q := o];
    assert NodeOk(mem, own, q);
    forall t | t in own' && own'[t].Node? ensures NodeOk(mem', own', t) {
      assert NodeOk(mem, own, t);
      assert own[q].path.P3? || NodeOk(mem, own, own[q].parent);
      hide NodeOk, SlotOk;
      if own[q].path.P3? {
        UnlinkRootNode(mem, own, q, pg, o, t);
      } else {
        UnlinkTableNode(mem, own, q, pg, o, t);
      }
    }
  }

  lemma UnlinkRootNode(mem: Mem, own: Owners, q: nat, pg: Page, o: Owner, t: nat)
    requires mem.Keys == own.Keys && 0 !in own && q in own && own[q].Node? && own[q].path.P3? && !o.Node?
    requires NodeOk(mem, own, q) && forall t | t in own && own[t].Node? && own[t].root == q :: t == q
    requires t in own && t != q && own[t].Node? && NodeOk(mem, own, t)
    ensures NodeOk(mem[q := pg], own[q := o], t)
  {
    var mem', own' := mem[q := pg], own[q := o];
    if !own[t].path.P0? {
      forall j | 0 <= j < 512 ensures SlotOk(mem', own', t, j) {
        assert SlotOk(mem, own, t, j);
      }
    }
  }

  lemma UnlinkTableNode(mem: Mem, own: Owners, q: nat, pg: Page, o: Owner, t: nat)
    requires mem.Keys == own.Keys && 0 !in own && q in own && own[q].Node? && !o.Node?
    requires !own[q].path.P0? && !own[q].path.P3? && NodeOk(mem, own, q)
    requires NodeOk(mem, own, own[q].parent) && forall i | 0 <= i < 512 :: !Slot(mem, q, i).f.v
    requires t in own && t != q && own[t].Node? && NodeOk(mem, own, t)
    ensures NodeOk(WithSlot(mem, own[q].parent, Last(own[q].path), ZERO)[q := pg], own[q := o], t)
  {
    var mem', own' := WithSlot(mem, own[q].parent, Last(own[q].path), ZERO)[q := pg], own[q := o];
    if !own[t].path.P0? {
      forall j | 0 <= j < 512 ensures SlotOk(mem', own', t, j) {
        assert SlotOk(mem, own, t, j);
      }
    }
  }

  /** Memory with the slot that points at table q cleared. */
  ghost function Detached(mem: Mem, own: Owners, q: nat): Mem
    requires PtInv(mem, own) && q in own && own[q].Node? && !own[q].path.P0?
  {
    assert NodeOk(mem, own, q);
    if own[q].path.P3? then mem
    else
      assert NodeOk(mem, own, own[q].parent);
      WithSlot(mem, own[q].parent, Last(own[q].path), ZERO)
  }

  // --------------------------------------------------------------- framing

  /** Table and user pages of the tree under rt. */
  predicate Mine(own: Owners, p: nat, rt: nat) {
    p in own && own[p].Node? && own[p].root == rt
  }

  predicate MyTable(own: Owners, p: nat, rt: nat) {
    Mine(own, p, rt) && !own[p].path.P0?
  }

  /**
   The tree under rt gained free pages as tables and lost nothing. Pages other than
   rt's tables and free pages keep owner and contents; pages in ex are not constrained.
   */
  ghost predicate Grew(mem: Mem, own: Owners, mem': Mem, own': Owners, rt: nat, ex: set<nat>) {
    && own'.Keys == own.Keys && mem.Keys == own.Keys && mem'.Keys == own.Keys
    && (forall p | p in own && p !in ex ::
          || own'[p] == own[p]
          || (own[p].Free? && MyTable(own', p, rt) && !own'[p].path.P3?))
    && (forall p | p in own && p !in ex && !own[p].Free? && !MyTable(own, p, rt) :: mem'[p] == mem[p])
  }

  /** Only free pages and pages of the tree under rt took part; all others are as they were. */
  ghost predicate Frame(mem: Mem, own: Owners, mem': Mem, own': Owners, rt: nat) {
    && own'.Keys == own.Keys && mem.Keys == own.Keys && mem'.Keys == own.Keys
    && (forall p | p in own ::
          if own[p].Free? || Mine(own, p, rt) then own'[p].Free? || Mine(own', p, rt)
          else own'[p] == own[p] && mem'[p] == mem[p])
  }

  /** Memory after zeroing page q and linking it below slot i of table p. */
  function Linked(mem: Mem, p: nat, i: nat, q: nat): Mem
    requires p in mem && IsTable(mem[p]) && i < 512 && p != q
  {
    WithSlot(mem[q := EmptyTable()], p, i, Pte(q, V))
  }

  lemma AddGrew(mem: Mem, own: Owners, mem1: Mem, own1: Owners, p: nat, i: nat, q: nat)
    requires mem.Keys == own.Keys && IsInner(own, p) && i < 512 && p != q
    requires q in own && own[q].Free? && own1 == own[q := Held] && mem1.Keys == mem.Keys
    requires (forall t | t in mem && t != q :: mem1[t] == mem[t]) && IsTable(mem1[p])
    ensures var own' := own1[q := Node(own[p].root, Extend(own[p].path, i), p)];
            Grew(mem, own, Linked(mem1, p, i, q), own', own[p].root, {})
  {
  }

  /** Free page q, zeroed and linked below an invalid slot: the step that grows a tree. */
  lemma AddTable(mem: Mem, own: Owners, mem1: Mem, own1: Owners, p: nat, i: nat, q: nat)
    requires PtInv(mem, own) && IsInner(own, p) && i < 512
    requires own[p].path.P3? ==> i < 256
    requires !Slot(mem, p, i).f.v
    requires q in own && own[q].Free?
    requires own1 == own[q := Held] && mem1.Keys == mem.Keys
    requires forall t | t in mem && t != q :: mem1[t] == mem[t]
    ensures IsTable(mem1[p]) && p != q
    ensures var mem' := Linked(mem1, p, i, q);
            var own' := own1[q := Node(own[p].root, Extend(own[p].path, i), p)];
            && PtInv(mem', own')
            && SameLookups(mem, own, mem')
            && Grew(mem, own, mem', own', own[p].root, {})
  {
    assert NodeOk(mem, own, p);
    var mem2 := mem[q := EmptyTable()];
    assert mem1[q := EmptyTable()] == mem2;
    Retype(mem, own, q, EmptyTable(), Held);
    LinkTable(mem2, own1, p, i, q);
    LinkTableLookups(mem2, own1, p, i, q);
    var mem' := Linked(mem1, p, i, q);
    AddGrew(mem, own, mem1, own1, p, i, q);
    hide PtInv, NodeOk, Grew, Leaf;
    forall r, a, b, c | IsRoot(own, r) ensures Leaf(mem', r, a, b, c) == Leaf(mem, r, a, b, c) {
      assert IsRoot(own1, r);
      assert Leaf(mem2, r, a, b, c) == Leaf(mem, r, a, b, c);
    }
  }

  /** What an operation on the tree under rt leaves alone: every other tree's translations. */
  lemma OtherTrees(mem: Mem, own: Owners, mem': Mem, own': Owners, rt: nat, r: nat, v: nat)
    requires PtInv(mem, own) && Frame(mem, own, mem', own', rt) && IsRoot(own, r) && r != rt
    ensures IsRoot(own', r)
    ensures Lookup(mem', r, v) == Lookup(mem, r, v)
  {
    TablesSame(mem, own, mem', r, I2(v), I1(v), I0(v));
  }

  /** The position of the leaf of virtual page v. */
  function PagePath(v: nat): Path { P0(I2(v), I1(v), I0(v)) }

  /** The position of the table that a walk for v indexes at the given level, and the index. */
  function TablePath(level: nat, v: nat): Path {
    if level >= 2 then P3 else if level == 1 then P2(I2(v)) else P1(I2(v), I1(v))
  }

  function Index(level: nat, v: nat): nat {
    if level >= 2 then I2(v) else if level == 1 then I1(v) else I0(v)
  }

  /** One level of a walk for page v: what its slot in table p leads to. */
  lemma Descend(mem: Mem, own: Owners, p: nat, level: nat, v: nat)
    requires PtInv(mem, own) && p in own && own[p].Node? && own[p].path == TablePath(level, v)
    requires level <= 2 && v < NVPN
    ensures IsTable(mem[p])
    ensures level > 0 ==> IsInner(own, p)
    ensures level == 0 ==> IsLeafTable(own, p) && Slot(mem, p, I0(v)) == Lookup(mem, own[p].root, v)
    ensures var e := Slot(mem, p, Index(level, v));
            level > 0 ==>
              if e.f.v then e.ppn in own && own[e.ppn] == Node(own[p].root, TablePath(level - 1, v), p)
              else Lookup(mem, own[p].root, v) == ZERO
  {
    IndexRange(v);
    Reached(mem, own, p);
    assert NodeOk(mem, own, p);
    assert SlotOk(mem, own, p, Index(level, v));
  }

  /** How many tables are missing below a table on the way to page v. */
  lemma MissingAt(mem: Mem, own: Owners, p: nat, level: nat, v: nat)
    requires PtInv(mem, own) && p in own && own[p].Node? && own[p].path == TablePath(level, v)
    requires level <= 2 && v < NVPN
    ensures level == 0 ==> Missing(mem, own[p].root, v) == 0
    ensures level > 0 && !Slot(mem, p, Index(level, v)).f.v ==> Missing(mem, own[p].root, v) == level
  {
    Reached(mem, own, p);
    hide NodeOk;
    Tables(mem, own, own[p].root, I2(v), I1(v));
  }

  /** A free page has become a table of the tree under root. */
  ghost predicate GainedTable(own: Owners, own': Owners, root: nat) {
    exists p :: p in own && own[p].Free? && MyTable(own', p, root)
  }

  /** Every table gained under root lies on the way to page v. */
  ghost predicate GainedFor(own: Owners, own': Owners, root: nat, v: nat) {
    forall p | p in own && own[p].Free? && MyTable(own', p, root) ::
      own'[p].path == TablePath(1, v) || own'[p].path == TablePath(0, v)
  }

  /** The tables under root are the same. */
  ghost predicate SameTables(own: Owners, own': Owners, root: nat) {
    && own'.Keys == own.Keys
    && forall p | p in own && (MyTable(own, p, root) || MyTable(own', p, root)) :: own'[p] == own[p]
  }

  /** As long as the tables are the same, the same tables are missing. */
  lemma MissingKept(mem: Mem, own: Owners, mem': Mem, own': Owners, root: nat, v: nat)
    requires PtInv(mem, own) && PtInv(mem', own') && IsRoot(own, root) && IsRoot(own', root)
    requires SameTables(own, own', root)
    ensures Missing(mem', root, v) == Missing(mem, root, v)
  {
    MissingLess(mem, own, mem', own', root, v);
    MissingLess(mem', own', mem, own, root, v);
  }

  /** More tables, fewer missing. */
  lemma MissingLess(mem: Mem, own: Owners, mem': Mem, own': Owners, root: nat, v: nat)
    requires PtInv(mem, own) && PtInv(mem', own') && IsRoot(own, root)
    requires forall p | MyTable(own, p, root) :: p in own' && own'[p] == own[p]
    ensures Missing(mem', root, v) <= Missing(mem, root, v)
  {
    Tables(mem, own, root, I2(v), I1(v));
    var (c, t) := (Child(mem, root, I2(v)), LeafTable(mem, root, I2(v), I1(v)));
    if c != 0 {
      Reached(mem', own', c);
    }
    if t != 0 {
      Reached(mem', own', t);
    }
    hide PtInv;
  }

  /** Pages that were not free keep their owner. */
  ghost predicate OnlyFreeChange(own: Owners, own': Owners) {
    own'.Keys == own.Keys && forall p | p in own && !own[p].Free? :: own'[p] == own[p]
  }

  /** What is still missing for page w after all tables for page v were made. */
  function LeftMissing(missing: nat, v: nat, w: nat): nat {
    if I2(w) != I2(v) then missing
    else if I1(w) != I1(v) then if missing > 1 then 1 else missing
    else 0
  }

  /** No table is missing on the way to a mapped page. */
  lemma MappedThere(mem: Mem, own: Owners, root: nat, v: nat)
    requires PtInv(mem, own)
    ensures Lookup(mem, root, v).f.v ==> Missing(mem, root, v) == 0
  {
    assert 0 !in mem;
    hide PtInv;
  }

  /** After the tables on the way to page v have been made. */
  lemma MissingAfter(mem: Mem, own: Owners, mem': Mem, own': Owners, root: nat, v: nat, w: nat)
    requires PtInv(mem, own) && PtInv(mem', own') && IsRoot(own, root) && IsRoot(own', root)
    requires OnlyFreeChange(own, own') && GainedFor(own, own', root, v)
    requires Missing(mem', root, v) == 0
    ensures Missing(mem', root, w) == LeftMissing(Missing(mem, root, w), v, w)
  {
    TablesAfter(mem, own, mem', own', root, v, w);
    assert 0 !in mem' && 0 !in mem;
    hide PtInv, OnlyFreeChange, GainedFor;
  }

  /** What is missing in the tree that proc_pagetable makes: the ways to the three top pages are there. */
  function FreshMissing(w: nat): (n: nat)
    ensures n <= 2
  {
    LeftMissing(2, TRAMP_VPN, w)
  }

  lemma FreshIs()
    ensures forall w: nat :: LeftMissing(2, TRAMP_VPN, w) == FreshMissing(w)
  {
  }

  /** The three top pages share their tables. */
  lemma TopsShare()
    ensures FreshMissing(TRAP_VPN) == 0 && LeftMissing(FreshMissing(USYS_VPN), TRAP_VPN, USYS_VPN) == 0
    ensures forall w: nat :: LeftMissing(FreshMissing(w), TRAP_VPN, w) == FreshMissing(w)
    ensures forall w: nat :: LeftMissing(FreshMissing(w), USYS_VPN, w) == FreshMissing(w)
  {
  }

  lemma TablesAfter(mem: Mem, own: Owners, mem': Mem, own': Owners, root: nat, v: nat, w: nat)
    requires PtInv(mem, own) && PtInv(mem', own') && IsRoot(own, root) && IsRoot(own', root)
    requires OnlyFreeChange(own, own') && GainedFor(own, own', root, v)
    ensures var (c, c') := (Child(mem, root, I2(w)), Child(mem', root, I2(w)));
            (c != 0 ==> c' == c) && (c' != 0 && c == 0 ==> I2(w) == I2(v))
    ensures var (t, t') := (LeafTable(mem, root, I2(w), I1(w)), LeafTable(mem', root, I2(w), I1(w)));
            (t != 0 ==> t' == t) && (t' != 0 && t == 0 ==> I2(w) == I2(v) && I1(w) == I1(v))
  {
    Tables(mem, own, root, I2(w), I1(w));
    Tables(mem', own', root, I2(w), I1(w));
    NodeStays(mem, own, mem', own', root, v, Child(mem, root, I2(w)), Child(mem', root, I2(w)));
    NodeStays(mem, own, mem', own', root, v, LeafTable(mem, root, I2(w), I1(w)), LeafTable(mem', root, I2(w), I1(w)));
    hide PtInv, OnlyFreeChange, GainedFor;
  }

  /** A table node of the old tree is reached in the new one; a node of the new tree is old, or new on the way to v. */
  lemma NodeStays(mem: Mem, own: Owners, mem': Mem, own': Owners, root: nat, v: nat, p: nat, p': nat)
    requires PtInv(mem, own) && PtInv(mem', own') && IsRoot(own, root) && IsRoot(own', root)
    requires OnlyFreeChange(own, own') && GainedFor(own, own', root, v)
    ensures MyTable(own, p, root) ==> p in own' && own'[p] == own[p] && AtPath(mem', own', root, p)
    ensures MyTable(own', p', root) ==>
              || (own[p'] == own'[p'] && AtPath(mem, own, root, p'))
              || own'[p'].path == TablePath(1, v) || own'[p'].path == TablePath(0, v)
  {
    if MyTable(own, p, root) {
      Reached(mem', own', p);
    }
    if MyTable(own', p', root) && own[p'] == own'[p'] {
      Reached(mem, own, p');
    }
    hide PtInv, TablePath;
  }

  /** Page p is where its position says. */
  predicate AtPath(mem: Mem, own: Owners, root: nat, p: nat)
    requires p in own && own[p].Node?
  {
    match own[p].path
    case P2(a) => Child(mem, root, a) == p
    case P1(a, b) => LeafTable(mem, root, a, b) == p
    case _ => true
  }

  lemma TopPages(v: nat)
    requires v < NVPN
    ensures Top(PagePath(v)) <==> USYS_VPN <= v
  {
    assert v / 0x4_0000 == v / 0x200 / 512;
  }

  lemma PagePathInjective(v: nat, w: nat)
    requires PagePath(v) == PagePath(w)
    ensures v == w
  {
    SplitInjective(v, w);
  }

  /** The lookups under every root, after the leaf of page v below root has become e. */
  ghost predicate LeafBecomes(mem: Mem, own: Owners, mem': Mem, root: nat, v: nat, e: Pte) {
    forall r, w :: IsRoot(own, r) ==>
                     Lookup(mem', r, w) == if r == root && w == v then e else Lookup(mem, r, w)
  }

  lemma LeafSetVpn(mem: Mem, own: Owners, t: nat, v: nat, e: Pte, mem': Mem)
    requires PtInv(mem, own) && IsLeafTable(own, t) && own[t].path == TablePath(0, v) && v < NVPN
    requires TablesSameBut(mem, own, mem', t) && 0 !in mem'
    requires t in mem' && mem'[t] == Table(mem[t].slots[I0(v) := e])
    ensures LeafBecomes(mem, own, mem', own[t].root, v, e)
  {
    LeafSet(mem, own, t, I0(v), e, mem');
    forall r, w | IsRoot(own, r)
      ensures Lookup(mem', r, w) == if r == own[t].root && w == v then e else Lookup(mem, r, w)
    {
      if PagePath(v) == PagePath(w) {
        PagePathInjective(v, w);
      }
    }
  }

  /** The step of mappages: an invalid leaf becomes e, and e's page, now in hand, joins the tree. */
  lemma MapLeaf(mem: Mem, own: Owners, t: nat, v: nat, e: Pte)
    requires PtInv(mem, own) && IsLeafTable(own, t) && own[t].path == TablePath(0, v) && v < NVPN
    requires !Slot(mem, t, I0(v)).f.v && e.f.v && e.f.r
    requires v < USYS_VPN ==> e.ppn in own && own[e.ppn].Held? && IsData(mem[e.ppn])
    ensures IsTable(mem[t])
    ensures var mem' := WithSlot(mem, t, I0(v), e);
            var own' := if v < USYS_VPN then own[e.ppn := Node(own[t].root, PagePath(v), t)] else own;
            && PtInv(mem', own')
            && LeafBecomes(mem, own, mem', own[t].root, v, e)
            && Grew(mem, own, mem', own', own[t].root, if v < USYS_VPN then {e.ppn} else {})
            && (v < USYS_VPN ==> mem'[e.ppn] == mem[e.ppn])
  {
    TopPages(v);
    assert NodeOk(mem, own, t) && mem.Keys == own.Keys && 0 !in mem;
    hide PtInv, NodeOk, LeafBecomes, Grew;
    if v < USYS_VPN {
      LinkLeaf(mem, own, t, I0(v), e);
    } else {
      Rewrite(mem, own, t, I0(v), e);
    }
    LeafSetVpn(mem, own, t, v, e, WithSlot(mem, t, I0(v), e));
    MapGrew(mem, own, t, v, e);
  }

  lemma MapGrew(mem: Mem, own: Owners, t: nat, v: nat, e: Pte)
    requires mem.Keys == own.Keys && IsLeafTable(own, t) && IsTable(mem[t]) && v < NVPN
    requires v < USYS_VPN ==> e.ppn in own && own[e.ppn].Held?
    ensures var own' := if v < USYS_VPN then own[e.ppn := Node(own[t].root, PagePath(v), t)] else own;
            Grew(mem, own, WithSlot(mem, t, I0(v), e), own', own[t].root, if v < USYS_VPN then {e.ppn} else {})
  {
  }

  lemma GrewTrans(mem: Mem, own: Owners, mem1: Mem, own1: Owners, mem2: Mem, own2: Owners,
                  rt: nat, ex1: set<nat>, ex2: set<nat>)
    requires Grew(mem, own, mem1, own1, rt, ex1) && Grew(mem1, own1, mem2, own2, rt, ex2)
    ensures Grew(mem, own, mem2, own2, rt, ex1 + ex2)
  {
  }

  /** A tree that only grew keeps every root and is a legal step for all other trees. */
  lemma GrewKeeps(mem: Mem, own: Owners, mem': Mem, own': Owners, rt: nat, ex: set<nat>)
    requires Grew(mem, own, mem', own', rt, ex)
    ensures forall r :: IsRoot(own, r) && r !in ex ==> IsRoot(own', r)
    ensures ex == {} ==> Frame(mem, own, mem', own', rt)
    ensures mem.Keys == own.Keys == mem'.Keys == own'.Keys
  {
  }

  // -------------------------------------------------------------- unmapping

  /** The user page at path is one of virtual pages [lo, hi). */
  predicate InRange(path: Path, lo: nat, hi: nat) {
    path.P0? && lo <= Vpn(path.a, path.b, path.c) < hi
  }

  lemma PathInRange(v: nat, lo: nat, hi: nat)
    ensures InRange(PagePath(v), lo, hi) <==> lo <= v < hi
  {
    assert v / 0x4_0000 == v / 0x200 / 512;
  }

  /**
   Virtual pages [lo, hi) below root are unmapped and the pages they led to are free;
   every other translation, owner and content is as before.
   */
  ghost predicate Unmapped(mem: Mem, own: Owners, mem': Mem, own': Owners, root: nat, lo: nat, hi: nat) {
    && own'.Keys == own.Keys && mem.Keys == own.Keys && mem'.Keys == own.Keys
    && (forall r, w: nat :: IsRoot(own, r) ==>
          Lookup(mem', r, w) ==
          if r == root && lo <= w < hi then ZERO else Lookup(mem, r, w))
    && (forall p | p in own ::
          if Mine(own, p, root) && InRange(own[p].path, lo, hi) then own'[p].Free?
          else own'[p] == own[p])
    && (forall p | p in own && !own[p].Free? && !MyTable(own, p, root) && !own'[p].Free? :: mem'[p] == mem[p])
  }

  lemma UnmapTrans(mem: Mem, own: Owners, mem1: Mem, own1: Owners, mem2: Mem, own2: Owners,
                   root: nat, lo: nat, mid: nat, hi: nat)
    requires lo <= mid <= hi
    requires Unmapped(mem, own, mem1, own1, root, lo, mid)
    requires Unmapped(mem1, own1, mem2, own2, root, mid, hi)
    ensures Unmapped(mem, own, mem2, own2, root, lo, hi)
  {
    forall r, w: nat | IsRoot(own, r)
      ensures Lookup(mem2, r, w) ==
              if r == root && lo <= w < hi then ZERO else Lookup(mem, r, w)
    {
      hide Lookup;
      assert IsRoot(own1, r);
    }
  }

  /** The only page of the tree at virtual page v is the one its PTE names. */
  lemma OnlyPage(mem: Mem, own: Owners, root: nat, v: nat)
    requires PtInv(mem, own)
    ensures forall p | p in own && Mine(own, p, root) && InRange(own[p].path, v, v + 1) ::
              !Top(PagePath(v)) && Lookup(mem, root, v).f.v && Lookup(mem, root, v).ppn == p
  {
    forall p | p in own && Mine(own, p, root) && InRange(own[p].path, v, v + 1)
      ensures !Top(PagePath(v)) && Lookup(mem, root, v).f.v && Lookup(mem, root, v).ppn == p
    {
      Reached(mem, own, p);
      assert NodeOk(mem, own, p);
      SplitVpn(own[p].path.a, own[p].path.b, own[p].path.c);
    }
  }

  /** Nothing to unmap at page v. */
  lemma UnmapAbsent(mem: Mem, own: Owners, root: nat, v: nat)
    requires PtInv(mem, own) && IsRoot(own, root) && !Lookup(mem, root, v).f.v
    ensures Unmapped(mem, own, mem, own, root, v, v + 1)
  {
    LeafOwner(mem, own, root, I2(v), I1(v), I0(v));
    OnlyPage(mem, own, root, v);
  }

  /** The step of uvmunmap at a valid leaf: its page q, when the tree owns it, has been freed. */
  ghost predicate FreedFirst(mem: Mem, own: Owners, mem1: Mem, own1: Owners, v: nat, q: nat) {
    if v < USYS_VPN then own1 == own[q := Free] && exists n: nat :: mem1 == mem[q := Run(n)]
    else mem1 == mem && own1 == own
  }

  lemma ClearLeaf(mem: Mem, own: Owners, t: nat, v: nat, q: nat, mem1: Mem, own': Owners)
    requires PtInv(mem, own) && IsLeafTable(own, t) && own[t].path == TablePath(0, v) && v < NVPN
    requires Slot(mem, t, I0(v)).f.v && q == Slot(mem, t, I0(v)).ppn
    requires FreedFirst(mem, own, mem1, own', v, q)
    ensures t in mem1 && t in mem && IsTable(mem[t]) && mem1[t] == mem[t]
    ensures PtInv(WithSlot(mem1, t, I0(v), ZERO), own')
    ensures TablesSameBut(mem, own, WithSlot(mem1, t, I0(v), ZERO), t)
  {
    LeafPage(mem, own, t, v);
    if v < USYS_VPN {
      var n: nat :| mem1 == mem[q := Run(n)];
      UnlinkLeaf(mem, own, t, I0(v), Run(n), Free);
    } else {
      Rewrite(mem, own, t, I0(v), ZERO);
    }
  }

  lemma UnmapLeaf(mem: Mem, own: Owners, t: nat, v: nat, q: nat, mem1: Mem, own': Owners)
    requires PtInv(mem, own) && IsLeafTable(own, t) && own[t].path == TablePath(0, v) && v < NVPN
    requires Slot(mem, t, I0(v)).f.v && q == Slot(mem, t, I0(v)).ppn
    requires FreedFirst(mem, own, mem1, own', v, q)
    ensures t in mem1 && IsTable(mem1[t])
    ensures PtInv(WithSlot(mem1, t, I0(v), ZERO), own')
    ensures Unmapped(mem, own, WithSlot(mem1, t, I0(v), ZERO), own', own[t].root, v, v + 1)
  {
    ClearLeaf(mem, own, t, v, q, mem1, own');
    LeafPage(mem, own, t, v);
    var mem' := WithSlot(mem1, t, I0(v), ZERO);
    LeafSetVpn(mem, own, t, v, ZERO, mem');
    Descend(mem, own, t, 0, v);
    OnlyPage(mem, own, own[t].root, v);
    UnmapFrame(mem, own, mem', own', own[t].root, t, v, q);
  }

  lemma UnmapFrame(mem: Mem, own: Owners, mem': Mem, own': Owners, root: nat, t: nat, v: nat, q: nat)
    requires own'.Keys == own.Keys && mem.Keys == own.Keys && mem'.Keys == own.Keys
    requires LeafBecomes(mem, own, mem', root, v, ZERO) && Lookup(mem, root, v).f.v
    requires forall p | p in own && Mine(own, p, root) && InRange(own[p].path, v, v + 1) ::
               v < USYS_VPN && p == q
    requires v < USYS_VPN ==> q in own && Mine(own, q, root) && own[q].path == PagePath(v)
    requires own' == if v < USYS_VPN then own[q := Free] else own
    requires MyTable(own, t, root)
    requires forall p | p in own && p != t && !(v < USYS_VPN && p == q) :: mem'[p] == mem[p]
    ensures Unmapped(mem, own, mem', own', root, v, v + 1)
  {
    hide Lookup;
    PathInRange(v, v, v + 1);
  }

  /** The page behind a valid leaf of a user page belongs to the tree, at that position. */
  lemma LeafPage(mem: Mem, own: Owners, t: nat, v: nat)
    requires PtInv(mem, own) && IsLeafTable(own, t) && own[t].path == TablePath(0, v) && v < NVPN
    requires Slot(mem, t, I0(v)).f.v
    ensures t in mem && IsTable(mem[t]) && Slot(mem, t, I0(v)).f.r
    ensures Top(PagePath(v)) <==> USYS_VPN <= v
    ensures v < USYS_VPN ==>
              var q := Slot(mem, t, I0(v)).ppn;
              && q in own && Mine(own, q, own[t].root) && own[q].path == PagePath(v)
              && q != t && IsData(mem[q])
  {
    TopPages(v);
    assert NodeOk(mem, own, t);
    assert SlotOk(mem, own, t, I0(v));
  }
}
