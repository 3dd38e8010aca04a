/**
 User memory as a process sees it, and how growing, shrinking and copying a tree act on it.

 A virtual page that has no mapping yet is viewed as the page that the fault handler would
 give it: zeros, readable and writable by the user. Allocating such a page, eagerly or on
 a fault, is then invisible in the view.
 */
module Space {
  import opened Riscv
  import opened PageTable

  datatype UserPage = UserPage(u: bool, w: bool, bytes: seq<byte>)

  function FreshPage(): UserPage { UserPage(true, true, Fill(0)) }

  function BytesOf(mem: Mem, p: nat): seq<byte> {
    if p in mem && mem[p].Data? then mem[p].bytes else []
  }

  /** The virtual page v of the process whose table is root. */
  function View(mem: Mem, root: nat, v: nat): UserPage {
    var e := Lookup(mem, root, v);
    if e.f.v then UserPage(e.f.u, e.f.w, BytesOf(mem, e.ppn)) else FreshPage()
  }

  ghost predicate SameLookupsUnder(mem: Mem, mem': Mem, root: nat) {
    forall w: nat :: Lookup(mem', root, w) == Lookup(mem, root, w)
  }

  /**
   The tree under root gained tables, and user pages at virtual pages [lo, hi) only, all
   from free pages. Everything else is as it was.
   */
  ghost predicate Grown(mem: Mem, own: Owners, mem': Mem, own': Owners, root: nat, lo: nat, hi: nat) {
    && own'.Keys == own.Keys && mem.Keys == own.Keys && mem'.Keys == own.Keys
    && (forall r, w: nat :: IsRoot(own, r) && !(r == root && lo <= w < hi) ==>
          Lookup(mem', r, w) == Lookup(mem, r, w))
    && (forall p | p in own ::
          || own'[p] == own[p]
          || (own[p].Free? && Mine(own', p, root) && !own'[p].path.P3?
              && (own'[p].path.P0? ==> InRange(own'[p].path, lo, hi))))
    && (forall p | p in own && !own[p].Free? && !MyTable(own, p, root) :: mem'[p] == mem[p])
  }

  /** Virtual page v is mapped with the bits perm to a page that holds bytes. */
  ghost predicate MappedTo(mem: Mem, root: nat, v: nat, perm: Flags, bytes: seq<byte>) {
    && Lookup(mem, root, v).f == perm.(v := true)
    && Lookup(mem, root, v).ppn in mem
    && mem[Lookup(mem, root, v).ppn] == Data(bytes)
  }

  lemma GrownTrans(mem: Mem, own: Owners, mem1: Mem, own1: Owners, mem2: Mem, own2: Owners,
                   root: nat, lo: nat, mid: nat, hi: nat)
    requires lo <= mid <= hi
    requires Grown(mem, own, mem1, own1, root, lo, mid)
    requires Grown(mem1, own1, mem2, own2, root, mid, hi)
    ensures Grown(mem, own, mem2, own2, root, lo, hi)
  {
    hide Lookup;
    forall r, w: nat | IsRoot(own, r) && !(r == root && lo <= w < hi)
      ensures Lookup(mem2, r, w) == Lookup(mem, r, w)
    {
      assert IsRoot(own1, r);
    }
  }

  lemma GrownKeeps(mem: Mem, own: Owners, mem': Mem, own': Owners, root: nat, lo: nat, hi: nat)
    requires Grown(mem, own, mem', own', root, lo, hi)
    ensures forall r :: IsRoot(own, r) ==> IsRoot(own', r)
    ensures Frame(mem, own, mem', own', root)
  {
    hide Lookup;
  }

  lemma UnmappedKeeps(mem: Mem, own: Owners, mem': Mem, own': Owners, root: nat, lo: nat, hi: nat)
    requires Unmapped(mem, own, mem', own', root, lo, hi)
    ensures forall r :: IsRoot(own, r) ==> IsRoot(own', r)
    ensures Frame(mem, own, mem', own', root)
  {
    hide Lookup;
  }

  /** A mapped page below the grown range keeps its translation and contents. */
  lemma GrownMapped(mem: Mem, own: Owners, mem': Mem, own': Owners, root: nat, lo: nat, hi: nat,
                    v: nat, perm: Flags, bytes: seq<byte>)
    requires PtInv(mem, own) && IsRoot(own, root) && v < USYS_VPN && !(lo <= v < hi)
    requires Grown(mem, own, mem', own', root, lo, hi)
    requires MappedTo(mem, root, v, perm, bytes)
    ensures MappedTo(mem', root, v, perm, bytes)
  {
    UserLeaf(mem, own, root, v);
    hide Lookup;
  }

  /** What a valid user PTE leads to. */
  lemma UserLeaf(mem: Mem, own: Owners, root: nat, v: nat)
    requires PtInv(mem, own) && IsRoot(own, root) && v < USYS_VPN
    ensures var e := Lookup(mem, root, v);
            if !e.f.v then e == ZERO
            else && e.f.r && e.ppn in own && IsData(mem[e.ppn])
                 && Mine(own, e.ppn, root) && own[e.ppn].path == PagePath(v)
  {
    TopPages(v);
    LeafOwner(mem, own, root, I2(v), I1(v), I0(v));
  }

  /** User pages in [lo, hi) are visible as valid leaves there. */
  lemma NoPages(mem: Mem, own: Owners, root: nat, lo: nat, hi: nat)
    requires PtInv(mem, own)
    requires forall v | lo <= v < hi :: !Lookup(mem, root, v).f.v
    ensures forall p | Mine(own, p, root) :: !InRange(own[p].path, lo, hi)
  {
    forall p | Mine(own, p, root) ensures !InRange(own[p].path, lo, hi) {
      if InRange(own[p].path, lo, hi) {
        var v := Vpn(own[p].path.a, own[p].path.b, own[p].path.c);
        OnlyPage(mem, own, root, v);
      }
    }
  }

  /** Undoing growth by unmapping the grown range leaves tables behind and nothing else. */
  lemma GrownUndone(mem: Mem, own: Owners, mem1: Mem, own1: Owners, mem2: Mem, own2: Owners,
                    root: nat, lo: nat, hi: nat)
    requires PtInv(mem, own) && IsRoot(own, root)
    requires forall v | lo <= v < hi :: Lookup(mem, root, v) == ZERO
    requires Grown(mem, own, mem1, own1, root, lo, hi)
    requires Unmapped(mem1, own1, mem2, own2, root, lo, hi)
    ensures Grown(mem, own, mem2, own2, root, lo, lo)
  {
    NoPages(mem, own, root, lo, hi);
    hide PtInv, Lookup, Vpn;
    forall r, w: nat | IsRoot(own, r) ensures Lookup(mem2, r, w) == Lookup(mem, r, w) {
      assert IsRoot(own1, r);
    }
  }

  /** Growing a tree changes no page of the view except those mapped anew. */
  lemma GrownView(mem: Mem, own: Owners, mem': Mem, own': Owners, root: nat, lo: nat, hi: nat, v: nat)
    requires PtInv(mem, own) && IsRoot(own, root) && v < USYS_VPN && !(lo <= v < hi)
    requires Grown(mem, own, mem', own', root, lo, hi)
    ensures View(mem', root, v) == View(mem, root, v)
  {
    UserLeaf(mem, own, root, v);
    hide Lookup;
  }

  /** A page mapped to zeros with R, W and U looks the same as before it was mapped. */
  lemma ZeroView(mem: Mem, mem': Mem, root: nat, v: nat, perm: Flags)
    requires Lookup(mem, root, v) == ZERO
    requires MappedTo(mem', root, v, perm, Fill(0)) && perm.u && perm.w
    ensures View(mem', root, v) == View(mem, root, v)
  {
  }
}
