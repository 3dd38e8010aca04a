/**
 sbrk, faults and copies as operations of one process among others, and what they mean to
 the process: the same whether its heap is filled eagerly or page by page on demand.
 */
module Syscalls {
  import opened Riscv
  import opened PageTable
  import opened Kalloc
  import opened Vm
  import opened Space
  import opened Need
  import opened Uvm
  import opened FreeWalk
  import opened UserMemory
  import opened Copy
  import opened ProcTable
  import opened Proc
  import opened Processes

  // ---------------------------------------------------- meaning, without pages

  /** A C int. */
  type int32 = n: int | -0x8000_0000 <= n < 0x8000_0000

  /** The memory with n pages: cut, or extended by zeros. */
  function Resize(s: UserMem, n: nat): (s': UserMem)
    ensures |s'.pages| == n && s'.shared == s.shared
  {
    s.(pages := seq(n, v requires 0 <= v < n => if v < |s.pages| then s.pages[v] else FreshPage()))
  }

  /** growproc(n) when memory does not run out; sizes are 64-bit numbers. */
  function Grow(s: Image, n: int32): (Image, int) {
    if n > 0 then
      if s.sz + n > USYSCALL then (s, -1) else (Image(s.sz + n, Resize(s.mem, Pages(s.sz + n))), 0)
    else
      var t := (s.sz + n) % WORD;
      if n == 0 || t >= s.sz then (s, 0) else (Image(t, Resize(s.mem, Pages(t))), 0)
  }

  /** sbrk(n) when memory does not run out: the old size, or -1. */
  function Sbrk(s: Image, n: int32): (Image, int) {
    var (s', r) := Grow(s, n);
    (s', if r == 0 then s.sz else -1)
  }

  /**
   Whether sbrk succeeds can be told before the call: it fails exactly on a growth beyond
   USYSCALL. When it succeeds, the size has changed by n exactly when n takes away no more than
   there is; a larger shrink is reported as a success and changes nothing, for the sum wraps.
   */
  lemma SbrkExact(s: Image, n: int32)
    requires s.sz <= USYSCALL
    ensures var (s', r) := Sbrk(s, n);
            && (r == -1 <==> n > 0 && s.sz + n > USYSCALL)
            && (r != -1 ==> r == s.sz && (s'.sz == s.sz + n <==> s.sz + n >= 0))
            && (r == -1 || s.sz + n < 0 ==> s' == s)
  {
    ShrinkSum(s.sz, n);
  }

  /** The same for growproc, which returns 0. */
  lemma GrowExact(s: Image, n: int32)
    requires s.sz <= USYSCALL
    ensures var (s', r) := Grow(s, n);
            && (r == -1 <==> n > 0 && s.sz + n > USYSCALL)
            && (r != -1 ==> r == 0 && (s'.sz == s.sz + n <==> s.sz + n >= 0))
            && (r == -1 || s.sz + n < 0 ==> s' == s)
  {
    ShrinkSum(s.sz, n);
  }

  /** The 64-bit sum of a size and a shrink. */
  lemma ShrinkSum(sz: nat, n: int32)
    requires sz <= USYSCALL
    ensures n <= 0 ==> (sz + n) % WORD == if sz + n >= 0 then sz + n else WORD + sz + n
    ensures n < 0 && sz + n < 0 ==> WORD + sz + n >= sz
  {
    if sz + n < 0 {
      assert (sz + n) % WORD == (WORD + sz + n) % WORD;
    }
  }

  /** One byte more than there is: sbrk reports success, and the process keeps its page. */
  lemma ShrinkIgnored(mem: UserMem)
    ensures Sbrk(Image(4096, mem), -4097) == (Image(4096, mem), 4096)
  {
    SbrkExact(Image(4096, mem), -4097);
  }

  // ------------------------------------------------------- resizing one process

  /** A step on the tree of a process after which its size is newsz. */
  ghost predicate SizeStep(mem: Mem, own: Owners, mem': Mem, own': Owners, root: nat, newsz: nat) {
    && newsz <= USYSCALL && root in own && root in own'
    && Frame(mem, own, mem', own', root)
    && own'[root] == own[root]
    && (forall p | p in own && Mine(own', p, root) :: own'[p].path.P3? ==> own'[p] == own[p])
    && (forall v: nat | USYS_VPN <= v < NVPN :: Lookup(mem', root, v) == Lookup(mem, root, v))
    && (forall v: nat | Pages(newsz) <= v < USYS_VPN :: Lookup(mem', root, v) == ZERO)
  }

  /** The whole table is in order after such a step, and other processes do not notice. */
  lemma Resized(mem: Mem, own: Owners, procs: seq<Proc>, mem': Mem, own': Owners, i: nat, newsz: nat,
                nextpid: nat, tramp: nat)
    requires PtInv(mem, own) && 0 !in mem' && ProcsInv(mem, own, procs, nextpid, tramp)
    requires i < |procs| && procs[i].pagetable != 0
    requires SizeStep(mem, own, mem', own', procs[i].pagetable, newsz)
    ensures ProcsInv(mem', own', procs[i := procs[i].(sz := newsz)], nextpid, tramp)
    ensures SlotFrame(mem, own, mem', own', i, procs[i].pagetable)
    ensures OthersKept(mem, procs, mem', procs[i := procs[i].(sz := newsz)], i)
  {
    hide PtInv, SlotInv, Lookup, Pages, PidsOk, ImageOf, OthersKept, SlotFrame;
    FactsOf(mem, own, procs, nextpid, tramp, i);
    SizeChange(mem, own, procs, mem', own', i, newsz, nextpid, tramp);
    ResizedSlot(mem, own, mem', own', procs[i], i, newsz, tramp);
    Isolation(mem, own, procs, mem', own', procs[i := procs[i].(sz := newsz)], i, procs[i].pagetable, nextpid, tramp);
  }

  lemma UserStepSize(mem: Mem, own: Owners, mem': Mem, own': Owners, root: nat, sz: nat)
    requires UserOk(mem, own, root, sz) && UserStep(mem, own, mem', own', root, Pages(sz))
    ensures SizeStep(mem, own, mem', own', root, sz)
  {
    hide Lookup, TopOk;
  }

  lemma GrownSize(mem: Mem, own: Owners, mem': Mem, own': Owners, root: nat, sz: nat, lo: nat, hi: nat)
    requires UserOk(mem, own, root, sz) && Grown(mem, own, mem', own', root, lo, hi)
    requires lo == Pages(sz) && lo <= hi <= USYS_VPN
    ensures forall newsz: nat | Pages(newsz) == hi && newsz <= USYSCALL :: SizeStep(mem, own, mem', own', root, newsz)
  {
    GrownKeeps(mem, own, mem', own', root, lo, hi);
    hide Lookup, TopOk, Frame;
  }

  lemma ShrunkSize(mem: Mem, own: Owners, mem': Mem, own': Owners, root: nat, sz: nat, newsz: nat)
    requires UserOk(mem, own, root, sz) && newsz <= sz
    requires Unmapped(mem, own, mem', own', root, Pages(newsz), Pages(sz))
    ensures SizeStep(mem, own, mem', own', root, newsz)
  {
    UnmappedKeeps(mem, own, mem', own', root, Pages(newsz), Pages(sz));
    UnmappedLookups(mem, own, mem', own', root, Pages(newsz), Pages(sz));
    hide Lookup, TopOk, Frame;
  }

  /** The memory of the process after growing eagerly. */
  lemma GrownImage(mem: Mem, own: Owners, mem': Mem, own': Owners, root: nat, sz: nat, hi: nat)
    requires PtInv(mem, own) && UserOk(mem, own, root, sz) && Pages(sz) <= hi <= USYS_VPN
    requires Grown(mem, own, mem', own', root, Pages(sz), hi) && AllMapped(mem', root, Pages(sz), hi, RWU)
    ensures ViewOf(mem', root, hi) == Resize(ViewOf(mem, root, Pages(sz)), hi)
  {
    hide PtInv, Lookup, Grown, TopOk, View;
    var n := Pages(sz);
    forall w: nat | w < hi || w == USYS_VPN
      ensures View(mem', root, w) == if n <= w < hi then FreshPage() else View(mem, root, w)
    {
      if n <= w < hi {
        FreshView(mem', root, w);
      } else if w == USYS_VPN {
        SharedKept(mem, own, mem', own', root, n, hi);
      } else {
        GrownView(mem, own, mem', own', root, n, hi, w);
      }
    }
    assert ViewOf(mem', root, hi).pages == Resize(ViewOf(mem, root, n), hi).pages;
  }

  lemma FreshView(mem: Mem, root: nat, w: nat)
    requires MappedTo(mem, root, w, RWU, Fill(0))
    ensures View(mem, root, w) == FreshPage()
  {
  }

  /** The memory of the process after shrinking. */
  lemma ShrunkImage(mem: Mem, own: Owners, mem': Mem, own': Owners, root: nat, sz: nat, lo: nat)
    requires PtInv(mem, own) && UserOk(mem, own, root, sz) && lo <= Pages(sz)
    requires Unmapped(mem, own, mem', own', root, lo, Pages(sz))
    ensures ViewOf(mem', root, lo) == Resize(ViewOf(mem, root, Pages(sz)), lo)
  {
    hide PtInv, Lookup, Unmapped, TopOk, View;
    forall w: nat | w < lo || w == USYS_VPN ensures View(mem', root, w) == View(mem, root, w) {
      UnmappedView(mem, own, mem', own', root, sz, lo, w);
    }
    assert ViewOf(mem', root, lo).pages == Resize(ViewOf(mem, root, Pages(sz)), lo).pages;
  }

  lemma UnmappedView(mem: Mem, own: Owners, mem': Mem, own': Owners, root: nat, sz: nat, lo: nat, w: nat)
    requires PtInv(mem, own) && UserOk(mem, own, root, sz) && lo <= Pages(sz)
    requires Unmapped(mem, own, mem', own', root, lo, Pages(sz))
    requires w < lo || w == USYS_VPN
    ensures View(mem', root, w) == View(mem, root, w)
  {
    hide PtInv, Lookup, UserOk, Unmapped, View, InRange;
    PageBelow(mem, own, root, sz, lo, w);
    UserOkFacts(mem, own, root, sz);
    PageStays(mem, own, mem', own', root, lo, Pages(sz), w);
  }

  /** A page that the process can reach below lo, or the shared page, is not among those unmapped. */
  lemma PageBelow(mem: Mem, own: Owners, root: nat, sz: nat, lo: nat, w: nat)
    requires PtInv(mem, own) && UserOk(mem, own, root, sz) && lo <= Pages(sz) && (w < lo || w == USYS_VPN)
    ensures var e := Lookup(mem, root, w);
            e.f.v ==> && e.ppn in own && !own[e.ppn].Free? && !MyTable(own, e.ppn, root)
                      && !(Mine(own, e.ppn, root) && InRange(own[e.ppn].path, lo, Pages(sz)))
  {
    if w < USYS_VPN {
      UserLeaf(mem, own, root, w);
      PathInRange(w, lo, Pages(sz));
    }
    hide Lookup, PtInv, InRange;
  }

  lemma PageStays(mem: Mem, own: Owners, mem': Mem, own': Owners, root: nat, lo: nat, hi: nat, w: nat)
    requires IsRoot(own, root) && Unmapped(mem, own, mem', own', root, lo, hi) && !(lo <= w < hi)
    requires var e := Lookup(mem, root, w);
             e.f.v ==> && e.ppn in own && !own[e.ppn].Free? && !MyTable(own, e.ppn, root)
                       && !(Mine(own, e.ppn, root) && InRange(own[e.ppn].path, lo, hi))
    ensures View(mem', root, w) == View(mem, root, w)
  {
    UnmappedLookups(mem, own, mem', own', root, lo, hi);
    hide Lookup, InRange;
  }

  // ------------------------------------------------------------ the operations

  /** Process i acted: its size and its own pages may have changed, and nothing else. */
  ghost predicate Acted(mem: Mem, own: Owners, procs: seq<Proc>, mem': Mem, own': Owners, procs': seq<Proc>, i: nat) {
    && i < |procs'| == |procs|
    && procs' == procs[i := procs[i].(sz := procs'[i].sz)]
    && SlotFrame(mem, own, mem', own', i, procs[i].pagetable)
    && OthersKept(mem, procs, mem', procs', i)
  }

  lemma ActedNothing(mem: Mem, own: Owners, procs: seq<Proc>, i: nat)
    requires mem.Keys == own.Keys && i < |procs|
    ensures Acted(mem, own, procs, mem, own, procs, i)
  {
    hide ImageOf;
  }

  lemma ActedTrans(mem: Mem, own: Owners, procs: seq<Proc>, mem1: Mem, own1: Owners, procs1: seq<Proc>,
                   mem2: Mem, own2: Owners, procs2: seq<Proc>, i: nat)
    requires Acted(mem, own, procs, mem1, own1, procs1, i) && Acted(mem1, own1, procs1, mem2, own2, procs2, i)
    ensures Acted(mem, own, procs, mem2, own2, procs2, i)
  {
    hide ImageOf;
  }

  lemma ActedSlot(mem: Mem, own: Owners, procs: seq<Proc>, mem': Mem, own': Owners, procs': seq<Proc>, i: nat)
    requires Acted(mem, own, procs, mem', own', procs', i)
    ensures |procs'| == |procs| && procs'[i] == procs[i].(sz := procs'[i].sz)
    ensures SlotFrame(mem, own, mem', own', i, procs[i].pagetable)
    ensures OthersKept(mem, procs, mem', procs', i) && procs' == procs[i := procs'[i]]
  {
    hide OthersKept, SlotFrame;
  }

  /** What holds for the process that makes a system call. */
  lemma Running(mem: Mem, own: Owners, procs: seq<Proc>, i: nat, nextpid: nat, tramp: nat)
    requires ProcsInv(mem, own, procs, nextpid, tramp) && i < |procs| && procs[i].pagetable != 0
    ensures UserOk(mem, own, procs[i].pagetable, procs[i].sz)
    ensures UserOkNow(mem, own, procs[i])
  {
    hide Lookup, UserOk;
    assert SlotInv(mem, own, procs[i], i, tramp);
    LiveUserOk(mem, own, procs[i], i, tramp);
    UserOkFacts(mem, own, procs[i].pagetable, procs[i].sz);
  }

  lemma NowFacts(mem: Mem, own: Owners, p: Proc)
    requires UserOkNow(mem, own, p)
    ensures IsRoot(own, p.pagetable) && p.sz <= USYSCALL
    ensures forall v: nat | Pages(p.sz) <= v < USYS_VPN :: !Lookup(mem, p.pagetable, v).f.v
  {
    hide Lookup;
  }

  ghost predicate UserOkNow(mem: Mem, own: Owners, p: Proc) {
    && IsRoot(own, p.pagetable) && p.sz <= USYSCALL && Pages(p.sz) <= USYS_VPN
    && (forall v: nat | Pages(p.sz) <= v < USYS_VPN :: Lookup(mem, p.pagetable, v) == ZERO)
  }

  /**
   What sbrk does to the PTEs below root: those from page n on are gone, the others stay,
   and new ones have the bits of a fresh page.
   */
  ghost predicate Remaps(mem: Mem, mem': Mem, root: nat, n: nat) {
    forall w: nat ::
      if n <= w < USYS_VPN then !Lookup(mem', root, w).f.v
      else || Lookup(mem', root, w) == Lookup(mem, root, w)
           || (!Lookup(mem, root, w).f.v && Lookup(mem', root, w).f == RWU.(v := true))
  }

  /** Pages [lo, hi) are mapped to zeros, and no other translation changed. */
  ghost predicate Filled(mem: Mem, mem': Mem, root: nat, lo: nat, hi: nat) {
    forall w: nat ::
      if lo <= w < hi then MappedTo(mem', root, w, RWU, Fill(0)) else Lookup(mem', root, w) == Lookup(mem, root, w)
  }

  /** Pages [lo, hi) are not mapped, and no other translation changed. */
  ghost predicate Cut(mem: Mem, mem': Mem, root: nat, lo: nat, hi: nat) {
    forall w: nat :: Lookup(mem', root, w) == if lo <= w < hi then ZERO else Lookup(mem, root, w)
  }

  /** What sbrk does to the page table: an eager growth maps all that is new, a shrink unmaps what is given up. */
  ghost predicate SbrkPages(mem: Mem, mem': Mem, p: Proc, sz': nat, n: int32, eager: bool, ok: bool) {
    if eager && n > 0 && ok then Filled(mem, mem', p.pagetable, Pages(p.sz), Pages(sz'))
    else Cut(mem, mem', p.pagetable, Pages(sz'), Pages(p.sz))
  }

  /**
   The free pages that an eager growth takes: the new pages, and the tables that are missing
   for them. A growth beyond USYSCALL takes none.
   */
  ghost function GrowNeed(mem: Mem, p: Proc, n: int32): (need: nat)
    ensures need <= SbrkCost(n, true)
  {
    if n <= 0 || p.sz + n > USYSCALL then 0
    else
      GrowNeedBound(mem, p, n);
      MapNeed(From(Pages(p.sz)), MissingIn(mem, p.pagetable), Pages(p.sz + n))
  }

  lemma GrowNeedBound(mem: Mem, p: Proc, n: int32)
    requires n > 0
    ensures MapNeed(From(Pages(p.sz)), MissingIn(mem, p.pagetable), Pages(p.sz + n)) <= SbrkCost(n, true)
  {
    hide MapNeed, Count, From;
    MapNeedBounds(From(Pages(p.sz)), MissingIn(mem, p.pagetable), Pages(p.sz + n));
    CountFrom(Pages(p.sz), Pages(p.sz + n));
    PagesAdd(p.sz, n);
  }

  lemma FilledGrown(mem: Mem, own: Owners, mem': Mem, own': Owners, p: Proc, hi: nat)
    requires UserOkNow(mem, own, p) && Grown(mem, own, mem', own', p.pagetable, Pages(p.sz), hi)
    requires AllMapped(mem', p.pagetable, Pages(p.sz), hi, RWU)
    ensures Filled(mem, mem', p.pagetable, Pages(p.sz), hi)
  {
    hide Lookup;
  }

  lemma CutGrown(mem: Mem, own: Owners, mem': Mem, own': Owners, p: Proc)
    requires UserOkNow(mem, own, p) && Grown(mem, own, mem', own', p.pagetable, Pages(p.sz), Pages(p.sz))
    ensures Cut(mem, mem', p.pagetable, Pages(p.sz), Pages(p.sz))
  {
    hide Lookup;
  }

  lemma CutShrunk(mem: Mem, own: Owners, mem': Mem, own': Owners, p: Proc, lo: nat)
    requires UserOkNow(mem, own, p) && Unmapped(mem, own, mem', own', p.pagetable, lo, Pages(p.sz))
    ensures Cut(mem, mem', p.pagetable, lo, Pages(p.sz))
  {
    UnmappedLookups(mem, own, mem', own', p.pagetable, lo, Pages(p.sz));
    hide Lookup;
  }

  lemma CutNothing(mem: Mem, root: nat, lo: nat, hi: nat)
    requires hi <= lo
    ensures Cut(mem, mem, root, lo, hi)
  {
  }

  lemma RemapsGrown(mem: Mem, own: Owners, mem': Mem, own': Owners, p: Proc, hi: nat)
    requires UserOkNow(mem, own, p) && Pages(p.sz) <= hi <= USYS_VPN
    requires Grown(mem, own, mem', own', p.pagetable, Pages(p.sz), hi)
    requires AllMapped(mem', p.pagetable, Pages(p.sz), hi, RWU)
    ensures Remaps(mem, mem', p.pagetable, hi)
  {
    hide Lookup;
    forall w: nat | Pages(p.sz) <= w < hi
      ensures !Lookup(mem, p.pagetable, w).f.v && Lookup(mem', p.pagetable, w).f == RWU.(v := true)
    {
      assert MappedTo(mem', p.pagetable, w, RWU, Fill(0));
    }
  }

  lemma RemapsShrunk(mem: Mem, own: Owners, mem': Mem, own': Owners, p: Proc, lo: nat)
    requires UserOkNow(mem, own, p) && lo <= Pages(p.sz)
    requires Unmapped(mem, own, mem', own', p.pagetable, lo, Pages(p.sz))
    ensures Remaps(mem, mem', p.pagetable, lo)
  {
    UnmappedLookups(mem, own, mem', own', p.pagetable, lo, Pages(p.sz));
    hide Lookup;
  }

  lemma RemapsNothing(mem: Mem, own: Owners, p: Proc, n: nat)
    requires UserOkNow(mem, own, p) && Pages(p.sz) <= n
    ensures Remaps(mem, mem, p.pagetable, n)
  {
    hide Lookup;
  }

  /** The free pages that sbrk may take: a page and two tables for each page that it fills. */
  function SbrkCost(n: int32, eager: bool): nat {
    if eager && n > 0 then 3 * Pages(n) else 0
  }

  lemma PagesAdd(sz: nat, n: nat)
    ensures Pages(sz) <= Pages(sz + n) <= Pages(sz) + Pages(n)
  {
  }

  /** growproc, for process i. */
  method GrowProc(k: Kernel, i: nat, n: int32) returns (r: int, ghost oom: bool)
    requires k.Valid() && i < |k.procs| && k.procs[i].used
    modifies k, k.m
    ensures k.Valid() && k.nextpid == old(k.nextpid) && |k.procs| == |old(k.procs)|
    ensures Acted(old(k.m.mem), old(k.m.own), old(k.procs), k.m.mem, k.m.own, k.procs, i)
    ensures !oom ==> (ImageOf(k.m.mem, k.procs[i]), r) == Grow(old(ImageOf(k.m.mem, k.procs[i])), n)
    // it fails on a growth beyond USYSCALL, and a success changes the size by n unless n takes away more than there is
    ensures r == -1 <==> oom || (n > 0 && old(k.procs)[i].sz + n > USYSCALL)
    ensures r != -1 ==> (k.procs[i].sz == old(k.procs)[i].sz + n <==> old(k.procs)[i].sz + n >= 0)
    ensures oom ==> r == -1 && ImageOf(k.m.mem, k.procs[i]) == old(ImageOf(k.m.mem, k.procs[i]))
    // an eager growth runs out of memory exactly when the free pages do not cover it
    ensures oom <==> |old(k.m.free)| < GrowNeed(old(k.m.mem), old(k.procs)[i], n)
    ensures SbrkPages(old(k.m.mem), k.m.mem, old(k.procs)[i], k.procs[i].sz, n, true, r == 0)
    ensures |old(k.m.free)| <= |k.m.free| + GrowNeed(old(k.m.mem), old(k.procs)[i], n)
    ensures Remaps(old(k.m.mem), k.m.mem, k.procs[i].pagetable, Pages(k.procs[i].sz))
  {
    hide PtInv, SlotInv, ProcsInv, Lookup, UserOk, UserOkNow, ViewOf, Grown, AllMapped, Unmapped, Acted, ImageOf,
      Resize, Remaps, MapNeed, Missing, Filled, Cut, MakesTable;
    ghost var mem0, own0, procs0 := k.m.mem, k.m.own, k.procs;
    Running(mem0, own0, procs0, i, k.nextpid, k.tramp);
    NowFacts(mem0, own0, procs0[i]);
    ImageSize(mem0, procs0[i]);
    GrowExact(ImageOf(mem0, procs0[i]), n);
    ActedNothing(mem0, own0, procs0, i);
    RemapsNothing(mem0, own0, procs0[i], Pages(procs0[i].sz));
    CutNothing(mem0, procs0[i].pagetable, Pages(procs0[i].sz), Pages(procs0[i].sz));
    var p := k.procs[i];
    var sz := p.sz;
    if n > 0 {
      if sz + n > USYSCALL {
        return -1, false;
      }
      GrowNeedBound(mem0, p, n);
      sz := UvmAlloc(k.m, p.pagetable, sz, sz + n, NONE.(w := true));
      if sz == 0 {
        FailedGrow(mem0, own0, procs0, k.m.mem, k.m.own, i, k.nextpid, k.tramp);
        return -1, true;
      }
      GrewTo(mem0, own0, procs0, k.m.mem, k.m.own, i, sz, k.nextpid, k.tramp);
    } else if n < 0 {
      sz := UvmDealloc(k.m, p.pagetable, sz, (sz + n) % WORD);
      if sz != p.sz {
        ShrunkTo(mem0, own0, procs0, k.m.mem, k.m.own, i, sz, k.nextpid, k.tramp);
      }
    }
    assert sz == p.sz ==> procs0[i := p.(sz := sz)] == procs0;
    k.procs := k.procs[i := p.(sz := sz)];
    return 0, false;
  }

  lemma ImageSize(mem: Mem, p: Proc)
    ensures ImageOf(mem, p).sz == p.sz
  {
  }

  /** After an eager growth to sz that succeeded. */
  lemma GrewTo(mem: Mem, own: Owners, procs: seq<Proc>, mem': Mem, own': Owners, i: nat, sz: nat,
              nextpid: nat, tramp: nat)
    requires PtInv(mem, own) && 0 !in mem' && ProcsInv(mem, own, procs, nextpid, tramp)
    requires i < |procs| && procs[i].pagetable != 0 && procs[i].sz <= sz <= USYSCALL
    requires Grown(mem, own, mem', own', procs[i].pagetable, Pages(procs[i].sz), Pages(sz))
    requires AllMapped(mem', procs[i].pagetable, Pages(procs[i].sz), Pages(sz), RWU)
    ensures var procs' := procs[i := procs[i].(sz := sz)];
            && ProcsInv(mem', own', procs', nextpid, tramp)
            && Acted(mem, own, procs, mem', own', procs', i)
            && ImageOf(mem', procs'[i]) == Image(sz, Resize(ImageOf(mem, procs[i]).mem, Pages(sz)))
    ensures Remaps(mem, mem', procs[i].pagetable, Pages(sz))
    ensures Filled(mem, mem', procs[i].pagetable, Pages(procs[i].sz), Pages(sz))
  {
    hide PtInv, ProcsInv, Lookup, UserOk, ViewOf, Grown, AllMapped, SizeStep, SlotFrame, OthersKept, Remaps, UserOkNow,
      Filled, Cut;
    Running(mem, own, procs, i, nextpid, tramp);
    FilledGrown(mem, own, mem', own', procs[i], Pages(sz));
    RemapsGrown(mem, own, mem', own', procs[i], Pages(sz));
    GrownSize(mem, own, mem', own', procs[i].pagetable, procs[i].sz, Pages(procs[i].sz), Pages(sz));
    Resized(mem, own, procs, mem', own', i, sz, nextpid, tramp);
    GrownImage(mem, own, mem', own', procs[i].pagetable, procs[i].sz, Pages(sz));
  }

  /** After an eager growth that ran out of memory: only tables remain of it. */
  lemma FailedGrow(mem: Mem, own: Owners, procs: seq<Proc>, mem': Mem, own': Owners, i: nat,
                   nextpid: nat, tramp: nat)
    requires PtInv(mem, own) && 0 !in mem' && ProcsInv(mem, own, procs, nextpid, tramp)
    requires i < |procs| && procs[i].pagetable != 0
    requires Grown(mem, own, mem', own', procs[i].pagetable, Pages(procs[i].sz), Pages(procs[i].sz))
    ensures ProcsInv(mem', own', procs, nextpid, tramp) && Acted(mem, own, procs, mem', own', procs, i)
    ensures ImageOf(mem', procs[i]) == ImageOf(mem, procs[i])
    ensures Remaps(mem, mem', procs[i].pagetable, Pages(procs[i].sz))
    ensures Cut(mem, mem', procs[i].pagetable, Pages(procs[i].sz), Pages(procs[i].sz))
  {
    hide PtInv, ProcsInv, Lookup, UserOk, ViewOf, Grown, SizeStep, SlotFrame, OthersKept, Remaps, UserOkNow,
      Filled, Cut;
    Running(mem, own, procs, i, nextpid, tramp);
    CutGrown(mem, own, mem', own', procs[i]);
    UserOkFacts(mem, own, procs[i].pagetable, procs[i].sz);
    var n := Pages(procs[i].sz);
    GrownSize(mem, own, mem', own', procs[i].pagetable, procs[i].sz, n, n);
    assert procs[i := procs[i].(sz := procs[i].sz)] == procs;
    Resized(mem, own, procs, mem', own', i, procs[i].sz, nextpid, tramp);
    AllMappedNone(mem', procs[i].pagetable, n, RWU);
    RemapsGrown(mem, own, mem', own', procs[i], n);
    GrownImage(mem, own, mem', own', procs[i].pagetable, procs[i].sz, n);
    SameSize(ViewOf(mem, procs[i].pagetable, n), n);
  }

  lemma SameSize(s: UserMem, n: nat)
    requires |s.pages| == n
    ensures Resize(s, n) == s
  {
    assert Resize(s, n).pages == s.pages;
  }

  /** After a shrink to sz. */
  lemma ShrunkTo(mem: Mem, own: Owners, procs: seq<Proc>, mem': Mem, own': Owners, i: nat, sz: nat,
                nextpid: nat, tramp: nat)
    requires PtInv(mem, own) && 0 !in mem' && ProcsInv(mem, own, procs, nextpid, tramp)
    requires i < |procs| && procs[i].pagetable != 0 && sz <= procs[i].sz
    requires Unmapped(mem, own, mem', own', procs[i].pagetable, Pages(sz), Pages(procs[i].sz))
    ensures var procs' := procs[i := procs[i].(sz := sz)];
            && ProcsInv(mem', own', procs', nextpid, tramp)
            && Acted(mem, own, procs, mem', own', procs', i)
            && ImageOf(mem', procs'[i]) == Image(sz, Resize(ImageOf(mem, procs[i]).mem, Pages(sz)))
    ensures Remaps(mem, mem', procs[i].pagetable, Pages(sz))
    ensures Cut(mem, mem', procs[i].pagetable, Pages(sz), Pages(procs[i].sz))
  {
    hide PtInv, ProcsInv, Lookup, UserOk, ViewOf, Unmapped, SizeStep, SlotFrame, OthersKept, Remaps, UserOkNow,
      Filled, Cut;
    Running(mem, own, procs, i, nextpid, tramp);
    CutShrunk(mem, own, mem', own', procs[i], Pages(sz));
    RemapsShrunk(mem, own, mem', own', procs[i], Pages(sz));
    ShrunkSize(mem, own, mem', own', procs[i].pagetable, procs[i].sz, sz);
    Resized(mem, own, procs, mem', own', i, sz, nextpid, tramp);
    ShrunkImage(mem, own, mem', own', procs[i].pagetable, procs[i].sz, Pages(sz));
  }

  /** sys_sbrk: growproc, or for a lazy growth just a new size. The meaning is the same. */
  method SysSbrk(k: Kernel, i: nat, n: int32, eager: bool) returns (r: int, ghost oom: bool)
    requires k.Valid() && i < |k.procs| && k.procs[i].used
    modifies k, k.m
    ensures k.Valid() && k.nextpid == old(k.nextpid) && |k.procs| == |old(k.procs)|
    ensures Acted(old(k.m.mem), old(k.m.own), old(k.procs), k.m.mem, k.m.own, k.procs, i)
    ensures !oom ==> (ImageOf(k.m.mem, k.procs[i]), r) == Sbrk(old(ImageOf(k.m.mem, k.procs[i])), n)
    // it fails on a growth beyond USYSCALL, and a success changes the size by n unless n takes away more than there is
    ensures r == -1 <==> oom || (n > 0 && old(k.procs)[i].sz + n > USYSCALL)
    ensures r != -1 ==> (k.procs[i].sz == old(k.procs)[i].sz + n <==> old(k.procs)[i].sz + n >= 0)
    ensures oom ==> eager && r == -1 && ImageOf(k.m.mem, k.procs[i]) == old(ImageOf(k.m.mem, k.procs[i]))
    ensures oom <==> eager && |old(k.m.free)| < GrowNeed(old(k.m.mem), old(k.procs)[i], n)
    ensures SbrkPages(old(k.m.mem), k.m.mem, old(k.procs)[i], k.procs[i].sz, n, eager, r != -1)
    // a lazy growth touches no page
    ensures !eager && n >= 0 ==> unchanged(k.m)
    ensures |old(k.m.free)| <= |k.m.free| + if eager then GrowNeed(old(k.m.mem), old(k.procs)[i], n) else 0
    ensures Remaps(old(k.m.mem), k.m.mem, k.procs[i].pagetable, Pages(k.procs[i].sz))
  {
    hide PtInv, SlotInv, ProcsInv, Lookup, UserOk, UserOkNow, ViewOf, Acted, ImageOf, Resize, Remaps,
      MapNeed, Filled, Cut;
    ghost var mem0, own0, procs0 := k.m.mem, k.m.own, k.procs;
    ImageSize(mem0, procs0[i]);
    Running(mem0, own0, procs0, i, k.nextpid, k.tramp);
    NowFacts(mem0, own0, procs0[i]);
    SbrkExact(ImageOf(mem0, procs0[i]), n);
    var addr := k.procs[i].sz;
    if eager || n < 0 {
      var g;
      g, oom := GrowProc(k, i, n);
      return if g < 0 then -1 else addr, oom;
    }
    ActedNothing(mem0, own0, procs0, i);
    Running(mem0, own0, procs0, i, k.nextpid, k.tramp);
    NowFacts(mem0, own0, procs0[i]);
    RemapsNothing(mem0, own0, procs0[i], Pages(procs0[i].sz));
    CutNothing(mem0, procs0[i].pagetable, Pages(procs0[i].sz), Pages(procs0[i].sz));
    CutNothing(mem0, procs0[i].pagetable, Pages(addr + n), Pages(procs0[i].sz));
    if (addr + n) % WORD < addr {
      return -1, false;
    }
    if addr + n > USYSCALL {
      return -1, false;
    }
    LazilyGrown(mem0, own0, procs0, i, addr + n, k.nextpid, k.tramp);
    k.procs := k.procs[i := k.procs[i].(sz := k.procs[i].sz + n)];
    return addr, false;
  }

  /** After a lazy growth to sz. */
  lemma LazilyGrown(mem: Mem, own: Owners, procs: seq<Proc>, i: nat, sz: nat, nextpid: nat, tramp: nat)
    requires PtInv(mem, own) && 0 !in mem && ProcsInv(mem, own, procs, nextpid, tramp)
    requires i < |procs| && procs[i].pagetable != 0 && procs[i].sz <= sz <= USYSCALL
    ensures var procs' := procs[i := procs[i].(sz := sz)];
            && ProcsInv(mem, own, procs', nextpid, tramp)
            && Acted(mem, own, procs, mem, own, procs', i)
            && ImageOf(mem, procs'[i]) == Image(sz, Resize(ImageOf(mem, procs[i]).mem, Pages(sz)))
    ensures Remaps(mem, mem, procs[i].pagetable, Pages(sz))
  {
    hide PtInv, ProcsInv, Lookup, UserOk, ViewOf, SizeStep, SlotFrame, OthersKept, Remaps, UserOkNow;
    Running(mem, own, procs, i, nextpid, tramp);
    RemapsNothing(mem, own, procs[i], Pages(sz));
    LazySize(mem, own, procs[i].pagetable, procs[i].sz, sz);
    Resized(mem, own, procs, mem, own, i, sz, nextpid, tramp);
    LazyImage(mem, own, procs[i].pagetable, procs[i].sz, sz);
  }

  lemma LazySize(mem: Mem, own: Owners, root: nat, sz: nat, newsz: nat)
    requires PtInv(mem, own) && UserOk(mem, own, root, sz) && sz <= newsz <= USYSCALL
    ensures SizeStep(mem, own, mem, own, root, newsz)
  {
    hide Lookup, TopOk, NodeOk;
  }

  lemma LazyImage(mem: Mem, own: Owners, root: nat, sz: nat, newsz: nat)
    requires UserOk(mem, own, root, sz) && sz <= newsz <= USYSCALL
    ensures ViewOf(mem, root, Pages(newsz)) == Resize(ViewOf(mem, root, Pages(sz)), Pages(newsz))
  {
    hide Lookup, TopOk;
    assert ViewOf(mem, root, Pages(newsz)).pages == Resize(ViewOf(mem, root, Pages(sz)), Pages(newsz)).pages;
  }

  /** A copy or a fault keeps the size; other processes do not notice it. */
  lemma UserActed(mem: Mem, own: Owners, procs: seq<Proc>, mem': Mem, own': Owners, i: nat, nextpid: nat, tramp: nat)
    requires PtInv(mem, own) && 0 !in mem' && ProcsInv(mem, own, procs, nextpid, tramp)
    requires i < |procs| && procs[i].pagetable != 0
    requires UserStep(mem, own, mem', own', procs[i].pagetable, Pages(procs[i].sz))
    ensures ProcsInv(mem', own', procs, nextpid, tramp) && Acted(mem, own, procs, mem', own', procs, i)
  {
    hide PtInv, ProcsInv, Lookup, UserOk, UserStep, ViewOf, SizeStep, SlotFrame, OthersKept;
    Running(mem, own, procs, i, nextpid, tramp);
    UserStepSize(mem, own, mem', own', procs[i].pagetable, procs[i].sz);
    assert procs[i := procs[i].(sz := procs[i].sz)] == procs;
    Resized(mem, own, procs, mem', own', i, procs[i].sz, nextpid, tramp);
  }

  /** The pages that p may use and has not been given, among those that the len bytes from va on lie in. */
  function HolesOf(mem: Mem, p: Proc, va: nat, len: nat): (h: nat)
    ensures h <= Rounds(va, len)
  {
    HolesAt(mem, p.pagetable, va, len, Pages(p.sz))
  }

  /** copyout to process i. A store by the program itself is the same, one byte after another. */
  method Write(k: Kernel, i: nat, va: nat, src: seq<byte>) returns (ok: bool, ghost cnt: nat, ghost oom: bool)
    requires k.Valid() && i < |k.procs| && k.procs[i].used
    modifies k, k.m
    ensures k.Valid() && k.nextpid == old(k.nextpid) && k.procs == old(k.procs)
    ensures Acted(old(k.m.mem), old(k.m.own), old(k.procs), k.m.mem, k.m.own, k.procs, i)
    ensures old(ImageOf(k.m.mem, k.procs[i])).mem.Valid()
    ensures !oom ==> (ImageOf(k.m.mem, k.procs[i]).mem, ok) == CopyOut(old(ImageOf(k.m.mem, k.procs[i])).mem, va, src)
    // when memory runs out, the first cnt bytes have been written
    ensures cnt <= |src| && (ImageOf(k.m.mem, k.procs[i]).mem, true) ==
                            CopyOut(old(ImageOf(k.m.mem, k.procs[i])).mem, va, src[..cnt])
    ensures ok <==> cnt == |src|
    ensures oom ==> !ok && |old(k.m.free)| < 3 * HolesOf(old(k.m.mem), old(k.procs)[i], va, |src|)
    // the pages of the bytes copied are mapped, and no others are
    ensures Brought(old(k.m.mem), k.m.mem, k.procs[i].pagetable, va / 4096, Rounds(va, cnt))
    ensures |old(k.m.free)| <= |k.m.free| + 3 * HolesOf(old(k.m.mem), old(k.procs)[i], va, |src|)
    ensures UserStep(old(k.m.mem), old(k.m.own), k.m.mem, k.m.own, k.procs[i].pagetable, Pages(k.procs[i].sz))
  {
    hide PtInv, SlotInv, ProcsInv, Lookup, UserOk, UserStep, ViewOf, Acted, CopyOut, HolesAt, Brought, Rounds;
    ghost var mem0, own0 := k.m.mem, k.m.own;
    Running(mem0, own0, k.procs, i, k.nextpid, k.tramp);
    var r;
    r, cnt, oom := CopyOutUser(k.m, k.procs[i].pagetable, k.procs[i].sz, va, src);
    UserActed(mem0, own0, k.procs, k.m.mem, k.m.own, i, k.nextpid, k.tramp);
    ok := r == 0;
  }

  /** copyin from process i; also a load by the program. */
  method Read(k: Kernel, i: nat, va: nat, len: nat) returns (bytes: seq<byte>, ok: bool, ghost oom: bool)
    requires k.Valid() && i < |k.procs| && k.procs[i].used
    modifies k, k.m
    ensures k.Valid() && k.nextpid == old(k.nextpid) && k.procs == old(k.procs)
    ensures Acted(old(k.m.mem), old(k.m.own), old(k.procs), k.m.mem, k.m.own, k.procs, i)
    ensures ImageOf(k.m.mem, k.procs[i]) == old(ImageOf(k.m.mem, k.procs[i]))
    ensures ImageOf(k.m.mem, k.procs[i]).mem.Valid()
    ensures ok ==> |bytes| == len
    ensures !oom ==> (bytes, ok) == CopyIn(ImageOf(k.m.mem, k.procs[i]).mem, va, len)
    ensures oom ==> !ok && |old(k.m.free)| < 3 * HolesOf(old(k.m.mem), old(k.procs)[i], va, len)
    ensures Brought(old(k.m.mem), k.m.mem, k.procs[i].pagetable, va / 4096, Rounds(va, |bytes|))
    ensures |old(k.m.free)| <= |k.m.free| + 3 * HolesOf(old(k.m.mem), old(k.procs)[i], va, len)
    ensures UserStep(old(k.m.mem), old(k.m.own), k.m.mem, k.m.own, k.procs[i].pagetable, Pages(k.procs[i].sz))
  {
    hide PtInv, SlotInv, ProcsInv, Lookup, UserOk, UserStep, ViewOf, Acted, CopyIn, HolesAt, Brought, Rounds;
    ghost var mem0, own0 := k.m.mem, k.m.own;
    Running(mem0, own0, k.procs, i, k.nextpid, k.tramp);
    var r;
    r, bytes, oom := CopyInUser(k.m, k.procs[i].pagetable, k.procs[i].sz, va, len);
    UserActed(mem0, own0, k.procs, k.m.mem, k.m.own, i, k.nextpid, k.tramp);
    ok := r == 0;
  }

  /** copyinstr from process i. */
  method ReadStr(k: Kernel, i: nat, va: nat, max: nat) returns (bytes: seq<byte>, ok: bool, ghost oom: bool)
    requires k.Valid() && i < |k.procs| && k.procs[i].used
    modifies k, k.m
    ensures k.Valid() && k.nextpid == old(k.nextpid) && k.procs == old(k.procs)
    ensures Acted(old(k.m.mem), old(k.m.own), old(k.procs), k.m.mem, k.m.own, k.procs, i)
    ensures ImageOf(k.m.mem, k.procs[i]) == old(ImageOf(k.m.mem, k.procs[i]))
    ensures ImageOf(k.m.mem, k.procs[i]).mem.Valid()
    ensures !oom ==> (bytes, ok) == CopyInStr(ImageOf(k.m.mem, k.procs[i]).mem, va, max)
    ensures oom ==> !ok && |old(k.m.free)| < 3 * HolesOf(old(k.m.mem), old(k.procs)[i], va, max)
    ensures Brought(old(k.m.mem), k.m.mem, k.procs[i].pagetable, va / 4096, Rounds(va, |bytes|))
    ensures |old(k.m.free)| <= |k.m.free| + 3 * HolesOf(old(k.m.mem), old(k.procs)[i], va, max)
    ensures UserStep(old(k.m.mem), old(k.m.own), k.m.mem, k.m.own, k.procs[i].pagetable, Pages(k.procs[i].sz))
  {
    hide PtInv, SlotInv, ProcsInv, Lookup, UserOk, UserStep, ViewOf, Acted, CopyInStr, HolesAt, Brought, Rounds;
    ghost var mem0, own0 := k.m.mem, k.m.own;
    Running(mem0, own0, k.procs, i, k.nextpid, k.tramp);
    var r;
    r, bytes, oom := CopyInStrUser(k.m, k.procs[i].pagetable, k.procs[i].sz, va, max);
    UserActed(mem0, own0, k.procs, k.m.mem, k.m.own, i, k.nextpid, k.tramp);
    ok := r == 0;
  }

  /** A page fault of process i at any address: whatever comes of it, the memory looks the same. */
  method Fault(k: Kernel, i: nat, va: nat) returns (pn: nat)
    requires k.Valid() && i < |k.procs| && k.procs[i].used
    modifies k, k.m
    ensures k.Valid() && k.nextpid == old(k.nextpid) && k.procs == old(k.procs)
    ensures Acted(old(k.m.mem), old(k.m.own), old(k.procs), k.m.mem, k.m.own, k.procs, i)
    ensures ImageOf(k.m.mem, k.procs[i]) == old(ImageOf(k.m.mem, k.procs[i]))
    // a page is mapped exactly when va is below the size, not mapped yet, and there are pages for it and its tables
    ensures var (root, v) := (k.procs[i].pagetable, va / 4096);
            var due := va < k.procs[i].sz && !Lookup(old(k.m.mem), root, v).f.v;
            && (pn != 0 ==> due && MappedTo(k.m.mem, root, v, RWU, Fill(0)) && Lookup(k.m.mem, root, v).ppn == pn)
            && (due ==> (pn != 0 <==> Missing(old(k.m.mem), root, v) < |old(k.m.free)|))
            && (!due ==> unchanged(k.m))
            && Brought(old(k.m.mem), k.m.mem, root, v, if pn == 0 then 0 else 1)
    ensures |old(k.m.free)| <=
            |k.m.free| + if Hole(old(k.m.mem), k.procs[i].pagetable, va / 4096, Pages(k.procs[i].sz)) then 3 else 0
  {
    hide PtInv, SlotInv, ProcsInv, Lookup, UserOk, UserStep, ViewOf, Acted, Grown, MappedTo, Missing, Brought;
    ghost var mem0, own0 := k.m.mem, k.m.own;
    var p := k.procs[i];
    Running(mem0, own0, k.procs, i, k.nextpid, k.tramp);
    pn := VmFault(k.m, p.pagetable, p.sz, va);
    FaultStep(mem0, own0, k.m.mem, k.m.own, p.pagetable, p.sz, va / 4096, va / 4096 + if pn == 0 then 0 else 1);
    if pn != 0 {
      FaultedPage(k.m.mem, p.pagetable, va / 4096, pn);
    }
    FaultBrings(mem0, own0, k.m.mem, k.m.own, p.pagetable, va / 4096, va / 4096 + if pn == 0 then 0 else 1);
    UserActed(mem0, own0, k.procs, k.m.mem, k.m.own, i, k.nextpid, k.tramp);
  }
}
