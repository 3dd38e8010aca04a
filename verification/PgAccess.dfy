/**
 sys_pgaccess of sysproc.c: which pages were used since the last query, on one hart whose
 TLB sets the A bit of a PTE only when it fills an entry (section 4.3.1 of the RISC-V
 Privileged Architecture v1.12). The D bit plays no part and is not modelled.
 */
module PgAccess {
  import opened Riscv
  import opened PageTable
  import opened Kalloc
  import opened Vm
  import opened Space
  import opened Uvm
  import opened UserMemory
  import opened Copy
  import opened Proc
  import opened Processes
  import opened Syscalls

  // ------------------------------------------------------- one bit of one PTE

  function WithA(e: Pte, b: bool): Pte { e.(f := e.f.(a := b)) }

  /** Only the A bit of page v's PTE below root changed. */
  ghost predicate BitStep(mem: Mem, own: Owners, mem': Mem, root: nat, v: nat, b: bool) {
    && mem'.Keys == mem.Keys
    && LeafBecomes(mem, own, mem', root, v, WithA(Lookup(mem, root, v), b))
    && (forall p | p in own && p in mem && !MyTable(own, p, root) :: mem'[p] == mem[p])
  }

  lemma MarkLeaf(mem: Mem, own: Owners, t: nat, v: nat, b: bool)
    requires PtInv(mem, own) && IsLeafTable(own, t) && own[t].path == TablePath(0, v) && v < NVPN
    requires Slot(mem, t, I0(v)).f.v && Slot(mem, t, I0(v)) == Lookup(mem, own[t].root, v)
    ensures t in mem && IsTable(mem[t])
    ensures var mem' := WithSlot(mem, t, I0(v), WithA(Slot(mem, t, I0(v)), b));
            && PtInv(mem', own)
            && BitStep(mem, own, mem', own[t].root, v, b)
  {
    assert NodeOk(mem, own, t);
    assert SlotOk(mem, own, t, I0(v));
    var e := WithA(Slot(mem, t, I0(v)), b);
    Rewrite(mem, own, t, I0(v), e);
    LeafSetVpn(mem, own, t, v, e, WithSlot(mem, t, I0(v), e));
  }

  /** `*pte |= PTE_A` by the hardware, or `*pte &= ~PTE_A`. */
  method Mark(m: Machine, ghost root: nat, pte: PtePtr, ghost v: nat, b: bool)
    requires m.Valid() && v < NVPN && PointsTo(m.own, pte, root, v)
    requires Slot(m.mem, pte.page, pte.idx) == Lookup(m.mem, root, v) && Lookup(m.mem, root, v).f.v
    modifies m
    ensures m.Valid() && m.own == old(m.own) && m.free == old(m.free)
    ensures BitStep(old(m.mem), old(m.own), m.mem, root, v, b)
  {
    hide PtInv, Lookup, BitStep;
    ghost var mem0 := m.mem;
    MarkLeaf(m.mem, m.own, pte.page, v, b);
    FreeKept(m.end, m.mem, m.freelist, m.free, m.own,
             WithSlot(m.mem, pte.page, pte.idx, WithA(Slot(m.mem, pte.page, pte.idx), b)), m.own);
    m.mem := WithSlot(m.mem, pte.page, pte.idx, WithA(Slot(m.mem, pte.page, pte.idx), b));
  }

  /** The A bit does not matter to the process, nor to its page table being in order. */
  lemma BitKeeps(mem: Mem, own: Owners, mem': Mem, root: nat, sz: nat, v: nat, b: bool)
    requires PtInv(mem, own) && UserOk(mem, own, root, sz) && Lookup(mem, root, v).f.v
    requires BitStep(mem, own, mem', root, v, b)
    ensures UserOk(mem', own, root, sz)
    ensures ViewOf(mem', root, Pages(sz)) == ViewOf(mem, root, Pages(sz))
  {
    BitUserOk(mem, own, mem', root, sz, v, b);
    hide PtInv, Lookup, UserOk, ViewOf, View, BitStep;
    UserOkFacts(mem, own, root, sz);
    forall w: nat | w < Pages(sz) || w == USYS_VPN ensures View(mem', root, w) == View(mem, root, w) {
      BitView(mem, own, mem', root, sz, v, b, w);
    }
    ViewSame(mem, mem', root, Pages(sz));
  }

  lemma BitUserOk(mem: Mem, own: Owners, mem': Mem, root: nat, sz: nat, v: nat, b: bool)
    requires PtInv(mem, own) && UserOk(mem, own, root, sz) && Lookup(mem, root, v).f.v
    requires BitStep(mem, own, mem', root, v, b)
    ensures UserOk(mem', own, root, sz)
  {
    hide Lookup, NodeOk;
  }

  lemma BitView(mem: Mem, own: Owners, mem': Mem, root: nat, sz: nat, v: nat, b: bool, w: nat)
    requires PtInv(mem, own) && UserOk(mem, own, root, sz) && (w < Pages(sz) || w == USYS_VPN)
    requires BitStep(mem, own, mem', root, v, b)
    ensures View(mem', root, w) == View(mem, root, w)
  {
    hide PtInv, Lookup, UserOk, View, BitStep;
    NoTable(mem, own, root, sz, w);
    UserOkFacts(mem, own, root, sz);
    BitPage(mem, own, mem', root, v, b, w);
  }

  /** A page that the process can reach is not one of its tables. */
  lemma NoTable(mem: Mem, own: Owners, root: nat, sz: nat, w: nat)
    requires PtInv(mem, own) && UserOk(mem, own, root, sz) && (w < Pages(sz) || w == USYS_VPN)
    ensures var e := Lookup(mem, root, w);
            e.f.v ==> e.ppn in own && e.ppn in mem && !MyTable(own, e.ppn, root)
  {
    if w < USYS_VPN {
      UserLeaf(mem, own, root, w);
    }
    hide Lookup;
  }

  lemma BitPage(mem: Mem, own: Owners, mem': Mem, root: nat, v: nat, b: bool, w: nat)
    requires IsRoot(own, root) && BitStep(mem, own, mem', root, v, b)
    requires var e := Lookup(mem, root, w);
             e.f.v ==> e.ppn in own && e.ppn in mem && !MyTable(own, e.ppn, root)
    ensures View(mem', root, w) == View(mem, root, w)
  {
    hide Lookup;
  }

  /** Nor does it matter to the process table, and no other process notices. */
  lemma BitProcs(mem: Mem, own: Owners, procs: seq<Proc>, mem': Mem, i: nat, v: nat, b: bool, nextpid: nat, tramp: nat)
    requires PtInv(mem, own) && 0 !in mem' && ProcsInv(mem, own, procs, nextpid, tramp)
    requires i < |procs| && procs[i].pagetable != 0 && Lookup(mem, procs[i].pagetable, v).f.v
    requires BitStep(mem, own, mem', procs[i].pagetable, v, b)
    ensures ProcsInv(mem', own, procs, nextpid, tramp) && Acted(mem, own, procs, mem', own, procs, i)
  {
    hide PtInv, SlotInv, Lookup, BitStep, PidsOk, OthersKept, SlotFrame;
    FactsOf(mem, own, procs, nextpid, tramp, i);
    NotNull(mem, own);
    var root := procs[i].pagetable;
    BitSlot(mem, own, mem', procs[i], i, v, b, tramp);
    BitFrame(mem, own, mem', i, root, v, b);
    assert procs[i := procs[i]] == procs;
    SlotChange(mem, own, procs, mem', own, i, procs[i], root, nextpid, nextpid, tramp);
    Isolation(mem, own, procs, mem', own, procs, i, root, nextpid, tramp);
    assert procs[i].(sz := procs[i].sz) == procs[i];
  }

  lemma BitFrame(mem: Mem, own: Owners, mem': Mem, i: nat, root: nat, v: nat, b: bool)
    requires mem.Keys == own.Keys && BitStep(mem, own, mem', root, v, b)
    ensures SlotFrame(mem, own, mem', own, i, root)
  {
    hide Lookup, LeafBecomes;
  }

  lemma BitSlot(mem: Mem, own: Owners, mem': Mem, p: Proc, i: nat, v: nat, b: bool, tramp: nat)
    requires SlotInv(mem, own, p, i, tramp) && p.pagetable != 0 && Lookup(mem, p.pagetable, v).f.v
    requires BitStep(mem, own, mem', p.pagetable, v, b)
    ensures SlotInv(mem', own, p, i, tramp)
  {
    BitLookups(mem, own, mem', p.pagetable, v, b);
    BitData(mem, own, mem', p.pagetable, v, b);
    BitTops(mem, mem', p, v, b, tramp);
    hide Lookup, BitStep, PidPage, TopMapped;
  }

  lemma BitData(mem: Mem, own: Owners, mem': Mem, root: nat, v: nat, b: bool)
    requires BitStep(mem, own, mem', root, v, b)
    ensures mem'.Keys == mem.Keys
    ensures forall q | q in own && q in mem && !own[q].Node? :: mem'[q] == mem[q]
  {
    hide Lookup, LeafBecomes;
  }

  lemma BitTops(mem: Mem, mem': Mem, p: Proc, v: nat, b: bool, tramp: nat)
    requires p.pagetable != 0
    requires forall w: nat ::
               Lookup(mem', p.pagetable, w) ==
               if w == v then WithA(Lookup(mem, p.pagetable, v), b) else Lookup(mem, p.pagetable, w)
    ensures TopMapped(mem, p, tramp) ==> TopMapped(mem', p, tramp)
  {
    hide Lookup;
  }

  /** The same, for process i of a kernel. */
  method MarkPage(k: Kernel, i: nat, pte: PtePtr, ghost v: nat, b: bool)
    requires k.Valid() && i < |k.procs| && k.procs[i].used
    requires v < NVPN && PointsTo(k.m.own, pte, k.procs[i].pagetable, v)
    requires Slot(k.m.mem, pte.page, pte.idx) == Lookup(k.m.mem, k.procs[i].pagetable, v)
    requires Lookup(k.m.mem, k.procs[i].pagetable, v).f.v
    modifies k.m
    ensures k.Valid() && k.m.own == old(k.m.own) && k.m.free == old(k.m.free)
    ensures BitStep(old(k.m.mem), k.m.own, k.m.mem, k.procs[i].pagetable, v, b)
    ensures Acted(old(k.m.mem), k.m.own, k.procs, k.m.mem, k.m.own, k.procs, i)
    ensures ImageOf(k.m.mem, k.procs[i]) == old(ImageOf(k.m.mem, k.procs[i]))
  {
    hide PtInv, ProcsInv, Lookup, UserOk, ViewOf, BitStep, Acted;
    ghost var mem0 := k.m.mem;
    Running(mem0, k.m.own, k.procs, i, k.nextpid, k.tramp);
    Mark(k.m, k.procs[i].pagetable, pte, v, b);
    NotNull(k.m.mem, k.m.own);
    BitProcs(mem0, k.m.own, k.procs, k.m.mem, i, v, b, k.nextpid, k.tramp);
    BitKeeps(mem0, k.m.own, k.m.mem, k.procs[i].pagetable, k.procs[i].sz, v, b);
  }

  // ----------------------------------------------------------------- the hart

  /** The 64 bits of a uint64, lowest first. */
  type Bits = s: seq<bool> | |s| == 64 witness seq(64, _ => false)

  function Pow2(k: nat): nat { if k == 0 then 1 else 2 * Pow2(k - 1) }

  /** The number with these bits, lowest first. */
  function Value(bits: seq<bool>): (n: nat)
    ensures n < Pow2(|bits|)
  {
    if bits == [] then 0 else (if bits[0] then 1 else 0) + 2 * Value(bits[1..])
  }

  /** How a program tests bit k of a number. */
  predicate TestBit(n: nat, k: nat) {
    if k == 0 then n % 2 == 1 else TestBit(n / 2, k - 1)
  }

  lemma {:induction false} ValueBits(bits: seq<bool>, k: nat)
    requires k < |bits|
    ensures TestBit(Value(bits), k) == bits[k]
  {
    Halves(if bits[0] then 1 else 0, Value(bits[1..]));
    if k > 0 {
      ValueBits(bits[1..], k - 1);
    }
  }

  lemma Halves(b: nat, n: nat)
    requires b < 2
    ensures (b + 2 * n) / 2 == n && (b + 2 * n) % 2 == b
  {
  }

  /** The mask in memory, eight bits a byte, little endian. */
  function MaskBytes(mask: Bits): (r: seq<byte>)
    ensures |r| == 8
  {
    seq(8, j requires 0 <= j < 8 => MaskByte(mask, j))
  }

  function MaskByte(mask: Bits, j: nat): byte
    requires j < 8
  {
    assert Pow2(8) == 256;
    Value(mask[8 * j..8 * j + 8])
  }

  /** The program finds in memory the mask that the kernel computed. */
  lemma MaskReadBack(mask: Bits, i: nat)
    requires i < 64
    ensures TestBit(MaskBytes(mask)[i / 8], i % 8) == mask[i]
  {
    hide TestBit, Value;
    var j := i / 8;
    ValueBits(mask[8 * j..8 * j + 8], i % 8);
    assert MaskBytes(mask)[j] == MaskByte(mask, j);
  }

  /** What can be told of a process on the hart: its image, and the pages used since they were asked about. */
  datatype World = World(image: Image, touched: set<nat>)

  /**
   Process i of a kernel, on one hart. tlb holds the translations that are cached; touched is
   the history that pgaccess is about: the pages used since the last query that covered them,
   or whose A bit was set already when the process started here.
   */
  class Hart {
    const k: Kernel
    const i: nat
    var tlb: map<nat, Pte>
    ghost var touched: set<nat>

    ghost predicate Valid()
      reads this, k, k.m
    {
      && k.Valid() && i < |k.procs| && k.procs[i].used
      && Coherent(k.m.mem, k.procs[i].pagetable, tlb, touched)
    }

    ghost function Seen(): World
      reads this, k, k.m
      requires i < |k.procs|
    {
      World(ImageOf(k.m.mem, k.procs[i]), touched)
    }

    /** A process that starts with an empty TLB. */
    constructor (k: Kernel, i: nat)
      requires k.Valid() && i < |k.procs| && k.procs[i].used
      ensures Valid() && this.k == k && this.i == i
      ensures forall v: nat :: v in touched <==> v < NVPN && Used(k.m.mem, k.procs[i].pagetable, v)
    {
      hide ProcsInv, PtInv, FreeOk, Lookup;
      this.k, this.i := k, i;
      tlb := map[];
      touched := set v: nat | v < NVPN && Used(k.m.mem, k.procs[i].pagetable, v);
    }

    /** The hardware drops a translation, at any time. */
    method Evict(v: nat)
      requires Valid()
      modifies `tlb
      ensures Valid() && tlb == old(tlb) - {v}
    {
      hide ProcsInv, PtInv, FreeOk, Lookup;
      tlb := tlb - {v};
    }

    /**
     A load or a store of the program in virtual page v. A hit in the TLB leaves the page
     table alone; a miss sets the A bit of the PTE and caches it; a page that is not mapped
     faults first.
     */
    method Access(v: nat, write: bool) returns (ok: bool, ghost oom: bool)
      requires Valid()
      modifies this, k.m
      ensures Valid()
      ensures touched == if ok then old(touched) + {v} else old(touched)
      ensures Acted(old(k.m.mem), old(k.m.own), k.procs, k.m.mem, k.m.own, k.procs, i)
      ensures ImageOf(k.m.mem, k.procs[i]) == old(ImageOf(k.m.mem, k.procs[i]))
      ensures var s := ImageOf(k.m.mem, k.procs[i]).mem;
              && (ok ==> if write then s.Writable(v) else s.Readable(v))
              && (!ok && !oom ==> !if write then s.Writable(v) else s.Readable(v))
      // only a page that is due and not mapped yet, and so not touched either, may find no memory
      ensures oom ==> !ok && v !in old(touched) && Hole(old(k.m.mem), k.procs[i].pagetable, v, Pages(k.procs[i].sz))
      ensures oom ==> |old(k.m.free)| <= Missing(old(k.m.mem), k.procs[i].pagetable, v)
      ensures |old(k.m.free)| <=
              |k.m.free| + if Hole(old(k.m.mem), k.procs[i].pagetable, v, Pages(k.procs[i].sz)) then 3 else 0
    {
      hide UserOk, PtInv, ProcsInv, FreeOk, Lookup, Coherent, Used, ViewOf, UserStep, Grown, MappedTo, Acted, Missing;
      ghost var mem0, own0 := k.m.mem, k.m.own;
      var (root, psz) := (k.procs[i].pagetable, k.procs[i].sz);
      Running(mem0, own0, k.procs, i, k.nextpid, k.tramp);
      NotNull(mem0, own0);
      ActedNothing(mem0, own0, k.procs, i);
      if v in tlb {
        CachedPage(mem0, own0, root, psz, tlb, touched, v);
        if Permits(tlb[v], write) {
          return true, false;
        }
        return false, false;
      }
      PageFacts(mem0, own0, root, psz, v);
      TouchedMapped(mem0, root, tlb, touched, v);
      if v < NVPN {
        var pte := Walk(k.m, root, v * 4096, false);
        if pte.At? && Permits(Slot(k.m.mem, pte.page, pte.idx), write) {
          Fill(v, pte);
          return true, false;
        }
      }
      var pn := VmFault(k.m, root, psz, v * 4096);
      FaultStep(mem0, own0, k.m.mem, k.m.own, root, psz, v, v + if pn == 0 then 0 else 1);
      StepUserOk(mem0, own0, k.m.mem, k.m.own, root, psz);
      NotNull(k.m.mem, k.m.own);
      UserActed(mem0, own0, k.procs, k.m.mem, k.m.own, i, k.nextpid, k.tramp);
      StepCoherent(mem0, own0, k.m.mem, k.m.own, root, Pages(psz), tlb, touched);
      if pn == 0 {
        ghost var s := ViewOf(mem0, root, Pages(psz));
        return false, if write then s.Writable(v) else s.Readable(v);
      }
      ghost var mem1, own1 := k.m.mem, k.m.own;
      var pte := Walk(k.m, root, v * 4096, false);
      PageFacts(k.m.mem, k.m.own, root, psz, v);
      FaultedPage(k.m.mem, root, v, pn);
      Fill(v, pte);
      ActedTrans(mem0, own0, k.procs, mem1, own1, k.procs, k.m.mem, k.m.own, k.procs, i);
      return true, false;
    }

    /** The walk of the hardware on a TLB miss. */
    method Fill(v: nat, pte: PtePtr)
      requires Valid() && v < NVPN && PointsTo(k.m.own, pte, k.procs[i].pagetable, v)
      requires Slot(k.m.mem, pte.page, pte.idx) == Lookup(k.m.mem, k.procs[i].pagetable, v)
      requires Lookup(k.m.mem, k.procs[i].pagetable, v).f.v
      modifies this, k.m
      ensures Valid() && touched == old(touched) + {v} && k.m.free == old(k.m.free)
      ensures Acted(old(k.m.mem), old(k.m.own), k.procs, k.m.mem, k.m.own, k.procs, i)
      ensures ImageOf(k.m.mem, k.procs[i]) == old(ImageOf(k.m.mem, k.procs[i]))
    {
      hide UserOk, PtInv, ProcsInv, FreeOk, Lookup, Coherent, ImageOf, BitStep, Acted;
      ghost var mem0 := k.m.mem;
      var e := Slot(k.m.mem, pte.page, pte.idx);
      Running(mem0, k.m.own, k.procs, i, k.nextpid, k.tramp);
      MarkPage(k, i, pte, v, true);
      FillCoherent(mem0, k.m.own, k.m.mem, k.procs[i].pagetable, k.procs[i].sz, v, tlb, touched);
      tlb := tlb[v := WithA(e, true)];
      touched := touched + {v};
    }

    /**
     sbrk, and the flush of the TLB when the program goes on. Pages that the process gives up
     are forgotten; new ones start unused.
     */
    method ChangeSize(n: int32, eager: bool) returns (r: int, ghost oom: bool)
      requires Valid()
      modifies this, k, k.m
      ensures Valid() && |k.procs| == |old(k.procs)| && tlb == map[]
      ensures Acted(old(k.m.mem), old(k.m.own), old(k.procs), k.m.mem, k.m.own, k.procs, i)
      ensures touched == Forget(old(touched), Pages(k.procs[i].sz), USYS_VPN)
      ensures !oom ==> (ImageOf(k.m.mem, k.procs[i]), r) == Sbrk(old(ImageOf(k.m.mem, k.procs[i])), n)
      ensures oom ==> r == -1 && ImageOf(k.m.mem, k.procs[i]) == old(ImageOf(k.m.mem, k.procs[i]))
      ensures oom <==> eager && |old(k.m.free)| < GrowNeed(old(k.m.mem), old(k.procs)[i], n)
      ensures SbrkPages(old(k.m.mem), k.m.mem, old(k.procs)[i], k.procs[i].sz, n, eager, r != -1)
      ensures |old(k.m.free)| <= |k.m.free| + if eager then GrowNeed(old(k.m.mem), old(k.procs)[i], n) else 0
    {
      hide UserOk, PtInv, ProcsInv, SlotInv, FreeOk, Lookup, Coherent, ImageOf, Acted, Remaps, Resize,
        GrowNeed, SbrkPages;
      ghost var mem0, own0, procs0 := k.m.mem, k.m.own, k.procs;
      r, oom := SysSbrk(k, i, n, eager);
      ActedSlot(mem0, own0, procs0, k.m.mem, k.m.own, k.procs, i);
      tlb := map[];
      touched := Forget(touched, Pages(k.procs[i].sz), USYS_VPN);
      RemapsCoherent(mem0, k.m.mem, k.procs[i].pagetable, Pages(k.procs[i].sz), old(tlb), old(touched));
    }

    /** A copyout by the kernel, in any system call: it may map pages, which start unused. */
    method KernelWrite(va: nat, src: seq<byte>) returns (ok: bool, ghost oom: bool)
      requires Valid()
      modifies k, k.m
      ensures Valid() && k.procs == old(k.procs)
      ensures Acted(old(k.m.mem), old(k.m.own), k.procs, k.m.mem, k.m.own, k.procs, i)
      ensures old(ImageOf(k.m.mem, k.procs[i])).mem.Valid()
      ensures !oom ==>
                (ImageOf(k.m.mem, k.procs[i]).mem, ok) == CopyOut(old(ImageOf(k.m.mem, k.procs[i])).mem, va, src)
      ensures oom ==>
                !ok && WrotePrefix(old(ImageOf(k.m.mem, k.procs[i])).mem, ImageOf(k.m.mem, k.procs[i]).mem, va, src)
      ensures oom ==> |old(k.m.free)| < 3 * HolesOf(old(k.m.mem), old(k.procs)[i], va, |src|)
      ensures |old(k.m.free)| <= |k.m.free| + 3 * HolesOf(old(k.m.mem), old(k.procs)[i], va, |src|)
    {
      hide UserOk, PtInv, ProcsInv, FreeOk, Lookup, Coherent, ViewOf, UserStep, CopyOut, Acted, HolesOf;
      ghost var mem0, own0 := k.m.mem, k.m.own;
      ghost var cnt;
      ok, cnt, oom := Write(k, i, va, src);
      StepCoherent(mem0, own0, k.m.mem, k.m.own, k.procs[i].pagetable, Pages(k.procs[i].sz), tlb, touched);
    }

    /** A copyin by the kernel. */
    method KernelRead(va: nat, len: nat) returns (bytes: seq<byte>, ok: bool, ghost oom: bool)
      requires Valid()
      modifies k, k.m
      ensures Valid() && k.procs == old(k.procs)
      ensures Acted(old(k.m.mem), old(k.m.own), k.procs, k.m.mem, k.m.own, k.procs, i)
      ensures ImageOf(k.m.mem, k.procs[i]) == old(ImageOf(k.m.mem, k.procs[i]))
      ensures ImageOf(k.m.mem, k.procs[i]).mem.Valid()
      ensures !oom ==> (bytes, ok) == CopyIn(ImageOf(k.m.mem, k.procs[i]).mem, va, len)
      ensures oom ==> !ok && |old(k.m.free)| < 3 * HolesOf(old(k.m.mem), old(k.procs)[i], va, len)
      ensures |old(k.m.free)| <= |k.m.free| + 3 * HolesOf(old(k.m.mem), old(k.procs)[i], va, len)
    {
      hide UserOk, PtInv, ProcsInv, FreeOk, Lookup, Coherent, ViewOf, UserStep, CopyIn, Acted, HolesOf;
      ghost var mem0, own0 := k.m.mem, k.m.own;
      bytes, ok, oom := Read(k, i, va, len);
      StepCoherent(mem0, own0, k.m.mem, k.m.own, k.procs[i].pagetable, Pages(k.procs[i].sz), tlb, touched);
    }

    /**
     sys_pgaccess. The arguments are the user's: base is any 64-bit number. mask is what the
     first pass computed.
     */
    method PgAccess(base: nat, npages: int, maskaddr: nat) returns (r: int, ghost mask: Bits, ghost oom: bool)
      requires Valid() && base < WORD
      modifies this, k.m
      ensures Valid() && (r == 0 || r == -1)
      ensures Acted(old(k.m.mem), old(k.m.own), k.procs, k.m.mem, k.m.own, k.procs, i)
      ensures old(ImageOf(k.m.mem, k.procs[i])).mem.Valid()
      // bad arguments
      ensures !GoodArgs(base, npages, k.procs[i].sz) ==> r == -1 && unchanged(this) && unchanged(k.m) && !oom
      // bit j says whether page j was used since the last query
      ensures GoodArgs(base, npages, k.procs[i].sz) ==> mask == MaskOf(old(touched), base / 4096, npages)
      // the call succeeds when the mask can be written; then the memory has it, and nothing else has changed
      ensures GoodArgs(base, npages, k.procs[i].sz) && !oom ==>
                (ImageOf(k.m.mem, k.procs[i]).mem, r == 0) ==
                CopyOut(old(ImageOf(k.m.mem, k.procs[i])).mem, maskaddr, MaskBytes(mask))
      ensures oom ==> r == -1 && |old(k.m.free)| < 3 * HolesOf(old(k.m.mem), k.procs[i], maskaddr, 8)
      ensures oom ==> WrotePrefix(old(ImageOf(k.m.mem, k.procs[i])).mem, ImageOf(k.m.mem, k.procs[i]).mem, maskaddr,
                                  MaskBytes(mask))
      ensures |old(k.m.free)| <= |k.m.free| + 3 * HolesOf(old(k.m.mem), k.procs[i], maskaddr, 8)
      // a failing call forgets nothing
      ensures r == -1 ==> touched == old(touched) && tlb == old(tlb)
      // a successful call starts the history of the range anew, with an empty TLB
      ensures r == 0 ==> tlb == map[] && touched == Forget(old(touched), base / 4096, base / 4096 + npages)
    {
      hide UserOk, PtInv, ProcsInv, FreeOk, Lookup, Coherent, ViewOf, MaskBytes, MaskOf, CopyOut, Acted, HolesOf;
      Running(k.m.mem, k.m.own, k.procs, i, k.nextpid, k.tramp);
      UserOkFacts(k.m.mem, k.m.own, k.procs[i].pagetable, k.procs[i].sz);
      ViewValid(k.m.mem, k.m.own, k.procs[i].pagetable, k.procs[i].sz);
      NotNull(k.m.mem, k.m.own);
      ActedNothing(k.m.mem, k.m.own, k.procs, i);
      var good := CheckArgs(base, npages, k.procs[i].sz);
      if !good {
        return -1, seq(64, _ => false), false;
      }
      r, mask, oom := Query(base, npages, maskaddr);
    }

    /** sys_pgaccess after its arguments have been checked. */
    method Query(base: nat, npages: nat, maskaddr: nat) returns (r: int, ghost mask: Bits, ghost oom: bool)
      requires Valid() && GoodArgs(base, npages, k.procs[i].sz)
      modifies this, k.m
      ensures Valid() && (r == 0 || r == -1)
      ensures Acted(old(k.m.mem), old(k.m.own), k.procs, k.m.mem, k.m.own, k.procs, i)
      ensures old(ImageOf(k.m.mem, k.procs[i])).mem.Valid()
      ensures mask == MaskOf(old(touched), base / 4096, npages)
      ensures !oom ==> (ImageOf(k.m.mem, k.procs[i]).mem, r == 0) ==
                       CopyOut(old(ImageOf(k.m.mem, k.procs[i])).mem, maskaddr, MaskBytes(mask))
      ensures oom ==> r == -1 && |old(k.m.free)| < 3 * HolesOf(old(k.m.mem), k.procs[i], maskaddr, 8)
      ensures oom ==> WrotePrefix(old(ImageOf(k.m.mem, k.procs[i])).mem, ImageOf(k.m.mem, k.procs[i]).mem, maskaddr,
                                  MaskBytes(mask))
      ensures |old(k.m.free)| <= |k.m.free| + 3 * HolesOf(old(k.m.mem), k.procs[i], maskaddr, 8)
      ensures r == -1 ==> touched == old(touched) && tlb == old(tlb)
      ensures r == 0 ==> tlb == map[] && touched == Forget(old(touched), base / 4096, base / 4096 + npages)
    {
      hide UserOk, PtInv, ProcsInv, FreeOk, Lookup, Coherent, Used, ViewOf, UserStep, MaskBytes, CopyOut, Cleared,
        Acted, HolesAt;
      ghost var mem0, own0, v0 := k.m.mem, k.m.own, base / 4096;
      var (root, psz) := (k.procs[i].pagetable, k.procs[i].sz);
      Running(mem0, own0, k.procs, i, k.nextpid, k.tramp);
      UserOkFacts(mem0, own0, root, psz);
      ViewValid(mem0, own0, root, psz);
      var bits := ReadBits(base, npages);
      mask := bits;
      MaskIs(mem0, root, tlb, touched, v0, npages, mask);
      var c;
      ghost var cnt;
      c, cnt, oom := CopyOutUser(k.m, root, psz, maskaddr, MaskBytes(bits));
      NotNull(k.m.mem, k.m.own);
      UserActed(mem0, own0, k.procs, k.m.mem, k.m.own, i, k.nextpid, k.tramp);
      StepCoherent(mem0, own0, k.m.mem, k.m.own, root, Pages(psz), tlb, touched);
      if c < 0 {
        return -1, mask, oom;
      }
      ghost var mem1, own1 := k.m.mem, k.m.own;
      MaskUsed(mem1, root, tlb, touched, v0, npages);
      ClearBits(base, npages, bits);
      ActedTrans(mem0, own0, k.procs, mem1, own1, k.procs, k.m.mem, k.m.own, k.procs, i);
      // sfence_vma()
      tlb := map[];
      touched := Forget(touched, v0, v0 + npages);
      ClearCoherent(mem1, k.m.mem, root, v0, npages, mask, old(tlb), old(touched));
      return 0, mask, oom;
    }

    /** The first pass: walks without allocating, and changes nothing. */
    method ReadBits(base: nat, npages: nat) returns (mask: Bits)
      requires Valid() && base % 4096 == 0 && npages <= 64 && base + npages * 4096 <= USYSCALL
      modifies k.m
      ensures unchanged(k.m)
      ensures forall j: nat | j < 64 ::
                mask[j] <==> j < npages && Used(k.m.mem, k.procs[i].pagetable, base / 4096 + j)
    {
      hide PtInv, FreeOk, Lookup, Coherent, UserOk, ProcsInv;
      Running(k.m.mem, k.m.own, k.procs, i, k.nextpid, k.tramp);
      var root := k.procs[i].pagetable;
      UserOkFacts(k.m.mem, k.m.own, root, k.procs[i].sz);
      mask := seq(64, _ => false);
      for t := 0 to npages
        invariant unchanged(k.m)
        invariant forall j: nat | j < 64 :: mask[j] <==> j < t && Used(k.m.mem, root, base / 4096 + j)
      {
        var pte := Walk(k.m, root, base + t * 4096, false);
        assert (base + t * 4096) / 4096 == base / 4096 + t;
        if pte.At? && Slot(k.m.mem, pte.page, pte.idx).f.v && Slot(k.m.mem, pte.page, pte.idx).f.a {
          mask := mask[t := true];
        }
      }
    }

    /** The second pass: clears the A bits that were reported. The walks find what the first pass found. */
    method ClearBits(base: nat, npages: nat, mask: Bits)
      requires k.Valid() && i < |k.procs| && k.procs[i].used
      requires base % 4096 == 0 && npages <= 64 && base + npages * 4096 <= USYSCALL
      requires forall j: nat | j < npages && mask[j] :: Used(k.m.mem, k.procs[i].pagetable, base / 4096 + j)
      modifies k.m
      ensures k.Valid() && k.m.free == old(k.m.free)
      ensures Acted(old(k.m.mem), old(k.m.own), k.procs, k.m.mem, k.m.own, k.procs, i)
      ensures ImageOf(k.m.mem, k.procs[i]) == old(ImageOf(k.m.mem, k.procs[i]))
      ensures Cleared(old(k.m.mem), k.m.mem, k.procs[i].pagetable, base / 4096, npages, mask)
    {
      hide PtInv, FreeOk, Lookup, UserOk, ImageOf, BitStep, Used, Cleared, ProcsInv, Acted;
      ghost var mem0, own0, v0, root := k.m.mem, k.m.own, base / 4096, k.procs[i].pagetable;
      NotNull(mem0, own0);
      ActedNothing(mem0, own0, k.procs, i);
      ClearedNone(mem0, root, v0, mask);
      for t := 0 to npages
        invariant k.Valid() && k.m.free == old(k.m.free)
        invariant Acted(mem0, own0, k.procs, k.m.mem, k.m.own, k.procs, i)
        invariant ImageOf(k.m.mem, k.procs[i]) == ImageOf(mem0, k.procs[i])
        invariant Cleared(mem0, k.m.mem, root, v0, t, mask)
      {
        ghost var mem1, own1 := k.m.mem, k.m.own;
        if mask[t] {
          ClearedHere(mem0, k.m.mem, root, v0, t, npages, mask);
          ClearBit(base + t * 4096, v0 + t);
          ActedTrans(mem0, own0, k.procs, mem1, own1, k.procs, k.m.mem, k.m.own, k.procs, i);
        }
        ClearedNext(mem0, mem1, k.m.mem, root, v0, t, mask);
      }
    }

    /** `pte = walk(...); *pte &= ~PTE_A` on a page known to be mapped. */
    method ClearBit(va: nat, ghost v: nat)
      requires k.Valid() && i < |k.procs| && k.procs[i].used
      requires va == v * 4096 && va < MAXVA && Used(k.m.mem, k.procs[i].pagetable, v)
      modifies k.m
      ensures k.Valid() && k.m.free == old(k.m.free)
      ensures Acted(old(k.m.mem), old(k.m.own), k.procs, k.m.mem, k.m.own, k.procs, i)
      ensures ImageOf(k.m.mem, k.procs[i]) == old(ImageOf(k.m.mem, k.procs[i]))
      ensures OnlyCleared(old(k.m.mem), k.m.mem, k.procs[i].pagetable, v)
    {
      hide PtInv, FreeOk, Lookup, UserOk, ImageOf, BitStep, ProcsInv, Acted;
      ghost var mem0 := k.m.mem;
      var root := k.procs[i].pagetable;
      Running(k.m.mem, k.m.own, k.procs, i, k.nextpid, k.tramp);
      UserOkFacts(k.m.mem, k.m.own, root, k.procs[i].sz);
      var pte := Walk(k.m, root, va, false);
      MarkPage(k, i, pte, v, false);
      BitUsed(mem0, k.m.own, k.m.mem, root, v, false);
    }
  }

  /** The pages of s outside of [lo, hi). */
  function Forget(s: set<nat>, lo: nat, hi: nat): set<nat> {
    set v | v in s && !(lo <= v < hi)
  }

  /** Bit j tells whether page lo + j is in s, for the first n of them. */
  function MaskOf(s: set<nat>, lo: nat, n: nat): Bits {
    seq(64, j requires 0 <= j < 64 => j < n && lo + j in s)
  }

  /** The bits that the first pass reads are those of the history. */
  lemma MaskIs(mem: Mem, root: nat, tlb: map<nat, Pte>, touched: set<nat>, lo: nat, n: nat, mask: Bits)
    requires Coherent(mem, root, tlb, touched) && n <= 64 && lo + n <= NVPN
    requires forall j: nat | j < 64 :: mask[j] <==> j < n && Used(mem, root, lo + j)
    ensures mask == MaskOf(touched, lo, n)
  {
    hide Used;
  }

  /** Pages that the mask reports are marked. */
  lemma MaskUsed(mem: Mem, root: nat, tlb: map<nat, Pte>, touched: set<nat>, lo: nat, n: nat)
    requires Coherent(mem, root, tlb, touched) && n <= 64 && lo + n <= NVPN
    ensures forall j: nat | j < n && MaskOf(touched, lo, n)[j] :: Used(mem, root, lo + j)
  {
    hide Used;
  }

  /** After sbrk and a flush. */
  lemma RemapsCoherent(mem: Mem, mem': Mem, root: nat, n: nat, tlb: map<nat, Pte>, touched: set<nat>)
    requires Coherent(mem, root, tlb, touched) && Remaps(mem, mem', root, n)
    ensures Coherent(mem', root, map[], Forget(touched, n, USYS_VPN))
  {
    hide Lookup;
  }

  /** Page v is no longer marked as used; all others are as before. */
  ghost predicate OnlyCleared(mem: Mem, mem': Mem, root: nat, v: nat) {
    forall w: nat :: Used(mem', root, w) <==> w != v && Used(mem, root, w)
  }

  /** The marks of the first i pages from v0 on that mask reports are gone. */
  ghost predicate Cleared(mem: Mem, mem': Mem, root: nat, v0: nat, i: nat, mask: Bits) {
    forall w: nat ::
      Used(mem', root, w) <==> Used(mem, root, w) && !(v0 <= w < v0 + i && w - v0 < 64 && mask[w - v0])
  }

  lemma ClearedNone(mem: Mem, root: nat, v0: nat, mask: Bits)
    ensures Cleared(mem, mem, root, v0, 0, mask)
  {
  }

  lemma ClearedHere(mem: Mem, mem': Mem, root: nat, v0: nat, i: nat, n: nat, mask: Bits)
    requires Cleared(mem, mem', root, v0, i, mask) && i < n <= 64
    requires forall j: nat | j < n && mask[j] :: Used(mem, root, v0 + j)
    ensures mask[i] ==> Used(mem', root, v0 + i)
  {
    hide Used;
  }

  lemma ClearedNext(mem: Mem, mem1: Mem, mem2: Mem, root: nat, v0: nat, i: nat, mask: Bits)
    requires Cleared(mem, mem1, root, v0, i, mask) && i < 64
    requires if mask[i] then OnlyCleared(mem1, mem2, root, v0 + i) else mem2 == mem1
    ensures Cleared(mem, mem2, root, v0, i + 1, mask)
  {
    hide Used;
  }

  /** After the second pass and the flush, history starts anew for the range. */
  lemma ClearCoherent(mem: Mem, mem': Mem, root: nat, v0: nat, n: nat, mask: Bits,
                      tlb: map<nat, Pte>, touched: set<nat>)
    requires Coherent(mem, root, tlb, touched) && n <= 64 && Cleared(mem, mem', root, v0, n, mask)
    requires mask == MaskOf(touched, v0, n)
    ensures Coherent(mem', root, map[], Forget(touched, v0, v0 + n))
  {
    hide Used;
    forall v: nat | v < NVPN ensures v in Forget(touched, v0, v0 + n) <==> Used(mem', root, v) {
      if v0 <= v < v0 + n {
        assert mask[v - v0] <==> v0 + (v - v0) in touched;
      }
    }
  }

  /** The 64-bit check of the range. */
  lemma RangeCheck(base: nat, npages: int, sz: nat)
    requires base < WORD && sz <= USYSCALL
    ensures 1 <= npages <= 64 ==>
              ((base + npages * 4096) % WORD < base || (base + npages * 4096) % WORD > sz
               <==> base + npages * 4096 > sz)
  {
    if 1 <= npages <= 64 && base + npages * 4096 >= WORD {
      assert (base + npages * 4096) % WORD == base + npages * 4096 - WORD;
    }
  }

  predicate GoodArgs(base: nat, npages: int, sz: nat) {
    base % 4096 == 0 && 1 <= npages <= 64 && base + npages * 4096 <= sz
  }

  /** The checks of sys_pgaccess on its arguments, in 64-bit arithmetic. */
  method CheckArgs(base: nat, npages: int, sz: nat) returns (ok: bool)
    requires base < WORD && sz <= USYSCALL
    ensures ok <==> GoodArgs(base, npages, sz)
  {
    if base % 4096 != 0 {
      return false;
    }
    if npages < 1 || npages > 64 {
      return false;
    }
    RangeCheck(base, npages, sz);
    if (base + npages * 4096) % WORD < base || (base + npages * 4096) % WORD > sz {
      return false;
    }
    return true;
  }

  /** What the hardware checks before it lets a user access through. */
  predicate Permits(e: Pte, write: bool) {
    e.f.v && e.f.u && if write then e.f.w else e.f.r
  }

  /** The A bit of page v's PTE is set. */
  ghost predicate Used(mem: Mem, root: nat, v: nat) {
    Lookup(mem, root, v).f.v && Lookup(mem, root, v).f.a
  }

  /** A bit and history agree, and a cached translation is the one in memory, with its A bit set. */
  ghost predicate Coherent(mem: Mem, root: nat, tlb: map<nat, Pte>, touched: set<nat>) {
    && (forall v: nat | v < NVPN :: v in touched <==> Used(mem, root, v))
    && (forall v | v in tlb :: v < NVPN && Used(mem, root, v) && tlb[v] == Lookup(mem, root, v))
    && (forall v | v in touched :: v < NVPN)
  }

  /** A page that is mapped on a fault, by the program or by copyout, starts with its A bit clear. */
  lemma StepCoherent(mem: Mem, own: Owners, mem': Mem, own': Owners, root: nat, n: nat,
                     tlb: map<nat, Pte>, touched: set<nat>)
    requires Coherent(mem, root, tlb, touched) && UserStep(mem, own, mem', own', root, n)
    ensures Coherent(mem', root, tlb, touched)
  {
    hide Lookup, Frame, Gains;
  }

  lemma BitUsed(mem: Mem, own: Owners, mem': Mem, root: nat, v: nat, b: bool)
    requires BitStep(mem, own, mem', root, v, b) && IsRoot(own, root) && Lookup(mem, root, v).f.v
    ensures forall w: nat :: Used(mem', root, w) == if w == v then b else Used(mem, root, w)
  {
    hide Lookup;
  }

  lemma FillCoherent(mem: Mem, own: Owners, mem': Mem, root: nat, sz: nat, v: nat,
                     tlb: map<nat, Pte>, touched: set<nat>)
    requires Coherent(mem, root, tlb, touched) && UserOk(mem, own, root, sz) && v < NVPN
    requires BitStep(mem, own, mem', root, v, true) && Lookup(mem, root, v).f.v
    ensures Coherent(mem', root, tlb[v := WithA(Lookup(mem, root, v), true)], touched + {v})
  {
    UserOkFacts(mem, own, root, sz);
    BitUsed(mem, own, mem', root, v, true);
    BitLookups(mem, own, mem', root, v, true);
    hide Lookup, UserOk, TopOk, BitStep;
    OneMore(mem, mem', root, v, tlb, touched);
  }

  lemma BitLookups(mem: Mem, own: Owners, mem': Mem, root: nat, v: nat, b: bool)
    requires BitStep(mem, own, mem', root, v, b) && IsRoot(own, root)
    ensures forall w: nat ::
              Lookup(mem', root, w) == if w == v then WithA(Lookup(mem, root, v), b) else Lookup(mem, root, w)
  {
    hide Lookup;
  }

  lemma OneMore(mem: Mem, mem': Mem, root: nat, v: nat, tlb: map<nat, Pte>, touched: set<nat>)
    requires Coherent(mem, root, tlb, touched) && v < NVPN && Used(mem', root, v)
    requires forall w: nat :: Used(mem', root, w) == (w == v || Used(mem, root, w))
    requires forall w: nat ::
               Lookup(mem', root, w) == if w == v then WithA(Lookup(mem, root, v), true) else Lookup(mem, root, w)
    ensures Coherent(mem', root, tlb[v := WithA(Lookup(mem, root, v), true)], touched + {v})
  {
    hide Lookup, Used;
  }

  lemma TouchedMapped(mem: Mem, root: nat, tlb: map<nat, Pte>, touched: set<nat>, v: nat)
    requires Coherent(mem, root, tlb, touched)
    ensures v in touched ==> v < NVPN && Lookup(mem, root, v).f.v
  {
    hide Lookup;
  }

  /** What the view says of a page, in terms of its PTE. */
  lemma PageFacts(mem: Mem, own: Owners, root: nat, sz: nat, v: nat)
    requires PtInv(mem, own) && UserOk(mem, own, root, sz)
    ensures var (e, s) := (Lookup(mem, root, v), ViewOf(mem, root, Pages(sz)));
            && IsRoot(own, root) && sz <= USYSCALL
            && (v >= NVPN ==> !s.Readable(v) && !s.Writable(v))
            && (v < NVPN && e.f.v && e.f.u ==> s.Readable(v) && e.f.r && (s.Writable(v) <==> e.f.w))
            && (v < NVPN && e.f.v && !e.f.u ==> !s.Readable(v) && !s.Writable(v))
            && (v < NVPN && !e.f.v ==> (s.Readable(v) <==> v < Pages(sz)) && (s.Writable(v) <==> v < Pages(sz)))
  {
    if v < NVPN {
      UserAccessible(mem, own, root, sz, v);
      LeafOwner(mem, own, root, I2(v), I1(v), I0(v));
    }
    hide Lookup, PtInv;
  }

  lemma CachedPage(mem: Mem, own: Owners, root: nat, sz: nat, tlb: map<nat, Pte>, touched: set<nat>, v: nat)
    requires PtInv(mem, own) && UserOk(mem, own, root, sz) && Coherent(mem, root, tlb, touched) && v in tlb
    ensures var s := ViewOf(mem, root, Pages(sz));
            && v in touched
            && forall write: bool :: Permits(tlb[v], write) <==> if write then s.Writable(v) else s.Readable(v)
  {
    PageFacts(mem, own, root, sz, v);
    hide PtInv, Lookup, UserOk, ViewOf;
  }

  // ------------------------------------------------------------------ sessions

  /** What may happen on the hart. */
  datatype Request =
    | Use(v: nat, write: bool)
    | Ask(base: nat, npages: int, maskaddr: nat)
    | Drop(v: nat)
    | Change(n: int32, eager: bool)
    | Put(va: nat, src: seq<byte>)
    | Fetch(va: nat, len: nat)

  /** What is logged of it: a use, an answer to a query, a call of sbrk, a copy by the kernel, or nothing. */
  datatype Entry =
    | Touched(v: nat)
    | Answered(lo: nat, n: nat, mask: Bits)
    | Sized(r: int, n: nat)
    | Transferred(bytes: seq<byte>, ok: bool)
    | Failed
    | Dropped

  /** The pages in use after an entry. */
  function Apply(s: set<nat>, e: Entry): set<nat> {
    match e
    case Touched(v) => s + {v}
    case Answered(lo, n, _) => Forget(s, lo, lo + n)
    case Sized(_, n) => Forget(s, n, USYS_VPN)
    case _ => s
  }

  /** What a request means, without page tables, A bits and TLB. */
  ghost function Serve(w: World, rq: Request): (World, Entry)
    requires w.image.mem.Valid()
  {
    match rq
    case Use(v, write) =>
      if if write then w.image.mem.Writable(v) else w.image.mem.Readable(v)
      then (w.(touched := w.touched + {v}), Touched(v)) else (w, Failed)
    case Ask(base, npages, maskaddr) =>
      var b := base % WORD;
      if !GoodArgs(b, npages, w.image.sz) then (w, Failed)
      else
        var mask := MaskOf(w.touched, b / 4096, npages);
        var (mem', ok) := CopyOut(w.image.mem, maskaddr, MaskBytes(mask));
        var image' := w.image.(mem := mem');
        if ok then (World(image', Forget(w.touched, b / 4096, b / 4096 + npages)), Answered(b / 4096, npages, mask))
        else (World(image', w.touched), Failed)
    case Drop(_) => (w, Dropped)
    case Change(n, _) =>
      var (image', r) := Sbrk(w.image, n);
      (World(image', Forget(w.touched, Pages(image'.sz), USYS_VPN)), Sized(r, Pages(image'.sz)))
    case Put(va, src) =>
      var (mem', ok) := CopyOut(w.image.mem, va, src);
      (w.(image := w.image.(mem := mem')), Transferred([], ok))
    case Fetch(va, len) =>
      var (bytes, ok) := CopyIn(w.image.mem, va, len);
      (w, Transferred(bytes, ok))
  }

  /** What it does when memory runs out: it fails, and at most a part of the mask is written. */
  ghost predicate Starved(w: World, rq: Request, w': World, e: Entry)
    requires w.image.mem.Valid()
  {
    && w'.image.sz == w.image.sz && w'.touched == Apply(w.touched, e)
    && match rq
       case Use(v, _) => w'.image == w.image && e == Failed && v !in w.touched
       case Ask(base, npages, maskaddr) =>
         && GoodArgs(base % WORD, npages, w.image.sz) && e == Failed
         && WrotePrefix(w.image.mem, w'.image.mem, maskaddr,
                        MaskBytes(MaskOf(w.touched, base % WORD / 4096, npages)))
       case Drop(_) => false
       case Change(n, eager) => eager && w'.image == w.image && e == Sized(-1, Pages(w.image.sz))
       case Put(va, src) => e == Transferred([], false) && WrotePrefix(w.image.mem, w'.image.mem, va, src)
       case Fetch(_, _) => w'.image == w.image && e.Transferred? && !e.ok
  }

  /** The free pages that a request may take. */
  function Need(rq: Request): nat {
    match rq
    case Use(_, _) => 3
    case Ask(_, _, maskaddr) => 3 * Rounds(maskaddr, 8)
    case Drop(_) => 0
    case Change(n, eager) => SbrkCost(n, eager)
    case Put(va, src) => 3 * Rounds(va, |src|)
    case Fetch(va, len) => 3 * Rounds(va, len)
  }

  function TotalNeed(requests: seq<Request>): nat {
    if requests == [] then 0 else TotalNeed(requests[..|requests| - 1]) + Need(requests[|requests| - 1])
  }

  /** No entry from position t of the log on makes page v count as unused. */
  predicate NotForgotten(log: seq<Entry>, t: nat, v: nat) {
    forall j | t <= j < |log| :: !Forgets(log[j], v)
  }

  /** A query that covers page v, or a call of sbrk after which the process does not have it. */
  predicate Forgets(e: Entry, v: nat) {
    || (e.Answered? && e.lo <= v < e.lo + e.n)
    || (e.Sized? && e.n <= v < USYS_VPN)
  }

  /** Page v was touched at position t and not forgotten since. */
  predicate TouchedAt(log: seq<Entry>, t: nat, v: nat) {
    t < |log| && log[t] == Touched(v) && NotForgotten(log, t + 1, v)
  }

  /** The pages in use after the entries of log, when those of start were in use before. */
  function After(start: set<nat>, log: seq<Entry>): set<nat> {
    if log == [] then start else Apply(After(start, log[..|log| - 1]), log[|log| - 1])
  }

  /** Page v was touched after the last entry that forgot it, or was in use from the start and never forgotten. */
  ghost predicate InUse(start: set<nat>, log: seq<Entry>, v: nat) {
    (exists t: nat :: TouchedAt(log, t, v)) || (v in start && NotForgotten(log, 0, v))
  }

  lemma {:induction false} AfterMeaning(start: set<nat>, log: seq<Entry>, v: nat)
    ensures v in After(start, log) <==> InUse(start, log, v)
  {
    if log != [] {
      var n := |log| - 1;
      var init := log[..n];
      AfterMeaning(start, init, v);
      NotForgottenPrefix(log, 0, v);
      forall t: nat
        ensures TouchedAt(log, t, v) <==>
                (t == n && log[n] == Touched(v)) || (TouchedAt(init, t, v) && !Forgets(log[n], v))
      {
        if t < n {
          NotForgottenPrefix(log, t + 1, v);
        }
      }
      if log[n] == Touched(v) {
        assert TouchedAt(log, n, v);
      }
      if t: nat :| TouchedAt(init, t, v) {
        assert TouchedAt(log, t, v) <==> !Forgets(log[n], v);
      }
    }
  }

  lemma NotForgottenPrefix(log: seq<Entry>, t: nat, v: nat)
    requires log != [] && t < |log|
    ensures NotForgotten(log, t, v) <==>
            NotForgotten(log[..|log| - 1], t, v) && !Forgets(log[|log| - 1], v)
  {
  }

  /**
   The step from one world to the next, with the number of free pages before and after: as
   Serve says, or as Starved says when there are fewer free pages than the request may need.
   */
  ghost predicate Served(w: World, free: nat, rq: Request, w': World, free': nat, e: Entry) {
    && w.image.mem.Valid()
    && (Serve(w, rq) == (w', e) || (free < Need(rq) && Starved(w, rq, w', e)))
    && free <= free' + Need(rq)
  }

  ghost predicate IsSession(worlds: seq<World>, frees: seq<nat>, requests: seq<Request>, log: seq<Entry>) {
    && |worlds| == |frees| == |requests| + 1 && |log| == |requests|
    && forall t | 0 <= t < |requests| ::
         Served(worlds[t], frees[t], requests[t], worlds[t + 1], frees[t + 1], log[t])
  }

  lemma ServedApplies(w: World, free: nat, rq: Request, w': World, free': nat, e: Entry)
    requires Served(w, free, rq, w', free', e)
    ensures w'.touched == Apply(w.touched, e) && w.image.mem.Valid()
    ensures e.Answered? ==>
              && rq.Ask? && GoodArgs(rq.base % WORD, rq.npages, w.image.sz)
              && e == Answered(rq.base % WORD / 4096, rq.npages, MaskOf(w.touched, e.lo, e.n))
              && CopyOut(w.image.mem, rq.maskaddr, MaskBytes(e.mask)) == (w'.image.mem, true)
  {
    hide CopyOut, CopyIn, MaskBytes, MaskOf, Sbrk, Rounds;
  }

  lemma {:induction false} SessionAfter(worlds: seq<World>, frees: seq<nat>, requests: seq<Request>, log: seq<Entry>,
                                        t: nat)
    requires IsSession(worlds, frees, requests, log) && t <= |log|
    ensures worlds[t].touched == After(worlds[0].touched, log[..t])
  {
    hide Served, Apply;
    if t > 0 {
      SessionAfter(worlds, frees, requests, log, t - 1);
      ServedApplies(worlds[t - 1], frees[t - 1], requests[t - 1], worlds[t - 1 + 1], frees[t - 1 + 1], log[t - 1]);
      assert log[..t][..t - 1] == log[..t - 1];
    }
  }

  /** When the free pages cover the need of a session, memory never runs out in it. */
  lemma {:induction false} EnoughMemory(worlds: seq<World>, frees: seq<nat>, requests: seq<Request>, log: seq<Entry>,
                                        t: nat)
    requires IsSession(worlds, frees, requests, log) && t < |requests| && TotalNeed(requests[..t + 1]) <= frees[0]
    ensures frees[0] <= frees[t] + TotalNeed(requests[..t])
    ensures worlds[t].image.mem.Valid() && Serve(worlds[t], requests[t]) == (worlds[t + 1], log[t])
  {
    hide Serve, Starved, Need;
    assert requests[..t + 1][..t] == requests[..t];
    assert Served(worlds[t], frees[t], requests[t], worlds[t + 1], frees[t + 1], log[t]);
    if t > 0 {
      EnoughMemory(worlds, frees, requests, log, t - 1);
      assert requests[..t][..t - 1] == requests[..t - 1];
      assert Served(worlds[t - 1], frees[t - 1], requests[t - 1], worlds[t], frees[t - 1 + 1], log[t - 1]);
    }
  }

  /**
   pgaccess is exact. In any session, the bit that a successful query reports for page lo + j
   is set exactly when that page was used after the last successful query that covered it (or
   from the start), and the program reads that bit from its memory after the call.
   */
  lemma QueryExact(worlds: seq<World>, frees: seq<nat>, requests: seq<Request>, log: seq<Entry>, t: nat, j: nat)
    requires IsSession(worlds, frees, requests, log) && t < |log| && log[t].Answered? && j < 64
    ensures var (rq, e) := (requests[t], log[t]);
            && rq.Ask? && e.lo == rq.base % WORD / 4096 && e.n == rq.npages <= 64
            && (e.mask[j] <==> j < e.n && InUse(worlds[0].touched, log[..t], e.lo + j))
            && worlds[t + 1].image.mem.Valid()
            && CopyIn(worlds[t + 1].image.mem, rq.maskaddr, 8) == (MaskBytes(e.mask), true)
            && TestBit(MaskBytes(e.mask)[j / 8], j % 8) == e.mask[j]
  {
    hide Served, InUse, CopyOut, CopyIn, After, MaskBytes, TestBit;
    var (w, rq, e) := (worlds[t], requests[t], log[t]);
    assert Served(w, frees[t], rq, worlds[t + 1], frees[t + 1], e);
    ServedApplies(w, frees[t], rq, worlds[t + 1], frees[t + 1], e);
    SessionAfter(worlds, frees, requests, log, t);
    AfterMeaning(worlds[0].touched, log[..t], e.lo + j);
    MaskReadBack(e.mask, j);
    CopyRoundTrip(w.image.mem, rq.maskaddr, MaskBytes(e.mask));
  }

  lemma SessionStart(w: World, free: nat)
    ensures IsSession([w], [free], [], [])
  {
  }

  lemma SessionNext(worlds: seq<World>, frees: seq<nat>, requests: seq<Request>, log: seq<Entry>,
                    w: World, free: nat, e: Entry)
    requires |requests| > 0 && IsSession(worlds, frees, requests[..|requests| - 1], log)
    requires Served(worlds[|requests| - 1], frees[|requests| - 1], requests[|requests| - 1], w, free, e)
    ensures IsSession(worlds + [w], frees + [free], requests, log + [e])
  {
    hide Served;
    var n := |requests| - 1;
    var (worlds', frees', log') := (worlds + [w], frees + [free], log + [e]);
    forall t | 0 <= t < |requests|
      ensures Served(worlds'[t], frees'[t], requests[t], worlds'[t + 1], frees'[t + 1], log'[t])
    {
      if t < n {
        assert requests[..n][t] == requests[t];
        assert Served(worlds[t], frees[t], requests[..n][t], worlds[t + 1], frees[t + 1], log[t]);
      }
    }
  }

  /** One request. */
  method Handle(h: Hart, rq: Request) returns (ghost e: Entry)
    requires h.Valid()
    modifies h, h.k, h.k.m
    ensures h.Valid() && |h.k.procs| == |old(h.k.procs)|
    ensures Acted(old(h.k.m.mem), old(h.k.m.own), old(h.k.procs), h.k.m.mem, h.k.m.own, h.k.procs, h.i)
    ensures Served(old(h.Seen()), |old(h.k.m.free)|, rq, h.Seen(), |h.k.m.free|, e)
  {
    ghost var oom;
    hide PtInv, ProcsInv, FreeOk, Lookup, Coherent, ViewOf, MaskBytes, MaskOf, CopyOut, CopyIn, Acted, UserOk, Rounds,
      Sbrk, HolesOf, Hole, Missing;
    ghost var mem0, own0, procs0 := h.k.m.mem, h.k.m.own, h.k.procs;
    HartSees(h);
    match rq {
      case Use(v, write) =>
        var ok;
        ok, oom := h.Access(v, write);
        e := if ok then Touched(v) else Failed;
      case Ask(base, npages, maskaddr) =>
        var r;
        ghost var mask;
        r, mask, oom := h.PgAccess(base % WORD, npages, maskaddr);
        e := if r == 0 then Answered(base % WORD / 4096, npages, mask) else Failed;
      case Drop(v) =>
        h.Evict(v);
        ActedNothing(mem0, own0, procs0, h.i);
        e := Dropped;
      case Change(n, eager) =>
        var r;
        r, oom := h.ChangeSize(n, eager);
        e := Sized(r, Pages(h.k.procs[h.i].sz));
      case Put(va, src) =>
        var ok;
        ok, oom := h.KernelWrite(va, src);
        e := Transferred([], ok);
      case Fetch(va, len) =>
        var bytes, ok;
        bytes, ok, oom := h.KernelRead(va, len);
        e := Transferred(bytes, ok);
    }
  }

  /** What the program on the hart sees is in good order. */
  lemma HartSees(h: Hart)
    requires h.Valid()
    ensures h.Seen().image.mem.Valid() && h.Seen().image.sz == h.k.procs[h.i].sz
    ensures h.k.m.mem.Keys == h.k.m.own.Keys && h.i < |h.k.procs|
  {
    hide PtInv, ProcsInv, FreeOk, Lookup, Coherent, ViewOf, UserOk;
    var p := h.k.procs[h.i];
    NotNull(h.k.m.mem, h.k.m.own);
    Running(h.k.m.mem, h.k.m.own, h.k.procs, h.i, h.k.nextpid, h.k.tramp);
    ViewValid(h.k.m.mem, h.k.m.own, p.pagetable, p.sz);
  }

  /**
   Any sequence of accesses, evictions, queries and calls of sbrk is a session: each request
   does what Serve says of it, unless memory runs out.
   */
  method Session(h: Hart, requests: seq<Request>)
    returns (ghost worlds: seq<World>, ghost frees: seq<nat>, ghost log: seq<Entry>)
    requires h.Valid()
    modifies h, h.k, h.k.m
    ensures h.Valid() && |h.k.procs| == |old(h.k.procs)|
    ensures Acted(old(h.k.m.mem), old(h.k.m.own), old(h.k.procs), h.k.m.mem, h.k.m.own, h.k.procs, h.i)
    ensures IsSession(worlds, frees, requests, log)
    ensures worlds[0] == old(h.Seen()) && worlds[|requests|] == h.Seen()
    ensures frees[0] == |old(h.k.m.free)| && frees[|requests|] == |h.k.m.free|
  {
    hide *;
    ghost var mem0, own0, procs0 := h.k.m.mem, h.k.m.own, h.k.procs;
    HartSees(h);
    ActedNothing(mem0, own0, procs0, h.i);
    worlds, frees, log := [h.Seen()], [|h.k.m.free|], [];
    SessionStart(h.Seen(), |h.k.m.free|);
    assert requests[..0] == [];
    for t := 0 to |requests|
      invariant h.Valid() && |h.k.procs| == |procs0|
      invariant Acted(mem0, own0, procs0, h.k.m.mem, h.k.m.own, h.k.procs, h.i)
      invariant IsSession(worlds, frees, requests[..t], log)
      invariant |worlds| == t + 1 && worlds[0] == old(h.Seen()) && worlds[t] == h.Seen()
      invariant |frees| == t + 1 && frees[0] == |old(h.k.m.free)| && frees[t] == |h.k.m.free|
    {
      ghost var mem1, own1, procs1 := h.k.m.mem, h.k.m.own, h.k.procs;
      ghost var e := Handle(h, requests[t]);
      ActedTrans(mem0, own0, procs0, mem1, own1, procs1, h.k.m.mem, h.k.m.own, h.k.procs, h.i);
      assert requests[..t + 1][..t] == requests[..t];
      SessionNext(worlds, frees, requests[..t + 1], log, h.Seen(), |h.k.m.free|, e);
      worlds, frees, log := worlds + [h.Seen()], frees + [|h.k.m.free|], log + [e];
    }
    assert requests[..|requests|] == requests;
  }
}
