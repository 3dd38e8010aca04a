/**
 copyout, copyin and copyinstr of vm.c: the page-crossing copies between the kernel and
 a process, with their lazy faults, proved against UserMemory.
 */
module Copy {
  import opened Riscv
  import opened PageTable
  import opened Kalloc
  import opened Vm
  import opened Space
  import opened Uvm
  import opened UserMemory

  // -------------------------------------------------- a process's user memory

  /** The user memory of the process whose table is root, n pages and the shared page. */
  ghost function ViewOf(mem: Mem, root: nat, n: nat): UserMem {
    UserMem(seq(n, v requires 0 <= v < n => View(mem, root, v)), View(mem, root, USYS_VPN))
  }

  /** The top three pages are mapped as proc_pagetable maps them; A and D may be set. */
  ghost predicate TopOk(mem: Mem, own: Owners, root: nat) {
    var s, t, x := Lookup(mem, root, USYS_VPN), Lookup(mem, root, TRAP_VPN), Lookup(mem, root, TRAMP_VPN);
    && s.f.v && s.f.r && s.f.u && !s.f.w && s.ppn in own && own[s.ppn].SysPage? && s.ppn in mem && IsData(mem[s.ppn])
    && t.f.v && t.f.r && t.f.w && !t.f.u
    && x.f.v && x.f.r && x.f.x && !x.f.u
  }

  /** A process of size sz: user leaves only below PGROUNDUP(sz), and the top three pages. */
  ghost predicate UserOk(mem: Mem, own: Owners, root: nat, sz: nat) {
    && IsRoot(own, root)
    && sz <= USYSCALL
    && (forall v: nat | Pages(sz) <= v < USYS_VPN :: Lookup(mem, root, v) == ZERO)
    && TopOk(mem, own, root)
  }

  /** The tree under root gained free pages as tables and user pages; every other page kept its owner. */
  ghost predicate Gains(own: Owners, own': Owners, root: nat) {
    && own'.Keys == own.Keys
    && (forall p | p in own ::
          own'[p] == own[p] || (own[p].Free? && Mine(own', p, root) && !own'[p].path.P3?))
  }

  /**
   A step on the process at root that maps pages below n at most: mapped pages keep their
   PTEs, and new ones are mapped as vmfault maps them. Other processes' pages are untouched.
   */
  ghost predicate UserStep(mem: Mem, own: Owners, mem': Mem, own': Owners, root: nat, n: nat) {
    && Frame(mem, own, mem', own', root)
    && Gains(own, own', root)
    && (IsRoot(own, root) ==> IsRoot(own', root))
    && (forall w: nat ::
          if w < n && !Lookup(mem, root, w).f.v
          then Lookup(mem', root, w) == ZERO || Lookup(mem', root, w).f == RWU.(v := true)
          else Lookup(mem', root, w) == Lookup(mem, root, w))
  }

  lemma StepTrans(mem: Mem, own: Owners, mem1: Mem, own1: Owners, mem2: Mem, own2: Owners, root: nat, n: nat)
    requires UserStep(mem, own, mem1, own1, root, n) && UserStep(mem1, own1, mem2, own2, root, n)
    ensures UserStep(mem, own, mem2, own2, root, n)
  {
    hide Lookup;
  }

  lemma StepNothing(mem: Mem, own: Owners, root: nat, sz: nat)
    requires UserOk(mem, own, root, sz) && PtInv(mem, own)
    ensures UserStep(mem, own, mem, own, root, Pages(sz))
  {
    forall w: nat | w < Pages(sz) && !Lookup(mem, root, w).f.v ensures Lookup(mem, root, w) == ZERO {
      UserLeaf(mem, own, root, w);
    }
  }

  lemma StepUserOk(mem: Mem, own: Owners, mem': Mem, own': Owners, root: nat, sz: nat)
    requires UserOk(mem, own, root, sz) && UserStep(mem, own, mem', own', root, Pages(sz))
    ensures UserOk(mem', own', root, sz)
  {
    hide Lookup;
  }

  lemma ViewValid(mem: Mem, own: Owners, root: nat, sz: nat)
    requires PtInv(mem, own) && UserOk(mem, own, root, sz)
    ensures ViewOf(mem, root, Pages(sz)).Valid()
  {
    forall v: nat | v < Pages(sz) ensures |View(mem, root, v).bytes| == 4096 {
      UserLeaf(mem, own, root, v);
    }
  }

  lemma ViewSame(mem: Mem, mem': Mem, root: nat, n: nat)
    requires forall w: nat | w < n || w == USYS_VPN :: View(mem', root, w) == View(mem, root, w)
    ensures ViewOf(mem', root, n) == ViewOf(mem, root, n)
  {
    hide View;
  }

  /** A page fault below sz, successful or not, is a step that the view does not show. */
  lemma FaultStep(mem: Mem, own: Owners, mem': Mem, own': Owners, root: nat, sz: nat, v: nat, hi: nat)
    requires PtInv(mem, own) && UserOk(mem, own, root, sz)
    requires v <= hi <= v + 1 && (hi == v + 1 ==> v < Pages(sz) && !Lookup(mem, root, v).f.v)
    requires Grown(mem, own, mem', own', root, v, hi)
    requires hi == v + 1 ==> MappedTo(mem', root, v, RWU, Fill(0))
    ensures UserStep(mem, own, mem', own', root, Pages(sz))
    ensures ViewOf(mem', root, Pages(sz)) == ViewOf(mem, root, Pages(sz))
  {
    hide PtInv, Lookup, Grown, UserOk, UserStep, ViewOf, MappedTo;
    StepNothing(mem, own, root, sz);
    UserOkFacts(mem, own, root, sz);
    FaultUserStep(mem, own, mem', own', root, Pages(sz), v, hi);
    FaultView(mem, own, mem', own', root, Pages(sz), v, hi);
  }

  lemma FaultUserStep(mem: Mem, own: Owners, mem': Mem, own': Owners, root: nat, n: nat, v: nat, hi: nat)
    requires UserStep(mem, own, mem, own, root, n) && IsRoot(own, root)
    requires v <= hi <= v + 1 && (hi == v + 1 ==> v < n && !Lookup(mem, root, v).f.v)
    requires Grown(mem, own, mem', own', root, v, hi)
    requires hi == v + 1 ==> MappedTo(mem', root, v, RWU, Fill(0))
    ensures UserStep(mem, own, mem', own', root, n)
  {
    GrownKeeps(mem, own, mem', own', root, v, hi);
    hide Lookup, Frame;
  }

  lemma FaultView(mem: Mem, own: Owners, mem': Mem, own': Owners, root: nat, n: nat, v: nat, hi: nat)
    requires PtInv(mem, own) && IsRoot(own, root) && TopOk(mem, own, root) && n <= USYS_VPN
    requires v <= hi <= v + 1 && (hi == v + 1 ==> v < n && !Lookup(mem, root, v).f.v)
    requires Grown(mem, own, mem', own', root, v, hi)
    requires hi == v + 1 ==> MappedTo(mem', root, v, RWU, Fill(0))
    ensures ViewOf(mem', root, n) == ViewOf(mem, root, n)
  {
    hide PtInv, Lookup, Grown, TopOk, ViewOf, MappedTo, View;
    forall w: nat | w < n || w == USYS_VPN ensures View(mem', root, w) == View(mem, root, w) {
      if v <= w < hi {
        UserLeaf(mem, own, root, w);
        ZeroView(mem, mem', root, w, RWU);
      } else if w < USYS_VPN {
        GrownView(mem, own, mem', own', root, v, hi, w);
      } else {
        SharedKept(mem, own, mem', own', root, v, hi);
      }
    }
    ViewSame(mem, mem', root, n);
  }

  lemma SharedKept(mem: Mem, own: Owners, mem': Mem, own': Owners, root: nat, v: nat, hi: nat)
    requires IsRoot(own, root) && TopOk(mem, own, root) && !(v <= USYS_VPN < hi)
    requires Grown(mem, own, mem', own', root, v, hi)
    ensures View(mem', root, USYS_VPN) == View(mem, root, USYS_VPN)
  {
    hide Lookup;
  }

  /** Memory after data was stored at offset off of page p. */
  function WithData(mem: Mem, p: nat, off: nat, data: seq<byte>): Mem
    requires p in mem && IsData(mem[p]) && off + |data| <= 4096
  {
    mem[p := Data(Splice(mem[p].bytes, off, data))]
  }

  /** Storing bytes in the page that virtual page v leads to changes the view of v only. */
  lemma StoreStep(mem: Mem, own: Owners, root: nat, sz: nat, v: nat, off: nat, data: seq<byte>)
    requires PtInv(mem, own) && UserOk(mem, own, root, sz) && v < Pages(sz) && off + |data| <= 4096
    requires Lookup(mem, root, v).f.v
    ensures var p := Lookup(mem, root, v).ppn;
            && p in own && !own[p].Free? && p in mem && IsData(mem[p])
            && PtInv(WithData(mem, p, off, data), own)
            && UserStep(mem, own, WithData(mem, p, off, data), own, root, Pages(sz))
            && Brought(mem, WithData(mem, p, off, data), root, v, 0)
            && ViewOf(mem, root, Pages(sz)).Valid()
            && ViewOf(WithData(mem, p, off, data), root, Pages(sz)) ==
               ViewOf(mem, root, Pages(sz)).Write(v, off, data)
  {
    hide PtInv, Lookup, Frame, TopOk, View, UserStep, UserOk, ViewOf, SameVpnLookups;
    StoreInv(mem, own, root, sz, v, off, data);
    var p := Lookup(mem, root, v).ppn;
    StepNothing(mem, own, root, sz);
    UserOkFacts(mem, own, root, sz);
    StoreUserStep(mem, own, WithData(mem, p, off, data), root, Pages(sz));
    SameUnder(mem, own, WithData(mem, p, off, data), root);
    ViewValid(mem, own, root, sz);
    StoreLook(mem, own, root, sz, v, off, data);
  }

  lemma StoreLook(mem: Mem, own: Owners, root: nat, sz: nat, v: nat, off: nat, data: seq<byte>)
    requires PtInv(mem, own) && UserOk(mem, own, root, sz) && v < Pages(sz) && off + |data| <= 4096
    requires Lookup(mem, root, v).f.v && Lookup(mem, root, v).ppn in mem && IsData(mem[Lookup(mem, root, v).ppn])
    requires SameVpnLookups(mem, own, WithData(mem, Lookup(mem, root, v).ppn, off, data))
    requires ViewOf(mem, root, Pages(sz)).Valid() && |ViewOf(mem, root, Pages(sz)).pages| == Pages(sz)
    ensures ViewOf(WithData(mem, Lookup(mem, root, v).ppn, off, data), root, Pages(sz)) ==
            ViewOf(mem, root, Pages(sz)).Write(v, off, data)
  {
    hide PtInv, Lookup, View, UserOk, SameVpnLookups;
    var p := Lookup(mem, root, v).ppn;
    var mem' := WithData(mem, p, off, data);
    forall w: nat | w < Pages(sz) || w == USYS_VPN
      ensures View(mem', root, w) == if w == v then View(mem, root, v).(bytes := mem'[p].bytes) else View(mem, root, w)
    {
      StoreView(mem, own, root, sz, v, mem', w);
    }
    ViewBytes(mem, root, v);
    ViewWritten(mem, mem', root, Pages(sz), v, off, data);
  }

  lemma ViewBytes(mem: Mem, root: nat, v: nat)
    requires Lookup(mem, root, v).f.v
    requires Lookup(mem, root, v).ppn in mem && IsData(mem[Lookup(mem, root, v).ppn])
    ensures View(mem, root, v).bytes == mem[Lookup(mem, root, v).ppn].bytes
  {
  }

  lemma StoreInv(mem: Mem, own: Owners, root: nat, sz: nat, v: nat, off: nat, data: seq<byte>)
    requires PtInv(mem, own) && UserOk(mem, own, root, sz) && v < Pages(sz) && off + |data| <= 4096
    requires Lookup(mem, root, v).f.v
    ensures var p := Lookup(mem, root, v).ppn;
            && p in own && Mine(own, p, root) && p in mem && IsData(mem[p])
            && PtInv(WithData(mem, p, off, data), own)
            && SameVpnLookups(mem, own, WithData(mem, p, off, data))
  {
    UserLeaf(mem, own, root, v);
    var p := Lookup(mem, root, v).ppn;
    DataWrite(mem, own, p, Splice(mem[p].bytes, off, data));
    SameLeaves(mem, own, WithData(mem, p, off, data));
  }

  /** Changing the contents of one of the process's own pages. */
  lemma StoreUserStep(mem: Mem, own: Owners, mem': Mem, root: nat, n: nat)
    requires UserStep(mem, own, mem, own, root, n) && IsRoot(own, root)
    requires SameVpnLookups(mem, own, mem') && mem'.Keys == mem.Keys
    requires forall q | q in mem && !Mine(own, q, root) :: mem'[q] == mem[q]
    ensures UserStep(mem, own, mem', own, root, n)
  {
    SameUnder(mem, own, mem', root);
    hide Lookup, SameVpnLookups;
  }

  lemma SameUnder(mem: Mem, own: Owners, mem': Mem, root: nat)
    requires SameVpnLookups(mem, own, mem') && IsRoot(own, root)
    ensures forall w: nat :: Lookup(mem', root, w) == Lookup(mem, root, w)
  {
  }

  lemma StoreView(mem: Mem, own: Owners, root: nat, sz: nat, v: nat, mem': Mem, w: nat)
    requires PtInv(mem, own) && UserOk(mem, own, root, sz) && v < Pages(sz)
    requires Lookup(mem, root, v).f.v && SameVpnLookups(mem, own, mem')
    requires forall q | q in mem && q != Lookup(mem, root, v).ppn :: q in mem' && mem'[q] == mem[q]
    requires Lookup(mem, root, v).ppn in mem' && IsData(mem'[Lookup(mem, root, v).ppn])
    requires w < Pages(sz) || w == USYS_VPN
    ensures var p := Lookup(mem, root, v).ppn;
            View(mem', root, w) == if w == v then View(mem, root, v).(bytes := mem'[p].bytes) else View(mem, root, w)
  {
    UserLeaf(mem, own, root, v);
    if w < USYS_VPN {
      UserLeaf(mem, own, root, w);
      if Lookup(mem, root, w).f.v && Lookup(mem, root, w).ppn == Lookup(mem, root, v).ppn {
        PagePathInjective(v, w);
      }
    }
    hide Lookup, PtInv;
  }

  lemma ViewWritten(mem: Mem, mem': Mem, root: nat, n: nat, v: nat, off: nat, data: seq<byte>)
    requires v < n && off + |data| <= 4096 && ViewOf(mem, root, n).Valid()
    requires |View(mem, root, v).bytes| == 4096
    requires forall w: nat | w < n || w == USYS_VPN ::
               View(mem', root, w) ==
               if w == v then View(mem, root, v).(bytes := Splice(View(mem, root, v).bytes, off, data))
               else View(mem, root, w)
    ensures ViewOf(mem', root, n) == ViewOf(mem, root, n).Write(v, off, data)
  {
    hide View;
    assert ViewOf(mem', root, n).pages == ViewOf(mem, root, n).Write(v, off, data).pages;
  }

  // -------------------------------------------------------------------- holes

  /** Page v is one that a process of np pages may use and has not been given yet. */
  predicate Hole(mem: Mem, root: nat, v: nat, np: nat) {
    v < np && !Lookup(mem, root, v).f.v
  }

  /** The holes among the n pages from v on. */
  function Holes(mem: Mem, root: nat, v: nat, n: nat, np: nat): (h: nat)
    ensures h <= n
    decreases n
  {
    if n == 0 then 0 else (if Hole(mem, root, v, np) then 1 else 0) + Holes(mem, root, v + 1, n - 1, np)
  }

  /** The holes among the pages that the len bytes from va on lie in. */
  function HolesAt(mem: Mem, root: nat, va: nat, len: nat, np: nat): (h: nat)
    ensures h <= Rounds(va, len)
  {
    Holes(mem, root, va / 4096, Rounds(va, len), np)
  }

  /** One round of a copy deals with the first page. */
  lemma HolesNext(mem: Mem, root: nat, va: nat, len: nat, next: nat, np: nat)
    requires len > 0 && (Chunk(va, len) < len ==> next == va + Chunk(va, len))
    ensures HolesAt(mem, root, va, len, np) ==
            (if Hole(mem, root, va / 4096, np) then 1 else 0) + HolesAt(mem, root, next, len - Chunk(va, len), np)
  {
    hide Hole;
    RoundsNext(va, len, next);
    if Chunk(va, len) < len {
      assert next / 4096 == va / 4096 + 1;
    }
    hide Rounds;
  }

  /** A step of the process makes no holes. */
  lemma NoNewHole(mem: Mem, own: Owners, mem': Mem, own': Owners, root: nat, n: nat, v: nat, np: nat)
    requires UserStep(mem, own, mem', own', root, n)
    ensures Hole(mem', root, v, np) ==> Hole(mem, root, v, np)
  {
    hide Lookup;
  }

  // ------------------------------------------------------------ pages brought in

  /** Pages [v, v + n) are mapped, and no other translation changed. */
  ghost predicate Brought(mem: Mem, mem': Mem, root: nat, v: nat, n: nat) {
    forall w: nat ::
      if v <= w < v + n then Lookup(mem', root, w).f.v && BroughtOne(mem, mem', root, w)
      else Lookup(mem', root, w) == Lookup(mem, root, w)
  }

  /** A page that was mapped keeps its translation. */
  ghost predicate BroughtOne(mem: Mem, mem': Mem, root: nat, w: nat) {
    Lookup(mem, root, w).f.v ==> Lookup(mem', root, w) == Lookup(mem, root, w)
  }

  lemma BroughtNone(mem: Mem, root: nat, va: nat)
    ensures Brought(mem, mem, root, va / 4096, 0) && Rounds(va, 0) == 0
  {
  }

  lemma BroughtHere(mem: Mem, root: nat, v: nat)
    requires Lookup(mem, root, v).f.v
    ensures Brought(mem, mem, root, v, 1)
  {
  }

  /** A page that the user may not write was not brought in by a fault. */
  lemma BroughtBefore(mem: Mem, own: Owners, mem': Mem, own': Owners, root: nat, n: nat, v: nat)
    requires UserStep(mem, own, mem', own', root, n) && Brought(mem, mem', root, v, 1)
    requires !Lookup(mem', root, v).f.w
    ensures Brought(mem, mem', root, v, 0)
  {
    hide Lookup, Frame, Gains;
  }

  lemma BroughtStored(mem: Mem, mem1: Mem, mem2: Mem, root: nat, v: nat)
    requires Brought(mem, mem1, root, v, 1) && Brought(mem1, mem2, root, v, 0)
    ensures Brought(mem, mem2, root, v, 1)
  {
    hide Lookup;
  }

  lemma BroughtNoMore(mem: Mem, mem1: Mem, mem2: Mem, root: nat, v: nat, n: nat, w: nat)
    requires Brought(mem, mem1, root, v, n) && Brought(mem1, mem2, root, w, 0)
    ensures Brought(mem, mem2, root, v, n)
  {
    hide Lookup;
  }

  lemma BroughtNext(mem: Mem, mem1: Mem, mem2: Mem, root: nat, v: nat, n: nat, k: nat)
    requires Brought(mem, mem1, root, v, n) && Brought(mem1, mem2, root, v + n, k)
    ensures Brought(mem, mem2, root, v, n + k)
  {
    hide Lookup;
  }

  /** One more round of a copy that has stored k bytes, with chunks that end at the ends of pages. */
  lemma BroughtRound(mem: Mem, mem1: Mem, mem2: Mem, root: nat, va: nat, k: nat, len: nat)
    requires k == 0 || (va + k) % 4096 == 0
    requires Brought(mem, mem1, root, va / 4096, Rounds(va, k)) && 0 < len <= Chunk(va + k, len)
    requires Brought(mem1, mem2, root, (va + k) / 4096, 1)
    ensures Brought(mem, mem2, root, va / 4096, Rounds(va, k + len))
  {
    RoundsMore(va, k, len);
    hide Rounds;
    BroughtNext(mem, mem1, mem2, root, va / 4096, Rounds(va, k), 1);
  }

  lemma RoundsMore(va: nat, k: nat, len: nat)
    requires (k == 0 || (va + k) % 4096 == 0) && 0 < len <= Chunk(va + k, len)
    ensures Rounds(va, k + len) == Rounds(va, k) + 1
    ensures (va + k) / 4096 == va / 4096 + Rounds(va, k)
  {
  }

  /** A page fault that mapped page v, or none. */
  lemma FaultBrings(mem: Mem, own: Owners, mem': Mem, own': Owners, root: nat, v: nat, hi: nat)
    requires Grown(mem, own, mem', own', root, v, hi) && v <= hi <= v + 1 && IsRoot(own, root)
    requires hi == v + 1 ==> !Lookup(mem, root, v).f.v && Lookup(mem', root, v).f.v
    ensures Brought(mem, mem', root, v, hi - v)
  {
    GrownKeeps(mem, own, mem', own', root, v, hi);
    hide Lookup, Frame;
  }

  // ------------------------------------------------------------------ lookups

  /** walkaddr: the physical page behind a user-accessible page, 0 when there is none. */
  method WalkAddr(m: Machine, root: nat, va: nat) returns (pn: nat)
    requires m.Valid() && IsRoot(m.own, root)
    modifies m
    ensures unchanged(m)
    ensures pn == if va < MAXVA && Lookup(m.mem, root, va / 4096).f.v && Lookup(m.mem, root, va / 4096).f.u
                  then Lookup(m.mem, root, va / 4096).ppn else 0
  {
    if va >= MAXVA {
      return 0;
    }
    var pte := Walk(m, root, va, false);
    if pte.Null? {
      return 0;
    }
    var e := Slot(m.mem, pte.page, pte.idx);
    if !e.f.v {
      return 0;
    }
    if !e.f.u {
      return 0;
    }
    return e.ppn;
  }

  /** What is known of a user-accessible page of the process. */
  lemma UserAccessible(mem: Mem, own: Owners, root: nat, sz: nat, v: nat)
    requires PtInv(mem, own) && UserOk(mem, own, root, sz) && v < NVPN
    ensures var (e, s) := (Lookup(mem, root, v), ViewOf(mem, root, Pages(sz)));
            && (e.f.v && e.f.u ==> e.ppn != 0 && s.Readable(v) && e.ppn in mem && IsData(mem[e.ppn])
                                   && s.At(v) == UserPage(e.f.u, e.f.w, mem[e.ppn].bytes))
            && (!(e.f.v && e.f.u) && s.Readable(v) ==> v < Pages(sz) && !e.f.v)
            && (e.f.v && v < Pages(sz) ==> s.At(v).w == e.f.w)
            && (s.Writable(v) ==> v < Pages(sz))
  {
    if v < USYS_VPN {
      UserLeaf(mem, own, root, v);
    }
    assert v == USYS_VPN || v == TRAP_VPN || v == TRAMP_VPN || v < USYS_VPN;
  }

  /**
   The lookup that the three copies share: walkaddr, and vmfault when that finds nothing.
   It returns 0 exactly when the page is not readable by the user, or on lack of memory.
   */
  method FindPage(m: Machine, root: nat, psz: nat, va0: nat) returns (pn: nat)
    requires m.Valid() && UserOk(m.mem, m.own, root, psz) && va0 % 4096 == 0
    modifies m
    ensures m.Valid() && IsRoot(m.own, root) && UserOk(m.mem, m.own, root, psz)
    ensures UserStep(old(m.mem), old(m.own), m.mem, m.own, root, Pages(psz))
    ensures ViewOf(m.mem, root, Pages(psz)) == ViewOf(old(m.mem), root, Pages(psz))
    ensures var (s, v) := (ViewOf(m.mem, root, Pages(psz)), va0 / 4096);
            && (pn != 0 ==> s.Readable(v) && va0 < MAXVA
                            && Lookup(m.mem, root, v).f.v && Lookup(m.mem, root, v).ppn == pn
                            && pn in m.mem && m.mem[pn] == Data(s.At(v).bytes))
            && (pn == 0 && s.Readable(v) ==> |old(m.free)| <= Missing(old(m.mem), root, v))
    ensures Brought(old(m.mem), m.mem, root, va0 / 4096, if pn == 0 then 0 else 1)
    ensures pn == 0 && ViewOf(m.mem, root, Pages(psz)).Readable(va0 / 4096) ==>
              Hole(old(m.mem), root, va0 / 4096, Pages(psz))
    ensures |m.free| <= |old(m.free)| <= |m.free| + if Hole(old(m.mem), root, va0 / 4096, Pages(psz)) then 3 else 0
  {
    hide PtInv, Lookup, Grown, UserOk, UserStep, ViewOf, MappedTo, Missing, Brought;
    ghost var mem0, own0, v := m.mem, m.own, va0 / 4096;
    UserOkFacts(mem0, own0, root, psz);
    if v < NVPN {
      UserAccessible(mem0, own0, root, psz, v);
    }
    StepNothing(mem0, own0, root, psz);
    pn := WalkAddr(m, root, va0);
    if pn != 0 {
      BroughtHere(mem0, root, v);
    } else {
      pn := VmFault(m, root, psz, va0);
      if pn != 0 {
        FaultStep(mem0, own0, m.mem, m.own, root, psz, v, v + 1);
        FaultedPage(m.mem, root, v, pn);
        FaultBrings(mem0, own0, m.mem, m.own, root, v, v + 1);
      } else {
        FaultStep(mem0, own0, m.mem, m.own, root, psz, v, v);
        FaultBrings(mem0, own0, m.mem, m.own, root, v, v);
      }
      StepUserOk(mem0, own0, m.mem, m.own, root, psz);
      UserOkFacts(m.mem, m.own, root, psz);
      if v < NVPN {
        UserAccessible(m.mem, m.own, root, psz, v);
      }
    }
  }

  lemma UserOkFacts(mem: Mem, own: Owners, root: nat, sz: nat)
    requires UserOk(mem, own, root, sz)
    ensures IsRoot(own, root) && TopOk(mem, own, root) && sz <= USYSCALL && Pages(sz) <= USYS_VPN
    ensures |ViewOf(mem, root, Pages(sz)).pages| == Pages(sz)
  {
  }

  lemma FaultedPage(mem: Mem, root: nat, v: nat, pn: nat)
    requires MappedTo(mem, root, v, RWU, Fill(0)) && Lookup(mem, root, v).ppn == pn
    ensures Lookup(mem, root, v).f == RWU.(v := true)
  {
  }

  // ------------------------------------------------------------------- copies

  /**
   copyout: copies src to user address dstva. Unless an allocation failed (oom) it does
   exactly what UserMemory.CopyOut says; in any case the first k bytes have been written
   as that function writes them, and no others.
   */
  method CopyOutUser(m: Machine, root: nat, psz: nat, dstva: nat, src: seq<byte>)
    returns (r: int, ghost k: nat, ghost oom: bool)
    requires m.Valid() && UserOk(m.mem, m.own, root, psz)
    modifies m
    ensures m.Valid() && UserOk(m.mem, m.own, root, psz)
    ensures UserStep(old(m.mem), old(m.own), m.mem, m.own, root, Pages(psz))
    ensures ViewOf(old(m.mem), root, Pages(psz)).Valid() && ViewOf(m.mem, root, Pages(psz)).Valid()
    ensures k <= |src| && (ViewOf(m.mem, root, Pages(psz)), true) ==
                          CopyOut(ViewOf(old(m.mem), root, Pages(psz)), dstva, src[..k])
    ensures r == (if k == |src| then 0 else -1)
    // the pages written are mapped, and no others are
    ensures Brought(old(m.mem), m.mem, root, dstva / 4096, Rounds(dstva, k))
    ensures !oom ==> (ViewOf(m.mem, root, Pages(psz)), r == 0) ==
                     CopyOut(ViewOf(old(m.mem), root, Pages(psz)), dstva, src)
    ensures oom ==> r == -1 && |old(m.free)| < 3 * HolesAt(old(m.mem), root, dstva, |src|, Pages(psz))
    ensures |m.free| <= |old(m.free)| <= |m.free| + 3 * HolesAt(old(m.mem), root, dstva, |src|, Pages(psz))
  {
    hide PtInv, Lookup, UserOk, UserStep, ViewOf, View, CopyOut, HolesAt, Hole, FreeOk, Chunk, Rounds, Brought,
      UserMem.Write, UserMem.Valid, UserMem.Writable, UserMem.Has, UserMem.At;
    ghost var mem0, own0, n, s0 := m.mem, m.own, Pages(psz), ViewOf(m.mem, root, Pages(psz));
    ViewValid(mem0, own0, root, psz);
    StepNothing(mem0, own0, root, psz);
    CopyOutNone(s0, dstva, src);
    BroughtNone(mem0, root, dstva);
    k, oom := 0, false;
    var va: nat, rest := dstva, src;
    while |rest| > 0
      invariant m.Valid() && UserOk(m.mem, m.own, root, psz)
      invariant UserStep(mem0, own0, m.mem, m.own, root, n)
      invariant k <= |src| && rest == src[k..] && (k < |src| ==> va == dstva + k)
      invariant k == |src| || k == 0 || va % 4096 == 0
      invariant (ViewOf(m.mem, root, n), true) == CopyOut(s0, dstva, src[..k])
      invariant Brought(mem0, m.mem, root, dstva / 4096, Rounds(dstva, k))
      invariant |m.free| <= |old(m.free)| <=
                |m.free| + 3 * (HolesAt(mem0, root, dstva, |src|, n) - HolesAt(mem0, root, va, |rest|, n))
      decreases |rest|
    {
      ghost var mem1, own1, s1 := m.mem, m.own, ViewOf(m.mem, root, n);
      CopyOutSplit(s0, dstva, src, k);
      var cnt;
      cnt, oom := OutRound(m, root, psz, va, rest);
      StepTrans(mem0, own0, mem1, own1, m.mem, m.own, root, n);
      HolesNext(mem0, root, va, |rest|, PgRoundDown(va) + 4096, n);
      NoNewHole(mem0, own0, mem1, own1, root, n, va / 4096, n);
      if cnt == 0 {
        BroughtNoMore(mem0, mem1, m.mem, root, dstva / 4096, Rounds(dstva, k), va / 4096);
        return -1, k, oom;
      }
      BroughtRound(mem0, mem1, m.mem, root, dstva, k, cnt);
      CopyOutExtend(s0, dstva, src, k, cnt, s1);
      rest := rest[cnt..];
      va := PgRoundDown(va) + 4096;
      k := k + cnt;
    }
    assert src[..k] == src;
    return 0, k, false;
  }

  /** One round of copyout's loop: the number of bytes it stores, 0 when it returns -1. */
  method OutRound(m: Machine, root: nat, psz: nat, va: nat, rest: seq<byte>)
    returns (cnt: nat, ghost oom: bool)
    requires m.Valid() && UserOk(m.mem, m.own, root, psz) && |rest| > 0
    modifies m
    ensures m.Valid() && UserOk(m.mem, m.own, root, psz)
    ensures UserStep(old(m.mem), old(m.own), m.mem, m.own, root, Pages(psz))
    ensures var (s, s') := (ViewOf(old(m.mem), root, Pages(psz)), ViewOf(m.mem, root, Pages(psz)));
            && s.Valid()
            && (cnt > 0 ==> !oom && cnt == Chunk(va, |rest|) && s.Writable(va / 4096)
                            && s' == s.Write(va / 4096, va % 4096, rest[..cnt]))
            && (cnt == 0 ==> s' == s)
            && (cnt == 0 && !oom ==> CopyOut(s, va, rest) == (s, false))
            && (oom ==> cnt == 0 && |old(m.free)| < 3 && Hole(old(m.mem), root, va / 4096, Pages(psz)))
    ensures Brought(old(m.mem), m.mem, root, va / 4096, if cnt == 0 then 0 else 1)
    ensures |m.free| <= |old(m.free)| <= |m.free| + if Hole(old(m.mem), root, va / 4096, Pages(psz)) then 3 else 0
  {
    hide PtInv, Lookup, UserOk, UserStep, ViewOf, View, CopyOut, FreeOk, UserMem.Write, Hole, Missing, Brought;
    ghost var s := ViewOf(m.mem, root, Pages(psz));
    BroughtNone(m.mem, root, va);
    ViewValid(m.mem, m.own, root, psz);
    StepNothing(m.mem, m.own, root, psz);
    if !s.Writable(va / 4096) {
      CopyOutStops(s, va, rest);
    }
    var va0 := PgRoundDown(va);
    if va0 >= MAXVA {
      NotWritable(m.mem, m.own, root, psz, va / 4096);
      return 0, false;
    }
    ghost var mem0, own0 := m.mem, m.own;
    var pa0 := FindPage(m, root, psz, va0);
    ghost var mem1, own1 := m.mem, m.own;
    if pa0 == 0 {
      return 0, s.Readable(va / 4096);
    }
    var pte := Walk(m, root, va0, false);
    if !Slot(m.mem, pte.page, pte.idx).f.w {
      NotWritable(m.mem, m.own, root, psz, va / 4096);
      BroughtBefore(mem0, own0, mem1, own1, root, Pages(psz), va / 4096);
      return 0, false;
    }
    cnt := 4096 - (va - va0);
    if cnt > |rest| {
      cnt := |rest|;
    }
    StoreChunk(m, root, psz, pa0, va, rest[..cnt]);
    BroughtStored(mem0, mem1, m.mem, root, va / 4096);
    StepTrans(mem0, own0, mem1, own1, m.mem, m.own, root, Pages(psz));
    return cnt, false;
  }

  /** `memmove(pa0 + (va - va0), src, n)` into page pa0, which va's page leads to. */
  method StoreChunk(m: Machine, root: nat, psz: nat, pa0: nat, va: nat, data: seq<byte>)
    requires m.Valid() && UserOk(m.mem, m.own, root, psz) && va < MAXVA && va % 4096 + |data| <= 4096
    requires Lookup(m.mem, root, va / 4096).f.v && Lookup(m.mem, root, va / 4096).f.w
    requires Lookup(m.mem, root, va / 4096).ppn == pa0 && ViewOf(m.mem, root, Pages(psz)).Readable(va / 4096)
    modifies m
    ensures m.Valid() && UserOk(m.mem, m.own, root, psz)
    ensures UserStep(old(m.mem), old(m.own), m.mem, m.own, root, Pages(psz))
    ensures m.free == old(m.free) && Brought(old(m.mem), m.mem, root, va / 4096, 0)
    ensures var s := ViewOf(old(m.mem), root, Pages(psz));
            && s.Valid() && s.Writable(va / 4096)
            && ViewOf(m.mem, root, Pages(psz)) == s.Write(va / 4096, va % 4096, data)
  {
    hide PtInv, Lookup, UserOk, UserStep, ViewOf, View, Brought;
    ghost var mem0, own0 := m.mem, m.own;
    WritablePage(mem0, own0, root, psz, va / 4096);
    StoreStep(mem0, own0, root, psz, va / 4096, va % 4096, data);
    FreeKept(m.end, m.mem, m.freelist, m.free, m.own, WithData(m.mem, pa0, va % 4096, data), m.own);
    m.mem := WithData(m.mem, pa0, va % 4096, data);
    StepUserOk(mem0, own0, m.mem, m.own, root, psz);
  }

  lemma WritablePage(mem: Mem, own: Owners, root: nat, sz: nat, v: nat)
    requires PtInv(mem, own) && UserOk(mem, own, root, sz) && v < NVPN
    requires Lookup(mem, root, v).f.v && Lookup(mem, root, v).f.w && ViewOf(mem, root, Pages(sz)).Readable(v)
    ensures v < Pages(sz) && ViewOf(mem, root, Pages(sz)).Writable(v)
  {
  }

  lemma NotWritable(mem: Mem, own: Owners, root: nat, sz: nat, v: nat)
    requires UserOk(mem, own, root, sz)
    requires v >= NVPN || (Lookup(mem, root, v).f.v && !Lookup(mem, root, v).f.w)
    ensures !ViewOf(mem, root, Pages(sz)).Writable(v)
  {
  }

  /** One more chunk after the first k bytes. */
  lemma CopyOutExtend(s: UserMem, va: nat, src: seq<byte>, k: nat, cnt: nat, s1: UserMem)
    requires s.Valid() && k < |src| && (k == 0 || (va + k) % 4096 == 0)
    requires CopyOut(s, va, src[..k]) == (s1, true) && s1.Writable((va + k) / 4096)
    requires cnt == Chunk(va + k, |src| - k)
    ensures CopyOut(s, va, src[..k + cnt]) ==
            (s1.Write((va + k) / 4096, (va + k) % 4096, src[k..][..cnt]), true)
  {
    var t := src[..k + cnt];
    assert t[..k] == src[..k] && t[k..] == src[k..][..cnt];
    CopyOutSplit(s, va, t, k);
    var d := src[k..][..cnt];
    assert d[..cnt] == d && d[cnt..] == [];
    assert Chunk(va + k, cnt) == cnt;
  }

  /**
   copyin: copies len bytes from user address srcva; dst is what it stored. Faults that it
   takes on the way leave the user memory as it looks.
   */
  method CopyInUser(m: Machine, root: nat, psz: nat, srcva: nat, len: nat)
    returns (r: int, dst: seq<byte>, ghost oom: bool)
    requires m.Valid() && UserOk(m.mem, m.own, root, psz)
    modifies m
    ensures m.Valid() && UserOk(m.mem, m.own, root, psz)
    ensures UserStep(old(m.mem), old(m.own), m.mem, m.own, root, Pages(psz))
    ensures ViewOf(m.mem, root, Pages(psz)) == ViewOf(old(m.mem), root, Pages(psz))
    ensures ViewOf(m.mem, root, Pages(psz)).Valid()
    ensures r == 0 || r == -1
    ensures r == 0 ==> |dst| == len
    ensures Brought(old(m.mem), m.mem, root, srcva / 4096, Rounds(srcva, |dst|))
    ensures !oom ==> (dst, r == 0) == CopyIn(ViewOf(m.mem, root, Pages(psz)), srcva, len)
    ensures oom ==> r == -1 && |old(m.free)| < 3 * HolesAt(old(m.mem), root, srcva, len, Pages(psz))
    ensures |m.free| <= |old(m.free)| <= |m.free| + 3 * HolesAt(old(m.mem), root, srcva, len, Pages(psz))
  {
    hide PtInv, Lookup, UserOk, UserStep, ViewOf, View, CopyIn, Onto, HolesAt, Hole, FreeOk, Missing,
      Rounds, Brought;
    ghost var mem0, own0, n, s := m.mem, m.own, Pages(psz), ViewOf(m.mem, root, Pages(psz));
    ViewValid(mem0, own0, root, psz);
    StepNothing(mem0, own0, root, psz);
    var va: nat, rest: nat := srcva, len;
    dst, oom := [], false;
    OntoNothing(CopyIn(s, srcva, len));
    BroughtNone(mem0, root, srcva);
    while rest > 0
      invariant m.Valid() && UserOk(m.mem, m.own, root, psz)
      invariant UserStep(mem0, own0, m.mem, m.own, root, n)
      invariant ViewOf(m.mem, root, n) == s && s.Valid()
      invariant CopyIn(s, srcva, len) == Onto(dst, CopyIn(s, va, rest))
      invariant |dst| + rest == len && (rest > 0 ==> va == srcva + |dst|)
      invariant rest == 0 || dst == [] || va % 4096 == 0
      invariant Brought(mem0, m.mem, root, srcva / 4096, Rounds(srcva, |dst|))
      invariant |m.free| <= |old(m.free)| <=
                |m.free| + 3 * (HolesAt(mem0, root, srcva, len, n) - HolesAt(mem0, root, va, rest, n))
      decreases rest
    {
      ghost var mem1, own1 := m.mem, m.own;
      var va0 := PgRoundDown(va);
      var pa0 := FindPage(m, root, psz, va0);
      StepTrans(mem0, own0, mem1, own1, m.mem, m.own, root, n);
      HolesNext(mem0, root, va, rest, va0 + 4096, n);
      NoNewHole(mem0, own0, mem1, own1, root, n, va / 4096, n);
      if pa0 == 0 {
        if !s.Readable(va / 4096) {
          CopyInStops(s, va, rest, dst);
        }
        BroughtNoMore(mem0, mem1, m.mem, root, srcva / 4096, Rounds(srcva, |dst|), va / 4096);
        return -1, dst, s.Readable(va / 4096);
      }
      var cnt := 4096 - (va - va0);
      if cnt > rest {
        cnt := rest;
      }
      assert cnt == Chunk(va, rest) && va0 == va / 4096 * 4096;
      hide Chunk, PgRoundDown;
      CopyInRound(s, va, rest, va0 + 4096, dst);
      BroughtRound(mem0, mem1, m.mem, root, srcva, |dst|, cnt);
      dst := dst + m.mem[pa0].bytes[va - va0..va - va0 + cnt];
      rest := rest - cnt;
      va := va0 + 4096;
    }
    CopyInDone(s, va, dst);
    return 0, dst, false;
  }

  /** The outcome of a copy that goes on after it has stored dst. */
  function Onto(dst: seq<byte>, rest: (seq<byte>, bool)): (seq<byte>, bool) {
    (dst + rest.0, rest.1)
  }

  lemma OntoNothing(rest: (seq<byte>, bool))
    ensures Onto([], rest) == rest
  {
    assert [] + rest.0 == rest.0;
  }

  lemma OntoMore(dst: seq<byte>, more: seq<byte>, rest: (seq<byte>, bool))
    ensures Onto(dst, Onto(more, rest)) == Onto(dst + more, rest)
  {
    assert dst + (more + rest.0) == dst + more + rest.0;
  }

  /** One round of copyin; the next one begins at address next. */
  lemma CopyInRound(s: UserMem, va: nat, len: nat, next: nat, dst: seq<byte>)
    requires s.Valid() && len > 0 && s.Readable(va / 4096)
    requires Chunk(va, len) < len ==> next == va + Chunk(va, len)
    ensures var n := Chunk(va, len);
            Onto(dst, CopyIn(s, va, len)) ==
            Onto(dst + s.At(va / 4096).bytes[va % 4096..va % 4096 + n], CopyIn(s, next, len - n))
  {
    var n := Chunk(va, len);
    OntoMore(dst, s.At(va / 4096).bytes[va % 4096..va % 4096 + n], CopyIn(s, va + n, len - n));
  }

  lemma CopyInDone(s: UserMem, va: nat, dst: seq<byte>)
    requires s.Valid()
    ensures forall a: nat :: Onto(dst, CopyIn(s, a, 0)) == (dst, true)
  {
    assert dst + [] == dst;
  }

  /** The copy stops in front of a page that is not readable. */
  lemma CopyInStops(s: UserMem, va: nat, len: nat, dst: seq<byte>)
    requires s.Valid() && len > 0 && !s.Readable(va / 4096)
    ensures Onto(dst, CopyIn(s, va, len)) == (dst, false)
    ensures Onto(dst, CopyInStr(s, va, len)) == (dst, false)
  {
    assert dst + [] == dst;
  }

  /**
   copyinstr: copies a string of at most max bytes from user address srcva; dst is what it
   stored, NUL included when it found one.
   */
  method CopyInStrUser(m: Machine, root: nat, psz: nat, srcva: nat, max: nat)
    returns (r: int, dst: seq<byte>, ghost oom: bool)
    requires m.Valid() && UserOk(m.mem, m.own, root, psz)
    modifies m
    ensures m.Valid() && UserOk(m.mem, m.own, root, psz)
    ensures UserStep(old(m.mem), old(m.own), m.mem, m.own, root, Pages(psz))
    ensures ViewOf(m.mem, root, Pages(psz)) == ViewOf(old(m.mem), root, Pages(psz))
    ensures ViewOf(m.mem, root, Pages(psz)).Valid()
    ensures r == 0 || r == -1
    ensures Brought(old(m.mem), m.mem, root, srcva / 4096, Rounds(srcva, |dst|))
    ensures !oom ==> (dst, r == 0) == CopyInStr(ViewOf(m.mem, root, Pages(psz)), srcva, max)
    ensures oom ==> r == -1 && |old(m.free)| < 3 * HolesAt(old(m.mem), root, srcva, max, Pages(psz))
    ensures |m.free| <= |old(m.free)| <= |m.free| + 3 * HolesAt(old(m.mem), root, srcva, max, Pages(psz))
  {
    hide PtInv, Lookup, UserOk, UserStep, ViewOf, View, CopyInStr, FirstNul, Onto, HolesAt, Hole, FreeOk, ChunkBytes,
      Rounds, Brought;
    ghost var mem0, own0, np, s := m.mem, m.own, Pages(psz), ViewOf(m.mem, root, Pages(psz));
    ViewValid(mem0, own0, root, psz);
    StepNothing(mem0, own0, root, psz);
    var va: nat, rest: nat := srcva, max;
    var gotNull := false;
    dst, oom := [], false;
    OntoNothing(CopyInStr(s, srcva, max));
    BroughtNone(mem0, root, srcva);
    while !gotNull && rest > 0
      invariant m.Valid() && UserOk(m.mem, m.own, root, psz)
      invariant UserStep(mem0, own0, m.mem, m.own, root, np)
      invariant ViewOf(m.mem, root, np) == s && s.Valid()
      invariant CopyInStr(s, srcva, max) ==
                if gotNull then (dst, true)
                else Onto(dst, CopyInStr(s, va, rest))
      invariant !gotNull ==> |dst| + rest == max && (rest > 0 ==> va == srcva + |dst|)
      invariant gotNull || rest == 0 || dst == [] || va % 4096 == 0
      invariant Brought(mem0, m.mem, root, srcva / 4096, Rounds(srcva, |dst|))
      invariant |m.free| <= |old(m.free)|
      invariant |old(m.free)| <= |m.free| + 3 * (HolesAt(mem0, root, srcva, max, np)
                                                 - if gotNull then 0 else HolesAt(mem0, root, va, rest, np))
      decreases !gotNull, rest
    {
      ghost var mem1, own1 := m.mem, m.own;
      var found, nul, got := StrRound(m, root, psz, va, rest);
      StepTrans(mem0, own0, mem1, own1, m.mem, m.own, root, np);
      HolesNext(mem0, root, va, rest, PgRoundDown(va) + 4096, np);
      NoNewHole(mem0, own0, mem1, own1, root, np, va / 4096, np);
      if !found {
        if !s.Readable(va / 4096) {
          CopyInStops(s, va, rest, dst);
        }
        BroughtNoMore(mem0, mem1, m.mem, root, srcva / 4096, Rounds(srcva, |dst|), va / 4096);
        return -1, dst, s.Readable(va / 4096);
      }
      BroughtRound(mem0, mem1, m.mem, root, srcva, |dst|, |got|);
      CopyInStrRound(s, va, rest, PgRoundDown(va) + 4096, dst);
      gotNull := nul;
      rest := rest - if nul then |got| - 1 else |got|;
      dst := dst + got;
      va := PgRoundDown(va) + 4096;
    }
    if gotNull {
      return 0, dst, false;
    } else {
      CopyInStrDone(s, dst);
      return -1, dst, false;
    }
  }

  /** One round of copyinstr's loop: whether the page is there, whether a NUL was found, and the bytes stored. */
  method StrRound(m: Machine, root: nat, psz: nat, va: nat, rest: nat)
    returns (found: bool, nul: bool, got: seq<byte>)
    requires m.Valid() && UserOk(m.mem, m.own, root, psz) && rest > 0
    modifies m
    ensures m.Valid() && UserOk(m.mem, m.own, root, psz)
    ensures UserStep(old(m.mem), old(m.own), m.mem, m.own, root, Pages(psz))
    ensures ViewOf(m.mem, root, Pages(psz)) == ViewOf(old(m.mem), root, Pages(psz))
    ensures |m.free| <= |old(m.free)| <= |m.free| + if Hole(old(m.mem), root, va / 4096, Pages(psz)) then 3 else 0
    ensures Brought(old(m.mem), m.mem, root, va / 4096, if found then 1 else 0)
    ensures found ==> 0 < |got| <= Chunk(va, rest) && (!nul ==> |got| == Chunk(va, rest))
    ensures var s := ViewOf(m.mem, root, Pages(psz));
            && s.Valid()
            && (if !found
                then s.Readable(va / 4096) ==> |old(m.free)| < 3 && Hole(old(m.mem), root, va / 4096, Pages(psz))
                else
                  && s.Readable(va / 4096)
                  && var chunk := ChunkBytes(s, va, rest);
                  && (nul <==> FirstNul(chunk) < |chunk|)
                  && got == if nul then chunk[..FirstNul(chunk) + 1] else chunk)
  {
    hide PtInv, Lookup, UserOk, UserStep, ViewOf, View, FirstNul, FreeOk, Hole, Missing, Brought;
    var va0 := PgRoundDown(va);
    var pa0 := FindPage(m, root, psz, va0);
    ViewValid(m.mem, m.own, root, psz);
    if pa0 == 0 {
      return false, false, [];
    }
    var n := 4096 - (va - va0);
    if n > rest {
      n := rest;
    }
    found := true;
    nul, got := ScanChunk(m.mem[pa0].bytes[va - va0..va - va0 + n]);
  }

  /** One round of copyinstr; the next one begins at address next. */
  lemma CopyInStrRound(s: UserMem, va: nat, max: nat, next: nat, dst: seq<byte>)
    requires s.Valid() && max > 0 && s.Readable(va / 4096)
    requires Chunk(va, max) < max ==> next == va + Chunk(va, max)
    ensures var chunk := ChunkBytes(s, va, max);
            var (k, n) := (FirstNul(chunk), |chunk|);
            Onto(dst, CopyInStr(s, va, max)) ==
            if k < n then (dst + chunk[..k + 1], true)
            else Onto(dst + chunk, CopyInStr(s, next, max - n))
  {
    hide CopyInStr, FirstNul, UserMem.At, UserMem.Valid;
    CopyInStrFirst(s, va, max);
    var chunk := ChunkBytes(s, va, max);
    if |chunk| == max {
      CopyInStrStops(s, next, 0);
      CopyInStrStops(s, va + max, 0);
    }
    OntoMore(dst, chunk, CopyInStr(s, next, max - |chunk|));
  }

  lemma CopyInStrDone(s: UserMem, dst: seq<byte>)
    requires s.Valid()
    ensures forall a: nat :: Onto(dst, CopyInStr(s, a, 0)) == (dst, false)
  {
    assert dst + [] == dst;
  }

  /** copyinstr's inner loop: stores bytes up to and including the first NUL. */
  method ScanChunk(chunk: seq<byte>) returns (nul: bool, got: seq<byte>)
    ensures nul <==> FirstNul(chunk) < |chunk|
    ensures got == if nul then chunk[..FirstNul(chunk) + 1] else chunk
  {
    got := [];
    var n := |chunk|;
    while n > 0
      invariant 0 <= n <= |chunk| && got == chunk[..|chunk| - n]
      invariant |chunk| - n <= FirstNul(chunk)
      decreases n
    {
      var p := |chunk| - n;
      if chunk[p] == 0 {
        FirstNulIs(chunk, p);
        return true, got + [0];
      }
      FirstNulAfter(chunk, p);
      got := got + [chunk[p]];
      n := n - 1;
    }
    return false, got;
  }

  lemma FirstNulIs(bytes: seq<byte>, p: nat)
    requires p < |bytes| && bytes[p] == 0 && p <= FirstNul(bytes)
    ensures FirstNul(bytes) == p
  {
  }

  lemma FirstNulAfter(bytes: seq<byte>, p: nat)
    requires p < |bytes| && bytes[p] != 0 && p <= FirstNul(bytes)
    ensures p + 1 <= FirstNul(bytes)
  {
  }
}
