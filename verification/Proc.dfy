/**
 The memory side of the process table of proc.c: what each slot owns, the invariant of the
 whole table, and the frame of a step that one slot takes.
 */
module Proc {
  import opened Riscv
  import opened PageTable
  import opened Kalloc
  import opened Vm
  import opened Space
  import opened Uvm
  import opened FreeWalk
  import opened UserMemory
  import opened Copy

  /** A slot of the process table; page fields hold page numbers, 0 for null. */
  datatype Proc = Proc(used: bool, pid: nat, sz: nat, pagetable: nat, trapframe: nat, usyscall: nat)

  const UNUSED := Proc(false, 0, 0, 0, 0, 0)

  /** An int in memory, little endian; the counter of pids is an int of 32 bits. */
  function IntBytes(n: nat): (b: seq<byte>)
    ensures |b| == 4
  {
    var w := n % 0x1_0000_0000;
    [w % 256, w / 256 % 256, w / 256 / 256 % 256, w / 256 / 256 / 256]
  }

  /** The contents of a usyscall page: the pid, and zeros. */
  function PidPage(pid: nat): (b: seq<byte>)
    ensures |b| == 4096
  {
    Splice(Fill(0), 0, IntBytes(pid))
  }

  /** How a program reads an int: two's complement, little endian. */
  function ReadInt(b: seq<byte>): int
    requires |b| >= 4
  {
    var w := b[0] as int + 0x100 * b[1] as int + 0x1_0000 * b[2] as int + 0x100_0000 * b[3] as int;
    if w < 0x8000_0000 then w else w - 0x1_0000_0000
  }

  /** The C int that p->pid holds for the pid-th process: nextpid wraps around after 2^31 - 1. */
  function GetPid(pid: nat): int {
    var w := pid % 0x1_0000_0000;
    if w < 0x8000_0000 then w else w - 0x1_0000_0000
  }

  /** ugetpid reads back what getpid returns, also after pids have wrapped around. */
  lemma PidReadBack(pid: nat)
    ensures ReadInt(PidPage(pid)) == GetPid(pid)
  {
    var b := IntBytes(pid);
    assert PidPage(pid)[0] == b[0] && PidPage(pid)[1] == b[1] && PidPage(pid)[2] == b[2] && PidPage(pid)[3] == b[3];
    FourBytes(pid % 0x1_0000_0000);
  }

  lemma FourBytes(w: nat)
    ensures w == w % 256 + 0x100 * (w / 256 % 256) + 0x1_0000 * (w / 256 / 256 % 256)
                 + 0x100_0000 * (w / 256 / 256 / 256)
  {
    var q := w / 256;
    var r := q / 256;
    assert w == 256 * q + w % 256 && q == 256 * r + q % 256 && r == 256 * (r / 256) + r % 256;
  }

  // --------------------------------------------------------------- invariant

  /** Leaf e leads to page p with exactly these permissions; the hardware may have set A and D. */
  predicate MapsTo(e: Pte, p: nat, perm: Flags) {
    e == Pte(p, perm.(v := true, a := e.f.a, d := e.f.d))
  }

  /** The three top mappings of proc_pagetable. */
  ghost predicate TopMapped(mem: Mem, p: Proc, tramp: nat) {
    && MapsTo(Lookup(mem, p.pagetable, TRAMP_VPN), tramp, RX)
    && MapsTo(Lookup(mem, p.pagetable, TRAP_VPN), p.trapframe, RW)
    && MapsTo(Lookup(mem, p.pagetable, USYS_VPN), p.usyscall, RU)
  }

  /** The page table of slot i, when it has one. */
  ghost predicate TableOk(mem: Mem, own: Owners, p: Proc, i: nat, tramp: nat) {
    && p.used && p.trapframe != 0 && p.usyscall != 0
    && IsRoot(own, p.pagetable) && own[p.pagetable].parent == i
    && p.sz <= USYSCALL
    && (forall v: nat | Pages(p.sz) <= v < USYS_VPN :: Lookup(mem, p.pagetable, v) == ZERO)
    && TopMapped(mem, p, tramp)
  }

  /** Slot i, possibly in the middle of allocproc: what it has, it has alone and in good order. */
  ghost predicate SlotInv(mem: Mem, own: Owners, p: Proc, i: nat, tramp: nat) {
    && (!p.used ==> p == UNUSED)
    && (p.trapframe != 0 ==> p.trapframe in own && own[p.trapframe] == TrapPage(i)
                             && p.trapframe in mem && IsData(mem[p.trapframe]))
    && (p.usyscall != 0 ==> p.usyscall in own && own[p.usyscall] == SysPage(i)
                            && p.usyscall in mem && mem[p.usyscall] == Data(PidPage(p.pid)))
    && (p.pagetable == 0 ==> p.sz == 0)
    && (p.pagetable != 0 ==> TableOk(mem, own, p, i, tramp))
  }

  /** Every page that has an owner among the slots is held by that slot; none is in limbo. */
  ghost predicate Accounted(own: Owners, procs: seq<Proc>, p: nat)
    requires p in own
  {
    match own[p]
    case Free => true
    case Kern => true
    case Held => false
    case TrapPage(i) => i < |procs| && procs[i].trapframe == p
    case SysPage(i) => i < |procs| && procs[i].usyscall == p
    case Node(r, path, i) => path.P3? ==> i < |procs| && procs[i].pagetable == p
  }

  ghost predicate PidsOk(procs: seq<Proc>, nextpid: nat) {
    && nextpid > 0
    && (forall i | 0 <= i < |procs| :: procs[i].pid < nextpid && (procs[i].used <==> procs[i].pid > 0))
    && (forall i, j | 0 <= i < j < |procs| && procs[i].used :: procs[i].pid != procs[j].pid)
  }

  ghost predicate ProcsInv(mem: Mem, own: Owners, procs: seq<Proc>, nextpid: nat, tramp: nat) {
    && (forall i | 0 <= i < |procs| :: SlotInv(mem, own, procs[i], i, tramp))
    && (forall p | p in own :: Accounted(own, procs, p))
    && PidsOk(procs, nextpid)
  }

  // ----------------------------------------------------------------- framing

  /** Page p belongs to slot i, whose page table is pt. */
  predicate Belongs(own: Owners, p: nat, i: nat, pt: nat) {
    p in own && (own[p] == TrapPage(i) || own[p] == SysPage(i) || Mine(own, p, pt))
  }

  /** Only free pages and pages of slot i took part. */
  ghost predicate SlotFrame(mem: Mem, own: Owners, mem': Mem, own': Owners, i: nat, pt: nat) {
    && own'.Keys == own.Keys && mem.Keys == own.Keys && mem'.Keys == own.Keys
    && (forall p | p in own ::
          if own[p].Free? || Belongs(own, p, i, pt) then own'[p].Free? || Belongs(own', p, i, pt)
          else own'[p] == own[p] && mem'[p] == mem[p])
  }

  /** All pages of slot i are free; all others are as they were. */
  ghost predicate SlotReleased(mem: Mem, own: Owners, mem': Mem, own': Owners, i: nat, pt: nat) {
    && own'.Keys == own.Keys && mem.Keys == own.Keys && mem'.Keys == own.Keys
    && (forall p | p in own ::
          if Belongs(own, p, i, pt) then own'[p].Free?
          else own'[p] == own[p] && (own[p].Free? || mem'[p] == mem[p]))
  }

  /** What happens to slot i leaves every other slot in order. */
  lemma OtherSlot(mem: Mem, own: Owners, mem': Mem, own': Owners, q: Proc, j: nat, i: nat, pt: nat, tramp: nat)
    requires PtInv(mem, own) && 0 !in mem' && SlotInv(mem, own, q, j, tramp) && j != i
    requires SlotFrame(mem, own, mem', own', i, pt)
    requires IsRoot(own, pt) ==> own[pt].parent == i
    ensures SlotInv(mem', own', q, j, tramp)
  {
    hide Pages, PidPage, Lookup, PtInv;
    if q.pagetable != 0 {
      assert q.pagetable != pt;
      OtherLookups(mem, own, mem', own', i, pt, q.pagetable);
    }
  }

  lemma RootsSelf(mem: Mem, own: Owners)
    requires PtInv(mem, own)
    ensures forall p | p in own && own[p].Node? && own[p].path.P3? :: own[p].root == p && p != 0
  {
    forall p | p in own && own[p].Node? && own[p].path.P3? ensures own[p].root == p {
      assert NodeOk(mem, own, p);
    }
  }

  lemma OtherLookups(mem: Mem, own: Owners, mem': Mem, own': Owners, i: nat, pt: nat, r: nat)
    requires PtInv(mem, own) && 0 !in mem' && SlotFrame(mem, own, mem', own', i, pt)
    requires IsRoot(own, r) && r != pt
    ensures forall v: nat :: Lookup(mem', r, v) == Lookup(mem, r, v)
  {
    forall v: nat ensures Lookup(mem', r, v) == Lookup(mem, r, v) {
      TablesSame(mem, own, mem', r, I2(v), I1(v), I0(v));
    }
  }

  /** Slot i changes to p' within its frame: the invariant of the whole table follows from slot i's. */
  lemma SlotChange(mem: Mem, own: Owners, procs: seq<Proc>, mem': Mem, own': Owners, i: nat, p': Proc, pt: nat,
                   nextpid: nat, nextpid': nat, tramp: nat)
    requires PtInv(mem, own) && 0 !in mem' && ProcsInv(mem, own, procs, nextpid, tramp) && i < |procs|
    requires SlotFrame(mem, own, mem', own', i, pt)
    requires IsRoot(own, pt) ==> own[pt].parent == i
    requires procs[i].pagetable == 0 || procs[i].pagetable == pt
    requires SlotInv(mem', own', p', i, tramp)
    requires forall p | p in own' && (own'[p].Held? || Belongs(own', p, i, pt)) :: Accounted(own', procs[i := p'], p)
    requires PidsOk(procs[i := p'], nextpid')
    ensures ProcsInv(mem', own', procs[i := p'], nextpid', tramp)
  {
    RootsSelf(mem, own);
    hide PtInv, SlotInv;
    var procs' := procs[i := p'];
    forall j | 0 <= j < |procs'| ensures SlotInv(mem', own', procs'[j], j, tramp) {
      if j != i {
        OtherSlot(mem, own, mem', own', procs[j], j, i, pt, tramp);
      }
    }
    forall p | p in own' ensures Accounted(own', procs', p) {
      assert Accounted(own, procs, p);
    }
  }

  /** A process in order is one that copies and faults may work on. */
  lemma LiveUserOk(mem: Mem, own: Owners, p: Proc, i: nat, tramp: nat)
    requires SlotInv(mem, own, p, i, tramp) && p.pagetable != 0
    ensures UserOk(mem, own, p.pagetable, p.sz) && p.used
    ensures own[p.pagetable].parent == i
  {
    hide Lookup;
  }

  /**
   A step inside the tree of slot i that keeps its root and its top three mappings, and
   leaves no leaf at or above newsz.
   */
  lemma SizeChange(mem: Mem, own: Owners, procs: seq<Proc>, mem': Mem, own': Owners, i: nat, newsz: nat,
                   nextpid: nat, tramp: nat)
    requires PtInv(mem, own) && 0 !in mem' && ProcsInv(mem, own, procs, nextpid, tramp)
    requires i < |procs| && procs[i].pagetable != 0 && newsz <= USYSCALL
    requires Frame(mem, own, mem', own', procs[i].pagetable)
    requires own'[procs[i].pagetable] == own[procs[i].pagetable]
    requires forall p | p in own && Mine(own', p, procs[i].pagetable) :: own'[p].path.P3? ==> own'[p] == own[p]
    requires forall v: nat | USYS_VPN <= v < NVPN ::
               Lookup(mem', procs[i].pagetable, v) == Lookup(mem, procs[i].pagetable, v)
    requires forall v: nat | Pages(newsz) <= v < USYS_VPN :: Lookup(mem', procs[i].pagetable, v) == ZERO
    ensures ProcsInv(mem', own', procs[i := procs[i].(sz := newsz)], nextpid, tramp)
  {
    hide Lookup, PtInv, Pages, ProcsInv, SlotInv, PidsOk;
    var p, p' := procs[i], procs[i].(sz := newsz);
    FactsOf(mem, own, procs, nextpid, tramp, i);
    ResizedSlot(mem, own, mem', own', p, i, newsz, tramp);
    forall q | q in own' && (own'[q].Held? || Belongs(own', q, i, p.pagetable))
      ensures Accounted(own', procs[i := p'], q)
    {
      assert Accounted(own, procs, q);
    }
    SamePids(procs, i, newsz, nextpid);
    SlotChange(mem, own, procs, mem', own', i, p', p.pagetable, nextpid, nextpid, tramp);
  }

  lemma SamePids(procs: seq<Proc>, i: nat, newsz: nat, nextpid: nat)
    requires PidsOk(procs, nextpid) && i < |procs|
    ensures PidsOk(procs[i := procs[i].(sz := newsz)], nextpid)
  {
  }

  lemma FactsOf(mem: Mem, own: Owners, procs: seq<Proc>, nextpid: nat, tramp: nat, i: nat)
    requires ProcsInv(mem, own, procs, nextpid, tramp) && i < |procs|
    ensures SlotInv(mem, own, procs[i], i, tramp) && PidsOk(procs, nextpid)
    ensures forall p | p in own :: Accounted(own, procs, p)
    ensures procs[i].pagetable != 0 ==>
              && IsRoot(own, procs[i].pagetable) && own[procs[i].pagetable].parent == i
  {
    hide Lookup;
    assert SlotInv(mem, own, procs[i], i, tramp);
  }

  lemma ResizedSlot(mem: Mem, own: Owners, mem': Mem, own': Owners, p: Proc, i: nat, newsz: nat, tramp: nat)
    requires SlotInv(mem, own, p, i, tramp) && p.pagetable != 0 && newsz <= USYSCALL
    requires Frame(mem, own, mem', own', p.pagetable) && own'[p.pagetable] == own[p.pagetable]
    requires forall v: nat | USYS_VPN <= v < NVPN :: Lookup(mem', p.pagetable, v) == Lookup(mem, p.pagetable, v)
    requires forall v: nat | Pages(newsz) <= v < USYS_VPN :: Lookup(mem', p.pagetable, v) == ZERO
    ensures SlotInv(mem', own', p.(sz := newsz), i, tramp)
    ensures SlotFrame(mem, own, mem', own', i, p.pagetable)
  {
    hide Lookup, Pages;
  }
}
