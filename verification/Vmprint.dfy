/**
 vmprint of vm.c: the lines it prints, and their agreement with walk.
 */
module Vmprint {
  import opened Riscv
  import opened PageTable
  import opened Kalloc

  /** One printed line: its depth, the first address its PTE covers, and the PTE. */
  datatype Line = Line(level: nat, va: nat, pte: Pte)

  /** The bytes that one PTE covers at a level: 1 << (PGSHIFT + 9 * level). */
  function Size(level: nat): nat
    requires level <= 2
  {
    if level == 2 then 0x4000_0000 else if level == 1 then 0x20_0000 else 0x1000
  }

  /** The first address that slot i covers, in a table whose addresses begin at va. */
  function SlotVa(level: nat, va: nat, i: nat): nat
    requires level <= 2
  {
    va + i * Size(level)
  }

  lemma SlotVas(level: nat, va: nat, i: nat)
    requires level <= 2 && i <= 512
    ensures SlotVa(level, va, 0) == va
    ensures SlotVa(level, va, i + 1) == SlotVa(level, va, i) + Size(level)
    ensures va <= SlotVa(level, va, i) <= SlotVa(level, va, 512) && Size(level) > 0
    ensures SlotVa(level, va, i) == va + SlotVa(level, 0, i)
  {
  }

  lemma SlotAligned(level: nat, va: nat, i: nat)
    requires level <= 2 && va % 4096 == 0
    ensures SlotVa(level, va, i) % 4096 == 0
  {
    var k := if level == 2 then i * 0x4_0000 else if level == 1 then i * 0x200 else i;
    Aligned(SlotVa(level, va, i), va / 4096 + k);
  }

  lemma Aligned(n: nat, q: nat)
    requires n == 4096 * q
    ensures n % 4096 == 0
  {
  }

  /** The addresses of a table are those of the slot above it. */
  lemma WholeTable(level: nat, va: nat)
    requires 0 < level <= 2
    ensures SlotVa(level - 1, va, 0) == va && SlotVa(level - 1, va, 512) == va + Size(level)
  {
  }

  /** An offset in the range of slot i: its index, and what is left of it. */
  lemma SlotOf(level: nat, i: nat, off: nat)
    requires level <= 2 && SlotVa(level, 0, i) <= off < SlotVa(level, 0, i) + Size(level)
    ensures off / Size(level) == i && off % Size(level) == off - SlotVa(level, 0, i)
  {
  }

  predicate IsPointer(e: Pte) { !e.f.r && !e.f.w && !e.f.x }

  /** What vmprint_nivel prints for the slots of a table from i on. */
  function Lines(mem: Mem, table: nat, level: nat, va: nat, i: nat): seq<Line>
    requires level <= 2 && i <= 512
    decreases level, 512 - i, 1, table
  {
    if i == 512 then []
    else
      SlotLines(mem, table, level, va, i) + Lines(mem, table, level, va, i + 1)
  }

  /** What it prints for slot i: its own line, and those of the table it points at. */
  function SlotLines(mem: Mem, table: nat, level: nat, va: nat, i: nat): seq<Line>
    requires level <= 2 && i < 512
    decreases level, 512 - i, 0, table
  {
    var pte := Slot(mem, table, i);
    var vaini := SlotVa(level, va, i);
    if !pte.f.v then []
    else [Line(level, vaini, pte)]
         + if level > 0 && IsPointer(pte) then Lines(mem, pte.ppn, level - 1, vaini, 0) else []
  }

  /** vmprint_nivel: prints into out. */
  method VmPrintLevel(m: Machine, table: nat, level: nat, va: nat, out: seq<Line>) returns (out': seq<Line>)
    requires level <= 2
    ensures out' == out + Lines(m.mem, table, level, va, 0)
    decreases level
  {
    hide Lines, SlotLines;
    out' := out;
    for i := 0 to 512
      invariant out' + Lines(m.mem, table, level, va, i) == out + Lines(m.mem, table, level, va, 0)
    {
      ghost var before, rest := out', Lines(m.mem, table, level, va, i + 1);
      LinesFrom(m.mem, table, level, va, i);
      var pte := Slot(m.mem, table, i);
      if pte.f.v {
        var vaini := SlotVa(level, va, i);
        out' := out' + [Line(level, vaini, pte)];
        if level > 0 && IsPointer(pte) {
          out' := VmPrintLevel(m, pte.ppn, level - 1, vaini, out');
        }
      }
      assert out' == before + SlotLines(m.mem, table, level, va, i);
      assert before + (SlotLines(m.mem, table, level, va, i) + rest) == out' + rest;
    }
    NoLinesLeft(m.mem, table, level, va);
    assert out' + [] == out';
  }

  lemma LinesFrom(mem: Mem, table: nat, level: nat, va: nat, i: nat)
    requires level <= 2 && i < 512
    ensures Lines(mem, table, level, va, i) == SlotLines(mem, table, level, va, i) + Lines(mem, table, level, va, i + 1)
    ensures var pte := Slot(mem, table, i);
            var vaini := SlotVa(level, va, i);
            SlotLines(mem, table, level, va, i) ==
            if !pte.f.v then []
            else [Line(level, vaini, pte)]
                 + if level > 0 && IsPointer(pte) then Lines(mem, pte.ppn, level - 1, vaini, 0) else []
  {
  }

  lemma NoLinesLeft(mem: Mem, table: nat, level: nat, va: nat)
    requires level <= 2
    ensures Lines(mem, table, level, va, 512) == []
  {
  }

  /** vmprint: the whole table, from the root. */
  method VmPrint(m: Machine, root: nat) returns (out: seq<Line>)
    requires m.Valid() && IsRoot(m.own, root)
    ensures out == Lines(m.mem, root, 2, 0, 0)
    ensures forall a: nat, e :: Line(0, a, e) in out <==>
                             a % 4096 == 0 && e.f.v && Lookup(m.mem, root, a / 4096) == e
    ensures Increasing(out)
  {
    out := VmPrintLevel(m, root, 2, 0, []);
    assert out == Lines(m.mem, root, 2, 0, 0);
    PrintedIsMapped(m.mem, m.own, root);
  }

  // ----------------------------------------------------- agreement with walk

  /** The PTE that a walk from a table reaches for the page at offset off of its range. */
  function Below(mem: Mem, table: nat, level: nat, off: nat): Pte
    requires level <= 2
    decreases level, table
  {
    if level == 0 then Slot(mem, table, off / 0x1000)
    else Below(mem, Child(mem, table, off / Size(level)), level - 1, off % Size(level))
  }

  lemma BelowIsLookup(mem: Mem, root: nat, v: nat)
    ensures Below(mem, root, 2, v * 4096) == Lookup(mem, root, v)
  {
    Digits(v);
    var a := v * 4096;
    hide I2, I1, I0;
    assert Below(mem, root, 2, a) == Below(mem, Child(mem, root, I2(v)), 1, a % 0x4000_0000);
  }

  /** The indices of a page, read off its address level by level. */
  lemma Digits(v: nat)
    ensures var a := v * 4096;
            && a / 0x4000_0000 == I2(v)
            && a % 0x4000_0000 / 0x20_0000 == I1(v)
            && a % 0x4000_0000 % 0x20_0000 / 0x1000 == I0(v)
  {
    TopDigit(v);
    LowDigits(v % 0x4_0000);
    Remainders(v);
  }

  lemma TopDigit(v: nat)
    ensures v * 4096 / 0x4000_0000 == v / 0x4_0000 && v * 4096 % 0x4000_0000 == 4096 * (v % 0x4_0000)
  {
    var (q, r) := (v / 0x4_0000, v % 0x4_0000);
    assert v * 4096 == 0x4000_0000 * q + 4096 * r;
  }

  lemma LowDigits(r: nat)
    ensures 4096 * r / 0x20_0000 == r / 0x200 && 4096 * r % 0x20_0000 / 0x1000 == r % 0x200
  {
    var (q, t) := (r / 0x200, r % 0x200);
    assert 4096 * r == 0x20_0000 * q + 4096 * t;
  }

  lemma Quotient(v: nat, q: nat, r: nat)
    requires v == 0x200 * q + r && r < 0x200
    ensures v / 0x200 == q && v % 0x200 == r
  {
  }

  lemma Remainders(v: nat)
    ensures v % 0x4_0000 / 0x200 == I1(v) && v % 0x4_0000 % 0x200 == I0(v)
  {
    var (q, r) := (v / 0x4_0000, v % 0x4_0000);
    Quotient(v, 0x200 * q + r / 0x200, r % 0x200);
    Quotient(0x200 * q + r / 0x200, q, r / 0x200);
  }

  /** Lines of level 0 come in strictly increasing address order. */
  ghost predicate Increasing(s: seq<Line>) {
    forall i, j | 0 <= i < j < |s| && s[i].level == 0 && s[j].level == 0 :: s[i].va < s[j].va
  }

  /** All lines of level 0 are for addresses of [lo, hi). */
  ghost predicate Within(s: seq<Line>, lo: nat, hi: nat) {
    forall i | 0 <= i < |s| && s[i].level == 0 :: lo <= s[i].va < hi
  }

  lemma JoinLines(s: seq<Line>, t: seq<Line>, lo: nat, mid: nat, hi: nat)
    requires Increasing(s) && Increasing(t) && Within(s, lo, mid) && Within(t, mid, hi) && lo <= mid <= hi
    ensures Increasing(s + t) && Within(s + t, lo, hi)
  {
  }

  lemma {:induction false} LinesOrdered(mem: Mem, table: nat, level: nat, va: nat, i: nat)
    requires level <= 2 && i <= 512
    ensures var s := Lines(mem, table, level, va, i);
            Increasing(s) && Within(s, SlotVa(level, va, i), SlotVa(level, va, 512))
    decreases level, 512 - i, 1
  {
    hide Lines, SlotLines, Increasing, Within, SlotVa, Size;
    SlotVas(level, va, i);
    if i == 512 {
      NoLinesLeft(mem, table, level, va);
      FewLines(level, SlotVa(level, va, i), ZERO, SlotVa(level, va, 512));
    } else {
      SlotOrdered(mem, table, level, va, i);
      LinesOrdered(mem, table, level, va, i + 1);
      SlotVas(level, va, i + 1);
      LinesFrom(mem, table, level, va, i);
      JoinLines(SlotLines(mem, table, level, va, i), Lines(mem, table, level, va, i + 1),
                SlotVa(level, va, i), SlotVa(level, va, i + 1), SlotVa(level, va, 512));
    }
  }

  /** The lines of one slot lie in its range. */
  lemma {:induction false} SlotOrdered(mem: Mem, table: nat, level: nat, va: nat, i: nat)
    requires level <= 2 && i < 512
    ensures var s := SlotLines(mem, table, level, va, i);
            Increasing(s) && Within(s, SlotVa(level, va, i), SlotVa(level, va, i + 1))
    decreases level, 512 - i, 0
  {
    hide Lines, SlotLines, Increasing, Within, SlotVa, Size;
    SlotVas(level, va, i);
    LinesFrom(mem, table, level, va, i);
    var lo := SlotVa(level, va, i);
    var pte := Slot(mem, table, i);
    FewLines(level, lo, pte, lo + Size(level));
    if pte.f.v && level > 0 && IsPointer(pte) {
      LinesOrdered(mem, pte.ppn, level - 1, lo, 0);
      WholeTable(level, lo);
      JoinLines([Line(level, lo, pte)], Lines(mem, pte.ppn, level - 1, lo, 0), lo, lo, lo + Size(level));
    } else {
      assert [Line(level, lo, pte)] + [] == [Line(level, lo, pte)];
    }
  }

  /** No line, and one line. */
  lemma FewLines(level: nat, lo: nat, pte: Pte, hi: nat)
    requires level <= 2
    ensures Increasing([]) && Within([], lo, hi) && Within([], lo, lo + Size(level))
    ensures Increasing([Line(level, lo, pte)]) && Within([Line(level, lo, pte)], lo, lo + Size(level))
    ensures level > 0 ==> Within([Line(level, lo, pte)], lo, lo)
  {
  }

  /** t is a table of the tree, at the given level. */
  predicate TableAt(own: Owners, t: nat, level: nat) {
    t in own && own[t].Node?
    && (if level == 2 then own[t].path.P3? else if level == 1 then own[t].path.P2? else own[t].path.P1?)
  }

  /** A line of level 0 for the page at offset off is printed exactly when walk finds that valid PTE. */
  lemma {:induction false} LinesMembers(mem: Mem, own: Owners, t: nat, level: nat, va: nat, i: nat, off: nat, e: Pte)
    requires PtInv(mem, own) && level <= 2 && TableAt(own, t, level) && i <= 512
    requires SlotVa(level, 0, i) <= off < SlotVa(level, 0, 512) && off % 4096 == 0
    ensures Line(0, va + off, e) in Lines(mem, t, level, va, i) <==>
            e.f.v && Below(mem, t, level, off) == e
    decreases level, 512 - i, 1
  {
    hide PtInv, TableAt, Increasing, Below, SlotLines, Lines, SlotVa, Size, Within;
    SlotVas(level, 0, i);
    SlotVas(level, va, i);
    var here, rest := SlotLines(mem, t, level, va, i), Lines(mem, t, level, va, i + 1);
    var line := Line(0, va + off, e);
    LinesFrom(mem, t, level, va, i);
    assert line in here + rest <==> line in here || line in rest;
    if off < SlotVa(level, 0, i + 1) {
      SlotHas(mem, own, t, level, va, i, off, e);
      LinesOrdered(mem, t, level, va, i + 1);
      NotWithin(rest, SlotVa(level, va, i + 1), SlotVa(level, va, 512), line);
    } else {
      SlotVas(level, 0, i + 1);
      LinesMembers(mem, own, t, level, va, i + 1, off, e);
      SlotOrdered(mem, t, level, va, i);
      NotWithin(here, SlotVa(level, va, i), SlotVa(level, va, i + 1), line);
    }
  }

  lemma NotWithin(s: seq<Line>, lo: nat, hi: nat, line: Line)
    requires Within(s, lo, hi) && line.level == 0 && !(lo <= line.va < hi)
    ensures line !in s
  {
  }

  lemma {:induction false} SlotHas(mem: Mem, own: Owners, t: nat, level: nat, va: nat, i: nat, off: nat, e: Pte)
    requires PtInv(mem, own) && level <= 2 && TableAt(own, t, level) && i < 512
    requires SlotVa(level, 0, i) <= off < SlotVa(level, 0, i + 1) && off % 4096 == 0
    ensures Line(0, va + off, e) in SlotLines(mem, t, level, va, i) <==>
            e.f.v && Below(mem, t, level, off) == e
    decreases level, 512 - i, 0
  {
    hide PtInv, TableAt, Lines, SlotLines, Below, SlotVa, Size;
    SlotVas(level, 0, i);
    SlotVas(level, va, i);
    SlotOf(level, i, off);
    LinesFrom(mem, t, level, va, i);
    BelowFirst(mem, t, level, off);
    var pte := Slot(mem, t, i);
    if level == 0 {
      PageOff(i, off);
    } else if pte.f.v {
      PointsDown(mem, own, t, level, i);
      var lo := SlotVa(level, va, i);
      var rest := off - SlotVa(level, 0, i);
      WholeTable(level, 0);
      OffAligned(level, i, off);
      LinesMembers(mem, own, pte.ppn, level - 1, lo, 0, rest, e);
    } else {
      BelowNothing(mem, own, level - 1, off % Size(level));
    }
  }

  lemma OffAligned(level: nat, i: nat, off: nat)
    requires level <= 2 && i <= 512 && SlotVa(level, 0, i) <= off && off % 4096 == 0
    ensures (off - SlotVa(level, 0, i)) % 4096 == 0
  {
    SlotAligned(level, 0, i);
    hide SlotVa, Size;
    Difference(off, SlotVa(level, 0, i));
  }

  lemma Difference(a: nat, b: nat)
    requires b <= a && a % 4096 == 0 && b % 4096 == 0
    ensures (a - b) % 4096 == 0
  {
    assert a - b == 4096 * (a / 4096 - b / 4096);
  }

  /** The first page of slot i of a leaf table is the only one. */
  lemma PageOff(i: nat, off: nat)
    requires SlotVa(0, 0, i) <= off < SlotVa(0, 0, i) + Size(0) && off % 4096 == 0
    ensures off == SlotVa(0, 0, i) && off / 0x1000 == i
  {
  }

  /** The first step of a walk. */
  lemma BelowFirst(mem: Mem, t: nat, level: nat, off: nat)
    requires level <= 2
    ensures Below(mem, t, level, off) ==
            if level == 0 then Slot(mem, t, off / 0x1000)
            else Below(mem, Child(mem, t, off / Size(level)), level - 1, off % Size(level))
  {
  }

  lemma PointsDown(mem: Mem, own: Owners, t: nat, level: nat, i: nat)
    requires PtInv(mem, own) && 0 < level <= 2 && TableAt(own, t, level) && i < 512 && Slot(mem, t, i).f.v
    ensures IsPointer(Slot(mem, t, i)) && TableAt(own, Slot(mem, t, i).ppn, level - 1)
  {
    assert NodeOk(mem, own, t);
    assert SlotOk(mem, own, t, i);
  }

  lemma BelowNothing(mem: Mem, own: Owners, level: nat, off: nat)
    requires PtInv(mem, own) && level <= 1
    ensures Below(mem, 0, level, off) == ZERO
  {
    assert 0 !in mem;
  }

  /** vmprint shows (va, pte) at the deepest level exactly when walk reaches that valid PTE, in address order. */
  lemma PrintedIsMapped(mem: Mem, own: Owners, root: nat)
    requires PtInv(mem, own) && IsRoot(own, root)
    ensures var out := Lines(mem, root, 2, 0, 0);
            && Increasing(out)
            && forall a: nat, e :: Line(0, a, e) in out <==>
                                a % 4096 == 0 && e.f.v && Lookup(mem, root, a / 4096) == e
  {
    var out := Lines(mem, root, 2, 0, 0);
    LinesOrdered(mem, root, 2, 0, 0);
    forall a: nat, e
      ensures Line(0, a, e) in out <==> a % 4096 == 0 && e.f.v && Lookup(mem, root, a / 4096) == e
    {
      LinesAligned(mem, root, 2, 0, 0);
      if a % 4096 == 0 {
        BelowIsLookup(mem, root, a / 4096);
        if a < 0x80_0000_0000 {
          LinesMembers(mem, own, root, 2, 0, 0, a, e);
          assert 0 + a == a;
        } else {
          assert I2(a / 4096) >= 512;
        }
      }
    }
  }

  lemma {:induction false} LinesAligned(mem: Mem, table: nat, level: nat, va: nat, i: nat)
    requires level <= 2 && i <= 512 && va % 4096 == 0
    ensures forall l | l in Lines(mem, table, level, va, i) :: l.va % 4096 == 0
    decreases level, 512 - i
  {
    hide Lines, SlotLines, SlotVa, Size;
    if i < 512 {
      var pte := Slot(mem, table, i);
      SlotAligned(level, va, i);
      LinesFrom(mem, table, level, va, i);
      if pte.f.v && level > 0 && IsPointer(pte) {
        LinesAligned(mem, pte.ppn, level - 1, SlotVa(level, va, i), 0);
      }
      LinesAligned(mem, table, level, va, i + 1);
    } else {
      NoLinesLeft(mem, table, level, va);
    }
  }
}
