/**
 The Sv39 address and PTE macros of riscv.h and the layout constants of memlayout.h.

 Addresses are natural numbers. A page of physical memory is named by its page
 number (physical address / 4096), and a PTE is the decoded form of the 64-bit
 word; the lemmas about raw words show that every expression vm.c and sysproc.c
 apply to a PTE word is the datatype operation used by the model.
 */
module Riscv {

  // The literal 4096 stands for PGSIZE wherever it multiplies or divides.
  const PGSIZE: nat := 4096
  const WORD: nat := 0x1_0000_0000_0000_0000  // 2^64, the range of uint64
  const MAXVA: nat := 0x40_0000_0000          // 1L << 38
  const TRAMPOLINE: nat := MAXVA - PGSIZE
  const TRAPFRAME: nat := TRAMPOLINE - PGSIZE
  const USYSCALL: nat := TRAPFRAME - PGSIZE
  const KERNBASE: nat := 0x8000_0000
  const PHYSTOP: nat := KERNBASE + 128 * 1024 * 1024

  // The same boundaries as virtual page numbers.
  const NVPN: nat := 0x400_0000       // MAXVA / PGSIZE
  const USYS_VPN: nat := NVPN - 3
  const TRAP_VPN: nat := NVPN - 2
  const TRAMP_VPN: nat := NVPN - 1

  // The first physical page beyond RAM, and the first page of RAM.
  const TOP_PAGE: nat := 0x8_8000     // PHYSTOP / PGSIZE
  const LOW_PAGE: nat := 0x8_0000     // KERNBASE / PGSIZE

  /** PGROUNDUP on uint64, including its wrap-around. */
  function PgRoundUp(sz: nat): (r: nat)
    ensures r % 4096 == 0
    ensures sz <= WORD - PGSIZE ==> sz <= r < sz + 4096 && r == Pages(sz) * 4096
  {
    (sz + 4095) % WORD / 4096 * 4096
  }

  /** PGROUNDDOWN: the start of the page that holds a. */
  function PgRoundDown(a: nat): (r: nat)
    ensures r % 4096 == 0 && r <= a < r + 4096
  {
    a / 4096 * 4096
  }

  /** The number of pages that a process of size sz covers. */
  function Pages(sz: nat): nat {
    (sz + 4095) / 4096
  }

  /** PX(level, va): the 9-bit index of va at a page-table level. */
  function Px(level: nat, va: nat): nat
    requires level <= 2
  {
    if level == 2 then va / 0x4000_0000 % 512
    else if level == 1 then va / 0x20_0000 % 512
    else va / 0x1000 % 512
  }

  // The three indices, written on virtual page numbers.
  function I2(v: nat): nat { v / 0x4_0000 }
  function I1(v: nat): nat { v / 0x200 % 512 }
  function I0(v: nat): nat { v % 512 }

  lemma IndexRange(v: nat)
    requires v < NVPN
    ensures I2(v) < 256 && I1(v) < 512 && I0(v) < 512
  {
  }

  lemma PxOfPage(va: nat)
    requires va < MAXVA
    ensures Px(2, va) == I2(va / 4096)
    ensures Px(1, va) == I1(va / 4096)
    ensures Px(0, va) == I0(va / 4096)
  {
    assert va / 0x4000_0000 == va / 4096 / 0x4_0000;
    assert va / 0x20_0000 == va / 4096 / 0x200;
  }

  /** The index split loses nothing: the three indices and the offset rebuild va. */
  lemma PxRebuilds(va: nat)
    requires va < MAXVA
    ensures Px(2, va) < 256
    ensures va == Px(2, va) * 0x4000_0000 + Px(1, va) * 0x20_0000 + Px(0, va) * 0x1000 + va % 4096
  {
    var q1 := va / 0x1000;
    var q2 := q1 / 512;
    assert va / 0x20_0000 == q2;
    assert va / 0x4000_0000 == q2 / 512;
  }

  lemma SplitInjective(v: nat, w: nat)
    requires I2(v) == I2(w) && I1(v) == I1(w) && I0(v) == I0(w)
    ensures v == w
  {
    assert v / 0x4_0000 == v / 0x200 / 512;
    assert w / 0x4_0000 == w / 0x200 / 512;
  }

  /** The page number with the given indices. */
  function Vpn(a: nat, b: nat, c: nat): nat {
    a * 0x4_0000 + b * 512 + c
  }

  lemma SplitVpn(a: nat, b: nat, c: nat)
    requires b < 512 && c < 512
    ensures I2(Vpn(a, b, c)) == a && I1(Vpn(a, b, c)) == b && I0(Vpn(a, b, c)) == c
  {
    var v := Vpn(a, b, c);
    assert v == (a * 512 + b) * 512 + c;
    assert v / 512 == a * 512 + b;
    assert v / 0x4_0000 == v / 512 / 512;
  }

  /** PTE permission and status bits 0..9. */
  datatype Flags = Flags(v: bool, r: bool, w: bool, x: bool, u: bool,
                         g: bool, a: bool, d: bool, s0: bool, s1: bool)

  const NONE := Flags(false, false, false, false, false, false, false, false, false, false)
  const V := NONE.(v := true)
  const RX := NONE.(r := true, x := true)
  const RW := NONE.(r := true, w := true)
  const RU := NONE.(r := true, u := true)
  const RWU := NONE.(r := true, w := true, u := true)

  datatype Pte = Pte(ppn: nat, f: Flags)

  const ZERO := Pte(0, NONE)

  // The raw form: a PTE word is decoded to the page PTE2PA(word) / 4096 and these bits.

  function DecodeFlags(raw: bv64): Flags {
    Flags(raw & 1 != 0, raw & 2 != 0, raw & 4 != 0, raw & 8 != 0, raw & 16 != 0,
          raw & 32 != 0, raw & 64 != 0, raw & 128 != 0, raw & 256 != 0, raw & 512 != 0)
  }

  function PA2PTE(pa: bv64): bv64 { (pa >> 12) << 10 }
  function PTE2PA(pte: bv64): bv64 { (pte >> 10) << 12 }
  function PTE_FLAGS(pte: bv64): bv64 { pte & 0x3FF }

  /** `PA2PTE(pa) | perm | PTE_V` is the PTE of pa's page with perm's bits and V set. */
  lemma MakePte(pa: bv64, perm: bv64)
    requires pa & 0xFFF == 0 && pa >> 56 == 0 && perm & 0x3FF == perm
    ensures PTE2PA(PA2PTE(pa) | perm | 1) == pa
    ensures PTE_FLAGS(PA2PTE(pa) | perm | 1) == perm | 1
    ensures DecodeFlags(PA2PTE(pa) | perm | 1) == DecodeFlags(perm).(v := true)
  {
  }

  /** `pte &= ~PTE_A`, `pte &= ~PTE_U` and PTE_FLAGS keep the page and change only their bits. */
  lemma ClearBits(raw: bv64)
    ensures PTE2PA(raw & !64) == PTE2PA(raw) == PTE2PA(raw & !16)
    ensures DecodeFlags(raw & !64) == DecodeFlags(raw).(a := false)
    ensures DecodeFlags(raw & !16) == DecodeFlags(raw).(u := false)
    ensures DecodeFlags(PTE_FLAGS(raw)) == DecodeFlags(raw)
  {
  }

  /** PX on words: three 9-bit fields above the offset, which rebuild the address; the top one is below 256. */
  function PX(level: nat, va: bv64): bv64
    requires level <= 2
  {
    (if level == 2 then va >> 30 else if level == 1 then va >> 21 else va >> 12) & 0x1FF
  }

  lemma PxWord(va: bv64)
    requires va < 0x40_0000_0000
    ensures va == (PX(2, va) << 30) | (PX(1, va) << 21) | (PX(0, va) << 12) | (va & 0xFFF)
    ensures PX(2, va) < 256
  {
  }

  /** PGROUNDDOWN and PGROUNDUP on words are the multiples of a page at or below, and at or above, a. */
  lemma RoundWord(a: bv64)
    ensures var r := a & !0xFFF; r & 0xFFF == 0 && r <= a && a - r < 4096
    ensures a <= 0xFFFF_FFFF_FFFF_F000 ==>
              var r := (a + 4095) & !0xFFF; r & 0xFFF == 0 && a <= r && r - a < 4096
  {
  }
}
