/**
 The physical page allocator: an intrusive linked list of free pages, threaded
 through the pages themselves.
 */
module Kalloc {
  import opened Riscv
  import opened PageTable

  /** p is a page that the allocator manages: [end, PHYSTOP). */
  predicate InRam(end: nat, p: nat) {
    Pages(end) <= p < TOP_PAGE
  }

  /** The list that starts at head is exactly free, without repetition, and free is what own calls Free. */
  ghost predicate FreeOk(end: nat, mem: Mem, head: nat, free: seq<nat>, own: Owners) {
    && KERNBASE < end <= PHYSTOP
    && mem.Keys == own.Keys
    && (forall p :: p in own <==> InRam(end, p))
    && (forall i, j | 0 <= i < j < |free| :: free[i] != free[j])
    && (forall p :: (p in own && own[p].Free?) <==> p in free)
    && head == (if free == [] then 0 else free[0])
    && (forall i | 0 <= i < |free| :: LinkOk(mem, free, i))
  }

  /** The page at position i of the list links to the one at position i + 1. */
  ghost predicate LinkOk(mem: Mem, free: seq<nat>, i: nat)
    requires i < |free|
  {
    && free[i] in mem
    && mem[free[i]] == Run(if i + 1 < |free| then free[i + 1] else 0)
  }

  /** Page p lies in [lo, hi) as a whole. */
  predicate WholeIn(p: nat, lo: nat, hi: nat) {
    Pages(lo) <= p < hi / 4096
  }

  class Machine {
    const end: nat            // first address after the kernel image, set by the linker
    var mem: Mem
    var freelist: nat         // page number of the first free page, 0 for none
    ghost var free: seq<nat>  // the pages on the list, in order
    ghost var own: Owners

    ghost predicate FreeListOk()
      reads this
    {
      FreeOk(end, mem, freelist, free, own)
    }

    ghost predicate Valid()
      reads this
    {
      FreeListOk() && PtInv(mem, own)
    }

    /** Memory as the boot loader leaves it, followed by kinit. */
    constructor (end: nat)
      requires KERNBASE < end <= PHYSTOP
      ensures Valid() && this.end == end
      ensures forall p :: p in own ==> own[p].Free?
      ensures forall p :: p in free <==> InRam(end, p)
      ensures |free| == TOP_PAGE - Pages(end)
    {
      this.end := end;
      freelist := 0;
      free := [];
      var m := map p: nat | p < TOP_PAGE && InRam(end, p) :: Data(Fill(0));
      mem := m;
      own := map p: nat | p < TOP_PAGE && InRam(end, p) :: Kern;
      new;
      FreeRange(end, PHYSTOP);
      RamOwned(end, mem, freelist, free, own);
      PtInvWithoutNodes();
      AllOf(free, Pages(end), TOP_PAGE);
    }

    lemma PtInvWithoutNodes()
      requires FreeListOk() && forall p :: p in own ==> !own[p].Node?
      ensures PtInv(mem, own)
    {
    }

    /** Gives every whole page of [paStart, paEnd) to the allocator. */
    method FreeRange(paStart: nat, paEnd: nat)
      requires FreeListOk() && end <= paStart <= WORD - PGSIZE && paEnd <= PHYSTOP
      requires forall p | p in own && WholeIn(p, paStart, paEnd) :: !own[p].Free?
      modifies this
      ensures FreeListOk() && own.Keys == old(own).Keys
      ensures forall p | p in own :: own[p] == if WholeIn(p, paStart, paEnd) then Free else old(own)[p]
    {
      hide FreeOk;
      RamOwned(end, mem, freelist, free, own);
      var p := PgRoundUp(paStart);
      ghost var next := p / 4096;
      while p + 4096 <= paEnd
        invariant p == next * 4096 && paStart <= p && (next == Pages(paStart) || next <= paEnd / 4096)
        invariant FreeListOk() && own.Keys == old(own).Keys && Pages(paStart) <= next
        invariant forall q | q in own :: own[q] == if Pages(paStart) <= q < next then Free else old(own)[q]
      {
        assert WholeIn(next, paStart, paEnd);
        Kfree(p / 4096);
        p, next := p + 4096, next + 1;
      }
    }

    /** kfree: pushes page pn on the free list. Its checks are the panic("kfree") ones. */
    method Kfree(pn: nat)
      requires FreeListOk()
      requires end <= pn * 4096 < PHYSTOP     // otherwise panic("kfree")
      requires !own[pn].Free?                 // a second kfree would make the list cyclic
      modifies this
      ensures FreeListOk()
      ensures free == [pn] + old(free)
      ensures own == old(own)[pn := Free]
      ensures mem == old(mem)[pn := Run(old(freelist))]
    {
      mem := mem[pn := Run(freelist)];
      freelist := pn;
      free := [pn] + free;
      own := own[pn := Free];
      assert forall i | 0 < i < |free| :: old(LinkOk(mem, free, i - 1)) ==> LinkOk(mem, free, i);
    }

    /** kalloc: pops the first free page, filled with junk; 0 when there is none. */
    method Kalloc() returns (pn: nat)
      requires FreeListOk()
      modifies this
      ensures FreeListOk()
      ensures pn == 0 <==> old(free) == []
      ensures pn == 0 ==> mem == old(mem) && own == old(own) && free == old(free)
      ensures pn != 0 ==>
                && pn == old(free)[0] && free == old(free)[1..]
                && own == old(own)[pn := Held]
                && mem == old(mem)[pn := Data(Fill(5))]
    {
      OnList(end, mem, freelist, free, own);
      pn := freelist;
      if pn != 0 {
        assert LinkOk(mem, free, 0);
        freelist := mem[pn].next;
        mem := mem[pn := Data(Fill(5))];
        ghost var was := free;
        free := free[1..];
        own := own[pn := Held];
        assert forall i | 0 <= i < |free| :: old(LinkOk(mem, free, i + 1)) ==> LinkOk(mem, free, i);
        assert forall q :: q in was <==> q == was[0] || q in free;
      }
    }

    /** get_free_memory: walks the list and adds PGSIZE for each node. */
    method GetFreeMemory() returns (freemem: nat)
      requires FreeListOk()
      ensures freemem == 4096 * |free|
    {
      OnList(end, mem, freelist, free, own);
      var r := freelist;
      freemem := 0;
      ghost var i := 0;
      while r != 0
        invariant i <= |free|
        invariant r == if i < |free| then free[i] else 0
        invariant freemem == 4096 * i
        decreases |free| - i
      {
        assert LinkOk(mem, free, i);
        freemem := freemem + 4096;
        r := mem[r].next;
        i := i + 1;
      }
    }

    /** The page counts that sys_sysinfo reports. */
    method SysInfoPages() returns (freemem: nat, nUpages: nat, nApages: nat)
      requires FreeListOk()
      ensures freemem == 4096 * |free|
      ensures nApages == |free|
      ensures nUpages + nApages == (PHYSTOP - KERNBASE) / 4096
      ensures nUpages > 0  // the clamp to zero is never taken
    {
      freemem := GetFreeMemory();
      var total := (PHYSTOP - KERNBASE) / 4096;
      var freePages := freemem / 4096;
      if total > freePages {
        nUpages := total - freePages;
      } else {
        nUpages := 0;
      }
      nApages := freePages;
      FewFree(end, mem, freelist, free, own);
    }
  }

  /** The allocator manages exactly the whole pages of [end, PHYSTOP). */
  lemma RamOwned(end: nat, mem: Mem, head: nat, free: seq<nat>, own: Owners)
    requires FreeOk(end, mem, head, free, own)
    ensures KERNBASE < end <= PHYSTOP && mem.Keys == own.Keys
    ensures forall p: nat :: p in own <==> end <= p * 4096 < PHYSTOP
  {
    forall p: nat ensures p in own <==> end <= p * 4096 < PHYSTOP {
      assert p in own <==> InRam(end, p);
    }
  }

  /** A listed page is a free page of RAM; in particular it is not page 0, the null pointer. */
  lemma OnList(end: nat, mem: Mem, head: nat, free: seq<nat>, own: Owners)
    requires FreeOk(end, mem, head, free, own)
    ensures forall i :: 0 <= i < |free| ==> free[i] != 0 && free[i] in own && own[free[i]].Free?
  {
    forall i | 0 <= i < |free| ensures free[i] != 0 && free[i] in own && own[free[i]].Free? {
      assert free[i] in free;
      assert InRam(end, free[i]);
    }
  }

  /** The list survives any change that leaves the free pages alone. */
  lemma FreeKept(end: nat, mem: Mem, head: nat, free: seq<nat>, own: Owners, mem': Mem, own': Owners)
    requires FreeOk(end, mem, head, free, own)
    requires mem'.Keys == own'.Keys == own.Keys
    requires forall p | p in own :: own'[p].Free? == own[p].Free?
    requires forall p | p in own && own[p].Free? :: mem'[p] == mem[p]
    ensures FreeOk(end, mem', head, free, own')
  {
    OnList(end, mem, head, free, own);
    forall i | 0 <= i < |free| ensures LinkOk(mem', free, i) {
      assert LinkOk(mem, free, i);
    }
    forall p ensures (p in own' && own'[p].Free?) <==> p in free {
      assert (p in own && own[p].Free?) <==> p in free;
    }
  }

  /** There are always fewer free pages than pages of RAM. */
  lemma FewFree(end: nat, mem: Mem, head: nat, free: seq<nat>, own: Owners)
    requires FreeOk(end, mem, head, free, own)
    ensures |free| < (PHYSTOP - KERNBASE) / 4096
  {
    var lo, hi := LOW_PAGE + 1, TOP_PAGE;
    forall i | 0 <= i < |free| ensures lo <= free[i] < hi {
      assert free[i] in free;
      assert InRam(end, free[i]);
    }
    Pigeonhole(free, lo, hi);
  }

  lemma {:induction false} Pigeonhole(s: seq<nat>, lo: nat, hi: nat)
    requires lo <= hi
    requires forall i | 0 <= i < |s| :: lo <= s[i] < hi
    requires forall i, j | 0 <= i < j < |s| :: s[i] != s[j]
    ensures |s| <= hi - lo
    decreases hi - lo
  {
    if |s| > 0 {
      assert lo <= s[0] < hi;
      if j :| 0 <= j < |s| && s[j] == hi - 1 {
        var t := s[..j] + s[j + 1..];
        assert forall i | 0 <= i < |t| :: t[i] == if i < j then s[i] else s[i + 1];
        Pigeonhole(t, lo, hi - 1);
      } else {
        Pigeonhole(s, lo, hi - 1);
      }
    }
  }

  /** A list of all numbers of a range, each once, is as long as the range. */
  lemma {:induction false} AllOf(s: seq<nat>, lo: nat, hi: nat)
    requires lo <= hi && forall n: nat :: n in s <==> lo <= n < hi
    requires forall i, j | 0 <= i < j < |s| :: s[i] != s[j]
    ensures |s| == hi - lo
    decreases hi - lo
  {
    SomeIn(s);
    if lo < hi {
      assert hi - 1 in s;
      var j :| 0 <= j < |s| && s[j] == hi - 1;
      var t := s[..j] + s[j + 1..];
      assert forall i | 0 <= i < |t| :: t[i] == if i < j then s[i] else s[i + 1];
      forall n: nat ensures n in t <==> lo <= n < hi - 1 {
        if n in s && n != hi - 1 {
          var i :| 0 <= i < |s| && s[i] == n;
          assert t[if i < j then i else i - 1] == n;
        }
      }
      AllOf(t, lo, hi - 1);
    }
  }

  lemma SomeIn(s: seq<nat>)
    ensures s != [] ==> exists n: nat :: n in s
  {
    if s != [] {
      assert s[0] in s;
    }
  }

  /** The list as get_free_memory reads it out of memory, at most n nodes of it. */
  function Chain(mem: Mem, r: nat, n: nat): seq<nat>
    decreases n
  {
    if n == 0 || r == 0 || r !in mem || !mem[r].Run? then [] else [r] + Chain(mem, mem[r].next, n - 1)
  }

  /** The pages on the list are determined by memory: following the links yields free and stops. */
  lemma {:induction false} ChainIsFree(end: nat, mem: Mem, head: nat, free: seq<nat>, own: Owners, k: nat, n: nat)
    requires FreeOk(end, mem, head, free, own) && k <= |free| <= n + k
    ensures Chain(mem, if k < |free| then free[k] else 0, n) == free[k..]
    decreases n
  {
    if k < |free| {
      OnList(end, mem, head, free, own);
      assert LinkOk(mem, free, k);
      ChainIsFree(end, mem, head, free, own, k + 1, n - 1);
      assert free[k..] == [free[k]] + free[k + 1..];
    }
  }
}
