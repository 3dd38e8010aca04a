/**
 How many free pages it takes to map a set of pages into a tree: the pages themselves, and the
 tables that are missing on the way to them, each counted once.
 */
module Need {
  import opened Riscv
  import opened PageTable
  import opened Space

  /** A page picked below k shares its level-1 table, or all its tables, with page w. */
  ghost predicate Shares(picked: nat -> bool, k: nat, w: nat, all: bool) {
    exists u: nat :: u < k && picked(u) && I2(u) == I2(w) && (all ==> I1(u) == I1(w))
  }

  /** The tables that are missing for page w once the pages picked below k have been mapped. */
  ghost function Lacks(picked: nat -> bool, missing: nat -> nat, k: nat, w: nat): (n: nat)
    ensures n <= 2
  {
    if missing(w) > 1 && !Shares(picked, k, w, false) then 2
    else if missing(w) > 0 && !Shares(picked, k, w, true) then 1
    else 0
  }

  /**
   The free pages that mapping the pages picked among the first n takes, in a tree in which
   missing(w) tables are missing on the way to page w: one for each, and the tables lacking.
   */
  ghost function MapNeed(picked: nat -> bool, missing: nat -> nat, n: nat): nat {
    if n == 0 then 0
    else MapNeed(picked, missing, n - 1)
         + if picked(n - 1) then 1 + Lacks(picked, missing, n - 1, n - 1) else 0
  }

  ghost function MissingIn(mem: Mem, root: nat): nat -> nat {
    w => Missing(mem, root, w)
  }

  /** Mapping the pages picked among the first n, with this many free pages, gets as far as making a table. */
  ghost predicate MakesTable(picked: nat -> bool, missing: nat -> nat, n: nat, free: nat) {
    exists u: nat :: MakesTableFor(picked, missing, n, free, u)
  }

  ghost predicate MakesTableFor(picked: nat -> bool, missing: nat -> nat, n: nat, free: nat, u: nat) {
    && u < n && picked(u) && Lacks(picked, missing, u, u) > 0
    && MapNeed(picked, missing, u) + 2 <= free
  }

  /** It depends on which pages are picked and which tables are missing alone. */
  lemma {:induction false} MapNeedSame(picked: nat -> bool, picked': nat -> bool, missing: nat -> nat,
                                       missing': nat -> nat, n: nat)
    requires forall w: nat :: picked'(w) == picked(w)
    requires forall w: nat :: missing'(w) == missing(w)
    ensures MapNeed(picked', missing', n) == MapNeed(picked, missing, n)
  {
    if n > 0 {
      MapNeedSame(picked, picked', missing, missing', n - 1);
      SameShares(picked, picked', n - 1, n - 1);
    }
  }

  lemma SameShares(picked: nat -> bool, picked': nat -> bool, k: nat, w: nat)
    requires forall u: nat :: picked'(u) == picked(u)
    ensures forall all: bool :: Shares(picked', k, w, all) <==> Shares(picked, k, w, all)
  {
    hide I1, I2;
  }

  lemma {:induction false} MapNeedGrows(picked: nat -> bool, missing: nat -> nat, k: nat, n: nat)
    requires k <= n
    ensures MapNeed(picked, missing, k) <= MapNeed(picked, missing, n)
  {
    if k < n {
      MapNeedGrows(picked, missing, k, n - 1);
    }
  }

  lemma {:induction false} MapNeedNext(picked: nat -> bool, missing: nat -> nat, k: nat)
    ensures MapNeed(picked, missing, 0) == 0
    ensures MapNeed(picked, missing, k + 1) == MapNeed(picked, missing, k) +
            if picked(k) then 1 + Lacks(picked, missing, k, k) else 0
  {
  }

  /** Before anything was mapped, what is missing is missing. */
  lemma LacksNow(picked: nat -> bool, missing: nat -> nat, k: nat, w: nat)
    requires forall u: nat | u < k :: !picked(u)
    requires missing(w) <= 2
    ensures Lacks(picked, missing, k, w) == missing(w)
  {
  }

  lemma LacksNext(picked: nat -> bool, missing: nat -> nat, k: nat, w: nat)
    requires missing(w) <= 2
    ensures Lacks(picked, missing, k + 1, w) ==
            if picked(k) then LeftMissing(Lacks(picked, missing, k, w), k, w)
            else Lacks(picked, missing, k, w)
  {
    hide I1, I2;
    SharesNext(picked, k, w, true);
    SharesNext(picked, k, w, false);
    hide Shares;
    assert Shares(picked, k, w, true) ==> Shares(picked, k, w, false) by {
      SharesLess(picked, k, w);
    }
  }

  lemma SharesLess(picked: nat -> bool, k: nat, w: nat)
    ensures Shares(picked, k, w, true) ==> Shares(picked, k, w, false)
  {
  }

  lemma SharesNext(picked: nat -> bool, k: nat, w: nat, all: bool)
    ensures Shares(picked, k + 1, w, all) <==>
            || Shares(picked, k, w, all)
            || (picked(k) && I2(k) == I2(w) && (all ==> I1(k) == I1(w)))
  {
    hide I1, I2;
  }

  /** After the first k pages: the free pages taken, the tables missing, and whether a table was made. */
  ghost predicate NeedState(picked: nat -> bool, mem0: Mem, own0: Owners, mem: Mem, own: Owners, root: nat, k: nat,
                            free0: nat, free: nat) {
    && free0 == free + MapNeed(picked, MissingIn(mem0, root), k)
    && (forall w: nat :: Missing(mem, root, w) == Lacks(picked, MissingIn(mem0, root), k, w))
    && (GainedTable(own0, own, root) <==> MakesTable(picked, MissingIn(mem0, root), k, free0))
  }

  lemma NeedStart(picked: nat -> bool, mem: Mem, own: Owners, root: nat, k: nat, free: nat)
    requires forall w: nat | w < k :: !picked(w)
    ensures NeedState(picked, mem, own, mem, own, root, k, free, free)
  {
    NothingTaken(picked, MissingIn(mem, root), k);
    hide Missing, MapNeed;
    forall w: nat ensures Missing(mem, root, w) == Lacks(picked, MissingIn(mem, root), k, w) {
      LacksNow(picked, MissingIn(mem, root), k, w);
    }
  }

  lemma NeedDone(picked: nat -> bool, mem0: Mem, own0: Owners, mem: Mem, own: Owners, root: nat, k: nat,
                 free0: nat, free: nat)
    requires NeedState(picked, mem0, own0, mem, own, root, k, free0, free)
    ensures free0 == free + MapNeed(picked, MissingIn(mem0, root), k)
  {
  }

  /** Tables gained in two steps. */
  lemma GainedTwice(mem: Mem, own: Owners, mem1: Mem, own1: Owners, mem2: Mem, own2: Owners, root: nat,
                    lo: nat, hi: nat, lo': nat, hi': nat)
    requires Grown(mem, own, mem1, own1, root, lo, hi) && Grown(mem1, own1, mem2, own2, root, lo', hi')
    ensures GainedTable(own, own2, root) <==> GainedTable(own, own1, root) || GainedTable(own1, own2, root)
  {
    hide Lookup, InRange;
    if p :| p in own && own[p].Free? && MyTable(own1, p, root) {
      assert MyTable(own2, p, root);
    }
    if p :| p in own1 && own1[p].Free? && MyTable(own2, p, root) {
      assert own[p].Free?;
    }
    if p :| p in own && own[p].Free? && MyTable(own2, p, root) {
      assert own1[p].Free? || MyTable(own1, p, root);
    }
  }

  /** One more page was looked at. */
  lemma MakesNext(picked: nat -> bool, missing: nat -> nat, k: nat, free: nat)
    ensures MakesTable(picked, missing, k + 1, free) <==>
            MakesTable(picked, missing, k, free) || MakesTableFor(picked, missing, k + 1, free, k)
  {
    hide Lacks, MapNeed;
    var n := k + 1;
    if u: nat :| MakesTableFor(picked, missing, n, free, u) {
      assert u < k ==> MakesTableFor(picked, missing, k, free, u);
    }
    if u: nat :| MakesTableFor(picked, missing, k, free, u) {
      assert MakesTableFor(picked, missing, n, free, u);
    }
  }

  /** Memory has run out at page k. */
  lemma NeedShort(picked: nat -> bool, mem0: Mem, own0: Owners, mem1: Mem, own1: Owners, mem2: Mem, own2: Owners,
                  root: nat, lo: nat, k: nat, n: nat, free0: nat, free1: nat)
    requires NeedState(picked, mem0, own0, mem1, own1, root, k, free0, free1) && k < n
    requires Grown(mem0, own0, mem1, own1, root, lo, k) && Grown(mem1, own1, mem2, own2, root, k, k)
    requires picked(k) && free1 <= Missing(mem1, root, k)
    requires GainedTable(own1, own2, root) <==> Missing(mem1, root, k) > 0 && free1 >= 2
    ensures free0 < MapNeed(picked, MissingIn(mem0, root), n)
    ensures GainedTable(own0, own2, root) <==> MakesTable(picked, MissingIn(mem0, root), n, free0)
  {
    GainedTwice(mem0, own0, mem1, own1, mem2, own2, root, lo, k, k, k);
    hide Grown, GainedTable, Lookup, Lacks, MapNeed, Missing;
    MapNeedNext(picked, MissingIn(mem0, root), k);
    MapNeedGrows(picked, MissingIn(mem0, root), k + 1, n);
    MakesNext(picked, MissingIn(mem0, root), k, free0);
    MakesNoMore(picked, MissingIn(mem0, root), k + 1, n, free0);
  }

  lemma MakesNoMore(picked: nat -> bool, missing: nat -> nat, k: nat, n: nat, free: nat)
    requires k <= n && free < MapNeed(picked, missing, k)
    ensures MakesTable(picked, missing, n, free) <==> MakesTable(picked, missing, k, free)
  {
    hide Lacks, MapNeed;
    if u: nat :| MakesTableFor(picked, missing, n, free, u) {
      if k <= u {
        MapNeedGrows(picked, missing, k, u);
      }
      assert MakesTableFor(picked, missing, k, free, u);
    }
    if u: nat :| MakesTableFor(picked, missing, k, free, u) {
      assert MakesTableFor(picked, missing, n, free, u);
    }
  }

  /** Page k has been mapped, or was not picked. */
  lemma NeedMore(picked: nat -> bool, mem0: Mem, own0: Owners, mem1: Mem, own1: Owners, mem2: Mem, own2: Owners,
                 root: nat, lo: nat, k: nat, free0: nat, free1: nat, free2: nat)
    requires PtInv(mem0, own0) && PtInv(mem1, own1) && PtInv(mem2, own2) && IsRoot(own1, root) && IsRoot(own2, root)
    requires NeedState(picked, mem0, own0, mem1, own1, root, k, free0, free1)
    requires Grown(mem0, own0, mem1, own1, root, lo, k) && Grown(mem1, own1, mem2, own2, root, k, k + 1)
    requires picked(k) ==>
               && free1 == free2 + 1 + Missing(mem1, root, k) && Lookup(mem2, root, k).f.v
               && (GainedTable(own1, own2, root) <==> Missing(mem1, root, k) > 0 && free1 >= 2)
               && GainedFor(own1, own2, root, k)
    requires !picked(k) ==> mem2 == mem1 && own2 == own1 && free2 == free1
    ensures NeedState(picked, mem0, own0, mem2, own2, root, k + 1, free0, free2)
  {
    GainedTwice(mem0, own0, mem1, own1, mem2, own2, root, lo, k, k, k + 1);
    MappedThere(mem2, own2, root, k);
    assert OnlyFreeChange(own1, own2);
    hide PtInv, Grown, GainedTable, GainedFor, Lookup, Lacks, MapNeed, Missing, LeftMissing, MakesTable,
      OnlyFreeChange;
    MapNeedNext(picked, MissingIn(mem0, root), k);
    MakesNext(picked, MissingIn(mem0, root), k, free0);
    NoneGained(own1, root, k);
    forall w: nat ensures Missing(mem2, root, w) == Lacks(picked, MissingIn(mem0, root), k + 1, w) {
      LacksNext(picked, MissingIn(mem0, root), k, w);
      if picked(k) {
        MissingAfter(mem1, own1, mem2, own2, root, k, w);
      }
    }
  }

  /**
   A tree in which a table is missing on the way to the first page picked: when memory runs
   out, tables are left behind exactly when there were two free pages to take.
   */
  lemma FirstPageDecides(picked: nat -> bool, missing: nat -> nat, n: nat, free: nat, u: nat)
    requires u < n && picked(u) && forall w: nat | w < u :: !picked(w)
    requires 0 < missing(u) <= 2
    ensures MakesTable(picked, missing, n, free) <==> free >= 2
  {
    LacksNow(picked, missing, u, u);
    NothingTaken(picked, missing, u);
    hide Lacks, MapNeed;
    assert free >= 2 ==> MakesTableFor(picked, missing, n, free, u);
  }

  lemma {:induction false} NothingTaken(picked: nat -> bool, missing: nat -> nat, k: nat)
    requires forall w: nat | w < k :: !picked(w)
    ensures MapNeed(picked, missing, k) == 0
  {
    if k > 0 {
      NothingTaken(picked, missing, k - 1);
    }
  }

  /** The pages picked among the first n. */
  ghost function Count(picked: nat -> bool, n: nat): nat {
    if n == 0 then 0 else (if picked(n - 1) then 1 else 0) + Count(picked, n - 1)
  }

  /** At least the pages picked are taken, and at most two tables for each of them. */
  lemma {:induction false} MapNeedBounds(picked: nat -> bool, missing: nat -> nat, n: nat)
    ensures Count(picked, n) <= MapNeed(picked, missing, n) <= 3 * Count(picked, n)
  {
    if n > 0 {
      MapNeedBounds(picked, missing, n - 1);
    }
  }

  /** The pages from lo on, and the pages mapped below root. */
  ghost function From(lo: nat): nat -> bool { (w: nat) => lo <= w }

  ghost function MappedIn(mem: Mem, root: nat): nat -> bool { (w: nat) => Lookup(mem, root, w).f.v }

  lemma {:induction false} CountFrom(lo: nat, n: nat)
    ensures Count(From(lo), n) == if lo < n then n - lo else 0
  {
    if n > 0 {
      CountFrom(lo, n - 1);
    }
  }

  lemma NoneGained(own: Owners, root: nat, v: nat)
    ensures !GainedTable(own, own, root) && GainedFor(own, own, root, v)
  {
  }
}
