/**
 What copyout, copyin and copyinstr mean on user memory alone, without page tables.
 */
module UserMemory {
  import opened Riscv
  import opened PageTable
  import opened Space

  /** The pages of [0, PGROUNDUP(sz)) and the page shared at USYSCALL: all that a process can reach. */
  datatype UserMem = UserMem(pages: seq<UserPage>, shared: UserPage) {

    predicate Has(v: nat) {
      v < |pages| || v == USYS_VPN
    }

    function At(v: nat): UserPage
      requires Has(v)
    {
      if v < |pages| then pages[v] else shared
    }

    predicate Readable(v: nat) { Has(v) && At(v).u }
    predicate Writable(v: nat) { Has(v) && At(v).u && At(v).w }

    predicate Valid() {
      && |pages| <= USYS_VPN
      && |shared.bytes| == 4096
      && forall v | 0 <= v < |pages| :: |pages[v].bytes| == 4096
    }

    /** The byte at user address a; 0 where there is none. */
    function Byte(a: nat): byte {
      if Has(a / 4096) && a % 4096 < |At(a / 4096).bytes| then At(a / 4096).bytes[a % 4096] else 0
    }

    predicate CanRead(a: nat) { Readable(a / 4096) }
    predicate CanWrite(a: nat) { Writable(a / 4096) }

    /** The memory with data written into page v from offset off on. */
    function Write(v: nat, off: nat, data: seq<byte>): (s: UserMem)
      requires Valid() && Has(v) && off + |data| <= 4096
      ensures s.Valid() && |s.pages| == |pages|
    {
      var pg := At(v).(bytes := Splice(At(v).bytes, off, data));
      if v < |pages| then this.(pages := pages[v := pg]) else this.(shared := pg)
    }
  }

  function Splice(bytes: seq<byte>, off: nat, data: seq<byte>): (r: seq<byte>)
    requires off + |data| <= |bytes|
    ensures |r| == |bytes|
    ensures forall i | 0 <= i < |bytes| ::
              r[i] == if off <= i < off + |data| then data[i - off] else bytes[i]
  {
    bytes[..off] + data + bytes[off + |data|..]
  }

  /** The bytes of [va, va + len) that lie in va's page: the chunk of one loop round. */
  function Chunk(va: nat, len: nat): (n: nat)
    ensures n <= len && (len > 0 ==> n > 0) && va % 4096 + n <= 4096
    ensures n < len ==> (va + n) % 4096 == 0 && va + n == va / 4096 * 4096 + 4096
  {
    if 4096 - va % 4096 > len then len else 4096 - va % 4096
  }

  /** The bytes of that chunk. */
  function ChunkBytes(s: UserMem, va: nat, len: nat): (b: seq<byte>)
    requires s.Valid() && s.Readable(va / 4096)
    ensures |b| == Chunk(va, len)
  {
    s.At(va / 4096).bytes[va % 4096..va % 4096 + Chunk(va, len)]
  }

  /** The n bytes from va on lie in one page. */
  lemma InPage(va: nat, n: nat)
    requires va % 4096 + n <= 4096
    ensures forall a | va <= a < va + n :: a / 4096 == va / 4096 && a % 4096 == va % 4096 + (a - va)
  {
  }

  /** The pages that the len bytes from va on lie in: the loop rounds of a copy. */
  function Rounds(va: nat, len: nat): (r: nat)
    ensures len > 0 ==> r == (va + len - 1) / 4096 - va / 4096 + 1
  {
    if len == 0 then 0 else (va % 4096 + len + 4095) / 4096
  }

  /** One round copies the chunk in va's page, and the next begins with the next page. */
  lemma RoundsNext(va: nat, len: nat, va': nat)
    requires len > 0 && (Chunk(va, len) < len ==> va' == va + Chunk(va, len))
    ensures Rounds(va, len) == 1 + Rounds(va', len - Chunk(va, len))
  {
  }

  // ------------------------------------------------------------------ copyout

  /** copyout page by page; it stops in front of the first page that is not writable. */
  function CopyOut(s: UserMem, va: nat, src: seq<byte>): (r: (UserMem, bool))
    requires s.Valid()
    ensures r.0.Valid()
    decreases |src|
  {
    if src == [] then (s, true)
    else if !s.Writable(va / 4096) then (s, false)
    else
      var n := Chunk(va, |src|);
      CopyOut(s.Write(va / 4096, va % 4096, src[..n]), va + n, src[n..])
  }

  /** Memory s' is s with some of the first bytes of src at va, as copyout writes them. */
  ghost predicate WrotePrefix(s: UserMem, s': UserMem, va: nat, src: seq<byte>)
    requires s.Valid()
  {
    exists n: nat :: n <= |src| && CopyOut(s, va, src[..n]) == (s', true)
  }

  /** The first round of copyout. */
  lemma CopyOutFirst(s: UserMem, va: nat, src: seq<byte>)
    requires s.Valid() && src != [] && s.Writable(va / 4096)
    ensures var n := Chunk(va, |src|);
            CopyOut(s, va, src) == CopyOut(s.Write(va / 4096, va % 4096, src[..n]), va + n, src[n..])
  {
  }

  /** The number of bytes that copyout writes. */
  function OutLen(s: UserMem, va: nat, len: nat): (n: nat)
    ensures n <= len
    decreases len
  {
    if len == 0 || !s.Writable(va / 4096) then 0
    else Chunk(va, len) + OutLen(s, va + Chunk(va, len), len - Chunk(va, len))
  }

  /** The same pages with the same permissions. */
  ghost predicate SamePages(s: UserMem, s': UserMem) {
    && |s'.pages| == |s.pages|
    && (forall v: nat | s.Has(v) :: s'.At(v).u == s.At(v).u && s'.At(v).w == s.At(v).w)
  }

  /** Memory s' is s with src at [va, va + |src|): that and nothing else. */
  ghost predicate Wrote(s: UserMem, s': UserMem, va: nat, src: seq<byte>) {
    && SamePages(s, s')
    && (forall a: nat ::
          s'.Byte(a) == if va <= a < va + |src| then src[a - va] else s.Byte(a))
  }

  lemma WriteWrote(s: UserMem, va: nat, data: seq<byte>)
    requires s.Valid() && s.Has(va / 4096) && va % 4096 + |data| <= 4096
    ensures Wrote(s, s.Write(va / 4096, va % 4096, data), va, data)
  {
    var s' := s.Write(va / 4096, va % 4096, data);
    InPage(va, |data|);
    forall a: nat
      ensures s'.Byte(a) == if va <= a < va + |data| then data[a - va] else s.Byte(a)
    {
      if a / 4096 == va / 4096 {
        assert a - va == a % 4096 - va % 4096;
      }
    }
  }

  lemma WroteTrans(s: UserMem, s1: UserMem, s2: UserMem, va: nat, src: seq<byte>, k: nat, n: nat)
    requires k <= n <= |src|
    requires Wrote(s, s1, va, src[..k]) && Wrote(s1, s2, va + k, src[k..][..n - k])
    ensures Wrote(s, s2, va, src[..n])
  {
  }

  /**
   copyout writes exactly a prefix of src, whole pages at a time, and touches no other byte
   and no permission. It succeeds, and the prefix is all of src, exactly when every byte of
   [va, va + |src|) may be written; otherwise it stops at one that may not.
   */
  lemma {:induction false} CopyOutMeaning(s: UserMem, va: nat, src: seq<byte>)
    requires s.Valid()
    ensures var (s', ok) := CopyOut(s, va, src);
            var n := OutLen(s, va, |src|);
            && Wrote(s, s', va, src[..n])
            && (ok <==> n == |src|)
            && (forall a | va <= a < va + n :: s.CanWrite(a))
            && (!ok ==> !s.CanWrite(va + n))
    decreases |src|
  {
    hide Wrote, UserMem.Write, UserMem.At, CopyOut, OutLen, Chunk, UserMem.CanWrite;
    if src == [] || !s.Writable(va / 4096) {
      CopyOutStops(s, va, src);
      WroteNothing(s, va, src);
    } else {
      var k := Chunk(va, |src|);
      var s1 := s.Write(va / 4096, va % 4096, src[..k]);
      CopyOutFirst(s, va, src);
      OutLenFirst(s, va, |src|);
      WriteWrote(s, va, src[..k]);
      CopyOutMeaning(s1, va + k, src[k..]);
      WroteWritable(s, s1, va, src[..k]);
      SameWritable(s, s1, va + k, |src| - k);
      var n := OutLen(s, va, |src|);
      WroteTrans(s, s1, CopyOut(s, va, src).0, va, src, k, n);
      PageWritable(s, va, k);
      forall a | va <= a < va + n ensures s.CanWrite(a) {
        assert a >= va + k ==> s1.CanWrite(a);
      }
    }
  }

  lemma CopyOutStops(s: UserMem, va: nat, src: seq<byte>)
    requires s.Valid() && (src == [] || !s.Writable(va / 4096))
    ensures CopyOut(s, va, src) == (s, src == []) && OutLen(s, va, |src|) == 0
    ensures src != [] ==> !s.CanWrite(va)
  {
  }

  lemma OutLenFirst(s: UserMem, va: nat, len: nat)
    requires len > 0 && s.Writable(va / 4096)
    ensures OutLen(s, va, len) == Chunk(va, len) + OutLen(s, va + Chunk(va, len), len - Chunk(va, len))
  {
  }

  lemma PageWritable(s: UserMem, va: nat, k: nat)
    requires s.Writable(va / 4096) && va % 4096 + k <= 4096
    ensures forall a | va <= a < va + k :: s.CanWrite(a)
  {
    InPage(va, k);
  }

  lemma WroteNothing(s: UserMem, va: nat, src: seq<byte>)
    ensures Wrote(s, s, va, src[..0])
  {
  }

  lemma WroteWritable(s: UserMem, s': UserMem, va: nat, data: seq<byte>)
    requires Wrote(s, s', va, data)
    ensures SamePages(s, s') && forall v: nat :: s'.Writable(v) == s.Writable(v)
    ensures forall a: nat :: s'.CanWrite(a) == s.CanWrite(a)
  {
  }

  lemma {:induction false} SameWritable(s: UserMem, s': UserMem, va: nat, len: nat)
    requires SamePages(s, s')
    ensures OutLen(s', va, len) == OutLen(s, va, len)
    decreases len
  {
    if len > 0 && s.Writable(va / 4096) {
      SameWritable(s, s', va + Chunk(va, len), len - Chunk(va, len));
    }
  }

  /** A copyout of the first k bytes, up to a page boundary, and then of the rest. */
  lemma {:induction false} CopyOutSplit(s: UserMem, va: nat, src: seq<byte>, k: nat)
    requires s.Valid() && k <= |src| && (k == |src| || k == 0 || (va + k) % 4096 == 0)
    requires CopyOut(s, va, src[..k]).1
    ensures CopyOut(s, va, src) == CopyOut(CopyOut(s, va, src[..k]).0, va + k, src[k..])
    decreases k
  {
    hide CopyOut, Chunk, UserMem.Write, UserMem.At, UserMem.Has, UserMem.Writable, UserMem.Valid, Splice;
    if k == 0 {
      CopyOutNone(s, va, src);
    } else {
      var n, first := Chunk(va, |src|), src[..k];
      ChunkSame(va, |src|, k);
      FirstWritable(s, va, first);
      var s1 := Chunked(s, va, src, n);
      CopyOutFirst(s, va, src);
      SplitSlices(src, n, k);
      CopyOutFirst(s, va, first);
      CutAgain(va, n, k);
      CopyOutSplit(s1, va + n, src[n..], k - n);
    }
  }

  /** Memory after the first n bytes of src were written into va's page. */
  function Chunked(s: UserMem, va: nat, src: seq<byte>, n: nat): (s': UserMem)
    requires s.Valid() && s.Writable(va / 4096) && n <= |src| && va % 4096 + n <= 4096
    ensures s'.Valid() && s' == s.Write(va / 4096, va % 4096, src[..n])
  {
    s.Write(va / 4096, va % 4096, src[..n])
  }

  lemma CutAgain(va: nat, n: nat, k: nat)
    requires n <= k
    ensures va + n + (k - n) == va + k
  {
  }

  lemma CopyOutNone(s: UserMem, va: nat, src: seq<byte>)
    requires s.Valid()
    ensures CopyOut(s, va, src[..0]) == (s, true) && src[0..] == src
  {
  }

  lemma FirstWritable(s: UserMem, va: nat, src: seq<byte>)
    requires s.Valid() && src != [] && CopyOut(s, va, src).1
    ensures s.Writable(va / 4096)
  {
  }

  /** A chunk ends at a page boundary, so cutting there or later does not change it. */
  lemma ChunkSame(va: nat, len: nat, k: nat)
    requires 0 < k <= len && (k == len || (va + k) % 4096 == 0)
    ensures Chunk(va, len) == Chunk(va, k) <= k && va % 4096 + Chunk(va, k) <= 4096
  {
  }

  lemma SplitSlices(src: seq<byte>, n: nat, k: nat)
    requires n <= k <= |src|
    ensures src[..k][..n] == src[..n] && src[..k][n..] == src[n..][..k - n] && src[n..][k - n..] == src[k..]
  {
  }

  // ------------------------------------------------------------------- copyin

  /** copyin page by page: the bytes it stores, and whether it got all of them. */
  function CopyIn(s: UserMem, va: nat, len: nat): (seq<byte>, bool)
    requires s.Valid()
    decreases len
  {
    if len == 0 then ([], true)
    else if !s.Readable(va / 4096) then ([], false)
    else
      var n := Chunk(va, len);
      var (rest, ok) := CopyIn(s, va + n, len - n);
      (s.At(va / 4096).bytes[va % 4096..va % 4096 + n] + rest, ok)
  }

  /** bytes is the memory from va on. */
  ghost predicate Holds(s: UserMem, va: nat, bytes: seq<byte>) {
    forall a | va <= a < va + |bytes| :: s.CanRead(a) && s.Byte(a) == bytes[a - va]
  }

  lemma ChunkHolds(s: UserMem, va: nat, n: nat)
    requires s.Valid() && s.Readable(va / 4096) && va % 4096 + n <= 4096
    ensures Holds(s, va, s.At(va / 4096).bytes[va % 4096..va % 4096 + n])
  {
    InPage(va, n);
  }

  lemma HoldsConcat(s: UserMem, va: nat, b: seq<byte>, c: seq<byte>)
    requires Holds(s, va, b) && Holds(s, va + |b|, c)
    ensures Holds(s, va, b + c)
  {
  }

  /**
   copyin stores the memory from va on, up to the first byte that may not be read; it
   succeeds exactly when all of [va, va + len) may be read.
   */
  lemma {:induction false} CopyInMeaning(s: UserMem, va: nat, len: nat)
    requires s.Valid()
    ensures var (bytes, ok) := CopyIn(s, va, len);
            && |bytes| <= len
            && (ok <==> |bytes| == len)
            && Holds(s, va, bytes)
            && (!ok ==> !s.CanRead(va + |bytes|))
    decreases len
  {
    hide Holds, Chunk, UserMem.At, UserMem.CanRead;
    HoldsNothing(s, va);
    if len > 0 && s.Readable(va / 4096) {
      var n := Chunk(va, len);
      WholePage(s, va / 4096);
      CopyInMeaning(s, va + n, len - n);
      ChunkHolds(s, va, n);
      HoldsConcat(s, va, s.At(va / 4096).bytes[va % 4096..va % 4096 + n], CopyIn(s, va + n, len - n).0);
    } else {
      ReadStops(s, va);
    }
  }

  lemma WholePage(s: UserMem, v: nat)
    requires s.Valid() && s.Readable(v)
    ensures s.Has(v) && |s.At(v).bytes| == 4096
  {
  }

  lemma ReadStops(s: UserMem, va: nat)
    ensures !s.Readable(va / 4096) ==> !s.CanRead(va)
  {
  }

  /** What was copied out is read back. */
  lemma CopyRoundTrip(s: UserMem, va: nat, src: seq<byte>)
    requires s.Valid() && CopyOut(s, va, src).1
    ensures CopyIn(CopyOut(s, va, src).0, va, |src|) == (src, true)
  {
    hide CopyOut, CopyIn, OutLen, Wrote, UserMem.CanRead, UserMem.CanWrite, UserMem.Valid;
    var s' := CopyOut(s, va, src).0;
    CopyOutMeaning(s, va, src);
    CopyInMeaning(s', va, |src|);
    assert src[..|src|] == src;
    WroteReadable(s, s', va, src);
    ReadsBack(s, s', va, src, CopyIn(s', va, |src|).0);
  }

  /** Bytes that may be written may be read, also after a copy. */
  lemma WroteReadable(s: UserMem, s': UserMem, va: nat, src: seq<byte>)
    requires Wrote(s, s', va, src) && forall a | va <= a < va + |src| :: s.CanWrite(a)
    ensures forall a | va <= a < va + |src| :: s'.CanRead(a)
  {
    WroteWritable(s, s', va, src);
    assert forall a: nat | s'.CanWrite(a) :: s'.CanRead(a);
    hide UserMem.CanWrite, UserMem.CanRead, Wrote;
  }

  /** Memory that holds bytes and into which src was written: one is a prefix of the other. */
  lemma ReadsBack(s: UserMem, s': UserMem, va: nat, src: seq<byte>, bytes: seq<byte>)
    requires Wrote(s, s', va, src) && Holds(s', va, bytes) && |bytes| <= |src|
    ensures bytes == src[..|bytes|]
  {
    hide SamePages, UserMem.Byte, UserMem.CanRead;
    forall i | 0 <= i < |bytes| ensures bytes[i] == src[i] {
      assert s'.Byte(va + i) == bytes[va + i - va];
    }
  }

  // ---------------------------------------------------------------- copyinstr

  /** The position of the first NUL of bytes, or the length when there is none. */
  function FirstNul(bytes: seq<byte>): (k: nat)
    ensures k <= |bytes|
    ensures forall i | 0 <= i < k :: bytes[i] != 0
    ensures k < |bytes| ==> bytes[k] == 0
  {
    if bytes == [] || bytes[0] == 0 then 0 else 1 + FirstNul(bytes[1..])
  }

  /** copyinstr page by page: the bytes it stores, with the NUL when it finds one. */
  function CopyInStr(s: UserMem, va: nat, max: nat): (seq<byte>, bool)
    requires s.Valid()
    decreases max
  {
    if max == 0 || !s.Readable(va / 4096) then ([], false)
    else
      var n := Chunk(va, max);
      var bytes := s.At(va / 4096).bytes[va % 4096..va % 4096 + n];
      var k := FirstNul(bytes);
      if k < n then (bytes[..k + 1], true)
      else var (rest, ok) := CopyInStr(s, va + n, max - n); (bytes + rest, ok)
  }

  /** The string that starts at va has its NUL at address e, and all of it may be read. */
  ghost predicate StringAt(s: UserMem, va: nat, e: nat) {
    && va <= e
    && (forall a | va <= a <= e :: s.CanRead(a))
    && (forall a | va <= a < e :: s.Byte(a) != 0)
    && s.Byte(e) == 0
  }

  /** The first n bytes from va on may be read and hold no NUL. */
  ghost predicate NoNul(s: UserMem, va: nat, n: nat) {
    forall a | va <= a < va + n :: s.CanRead(a) && s.Byte(a) != 0
  }

  lemma StringShift(s: UserMem, va: nat, n: nat)
    requires NoNul(s, va, n)
    ensures forall e :: StringAt(s, va, e) ==> va + n <= e && StringAt(s, va + n, e)
    ensures forall e :: StringAt(s, va + n, e) ==> StringAt(s, va, e)
  {
  }

  lemma NoString(s: UserMem, va: nat)
    requires !s.CanRead(va)
    ensures forall e :: !StringAt(s, va, e)
  {
  }

  lemma HoldsNothing(s: UserMem, va: nat)
    ensures Holds(s, va, [])
  {
  }

  /** Searching one chunk: either it ends the string or it holds no NUL. */
  lemma ChunkString(s: UserMem, va: nat, bytes: seq<byte>)
    requires s.Valid() && Holds(s, va, bytes)
    ensures var k := FirstNul(bytes);
            if k < |bytes| then StringAt(s, va, va + k) && Holds(s, va, bytes[..k + 1])
            else NoNul(s, va, |bytes|)
  {
    var k := FirstNul(bytes);
    forall a | va <= a < va + k ensures s.CanRead(a) && s.Byte(a) != 0 {
      assert s.Byte(a) == bytes[a - va];
    }
    if k < |bytes| {
      assert s.CanRead(va + k) && s.Byte(va + k) == bytes[va + k - va];
    }
  }

  /**
   copyinstr succeeds exactly when a readable string of at most max bytes, NUL included,
   starts at va; it then stores that string.
   */
  lemma {:induction false} CopyInStrMeaning(s: UserMem, va: nat, max: nat)
    requires s.Valid()
    ensures var (bytes, ok) := CopyInStr(s, va, max);
            && Holds(s, va, bytes) && |bytes| <= max
            && (ok ==> 0 < |bytes| && StringAt(s, va, va + |bytes| - 1))
            && (!ok ==> forall e | va <= e < va + max :: !StringAt(s, va, e))
    decreases max
  {
    hide StringAt, Holds, NoNul, FirstNul, Chunk, CopyInStr, UserMem.At, UserMem.CanRead, UserMem.Valid;
    ReadStops(s, va);
    HoldsNothing(s, va);
    if max > 0 && s.Readable(va / 4096) {
      var n := Chunk(va, max);
      WholePage(s, va / 4096);
      var bytes := s.At(va / 4096).bytes[va % 4096..va % 4096 + n];
      CopyInStrFirst(s, va, max);
      ChunkHolds(s, va, n);
      ChunkString(s, va, bytes);
      if FirstNul(bytes) == n {
        CopyInStrMeaning(s, va + n, max - n);
        HoldsConcat(s, va, bytes, CopyInStr(s, va + n, max - n).0);
        StringShift(s, va, n);
      }
    } else {
      CopyInStrStops(s, va, max);
      if max > 0 {
        NoString(s, va);
      }
    }
  }

  /** The first round of copyinstr. */
  lemma CopyInStrFirst(s: UserMem, va: nat, max: nat)
    requires s.Valid() && max > 0 && s.Readable(va / 4096)
    ensures var n := Chunk(va, max);
            && s.Has(va / 4096) && va % 4096 + n <= |s.At(va / 4096).bytes|
            && var bytes := s.At(va / 4096).bytes[va % 4096..va % 4096 + n];
               CopyInStr(s, va, max) ==
               if FirstNul(bytes) < n then (bytes[..FirstNul(bytes) + 1], true)
               else (bytes + CopyInStr(s, va + n, max - n).0, CopyInStr(s, va + n, max - n).1)
  {
  }

  lemma CopyInStrStops(s: UserMem, va: nat, max: nat)
    requires s.Valid() && (max == 0 || !s.Readable(va / 4096))
    ensures CopyInStr(s, va, max) == ([], false)
  {
  }
}
