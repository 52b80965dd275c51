/**
  qemu-img compare (qemu/qemu-img.c): decide whether two images hold the same
  bytes while skipping everything whose block status settles the matter.
*/
module Compare {
  import opened Alignment
  import opened ImageBuffers

  /** The images read the same, the shorter one being extended with zeroes. */
  predicate SameBelow(a: seq<Byte>, b: seq<Byte>, n: nat) {
    forall i :: 0 <= i < n ==> Ext(a, i) == Ext(b, i)
  }

  predicate SameContent(a: seq<Byte>, b: seq<Byte>) {
    SameBelow(a, b, Max(|a|, |b|))
  }

  /** A block status: allocated, known to be zero, and what else it tells. */
  datatype Status = Status(used: bool, zero: bool, flags: nat)

  /**
    An image: what it reads as, the status told at an offset and for how many bytes it is
    told, and the offsets at which asking for the status or reading fails.
  */
  datatype Image = Image(bytes: seq<Byte>, told: nat -> Status, length: nat -> nat,
                         statusFails: nat -> bool, readFails: nat -> bool)

  ghost predicate StatusCanFail(img: Image) {
    exists o: nat :: img.statusFails(o)
  }

  ghost predicate ReadCanFail(img: Image) {
    exists o: nat :: img.readFails(o)
  }

  /** For how many bytes, at least one and none beyond the end, the status is told. */
  function Extent(img: Image, offset: nat): (n: nat)
    requires offset < |img.bytes|
    ensures 0 < n && offset + n <= |img.bytes|
  {
    Max(1, Min(img.length(offset), |img.bytes| - offset))
  }

  /** The status told is honest: what is unallocated in the whole chain, or flagged zero, reads as zeroes. */
  function StatusAt(img: Image, offset: nat): (s: Status)
    requires offset < |img.bytes|
    ensures s.zero || !s.used ==> AllZero(img.bytes[offset..offset + Extent(img, offset)])
  {
    var s := img.told(offset);
    if AllZero(img.bytes[offset..offset + Extent(img, offset)]) then s else s.(used := true, zero := false)
  }

  /** The status is the same at every offset. */
  ghost predicate SameStatus(img1: Image, img2: Image) {
    forall o: nat :: o < |img1.bytes| && o < |img2.bytes| ==> StatusAt(img1, o) == StatusAt(img2, o)
  }

  /** check_empty_sectors: 4 if the range cannot be read, else 0 if it is all zeroes and 1 if not. */
  method CheckEmpty(img: Image, offset: nat, n: nat) returns (ret: int)
    requires offset + n <= |img.bytes|
    ensures ret == 0 || ret == 1 || ret == 4
    ensures ret == 4 <==> img.readFails(offset)
    ensures ret != 4 ==> (ret == 0 <==> AllZero(img.bytes[offset..offset + n]))
  {
    if img.readFails(offset) {
      return 4;
    }
    var idx := FindNonzero(img.bytes[offset..offset + n]);
    return if idx >= 0 then 1 else 0;
  }

  /** One round of the first loop, after the status of both images is known. */
  method CompareChunk(img1: Image, img2: Image, offset: nat, n: nat,
                      used1: bool, zero1: bool, used2: bool, zero2: bool)
    returns (ret: int, chunk: nat)
    requires 0 < n && offset + n <= |img1.bytes| && offset + n <= |img2.bytes|
    requires zero1 || !used1 ==> AllZero(img1.bytes[offset..offset + n])
    requires zero2 || !used2 ==> AllZero(img2.bytes[offset..offset + n])
    ensures ret == 0 || ret == 1 || ret == 4
    ensures 0 < chunk <= n
    ensures ret == 4 <==>
      !(zero1 && zero2) && ((used1 && img1.readFails(offset)) || (used2 && img2.readFails(offset)))
    ensures ret != 4 ==> (ret == 0 <==> img1.bytes[offset..offset + chunk] == img2.bytes[offset..offset + chunk])
  {
    chunk := n;
    ret := 0;
    if zero1 && zero2 {
      ZeroesAgree(img1.bytes, img2.bytes, offset, n, n);
    } else if used1 == used2 {
      if used1 {
        chunk := Min(chunk, IO_BUF_SIZE);
        if img1.readFails(offset) {
          return 4, chunk;
        }
        if img2.readFails(offset) {
          return 4, chunk;
        }
        var buf1, buf2 := img1.bytes[offset..offset + chunk], img2.bytes[offset..offset + chunk];
        var differ, pnum := CompareBuffers(buf1, buf2, 0);
        if differ || pnum != chunk {
          assert 0 % ChunkSize(0) == 0 && ChunkSize(0) == SECTOR;
          ChunksDiffer(buf1, buf2, differ, pnum);
          return 1, chunk;
        }
        assert buf1[..pnum] == buf1 && buf2[..pnum] == buf2;
      } else {
        ZeroesAgree(img1.bytes, img2.bytes, offset, n, n);
      }
    } else {
      chunk := Min(chunk, IO_BUF_SIZE);
      if used1 {
        ret := CheckEmpty(img1, offset, chunk);
        EmptyAgainstZero(img2.bytes, img1.bytes, offset, n, chunk);
      } else {
        ret := CheckEmpty(img2, offset, chunk);
        EmptyAgainstZero(img1.bytes, img2.bytes, offset, n, chunk);
      }
    }
  }

  lemma ZeroesAgree(a: seq<Byte>, b: seq<Byte>, offset: nat, n: nat, k: nat)
    requires k <= n && offset + n <= |a| && offset + n <= |b|
    requires AllZero(a[offset..offset + n]) && AllZero(b[offset..offset + n])
    ensures a[offset..offset + k] == b[offset..offset + k]
  {
    forall i | offset <= i < offset + k ensures a[i] == b[i] {
      assert a[i] == a[offset..offset + n][i - offset] && b[i] == b[offset..offset + n][i - offset];
    }
  }

  /** Against an image that is zero here, being equal is being zero. */
  lemma EmptyAgainstZero(zero: seq<Byte>, b: seq<Byte>, offset: nat, n: nat, k: nat)
    requires k <= n && offset + n <= |zero| && offset + n <= |b| && AllZero(zero[offset..offset + n])
    ensures AllZero(b[offset..offset + k]) <==> b[offset..offset + k] == zero[offset..offset + k]
  {
    forall i | offset <= i < offset + k ensures zero[i] == 0 {
      assert zero[i] == zero[offset..offset + n][i - offset];
    }
  }

  /** compare_buffers stopping early, or differing in its first chunk, means a difference. */
  lemma ChunksDiffer(buf1: seq<Byte>, buf2: seq<Byte>, differ: bool, pnum: nat)
    requires |buf1| == |buf2| && 0 < pnum <= |buf1| && (differ || pnum != |buf1|)
    requires differ <==> ChunkAt(buf1, 0, SECTOR) != ChunkAt(buf2, 0, SECTOR)
    requires pnum < |buf1| ==> (differ <==> ChunkAt(buf1, pnum, SECTOR) == ChunkAt(buf2, pnum, SECTOR))
    ensures buf1 != buf2
  {
  }

  lemma SameBelowExtend(a: seq<Byte>, b: seq<Byte>, offset: nat, k: nat)
    requires SameBelow(a, b, offset) && offset + k <= |a| && offset + k <= |b|
    ensures a[offset..offset + k] == b[offset..offset + k] ==> SameBelow(a, b, offset + k)
    ensures a[offset..offset + k] != b[offset..offset + k] ==> !SameContent(a, b)
  {
    if a[offset..offset + k] == b[offset..offset + k] {
      forall i | offset <= i < offset + k ensures a[i] == b[i] {
        assert a[i] == a[offset..offset + k][i - offset] && b[i] == b[offset..offset + k][i - offset];
      }
    } else if SameContent(a, b) {
      var (x, y) := (a[offset..offset + k], b[offset..offset + k]);
      forall i | 0 <= i < |x| ensures x[i] == y[i] {
        assert Ext(a, offset + i) == Ext(b, offset + i);
      }
    }
  }

  /**
    img_compare.  It fails only where asking or reading fails.  Otherwise, without strict
    mode, it returns 0 exactly when the images have the same content and 1 exactly when
    they do not.  In strict mode 0 means that they are equal, and 1 that they differ in
    size, in content or in a block status.
  */
  method ImgCompare(img1: Image, img2: Image, strict: bool) returns (ret: int)
    ensures ret == 0 || ret == 1 || ret == 3 || ret == 4
    ensures ret == 3 ==> StatusCanFail(img1) || StatusCanFail(img2)
    ensures ret == 4 ==> ReadCanFail(img1) || ReadCanFail(img2)
    ensures !strict && ret < 3 ==>
      && (ret == 0 <==> SameContent(img1.bytes, img2.bytes))
      && (ret == 1 <==> !SameContent(img1.bytes, img2.bytes))
    ensures strict && ret == 0 ==> img1.bytes == img2.bytes
    ensures strict && ret == 1 ==> img1.bytes != img2.bytes || !SameStatus(img1, img2)
  {
    var a, b := img1.bytes, img2.bytes;
    var total := Min(|a|, |b|);
    if strict && |a| != |b| {
      return 1;
    }
    var offset := 0;
    while offset < total
      invariant 0 <= offset <= total && SameBelow(a, b, offset)
    {
      if img1.statusFails(offset) {
        return 3;
      }
      if img2.statusFails(offset) {
        return 3;
      }
      var s1, s2 := StatusAt(img1, offset), StatusAt(img2, offset);
      if strict && s1 != s2 {
        return 1;
      }
      var n := Min(Extent(img1, offset), Extent(img2, offset));
      ShorterRange(a, offset, Extent(img1, offset), n);
      ShorterRange(b, offset, Extent(img2, offset), n);
      var chunk;
      ret, chunk := CompareChunk(img1, img2, offset, n, s1.used, s1.zero, s2.used, s2.zero);
      SameBelowExtend(a, b, offset, chunk);
      if ret != 0 {
        return;
      }
      offset := offset + chunk;
    }
    if |a| != |b| {
      ret := CompareTail(if |a| > |b| then img1 else img2, total);
      TailDecides(a, b);
      return;
    }
    assert a == b by {
      forall i | 0 <= i < |a| ensures a[i] == b[i] { assert Ext(a, i) == Ext(b, i); }
    }
    return 0;
  }

  lemma ShorterRange(img: seq<Byte>, offset: nat, n: nat, k: nat)
    requires k <= n && offset + n <= |img|
    ensures AllZero(img[offset..offset + n]) ==> AllZero(img[offset..offset + k])
  {
    if AllZero(img[offset..offset + n]) {
      assert img[offset..offset + k] == img[offset..offset + n][..k];
    }
  }

  /** The second loop: what the longer image has beyond the shorter one must be zeroes. */
  method CompareTail(img: Image, start: nat) returns (ret: int)
    requires start <= |img.bytes|
    ensures ret == 0 || ret == 1 || ret == 3 || ret == 4
    ensures ret == 3 ==> StatusCanFail(img)
    ensures ret == 4 ==> ReadCanFail(img)
    ensures ret < 3 ==> (ret == 0 <==> AllZero(img.bytes[start..]))
  {
    var over := img.bytes;
    var offset := start;
    while offset < |over|
      invariant start <= offset <= |over| && AllZero(over[start..offset])
    {
      var chunk;
      ret, chunk := CheckTail(img, offset);
      TailPart(over, start, offset, chunk);
      if ret != 0 {
        return;
      }
      ZeroesGoOn(over, start, offset, chunk);
      offset := offset + chunk;
    }
    assert over[start..offset] == over[start..];
    return 0;
  }

  /** One round of it: a chunk from `offset` on is found to be zeroes, or something is wrong there. */
  method CheckTail(img: Image, offset: nat) returns (ret: int, chunk: nat)
    requires offset < |img.bytes|
    ensures offset + chunk <= |img.bytes|
    ensures ret == 0 || ret == 1 || ret == 3 || ret == 4
    ensures ret == 3 ==> StatusCanFail(img)
    ensures ret == 4 ==> ReadCanFail(img)
    ensures ret < 3 ==> chunk > 0 && (ret == 0 <==> AllZero(img.bytes[offset..offset + chunk]))
  {
    if img.statusFails(offset) {
      return 3, 0;
    }
    var s := StatusAt(img, offset);
    chunk := Extent(img, offset);
    if s.used && !s.zero {
      chunk := Min(chunk, IO_BUF_SIZE);
      ret := CheckEmpty(img, offset, chunk);
    } else {
      ret := 0;
    }
  }

  lemma ZeroesGoOn(over: seq<Byte>, start: nat, offset: nat, k: nat)
    requires start <= offset && offset + k <= |over|
    requires AllZero(over[start..offset]) && AllZero(over[offset..offset + k])
    ensures AllZero(over[start..offset + k])
  {
    assert over[start..offset + k] == over[start..offset] + over[offset..offset + k];
  }

  lemma TailPart(over: seq<Byte>, start: nat, offset: nat, k: nat)
    requires start <= offset && offset + k <= |over|
    ensures !AllZero(over[offset..offset + k]) ==> !AllZero(over[start..])
  {
    if AllZero(over[start..]) {
      var part := over[offset..offset + k];
      forall i | 0 <= i < |part| ensures part[i] == 0 {
        assert part[i] == over[start..][offset - start + i];
      }
    }
  }

  lemma TailDecides(a: seq<Byte>, b: seq<Byte>)
    requires |a| != |b| && SameBelow(a, b, Min(|a|, |b|))
    ensures SameContent(a, b) <==> AllZero((if |a| > |b| then a else b)[Min(|a|, |b|)..])
  {
    var longer := if |a| > |b| then a else b;
    var n := Min(|a|, |b|);
    if SameContent(a, b) {
      forall i | 0 <= i < |longer| - n ensures longer[n..][i] == 0 {
        assert Ext(a, n + i) == Ext(b, n + i);
      }
    }
    if AllZero(longer[n..]) {
      forall i | n <= i < |longer| ensures Ext(a, i) == Ext(b, i) {
        assert longer[n..][i - n] == longer[i];
      }
    }
  }
}
