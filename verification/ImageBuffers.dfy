/** Comparing and scanning buffers (qemu/qemu-img.c). */
module ImageBuffers {
  import opened Alignment

  type Byte = b: int | 0 <= b < 256

  const SECTOR: nat := 512
  const IO_BUF_SIZE: nat := 2 * 1024 * 1024

  /** buffer_is_zero */
  predicate AllZero(s: seq<Byte>) {
    forall i :: 0 <= i < |s| ==> s[i] == 0
  }

  /** The bytes of an image as the guest reads them: past the end there are zeroes. */
  function Ext(s: seq<Byte>, i: nat): Byte {
    if i < |s| then s[i] else 0
  }

  function ChunkSize(chsize: nat): nat {
    if chsize == 0 then SECTOR else chsize
  }

  /** The chunk that starts at `i`; the last one may be short. */
  function ChunkAt(buf: seq<Byte>, i: nat, ch: nat): seq<Byte>
    requires i <= |buf|
  {
    buf[i..Min(i + ch, |buf|)]
  }

  /**
    compare_buffers: `pnum` is the longest prefix, in whole chunks, whose chunks
    all differ or all agree like the first.
  */
  method CompareBuffers(buf1: seq<Byte>, buf2: seq<Byte>, chsize: nat) returns (res: bool, pnum: nat)
    requires |buf1| == |buf2| > 0
    ensures 0 < pnum <= |buf1| && (pnum % ChunkSize(chsize) == 0 || pnum == |buf1|)
    ensures forall i :: 0 <= i < pnum && i % ChunkSize(chsize) == 0 ==>
      (res <==> ChunkAt(buf1, i, ChunkSize(chsize)) != ChunkAt(buf2, i, ChunkSize(chsize)))
    ensures pnum < |buf1| ==>
      (res <==> ChunkAt(buf1, pnum, ChunkSize(chsize)) == ChunkAt(buf2, pnum, ChunkSize(chsize)))
    ensures !res ==> buf1[..pnum] == buf2[..pnum]
  {
    var ch := ChunkSize(chsize);
    var i := Min(|buf1|, ch);
    res := buf1[..i] != buf2[..i];
    forall j | 0 <= j < i && j % ch == 0 ensures j == 0 {
      if j > 0 { InsideBlock(0, j, ch); }
    }
    if i == ch { AddBlock(0, ch); }
    while i < |buf1|
      invariant 0 < i <= |buf1| && (i % ch == 0 || i == |buf1|)
      invariant forall j :: 0 <= j < i && j % ch == 0 ==> (res <==> ChunkAt(buf1, j, ch) != ChunkAt(buf2, j, ch))
      invariant !res ==> buf1[..i] == buf2[..i]
    {
      var len := Min(|buf1| - i, ch);
      assert ChunkAt(buf1, i, ch) == buf1[i..i + len] && ChunkAt(buf2, i, ch) == buf2[i..i + len];
      if (buf1[i..i + len] != buf2[i..i + len]) != res {
        break;
      }
      forall j | i < j < i + len ensures j % ch != 0 { InsideBlock(i, j, ch); }
      AddBlock(i, ch);
      LongerPrefix(buf1, i, len);
      LongerPrefix(buf2, i, len);
      i := i + len;
    }
    pnum := i;
  }

  lemma LongerPrefix(buf: seq<Byte>, i: nat, len: nat)
    requires i + len <= |buf|
    ensures buf[..i + len] == buf[..i] + buf[i..i + len]
  {
  }

  /**
    find_nonzero: the start of the first sector that holds a nonzero byte, or -1.
    The buffer need not be a whole number of sectors.
  */
  method FindNonzero(buf: seq<Byte>) returns (r: int)
    ensures r == -1 <==> AllZero(buf)
    ensures r != -1 ==>
      && 0 <= r < |buf| && r % SECTOR == 0
      && AllZero(buf[..r]) && !AllZero(ChunkAt(buf, r, SECTOR))
  {
    var end := AlignDown(|buf|, SECTOR);
    var i := 0;
    while i < end
      invariant 0 <= i <= end && i % SECTOR == 0 && AllZero(buf[..i])
    {
      AlignedDifference(end, i, SECTOR);
      assert i + SECTOR <= end;
      if !AllZero(buf[i..i + SECTOR]) {
        return i;
      }
      assert buf[..i + SECTOR] == buf[..i] + buf[i..i + SECTOR];
      i := i + SECTOR;
    }
    if i < |buf| && !AllZero(buf[i..]) {
      assert ChunkAt(buf, i, SECTOR) == buf[i..];
      return i;
    }
    assert buf == buf[..i] + buf[i..];
    return -1;
  }
}
