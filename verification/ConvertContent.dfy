/**
  What one round of qemu-img convert does to the contents (qemu/qemu-img.c): choosing
  a range and its status, reading it, and writing it with the zero detection that
  keeps the target sparse.
*/
module ConvertContent {
  import opened Alignment
  import opened ConvertSettings

  const REQUEST_MAX_SECTORS: nat := 4194303

  // ------------------------------------------------------------------
  // Zero detection

  /** The length of the longest prefix of sectors that are all zero, or all not zero. */
  function RunLength(buf: seq<Sector>, zero: bool): (n: nat)
    ensures n <= |buf|
    ensures forall i :: 0 <= i < n ==> (buf[i] == 0 <==> zero)
    ensures n < |buf| ==> (buf[n] == 0 <==> !zero)
  {
    if buf == [] || (buf[0] == 0) != zero then 0 else
      var n := RunLength(buf[1..], zero);
      assert forall i :: 1 <= i < n + 1 ==> buf[i] == buf[1..][i - 1];
      n + 1
  }

  lemma {:induction false} RunIsUnique(buf: seq<Sector>, zero: bool, n: nat)
    requires n <= |buf| && (forall i :: 0 <= i < n ==> (buf[i] == 0 <==> zero))
    requires n < |buf| ==> (buf[n] == 0 <==> !zero)
    ensures n == RunLength(buf, zero)
  {
    if n > 0 {
      RunIsUnique(buf[1..], zero, n - 1);
    }
  }

  /**
    is_allocated_sectors on a buffer that goes to `sector`.  An answer of `false` is only
    given for sectors that are all zero.  It may be `true` although the first sector is
    zero: when the zeros do not reach an alignment boundary before data follows.
  */
  method IsAllocatedSectors(buf: seq<Sector>, sector: nat, alignment: nat) returns (used: bool, pnum: nat)
    requires alignment > 0
    ensures buf == [] ==> !used && pnum == 0
    ensures buf != [] ==> 0 < pnum <= |buf|
    ensures !used ==> ZeroPrefix(buf, pnum)
    ensures pnum == |buf| || (sector + pnum) % alignment == 0
    ensures buf != [] && buf[0] != 0 ==> used && RunLength(buf, false) <= pnum
    ensures buf != [] && buf[0] == 0 ==>
      var run := RunLength(buf, true);
      (used <==> run < |buf| && run <= (sector + run) % alignment) && (!used ==> run - pnum < alignment)
  {
    if buf == [] {
      return false, 0;
    }
    var i := CountRun(buf);
    used, pnum := AlignRun(|buf|, i, buf[0] == 0, sector, alignment);
  }

  /** The loop of is_allocated_sectors. */
  method CountRun(buf: seq<Sector>) returns (i: nat)
    requires buf != []
    ensures 0 < i == RunLength(buf, buf[0] == 0)
  {
    i := 1;
    while i < |buf| && (buf[i] == 0) == (buf[0] == 0)
      invariant 1 <= i <= |buf|
      invariant forall k :: 0 <= k < i ==> (buf[k] == 0 <==> buf[0] == 0)
    {
      i := i + 1;
    }
    RunIsUnique(buf, buf[0] == 0, i);
  }

  /** The rest of is_allocated_sectors, for a run of `run` of `n` sectors. */
  method AlignRun(n: nat, run: nat, isZero: bool, sector: nat, alignment: nat) returns (used: bool, pnum: nat)
    requires 0 < run <= n && alignment > 0
    ensures 0 < pnum <= n
    ensures pnum == n || (sector + pnum) % alignment == 0
    ensures used <==> !isZero || (run < n && run <= (sector + run) % alignment)
    ensures used ==> run <= pnum
    ensures !used ==> run - alignment < pnum <= run
  {
    var zero, i := isZero, run;
    if i == n {
      return !zero, i;
    }
    var tail := (sector + i) % alignment;
    if tail != 0 {
      if zero && i <= tail {
        zero := false;
      }
      if !zero {
        NextBoundary(sector + i, alignment);
        i := Min(i + alignment - tail, n);
      } else {
        LastBoundary(sector + i, alignment);
        i := i - tail;
      }
    }
    return !zero, i;
  }

  lemma NextBoundary(x: nat, a: nat)
    requires a > 0
    ensures (x + a - x % a) % a == 0
  {
    var q := x / a;
    assert x + a - x % a == (q + 1) * a;
    MultipleMod(q + 1, a);
  }

  lemma LastBoundary(x: nat, a: nat)
    requires a > 0
    ensures (x - x % a) % a == 0
  {
    var q := x / a;
    assert x - x % a == q * a;
    MultipleMod(q, a);
  }

  /**
    is_allocated_sectors_min: a write ends with the buffer, or before zeros that go on for
    `least` sectors or to the end of the buffer, and on a boundary if it can.
  */
  method IsAllocatedSectorsMin(buf: seq<Sector>, least: nat, sector: nat, alignment: nat) returns (used: bool, pnum: nat)
    requires alignment > 0 && buf != []
    ensures 0 < pnum <= |buf|
    ensures !used ==> ZeroPrefix(buf, pnum)
    ensures used && pnum < |buf| ==> buf[pnum] == 0 && ZeroPrefix(buf[pnum..], Min(Min(least, |buf|), |buf| - pnum))
    ensures buf[0] != 0 ==> used
    ensures pnum == |buf| || (sector + pnum) % alignment == 0
  {
    var limit := Min(least, |buf|);
    used, pnum := IsAllocatedSectors(buf, sector, alignment);
    if !used {
      return;
    }
    var checked := pnum;
    while checked < |buf|
      invariant 0 < pnum <= checked <= |buf|
      invariant checked == |buf| || (sector + checked) % alignment == 0
      invariant pnum == |buf| || (sector + pnum) % alignment == 0
      invariant forall i :: pnum <= i < checked ==> buf[i] == 0
    {
      var more, n := IsAllocatedSectors(buf[checked..], sector + checked, alignment);
      ghost var was := checked;
      checked := checked + n;
      if more {
        pnum := checked;
      } else {
        ZerosGoOn(buf, was, n);
        if n >= limit {
          return;
        }
      }
    }
  }

  lemma ZerosGoOn(buf: seq<Sector>, at: nat, n: nat)
    requires at <= |buf| && ZeroPrefix(buf[at..], n)
    ensures at + n <= |buf| && forall i :: at <= i < at + n ==> buf[i] == 0
  {
    forall i | at <= i < at + n ensures buf[i] == 0 {
      assert buf[at..][i - at] == buf[i];
    }
  }

  // ------------------------------------------------------------------
  // Several source images in a row

  lemma {:induction false} ConcatSplit(parts: seq<seq<Sector>>, k: nat)
    requires k < |parts|
    ensures |Concat(parts[..k])| + |parts[k]| <= |Concat(parts)|
    ensures forall i :: 0 <= i < |parts[k]| ==> Concat(parts)[|Concat(parts[..k])| + i] == parts[k][i]
    ensures |Concat(parts[..k + 1])| == |Concat(parts[..k])| + |parts[k]|
  {
    if k > 0 {
      var rest := parts[1..];
      ConcatSplit(rest, k - 1);
      assert parts[..k][1..] == rest[..k - 1] && parts[..k + 1][1..] == rest[..k];
    } else {
      assert parts[..1][1..] == [];
    }
  }

  /** convert_select_part: the part that holds a sector, and where it begins; its assertion does not fail. */
  method SelectPart(parts: seq<seq<Sector>>, sector: nat) returns (cur: nat, offset: nat)
    requires sector < |Concat(parts)|
    ensures cur < |parts| && offset == |Concat(parts[..cur])|
    ensures offset <= sector < offset + |parts[cur]|
    ensures offset + |parts[cur]| <= |Concat(parts)|
    ensures forall i :: 0 <= i < |parts[cur]| ==> Concat(parts)[offset + i] == parts[cur][i]
  {
    cur, offset := 0, 0;
    assert parts[..|parts|] == parts;
    while sector - offset >= |parts[cur]|
      invariant cur < |parts| && offset == |Concat(parts[..cur])| && offset <= sector
      decreases |parts| - cur
    {
      ConcatSplit(parts, cur);
      offset := offset + |parts[cur]|;
      cur := cur + 1;
      if cur == |parts| {
        assert false;
      }
    }
    ConcatSplit(parts, cur);
  }

  // ------------------------------------------------------------------
  // A round of the copy

  /** An answer of bdrv_block_status_above within the part that ends at `end`, or an error. */
  method BlockStatusAbove(c: Settings, sector: nat, n: nat, end: nat) returns (ok: bool, a: Allocation, count: nat)
    requires c.Valid() && 0 < n && sector < end <= |c.Source()|
    ensures ok ==> 0 < count <= n && sector + count <= end && c.Honest(a, sector, count)
  {
    ok := *;
    a := *;
    var k: int := *;
    count := Max(1, Min(k, Min(n, end - sector)));
    if !c.Honest(a, sector, count) {
      a := IsData;
    }
  }

  class ImgConvert {
    const c: Settings
    var status: BlockStatus
    var sectorNextStatus: nat
    var target: seq<Sector>

    constructor (settings: Settings)
      requires settings.Valid()
      ensures c == settings && target == settings.initial && CacheOk(0)
    {
      c := settings;
      status := Data;
      sectorNextStatus := 0;
      target := settings.initial;
    }

    /** The remembered status is right for what is left of its range. */
    predicate CacheOk(sector: nat)
      reads this
    {
      c.Valid() && c.Cached(status, sectorNextStatus, sector)
    }

    /** The part of convert_iteration_sectors that asks for the status of at most `n` sectors. */
    method Ask(sector: nat, n: nat, beyondBacking: bool) returns (ok: bool, answer: Allocation)
      requires c.Valid() && 0 < n && sector < |c.Source()|
      requires beyondBacking ==> 0 <= c.targetBackingSectors <= sector
      modifies `status, `sectorNextStatus
      ensures ok ==> sector < sectorNextStatus <= sector + n && c.Right(status, sector, sectorNextStatus)
      ensures ok ==> (status.Zero? <==> answer.IsZero? && !beyondBacking)
      ensures ok ==> (status.Data? <==> answer.IsData? || (answer.Unallocated? && !c.targetHasBacking))
    {
      var cur, offset := SelectPart(c.parts, sector);
      var count;
      ok, answer, count := BlockStatusAbove(c, sector, n, offset + |c.parts[cur]|);
      if !ok {
        return;
      }
      var tail := (sector - offset + count) % c.srcAlignment[cur];
      var k := if count > tail then count - tail else count;
      status := match answer
        case IsZero => if beyondBacking then BackingFile else Zero
        case IsData => Data
        case Unallocated => if c.targetHasBacking then BackingFile else Data;
      sectorNextStatus := sector + k;
    }

    /** convert_iteration_sectors: how far the status of `sector` extends; false if it cannot be found out. */
    method IterationSectors(sector: nat) returns (ok: bool, n: nat)
      requires CacheOk(sector) && sector < |c.Source()|
      modifies `status, `sectorNextStatus
      ensures ok ==> 0 < n && sector + n <= |c.Source()|
      ensures ok ==> c.Right(status, sector, sector + n) && CacheOk(sector + n)
      ensures ok && status.Data? ==> n <= c.bufSectors
      ensures ok && c.compressed ==> n % c.clusterSectors == 0 || sector + n == |c.Source()|
    {
      var total := |c.Source()|;
      n := Min(total - sector, REQUEST_MAX_SECTORS);
      var beyond := false;
      if c.targetBackingSectors >= 0 {
        if sector >= c.targetBackingSectors {
          beyond := true;
        } else if sector + n > c.targetBackingSectors {
          n := c.targetBackingSectors - sector;
        }
      }
      ok := true;
      if sectorNextStatus <= sector {
        var answer;
        ok, answer := Ask(sector, n, beyond);
        if !ok {
          return;
        }
      }
      n := Min(n, sectorNextStatus - sector);
      if status.Data? {
        n := Min(n, c.bufSectors);
      }
      if c.compressed {
        n := WholeClusters(sector, n);
      }
    }

    /** The rounding to clusters that compression needs. */
    method WholeClusters(sector: nat, k: nat) returns (n: nat)
      requires c.Valid() && c.compressed && 0 < k && sector + k <= |c.Source()|
      requires sector < sectorNextStatus && sector + k <= sectorNextStatus && c.Right(status, sector, sectorNextStatus)
      requires status.Data? ==> k <= c.bufSectors
      modifies `status
      ensures 0 < n && sector + n <= |c.Source()|
      ensures c.Right(status, sector, sector + n) && CacheOk(sector + n)
      ensures status.Data? ==> n <= c.bufSectors
      ensures n % c.clusterSectors == 0 || sector + n == |c.Source()|
    {
      if k < c.clusterSectors {
        n := Min(c.clusterSectors, |c.Source()| - sector);
        status := Data;
      } else {
        n := AlignDown(k, c.clusterSectors);
      }
    }

    /** convert_co_read without the salvage option. */
    method Read(sector: nat, n: nat) returns (ok: bool, buf: seq<Sector>)
      requires c.Valid() && sector + n <= |c.Source()|
      ensures ok ==> c.Loaded(Data, buf, sector, n)
    {
      buf := [];
      while |buf| < n
        invariant |buf| <= n && buf == c.Source()[sector..sector + |buf|]
      {
        var more;
        ok, more := ReadNext(sector + |buf|, n - |buf|);
        if !ok {
          return;
        }
        LongerSlice(c.Source(), sector, |buf|, |more|);
        buf := buf + more;
      }
      ok := true;
    }

    /** One round of convert_co_read: at most `left` sectors, from one part. */
    method ReadNext(sector: nat, left: nat) returns (ok: bool, more: seq<Sector>)
      requires 0 < left && sector + left <= |c.Source()|
      ensures ok ==> 0 < |more| <= left && more == c.Source()[sector..sector + |more|]
    {
      var cur, offset := SelectPart(c.parts, sector);
      var n := Min(left, |c.parts[cur]| - (sector - offset));
      ok := *;
      more := c.parts[cur][sector - offset..sector - offset + n];
      SliceOfPart(c.Source(), c.parts[cur], offset, sector, n);
    }

    /** One round of convert_co_write: the cases of its switch.  `n` of the `left` sectors are handled. */
    method WritePiece(sector: nat, buf: seq<Sector>, left: nat, what: BlockStatus)
      returns (ok: bool, n: nat, effect: Effect)
      requires c.Valid() && 0 < left && sector + left <= |target|
      requires c.Right(what, sector, sector + left) && (what.Data? ==> |buf| == left)
      modifies `target
      ensures c.MayHandle(what, buf, left, n, effect)
      ensures target == if ok then c.Apply(old(target), sector, buf, n, effect) else old(target)
    {
      match what
      case BackingFile =>
        assert c.targetHasBacking;
        ok, n, effect := true, left, LeftAlone;
      case Zero =>
        n := left;
        ok, effect := WriteZeroes(sector, n);
      case Data =>
        var used := true;
        n := left;
        if c.minSparse != 0 {
          used, n := DetectZeroes(sector, buf);
        }
        if used {
          effect := Copied;
          ok := *;
          if ok {
            target := target[..sector] + buf[..n] + target[sector + n..];
          }
        } else {
          ok, effect := WriteZeroes(sector, n);
        }
    }

    /** Compressed clusters are written as a whole or not at all. */
    method DetectZeroes(sector: nat, buf: seq<Sector>) returns (used: bool, n: nat)
      requires c.Valid() && buf != []
      ensures 0 < n <= |buf| && (!used ==> ZeroPrefix(buf, n)) && (c.compressed ==> n == |buf|)
      ensures buf[0] != 0 ==> used
    {
      if c.compressed {
        used, n := RunLength(buf, true) < |buf|, |buf|;
      } else {
        used, n := IsAllocatedSectorsMin(buf, c.minSparse, sector, c.alignment);
      }
    }

    /** The case BLK_ZERO of convert_co_write: nothing is written where the target is known to be zero. */
    method WriteZeroes(sector: nat, n: nat) returns (ok: bool, effect: Effect)
      requires c.Valid() && sector + n <= |target|
      modifies `target
      ensures effect == c.ZeroEffect()
      ensures target == if ok then c.Apply(old(target), sector, [], n, effect) else old(target)
    {
      if c.hasZeroInit {
        assert !c.targetHasBacking;
        return true, LeftAlone;
      }
      ok, effect := *, Zeroed;
      if ok {
        target := target[..sector] + seq(n, _ => 0) + target[sector + n..];
      }
    }

    /** convert_co_write: on success the range of the target reads as the source. */
    method Write(sector: nat, buf: seq<Sector>, n: nat, what: BlockStatus) returns (ok: bool)
      requires c.Valid() && sector + n <= |c.Source()| == |target|
      requires c.Right(what, sector, sector + n) && c.Loaded(what, buf, sector, n)
      requires target[sector..sector + n] == c.initial[sector..sector + n]
      modifies `target
      ensures ok ==> target == Splice(old(target), c.Source(), sector, n)
      ensures |target| == |old(target)|
      ensures target[..sector] == old(target)[..sector] && target[sector + n..] == old(target)[sector + n..]
    {
      var done := 0;
      while done < n
        invariant done <= n && |target| == |c.Source()|
        invariant target == Splice(old(target), c.Source(), sector, done)
      {
        SpliceOutside(old(target), c.Source(), sector, n, done);
        var k;
        ok, k := WriteNext(old(target), sector, buf, n, done, what);
        if !ok {
          return;
        }
        done := done + k;
      }
      SpliceOutside(old(target), c.Source(), sector, n, n);
      ok := true;
    }

    /** The loop of convert_co_write goes on after `done` sectors; `start` is the target before the first. */
    method WriteNext(ghost start: seq<Sector>, sector: nat, buf: seq<Sector>, n: nat, done: nat, what: BlockStatus)
      returns (ok: bool, k: nat)
      requires c.Valid() && done < n && sector + n <= |c.Source()| == |start|
      requires target == Splice(start, c.Source(), sector, done)
      requires c.Right(what, sector, sector + n) && c.Loaded(what, buf, sector, n)
      requires start[sector..sector + n] == c.initial[sector..sector + n]
      modifies `target
      ensures 0 < k <= n - done
      ensures ok ==> target == Splice(start, c.Source(), sector, done + k)
      ensures !ok ==> target == old(target)
    {
      var rest := c.Rest(what, buf, done);
      c.RestRight(what, buf, sector, n, done);
      StillInitial(start, c.initial, c.Source(), sector, n, done);
      var effect;
      ok, k, effect := WritePiece(sector + done, rest, n - done, what);
      PieceSplices(c, start, old(target), sector, n, done, what, rest, k, effect);
    }

    /** The rest of a round of convert_co_do_copy, once the range and its status are chosen. */
    method CopyRange(sector: nat, n: nat, what: BlockStatus) returns (ok: bool)
      requires c.Valid() && sector + n <= |c.Source()| == |target|
      requires c.Right(what, sector, sector + n)
      requires target[sector..sector + n] == c.initial[sector..sector + n]
      modifies `target
      ensures ok ==> target == Splice(old(target), c.Source(), sector, n)
    {
      var buf, how := [], what;
      if what.Data? {
        ok, buf := Read(sector, n);
        if !ok {
          return;
        }
      } else if c.minSparse == 0 && what.Zero? {
        how := Data;
        buf := seq(n, _ => 0);
        ZeroBuffer(c.Source(), sector, n);
      }
      ok := Write(sector, buf, n, how);
    }

    /** convert_do_copy with one coroutine: on success the target reads as the sources in a row. */
    method CopyAll() returns (ok: bool)
      requires CacheOk(0) && target == c.initial
      modifies `target, `status, `sectorNextStatus
      ensures ok ==> target == c.Source()
    {
      var sector := 0;
      SpliceEnds(c.initial, c.Source());
      while sector < |c.Source()|
        invariant CacheOk(sector) && CopiedTo(sector)
      {
        var n;
        ok, n := Round(sector);
        if !ok {
          return;
        }
        sector := sector + n;
      }
      ok := true;
    }

    /** The target reads as the source below `sector` and as at the beginning from there on. */
    predicate CopiedTo(sector: nat)
      reads this
    {
      sector <= |c.Source()| == |c.initial| && target == Splice(c.initial, c.Source(), 0, sector)
    }

    /** A round of convert_co_do_copy. */
    method Round(sector: nat) returns (ok: bool, n: nat)
      requires CacheOk(sector) && CopiedTo(sector) && sector < |c.Source()|
      modifies `target, `status, `sectorNextStatus
      ensures ok ==> 0 < n && CacheOk(sector + n) && CopiedTo(sector + n)
    {
      ok, n := Choose(sector);
      if !ok {
        return;
      }
      StillInitial(c.initial, c.initial, c.Source(), 0, sector + n, sector);
      SpliceTwice(c.initial, c.Source(), 0, sector, n);
      ok := CopyRange(sector, n, status);
    }

    /** The range that a round of convert_co_do_copy takes, chosen under the lock. */
    method Choose(sector: nat) returns (ok: bool, n: nat)
      requires CacheOk(sector) && sector < |c.Source()|
      modifies `status, `sectorNextStatus
      ensures ok ==> c.Chosen(status, sectorNextStatus, sector, n)
    {
      ok, n := IterationSectors(sector);
      if ok && c.minSparse == 0 && status.Zero? {
        n := Min(n, c.bufSectors);
      }
    }
  }

  /** A piece handled after `done` sectors copies on. */
  lemma PieceSplices(c: Settings, start: seq<Sector>, target: seq<Sector>, sector: nat, n: nat, done: nat,
                     what: BlockStatus, rest: seq<Sector>, k: nat, effect: Effect)
    requires c.Valid() && done < n && sector + n <= |c.Source()| == |start|
    requires target == Splice(start, c.Source(), sector, done)
    requires c.Right(what, sector + done, sector + n) && c.Loaded(what, rest, sector + done, n - done)
    requires c.MayHandle(what, rest, n - done, k, effect)
    requires forall x :: sector + done <= x < sector + n ==> target[x] == c.initial[x]
    ensures c.Apply(target, sector + done, rest, k, effect) == Splice(start, c.Source(), sector, done + k)
  {
    c.HandledRight(what, rest, sector + done, n - done, k, effect, target);
    SpliceTwice(start, c.Source(), sector, done, k);
  }

  lemma ZeroBuffer(source: seq<Sector>, pos: nat, n: nat)
    requires pos + n <= |source| && forall x :: pos <= x < pos + n ==> source[x] == 0
    ensures seq(n, _ => 0) == source[pos..pos + n]
  {
  }

  lemma LongerSlice(s: seq<Sector>, pos: nat, a: nat, b: nat)
    requires pos + a + b <= |s|
    ensures s[pos..pos + a] + s[pos + a..pos + a + b] == s[pos..pos + a + b]
  {
  }

  /** A part of the source that begins at `offset` holds its slice of the source. */
  lemma SliceOfPart(source: seq<Sector>, part: seq<Sector>, offset: nat, pos: nat, n: nat)
    requires offset + |part| <= |source| && forall i :: 0 <= i < |part| ==> source[offset + i] == part[i]
    requires offset <= pos && pos + n <= offset + |part|
    ensures part[pos - offset..pos - offset + n] == source[pos..pos + n]
  {
    var a, b := part[pos - offset..pos - offset + n], source[pos..pos + n];
    forall i | 0 <= i < n ensures a[i] == b[i] {
      assert source[offset + (pos - offset + i)] == part[pos - offset + i];
    }
  }

  lemma StillInitial(target: seq<Sector>, initial: seq<Sector>, source: seq<Sector>, pos: nat, n: nat, done: nat)
    requires pos + n <= |target| == |source| == |initial| && done <= n
    requires target[pos..pos + n] == initial[pos..pos + n]
    ensures Splice(target, source, pos, done)[pos + done..pos + n] == initial[pos + done..pos + n]
    ensures forall x :: pos + done <= x < pos + n ==> Splice(target, source, pos, done)[x] == initial[x]
  {
    assert target[pos..pos + n][done..] == target[pos + done..pos + n];
    assert initial[pos..pos + n][done..] == initial[pos + done..pos + n];
    var a, b := target[pos + done..pos + n], initial[pos + done..pos + n];
    forall x | pos + done <= x < pos + n ensures Splice(target, source, pos, done)[x] == initial[x] {
      assert a[x - pos - done] == b[x - pos - done];
    }
  }

  lemma SpliceOutside(target: seq<Sector>, source: seq<Sector>, pos: nat, n: nat, k: nat)
    requires pos + n <= |target| == |source| && k <= n
    ensures var s := Splice(target, source, pos, k);
      |s| == |target| && s[..pos] == target[..pos] && s[pos + n..] == target[pos + n..]
  {
  }

  lemma SpliceEnds(target: seq<Sector>, source: seq<Sector>)
    requires |target| == |source|
    ensures Splice(target, source, 0, 0) == target && Splice(target, source, 0, |source|) == source
  {
  }

  lemma SpliceTwice(target: seq<Sector>, source: seq<Sector>, pos: nat, a: nat, b: nat)
    requires pos + a + b <= |target| == |source|
    ensures Splice(Splice(target, source, pos, a), source, pos + a, b) == Splice(target, source, pos, a + b)
  {
  }
}
