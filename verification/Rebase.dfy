/**
  The safe rebase of qemu-img (qemu/qemu-img.c, img_rebase): copy into the
  overlay whatever the old and the new backing file disagree on, so that the
  backing file can be switched without changing what the guest reads.
*/
module Rebase {
  import opened Alignment
  import opened ImageBuffers

  /** The two backing files as byte strings; they may be shorter or longer than the overlay. */
  datatype Backings = Backings(oldB: seq<Byte>, newB: seq<Byte>)

  /** Allocation is decided for whole blocks of `a` bytes. */
  predicate BlockUniform(alloc: seq<bool>, a: nat)
    requires a > 0
  {
    forall i, j :: 0 <= i < |alloc| && 0 <= j < |alloc| && i / a == j / a ==> alloc[i] == alloc[j]
  }

  /** The byte the guest reads at `i` when `backing` is behind the overlay. */
  function VisibleAt(data: seq<Byte>, alloc: seq<bool>, backing: seq<Byte>, i: nat): Byte
    requires |data| == |alloc| && i < |alloc|
  {
    if alloc[i] then data[i] else Ext(backing, i)
  }

  function Visible(data: seq<Byte>, alloc: seq<bool>, backing: seq<Byte>): seq<Byte>
    requires |data| == |alloc|
  {
    seq(|data|, (i: nat) requires i < |data| => VisibleAt(data, alloc, backing, i))
  }

  /** The overlay reads the same over either backing file below `n`. */
  predicate Settled(data: seq<Byte>, alloc: seq<bool>, b: Backings, n: nat)
    requires |data| == |alloc|
  {
    forall i :: 0 <= i < n && i < |alloc| ==> alloc[i] || Ext(b.oldB, i) == Ext(b.newB, i)
  }

  /**
    How questions about the allocation are answered: question number `k` fails, or its
    answer covers no more than `most(k)` bytes.  Any honest answers are some such answers.
  */
  datatype Answers = Answers(fails: nat -> bool, most: nat -> nat) {
    /** The answer to question `k` can cover `n` bytes of one status. */
    predicate Covers(k: nat, n: nat) {
      !fails(k) && (n <= 1 || n <= most(k))
    }

    ghost predicate Reliable() {
      forall k: nat, n: nat :: n <= IO_BUF_SIZE ==> Covers(k, n)
    }
  }

  /** The overlay image, with its allocation map. */
  class Overlay {
    var data: seq<Byte>
    var alloc: seq<bool>
    var questions: nat     // how many there have been about the allocation
    const writeAlign: nat
    const answers: Answers
    const mayFail: bool    // reads, writes and questions about the layers below can fail

    ghost predicate Valid()
      reads this
    {
      |data| == |alloc| && writeAlign > 0 && BlockUniform(alloc, writeAlign)
    }

    constructor (bytes: seq<Byte>, bits: seq<bool>, align: nat, oracle: Answers, unsafe: bool)
      requires |bytes| == |bits| && align > 0 && BlockUniform(bits, align)
      ensures Valid() && data == bytes && alloc == bits && writeAlign == align
      ensures answers == oracle && mayFail == unsafe
    {
      data, alloc, writeAlign, answers, mayFail, questions := bytes, bits, align, oracle, unsafe, 0;
    }

    /** bdrv_is_allocated: a nonempty prefix of one status, as far as the answer goes, or an error. */
    method IsAllocated(offset: nat, n: nat) returns (error: bool, used: bool, pnum: nat)
      requires Valid() && 0 < n && offset + n <= |data|
      modifies `questions
      ensures questions == old(questions) + 1 && (error <==> answers.fails(old(questions)))
      ensures !error ==> 0 < pnum <= n && forall i :: offset <= i < offset + pnum ==> alloc[i] == used
      ensures !error ==> answers.Covers(old(questions), pnum)
      ensures !error && pnum < n ==> alloc[offset + pnum] != used || !answers.Covers(old(questions), pnum + 1)
    {
      error, used, pnum := answers.fails(questions), alloc[offset], 1;
      while !error && pnum < n && alloc[offset + pnum] == used && answers.Covers(questions, pnum + 1)
        invariant 0 < pnum <= n && forall i :: offset <= i < offset + pnum ==> alloc[i] == used
        invariant !error ==> answers.Covers(questions, pnum)
      {
        pnum := pnum + 1;
      }
      questions := questions + 1;
    }

    /** Some other request fails. */
    method Fails() returns (error: bool)
      ensures error ==> mayFail
    {
      error := *;
      error := error && mayFail;
    }

    /**
      blk_pwrite of whole blocks.  A write that fails may have reached any part
      of the range from its start.
    */
    method Write(offset: nat, bytes: seq<Byte>) returns (error: bool)
      requires Valid() && offset + |bytes| <= |data| && offset % writeAlign == 0
      requires |bytes| % writeAlign == 0 || offset + |bytes| == |data|
      modifies `data, `alloc
      ensures |data| == |alloc| == |old(data)| && (error ==> mayFail)
      ensures !error ==> Valid() && Written(old(data), old(alloc), data, alloc, offset, bytes)
      ensures error ==> exists k :: 0 <= k <= |bytes| && Written(old(data), old(alloc), data, alloc, offset, bytes[..k])
    {
      error := Fails();
      var k: nat := |bytes|;
      if error {
        k :| 0 <= k <= |bytes|;
      }
      Splice(offset, bytes[..k]);
      if !error {
        assert bytes[..k] == bytes;
        WholeBlocks(old(alloc), alloc, offset, |bytes|, writeAlign);
      }
    }

    method Splice(offset: nat, bytes: seq<Byte>)
      requires |data| == |alloc| && offset + |bytes| <= |data|
      modifies `data, `alloc
      ensures |data| == |alloc| && Written(old(data), old(alloc), data, alloc, offset, bytes)
    {
      data := data[..offset] + bytes + data[offset + |bytes|..];
      alloc := alloc[..offset] + seq(|bytes|, _ => true) + alloc[offset + |bytes|..];
    }
  }

  /** `bytes` at `offset` is in the image and allocated; nothing else changed. */
  predicate Written(data0: seq<Byte>, alloc0: seq<bool>, data: seq<Byte>, alloc: seq<bool>, offset: nat, bytes: seq<Byte>) {
    && |data| == |data0| == |alloc| == |alloc0| && offset + |bytes| <= |data|
    && (forall i :: 0 <= i < |data| && !(offset <= i < offset + |bytes|) ==> data[i] == data0[i] && alloc[i] == alloc0[i])
    && (forall i :: offset <= i < offset + |bytes| ==> data[i] == bytes[i - offset] && alloc[i])
  }

  /** Writing whole blocks keeps allocation a matter of blocks. */
  lemma WholeBlocks(alloc0: seq<bool>, alloc: seq<bool>, offset: nat, n: nat, a: nat)
    requires a > 0 && BlockUniform(alloc0, a) && |alloc| == |alloc0| && offset + n <= |alloc|
    requires offset % a == 0 && (n % a == 0 || offset + n == |alloc|)
    requires forall i :: 0 <= i < |alloc| ==> alloc[i] == (if offset <= i < offset + n then true else alloc0[i])
    ensures BlockUniform(alloc, a)
  {
    forall i, j | 0 <= i < |alloc| && 0 <= j < |alloc| && i / a == j / a ensures alloc[i] == alloc[j] {
      SameSide(i, j, offset, a);
      if n % a == 0 {
        AlignedSum(offset, n, a);
        SameSide(i, j, offset + n, a);
      }
    }
  }

  /** Writing old-backing bytes into unallocated space changes nothing the guest sees. */
  lemma WriteInvisible(data0: seq<Byte>, alloc0: seq<bool>, data: seq<Byte>, alloc: seq<bool>, offset: nat,
                       bytes: seq<Byte>, b: Backings)
    requires Written(data0, alloc0, data, alloc, offset, bytes)
    requires forall i :: offset <= i < offset + |bytes| ==> !alloc0[i] && bytes[i - offset] == Ext(b.oldB, i)
    ensures Visible(data, alloc, b.oldB) == Visible(data0, alloc0, b.oldB)
    ensures forall n: nat :: Settled(data0, alloc0, b, n) ==> Settled(data, alloc, b, n)
  {
  }

  /** `n` bytes of `backing` from `offset`, filled up with zeroes as the two memsets do. */
  function ReadPadded(backing: seq<Byte>, offset: nat, n: nat): (buf: seq<Byte>)
    ensures |buf| == n && forall i :: 0 <= i < n ==> buf[i] == Ext(backing, offset + i)
  {
    var here := Min(n, Max(0, |backing| - offset));
    (if here == 0 then [] else backing[offset..offset + here]) + seq(n - here, _ => 0)
  }

  /** Nothing in the range is allocated. */
  predicate Free(alloc: seq<bool>, offset: nat, n: nat) {
    offset + n <= |alloc| && forall i :: offset <= i < offset + n ==> !alloc[i]
  }

  /** Stretching a free range to block boundaries keeps it free. */
  lemma StretchedIsFree(alloc: seq<bool>, a: nat, offset: nat, n: nat, start: nat, m: nat)
    requires a > 0 && BlockUniform(alloc, a) && 0 < n && Free(alloc, offset, n)
    requires start == AlignDown(offset, a) && start + m <= |alloc| && start + m <= AlignUp(offset + n, a)
    ensures Free(alloc, start, m)
  {
    forall i | start <= i < start + m ensures !alloc[i] {
      if i < offset {
        assert start < offset;
        InsideBlock(start, offset, a);
        if start < i { InsideBlock(start, i, a); }
        assert alloc[i] == alloc[offset];
      } else if i >= offset + n {
        SameBlockAsLast(offset + n - 1, i, a);
        assert alloc[i] == alloc[offset + n - 1];
      }
    }
  }

  /** Offsets from `last` to the next boundary are in its block. */
  lemma SameBlockAsLast(last: nat, i: nat, a: nat)
    requires a > 0 && last < i < AlignUp(last + 1, a)
    ensures i / a == last / a
  {
    var start := AlignDown(last, a);
    AddBlock(start, a);
    var next := AlignUp(last + 1, a);
    AlignedDifference(next, start, a);
    assert next - start < 2 * a;
    AddBlock(0, a);
    assert next == start + a by {
      if next - start > a { InsideBlock(a, next - start, a); }
      if next - start < a { InsideBlock(0, next - start, a); }
    }
    InsideBlock(start, i, a);
    if start < last { InsideBlock(start, last, a); }
  }

  /** bdrv_is_allocated_above, asked about the layers between the old backing file and a new one in its own chain. */
  method AllocatedAbove(o: Overlay, b: Backings, offset: nat, n: nat) returns (error: bool, used: bool, pnum: nat)
    requires n > 0
    ensures error ==> o.mayFail
    ensures !error && pnum == 0 ==> !used && offset >= |b.oldB|
    ensures !error && !used ==> pnum <= n && forall i :: offset <= i < offset + pnum ==> Ext(b.oldB, i) == Ext(b.newB, i)
    ensures !error && used ==> 0 < pnum <= n
  {
    error := o.Fails();
    if offset >= |b.oldB| {
      return error, false, 0;
    }
    used := *;
    used := used || Ext(b.oldB, offset) != Ext(b.newB, offset);
    assert !used ==> forall i :: offset <= i < offset + 1 ==> Ext(b.oldB, i) == Ext(b.newB, i);
    pnum :| 0 < pnum <= n && (!used ==> forall i :: offset <= i < offset + pnum ==> Ext(b.oldB, i) == Ext(b.newB, i));
  }

  /** What the loops keep: the guest still reads the original, and all below `n` may be switched. */
  ghost predicate RebasedBelow(data: seq<Byte>, alloc: seq<bool>, b: Backings, original: seq<Byte>, n: nat) {
    && |data| == |alloc| == |original|
    && Visible(data, alloc, b.oldB) == original
    && Settled(data, alloc, b, n)
  }

  /** Bytes of the range may have been allocated, and no others. */
  predicate Filled(alloc0: seq<bool>, alloc: seq<bool>, offset: nat, n: nat) {
    && |alloc| == |alloc0|
    && forall i :: 0 <= i < |alloc| && alloc[i] != alloc0[i] ==> alloc[i] && offset <= i < offset + n
  }

  /** One write of the inner loop. */
  method CopyChunk(o: Overlay, b: Backings, offset: nat, bytes: seq<Byte>, ghost original: seq<Byte>, ghost n: nat)
    returns (error: bool)
    requires o.Valid() && RebasedBelow(o.data, o.alloc, b, original, n) && Free(o.alloc, offset, |bytes|)
    requires offset % o.writeAlign == 0 && (|bytes| % o.writeAlign == 0 || offset + |bytes| == |o.data|)
    requires forall i :: 0 <= i < |bytes| ==> bytes[i] == Ext(b.oldB, offset + i)
    modifies o`data, o`alloc
    ensures RebasedBelow(o.data, o.alloc, b, original, n) && Filled(old(o.alloc), o.alloc, offset, |bytes|)
    ensures error ==> o.mayFail
    ensures !error ==> o.Valid() && forall i :: 0 <= i < |o.alloc| ==>
      o.alloc[i] == (if offset <= i < offset + |bytes| then true else old(o.alloc)[i])
  {
    ghost var data0, alloc0 := o.data, o.alloc;
    error := o.Write(offset, bytes);
    if error {
      ghost var k :| 0 <= k <= |bytes| && Written(data0, alloc0, o.data, o.alloc, offset, bytes[..k]);
      WriteInvisible(data0, alloc0, o.data, o.alloc, offset, bytes[..k], b);
    } else {
      WriteInvisible(data0, alloc0, o.data, o.alloc, offset, bytes, b);
    }
  }

  /** The inner loop: compare chunk by chunk and copy where the backing files differ. */
  method CopyDifferences(o: Overlay, b: Backings, offset: nat, n: nat, ghost original: seq<Byte>) returns (error: bool)
    requires o.Valid() && RebasedBelow(o.data, o.alloc, b, original, offset)
    requires 0 < n && Free(o.alloc, offset, n) && offset % o.writeAlign == 0
    requires n % o.writeAlign == 0 || offset + n == |o.data|
    modifies o`data, o`alloc
    ensures |o.data| == |old(o.data)| && RebasedBelow(o.data, o.alloc, b, original, 0)
    ensures Filled(old(o.alloc), o.alloc, offset, n) && (error ==> o.mayFail)
    ensures !error ==> o.Valid() && RebasedBelow(o.data, o.alloc, b, original, offset + n)
  {
    var a := o.writeAlign;
    var bufOld := ReadPadded(b.oldB, offset, n);
    var bufNew := ReadPadded(b.newB, offset, n);
    var eof := offset >= |b.oldB|;
    var written := 0;
    error := o.Fails();             // one of the two reads may fail
    if error {
      return;
    }
    while written < n
      invariant written <= n && (written % a == 0 || written == n)
      invariant o.Valid() && |o.data| == |old(o.data)| && a == o.writeAlign
      invariant RebasedBelow(o.data, o.alloc, b, original, offset + written)
      invariant Free(o.alloc, offset + written, n - written)
      invariant eof ==> offset + written >= |b.oldB|
      invariant Filled(old(o.alloc), o.alloc, offset, n)
    {
      var pnum;
      error, pnum := CopyNext(o, b, offset, n, bufOld, bufNew, written, eof, original);
      if error {
        return;
      }
      written := written + pnum;
      if offset + written >= |b.oldB| {
        eof := true;
      }
    }
  }

  /** One round of the inner loop: the next run of chunks that agree or differ. */
  method CopyNext(o: Overlay, b: Backings, offset: nat, n: nat, bufOld: seq<Byte>, bufNew: seq<Byte>, written: nat,
                  eof: bool, ghost original: seq<Byte>)
    returns (error: bool, pnum: nat)
    requires o.Valid() && RebasedBelow(o.data, o.alloc, b, original, offset + written)
    requires written < n && written % o.writeAlign == 0 && offset % o.writeAlign == 0
    requires n % o.writeAlign == 0 || offset + n == |o.data|
    requires Free(o.alloc, offset + written, n - written) && (eof ==> offset + written >= |b.oldB|)
    requires bufOld == ReadPadded(b.oldB, offset, n) && bufNew == ReadPadded(b.newB, offset, n)
    modifies o`data, o`alloc
    ensures |o.data| == |old(o.data)| && RebasedBelow(o.data, o.alloc, b, original, 0) && (error ==> o.mayFail)
    ensures 0 < pnum && written + pnum <= n && Filled(old(o.alloc), o.alloc, offset + written, pnum)
    ensures !error ==>
      && o.Valid() && ((written + pnum) % o.writeAlign == 0 || written + pnum == n)
      && RebasedBelow(o.data, o.alloc, b, original, offset + written + pnum)
      && Free(o.alloc, offset + written + pnum, n - written - pnum)
  {
    var a := o.writeAlign;
    var differ;
    differ, pnum := CompareBuffers(bufOld[written..], bufNew[written..], a);
    error := false;
    AlignedSum(offset, written, a);
    if pnum % a == 0 { AlignedSum(written, pnum, a); }
    if differ {
      var bytes := if eof then seq(pnum, _ => 0) else bufOld[written..written + pnum];
      ShorterEnd(offset, n, written, pnum, |o.data|, a);
      error := CopyChunk(o, b, offset + written, bytes, original, offset + written);
    } else {
      SameChunk(bufOld, bufNew, b, offset, written, pnum);
    }
  }

  /** A run of chunks ends at a boundary or with the image. */
  lemma ShorterEnd(offset: nat, n: nat, written: nat, pnum: nat, size: nat, a: nat)
    requires a > 0 && offset % a == 0 && written % a == 0 && written + pnum <= n
    requires n % a == 0 || offset + n == size
    requires pnum % a == 0 || written + pnum == n
    ensures pnum % a == 0 || offset + written + pnum == size
  {
    if pnum % a != 0 && n % a == 0 {
      AlignedDifference(n, written, a);
    }
  }

  lemma SameChunk(bufOld: seq<Byte>, bufNew: seq<Byte>, b: Backings, offset: nat, written: nat, pnum: nat)
    requires |bufOld| == |bufNew| && written + pnum <= |bufOld|
    requires forall i :: 0 <= i < |bufOld| ==> bufOld[i] == Ext(b.oldB, offset + i) && bufNew[i] == Ext(b.newB, offset + i)
    requires bufOld[written..][..pnum] == bufNew[written..][..pnum]
    ensures forall i :: offset + written <= i < offset + written + pnum ==> Ext(b.oldB, i) == Ext(b.newB, i)
  {
    forall i | offset + written <= i < offset + written + pnum ensures Ext(b.oldB, i) == Ext(b.newB, i) {
      var k := i - offset - written;
      assert bufOld[written..][..pnum][k] == bufOld[i - offset];
      assert bufNew[written..][..pnum][k] == bufNew[i - offset];
    }
  }

  /** Where the aligned range ends, and that it goes beyond the offset it started from. */
  lemma AlignedRange(offset: nat, n: nat, size: nat, a: nat, start: nat, m: nat)
    requires 0 < n && offset + n <= size && a > 0 && IO_BUF_SIZE % a == 0
    requires start == AlignDown(offset, a)
    requires m == Min(AlignUp(offset + n, a) - start, Min(size - start, IO_BUF_SIZE))
    ensures 0 < m <= IO_BUF_SIZE && start + m <= size && start + m > offset
    ensures m % a == 0 || start + m == size
  {
    AlignedDifference(AlignUp(offset + n, a), start, a);
    assert IO_BUF_SIZE >= a by {
      if IO_BUF_SIZE < a { InsideBlock(0, IO_BUF_SIZE, a); }
    }
  }

  /** The assertion on a stretched range: which question it asked, and about what. */
  datatype Check = Check(question: nat, start: nat, len: nat)

  /** The range is one of whole blocks, none of them allocated, that fits the buffer. */
  predicate Stretched(c: Check, alloc: seq<bool>, a: nat)
    requires a > 0
  {
    && 0 < c.len <= IO_BUF_SIZE && Free(alloc, c.start, c.len)
    && c.start % a == 0 && (c.len % a == 0 || c.start + c.len == |alloc|)
  }

  /** The assertion of img_rebase fails exactly if the answer about the free range fails or does not cover it. */
  method CheckStretched(o: Overlay, start: nat, m: nat) returns (tripped: bool)
    requires o.Valid() && 0 < m && Free(o.alloc, start, m)
    modifies o`questions
    ensures o.questions == old(o.questions) + 1
    ensures tripped <==> !o.answers.Covers(old(o.questions), m)
  {
    var error, used, pnum := o.IsAllocated(start, m);
    assert !error ==> used == o.alloc[start];
    assert !error && pnum < m ==> !o.alloc[start + pnum];
    tripped := !(!error && !used && pnum == m);
  }

  /** One round of the main loop, from the stretching of the range on. */
  method CopyStretched(o: Overlay, b: Backings, offset: nat, n: nat, ghost original: seq<Byte>)
    returns (error: bool, tripped: bool, next: nat, ghost c: Check)
    requires o.Valid() && IO_BUF_SIZE % o.writeAlign == 0 && RebasedBelow(o.data, o.alloc, b, original, offset)
    requires 0 < n && Free(o.alloc, offset, n)
    modifies o
    ensures Stretched(c, old(o.alloc), o.writeAlign)
    ensures c.question == old(o.questions) && o.questions == old(o.questions) + 1
    ensures tripped <==> !o.answers.Covers(c.question, c.len)
    ensures tripped ==> o.alloc == old(o.alloc) && !error
    ensures error ==> o.mayFail
    ensures Filled(old(o.alloc), o.alloc, c.start, c.len) && RebasedBelow(o.data, o.alloc, b, original, 0)
    ensures !error && !tripped ==>
      o.Valid() && offset < next <= |o.data| && RebasedBelow(o.data, o.alloc, b, original, next)
  {
    var start := AlignDown(offset, o.writeAlign);
    var m := Min(AlignUp(offset + n, o.writeAlign) - start, Min(|o.data| - start, IO_BUF_SIZE));
    AlignedRange(offset, n, |o.data|, o.writeAlign, start, m);
    StretchedIsFree(o.alloc, o.writeAlign, offset, n, start, m);
    next, c := start + m, Check(o.questions, start, m);
    error := false;
    tripped := CheckStretched(o, start, m);
    if !tripped {
      error := CopyDifferences(o, b, start, m, original);
    }
  }

  /** The questions of one round that decide whether a range has to be looked at. */
  method FindRange(o: Overlay, b: Backings, prefix: bool, offset: nat) returns (error: bool, skip: bool, n: nat)
    requires o.Valid() && offset < |o.data|
    modifies o`questions
    ensures o.questions == old(o.questions) + 1
    ensures error ==> o.mayFail || o.answers.fails(old(o.questions))
    ensures !error ==> 0 < n && offset + n <= |o.data|
    ensures !error && skip ==> forall i :: offset <= i < offset + n ==> o.alloc[i] || Ext(b.oldB, i) == Ext(b.newB, i)
    ensures !error && !skip ==> Free(o.alloc, offset, n)
  {
    n := Min(IO_BUF_SIZE, |o.data| - offset);
    error, skip, n := o.IsAllocated(offset, n);
    if error || skip || !prefix {
      return;
    }
    var used, below;
    error, used, below := AllocatedAbove(o, b, offset, n);
    skip := !used && below > 0;
    if below > 0 {
      n := below;
    }
  }

  /** The ranges that were checked, and that nothing was copied elsewhere or in spite of the assertion. */
  ghost predicate Recorded(o: Answers, a: nat, alloc0: seq<bool>, alloc: seq<bool>, checks: seq<Check>, first: nat, next: nat)
    requires a > 0
  {
    && |alloc| == |alloc0|
    && (forall i :: 0 <= i < |checks| ==> Stretched(checks[i], alloc0, a) && first <= checks[i].question < next)
    && forall x :: 0 <= x < |alloc| && alloc[x] != alloc0[x] ==> alloc[x] && Passed(o, checks, x)
  }

  /** Byte `x` lies in a range that passed the assertion. */
  ghost predicate Passed(o: Answers, checks: seq<Check>, x: nat) {
    exists i :: 0 <= i < |checks| && checks[i].start <= x < checks[i].start + checks[i].len &&
      o.Covers(checks[i].question, checks[i].len)
  }

  ghost predicate Tripped(o: Answers, checks: seq<Check>) {
    exists i :: 0 <= i < |checks| && !o.Covers(checks[i].question, checks[i].len)
  }

  /** A question of a run failed. */
  ghost predicate SomeFailed(o: Answers, first: nat, next: nat) {
    exists k: nat :: first <= k < next && o.fails(k)
  }

  lemma RecordOne(o: Answers, a: nat, alloc0: seq<bool>, alloc: seq<bool>, alloc': seq<bool>, checks: seq<Check>,
                  first: nat, c: Check)
    requires a > 0 && Recorded(o, a, alloc0, alloc, checks, first, c.question) && !Tripped(o, checks)
    requires first <= c.question && Stretched(c, alloc, a) && Filled(alloc, alloc', c.start, c.len)
    requires !o.Covers(c.question, c.len) ==> alloc' == alloc
    ensures Recorded(o, a, alloc0, alloc', checks + [c], first, c.question + 1)
    ensures Tripped(o, checks + [c]) <==> !o.Covers(c.question, c.len)
  {
    var more := checks + [c];
    assert more[|checks|] == c;
    assert forall i :: 0 <= i < |checks| ==> more[i] == checks[i];
    forall x | 0 <= x < |alloc'| && alloc'[x] != alloc0[x] ensures alloc'[x] && Passed(o, more, x) {
      if alloc[x] != alloc0[x] {
        var i :| 0 <= i < |checks| && checks[i].start <= x < checks[i].start + checks[i].len &&
          o.Covers(checks[i].question, checks[i].len);
        assert more[i] == checks[i];
      }
    }
    if !o.Covers(c.question, c.len) {
      assert !o.Covers(more[|checks|].question, more[|checks|].len);
    }
  }

  /**
    The main loop of img_rebase.  `prefix` tells that the new backing file is in
    the chain of the old one.  However it ends, the guest reads what it read
    before; if it ends well, the new backing file may take the place of the old.
    `tripped` tells that the assertion on a stretched range failed; `checks` are
    the ranges on which it was made, and nothing is copied without it.
  */
  method RebaseLoop(o: Overlay, b: Backings, prefix: bool)
    returns (error: bool, tripped: bool, ghost checks: seq<Check>)
    requires o.Valid() && IO_BUF_SIZE % o.writeAlign == 0
    modifies o
    ensures |o.data| == |o.alloc| == |old(o.data)|
    ensures Visible(o.data, o.alloc, b.oldB) == old(Visible(o.data, o.alloc, b.oldB))
    ensures !error && !tripped ==> Visible(o.data, o.alloc, b.newB) == old(Visible(o.data, o.alloc, b.oldB))
    ensures Recorded(o.answers, o.writeAlign, old(o.alloc), o.alloc, checks, old(o.questions), o.questions)
    ensures tripped <==> Tripped(o.answers, checks)
    ensures o.answers.Reliable() ==> !tripped
    ensures error ==> o.mayFail || SomeFailed(o.answers, old(o.questions), o.questions)
  {
    ghost var original := Visible(o.data, o.alloc, b.oldB);
    var size := |o.data|;
    var offset := 0;
    error, tripped, checks := false, false, [];
    while offset < size
      invariant 0 <= offset <= size == |o.data| && o.Valid() && old(o.questions) <= o.questions
      invariant RebasedBelow(o.data, o.alloc, b, original, offset)
      invariant Recorded(o.answers, o.writeAlign, old(o.alloc), o.alloc, checks, old(o.questions), o.questions)
      invariant !Tripped(o.answers, checks) && !tripped && !error
      decreases size - offset
    {
      var skip, n;
      error, skip, n := FindRange(o, b, prefix, offset);
      if error {
        assert o.mayFail || o.answers.fails(o.questions - 1);
        return;
      }
      if skip {
        offset := offset + n;
        continue;
      }
      ghost var alloc := o.alloc;
      ghost var c;
      error, tripped, offset, c := CopyStretched(o, b, offset, n, original);
      RecordOne(o.answers, o.writeAlign, old(o.alloc), alloc, o.alloc, checks, old(o.questions), c);
      checks := checks + [c];
      if error || tripped {
        return;
      }
    }
    SwitchIsInvisible(o.data, o.alloc, b);
  }

  /**
    The assertion can fail: the answers cover one byte at a time, which is honest, and
    blocks are two bytes long.
  */
  method ShortAnswersTrip() returns (o: Overlay, error: bool, tripped: bool)
    ensures o.writeAlign == 2 && forall k :: !o.answers.fails(k) && o.answers.most(k) == 1
    ensures !o.mayFail && !error && tripped
  {
    o := new Overlay([0, 0], [false, false], 2, Answers(_ => false, _ => 1), false);
    var b := Backings([1], [2]);
    ghost var checks;
    ghost var original := Visible(o.data, o.alloc, b.oldB);
    assert original[0] == 1;
    error, tripped, checks := RebaseLoop(o, b, false);
    assert !Passed(o.answers, checks, 0);
    assert Visible(o.data, o.alloc, b.newB)[0] == 2;
  }

  lemma SwitchIsInvisible(data: seq<Byte>, alloc: seq<bool>, b: Backings)
    requires |data| == |alloc| && Settled(data, alloc, b, |data|)
    ensures Visible(data, alloc, b.newB) == Visible(data, alloc, b.oldB)
  {
  }

  /**
    The rebase with the switch at its end.  `backing` is what the image names as
    its backing file afterwards; whatever failed on the way, the guest reads over
    it what it read before.
  */
  method SafeRebase(o: Overlay, b: Backings, prefix: bool) returns (error: bool, backing: seq<Byte>)
    requires o.Valid() && IO_BUF_SIZE % o.writeAlign == 0
    modifies o
    ensures |o.data| == |o.alloc|
    ensures backing == if error then b.oldB else b.newB
    ensures Visible(o.data, o.alloc, backing) == old(Visible(o.data, o.alloc, b.oldB))
  {
    var tripped;
    ghost var checks;
    error, tripped, checks := RebaseLoop(o, b, prefix);
    if tripped {
      error := true;                // nothing else happens
    }
    if !error {
      error := *;                   // bdrv_change_backing_file may fail
    }
    backing := if error then b.oldB else b.newB;
  }
}
