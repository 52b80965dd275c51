/**
  qemu-img map in its JSON format (qemu/qemu-img.c): query the block status
  piece by piece and join neighbouring pieces that tell the same.
*/
module MapCoalesce {

  import opened Options

  datatype MapEntry = MapEntry(
    start: nat, length: nat, data: bool, zero: bool, compressed: bool, present: bool, depth: nat,
    hasOffset: bool, offset: nat, filename: Option<string>)

  /** What an entry says of one of its bytes; the host offset advances with the byte. */
  datatype ByteStatus = ByteStatus(
    guest: nat, data: bool, zero: bool, compressed: bool, present: bool, depth: nat,
    host: Option<nat>, filename: Option<string>)

  function StatusOf(e: MapEntry, k: nat): ByteStatus {
    ByteStatus(e.start + k, e.data, e.zero, e.compressed, e.present, e.depth,
               if e.hasOffset then Some(e.offset + k) else None, e.filename)
  }

  function ExpandOne(e: MapEntry): (s: seq<ByteStatus>)
    ensures |s| == e.length && forall k :: 0 <= k < e.length ==> s[k] == StatusOf(e, k)
  {
    seq(e.length, (k: nat) => StatusOf(e, k))
  }

  /** The entries read as one status for each byte. */
  function Expand(entries: seq<MapEntry>): seq<ByteStatus> {
    if entries == [] then [] else Expand(entries[..|entries| - 1]) + ExpandOne(entries[|entries| - 1])
  }

  /** entry_mergeable */
  predicate Mergeable(curr: MapEntry, next: MapEntry) {
    && curr.length != 0
    && curr.zero == next.zero && curr.data == next.data && curr.compressed == next.compressed
    && curr.depth == next.depth && curr.present == next.present
    && curr.filename == next.filename && curr.hasOffset == next.hasOffset
    && (curr.hasOffset ==> curr.offset + curr.length == next.offset)
  }

  /** Merging two adjacent entries is sound exactly when entry_mergeable allows it. */
  lemma MergeMeaning(curr: MapEntry, next: MapEntry)
    requires next.start == curr.start + curr.length && curr.length > 0 && next.length > 0
    ensures Mergeable(curr, next) <==>
      ExpandOne(curr.(length := curr.length + next.length)) == ExpandOne(curr) + ExpandOne(next)
  {
    var merged := ExpandOne(curr.(length := curr.length + next.length));
    var parts := ExpandOne(curr) + ExpandOne(next);
    if merged == parts {
      assert merged[curr.length] == parts[curr.length];
      assert parts[curr.length] == StatusOf(next, 0);
    }
  }

  /** get_block_status as a function of the range asked about; it answers for a prefix, or fails. */
  ghost predicate Answers(query: (nat, nat) -> Option<MapEntry>) {
    forall o: nat, n: nat {:trigger query(o, n)} :: n > 0 && query(o, n).Some? ==>
      query(o, n).value.start == o && 0 < query(o, n).value.length <= n
  }

  /** The answers in the order they are asked for, without any joining. */
  ghost function Queries(query: (nat, nat) -> Option<MapEntry>, offset: nat, end: nat): seq<MapEntry>
    requires Answers(query)
    decreases end - offset
  {
    if offset >= end || query(offset, end - offset).None? then []
    else
      var e := query(offset, end - offset).value;
      [e] + Queries(query, offset + e.length, end)
  }

  /** Entries that follow one another from `from` to `to`, none of them empty. */
  predicate Tiles(entries: seq<MapEntry>, from: nat, to: nat) {
    if entries == [] then from == to
    else
      var last := entries[|entries| - 1];
      last.length > 0 && last.start + last.length == to && Tiles(entries[..|entries| - 1], from, last.start)
  }

  predicate NoneMergeable(entries: seq<MapEntry>) {
    forall i :: 0 <= i < |entries| - 1 ==> !Mergeable(entries[i], entries[i + 1])
  }

  lemma ExpandAppend(entries: seq<MapEntry>, e: MapEntry)
    ensures Expand(entries + [e]) == Expand(entries) + ExpandOne(e)
    ensures forall from: nat, to: nat ::
      Tiles(entries, from, e.start) && e.length > 0 && to == e.start + e.length ==> Tiles(entries + [e], from, to)
  {
    assert (entries + [e])[..|entries|] == entries;
  }

  /** The query at `o` fails. */
  predicate FailsAt(query: (nat, nat) -> Option<MapEntry>, o: nat, end: nat) {
    o < end && query(o, end - o).None?
  }

  /** What holds after the answers `asked`: `out` is emitted and `curr` may still grow. */
  ghost predicate Joined(start: nat, asked: seq<MapEntry>, out: seq<MapEntry>, curr: MapEntry) {
    && Expand(out + [curr]) == Expand(asked)
    && Tiles(out, start, curr.start) && NoneMergeable(out + [curr])
    && (curr.length == 0 ==> curr.start == start && out == [] && asked == [])
  }

  lemma JoinLonger(start: nat, asked: seq<MapEntry>, out: seq<MapEntry>, curr: MapEntry, next: MapEntry)
    requires Joined(start, asked, out, curr) && Mergeable(curr, next)
    requires next.start == curr.start + curr.length && next.length > 0
    ensures Joined(start, asked + [next], out, curr.(length := curr.length + next.length))
  {
    var longer := curr.(length := curr.length + next.length);
    ExpandAppend(asked, next);
    ExpandAppend(out, curr);
    ExpandAppend(out, longer);
    MergeMeaning(curr, next);
    assert Expand(out) + ExpandOne(longer) == Expand(out) + ExpandOne(curr) + ExpandOne(next);
    LongerLast(out, curr, longer);
  }

  lemma JoinNew(start: nat, asked: seq<MapEntry>, out: seq<MapEntry>, curr: MapEntry, next: MapEntry)
    requires Joined(start, asked, out, curr) && !Mergeable(curr, next)
    requires next.start == curr.start + curr.length && next.length > 0
    ensures Joined(start, asked + [next], if curr.length > 0 then out + [curr] else out, next)
  {
    ExpandAppend(asked, next);
    if curr.length > 0 {
      ExpandAppend(out, curr);
      ExpandAppend(out + [curr], next);
      AppendUnmergeable(out + [curr], next);
    } else {
      assert out + [next] == asked + [next];
    }
  }

  lemma QueriesNext(query: (nat, nat) -> Option<MapEntry>, asked: seq<MapEntry>, offset: nat, end: nat)
    requires Answers(query) && offset < end && query(offset, end - offset).Some?
    ensures var next := query(offset, end - offset).value;
      && next.start == offset && 0 < next.length <= end - offset
      && asked + [next] + Queries(query, offset + next.length, end) == asked + Queries(query, offset, end)
  {
  }

  /** The final dump. */
  lemma JoinedEnd(start: nat, asked: seq<MapEntry>, out: seq<MapEntry>, curr: MapEntry)
    requires Joined(start, asked, out, curr)
    ensures Expand(out + [curr]) == Expand(asked) && NoneMergeable(out + [curr])
    ensures curr.length > 0 ==> Tiles(out + [curr], start, curr.start + curr.length)
    ensures curr.length == 0 ==> out == []
  {
    ExpandAppend(out, curr);
  }

  /**
    The loop of img_map with its final dump.  Emitted entries tile the range, say
    of every byte what the single answers say, and cannot be joined any further.
    An empty range makes it emit one empty entry.
  */
  method ImgMap(query: (nat, nat) -> Option<MapEntry>, start: nat, end: nat) returns (failed: bool, out: seq<MapEntry>)
    requires Answers(query)
    ensures !failed && start < end ==>
      && Tiles(out, start, end)
      && Expand(out) == Expand(Queries(query, start, end))
      && NoneMergeable(out)
    ensures !failed && start >= end ==> |out| == 1 && out[0].start == start && out[0].length == 0
    ensures failed ==> exists o :: start <= o && FailsAt(query, o, end)
  {
    out := [];
    var curr := MapEntry(start, 0, false, false, false, false, 0, false, 0, None);
    ghost var asked: seq<MapEntry> := [];
    EmptyJoined(curr);
    while curr.start + curr.length < end
      invariant Mapping(query, start, end, asked, out, curr)
      decreases end - (curr.start + curr.length)
    {
      var offset := curr.start + curr.length;
      var answer := query(offset, end - offset);
      if answer.None? {
        assert FailsAt(query, offset, end);
        return true, out;
      }
      var next := answer.value;
      if Mergeable(curr, next) {
        MapLonger(query, start, end, asked, out, curr, next);
        curr := curr.(length := curr.length + next.length);
      } else {
        MapNew(query, start, end, asked, out, curr, next);
        if curr.length > 0 {
          out := out + [curr];
        }
        curr := next;
      }
      asked := asked + [next];
    }
    JoinedEnd(start, asked, out, curr);
    assert asked + [] == asked;
    out := out + [curr];
    return false, out;
  }

  /** The loop: `asked` are the answers so far, and the rest is still to be asked. */
  ghost predicate Mapping(query: (nat, nat) -> Option<MapEntry>, start: nat, end: nat,
                          asked: seq<MapEntry>, out: seq<MapEntry>, curr: MapEntry)
  {
    && Answers(query)
    && start <= curr.start + curr.length && (start < end ==> curr.start + curr.length <= end)
    && (start >= end ==> curr.start == start && curr.length == 0)
    && Joined(start, asked, out, curr)
    && asked + Queries(query, curr.start + curr.length, end) == Queries(query, start, end)
  }

  lemma MapLonger(query: (nat, nat) -> Option<MapEntry>, start: nat, end: nat,
                  asked: seq<MapEntry>, out: seq<MapEntry>, curr: MapEntry, next: MapEntry)
    requires Mapping(query, start, end, asked, out, curr) && curr.start + curr.length < end
    requires query(curr.start + curr.length, end - (curr.start + curr.length)) == Some(next) && Mergeable(curr, next)
    ensures next.length > 0
    ensures Mapping(query, start, end, asked + [next], out, curr.(length := curr.length + next.length))
  {
    QueriesNext(query, asked, curr.start + curr.length, end);
    JoinLonger(start, asked, out, curr, next);
  }

  lemma MapNew(query: (nat, nat) -> Option<MapEntry>, start: nat, end: nat,
               asked: seq<MapEntry>, out: seq<MapEntry>, curr: MapEntry, next: MapEntry)
    requires Mapping(query, start, end, asked, out, curr) && curr.start + curr.length < end
    requires query(curr.start + curr.length, end - (curr.start + curr.length)) == Some(next) && !Mergeable(curr, next)
    ensures next.length > 0 && next.start == curr.start + curr.length
    ensures Mapping(query, start, end, asked + [next], if curr.length > 0 then out + [curr] else out, next)
  {
    QueriesNext(query, asked, curr.start + curr.length, end);
    JoinNew(start, asked, out, curr, next);
  }

  lemma EmptyJoined(curr: MapEntry)
    requires curr.length == 0
    ensures Joined(curr.start, [], [], curr)
  {
    ExpandAppend([], curr);
    assert [] + [curr] == [curr];
  }

  /** Growing the last entry does not make it joinable with the one before. */
  lemma LongerLast(out: seq<MapEntry>, curr: MapEntry, longer: MapEntry)
    requires NoneMergeable(out + [curr]) && longer == curr.(length := longer.length)
    ensures NoneMergeable(out + [longer])
  {
    forall i | 0 <= i < |out| ensures !Mergeable((out + [longer])[i], (out + [longer])[i + 1]) {
      assert !Mergeable((out + [curr])[i], (out + [curr])[i + 1]);
    }
  }

  lemma AppendUnmergeable(entries: seq<MapEntry>, next: MapEntry)
    requires entries != [] && NoneMergeable(entries) && !Mergeable(entries[|entries| - 1], next)
    ensures NoneMergeable(entries + [next])
  {
    forall i | 0 <= i < |entries| ensures !Mergeable((entries + [next])[i], (entries + [next])[i + 1]) {
      if i < |entries| - 1 { assert !Mergeable(entries[i], entries[i + 1]); }
    }
  }
}
