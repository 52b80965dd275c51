/**
  What a conversion by qemu-img (qemu/qemu-img.c) is given, what it may be told about
  the source, and what it may do to the target.
*/
module ConvertSettings {

  type Sector = nat

  predicate ZeroPrefix(buf: seq<Sector>, n: nat) {
    n <= |buf| && forall i :: 0 <= i < n ==> buf[i] == 0
  }

  /** Several source images in a row. */
  function Concat(parts: seq<seq<Sector>>): seq<Sector> {
    if parts == [] then [] else parts[0] + Concat(parts[1..])
  }

  /** `target` with the sectors from `pos` to `pos + k` as in `source`. */
  function Splice(target: seq<Sector>, source: seq<Sector>, pos: nat, k: nat): seq<Sector>
    requires pos + k <= |target| == |source|
  {
    target[..pos] + source[pos..pos + k] + target[pos + k..]
  }

  /** enum ImgConvertBlockStatus */
  datatype BlockStatus = Data | Zero | BackingFile

  /** What bdrv_block_status_above says of a range; `Unallocated` is neither data nor zero. */
  datatype Allocation = IsData | IsZero | Unallocated

  /** What convert_co_write does to sectors of the target. */
  datatype Effect = LeftAlone | Zeroed | Copied

  datatype Settings = Settings(
    parts: seq<seq<Sector>>,    // what the source images read as
    srcAlignment: seq<nat>,
    initial: seq<Sector>,       // what the target reads as before
    hasZeroInit: bool,
    compressed: bool,
    targetHasBacking: bool,
    targetBackingSectors: int,  // negative if not known
    minSparse: nat,
    alignment: nat,
    clusterSectors: nat,
    bufSectors: nat)
  {
    function Source(): seq<Sector> {
      Concat(parts)
    }

    /**
      Zero initialisation is only used without a backing file.  A new target reads as
      zero beyond the end of its backing file.
    */
    predicate Valid() {
      && |initial| == |Source()| && |srcAlignment| == |parts|
      && (forall i :: 0 <= i < |srcAlignment| ==> srcAlignment[i] > 0)
      && (hasZeroInit ==> !targetHasBacking && forall x :: 0 <= x < |initial| ==> initial[x] == 0)
      && (targetBackingSectors >= 0 ==>
            targetHasBacking && forall x :: targetBackingSectors <= x < |initial| ==> initial[x] == 0)
      && alignment > 0 && bufSectors > 0
      && (compressed ==> clusterSectors == bufSectors)
    }

    /** An honest answer about a range of the source. */
    predicate Honest(a: Allocation, sector: nat, n: nat) {
      && sector + n <= |Source()| == |initial|
      && (a.IsZero? ==> forall x :: sector <= x < sector + n ==> Source()[x] == 0)
      && (a.Unallocated? && targetHasBacking ==> forall x :: sector <= x < sector + n ==> Source()[x] == initial[x])
    }

    /** The status is right for the sectors from `lo` to `hi`. */
    predicate Right(status: BlockStatus, lo: nat, hi: nat) {
      && hi <= |Source()| == |initial|
      && (status.Zero? ==> forall x :: lo <= x < hi ==> Source()[x] == 0)
      && (status.BackingFile? && lo < hi ==> targetHasBacking)
      && (status.BackingFile? ==> forall x :: lo <= x < hi ==> Source()[x] == initial[x])
    }

    /** A status remembered up to `next` is right for what is left of its range. */
    predicate Cached(status: BlockStatus, next: nat, sector: nat) {
      sector < next ==> Right(status, sector, next)
    }

    /** A round may take `n` sectors from `sector` on with this status, and remember it up to `next`. */
    predicate Chosen(status: BlockStatus, next: nat, sector: nat, n: nat) {
      && 0 < n && sector + n <= |Source()|
      && Right(status, sector, sector + n) && Cached(status, next, sector + n)
      && (status.Data? || (minSparse == 0 && status.Zero?) ==> n <= bufSectors)
    }

    /** The buffer holds `n` sectors of the source from `sector` on, if there is data to write. */
    predicate Loaded(status: BlockStatus, buf: seq<Sector>, sector: nat, n: nat) {
      status.Data? ==> sector + n <= |Source()| && buf == Source()[sector..sector + n]
    }

    /** The part of the buffer that is left after `done` sectors. */
    function Rest(status: BlockStatus, buf: seq<Sector>, done: nat): seq<Sector> {
      if status.Data? && done <= |buf| then buf[done..] else []
    }

    lemma RestRight(status: BlockStatus, buf: seq<Sector>, sector: nat, n: nat, done: nat)
      requires done <= n && sector + n <= |Source()| && Right(status, sector, sector + n) && Loaded(status, buf, sector, n)
      ensures Right(status, sector + done, sector + n)
      ensures Loaded(status, Rest(status, buf, done), sector + done, n - done)
      ensures status.Data? ==> |Rest(status, buf, done)| == n - done
    {
      if status.Data? {
        assert buf[done..] == Source()[sector + done..sector + n];
      }
    }

    /** How zeros get to the target. */
    function ZeroEffect(): Effect {
      if hasZeroInit then LeftAlone else Zeroed
    }

    /** The cases of convert_co_write: `n` of `left` sectors are handled together, with `effect`. */
    predicate MayHandle(status: BlockStatus, buf: seq<Sector>, left: nat, n: nat, effect: Effect) {
      && 0 < n <= left
      && match status
         case BackingFile => n == left && effect.LeftAlone?
         case Zero => n == left && effect == ZeroEffect()
         case Data =>
           && |buf| == left
           && (effect.Copied? || (minSparse != 0 && effect == ZeroEffect() && ZeroPrefix(buf, n)))
           && (minSparse == 0 || compressed ==> n == left)
    }

    function Apply(target: seq<Sector>, pos: nat, buf: seq<Sector>, n: nat, effect: Effect): seq<Sector>
      requires pos + n <= |target| && (effect.Copied? ==> n <= |buf|)
    {
      match effect
      case LeftAlone => target
      case Zeroed => target[..pos] + seq(n, _ => 0) + target[pos + n..]
      case Copied => target[..pos] + buf[..n] + target[pos + n..]
    }

    /** Some case always applies. */
    lemma SomeHandling(status: BlockStatus, buf: seq<Sector>, left: nat) returns (effect: Effect)
      requires 0 < left && (status.Data? ==> |buf| == left)
      ensures MayHandle(status, buf, left, left, effect)
    {
      effect := match status
        case BackingFile => LeftAlone
        case Zero => ZeroEffect()
        case Data => Copied;
    }

    /**
      Whatever case applies, sectors that read as at the beginning come to read as the
      source, if the status is right and the buffer loaded.
    */
    lemma HandledRight(status: BlockStatus, buf: seq<Sector>, pos: nat, left: nat, n: nat, effect: Effect, target: seq<Sector>)
      requires Valid() && pos + left <= |Source()| == |target|
      requires Right(status, pos, pos + left) && Loaded(status, buf, pos, left) && MayHandle(status, buf, left, n, effect)
      requires forall x :: pos <= x < pos + n ==> target[x] == initial[x]
      ensures Apply(target, pos, buf, n, effect) == Splice(target, Source(), pos, n)
    {
      var source := Source();
      if status.Data? {
        SliceAt(source, buf, pos, left);
      }
      if effect.LeftAlone? {
        assert forall x :: pos <= x < pos + n ==> source[x] == initial[x];
        assert source[pos..pos + n] == target[pos..pos + n];
      } else if effect.Zeroed? {
        assert forall x :: pos <= x < pos + n ==> source[x] == 0;
        assert seq(n, _ => 0) == source[pos..pos + n];
      } else {
        assert buf[..n] == source[pos..pos + n];
      }
    }
  }

  lemma SliceAt(s: seq<Sector>, slice: seq<Sector>, pos: nat, n: nat)
    requires pos + n <= |s| && slice == s[pos..pos + n]
    ensures forall x :: pos <= x < pos + n ==> s[x] == slice[x - pos]
  {
  }
}
