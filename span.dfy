/**
 * `Span<T>` and `ReadOnlySpan<T>`: views over storage they do not own.
 * A read-only view is a window (offset, length) over a backing sequence;
 * taking a view or a slice copies nothing, and the backing storage is the
 * same value for as long as the view is used. A writable buffer is an
 * `array`, written through.
 */
module Span {

  datatype ReadOnlySpan<T> = ReadOnlySpan(backing: seq<T>, offset: nat, length: nat) {

    /** The window lies within the backing storage. */
    predicate Valid() {
      offset + length <= |backing|
    }

    /** The elements seen through the view: `ToArray()`, or `ToString()` for chars. */
    function Elements(): (r: seq<T>)
      requires Valid()
      ensures |r| == length
    {
      backing[offset..offset + length]
    }

    /** `span[i]`. */
    function At(i: int): (r: T)
      requires Valid() && 0 <= i < length
      ensures r == Elements()[i]
    {
      backing[offset + i]
    }

    /**
     * `Slice(start, count)`: a narrower view over the same storage. .NET
     * throws ArgumentOutOfRangeException unless the range lies within the
     * view; that check is the precondition.
     */
    function Slice(start: int, count: int): (r: ReadOnlySpan<T>)
      requires Valid() && 0 <= start && 0 <= count && start + count <= length
      ensures r.Valid() && r.backing == backing
      ensures r.Elements() == Elements()[start..start + count]
    {
      SliceOfSlice(backing, offset, offset + length, start, start + count);
      ReadOnlySpan(backing, offset + start, count)
    }
  }

  /** A window of a window is a window of the storage, with the offsets added. */
  lemma SliceOfSlice<T>(s: seq<T>, lo: nat, hi: nat, start: nat, end: nat)
    requires lo <= hi <= |s| && start <= end <= hi - lo
    ensures s[lo..hi][start..end] == s[lo + start..lo + end]
  {
    forall i | 0 <= i < end - start
      ensures s[lo..hi][start..end][i] == s[lo + start..lo + end][i]
    {
      assert s[lo..hi][start..end][i] == s[lo..hi][start + i] == s[lo + start + i];
    }
  }

  /** `AsSpan()` / `CollectionsMarshal.AsSpan(list)`: a view of the whole storage. */
  function AsSpan<T>(s: seq<T>): (r: ReadOnlySpan<T>)
    ensures r.Valid() && r.backing == s && r.Elements() == s
  {
    ReadOnlySpan(s, 0, |s|)
  }

  /**
   * `source.CopyTo(destination.Slice(at))`: `Slice` throws unless `at` lies
   * within the buffer, and `CopyTo` throws when the rest of the buffer is
   * shorter than the source; both checks are preconditions. Only the
   * positions from `at` to `at + |source|` change.
   */
  method CopyTo<T>(source: seq<T>, destination: array<T>, at: int)
    requires 0 <= at <= destination.Length
    requires |source| <= destination.Length - at
    modifies destination
    ensures destination[..] == old(destination[..at]) + source + old(destination[at + |source|..])
    ensures destination[..at + |source|] == old(destination[..at]) + source
  {
    forall i | 0 <= i < |source| {
      destination[at + i] := source[i];
    }
    assert destination[..] == old(destination[..at]) + source + old(destination[at + |source|..]) by {
      var expected := old(destination[..at]) + source + old(destination[at + |source|..]);
      assert |expected| == destination.Length;
      forall k | 0 <= k < destination.Length
        ensures destination[k] == expected[k]
      {
        if k < at {
        } else if k < at + |source| {
          assert destination[at + (k - at)] == source[k - at];
        }
      }
    }
    assert destination[..at + |source|] == destination[..][..at + |source|];
  }
}
