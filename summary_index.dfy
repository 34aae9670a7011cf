/** The index lookup of getChapterSummary into the cached summary collection:
    the guard as written, which lets out-of-range indices through, and the
    bounds check the lookup needs. */
module SummaryIndex {

  /** What the lookup does: take the element at `index`, index out of range (a Go
      panic), or fall back to the remote. */
  datatype Step = Take(index: int) | Panic(index: int) | Fallback

  /** The guard `len(chapters) >= id-1` followed by `chapters[id-1]`, for a cached
      collection of `count` elements. */
  function AsWritten(count: nat, id: int): Step
  {
    var index := id - 1;
    if count >= index then
      if 0 <= index < count then Take(index) else Panic(index)
    else
      Fallback
  }

  /** The guard as written indexes out of range exactly when `id` is not positive
      or is one past the collection's end. */
  lemma AsWrittenPanics(count: nat, id: int)
    ensures AsWritten(count, id).Panic? <==> id <= 0 || id == count + 1
  {
  }

  /** With no usable cache (the nil slice, length 0) the very first chapter panics. */
  lemma AsWrittenPanicsOnEmptyCache()
    ensures AsWritten(0, 1) == Panic(0)
  {
  }

  /** With a complete cache, id 115 indexes one past the end. */
  lemma AsWrittenPanicsPastFullCache()
    ensures AsWritten(114, 115) == Panic(114)
  {
  }

  /** The lookup with the bounds it needs: take `id-1` only when `1 <= id <= count`. */
  function Corrected(count: nat, id: int): (s: Step)
    ensures !s.Panic?
    ensures s.Take? <==> 1 <= id <= count
    ensures s.Take? ==> 0 <= s.index == id - 1 < count
  {
    if 1 <= id <= count then Take(id - 1) else Fallback
  }

  /** The corrected lookup differs from the written one only where the written one panics. */
  lemma CorrectedAgreesWhereSafe(count: nat, id: int)
    ensures !AsWritten(count, id).Panic? ==> Corrected(count, id) == AsWritten(count, id)
    ensures AsWritten(count, id).Panic? ==> Corrected(count, id) == Fallback
  {
  }
}
