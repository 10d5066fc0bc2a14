/**
 * The cursor of the removal list: A moves forward and B backward over the
 * occupiedCount entries, wrapping around at both ends.
 */
module Cursor {

  /** Key A: (i + 1) mod count. */
  function Next(i: int, count: int): (j: int)
    requires 0 <= i < count
    ensures 0 <= j < count
    ensures j == if i + 1 < count then i + 1 else 0
  {
    (i + 1) % count
  }

  /** Key B: (i - 1 + count) mod count. */
  function Prev(i: int, count: int): (j: int)
    requires 0 <= i < count
    ensures 0 <= j < count
    ensures j == if i == 0 then count - 1 else i - 1
  {
    (i - 1 + count) % count
  }

  /** B after A, and A after B, leave the cursor where it was. */
  lemma PrevUndoesNext(i: int, count: int)
    requires 0 <= i < count
    ensures Prev(Next(i, count), count) == i
    ensures Next(Prev(i, count), count) == i
  {
  }

  /** The cursor after k presses of A. */
  function Advance(i: int, count: int, k: nat): (j: int)
    requires 0 <= i < count
    ensures 0 <= j < count
  {
    if k == 0 then i else Next(Advance(i, count, k - 1), count)
  }

  /** Within one lap, k presses of A move the cursor k places, wrapping once. */
  lemma {:induction false} AdvanceWithinLap(i: int, count: int, k: nat)
    requires 0 <= i < count && k <= count
    ensures Advance(i, count, k) == if i + k < count then i + k else i + k - count
  {
    if k > 0 {
      AdvanceWithinLap(i, count, k - 1);
    }
  }

  /** count presses of A bring the cursor back to where it started. */
  lemma FullLapReturns(i: int, count: int)
    requires 0 <= i < count
    ensures Advance(i, count, count) == i
  {
    AdvanceWithinLap(i, count, count);
  }
}
