/**
 * The prepared-statement batch the loader writes through: rows are added to a pending
 * buffer (addBatch) and the buffer is submitted as one batch and cleared
 * (executeBatch followed by clearBatch).
 */
module Batching {

  /** The rows of all batches, in submission order. */
  function Flatten<T>(batches: seq<seq<T>>): seq<T>
  {
    if batches == [] then [] else Flatten(batches[..|batches| - 1]) + batches[|batches| - 1]
  }

  lemma FlattenAppend<T>(batches: seq<seq<T>>, b: seq<T>)
    ensures Flatten(batches + [b]) == Flatten(batches) + b
  {
    assert (batches + [b])[..|batches|] == batches;
  }

  /**
   * The state of a loop that adds `rows` one at a time with a running count k and flushes
   * whenever k % size == 0: every submitted batch is full and the pending buffer holds the
   * k % size rows added since the last flush.
   */
  ghost predicate Batched<T>(flushed: seq<seq<T>>, pending: seq<T>, rows: seq<T>, size: int)
  {
    && size >= 1
    && Flatten(flushed) + pending == rows
    && (forall j :: 0 <= j < |flushed| ==> |flushed[j]| == size)
    && |pending| == |rows| % size
  }

  /** After the final, unconditional flush: all rows submitted once, in order, in full batches but the last. */
  ghost predicate FlushedInBatches<T>(flushed: seq<seq<T>>, rows: seq<T>, size: int)
  {
    && Flatten(flushed) == rows
    && |flushed| >= 1
    && (forall j :: 0 <= j < |flushed| - 1 ==> |flushed[j]| == size)
    && |flushed[|flushed| - 1]| < size
  }

  /** Every row submitted exactly once, in order, and no batch larger than `size`. */
  ghost predicate SubmittedBounded<T>(flushed: seq<seq<T>>, rows: seq<T>, size: int)
  {
    && Flatten(flushed) == rows
    && (forall j :: 0 <= j < |flushed| ==> |flushed[j]| <= size)
  }

  /** d * size is a multiple of size that is zero, at least size, or at most -size. */
  lemma MulBound(d: int, size: int)
    requires size >= 1
    ensures d >= 1 ==> d * size >= size
    ensures d <= -1 ==> d * size <= -size
  {
  }

  /** The quotient and remainder of Euclidean division are unique. */
  lemma DivModUnique(n: int, size: int, q: int, r: int)
    requires size >= 1 && 0 <= r < size && n == q * size + r
    ensures n / size == q && n % size == r
  {
    var q', r' := n / size, n % size;
    assert (q' - q) * size == r - r';
    MulBound(q' - q, size);
  }

  lemma ModStep(k: int, size: int)
    requires k >= 0 && size >= 1
    ensures (k + 1) % size == if k % size == size - 1 then 0 else k % size + 1
  {
    var q, r := k / size, k % size;
    if r == size - 1 {
      DivModUnique(k + 1, size, q + 1, 0);
    } else {
      DivModUnique(k + 1, size, q, r + 1);
    }
  }

  /** Adding one row and flushing when the new count is a multiple of `size` keeps Batched. */
  lemma {:induction false} AddStep<T>(flushed: seq<seq<T>>, pending: seq<T>, rows: seq<T>, size: int, row: T)
    requires Batched(flushed, pending, rows, size)
    ensures (|rows| + 1) % size == 0 ==> Batched(flushed + [pending + [row]], [], rows + [row], size)
    ensures (|rows| + 1) % size != 0 ==> Batched(flushed, pending + [row], rows + [row], size)
  {
    ModStep(|rows|, size);
    FlattenAppend(flushed, pending + [row]);
    assert Flatten(flushed) + (pending + [row]) == rows + [row];
  }

  /**
   * The state of a loop that adds a row only on some iterations but tests k % size at every
   * one: a batch is full or, when the count stayed on a multiple of size, empty.
   */
  ghost predicate LooseBatched<T>(flushed: seq<seq<T>>, pending: seq<T>, rows: seq<T>, size: int)
  {
    && size >= 1
    && Flatten(flushed) + pending == rows
    && (forall j :: 0 <= j < |flushed| ==> |flushed[j]| == size || |flushed[j]| == 0)
    && |pending| == |rows| % size
  }

  /**
   * One iteration: `added` (no row or one) is queued, then the batch is submitted when the
   * count k is nonzero and a multiple of size, possibly with nothing in it.
   */
  lemma {:induction false} LooseStep<T>(flushed: seq<seq<T>>, pending: seq<T>, rows: seq<T>, size: int, added: seq<T>)
    requires LooseBatched(flushed, pending, rows, size)
    requires |added| <= 1
    ensures var k := |rows + added|;
      (k != 0 && k % size == 0 ==> LooseBatched(flushed + [pending + added], [], rows + added, size))
      && (!(k != 0 && k % size == 0) ==> LooseBatched(flushed, pending + added, rows + added, size))
  {
    ModStep(|rows|, size);
    FlattenAppend(flushed, pending + added);
    assert Flatten(flushed) + (pending + added) == rows + added;
  }

  /** The final flush of a LooseBatched loop: every row submitted once, in order, no batch too large. */
  lemma {:induction false} LooseFinalFlush<T>(flushed: seq<seq<T>>, pending: seq<T>, rows: seq<T>, size: int)
    requires LooseBatched(flushed, pending, rows, size)
    ensures SubmittedBounded(flushed + [pending], rows, size)
  {
    FlattenAppend(flushed, pending);
  }

  /** The final flush of a Batched loop. */
  lemma {:induction false} FinalFlush<T>(flushed: seq<seq<T>>, pending: seq<T>, rows: seq<T>, size: int)
    requires Batched(flushed, pending, rows, size)
    ensures FlushedInBatches(flushed + [pending], rows, size)
    ensures SubmittedBounded(flushed + [pending], rows, size)
  {
    FlattenAppend(flushed, pending);
  }

  /** A Batched loop has flushed |rows| / size times so far. */
  lemma {:induction false} BatchCount<T>(flushed: seq<seq<T>>, pending: seq<T>, rows: seq<T>, size: int)
    requires Batched(flushed, pending, rows, size)
    ensures |flushed| == |rows| / size
  {
    FlattenLength(flushed, size);
    assert |rows| == |flushed| * size + |rows| % size;
    DivModUnique(|rows|, size, |flushed|, |rows| % size);
  }

  lemma {:induction false} FlattenLength<T>(batches: seq<seq<T>>, size: int)
    requires forall j :: 0 <= j < |batches| ==> |batches[j]| == size
    ensures |Flatten(batches)| == |batches| * size
  {
    if batches != [] {
      var init := batches[..|batches| - 1];
      FlattenLength(init, size);
      assert |Flatten(batches)| == |Flatten(init)| + size;
    }
  }

  /** A prepared statement as far as batching is concerned. */
  class Statement<T> {
    /** Rows added by addBatch since the last executeBatch/clearBatch. */
    var pending: seq<T>
    /** The batches submitted so far, in order. */
    var flushed: seq<seq<T>>

    constructor ()
      ensures pending == [] && flushed == []
    {
      pending := [];
      flushed := [];
    }

    /** addBatch. */
    method AddBatch(row: T)
      modifies this
      ensures pending == old(pending) + [row]
      ensures flushed == old(flushed)
    {
      pending := pending + [row];
    }

    /** executeBatch followed by clearBatch: the pending rows go out as one batch, possibly empty. */
    method Flush()
      modifies this
      ensures flushed == old(flushed) + [old(pending)]
      ensures pending == []
    {
      flushed := flushed + [pending];
      pending := [];
    }
  }
}
