/**
 * The wrap-around index rule that both image browsers use: `(i + 1) % n` forward and
 * `(i - 1 + n) % n` back. Indices are naturals, so JavaScript's truncating `%` and
 * Dafny's Euclidean `%` agree on every operand that occurs.
 */
module Carousel {

  /** The keys the overlays' `keydown` listeners react to; every other key is `OtherKey`. */
  datatype Key = Escape | ArrowRight | ArrowLeft | OtherKey

  /** `goNext` / `nextImage`: one step forward, wrapping from the last image to the first. */
  function NextIndex(i: nat, n: nat): (r: nat)
    requires n > 0
    ensures r < n
    ensures i < n ==> r == (if i == n - 1 then 0 else i + 1)
  {
    (i + 1) % n
  }

  /** `goPrev` / `prevImage`: one step back, wrapping from the first image to the last. */
  function PrevIndex(i: nat, n: nat): (r: nat)
    requires n > 0
    ensures r < n
    ensures i < n ==> r == (if i == 0 then n - 1 else i - 1)
  {
    (i - 1 + n) % n
  }

  /** `k` forward steps from `i`. */
  function NextSteps(i: nat, k: nat, n: nat): (r: nat)
    requires n > 0
  {
    if k == 0 then i else NextIndex(NextSteps(i, k - 1, n), n)
  }

  /** `k` backward steps from `i`. */
  function PrevSteps(i: nat, k: nat, n: nat): (r: nat)
    requires n > 0
    decreases k
  {
    if k == 0 then i else PrevSteps(PrevIndex(i, n), k - 1, n)
  }

  /** A step back undoes a step forward. */
  lemma PrevAfterNext(i: nat, n: nat)
    requires i < n
    ensures PrevIndex(NextIndex(i, n), n) == i
  {
  }

  /** A step forward undoes a step back. */
  lemma NextAfterPrev(i: nat, n: nat)
    requires i < n
    ensures NextIndex(PrevIndex(i, n), n) == i
  {
  }

  /** Forward steps that do not pass the last image simply add. */
  lemma {:induction false} NextStepsNoWrap(i: nat, k: nat, n: nat)
    requires i + k < n
    ensures NextSteps(i, k, n) == i + k
  {
    if k > 0 {
      NextStepsNoWrap(i, k - 1, n);
    }
  }

  /** Forward steps compose: `a` steps and then `b` steps are `a + b` steps. */
  lemma {:induction false} NextStepsAdd(i: nat, a: nat, b: nat, n: nat)
    requires n > 0
    ensures NextSteps(NextSteps(i, a, n), b, n) == NextSteps(i, a + b, n)
  {
    if b > 0 {
      NextStepsAdd(i, a, b - 1, n);
    }
  }

  /** `k` backward steps undo `k` forward steps. */
  lemma {:induction false} PrevStepsUndoNextSteps(i: nat, k: nat, n: nat)
    requires i < n
    ensures PrevSteps(NextSteps(i, k, n), k, n) == i
  {
    if k > 0 {
      var j := NextSteps(i, k - 1, n);
      NextStepsInRange(i, k - 1, n);
      PrevAfterNext(j, n);
      PrevStepsUndoNextSteps(i, k - 1, n);
    }
  }

  /** Forward steps from an index in range stay in range. */
  lemma NextStepsInRange(i: nat, k: nat, n: nat)
    requires i < n
    ensures NextSteps(i, k, n) < n
  {
  }

  /** `n` forward steps through `n` images return to the starting image. */
  lemma NextCycle(i: nat, n: nat)
    requires i < n
    ensures NextSteps(i, n, n) == i
  {
    NextStepsNoWrap(i, n - 1 - i, n);
    NextStepsAdd(i, n - 1 - i, 1, n);
    NextStepsAdd(i, n - i, i, n);
    NextStepsNoWrap(0, i, n);
  }

  /** `n` backward steps through `n` images return to the starting image. */
  lemma PrevCycle(i: nat, n: nat)
    requires i < n
    ensures PrevSteps(i, n, n) == i
  {
    NextCycle(i, n);
    PrevStepsUndoNextSteps(i, n, n);
  }
}
