/** The home page carousel: a `current` index over three images, moved by a timer
    tick, the arrow buttons and the indicator dots. */
module Slide {

  const ImageCount: nat := 3

  /** `(prev + 1) % images.length`. */
  function NextIndex(i: int): (r: int)
    ensures 0 <= r < ImageCount
    ensures 0 <= i < ImageCount - 1 ==> r == i + 1
    ensures i == ImageCount - 1 ==> r == 0
  {
    (i + 1) % ImageCount
  }

  /** `(prev - 1 + images.length) % images.length`. */
  function PrevIndex(i: int): (r: int)
    ensures 0 <= r < ImageCount
    ensures 0 < i < ImageCount ==> r == i - 1
    ensures i == 0 ==> r == ImageCount - 1
  {
    (i - 1 + ImageCount) % ImageCount
  }

  /** The arrows undo each other. */
  lemma PrevUndoesNext(i: int)
    requires 0 <= i < ImageCount
    ensures PrevIndex(NextIndex(i)) == i
    ensures NextIndex(PrevIndex(i)) == i
  {
  }

  /** The index after `k` ticks. */
  function Advance(i: int, k: nat): (r: int)
    requires 0 <= i < ImageCount
    ensures 0 <= r < ImageCount
  {
    if k == 0 then i else NextIndex(Advance(i, k - 1))
  }

  /** `k` ticks move the index forward by `k`, wrapping around. */
  lemma {:induction false} AdvanceIsModular(i: int, k: nat)
    requires 0 <= i < ImageCount
    ensures Advance(i, k) == (i + k) % ImageCount
  {
    if k > 0 {
      AdvanceIsModular(i, k - 1);
    }
  }

  /** After as many ticks as there are images the carousel is back where it started. */
  lemma FullCycleReturns(i: int)
    requires 0 <= i < ImageCount
    ensures Advance(i, ImageCount) == i
  {
    AdvanceIsModular(i, ImageCount);
  }

  /** Which slide (and which indicator) gets the active class: `index === current`. */
  function ActiveFlags(current: int, n: nat): (flags: seq<bool>)
    ensures |flags| == n
    ensures forall k | 0 <= k < n :: flags[k] <==> k == current
  {
    seq(n, (k: int) => k == current)
  }

  /** While `current` is in range, exactly one slide is active. */
  lemma ExactlyOneActive(current: int, n: nat)
    requires 0 <= current < n
    ensures var flags := ActiveFlags(current, n);
      flags[current] && forall k | 0 <= k < n && k != current :: !flags[k]
  {
  }

  class Carousel {
    var current: int

    ghost predicate Valid()
      reads this
    {
      0 <= current < ImageCount
    }

    constructor ()
      ensures Valid() && current == 0
    {
      current := 0;
    }

    /** The two-second interval. */
    method Tick()
      requires Valid()
      modifies this
      ensures Valid() && current == NextIndex(old(current))
    {
      current := (current + 1) % ImageCount;
    }

    /** The right arrow. */
    method Next()
      requires Valid()
      modifies this
      ensures Valid() && current == NextIndex(old(current))
    {
      current := (current + 1) % ImageCount;
    }

    /** The left arrow. */
    method Prev()
      requires Valid()
      modifies this
      ensures Valid() && current == PrevIndex(old(current))
    {
      current := (current - 1 + ImageCount) % ImageCount;
    }

    /** An indicator dot: the dots are numbered `0..images.length`. */
    method Jump(index: int)
      requires Valid() && 0 <= index < ImageCount
      modifies this
      ensures Valid() && current == index
    {
      current := index;
    }
  }
}
