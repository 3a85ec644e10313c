/**
 * The home-page slide show (src/components/Carousel.jsx): the index of the
 * active slide among five, moved forwards, backwards, or set by an indicator
 * button. The four-second auto-advance timer is left out; each tick is one
 * `NextSlide`.
 */
module Carousel {

  const TotalSlides := 5

  /** JavaScript's `a % b` for `b > 0`: the remainder takes the sign of `a`. */
  function JsRem(a: int, b: int): (r: int)
    requires b > 0
    ensures a >= 0 ==> 0 <= r < b && r == a % b
    ensures a < 0 ==> -b < r <= 0
  {
    if a >= 0 then a % b else -((-a) % b)
  }

  /** `(prev + 1) % totalSlides` */
  function NextIndex(i: int): (r: int)
    ensures InRange(i) ==> InRange(r)
  {
    JsRem(i + 1, TotalSlides)
  }

  /** `(prev - 1 + totalSlides) % totalSlides` */
  function PrevIndex(i: int): (r: int)
    ensures InRange(i) ==> InRange(r)
  {
    JsRem(i - 1 + TotalSlides, TotalSlides)
  }

  predicate InRange(i: int) {
    0 <= i < TotalSlides
  }

  /** From a slide, next goes to the following slide and wraps from the last to the first. */
  lemma NextIndexSpec(i: int)
    requires InRange(i)
    ensures InRange(NextIndex(i))
    ensures NextIndex(i) == if i == TotalSlides - 1 then 0 else i + 1
  {
  }

  /** From a slide, previous goes to the preceding slide and wraps from the first to the last. */
  lemma PrevIndexSpec(i: int)
    requires InRange(i)
    ensures InRange(PrevIndex(i))
    ensures PrevIndex(i) == if i == 0 then TotalSlides - 1 else i - 1
  {
  }

  /** Previous undoes next and next undoes previous. */
  lemma NextPrevInverse(i: int)
    requires InRange(i)
    ensures PrevIndex(NextIndex(i)) == i && NextIndex(PrevIndex(i)) == i
  {
    NextIndexSpec(i);
    PrevIndexSpec(i);
    NextIndexSpec(PrevIndex(i));
    PrevIndexSpec(NextIndex(i));
  }

  /** `n` steps forward. */
  function Advance(i: int, n: nat): int {
    if n == 0 then i else NextIndex(Advance(i, n - 1))
  }

  /** `n` steps forward from a slide land on slide `(i + n) mod 5`; five steps come back. */
  lemma {:induction false} AdvanceSpec(i: int, n: nat)
    requires InRange(i)
    ensures Advance(i, n) == (i + n) % TotalSlides
  {
    if n > 0 {
      AdvanceSpec(i, n - 1);
      NextIndexSpec(Advance(i, n - 1));
    }
  }

  lemma FiveNextsReturn(i: int)
    requires InRange(i)
    ensures Advance(i, TotalSlides) == i
  {
    AdvanceSpec(i, TotalSlides);
    assert (i + TotalSlides) % TotalSlides == i;
  }

  /** Out of range the truncating remainder does not bring the index back: -7 goes to -1. */
  lemma NegativeIndexStaysOut()
    ensures NextIndex(-7) == -1 && PrevIndex(-7) == -3
  {
  }

  class SlideShow {
    var activeSlide: int

    constructor ()
      ensures activeSlide == 0 && InRange(activeSlide)
    {
      activeSlide := 0;
    }

    method NextSlide()
      modifies this
      ensures activeSlide == NextIndex(old(activeSlide))
      ensures InRange(old(activeSlide)) ==> InRange(activeSlide)
    {
      if InRange(activeSlide) {
        NextIndexSpec(activeSlide);
      }
      activeSlide := JsRem(activeSlide + 1, TotalSlides);
    }

    method PrevSlide()
      modifies this
      ensures activeSlide == PrevIndex(old(activeSlide))
      ensures InRange(old(activeSlide)) ==> InRange(activeSlide)
    {
      if InRange(activeSlide) {
        PrevIndexSpec(activeSlide);
      }
      activeSlide := JsRem(activeSlide - 1 + TotalSlides, TotalSlides);
    }

    /** An indicator button: the index is taken as given. */
    method GoToSlide(slideIndex: int)
      modifies this
      ensures activeSlide == slideIndex
    {
      activeSlide := slideIndex;
    }
  }
}
