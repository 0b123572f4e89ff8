/** The home page's hero carousel: the index of the slide shown, moved by
    the previous and next buttons, the dots and the autoplay timer. The
    timer itself is left out; it calls `nextSlide` only with autoplay on and
    more than one image, which `NextSlide`'s precondition covers. */
module HeroCarousel {
  import opened Common

  /** JavaScript's `%`: the remainder takes the sign of the dividend. */
  function JsRem(a: int, n: int): (r: int)
    requires n > 0
    ensures a >= 0 ==> 0 <= r < n && r == a % n
    ensures a < 0 ==> -n < r <= 0
  {
    if a >= 0 then a % n else -((-a) % n)
  }

  /** `nextSlide`'s update. */
  function Next(i: int, n: int): int
    requires n > 0
  {
    JsRem(i + 1, n)
  }

  /** `prevSlide`'s update. */
  function Prev(i: int, n: int): int
    requires n > 0
  {
    JsRem(i - 1 + n, n)
  }

  /** From any shown slide both moves land on a slide: next wraps from the
      last slide to the first, previous from the first to the last. */
  lemma NextPrevStep(i: int, n: int)
    requires 0 <= i < n
    ensures Next(i, n) == (if i == n - 1 then 0 else i + 1)
    ensures Prev(i, n) == (if i == 0 then n - 1 else i - 1)
  {
    if i == n - 1 {
      DivModUnique(i + 1, n, 1, 0);
    } else {
      DivModUnique(i + 1, n, 0, i + 1);
    }
    if i == 0 {
      DivModUnique(i - 1 + n, n, 0, n - 1);
    } else {
      DivModUnique(i - 1 + n, n, 1, i - 1);
    }
  }

  /** The two moves undo each other. */
  lemma NextPrevInverse(i: int, n: int)
    requires 0 <= i < n
    ensures 0 <= Next(i, n) < n && 0 <= Prev(i, n) < n
    ensures Prev(Next(i, n), n) == i && Next(Prev(i, n), n) == i
  {
    NextPrevStep(i, n);
    NextPrevStep(Next(i, n), n);
    NextPrevStep(Prev(i, n), n);
  }

  /** `k` presses of next from slide `i` show slide `(i + k) mod n`. */
  function NextTimes(i: int, n: int, k: nat): int
    requires n > 0
  {
    if k == 0 then i else Next(NextTimes(i, n, k - 1), n)
  }

  lemma {:induction false} NextTimesWraps(i: int, n: int, k: nat)
    requires 0 <= i < n
    ensures NextTimes(i, n, k) == (i + k) % n
  {
    if k == 0 {
      DivModUnique(i, n, 0, i);
    } else {
      NextTimesWraps(i, n, k - 1);
      var j := NextTimes(i, n, k - 1);
      NextPrevStep(j, n);
      ModSucc(i + k - 1, n);
    }
  }

  /** The remainder of a successor steps with it and wraps at `n`. */
  lemma ModSucc(m: int, n: int)
    requires n > 0
    ensures (m + 1) % n == if m % n == n - 1 then 0 else m % n + 1
  {
    var q := m / n;
    var r := m % n;
    assert m == q * n + r;
    if r == n - 1 {
      assert m + 1 == (q + 1) * n + 0;
      DivModUnique(m + 1, n, q + 1, 0);
    } else {
      DivModUnique(m + 1, n, q, r + 1);
    }
  }

  /** What a slide's position class says about it. */
  datatype Offset = Shown | Left | Right

  function SlideOffset(index: int, currentIndex: int): (r: Offset)
    ensures r == Shown <==> index == currentIndex
  {
    if index == currentIndex then Shown else if index < currentIndex then Left else Right
  }

  /** The slides drawn in place, out of `n`. */
  function InPlace(n: nat, currentIndex: int): set<int>
  {
    set index | 0 <= index < n && SlideOffset(index, currentIndex) == Shown
  }

  /** For an index the carousel can hold, no slide is in place when there
      are no images; otherwise exactly the current slide is, the earlier
      ones sit to its left and the later ones to its right. */
  lemma ExactlyOneShown(images: seq<string>, currentIndex: int)
    requires 0 <= currentIndex && (currentIndex < |images| || currentIndex == 0)
    ensures |images| == 0 ==> InPlace(|images|, currentIndex) == {}
    ensures |images| > 0 ==> currentIndex < |images| && InPlace(|images|, currentIndex) == {currentIndex}
    ensures forall index :: 0 <= index < |images| ==>
      && (SlideOffset(index, currentIndex) == Left <==> index < currentIndex)
      && (SlideOffset(index, currentIndex) == Right <==> index > currentIndex)
  {
  }

  /** The carousel's state. */
  class HeroCarousel {
    const images: seq<string>
    const autoPlay: bool
    var currentIndex: int

    ghost predicate Valid()
      reads this
    {
      0 <= currentIndex && (currentIndex < |images| || currentIndex == 0)
    }

    constructor(images: seq<string>, autoPlay: bool)
      ensures Valid() && this.images == images && this.autoPlay == autoPlay && currentIndex == 0
    {
      this.images := images;
      this.autoPlay := autoPlay;
      currentIndex := 0;
    }

    /** Whether the placeholder shows instead of the slides. */
    predicate ShowsPlaceholder()
      reads this
    {
      |images| == 0
    }

    /** Either the placeholder shows and no slide is in place, or exactly
        the current slide is. */
    lemma PlaceholderOrOneSlide()
      requires Valid()
      ensures ShowsPlaceholder() <==> InPlace(|images|, currentIndex) == {}
      ensures !ShowsPlaceholder() ==> InPlace(|images|, currentIndex) == {currentIndex}
    {
      ExactlyOneShown(images, currentIndex);
    }

    /** `nextSlide`, reachable through the button or the timer, both of
        which exist only with more than one image. */
    method NextSlide()
      requires Valid() && |images| > 1
      modifies this
      ensures Valid() && currentIndex == Next(old(currentIndex), |images|)
    {
      currentIndex := JsRem(currentIndex + 1, |images|);
    }

    /** `prevSlide`, reachable through its button. */
    method PrevSlide()
      requires Valid() && |images| > 1
      modifies this
      ensures Valid() && currentIndex == Prev(old(currentIndex), |images|)
    {
      currentIndex := JsRem(currentIndex - 1 + |images|, |images|);
    }

    /** `goToSlide`, reachable through the dot of slide `index`. */
    method GoToSlide(index: int)
      requires Valid() && 0 <= index < |images|
      modifies this
      ensures Valid() && currentIndex == index
    {
      currentIndex := index;
    }
  }
}
