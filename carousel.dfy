/** The inspiration carousel: one index into a fixed list of five slides,
    moved by the previous and next buttons and by the dots below. */
module Carousel {

  /** One slide of the carousel. */
  datatype Inspiration = Inspiration(image: string, destination: string, caption: string)

  const INSPIRATIONS: seq<Inspiration> := [
    Inspiration("https://images.unsplash.com/photo-1506905925346-21bda4d32df4?w=600&q=80",
      "Norwegian Fjords", "Dramatic landscapes and pristine nature await"),
    Inspiration("https://images.unsplash.com/photo-1533929736458-ca588d08c8be?w=600&q=80",
      "Maldives", "Crystal clear waters and luxury overwater villas"),
    Inspiration("https://images.unsplash.com/photo-1502602898657-3e91760cbb34?w=600&q=80",
      "Paris", "The city of lights and romance"),
    Inspiration("https://images.unsplash.com/photo-1518684079-3c830dcef090?w=600&q=80",
      "Santorini", "Iconic sunsets and whitewashed buildings"),
    Inspiration("https://images.unsplash.com/photo-1540959733332-eab4deabeeaf?w=600&q=80",
      "Tokyo", "Where tradition meets cutting-edge modernity")
  ]

  /** The number of slides (and of dots). */
  const SLIDES: nat := |INSPIRATIONS|

  /** An index the carousel can show. */
  predicate InRange(i: int)
  {
    0 <= i < SLIDES
  }

  /** The next button: one slide on, wrapping from the last to the first.
      The operand is never negative, so Dafny's `%` agrees with JavaScript's. */
  function NextIndex(i: int): (j: int)
    requires InRange(i)
    ensures InRange(j)
    ensures j == if i == SLIDES - 1 then 0 else i + 1
  {
    (i + 1) % SLIDES
  }

  /** The previous button: one slide back, wrapping from the first to the last.
      Adding the slide count first keeps the operand non-negative. */
  function PrevIndex(i: int): (j: int)
    requires InRange(i)
    ensures InRange(j)
    ensures j == if i == 0 then SLIDES - 1 else i - 1
  {
    (i - 1 + SLIDES) % SLIDES
  }

  /** Previous undoes next, and next undoes previous. */
  lemma PrevNextInverse(i: int)
    requires InRange(i)
    ensures PrevIndex(NextIndex(i)) == i
    ensures NextIndex(PrevIndex(i)) == i
  {
  }

  /** Wrap-around at both ends. */
  lemma WrapAround()
    ensures NextIndex(SLIDES - 1) == 0
    ensures PrevIndex(0) == SLIDES - 1
  {
  }

  /** A click on the carousel's controls. A dot carries its own position,
      which the dots, one per slide, keep in range. */
  datatype Click = Next | Prev | Dot(idx: int)

  predicate ValidClick(c: Click)
  {
    c.Dot? ==> InRange(c.idx)
  }

  /** The index after one click. */
  function Step(i: int, c: Click): int
    requires InRange(i) && ValidClick(c)
  {
    match c
    case Next => NextIndex(i)
    case Prev => PrevIndex(i)
    case Dot(idx) => idx
  }

  /** The index after a run of clicks, starting from `i`. */
  function Run(i: int, clicks: seq<Click>): int
    requires InRange(i)
    requires forall k :: 0 <= k < |clicks| ==> ValidClick(clicks[k])
    decreases |clicks|
  {
    if clicks == [] then i
    else
      var j := Step(i, clicks[0]);
      assert InRange(j);
      Run(j, clicks[1..])
  }

  /** However the buttons and dots are clicked, the index stays in range. */
  lemma {:induction false} RunStaysInRange(i: int, clicks: seq<Click>)
    requires InRange(i)
    requires forall k :: 0 <= k < |clicks| ==> ValidClick(clicks[k])
    ensures InRange(Run(i, clicks))
    decreases |clicks|
  {
    if clicks != [] {
      RunStaysInRange(Step(i, clicks[0]), clicks[1..]);
    }
  }

  /** `n` clicks on next. */
  function Nexts(n: nat): (clicks: seq<Click>)
    ensures |clicks| == n
    ensures forall k :: 0 <= k < n ==> clicks[k] == Next
  {
    if n == 0 then [] else [Next] + Nexts(n - 1)
  }

  /** `n` clicks on next move the index on by `n`, modulo the slide count. */
  lemma {:induction false} NextsAdvance(i: int, n: nat)
    requires InRange(i)
    ensures Run(i, Nexts(n)) == (i + n) % SLIDES
    decreases n
  {
    if n > 0 {
      var j := NextIndex(i);
      assert Nexts(n)[1..] == Nexts(n - 1);
      NextsAdvance(j, n - 1);
      assert (j + (n - 1)) % SLIDES == (i + n) % SLIDES by {
        if i == SLIDES - 1 {
          assert j + (n - 1) == (i + n) - SLIDES;
        }
      }
    }
  }

  /** A full lap of next clicks returns to the slide it started from. */
  lemma FullLapReturns(i: int)
    requires InRange(i)
    ensures Run(i, Nexts(SLIDES)) == i
  {
    NextsAdvance(i, SLIDES);
  }

  /** Which dots are highlighted: the one whose position is the current index. */
  function Highlights(current: int): (lit: seq<bool>)
    ensures |lit| == SLIDES
    ensures forall idx :: 0 <= idx < SLIDES ==> (lit[idx] <==> idx == current)
  {
    seq(SLIDES, idx => idx == current)
  }

  /** How many entries of `bs` are true. */
  function CountTrue(bs: seq<bool>): nat
  {
    if bs == [] then 0 else (if bs[0] then 1 else 0) + CountTrue(bs[1..])
  }

  /** Exactly one position is `c` among the first `n`, when `c` is one of them. */
  lemma {:induction false} CountOneMatch(n: nat, c: int)
    ensures CountTrue(seq(n, idx => idx == c)) == if 0 <= c < n then 1 else 0
  {
    if n > 0 {
      var bs := seq(n, idx => idx == c);
      var tail := seq(n - 1, idx => idx + 1 == c);
      assert bs[1..] == tail;
      CountShift(n - 1, c);
    }
  }

  /** Counting positions equal to `c` in a shifted window. */
  lemma {:induction false} CountShift(n: nat, c: int)
    ensures CountTrue(seq(n, idx => idx + 1 == c)) == if 1 <= c < n + 1 then 1 else 0
    decreases n
  {
    if n > 0 {
      var bs := seq(n, idx => idx + 1 == c);
      assert bs[1..] == seq(n - 1, idx => idx + 1 == c - 1);
      CountShift(n - 1, c - 1);
    }
  }

  /** Exactly one dot is highlighted while the index is in range. */
  lemma ExactlyOneDotHighlighted(current: int)
    requires InRange(current)
    ensures CountTrue(Highlights(current)) == 1
  {
    CountOneMatch(SLIDES, current);
  }

  /** The carousel component's state. */
  class InspirationCarousel {
    var currentIndex: int

    ghost predicate Valid()
      reads this
    {
      InRange(currentIndex)
    }

    /** The carousel starts on the first slide. */
    constructor ()
      ensures Valid() && currentIndex == 0
    {
      currentIndex := 0;
    }

    method ClickNext()
      requires Valid()
      modifies this
      ensures Valid() && currentIndex == NextIndex(old(currentIndex))
    {
      currentIndex := (currentIndex + 1) % SLIDES;
    }

    method ClickPrev()
      requires Valid()
      modifies this
      ensures Valid() && currentIndex == PrevIndex(old(currentIndex))
    {
      currentIndex := (currentIndex - 1 + SLIDES) % SLIDES;
    }

    /** A click on the dot at position `idx`. */
    method ClickDot(idx: int)
      requires Valid() && InRange(idx)
      modifies this
      ensures Valid() && currentIndex == idx
    {
      currentIndex := idx;
    }

    /** The dot row as rendered. */
    function Dots(): (lit: seq<bool>)
      reads this
      requires Valid()
      ensures |lit| == SLIDES && lit[currentIndex]
      ensures CountTrue(lit) == 1
    {
      ExactlyOneDotHighlighted(currentIndex);
      Highlights(currentIndex)
    }
  }
}
