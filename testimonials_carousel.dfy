/**
 * The testimonial carousel (storefront/src/components/testimonials-carousel.tsx): a window of
 * four cards over six testimonials, advanced by an interval tick and by the indicator buttons.
 */
module TestimonialsCarousel {
  import Flags
  import Names

  datatype Testimonial = Testimonial(id: int, name: string, rating: int)

  const Testimonials: seq<Testimonial> := [
    Testimonial(1, "Sarah Johnson", 5),
    Testimonial(2, "Michael Chen", 5),
    Testimonial(3, "Emily Rodriguez", 5),
    Testimonial(4, "David Kim", 5),
    Testimonial(5, "Jessica Taylor", 4),
    Testimonial(6, "Alex Thompson", 5)]

  const CardsToShow: int := 4

  /** `testimonials.length - cardsToShow + 1`: the number of window positions and of indicators. */
  const GroupCount: int := |Testimonials| - CardsToShow + 1

  /** The range the index keeps: a full window starts at every index in it. */
  predicate InRange(i: int)
  {
    0 <= i <= |Testimonials| - CardsToShow
  }

  /** The interval callback: the next index, or 0 once it would reach `GroupCount`. */
  function NextIndex(prev: int): (next: int)
    ensures next == 0 || next == prev + 1
    ensures next == 0 <==> prev + 1 >= GroupCount || prev == -1
    ensures InRange(prev) ==> InRange(next)
  {
    var nextIndex := prev + 1;
    if nextIndex >= GroupCount then 0 else nextIndex
  }

  /** The index after `k` ticks. */
  function Ticks(start: int, k: nat): int
  {
    if k == 0 then start else NextIndex(Ticks(start, k - 1))
  }

  /** From 0 the ticks cycle through the three groups in order. */
  lemma {:induction false} TicksFromZero(k: nat)
    ensures Ticks(0, k) == k % GroupCount
  {
    if k > 0 {
      TicksFromZero(k - 1);
    }
  }

  /** Exactly `GroupCount` ticks bring the index from 0 back to 0, and no fewer do. */
  lemma TickPeriod()
    ensures Ticks(0, GroupCount as nat) == 0
    ensures forall k: nat :: 0 < k < GroupCount ==> Ticks(0, k) != 0
  {
    TicksFromZero(GroupCount as nat);
    forall k: nat | 0 < k < GroupCount ensures Ticks(0, k) != 0 {
      TicksFromZero(k);
    }
  }

  /** `testimonials.slice(idx, idx + cardsToShow)`, with the clamping of `slice`. */
  function Visible(idx: nat): (v: seq<Testimonial>)
    ensures |v| <= CardsToShow
    ensures InRange(idx) ==> |v| == CardsToShow
    ensures forall k :: 0 <= k < |v| ==> idx + k < |Testimonials| && v[k] == Testimonials[idx + k]
  {
    var len := |Testimonials|;
    var start := if idx < len then idx else len;
    var end := if idx + CardsToShow < len then idx + CardsToShow else len;
    Testimonials[start..end]
  }

  /** One indicator per group; the one whose position is the index is the active one. */
  function Indicators(current: int): (dots: seq<bool>)
    ensures |dots| == GroupCount
    ensures forall i :: 0 <= i < |dots| ==> (dots[i] <==> i == current)
  {
    seq(GroupCount, i => i == current)
  }

  /** While the index is in range exactly one indicator is active. */
  lemma OneActiveIndicator(current: int)
    requires InRange(current)
    ensures Flags.CountTrue(Indicators(current)) == 1
  {
    Flags.CountOneHot(Indicators(current), current);
  }

  /** `renderStars(rating)`: five stars, `true` for a filled one. */
  function RenderStars(rating: int): (stars: seq<bool>)
    ensures |stars| == 5
    ensures forall i :: 0 <= i < 5 ==> (stars[i] <==> i < rating)
  {
    seq(5, i => i < rating)
  }

  /** A rating between 0 and 5 fills that many stars, the first ones. */
  lemma FilledStars(rating: int)
    requires 0 <= rating <= 5
    ensures Flags.CountTrue(RenderStars(rating)) == rating
  {
    Flags.CountPrefix(RenderStars(rating), rating);
  }

  /** The avatar fallback text. */
  function AvatarFallback(t: Testimonial): string
  {
    Names.Initials(t.name)
  }

  /** The avatar fallback of a testimonial whose name is "first last". */
  lemma FallbackOfFullName(i: nat, first: string, last: string)
    requires i < |Testimonials| && Testimonials[i].name == first + " " + last
    requires Names.IsWord(first) && Names.IsWord(last)
    ensures AvatarFallback(Testimonials[i]) == [first[0], last[0]]
  {
    Names.InitialsOfFullName(first, last);
  }

  /** Every testimonial's avatar fallback has two characters (each entry's initials are given by `FallbackOfFullName`). */
  lemma AvatarFallbacks()
    ensures forall i :: 0 <= i < |Testimonials| ==> |AvatarFallback(Testimonials[i])| == 2
  {
    AvatarFallbacksLow();
    AvatarFallbacksHigh();
  }

  /** The first three entries. */
  lemma AvatarFallbacksLow()
    ensures forall i :: 0 <= i < 3 ==> |AvatarFallback(Testimonials[i])| == 2
  {
    forall i | 0 <= i < 3 ensures |AvatarFallback(Testimonials[i])| == 2 {
      if i == 0 {
        FallbackOfFullName(0, "Sarah", "Johnson");
      } else if i == 1 {
        FallbackOfFullName(1, "Michael", "Chen");
      } else {
        FallbackOfFullName(2, "Emily", "Rodriguez");
      }
    }
  }

  /** The last three entries. */
  lemma AvatarFallbacksHigh()
    ensures forall i :: 3 <= i < 6 ==> |AvatarFallback(Testimonials[i])| == 2
  {
    forall i | 3 <= i < 6 ensures |AvatarFallback(Testimonials[i])| == 2 {
      if i == 3 {
        FallbackOfFullName(3, "David", "Kim");
      } else if i == 4 {
        FallbackOfFullName(4, "Jessica", "Taylor");
      } else {
        FallbackOfFullName(5, "Alex", "Thompson");
      }
    }
  }

  /** The component's `currentIndex` state. */
  class Carousel {
    var currentIndex: int

    ghost predicate Valid()
      reads this
    {
      InRange(currentIndex)
    }

    constructor ()
      ensures Valid() && currentIndex == 0
    {
      currentIndex := 0;
    }

    /** The `setInterval` callback, every five seconds. */
    method Tick()
      requires Valid()
      modifies this
      ensures Valid() && currentIndex == NextIndex(old(currentIndex))
    {
      var nextIndex := currentIndex + 1;
      currentIndex := if nextIndex >= GroupCount then 0 else nextIndex;
    }

    /** A click on indicator `i`; only indicators `0 .. GroupCount - 1` are rendered. */
    method SelectGroup(i: int)
      requires Valid() && 0 <= i < GroupCount
      modifies this
      ensures Valid() && currentIndex == i
    {
      currentIndex := i;
    }

    /** The cards on screen. */
    function VisibleCards(): (v: seq<Testimonial>)
      requires Valid()
      reads this
      ensures |v| == CardsToShow
      ensures forall k :: 0 <= k < CardsToShow ==> v[k] == Testimonials[currentIndex + k]
    {
      Visible(currentIndex)
    }
  }
}
