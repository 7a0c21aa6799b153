/** The image carousel of the product modal: an index into the product's
    images, moved by the "Next" and "Prev" buttons (and the swipe gestures that
    call them) and set directly by the dot under each image. */
module Carousel {

  /** One user action on the carousel. */
  datatype Nav = Next | Prev | Dot(idx: int)

  /** "Next": `Math.min(imagesCount - 1, i + 1)`. */
  function NextIndex(count: int, i: int): (r: int)
    ensures r <= count - 1 && r <= i + 1
    ensures i < count - 1 ==> r == i + 1
    ensures i >= count - 1 ==> r == count - 1
    ensures 0 <= i < count ==> 0 <= r < count
    ensures count <= 0 ==> r < 0
  {
    if count - 1 < i + 1 then count - 1 else i + 1
  }

  /** "Prev": `Math.max(0, i - 1)`. */
  function PrevIndex(i: int): (r: int)
    ensures r >= 0 && r >= i - 1
    ensures i >= 1 ==> r == i - 1
    ensures i <= 1 ==> r == 0
  {
    if 0 > i - 1 then 0 else i - 1
  }

  /** One action: an index in range stays in range when a dot click is for a
      drawn dot. */
  function Step(count: int, i: int, nav: Nav): (r: int)
    ensures 0 <= i < count && (nav.Dot? ==> 0 <= nav.idx < count) ==> 0 <= r < count
    ensures nav.Dot? ==> r == nav.idx
    ensures nav == Prev ==> r >= 0
    ensures nav == Next ==> r <= count - 1
  {
    match nav
    case Next => NextIndex(count, i)
    case Prev => PrevIndex(i)
    case Dot(j) => j
  }

  /** The index after the actions `navs`, oldest first: the last action
      decides which bound the result respects. */
  function Run(count: int, i: int, navs: seq<Nav>): (r: int)
    ensures navs == [] ==> r == i
    ensures |navs| > 0 && navs[|navs| - 1].Dot? ==> r == navs[|navs| - 1].idx
    ensures |navs| > 0 && navs[|navs| - 1] == Prev ==> r >= 0
    ensures |navs| > 0 && navs[|navs| - 1] == Next ==> r <= count - 1
  {
    if navs == [] then i else Step(count, Run(count, i, navs[..|navs| - 1]), navs[|navs| - 1])
  }

  /** The dots are drawn for the indices `0 .. imagesCount - 1` only. */
  predicate DotsInRange(count: int, navs: seq<Nav>)
  {
    forall k :: 0 <= k < |navs| && navs[k].Dot? ==> 0 <= navs[k].idx < count
  }

  /** Opening a product with at least one image starts at index 0, and no
      sequence of actions then leaves `[0, imagesCount - 1]`. */
  lemma {:induction false} RunInRange(count: int, i: int, navs: seq<Nav>)
    requires 0 <= i < count && DotsInRange(count, navs)
    ensures 0 <= Run(count, i, navs) < count
  {
    if navs != [] {
      var init := navs[..|navs| - 1];
      assert DotsInRange(count, init) by {
        forall k | 0 <= k < |init| && init[k].Dot? ensures 0 <= init[k].idx < count {
          assert init[k] == navs[k];
        }
      }
      RunInRange(count, i, init);
      assert navs[|navs| - 1].Dot? ==> 0 <= navs[|navs| - 1].idx < count;
    }
  }

  function Repeat(nav: Nav, n: nat): (r: seq<Nav>)
    ensures |r| == n && forall k :: 0 <= k < n ==> r[k] == nav
  {
    if n == 0 then [] else Repeat(nav, n - 1) + [nav]
  }

  /** One more action applies one more step. */
  lemma RunSnoc(count: int, i: int, navs: seq<Nav>, nav: Nav)
    ensures Run(count, i, navs + [nav]) == Step(count, Run(count, i, navs), nav)
  {
    assert (navs + [nav])[..|navs|] == navs;
  }

  /** The `n`-th repetition of an action applies one more step. */
  lemma RepeatStep(count: int, i: int, nav: Nav, n: nat)
    requires n > 0
    ensures Run(count, i, Repeat(nav, n)) == Step(count, Run(count, i, Repeat(nav, n - 1)), nav)
  {
    RunSnoc(count, i, Repeat(nav, n - 1), nav);
  }

  /** `n` presses of "Next" move `n` images forward but stop at the last one. */
  lemma {:induction false} NextRepeated(count: int, i: int, n: nat)
    requires 0 <= i < count
    ensures Run(count, i, Repeat(Next, n)) == if i + n < count then i + n else count - 1
  {
    if n > 0 {
      NextRepeated(count, i, n - 1);
      RepeatStep(count, i, Next, n);
    }
  }

  /** `n` presses of "Prev" move `n` images back but stop at the first one. */
  lemma {:induction false} PrevRepeated(count: int, i: int, n: nat)
    requires 0 <= i
    ensures Run(count, i, Repeat(Prev, n)) == if i - n >= 0 then i - n else 0
  {
    if n > 0 {
      PrevRepeated(count, i, n - 1);
      RepeatStep(count, i, Prev, n);
    }
  }

  /** With three images, four presses of "Next" from the first image end on
      the third (index 2). */
  lemma FourNextsOfThree()
    ensures Run(3, 0, [Next, Next, Next, Next]) == 2
  {
    NextRepeated(3, 0, 4);
    assert Repeat(Next, 4) == [Next, Next, Next, Next];
  }
}
