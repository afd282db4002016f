/**
 * The loading overlay. `LoadingIndicator` shows three dots of which the one
 * at `activeIndex` is highlighted; every 600 ms the index moves on by one,
 * modulo three. `LoadingScreen` shows a caption chosen by the questionnaire
 * it is waiting for, and for the recipe mode tilts its icon, flipping the
 * angle between 10 and -10 degrees every 800 ms. A `Tick` method is one
 * firing of such an interval; the timers themselves are not modelled.
 */
module LoadingAnimations {
  import opened Optional

  /** JavaScript's `%` on numbers: the remainder has the sign of the dividend. */
  function JsRemainder(a: int, b: int): (r: int)
    requires b > 0
    ensures a >= 0 ==> 0 <= r < b
    ensures a < 0 ==> -b < r <= 0
    ensures exists q: int :: a == q * b + r
  {
    if a >= 0 then
      assert a == (a / b) * b + a % b;
      a % b
    else
      assert a == (-((-a) / b)) * b + -((-a) % b);
      -((-a) % b)
  }

  /** The number of dots of the indicator. */
  const DotCount: nat := 3

  /** The indicator's interval callback: the next dot becomes active, the last wraps to the first. */
  function NextIndex(prev: int): (r: int)
    ensures 0 <= prev < DotCount ==> 0 <= r < DotCount
    ensures 0 <= prev < DotCount ==> r == if prev == DotCount - 1 then 0 else prev + 1
  {
    JsRemainder(prev + 1, DotCount)
  }

  /** The active index after `n` firings of the interval, starting from 0. */
  function IndexAfterTicks(n: nat): (r: int)
  {
    if n == 0 then 0 else NextIndex(IndexAfterTicks(n - 1))
  }

  /** After `n` firings the active index is `n` modulo three, so it is always a dot. */
  lemma {:induction false} IndexAfterTicksIsMod(n: nat)
    ensures IndexAfterTicks(n) == n % DotCount
    ensures 0 <= IndexAfterTicks(n) < DotCount
  {
    if n > 0 {
      IndexAfterTicksIsMod(n - 1);
    }
  }

  /** Three firings bring every dot back to active. */
  lemma ThreeTicksReturn(i: int)
    requires 0 <= i < DotCount
    ensures NextIndex(NextIndex(NextIndex(i))) == i
  {
  }

  /** Which dots are highlighted: dot `index` is active when it equals `activeIndex`. */
  function ActiveDots(activeIndex: int): (dots: seq<bool>)
    ensures |dots| == DotCount
  {
    seq(DotCount, index => index == activeIndex)
  }

  /** The number of highlighted dots. */
  function CountActive(dots: seq<bool>): (count: nat)
  {
    if dots == [] then 0 else (if dots[0] then 1 else 0) + CountActive(dots[1..])
  }

  /** For an index in range exactly one dot is highlighted, and it is the dot at that index. */
  lemma ExactlyOneActive(activeIndex: int)
    requires 0 <= activeIndex < DotCount
    ensures CountActive(ActiveDots(activeIndex)) == 1
    ensures ActiveDots(activeIndex)[activeIndex]
  {
    var d := ActiveDots(activeIndex);
    assert d[1..][1..][1..] == [];
    assert d[0] == (activeIndex == 0);
    assert d[1..][0] == (activeIndex == 1);
    assert d[1..][1..][0] == (activeIndex == 2);
    assert CountActive(d[1..][1..]) == (if activeIndex == 2 then 1 else 0);
    assert CountActive(d[1..]) == (if activeIndex >= 1 then 1 else 0);
  }

  /** The delay, in milliseconds, of dot `index`'s pulse. */
  function AnimationDelayMs(index: int): (ms: int)
  {
    index * 200
  }

  /** The first dot pulses at once and each further dot 200 ms after the one before it. */
  lemma DelaysStaggered(i: int)
    requires 0 <= i < DotCount - 1
    ensures AnimationDelayMs(0) == 0
    ensures AnimationDelayMs(i + 1) == AnimationDelayMs(i) + 200
  {
  }

  class LoadingIndicator {
    var activeIndex: int
    /** How often the interval has fired since the indicator was created. */
    ghost var ticks: nat

    ghost predicate Valid()
      reads this
    {
      activeIndex == IndexAfterTicks(ticks)
    }

    constructor ()
      ensures Valid() && activeIndex == 0 && ticks == 0
    {
      activeIndex := 0;
      ticks := 0;
    }

    /** One firing of the 600 ms interval. */
    method Tick()
      requires Valid()
      modifies this
      ensures Valid() && ticks == old(ticks) + 1
      ensures activeIndex == NextIndex(old(activeIndex))
      ensures activeIndex == ticks % DotCount
    {
      activeIndex := NextIndex(activeIndex);
      ticks := ticks + 1;
      IndexAfterTicksIsMod(ticks);
    }

    /** The dots as rendered: three of them, exactly one highlighted, the one at `activeIndex`. */
    function Dots(): (dots: seq<bool>)
      requires Valid()
      reads this
      ensures |dots| == DotCount && 0 <= activeIndex < DotCount && dots[activeIndex]
      ensures CountActive(dots) == 1
    {
      IndexAfterTicksIsMod(ticks);
      ExactlyOneActive(activeIndex);
      ActiveDots(activeIndex)
    }
  }

  /** The screen's interval callback: 10 degrees becomes -10, anything else becomes 10. */
  function NextRotation(prev: int): (r: int)
    ensures r == 10 || r == -10
    ensures prev == 10 || prev == -10 ==> r == -prev
  {
    if prev == 10 then -10 else 10
  }

  /** The angle after `n` firings of the interval, starting from 10. */
  function RotationAfterTicks(n: nat): (r: int)
  {
    if n == 0 then 10 else NextRotation(RotationAfterTicks(n - 1))
  }

  /** The angle is 10 after an even number of firings and -10 after an odd one. */
  lemma {:induction false} RotationAfterTicksParity(n: nat)
    ensures RotationAfterTicks(n) == if n % 2 == 0 then 10 else -10
  {
    if n > 0 {
      RotationAfterTicksParity(n - 1);
    }
  }

  /** Two firings leave the angle where it was. */
  lemma TwoTicksReturn(angle: int)
    requires angle == 10 || angle == -10
    ensures NextRotation(NextRotation(angle)) == angle
  {
  }

  /** The rotation interval is set up only while the screen waits for a recipe. */
  predicate RotationScheduled(questionnaire: Option<string>)
  {
    questionnaire == Some("recipe")
  }

  /** The modes the screen has a caption of its own for. */
  const NamedModes: seq<string> := ["personalized", "knowledge", "pairings", "recipe"]

  /** The caption `getContent` picks for the questionnaire the screen waits for. */
  function Caption(questionnaire: Option<string>): (text: string)
    ensures text == "Loading..." <==> questionnaire.None? || questionnaire.value !in NamedModes
  {
    match questionnaire
    case Some("personalized") => "Mike is mixing up your drink options"
    case Some("knowledge") => "Mike is combing through the library"
    case Some("pairings") => "Mike is analyzing your meal pairing"
    case Some("recipe") => "Mike is finalizing your recipe"
    case _ => "Loading..."
  }

  /** Different named modes show different captions, so the caption tells the mode. */
  lemma CaptionInjective(a: Option<string>, b: Option<string>)
    requires a.Some? && a.value in NamedModes
    requires Caption(a) == Caption(b)
    ensures a == b
  {
  }

  class LoadingScreen {
    /** The questionnaire the screen waits for; absent for a plain loading screen. */
    const questionnaire: Option<string>
    /** The icon's angle in degrees. */
    var rotation: int
    /** How often the rotation interval has fired, if it is scheduled. */
    ghost var ticks: nat

    ghost predicate Valid()
      reads this
    {
      rotation == RotationAfterTicks(if RotationScheduled(questionnaire) then ticks else 0)
    }

    constructor (questionnaire: Option<string>)
      ensures Valid() && this.questionnaire == questionnaire
      ensures rotation == 10 && ticks == 0
    {
      this.questionnaire := questionnaire;
      rotation := 10;
      ticks := 0;
    }

    /** One 800 ms period: the angle flips for the recipe mode, and no callback runs otherwise. */
    method Tick()
      requires Valid()
      modifies this
      ensures Valid()
      ensures ticks == old(ticks) + 1
      ensures rotation == if RotationScheduled(questionnaire) then NextRotation(old(rotation)) else old(rotation)
      ensures !RotationScheduled(questionnaire) ==> rotation == 10
      ensures rotation == 10 || rotation == -10
      ensures RotationScheduled(questionnaire) ==> rotation == if ticks % 2 == 0 then 10 else -10
    {
      if RotationScheduled(questionnaire) {
        rotation := NextRotation(rotation);
      }
      ticks := ticks + 1;
      RotationAfterTicksParity(ticks);
    }
  }
}
