/**
 * The testimonial carousel: a row of slides of which one is shown, next and
 * previous buttons that step a current index around the row, and a row of
 * dots of which the one for the visible slide is highlighted.  The classes the
 * page toggles become arrays: per slide whether it is hidden and which entry
 * animation it carries, per dot whether it is highlighted.
 */
module Carousel {

  /** The direction a step came from; it selects the entry animation. */
  datatype Direction = Forward | Backward

  /** The entry animation class of a slide. */
  datatype Anim = Still | SlideInRight | SlideInLeft

  /** The slide-in class `showTestimonial` adds: from the right for next, from the left otherwise. */
  function EntryAnim(dir: Direction): (a: Anim)
    ensures a != Still
    ensures a == SlideInRight <==> dir == Forward
    ensures a == SlideInLeft <==> dir == Backward
  {
    match dir
    case Forward => SlideInRight
    case Backward => SlideInLeft
  }

  // ---------------------------------------------------------------------------
  // Index arithmetic

  /** `(i + 1) % n`: the slide after `i`, wrapping from the last to the first. */
  function NextIndex(i: int, n: int): (r: int)
    requires 0 <= i < n
    ensures 0 <= r < n
    ensures i < n - 1 ==> r == i + 1
    ensures i == n - 1 ==> r == 0
  {
    (i + 1) % n
  }

  /**
   * `(i - 1 + n) % n`: the slide before `i`, wrapping from the first to the
   * last.  The dividend is never negative here, so JavaScript's truncating
   * remainder and Dafny's Euclidean one agree.
   */
  function PrevIndex(i: int, n: int): (r: int)
    requires 0 <= i < n
    ensures 0 <= r < n
    ensures 0 < i ==> r == i - 1
    ensures i == 0 ==> r == n - 1
  {
    (i - 1 + n) % n
  }

  /** The index after `k` forward steps from `i`. */
  function Advance(i: int, n: int, k: nat): (r: int)
    requires 0 <= i < n
    ensures 0 <= r < n
  {
    if k == 0 then i else NextIndex(Advance(i, n, k - 1), n)
  }

  /** Stepping back undoes stepping forward, and the other way round. */
  lemma PrevUndoesNext(i: int, n: int)
    requires 0 <= i < n
    ensures PrevIndex(NextIndex(i, n), n) == i
    ensures NextIndex(PrevIndex(i, n), n) == i
  {
  }

  /** Without reaching the end of the row, `k` forward steps move `k` slides on. */
  lemma {:induction false} AdvanceWithinRow(i: int, n: int, k: nat)
    requires 0 <= i && i + k < n
    ensures Advance(i, n, k) == i + k
  {
    if k > 0 {
      AdvanceWithinRow(i, n, k - 1);
    }
  }

  /** `a + b` forward steps are `a` steps followed by `b` steps. */
  lemma {:induction false} AdvanceCompose(i: int, n: int, a: nat, b: nat)
    requires 0 <= i < n
    ensures Advance(i, n, a + b) == Advance(Advance(i, n, a), n, b)
  {
    if b > 0 {
      AdvanceCompose(i, n, a, b - 1);
    }
  }

  /** A full turn of `n` forward steps returns to the starting slide. */
  lemma FullTurn(i: int, n: int)
    requires 0 <= i < n
    ensures Advance(i, n, n) == i
  {
    AdvanceWithinRow(i, n, n - 1 - i);
    assert Advance(i, n, n - i) == 0;
    AdvanceWithinRow(0, n, i);
    AdvanceCompose(i, n, n - i, i);
  }

  /** Rotation is periodic: `k + n` steps end where `k` steps end. */
  lemma AdvancePeriodic(i: int, n: int, k: nat)
    requires 0 <= i < n
    ensures Advance(i, n, k + n) == Advance(i, n, k)
  {
    AdvanceCompose(i, n, k, n);
    FullTurn(Advance(i, n, k), n);
  }

  // ---------------------------------------------------------------------------
  // The visible-slide scan

  /**
   * The index the page reports as the visible slide: the last slide that is
   * not hidden, or 0 when every slide is hidden.
   */
  function LastVisible(hidden: seq<bool>): (r: nat)
    ensures |hidden| == 0 ==> r == 0
    ensures |hidden| > 0 ==> r < |hidden| && (r == 0 || !hidden[r])
    ensures forall j :: r < j < |hidden| ==> hidden[j]
    ensures (forall j :: 0 <= j < |hidden| ==> hidden[j]) ==> r == 0
  {
    if |hidden| == 0 then 0
    else if !hidden[|hidden| - 1] then |hidden| - 1
    else LastVisible(hidden[..|hidden| - 1])
  }

  /** When exactly slide `i` is not hidden, the scan finds `i`. */
  lemma LastVisibleOfSingle(hidden: seq<bool>, i: nat)
    requires i < |hidden|
    requires forall j :: 0 <= j < |hidden| ==> (hidden[j] <==> j != i)
    ensures LastVisible(hidden) == i
  {
  }

  // ---------------------------------------------------------------------------
  // The carousel on the page

  class Testimonials {
    /** Per slide: whether it carries the `hidden` class. */
    var hidden: array<bool>
    /** Per slide: which entry animation class it carries. */
    var anim: array<Anim>
    /** Per dot: highlighted (`bg-purple-500`) or not (`bg-white/30`). */
    var dotActive: array<bool>
    /** The carousel's current slide. */
    var currentIndex: nat

    ghost predicate Valid()
      reads this
    {
      && hidden.Length == anim.Length
      && hidden != dotActive
      && (hidden.Length == 0 ==> currentIndex == 0)
      && (hidden.Length > 0 ==> currentIndex < hidden.Length)
    }

    /**
     * Takes the slides' and dots' initial classes from the page; when there is
     * at least one slide, the first is shown.
     */
    constructor (slidesHidden: seq<bool>, dots: seq<bool>)
      ensures Valid() && fresh(hidden) && fresh(anim) && fresh(dotActive)
      ensures hidden.Length == |slidesHidden| && dotActive[..] == dots
      ensures currentIndex == 0
      ensures |slidesHidden| > 0 ==> forall j :: 0 <= j < hidden.Length ==> (hidden[j] <==> j != 0)
      ensures |slidesHidden| > 0 ==> forall j :: 0 <= j < anim.Length ==> anim[j] == (if j == 0 then SlideInRight else Still)
    {
      hidden := new bool[|slidesHidden|](j requires 0 <= j < |slidesHidden| => slidesHidden[j]);
      anim := new Anim[|slidesHidden|](_ => Still);
      dotActive := new bool[|dots|](j requires 0 <= j < |dots| => dots[j]);
      currentIndex := 0;
      new;
      if |slidesHidden| > 0 {
        Show(0, Forward);
      }
    }

    /** `showTestimonial(index, direction)`: hides every slide, then shows slide `index`. */
    method Show(index: nat, dir: Direction)
      requires Valid() && index < hidden.Length
      modifies hidden, anim
      ensures Valid()
      ensures forall j :: 0 <= j < hidden.Length ==> (hidden[j] <==> j != index)
      ensures forall j :: 0 <= j < anim.Length ==> anim[j] == (if j == index then EntryAnim(dir) else Still)
    {
      for j := 0 to hidden.Length
        invariant forall k :: 0 <= k < j ==> hidden[k] && anim[k] == Still
      {
        hidden[j] := true;
        anim[j] := Still;
      }
      hidden[index] := false;
      anim[index] := EntryAnim(dir);
    }

    /**
     * One step of the carousel, as the next button, the previous button and
     * the rotation timer do it: move the current index and show that slide.
     * With no slides the step fails (the page's handler throws) and nothing changes.
     */
    method Step(dir: Direction) returns (ok: bool)
      requires Valid()
      modifies this, hidden, anim
      ensures Valid()
      ensures hidden == old(hidden) && anim == old(anim) && dotActive == old(dotActive)
      ensures ok <==> hidden.Length > 0
      ensures ok && dir == Forward ==> currentIndex == NextIndex(old(currentIndex), hidden.Length)
      ensures ok && dir == Backward ==> currentIndex == PrevIndex(old(currentIndex), hidden.Length)
      ensures ok ==> forall j :: 0 <= j < hidden.Length ==> (hidden[j] <==> j != currentIndex)
      ensures ok ==> forall j :: 0 <= j < anim.Length ==> anim[j] == (if j == currentIndex then EntryAnim(dir) else Still)
      ensures !ok ==> currentIndex == old(currentIndex)
    {
      var n := hidden.Length;
      if n == 0 {
        return false;
      }
      currentIndex := if dir == Forward then NextIndex(currentIndex, n) else PrevIndex(currentIndex, n);
      Show(currentIndex, dir);
      ok := true;
    }

    /** `updateActiveDot(index)`: highlights dot `index` and clears every other dot. */
    method HighlightDot(index: int)
      modifies dotActive
      ensures forall j :: 0 <= j < dotActive.Length ==> (dotActive[j] <==> j == index)
    {
      for j := 0 to dotActive.Length
        invariant forall k :: 0 <= k < j ==> (dotActive[k] <==> k == index)
      {
        dotActive[j] := j == index;
      }
    }

    /** The scan for the visible slide: the last one not hidden, 0 if none is shown. */
    method VisibleIndex() returns (r: nat)
      ensures r == LastVisible(hidden[..])
      ensures hidden.Length > 0 ==> r < hidden.Length
    {
      r := 0;
      for j := 0 to hidden.Length
        invariant r == LastVisible(hidden[..j])
      {
        assert hidden[..j + 1][..j] == hidden[..j];
        if !hidden[j] {
          r := j;
        }
      }
      assert hidden[..hidden.Length] == hidden[..];
    }

    /** What the next and previous buttons do after stepping: highlight the dot of the visible slide. */
    method SyncDots()
      requires Valid()
      modifies dotActive
      ensures forall j :: 0 <= j < dotActive.Length ==> (dotActive[j] <==> j == LastVisible(hidden[..]))
    {
      var visible := VisibleIndex();
      HighlightDot(visible);
    }

    /**
     * A click on the next (Forward) or previous (Backward) button: the step,
     * then, when the page has both slides and dots, the dot update.
     */
    method Click(dir: Direction) returns (ok: bool)
      requires Valid()
      modifies this, hidden, anim, dotActive
      ensures Valid()
      ensures hidden == old(hidden) && anim == old(anim) && dotActive == old(dotActive)
      ensures ok <==> hidden.Length > 0
      ensures ok && dir == Forward ==> currentIndex == NextIndex(old(currentIndex), hidden.Length)
      ensures ok && dir == Backward ==> currentIndex == PrevIndex(old(currentIndex), hidden.Length)
      ensures ok ==> forall j :: 0 <= j < hidden.Length ==> (hidden[j] <==> j != currentIndex)
      ensures ok ==> forall j :: 0 <= j < anim.Length ==> anim[j] == (if j == currentIndex then EntryAnim(dir) else Still)
      ensures ok ==> forall j :: 0 <= j < dotActive.Length ==> (dotActive[j] <==> j == currentIndex)
      ensures !ok ==> currentIndex == old(currentIndex) && dotActive[..] == old(dotActive[..])
    {
      ok := Step(dir);
      if ok && dotActive.Length > 0 {
        SyncDots();
        LastVisibleOfSingle(hidden[..], currentIndex);
      }
    }

    /**
     * A click on dot `index`: hides every slide, shows slide `index` and
     * highlights its dot.  The carousel's current index is left as it was.
     * With fewer slides than dots the page's handler throws after hiding;
     * the model then reports failure with every slide hidden.
     */
    method ClickDot(index: nat) returns (ok: bool)
      requires Valid() && hidden.Length > 0 && index < dotActive.Length
      modifies hidden, dotActive
      ensures Valid()
      ensures ok <==> index < hidden.Length
      ensures forall j :: 0 <= j < hidden.Length ==> (hidden[j] <==> !(ok && j == index))
      ensures ok ==> forall j :: 0 <= j < dotActive.Length ==> (dotActive[j] <==> j == index)
      ensures !ok ==> dotActive[..] == old(dotActive[..])
    {
      for j := 0 to hidden.Length
        invariant forall k :: 0 <= k < j ==> hidden[k]
        invariant dotActive[..] == old(dotActive[..])
      {
        hidden[j] := true;
      }
      if index >= hidden.Length {
        return false;
      }
      hidden[index] := false;
      HighlightDot(index);
      ok := true;
    }
  }
}
