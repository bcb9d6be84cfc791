/**
 * The promotions carousel (`slideOffers` in script.js).
 *
 * Its state is the horizontal offset of the card strip and a re-entrancy latch.
 * A press reads the page layout (whether the grid and its first card exist, the
 * card's width, the viewport width, the grid's scroll width and its parent's
 * width); all of that is passed in as a `Page`. The 700 ms timer that clears the
 * latch is the separate `Release` event.
 */
module Carousel {

  /** The `direction` argument: "next", "prev", or any other string. */
  datatype Direction = Next | Prev | Other

  /** What the press finds under `#offersGrid`. */
  datatype Grid =
    | Missing                                          // no element with id offersGrid
    | NoCard                                           // the grid holds no `.offer-card`
    | Cards(cardWidth: nat, scrollWidth: nat, parentWidth: nat)

  /** The layout read by one press: the grid and `window.innerWidth`. */
  datatype Page = Page(grid: Grid, innerWidth: int)

  /** `offerSlideIndex` and `isSliding`. */
  datatype State = State(offset: int, sliding: bool)

  /** Widest viewport treated as mobile. */
  const MobileMaxWidth := 480
  /** Inter-card gap on viewports wider than `MobileMaxWidth`. */
  const DesktopGap := 30

  const Initial := State(0, false)

  function Gap(innerWidth: int): nat
  {
    if innerWidth <= MobileMaxWidth then 0 else DesktopGap
  }

  /** Distance travelled by one press: a card plus the gap. */
  function StepSize(cardWidth: nat, innerWidth: int): nat
  {
    cardWidth + Gap(innerWidth)
  }

  /** Largest offset the code allows; negative when the strip is narrower than its parent. */
  function MaxScroll(scrollWidth: nat, parentWidth: nat): int
  {
    scrollWidth - parentWidth
  }

  function Min(a: int, b: int): int { if a <= b then a else b }
  function Max(a: int, b: int): int { if a >= b then a else b }

  /**
   * The offset after an accepted press: move by one step in the given direction,
   * floor a backward move at 0, and only then cap the result at `maxScroll`.
   */
  function Target(offset: int, dir: Direction, step: nat, maxScroll: int): (r: int)
    ensures r <= maxScroll
    ensures dir == Prev ==> (r >= 0 <==> maxScroll >= 0)
    ensures dir == Next && offset + step <= maxScroll ==> r == offset + step
    ensures dir == Other && offset <= maxScroll ==> r == offset
  {
    var moved :=
      match dir
      case Next => offset + step
      case Prev => if offset - step < 0 then 0 else offset - step
      case Other => offset;
    if moved > maxScroll then maxScroll else moved
  }

  /** A press moves the strip only when the latch is open and the grid has a card. */
  predicate Accepts(s: State, page: Page)
  {
    !s.sliding && page.grid.Cards?
  }

  /** The effect of one call of `slideOffers(dir)` on the state. */
  function Slide(s: State, dir: Direction, page: Page): (r: State)
    ensures !Accepts(s, page) ==> r == s
    ensures Accepts(s, page) ==> r.sliding && r.offset <= MaxScroll(page.grid.scrollWidth, page.grid.parentWidth)
    ensures Accepts(s, page) && dir == Prev ==>
              (r.offset >= 0 <==> page.grid.scrollWidth >= page.grid.parentWidth)
  {
    if !Accepts(s, page) then s
    else
      var g := page.grid;
      State(Target(s.offset, dir, StepSize(g.cardWidth, page.innerWidth), MaxScroll(g.scrollWidth, g.parentWidth)), true)
  }

  /** The 700 ms timer: clears the latch, keeps the offset. */
  function Released(s: State): (r: State)
    ensures !r.sliding && r.offset == s.offset
  {
    State(s.offset, false)
  }

  /** On a viewport at most 480 wide the step is one card; wider, a card plus 30. */
  lemma StepByViewport(cardWidth: nat, innerWidth: int)
    ensures innerWidth <= 480 ==> StepSize(cardWidth, innerWidth) == cardWidth
    ensures innerWidth > 480 ==> StepSize(cardWidth, innerWidth) == cardWidth + 30
  {
  }

  /**
   * An accepted press sets the latch and puts the offset at
   * `min(offset + step, maxScroll)` for "next", `min(max(offset - step, 0), maxScroll)`
   * for "prev", and `min(offset, maxScroll)` for any other direction.
   */
  lemma AcceptedPress(s: State, dir: Direction, page: Page)
    requires Accepts(s, page)
    ensures var g := page.grid;
            var step := StepSize(g.cardWidth, page.innerWidth);
            var m := MaxScroll(g.scrollWidth, g.parentWidth);
            var r := Slide(s, dir, page);
            r.sliding &&
            (dir == Next ==> r.offset == Min(s.offset + step, m)) &&
            (dir == Prev ==> r.offset == Min(Max(s.offset - step, 0), m)) &&
            (dir == Other ==> r.offset == Min(s.offset, m))
  {
  }

  /** A grid without a card: the latch is set and cleared again, nothing else moves. */
  lemma EmptyGridNoEffect(s: State, dir: Direction, innerWidth: int)
    ensures Slide(s, dir, Page(NoCard, innerWidth)) == s
  {
  }

  /** What can happen to the carousel: a button press, or the latch timer firing. */
  datatype Event = Press(dir: Direction, page: Page) | Timer

  function Apply(s: State, e: Event): State
  {
    match e
    case Press(dir, page) => Slide(s, dir, page)
    case Timer => Released(s)
  }

  /** The state after a sequence of events, applied in order. */
  function Run(s: State, es: seq<Event>): State
    decreases |es|
  {
    if es == [] then s else Run(Apply(s, es[0]), es[1..])
  }

  predicate AllPresses(es: seq<Event>)
  {
    forall i :: 0 <= i < |es| ==> es[i].Press?
  }

  /** How many events of `es`, applied from `s`, change the offset. */
  function Moves(s: State, es: seq<Event>): nat
    decreases |es|
  {
    if es == [] then 0
    else
      var t := Apply(s, es[0]);
      (if t.offset != s.offset then 1 else 0) + Moves(t, es[1..])
  }

  /** While the latch is set, presses change nothing at all. */
  lemma {:induction false} PressesWhileSlidingIgnored(s: State, es: seq<Event>)
    requires s.sliding && AllPresses(es)
    ensures Run(s, es) == s
    ensures Moves(s, es) == 0
    decreases |es|
  {
    if es != [] {
      assert es[0].Press?;
      assert Apply(s, es[0]) == s;
      PressesWhileSlidingIgnored(s, es[1..]);
    }
  }

  /** After an accepted press the latch stays set until the timer fires. */
  lemma LatchHeldUntilRelease(s: State, dir: Direction, page: Page, es: seq<Event>)
    requires Accepts(s, page) && AllPresses(es)
    ensures Run(Slide(s, dir, page), es) == Slide(s, dir, page)
    ensures Run(Slide(s, dir, page), es).sliding
  {
    PressesWhileSlidingIgnored(Slide(s, dir, page), es);
  }

  /** Any run of presses with no timer between them moves the strip at most once. */
  lemma {:induction false} AtMostOneMoveWithoutRelease(s: State, es: seq<Event>)
    requires AllPresses(es)
    ensures Moves(s, es) <= 1
    decreases |es|
  {
    if es != [] {
      var t := Apply(s, es[0]);
      if t == s {
        AtMostOneMoveWithoutRelease(s, es[1..]);
      } else {
        assert Accepts(s, es[0].page);
        PressesWhileSlidingIgnored(t, es[1..]);
      }
    }
  }

  /** Two back-to-back presses: at most one of them moves the strip. */
  lemma BackToBackPresses(s: State, d1: Direction, p1: Page, d2: Direction, p2: Page)
    ensures var t := Slide(s, d1, p1);
            t.offset == s.offset || Slide(t, d2, p2) == t
  {
  }

  /** `n` rounds of a press followed by the latch timer, all on the same page. */
  function Rounds(s: State, dir: Direction, page: Page, n: nat): State
    decreases n
  {
    if n == 0 then s else Rounds(Released(Slide(s, dir, page)), dir, page, n - 1)
  }

  /**
   * Pressing "next" `n >= 1` times, each time after the latch cleared, leaves the
   * offset at `min(offset + n * step, maxScroll)`: it never exceeds `maxScroll`.
   */
  lemma {:induction false} NextRoundsClosedForm(s: State, page: Page, n: nat)
    requires !s.sliding && page.grid.Cards? && n >= 1
    ensures var g := page.grid;
            var step := StepSize(g.cardWidth, page.innerWidth);
            var r := Rounds(s, Next, page, n);
            !r.sliding && r.offset == Min(s.offset + n * step, MaxScroll(g.scrollWidth, g.parentWidth))
    decreases n
  {
    var g := page.grid;
    var step := StepSize(g.cardWidth, page.innerWidth);
    var t := Released(Slide(s, Next, page));
    if n > 1 {
      NextRoundsClosedForm(t, page, n - 1);
      assert s.offset + n * step == s.offset + step + (n - 1) * step;
    }
  }

  /**
   * Pressing "prev" `n >= 1` times from an offset within `[0, maxScroll]` leaves it at
   * `max(offset - n * step, 0)`.
   */
  lemma {:induction false} PrevRoundsFromRange(s: State, page: Page, n: nat)
    requires !s.sliding && page.grid.Cards?
    requires 0 <= s.offset <= MaxScroll(page.grid.scrollWidth, page.grid.parentWidth)
    ensures var step := StepSize(page.grid.cardWidth, page.innerWidth);
            var r := Rounds(s, Prev, page, n);
            !r.sliding && r.offset == Max(s.offset - n * step, 0)
    decreases n
  {
    var step := StepSize(page.grid.cardWidth, page.innerWidth);
    if n > 0 {
      var t := Released(Slide(s, Prev, page));
      PrevRoundsFromRange(t, page, n - 1);
      if s.offset - step >= 0 {
        assert s.offset - n * step == (s.offset - step) - (n - 1) * step;
      } else {
        assert (n - 1) * step >= 0;
      }
    }
  }

  /**
   * Pressing "prev" never takes the offset below 0 only when the strip is at least
   * as wide as its parent: when `maxScroll < 0` every accepted press puts the offset
   * at `maxScroll`, below 0.
   */
  lemma {:induction false} PrevRoundsBounds(s: State, page: Page, n: nat)
    requires !s.sliding && page.grid.Cards? && n >= 1
    ensures var m := MaxScroll(page.grid.scrollWidth, page.grid.parentWidth);
            var r := Rounds(s, Prev, page, n);
            r.offset <= m && (r.offset >= 0 <==> m >= 0) && (m < 0 ==> r.offset == m)
    decreases n
  {
    if n > 1 {
      PrevRoundsBounds(Released(Slide(s, Prev, page)), page, n - 1);
    }
  }

  /** A concrete press that leaves the offset negative: a 200-wide strip in a 300-wide parent. */
  lemma NegativeOffsetExample()
    ensures Slide(Initial, Prev, Page(Cards(100, 200, 300), 1024)).offset == -100
  {
  }

  /**
   * The carousel's globals, updated in place by `SlideOffers` and by the
   * latch timer.
   */
  class Slider {
    var offset: int
    var sliding: bool

    function Snapshot(): State
      reads this
    {
      State(offset, sliding)
    }

    constructor ()
      ensures Snapshot() == Initial
    {
      offset := 0;
      sliding := false;
    }

    /** One call of `slideOffers(dir)` against the layout `page`. */
    method SlideOffers(dir: Direction, page: Page)
      modifies this
      ensures Snapshot() == Slide(old(Snapshot()), dir, page)
    {
      if sliding {
        return;
      }
      if page.grid.Missing? {
        return;
      }
      sliding := true;
      if page.grid.NoCard? {
        sliding := false;
        return;
      }
      var gap := if page.innerWidth <= MobileMaxWidth then 0 else DesktopGap;
      var step := page.grid.cardWidth + gap;
      if dir == Next {
        offset := offset + step;
      } else if dir == Prev {
        offset := offset - step;
        if offset < 0 {
          offset := 0;
        }
      }
      var maxScroll := page.grid.scrollWidth - page.grid.parentWidth;
      if offset > maxScroll {
        offset := maxScroll;
      }
    }

    /** The 700 ms timer scheduled by an accepted press. */
    method Release()
      modifies this
      ensures Snapshot() == Released(old(Snapshot()))
    {
      sliding := false;
    }
  }
}
