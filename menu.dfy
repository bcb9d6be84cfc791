/**
 * The mobile navigation menu (`setupHamburgerMenu` in script.js): the hamburger
 * button and the link panel each carry an `active` class. The listeners exist only
 * when both elements were found at page load.
 */
module NavMenu {

  datatype Flags = Flags(navActive: bool, burgerActive: bool)

  predicate InLockstep(f: Flags)
  {
    f.navActive == f.burgerActive
  }

  /** A hamburger click flips both `active` classes. */
  function Toggled(f: Flags): (r: Flags)
    ensures r.navActive != f.navActive && r.burgerActive != f.burgerActive
  {
    Flags(!f.navActive, !f.burgerActive)
  }

  /** A click on a link in the panel removes both `active` classes. */
  function LinkClicked(f: Flags): (r: Flags)
    ensures !r.navActive && !r.burgerActive
  {
    Flags(false, false)
  }

  datatype Event = HamburgerClick | LinkClick

  /** `wired` says whether both elements existed, so that the listeners were attached. */
  function Apply(wired: bool, f: Flags, e: Event): Flags
  {
    if !wired then f
    else match e
      case HamburgerClick => Toggled(f)
      case LinkClick => LinkClicked(f)
  }

  function Run(wired: bool, f: Flags, es: seq<Event>): Flags
    decreases |es|
  {
    if es == [] then f else Run(wired, Apply(wired, f, es[0]), es[1..])
  }

  /** Two hamburger clicks restore the flags. */
  lemma ToggleTwice(f: Flags)
    ensures Toggled(Toggled(f)) == f
  {
  }

  /** Flags that start equal stay equal under any sequence of clicks. */
  lemma {:induction false} LockstepPreserved(wired: bool, f: Flags, es: seq<Event>)
    requires InLockstep(f)
    ensures InLockstep(Run(wired, f, es))
    decreases |es|
  {
    if es != [] {
      LockstepPreserved(wired, Apply(wired, f, es[0]), es[1..]);
    }
  }

  function CountToggles(es: seq<Event>): nat
    decreases |es|
  {
    if es == [] then 0 else (if es[0] == HamburgerClick then 1 else 0) + CountToggles(es[1..])
  }

  /** From any flags, after hamburger clicks only, each flag is flipped exactly when the number of clicks is odd. */
  lemma {:induction false} ToggleParity(f: Flags, es: seq<Event>)
    requires forall i :: 0 <= i < |es| ==> es[i] == HamburgerClick
    ensures var r := Run(true, f, es);
            r.navActive == (f.navActive != (CountToggles(es) % 2 == 1)) &&
            r.burgerActive == (f.burgerActive != (CountToggles(es) % 2 == 1))
    decreases |es|
  {
    if es != [] {
      ToggleParity(Toggled(f), es[1..]);
    }
  }

  /** A link click closes the menu whatever came before it. */
  lemma LinkClickCloses(f: Flags, es: seq<Event>)
    ensures Run(true, f, es + [LinkClick]) == Flags(false, false)
  {
    RunSnoc(true, f, es, LinkClick);
  }

  lemma {:induction false} RunSnoc(wired: bool, f: Flags, es: seq<Event>, e: Event)
    ensures Run(wired, f, es + [e]) == Apply(wired, Run(wired, f, es), e)
    decreases |es|
  {
    if es == [] {
      assert es + [e] == [e];
    } else {
      assert (es + [e])[1..] == es[1..] + [e];
      RunSnoc(wired, Apply(wired, f, es[0]), es[1..], e);
    }
  }

  /** The two elements' `active` classes. */
  class Menu {
    const wired: bool
    var navActive: bool
    var burgerActive: bool

    function Snapshot(): Flags
      reads this
    {
      Flags(navActive, burgerActive)
    }

    /** `setupHamburgerMenu` at page load, told which of the two elements were found. */
    constructor (hasHamburger: bool, hasNavLinks: bool, initial: Flags)
      ensures wired == (hasHamburger && hasNavLinks)
      ensures Snapshot() == initial
    {
      wired := hasHamburger && hasNavLinks;
      navActive := initial.navActive;
      burgerActive := initial.burgerActive;
    }

    method HamburgerClick()
      modifies this
      ensures Snapshot() == Apply(wired, old(Snapshot()), Event.HamburgerClick)
    {
      if wired {
        navActive := !navActive;
        burgerActive := !burgerActive;
      }
    }

    method LinkClick()
      modifies this
      ensures Snapshot() == Apply(wired, old(Snapshot()), Event.LinkClick)
    {
      if wired {
        navActive := false;
        burgerActive := false;
      }
    }
  }
}
