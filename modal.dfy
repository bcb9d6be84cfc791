/**
 * The add-to-cart dialog (`openModal`, `closeModal` and the window click handler
 * in script.js). The dialog is either on the page or not; when it is, its `show`
 * class is toggled in place, and opening it resets the quantity field to 1.
 */
module ModalDialog {
  import opened Wrappers

  /**
   * Whether the dialog carries `show`, and the quantity field as `parseInt` reads
   * it (`None` for text that is not a number).
   */
  datatype State = State(show: bool, quantity: Option<int>)

  /** `openModal`: only when the dialog exists, show it with a quantity of 1. */
  function Opened(present: bool, m: State): (r: State)
    ensures present ==> r.show && r.quantity == Some(1)
    ensures !present ==> r == m
  {
    if present then State(true, Some(1)) else m
  }

  /** `closeModal`: only when the dialog exists, hide it; the field keeps its text. */
  function Closed(present: bool, m: State): (r: State)
    ensures present ==> !r.show
    ensures r.quantity == m.quantity
    ensures !present ==> r == m
  {
    if present then m.(show := false) else m
  }

  /** The window click handler: closes the dialog only when the click landed on the dialog's own backdrop. */
  function Clicked(present: bool, m: State, onBackdrop: bool): (r: State)
    ensures present && onBackdrop ==> !r.show
    ensures !onBackdrop ==> r == m
    ensures !present ==> r == m
    ensures r.quantity == m.quantity
  {
    if present && onBackdrop then Closed(present, m) else m
  }

  /** The events the dialog reacts to; `Enter` is the user typing into the quantity field. */
  datatype Event = Open | Close | WindowClick(onBackdrop: bool) | Enter(quantity: Option<int>)

  function Apply(present: bool, m: State, e: Event): State
  {
    match e
    case Open => Opened(present, m)
    case Close => Closed(present, m)
    case WindowClick(onBackdrop) => Clicked(present, m, onBackdrop)
    case Enter(q) => m.(quantity := q)
  }

  function Run(present: bool, m: State, es: seq<Event>): State
    decreases |es|
  {
    if es == [] then m else Run(present, Apply(present, m, es[0]), es[1..])
  }

  /** A dialog that is not on the page is never shown, whatever happens. */
  lemma {:induction false} AbsentNeverShown(m: State, es: seq<Event>)
    requires !m.show
    ensures !Run(false, m, es).show
    decreases |es|
  {
    if es != [] {
      AbsentNeverShown(Apply(false, m, es[0]), es[1..]);
    }
  }

  /** Opening and then closing hides the dialog, by the close control or by a backdrop click. */
  lemma OpenThenClose(m: State)
    ensures Closed(true, Opened(true, m)) == State(false, Some(1))
    ensures Clicked(true, Opened(true, m), true) == State(false, Some(1))
    ensures Clicked(true, Opened(true, m), false) == State(true, Some(1))
  {
  }

  /** Closing twice is the same as closing once. */
  lemma CloseIdempotent(present: bool, m: State)
    ensures Closed(present, Closed(present, m)) == Closed(present, m)
  {
  }

  /** The dialog on the page, with its `show` class and quantity field. */
  class Modal {
    const present: bool
    var show: bool
    var quantity: Option<int>

    function Snapshot(): State
      reads this
    {
      State(show, quantity)
    }

    /** A dialog missing from the page is not shown. */
    ghost predicate Valid()
      reads this
    {
      present || !show
    }

    /** The page as loaded: dialog hidden, quantity field holding its markup value. */
    constructor (present: bool, quantity: Option<int>)
      ensures Valid()
      ensures this.present == present && Snapshot() == State(false, quantity)
    {
      this.present := present;
      show := false;
      this.quantity := quantity;
    }

    method OpenModal()
      requires Valid()
      modifies this
      ensures Valid()
      ensures Snapshot() == Opened(present, old(Snapshot()))
    {
      if !present {
        return;
      }
      show := true;
      quantity := Some(1);
    }

    method CloseModal()
      requires Valid()
      modifies this
      ensures Valid() && !show
      ensures Snapshot() == Closed(present, old(Snapshot()))
    {
      if present {
        show := false;
      }
    }

    /** `window.onclick`, told whether the click target is the dialog element itself. */
    method WindowClick(onBackdrop: bool)
      requires Valid()
      modifies this
      ensures Valid()
      ensures Snapshot() == Clicked(present, old(Snapshot()), onBackdrop)
    {
      if present && onBackdrop {
        CloseModal();
      }
    }

    /** The user edits the quantity field. */
    method EnterQuantity(q: Option<int>)
      requires Valid()
      modifies this
      ensures Valid()
      ensures Snapshot() == Apply(present, old(Snapshot()), Enter(q))
    {
      quantity := q;
    }
  }
}
