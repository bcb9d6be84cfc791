/**
 * The shopping cart (`cart`, `addToCartFromModal`, `saveCart`, `updateCartCount`
 * in script.js): a list of entries that only grows, a copy of it kept in browser
 * storage, and a counter on the page showing its length.
 */
module ShoppingCart {
  import opened Wrappers
  import ModalDialog

  /** One `{id, name, quantity}` record. */
  datatype Entry = Entry(id: int, name: string, quantity: int)

  /** Name used when the dialog shows no text after its heading. */
  const DefaultName := "Item"

  /**
   * The item name read from the dialog: the text of the heading's next sibling, or
   * "Item" when there is no sibling or its text is empty.
   */
  function ItemName(siblingText: Option<string>): (n: string)
    ensures n != []
    ensures siblingText.Some? && siblingText.value != [] ==> n == siblingText.value
    ensures siblingText == None || siblingText == Some([]) ==> n == DefaultName
  {
    if siblingText.Some? && siblingText.value != [] then siblingText.value else DefaultName
  }

  /** An add goes ahead only for a number greater than 0 (NaN fails the test). */
  predicate Accepts(quantity: Option<int>)
  {
    quantity.Some? && quantity.value > 0
  }

  /** The cart after one `addToCartFromModal`. */
  function Added(items: seq<Entry>, id: int, quantity: Option<int>, siblingText: Option<string>): (r: seq<Entry>)
    ensures |r| == |items| + (if Accepts(quantity) then 1 else 0)
    ensures r[..|items|] == items
    ensures Accepts(quantity) ==> r[|items|] == Entry(id, ItemName(siblingText), quantity.value) && r[|items|].quantity > 0
  {
    if Accepts(quantity) then items + [Entry(id, ItemName(siblingText), quantity.value)] else items
  }

  /** The cart read at page load: the stored list, or empty when the key is absent. */
  function Loaded(stored: Option<seq<Entry>>): (r: seq<Entry>)
    ensures stored.None? ==> r == []
  {
    stored.GetOr([])
  }

  /**
   * Saving a cart and loading it again gives back the same list, in the same order.
   * Storage holds the list itself, so this does not cover the JSON encoding.
   */
  lemma SaveThenLoad(items: seq<Entry>)
    ensures Loaded(Some(items)) == items
  {
  }

  /** Right after the dialog opens, an add appends one entry with a quantity of 1. */
  lemma AddAfterOpen(items: seq<Entry>, m: ModalDialog.State, id: int, siblingText: Option<string>)
    ensures Added(items, id, ModalDialog.Opened(true, m).quantity, siblingText)
            == items + [Entry(id, ItemName(siblingText), 1)]
  {
  }

  /** One click on the dialog's add button: the id it gets, the parsed quantity and the name text. */
  datatype Attempt = Attempt(id: int, quantity: Option<int>, siblingText: Option<string>)

  /** The cart after a sequence of add attempts, in order. */
  function AddAll(items: seq<Entry>, attempts: seq<Attempt>): seq<Entry>
    decreases |attempts|
  {
    if attempts == [] then items
    else
      var a := attempts[0];
      AddAll(Added(items, a.id, a.quantity, a.siblingText), attempts[1..])
  }

  /** The entries that a sequence of attempts creates: one per accepted attempt, in order. */
  function Accepted(attempts: seq<Attempt>): seq<Entry>
    decreases |attempts|
  {
    if attempts == [] then []
    else
      var a := attempts[0];
      (if Accepts(a.quantity) then [Entry(a.id, ItemName(a.siblingText), a.quantity.value)] else [])
        + Accepted(attempts[1..])
  }

  function AcceptedCount(attempts: seq<Attempt>): nat
    decreases |attempts|
  {
    if attempts == [] then 0
    else (if Accepts(attempts[0].quantity) then 1 else 0) + AcceptedCount(attempts[1..])
  }

  /**
   * Attempts only ever append: the old cart stays as a prefix, and what follows is
   * one entry per accepted attempt.
   */
  lemma {:induction false} AddAllAppends(items: seq<Entry>, attempts: seq<Attempt>)
    ensures AddAll(items, attempts) == items + Accepted(attempts)
    decreases |attempts|
  {
    if attempts != [] {
      var a := attempts[0];
      var next := Added(items, a.id, a.quantity, a.siblingText);
      AddAllAppends(next, attempts[1..]);
      if Accepts(a.quantity) {
        assert next == items + [Entry(a.id, ItemName(a.siblingText), a.quantity.value)];
      }
    }
  }

  /** Every entry created in the session has a quantity of at least 1 and a non-empty name. */
  lemma {:induction false} AcceptedWellFormed(attempts: seq<Attempt>)
    ensures |Accepted(attempts)| == AcceptedCount(attempts) <= |attempts|
    ensures forall e :: e in Accepted(attempts) ==> e.quantity >= 1 && e.name != []
    decreases |attempts|
  {
    if attempts != [] {
      AcceptedWellFormed(attempts[1..]);
    }
  }

  /**
   * The cart in memory, its stored copy (`None` until the key is written) and the
   * number shown by the page's cart counter.
   */
  class Cart {
    var items: seq<Entry>
    var stored: Option<seq<Entry>>
    const hasCounter: bool
    var shownCount: int

    /** Reloading the page from storage gives back the cart in memory. */
    ghost predicate Synced()
      reads this
    {
      Loaded(stored) == items
    }

    /**
     * The script's first line, reading the stored list; `hasCounter` says whether
     * the page has a cart counter, which shows `markupCount` until it is updated.
     */
    constructor Load(persisted: Option<seq<Entry>>, hasCounter: bool, markupCount: int)
      ensures Synced()
      ensures items == Loaded(persisted) && stored == persisted
      ensures this.hasCounter == hasCounter && shownCount == markupCount
    {
      items := Loaded(persisted);
      stored := persisted;
      this.hasCounter := hasCounter;
      shownCount := markupCount;
    }

    method UpdateCartCount()
      modifies this`shownCount
      ensures shownCount == if hasCounter then |items| else old(shownCount)
    {
      if hasCounter {
        shownCount := |items|;
      }
    }

    /** Writes the whole list over the stored copy. */
    method SaveCart()
      modifies this`stored
      ensures Synced() && stored == Some(items)
    {
      stored := Some(items);
    }

    /**
     * The dialog's add button, with `id` the timestamp it assigns and
     * `siblingText` the text after the dialog's heading. With a quantity above 0
     * it appends the entry, saves, refreshes the counter and closes the dialog;
     * otherwise nothing changes.
     */
    method AddToCartFromModal(modal: ModalDialog.Modal, id: int, siblingText: Option<string>)
      requires modal.Valid()
      modifies this, modal
      ensures modal.Valid()
      ensures items == Added(old(items), id, old(modal.quantity), siblingText)
      ensures Accepts(old(modal.quantity)) ==>
                Synced() && stored == Some(items) &&
                shownCount == (if hasCounter then |items| else old(shownCount)) &&
                modal.Snapshot() == ModalDialog.Closed(modal.present, old(modal.Snapshot()))
      ensures !Accepts(old(modal.quantity)) ==> unchanged(this) && unchanged(modal)
    {
      var quantity := modal.quantity;
      if quantity.Some? && quantity.value > 0 {
        items := items + [Entry(id, ItemName(siblingText), quantity.value)];
        SaveCart();
        UpdateCartCount();
        modal.CloseModal();
      }
    }
  }
}
