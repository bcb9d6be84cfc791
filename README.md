# Food van site: carousel, cart, dialog and menu state

This project models the stateful logic of the food van website's `script.js`:

- **Carousel** (`slideOffers`): the strip offset `offerSlideIndex` and the latch
  `isSliding`. One press reads the page layout, which the model takes as a `Page`
  value (grid missing, grid without a card, or a grid with its first card's width,
  its scroll width and its parent's width, plus the viewport width). The step is the
  card width plus a gap of 0 on viewports at most 480 wide and 30 otherwise. The
  700 ms timer that clears the latch is the separate `Release` event.
- **Cart** (`cart`, `addToCartFromModal`, `saveCart`, `updateCartCount`): an
  append-only list of `{id, name, quantity}` entries, its stored copy and the page's
  cart counter. The parsed quantity is an `Option<int>` (`None` is NaN) and the id is
  supplied by the caller.
- **Add-to-cart dialog** (`openModal`, `closeModal`, `window.onclick`): the `show`
  class and the quantity field.
- **Hamburger menu** (`setupHamburgerMenu`): the two `active` classes.

Each piece is a pure state datatype with transition functions, a class holding
the script's globals whose methods are proved to follow those functions, and
lemmas over event traces.

One might expect the carousel offset to stay in `[0, maxScroll]`: the cap at
script.js:255-259 is commented as preventing scrolling too far. The code floors
a backward move at 0 (script.js:252) *before* it caps at `maxScroll`
(script.js:257-259). So when the strip is narrower than its parent,
`maxScroll < 0`, and every accepted "prev" leaves the offset at `maxScroll`,
which is negative (`Carousel.PrevRoundsBounds`, `Carousel.NegativeOffsetExample`).
The model follows the code.

Other points where the model follows the code:

- A direction other than "next"/"prev" still sets the latch and still applies the cap.
- A grid with no card sets the latch and clears it again at once.
- Loading uses `JSON.parse(...) || []` (script.js:6). An absent key, and a stored
  `null`, `false`, `0` or `""`, give `[]`. A payload that does not parse makes
  `JSON.parse` throw, so there is no silent fallback for it. A payload that parses
  to a truthy non-array, such as `{}`, loads without error and fails later at
  `cart.push` (script.js:33).

## Model

| member | source | states |
|---|---|---|
| Carousel.Target | script.js:247-259 | the new offset never exceeds maxScroll; after "prev" it is >= 0 exactly when maxScroll >= 0; "next" within range moves by exactly one step; another direction within range stays put |
| Carousel.Slide | script.js:224-259 | a press that is not accepted (latch set, grid missing, no card) changes nothing; an accepted press sets the latch and leaves the offset <= maxScroll; after "prev" the offset is >= 0 iff scrollWidth >= parentWidth |
| Carousel.Released | script.js:274-277 | the latch timer clears the latch and keeps the offset |
| Carousel.StepByViewport | script.js:239-245 | step is the card width when innerWidth <= 480, card width + 30 otherwise |
| Carousel.AcceptedPress | script.js:247-259 | accepted "next" gives min(old + step, maxScroll); "prev" gives min(max(old - step, 0), maxScroll); any other direction gives min(old, maxScroll); the latch ends set |
| Carousel.EmptyGridNoEffect | script.js:230-237 | a grid without a card leaves offset and latch as they were |
| Carousel.PressesWhileSlidingIgnored | script.js:225 | while the latch is set, any run of presses leaves the state untouched and moves nothing |
| Carousel.LatchHeldUntilRelease | script.js:230-277 | after an accepted press the latch stays set through any presses until the timer fires |
| Carousel.AtMostOneMoveWithoutRelease | script.js:224-259 | any run of presses with no timer between them changes the offset at most once |
| Carousel.BackToBackPresses | script.js:224-230 | of two back-to-back presses, either the first does not move the strip or the second is a no-op |
| Carousel.NextRoundsClosedForm | script.js:248-259 | n >= 1 rounds of "next" then timer give offset min(start + n*step, maxScroll), never above maxScroll |
| Carousel.PrevRoundsFromRange | script.js:250-259 | from an offset in [0, maxScroll], n rounds of "prev" give max(start - n*step, 0) |
| Carousel.PrevRoundsBounds | script.js:250-259 | after n >= 1 rounds of "prev" the offset is <= maxScroll, is >= 0 iff maxScroll >= 0, and equals maxScroll when maxScroll < 0 |
| Carousel.NegativeOffsetExample | script.js:250-259 | a 200-wide strip in a 300-wide parent: "prev" from 0 leaves the offset at -100 |
| Carousel.Slider.constructor | script.js:221-222 | the page starts at offset 0 with the latch clear |
| Carousel.Slider.SlideOffers | script.js:224-259 | the step-by-step update of the two globals yields exactly `Slide` of the old state |
| Carousel.Slider.Release | script.js:275-277 | the timer callback yields exactly `Released` of the old state |
| ShoppingCart.ItemName | script.js:30 | the name is the sibling's text when that is non-empty, "Item" otherwise; never empty |
| ShoppingCart.Added | script.js:32-37 | a quantity > 0 appends exactly one entry {id, name, quantity} with quantity > 0 at the end; earlier entries unchanged; otherwise (<= 0 or NaN) the cart is unchanged |
| ShoppingCart.Loaded | script.js:6 | an absent key loads an empty cart |
| ShoppingCart.SaveThenLoad | script.js:6 | loading what was saved gives back the same ordered list; with storage modelled as the list itself, this does not cover the `JSON.stringify`/`JSON.parse` round trip |
| ShoppingCart.AddAfterOpen | script.js:32-37 | an add right after the dialog opens appends an entry of quantity 1 |
| ShoppingCart.AddAllAppends | script.js:32-37 | any sequence of add attempts leaves the old cart as a prefix followed by one entry per accepted attempt, in order |
| ShoppingCart.AcceptedWellFormed | script.js:32-37 | entries created by attempts number exactly the accepted attempts, each with quantity >= 1 and a non-empty name |
| ShoppingCart.Cart.Load | script.js:6 | the cart in memory is the stored list (empty if absent) and is in sync with storage |
| ShoppingCart.Cart.UpdateCartCount | script.js:18-23 | when the counter exists it shows the cart's length; otherwise nothing changes |
| ShoppingCart.Cart.SaveCart | script.js:45-47 | storage holds exactly the cart in memory |
| ShoppingCart.Cart.AddToCartFromModal | script.js:25-43 | the cart becomes `Added` of the old cart; when accepted, storage equals the cart, the counter shows its length and the dialog is closed; otherwise cart, storage, counter and dialog are all unchanged |
| ModalDialog.Opened | script.js:75-92 | with the dialog on the page: shown, quantity 1; without it: nothing changes |
| ModalDialog.Closed | script.js:94-99 | with the dialog on the page it is hidden; the quantity field is untouched |
| ModalDialog.Clicked | script.js:102-107 | a click on the backdrop closes the dialog; a click elsewhere, or any click when the dialog is absent, changes nothing |
| ModalDialog.AbsentNeverShown | script.js:75-99 | a dialog missing from the page is never shown under any sequence of events |
| ModalDialog.OpenThenClose | script.js:90-107 | open then close, or open then backdrop click, hides the dialog; a click on its content keeps it open |
| ModalDialog.CloseIdempotent | script.js:94-99 | closing twice equals closing once |
| ModalDialog.Modal.OpenModal | script.js:75-92 | the class's update is exactly `Opened` |
| ModalDialog.Modal.CloseModal | script.js:94-99 | the class's update is exactly `Closed`, and the dialog ends hidden |
| ModalDialog.Modal.WindowClick | script.js:102-107 | the class's update is exactly `Clicked` |
| NavMenu.Toggled | script.js:124-127 | a hamburger click flips both flags |
| NavMenu.LinkClicked | script.js:132-135 | a link click clears both flags |
| NavMenu.ToggleTwice | script.js:124-127 | two hamburger clicks restore the flags |
| NavMenu.LockstepPreserved | script.js:123-136 | flags that start equal stay equal under any sequence of clicks |
| NavMenu.ToggleParity | script.js:124-127 | after hamburger clicks only, each flag is flipped iff the number of clicks is odd |
| NavMenu.LinkClickCloses | script.js:130-135 | whatever came before, a link click leaves both flags clear |
| NavMenu.Menu.constructor | script.js:119-123 | the listeners are attached (`wired`) exactly when both the hamburger and the link panel were found |
| NavMenu.Menu.HamburgerClick | script.js:124-127 | the class's update is exactly the toggle event (nothing when not wired) |
| NavMenu.Menu.LinkClick | script.js:132-135 | the class's update is exactly the link event (nothing when not wired) |

## Left out

- DOM lookups, `innerHTML` templating, inline styles and the injected keyframes (script.js:53-63, 81-87, 191-215): presentation only. Lookups become `Page`, `present`, `wired` and `hasCounter` inputs.
- The `translateX` written after a press (script.js:262) and the button pulse (script.js:265-272): presentation only. For a negative offset the code writes `translateX(--Npx)`; the model does not capture what the browser does with that.
- `parseFloat(itemPrice).toFixed(2)` (script.js:85): floating-point formatting. `openModal`'s name, price and icon arguments only feed the templating, so `OpenModal` takes none.
- `parseInt` and reading the quantity field: the model holds the parsed value as `Option<int>`. `ModalDialog.Modal.EnterQuantity` stands for the user typing into the field.
- `JSON.parse`, `JSON.stringify` and `localStorage` (script.js:6, 46): storage is an abstract `Option<seq<Entry>>`, so the stored value is modelled only as absent (or falsy) or a well-formed entry list. A malformed payload, which throws at load, and a truthy non-array payload, which throws at the first `cart.push`, are not modelled. A failed write (quota) is not modelled either, so `Synced` always holds.
- `Date.now()` as the id (script.js:34): the id is a parameter, and nothing is claimed about uniqueness.
- `setTimeout` for the toast, the pulse and the form acknowledgment (script.js:66-68, 154-162, 269-272): only the latch reset matters, and it is the explicit `Release`. `showNotification` (script.js:49-69) is DOM work only.
- The contact form handler (script.js:144-164): a three-field non-empty check that feeds timers and a DOM reset.
- The scroll-reveal observer (script.js:170-188): a browser callback. It re-applies the animation on every intersection, so there is no "once only" to prove.
- Crashes from missing elements the code does not guard. In `addToCartFromModal`, an absent `#quantity` (script.js:26), `#modal-item-details` (script.js:27) or `.modal-content h2` (script.js:30) throws before the quantity test, so nothing is added. In `openModal`, an absent `#quantity` throws at script.js:91 after `show` was added, so the dialog ends shown and the field is not reset; `ModalDialog.Opened` assumes the reset happens. In `slideOffers`, a grid without a parent element throws after the latch was set, so the latch stays set for good. The model assumes all these elements exist.
