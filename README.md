# PeelnCraft storefront: cart and image carousel

This project models the state logic of the storefront's home page (`Home` in
`src/App.jsx`) and proves properties about it. It covers two parts.

- **The shopping cart.** This is an ordered sequence of line items
  `{productId, title, price, quantity}`.
  - "Add to Cart" merges lines by product id.
  - Each line has "-", "+" and trash buttons.
  - The cart panel shows the rupee total, and the header badge shows the item
    count.
  - A successful order empties the cart.
  - Every change is written back to persistent storage.
- **The product modal's image carousel.** This is an index that moves with
  "Next", "Prev" and the swipes that call them. It resets to 0 when a product
  is opened and jumps directly when a dot is clicked.

The project has three modules:

- `Cart` (`cart.dfy`) holds the line items as values: the fold behind the
  total and the badge, the first-match search, and the result of each button
  as a function. Beside them are lemmas about single steps and about any
  sequence of "Add to Cart" presses.
- `Carousel` (`carousel.dfy`) holds the index steps as functions, with lemmas
  about any sequence of actions.
- `Storefront` (`home.dfy`) holds the component itself as the class `Home`.
  Its fields are the component's state: `cart`, its persisted copy `saved`,
  the open product `active`, `imageIndex`, and the two panel flags. Each
  handler is a method.
  - The cart handlers and the two carousel steps state their new state as the
    `Cart` or `Carousel` function for that step: `AddToCart`, `Decrement`,
    `Increment`, `Remove`, `NextImage` and `PrevImage`. The other methods
    state the new field values directly.
  - The cart handlers keep `WellFormed` (one line per product, no quantity
    below 1) whenever the cart held it before. The constructor does not
    establish it, because the restored cart is taken as stored, unchecked.
  - `NextImage`, `PrevImage`, `OpenProduct` and `ShowImage` keep or establish
    `IndexInRange`: while an open product has images, the index is in range.

Prices are whole rupees and quantities are unit counts, so both are `nat`.
Product ids are strings.

How the code handles its edge cases:

- **Restoring the cart from storage.** Line 43 parses the stored value without
  a guard, so a malformed stored value throws. The constructor takes the
  already-parsed value, or nothing when the key is absent.
- **"-" and "+" with an index out of range.** These handlers index `c[idx]`
  directly (`src/App.jsx:410-411`, `421-422`), so an index outside the cart
  would throw. They are only called with indices from `cart.map`, so
  `Decrement` and `Increment` require `idx < |cart|`.
- **The trash button with an index out of range.** This leaves the cart
  unchanged, because the handler is a `filter`. `Remove` accepts any integer.

Three behaviours the proofs make explicit:

- **The stored price is charged.** Adding a product that already has a line
  adds that line's price, taken when the product was first added, not the
  product's current price (`AddToCartTotal`).
- **The search uses the first match.** If a restored cart held two lines for
  one product, only the first would grow. `QuantityOf` adds up all lines for
  a product, so `AddAllQuantity` holds even then.
- **"Next" with no images.** For a product with `imagesCount = 0`, "Next"
  yields index -1 (`NextIndex` ensures `count <= 0 ==> r < 0`). The swipe
  handlers stay attached even when the buttons and dots are hidden
  (`src/App.jsx:297`, `315`). With no images there is no valid index at all,
  so this is recorded as behaviour, not as a defect.

## Model

| member | source | states |
|---|---|---|
| `Cart.FindIndex` | src/App.jsx:79 | result is -1 exactly when no line has the id; otherwise it is the first line with that id |
| `Cart.AddToCart` | src/App.jsx:77-89 | when the product has a line, the length is kept and the first such line gains one unit; otherwise one line for the product with quantity 1 is appended after the unchanged old lines. `Cart.AddToCartSpec` states this without the search |
| `Cart.AddToCartSpec` | src/App.jsx:77-89 | the first line for the product gains exactly one unit and every other line and the length are unchanged; if the product has no line, a line `{id, title, price, 1}` is appended after the unchanged old lines |
| `Cart.Incremented` | src/App.jsx:420-423 | "+" raises line `idx` by exactly one unit with no upper bound; product, title, price, the length and all other lines are kept |
| `Cart.Decremented` | src/App.jsx:409-412 | "-" sets the line to `max(1, q - 1)`: quantity 1 stays 1, the result is never 0, product, title and price stay, other lines unchanged |
| `Cart.RemoveAt` | src/App.jsx:431 | the position filter deletes exactly line `idx` and keeps the rest in order; an index outside the list leaves the cart unchanged |
| `Cart.Total` | src/App.jsx:94 | the total bounds every line's price times quantity, and it is 0 exactly when every line's price times quantity is 0 |
| `Cart.ItemCount` | src/App.jsx:184 | the item count bounds every line's quantity, and it is 0 exactly when every quantity is 0 |
| `Cart.TotalAppend` | src/App.jsx:94 | the total of an empty cart is 0 and the total and item count are additive over concatenation |
| `Cart.TotalExample` | src/App.jsx:94 | lines 500 x 2 and 300 x 1 give a total of 1300 and a count of 3 |
| `Cart.HeaderBadge` | src/App.jsx:182-185 | the badge is shown exactly when the cart has a line, and then shows the item count (the sum of the quantities), which is at least one per line unless some line has quantity 0 |
| `Cart.BadgeCountsLines` | src/App.jsx:184 | the item count is at least the number of lines when no line has quantity 0 |
| `Cart.AddToCartTotal` | src/App.jsx:77-94 | one add raises the item count by 1 and the total by the line's stored price, or by the product's price for a new line |
| `Cart.IncrementedTotal` | src/App.jsx:420-423 | "+" raises the total by the line's price and the count by 1 |
| `Cart.DecrementedTotal` | src/App.jsx:409-412 | "-" on a quantity of at least 2 lowers the total by the line's price and the count by 1; on quantity 1 the cart is unchanged |
| `Cart.RemoveAtTotal` | src/App.jsx:431 | removing a line lowers the total by its subtotal and the badge count by its quantity; an out-of-range index changes neither the total nor the count |
| `Cart.AddAgainExample` | src/App.jsx:77-94 | adding A to a cart holding one A at 100 gives one A with quantity 2 and total 200 |
| `Cart.AddToCartWellFormed` | src/App.jsx:77-89 | adding keeps one line per product and all quantities at least 1, and the set of products becomes the old set plus the added one |
| `Cart.IncrementedWellFormed` | src/App.jsx:420-423 | "+" keeps one line per product and quantities at least 1 |
| `Cart.DecrementedWellFormed` | src/App.jsx:409-412 | "-" keeps one line per product and quantities at least 1 |
| `Cart.RemoveAtWellFormed` | src/App.jsx:431 | removing keeps one line per product and quantities at least 1 |
| `Cart.AddToCartQuantity` | src/App.jsx:77-89 | one add raises the units of that product by exactly 1 and leaves every other product's units unchanged |
| `Cart.LineQuantity` | src/App.jsx:79-83 | with one line per product, the units of a product are that line's quantity |
| `Cart.AddAllQuantity` | src/App.jsx:77-89 | after any sequence of adds, each product's units are its starting units plus the number of adds of it |
| `Cart.AddAllKeepsLines` | src/App.jsx:77-89 | after any sequence of adds, earlier lines keep their position, product, title and price, and their quantities never fall |
| `Cart.AddToCartIds` | src/App.jsx:77-89 | one add keeps distinct products distinct, and the set of products becomes the old set plus the added one |
| `Cart.AddAllIds` | src/App.jsx:77-89 | any sequence of adds keeps distinct products distinct, and the products in the cart become the old ones plus those added |
| `Cart.AddAllWellFormed` | src/App.jsx:77-89 | any sequence of adds keeps one line per product and quantities at least 1 |
| `Cart.AddAllLines` | src/App.jsx:77-89 | from a cart with distinct products, any sequence of adds leaves one line per product, the products are the old ones plus those added, and each line's quantity is its starting quantity plus the adds of that product |
| `Cart.AddAllFromEmpty` | src/App.jsx:77-89 | from an empty cart, each line's quantity is the number of times its product was added |
| `Carousel.NextIndex` | src/App.jsx:54 | "Next" moves one image forward and stops at `imagesCount - 1`; an index in range stays in range; with no images the result is negative |
| `Carousel.PrevIndex` | src/App.jsx:59 | "Prev" moves one image back and stops at 0; the result is never negative |
| `Carousel.Step` | src/App.jsx:52-60 | one action keeps an in-range index in range when a dot click is for a drawn dot; a dot click sets the index to its position, "Prev" never goes below 0 and "Next" never passes `imagesCount - 1` |
| `Carousel.Run` | src/App.jsx:52-60 | after a sequence of actions, the last one decides the bound: a final dot click fixes the index, a final "Prev" leaves it non-negative and a final "Next" leaves it at most `imagesCount - 1`; no actions leave it unchanged |
| `Carousel.RunInRange` | src/App.jsx:52-60 | from an index in `[0, imagesCount - 1]`, any sequence of Next, Prev and in-range dot clicks stays in that range |
| `Carousel.NextRepeated` | src/App.jsx:52-55 | n presses of "Next" from index i give `min(i + n, imagesCount - 1)` |
| `Carousel.PrevRepeated` | src/App.jsx:57-60 | n presses of "Prev" from index i give `max(i - n, 0)` |
| `Carousel.FourNextsOfThree` | src/App.jsx:52-55 | with 3 images, four presses of "Next" from 0 give index 2 |
| `Storefront.Home.constructor` | src/App.jsx:42-47 | the cart is the stored one, or empty when nothing is stored; no product is open and the index is 0 |
| `Storefront.Home.AddToCart` | src/App.jsx:77-92 | the new cart is the merge of the old cart with the product, it is persisted, the count rises by 1, the invariant is kept, the modal closes and the cart panel opens |
| `Storefront.Home.Decrement` | src/App.jsx:409-413 | the line becomes `max(1, q - 1)`, it is persisted, the total drops by the price when q is at least 2, the cart is unchanged when q is 1, and the invariant is kept |
| `Storefront.Home.Increment` | src/App.jsx:420-424 | the line gains one unit, it is persisted, the total rises by the price and the count by 1, and the invariant is kept |
| `Storefront.Home.Remove` | src/App.jsx:430-432 | the new cart is `RemoveAt` of the old one: exactly line `idx` is deleted with order kept, the count drops by its quantity, an out-of-range index changes nothing, the change is persisted and the invariant is kept |
| `Storefront.Home.OpenCheckout` | src/App.jsx:449-453 | the delivery form opens; the button is only enabled for a non-empty cart |
| `Storefront.Home.OrderPlaced` | src/App.jsx:476-481 | on a successful order the cart and its stored copy are empty, total and count are 0, and both panels close |
| `Storefront.Home.OpenProduct` | src/App.jsx:107-112 | the opened product becomes active and the carousel restarts at image 0 |
| `Storefront.Home.CloseProduct` | src/App.jsx:292 | the modal's close button clears the active product |
| `Storefront.Home.NextImage` | src/App.jsx:52-55 | the index takes the "Next" step for the open product's image count and stays in range |
| `Storefront.Home.PrevImage` | src/App.jsx:57-60 | the index takes the "Prev" step and stays in range |
| `Storefront.Home.ShowImage` | src/App.jsx:328-336 | a dot click sets the index to the dot's position, which is in range |

## Left out

- Rendering is not modelled: the JSX markup, styles, `framer-motion`
  animation, the typewriter banner, and the `direction` state, which only
  chooses the slide animation.
- The swipe library wiring (`src/App.jsx:72-75`) is not modelled. It only
  forwards to `NextImage` and `PrevImage`.
- Network calls are not modelled: the catalog list, product detail, order
  and auth requests. `OpenProduct` takes the fetched product as a parameter.
  `OrderPlaced` models only the success callback. The failure path, where
  the promise is rejected and the cart is untouched, has no handler in the
  code, so there is nothing to model.
- Persistent storage is reduced to the `saved` field, which equals `cart`
  after every cart update. JSON encoding, decoding and the stored delivery
  details are not modelled. Neither are the stored login token and profile,
  or logout.
- `Storefront.Home.AddToCart`, `Storefront.Home.Decrement`,
  `Storefront.Home.Increment`: each handler writes the quantity through a
  shallow copy of the array (`src/App.jsx:81-82`, `410-411`, `421-422`). This
  also mutates the line object of the current state. The model updates a value
  and does not capture this aliasing. It cannot be observed when handlers run
  one after another. It would show only if React ran an updater twice, and
  the app's entry point is not part of this model.
- The unused `checkout` function (`src/App.jsx:99-105`) is not modelled.
- The admin dashboard and the login modal
  (`src/components/AdminDashboard.jsx`, `src/components/LoginModal.jsx`) are
  not modelled. They consist of form handling, HTTP calls and storage writes.
- JavaScript numbers are floating point. The model takes prices and
  quantities as non-negative integers. A new line's price is copied from the
  catalog response (`src/App.jsx:87`), and the catalog server is not part of
  this model. A restored cart's prices and quantities come from storage
  unchecked. Non-integral or negative values from either source are not
  modelled.
