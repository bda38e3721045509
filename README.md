# Cart ledger

A model of the shopping-cart ledger in `src/hooks/cart.tsx`: an ordered list of
line items (`id`, `title`, `imageUrl`, `price`, `quantity`) with three updates
and a storage slot the updates write to.

- `addToCart` appends a new id with quantity 1, or merges by identity: an id
  already present keeps its stored title, image and price and gets quantity + 1.
- `increment` raises the quantity of a present id by 1; an absent id is a no-op.
- `decrement` lowers the quantity by 1 only when it is above 1; otherwise it is
  a no-op, so no item is ever removed.
- `loadProducts` (hydration) replaces the whole cart with the stored snapshot
  when the slot holds one.

Layout:

- `Wrappers.dfy`: `Option` and `Result`.
- `Cart.dfy` (module `Cart`): the line item, `findIndex` and the three updates
  as pure functions over `seq<Product>`; a map-like reference view `Lookup`
  (first line item with a given id); the invariant `WellFormed` (ids pairwise
  distinct, every quantity at least 1); lemmas relating them.
- `CartLedger.dfy` (module `CartLedger`): class `Ledger` with the fields
  `products` and `stored`, whose methods mirror the callbacks step by step
  (copy, find, overwrite one slot, install, write the slot); the `useCart`
  guard; two client methods walking through the cart's documented scenarios.

Persistence follows the code as written. Each callback writes
`JSON.stringify(products)` where `products` is the value captured when the
callback was made, that is, the cart before the update. So after every
operation the slot holds the previous cart: `stored == Some(old(products))`.
After `addToCart` the slot is always stale (`Cart.OperationsChangeCart`). The
system's design description asks for the post-update cart to be written and
names the pre-update write an ordering hazard; the model follows the code, not
that description, and states the lag explicitly in each method's contract.

In the new-id branch of `addToCart` the source appends to the state through an
updater (`oldState => [...oldState, newProduct]`). Calls are modelled as
synchronous and atomic, so that state is `products`.

## Model

| member | source | states |
|---|---|---|
| Cart.FindIndex | src/hooks/cart.tsx:46 | the result is -1 exactly when no line item has the id; otherwise it is an index holding the id with no earlier index holding it (the first match) |
| Cart.AddToCart | src/hooks/cart.tsx:45-56 | a new id gives the old cart unchanged followed by one line item with the supplied metadata and quantity 1; a present id gives the same length, the first matching slot with quantity + 1 and its stored metadata, and every other slot unchanged |
| Cart.Increment | src/hooks/cart.tsx:69-78 | same length; an absent id leaves the cart equal to before; a present id raises that slot's quantity by exactly 1 and leaves every other slot unchanged |
| Cart.Decrement | src/hooks/cart.tsx:91-100 | same length; when the id is absent or its quantity is at most 1 the cart is unchanged; otherwise that slot's quantity drops by exactly 1 and every other slot is unchanged |
| Cart.LookupIsFindIndex | src/hooks/cart.tsx:46 | the id-to-line-item view finds exactly the slot the lookup index names, and nothing when it is -1 |
| Cart.AddToCartLookup | src/hooks/cart.tsx:46-56 | per id: absent becomes present with quantity 1 and the new metadata, present(n) becomes present(n + 1) with the old metadata, every other id is untouched |
| Cart.IncrementLookup | src/hooks/cart.tsx:70-78 | per id: present(n) becomes present(n + 1), absent stays absent, every other id is untouched |
| Cart.DecrementLookup | src/hooks/cart.tsx:92-100 | per id: present(n) with n > 1 becomes present(n - 1); every other case, and every other id, is unchanged |
| Cart.OperationIds | src/hooks/cart.tsx:48-56 | addToCart adds exactly the item's id to the id set; increment and decrement keep the id set, so no operation removes an item |
| Cart.AddToCartWellFormed | src/hooks/cart.tsx:46-56 | addToCart keeps ids pairwise distinct and every quantity at least 1 |
| Cart.IncrementWellFormed | src/hooks/cart.tsx:72-78 | increment keeps ids pairwise distinct and every quantity at least 1 |
| Cart.DecrementWellFormed | src/hooks/cart.tsx:94-100 | decrement keeps ids pairwise distinct and every quantity at least 1 |
| Cart.DecrementTimesWellFormed | src/hooks/cart.tsx:94-100 | any number of decrements keeps the cart well formed and keeps its set of ids |
| Cart.DecrementFloor | src/hooks/cart.tsx:94-100 | after n decrements an item of quantity q has quantity max(1, q - n) and its metadata unchanged; an absent id stays absent |
| Cart.IdentityMerge | src/hooks/cart.tsx:46-56 | adding two items with the same new id yields the old cart plus one line item with the first item's metadata and quantity 2 |
| Cart.IncrementThenDecrement | src/hooks/cart.tsx:69-100 | on a well-formed cart, increment followed by decrement of the same id restores the cart |
| Cart.OperationsChangeCart | src/hooks/cart.tsx:59-62 | addToCart always changes the cart, as do increment of a present id and decrement of a present id above 1, so the pre-update snapshot written to the slot then differs from the cart |
| CartLedger.Ledger.constructor | src/hooks/cart.tsx:29 | the cart starts empty and the slot holds whatever was stored before the start |
| CartLedger.Ledger.Hydrate | src/hooks/cart.tsx:32-37 | with a stored snapshot the cart becomes exactly that snapshot, otherwise it is unchanged; the slot is unchanged; the ledger invariant is kept |
| CartLedger.Ledger.AddToCart | src/hooks/cart.tsx:43-65 | the cart becomes the pure addToCart of the old cart, the slot holds the old cart, the invariant is kept, and the cart differs from the slot |
| CartLedger.Ledger.Increment | src/hooks/cart.tsx:67-87 | the cart becomes the pure increment of the old cart, the slot holds the old cart, the invariant is kept |
| CartLedger.Ledger.Decrement | src/hooks/cart.tsx:89-109 | the cart becomes the pure decrement of the old cart, the slot holds the old cart, the invariant is kept |
| CartLedger.UseCart | src/hooks/cart.tsx:119-127 | succeeds with the provider's ledger exactly when one is active, otherwise fails with the "must be used within a CartProvider" message |

## Left out

- React machinery (context creation, state scheduling, memoised callbacks, the effect that runs hydration once, the provider element): framework wiring. Hydration is a method a caller runs; nothing forces it to run once or before the first mutation.
- The storage slot is a field assigned synchronously. Real asynchronous reads and writes, and writes landing out of order, are concurrency concerns not modelled.
- `JSON.parse` and `JSON.stringify`: a foreign library. The slot holds the cart value itself, so no serialisation round trip is stated, and a malformed snapshot (which the source does not handle either) cannot arise.
- `price` is a JavaScript floating-point number in the source; it is an opaque `int` here because no operation inspects it. `quantity` is an unbounded `int`; the loss of precision of large JavaScript numbers is not modelled.
- The key `@GoMarketplace:cart`: there is a single slot, so the key is implicit.
- CartLedger.Ledger.Hydrate: a snapshot read from the slot is trusted as a cart; the invariant after hydration holds only if the slot held a well-formed cart.
