/**
  The cart provider's state: the `products` list the three callbacks replace,
  and the storage slot they write to. Each callback captures `products` as it
  was when the callback ran, builds the new list from a copy, installs it, and
  then writes the captured (pre-update) list to the slot.
 */
module CartLedger {
  import opened Wrappers
  import Cart

  /** The message of the guard that rejects a missing provider. */
  const MissingProviderMessage := "useCart must be used within a CartProvider"

  class Ledger {
    /** The in-memory cart, in insertion order. */
    var products: seq<Cart.Product>
    /** The storage slot: the last snapshot written, or None if nothing is stored. */
    var stored: Option<seq<Cart.Product>>

    /** Everything the ledger holds, in memory and in the slot, is a well-formed cart. */
    ghost predicate Valid()
      reads this
    {
      Cart.WellFormed(products) && (stored.Some? ==> Cart.WellFormed(stored.value))
    }

    /** A provider starts with an empty cart; `store` is what the storage slot
        holds when the process starts. */
    constructor (store: Option<seq<Cart.Product>>)
      ensures products == [] && stored == store
      ensures (store.Some? ==> Cart.WellFormed(store.value)) ==> Valid()
    {
      products := [];
      stored := store;
    }

    /** `loadProducts`: if the slot holds a snapshot, the cart becomes exactly
        that snapshot; otherwise the cart is left as it was. */
    method Hydrate()
      modifies this
      ensures products == (if old(stored).Some? then old(stored).value else old(products))
      ensures stored == old(stored)
      ensures old(Valid()) ==> Valid()
    {
      var storedProducts := stored;
      if storedProducts.Some? {
        products := storedProducts.value;
      }
    }

    /** `addToCart`: merge by id, then write the pre-update cart to the slot. */
    method AddToCart(item: Cart.Item)
      modifies this
      ensures products == Cart.AddToCart(old(products), item)
      ensures stored == Some(old(products))
      ensures old(Valid()) ==> Valid()
      ensures products != old(products)
    {
      var captured := products;
      var cart := captured;
      var productIndex := Cart.FindIndex(captured, item.id);
      if productIndex == -1 {
        var newProduct := Cart.NewLine(item);
        products := products + [newProduct];
      } else {
        cart := cart[productIndex := cart[productIndex].(quantity := cart[productIndex].quantity + 1)];
        products := cart;
      }
      stored := Some(captured);
      if Cart.WellFormed(captured) { Cart.AddToCartWellFormed(captured, item); }
      Cart.OperationsChangeCart(captured, item, item.id);
    }

    /** `increment`: raise the quantity of an existing id, then write the
        pre-update cart to the slot. */
    method Increment(id: string)
      modifies this
      ensures products == Cart.Increment(old(products), id)
      ensures stored == Some(old(products))
      ensures old(Valid()) ==> Valid()
    {
      var captured := products;
      var cart := captured;
      var productIndex := Cart.FindIndex(captured, id);
      if productIndex != -1 {
        cart := cart[productIndex := cart[productIndex].(quantity := cart[productIndex].quantity + 1)];
        products := cart;
      }
      stored := Some(captured);
      if Cart.WellFormed(captured) { Cart.IncrementWellFormed(captured, id); }
    }

    /** `decrement`: lower the quantity of an existing id when it is above 1,
        then write the pre-update cart to the slot. */
    method Decrement(id: string)
      modifies this
      ensures products == Cart.Decrement(old(products), id)
      ensures stored == Some(old(products))
      ensures old(Valid()) ==> Valid()
    {
      var captured := products;
      var cart := captured;
      var productIndex := Cart.FindIndex(captured, id);
      if productIndex != -1 && captured[productIndex].quantity > 1 {
        cart := cart[productIndex := cart[productIndex].(quantity := cart[productIndex].quantity - 1)];
        products := cart;
      }
      stored := Some(captured);
      if Cart.WellFormed(captured) { Cart.DecrementWellFormed(captured, id); }
    }
  }

  /** `useCart`: the provider's ledger when one is active, and the
      configuration error otherwise. */
  function UseCart(context: Option<Ledger>): (r: Result<Ledger, string>)
    ensures r.Success? <==> context.Some?
    ensures r.Success? ==> r.value == context.value
    ensures r.Failure? ==> r.error == MissingProviderMessage
  {
    match context
    case None => Failure(MissingProviderMessage)
    case Some(ledger) => Success(ledger)
  }

  /** The walk-through of the cart's behaviour: merge, increment, the floor at
      1, the no-op on an absent id, and the snapshot lagging one step behind. */
  method ScenarioFromEmpty()
  {
    var ledger := new Ledger(None);
    ledger.Hydrate();
    assert ledger.products == [];
    var shirt := Cart.Item("A", "Shirt", "u", 10);
    var a1 := Cart.Product("A", "Shirt", "u", 10, 1);
    ledger.AddToCart(shirt);
    assert ledger.products == [a1];
    assert ledger.stored == Some([]);
    ledger.AddToCart(Cart.Item("A", "Other", "w", 99));
    assert ledger.products == [a1.(quantity := 2)];
    assert ledger.stored == Some([a1]);
    ledger.Increment("A");
    assert ledger.products == [a1.(quantity := 3)];
    ledger.Decrement("A");
    assert ledger.products == [a1.(quantity := 2)];
    ledger.Decrement("A");
    ledger.Decrement("A");
    assert ledger.products == [a1];
    ledger.Increment("B");
    assert ledger.products == [a1];
  }

  /** Hydration precedence: a stored snapshot replaces the empty start state. */
  method ScenarioHydrated()
  {
    var shoe := Cart.Product("B", "Shoe", "v", 20, 5);
    var ledger := new Ledger(Some([shoe]));
    ledger.Hydrate();
    assert ledger.products == [shoe];
  }
}
