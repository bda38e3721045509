/**
  The pure part of the cart ledger: line items, the `findIndex` lookup and the
  three updates (add, increment, decrement) as functions over the ordered
  sequence of line items, with the invariants they keep and a map-like view
  (`Lookup`) that states each update independently of slot positions.
 */
module Cart {
  import opened Wrappers

  /** One product's presence in the cart. `title`, `imageUrl` and `price` are
      passthrough values that no operation inspects. */
  datatype Product = Product(id: string, title: string, imageUrl: string, price: int, quantity: int)

  /** What `addToCart` is given: a product without a quantity. */
  datatype Item = Item(id: string, title: string, imageUrl: string, price: int)

  /** The line item `addToCart` appends for a new id: the item's fields and quantity 1. */
  function NewLine(item: Item): Product
  {
    Product(item.id, item.title, item.imageUrl, item.price, 1)
  }

  /** The same line item with `delta` added to its quantity, every other field kept. */
  function Bump(p: Product, delta: int): Product
  {
    p.(quantity := p.quantity + delta)
  }

  /** The set of ids present in the cart. */
  function Ids(s: seq<Product>): set<string>
  {
    set k | 0 <= k < |s| :: s[k].id
  }

  /** No two line items share an id. */
  predicate UniqueIds(s: seq<Product>)
  {
    forall i, j :: 0 <= i < j < |s| ==> s[i].id != s[j].id
  }

  /** Every line item has quantity at least 1. */
  predicate PositiveQuantities(s: seq<Product>)
  {
    forall k :: 0 <= k < |s| ==> s[k].quantity >= 1
  }

  /** The cart invariant: ids are unique and every quantity is at least 1. */
  predicate WellFormed(s: seq<Product>)
  {
    UniqueIds(s) && PositiveQuantities(s)
  }

  /** `products.findIndex(item => item.id === id)`: the index of the first line
      item with this id, or -1 when there is none. */
  function FindIndex(s: seq<Product>, id: string): (r: int)
    ensures -1 <= r < |s|
    ensures r == -1 <==> id !in Ids(s)
    ensures 0 <= r ==> s[r].id == id
    ensures 0 <= r ==> forall k :: 0 <= k < r ==> s[k].id != id
  {
    if |s| == 0 then -1
    else if s[0].id == id then 0
    else
      var j := FindIndex(s[1..], id);
      assert Ids(s) == {s[0].id} + Ids(s[1..]) by {
        forall x | x in Ids(s) ensures x in {s[0].id} + Ids(s[1..]) {
          var k :| 0 <= k < |s| && s[k].id == x;
          if k > 0 { assert s[1..][k - 1].id == x; }
        }
      }
      if j == -1 then -1 else j + 1
  }

  /** The cart seen as a mapping from id to line item: the first line item with
      this id, if any. A reference definition independent of slot positions. */
  function Lookup(s: seq<Product>, id: string): Option<Product>
  {
    if |s| == 0 then None
    else if s[0].id == id then Some(s[0])
    else Lookup(s[1..], id)
  }

  /** `addToCart`: a new id is appended with quantity 1; an existing id keeps its
      stored metadata and has its quantity raised by 1. */
  function AddToCart(s: seq<Product>, item: Item): (r: seq<Product>)
    ensures FindIndex(s, item.id) == -1 ==>
      |r| == |s| + 1 && r[..|s|] == s && r[|s|] == NewLine(item)
    ensures FindIndex(s, item.id) >= 0 ==>
      var i := FindIndex(s, item.id);
      |r| == |s| && r[i] == Bump(s[i], 1) &&
      forall k :: 0 <= k < |s| && k != i ==> r[k] == s[k]
  {
    var i := FindIndex(s, item.id);
    if i == -1 then s + [NewLine(item)] else s[i := Bump(s[i], 1)]
  }

  /** `increment`: raises the quantity of an existing id by 1; an absent id is a no-op. */
  function Increment(s: seq<Product>, id: string): (r: seq<Product>)
    ensures |r| == |s|
    ensures FindIndex(s, id) == -1 ==> r == s
    ensures FindIndex(s, id) >= 0 ==>
      var i := FindIndex(s, id);
      r[i] == Bump(s[i], 1) && forall k :: 0 <= k < |s| && k != i ==> r[k] == s[k]
  {
    var i := FindIndex(s, id);
    if i != -1 then s[i := Bump(s[i], 1)] else s
  }

  /** `decrement`: lowers the quantity of an existing id by 1 only when it is
      above 1; otherwise (quantity 1 or absent id) a no-op. */
  function Decrement(s: seq<Product>, id: string): (r: seq<Product>)
    ensures |r| == |s|
    ensures FindIndex(s, id) == -1 || s[FindIndex(s, id)].quantity <= 1 ==> r == s
    ensures FindIndex(s, id) >= 0 && s[FindIndex(s, id)].quantity > 1 ==>
      var i := FindIndex(s, id);
      r[i] == Bump(s[i], -1) && forall k :: 0 <= k < |s| && k != i ==> r[k] == s[k]
  {
    var i := FindIndex(s, id);
    if i != -1 && s[i].quantity > 1 then s[i := Bump(s[i], -1)] else s
  }

  /** `decrement` applied `n` times in a row to the same id. */
  function DecrementTimes(s: seq<Product>, id: string, n: nat): seq<Product>
  {
    if n == 0 then s else Decrement(DecrementTimes(s, id, n - 1), id)
  }

  // ---------------------------------------------------------------------------
  // The lookup view agrees with findIndex

  /** `Lookup` finds exactly the slot `FindIndex` returns. */
  lemma {:induction false} LookupIsFindIndex(s: seq<Product>, id: string)
    ensures Lookup(s, id) == if FindIndex(s, id) == -1 then None else Some(s[FindIndex(s, id)])
  {
    if |s| > 0 && s[0].id != id {
      LookupIsFindIndex(s[1..], id);
    }
  }

  /** Overwriting the first slot with a given id by a line item with that same
      id changes the lookup of that id only. */
  lemma {:induction false} LookupUpdate(s: seq<Product>, i: nat, p: Product, id: string)
    requires i < |s| && p.id == s[i].id && FindIndex(s, p.id) == i
    ensures Lookup(s[i := p], id) == if id == p.id then Some(p) else Lookup(s, id)
  {
    if i > 0 {
      assert s[i := p][1..] == s[1..][i - 1 := p];
      assert s[0].id != p.id;
      LookupUpdate(s[1..], i - 1, p, id);
    }
  }

  /** Appending a line item whose id is absent makes it the lookup of its id and
      changes nothing else. */
  lemma {:induction false} LookupAppend(s: seq<Product>, p: Product, id: string)
    requires FindIndex(s, p.id) == -1
    ensures Lookup(s + [p], id) == if id == p.id then Some(p) else Lookup(s, id)
  {
    if |s| == 0 {
      assert s + [p] == [p];
    } else {
      assert (s + [p])[1..] == s[1..] + [p];
      assert s[0].id != p.id;
      LookupAppend(s[1..], p, id);
    }
  }

  // ---------------------------------------------------------------------------
  // Each operation, stated on the lookup view (the per-item state machine)

  /** addToCart: absent -> present(quantity 1) with the supplied metadata;
      present(n) -> present(n + 1) with the stored metadata; other ids untouched. */
  lemma AddToCartLookup(s: seq<Product>, item: Item, id: string)
    ensures Lookup(AddToCart(s, item), id) ==
      if id != item.id then Lookup(s, id)
      else match Lookup(s, item.id)
        case None => Some(NewLine(item))
        case Some(p) => Some(Bump(p, 1))
  {
    LookupIsFindIndex(s, item.id);
    var i := FindIndex(s, item.id);
    if i == -1 {
      LookupAppend(s, NewLine(item), id);
    } else {
      LookupUpdate(s, i, Bump(s[i], 1), id);
    }
  }

  /** increment: present(n) -> present(n + 1); absent stays absent; other ids untouched. */
  lemma IncrementLookup(s: seq<Product>, x: string, id: string)
    ensures Lookup(Increment(s, x), id) ==
      if id != x then Lookup(s, id)
      else match Lookup(s, x)
        case None => None
        case Some(p) => Some(Bump(p, 1))
  {
    LookupIsFindIndex(s, x);
    var i := FindIndex(s, x);
    if i != -1 {
      LookupUpdate(s, i, Bump(s[i], 1), id);
    }
  }

  /** decrement: present(n) -> present(n - 1) only when n > 1; otherwise unchanged. */
  lemma DecrementLookup(s: seq<Product>, x: string, id: string)
    ensures Lookup(Decrement(s, x), id) ==
      if id == x && Lookup(s, x).Some? && Lookup(s, x).value.quantity > 1
      then Some(Bump(Lookup(s, x).value, -1))
      else Lookup(s, id)
  {
    LookupIsFindIndex(s, x);
    var i := FindIndex(s, x);
    if i != -1 && s[i].quantity > 1 {
      LookupUpdate(s, i, Bump(s[i], -1), id);
    }
  }

  // ---------------------------------------------------------------------------
  // Ids: only addToCart on a new id adds one; nothing ever removes one

  /** Replacing a slot by a line item with the same id keeps the set of ids. */
  lemma IdsUpdate(s: seq<Product>, i: nat, p: Product)
    requires i < |s| && p.id == s[i].id
    ensures Ids(s[i := p]) == Ids(s)
  {
    var t := s[i := p];
    forall x | x in Ids(s) ensures x in Ids(t) {
      var k :| 0 <= k < |s| && s[k].id == x;
      assert t[k].id == x;
    }
    forall x | x in Ids(t) ensures x in Ids(s) {
      var k :| 0 <= k < |t| && t[k].id == x;
      assert s[k].id == x;
    }
  }

  /** Appending a line item adds its id. */
  lemma IdsAppend(s: seq<Product>, p: Product)
    ensures Ids(s + [p]) == Ids(s) + {p.id}
  {
    var t := s + [p];
    forall x | x in Ids(s) ensures x in Ids(t) {
      var k :| 0 <= k < |s| && s[k].id == x;
      assert t[k].id == x;
    }
    assert t[|s|].id == p.id;
    forall x | x in Ids(t) ensures x in Ids(s) + {p.id} {
      var k :| 0 <= k < |t| && t[k].id == x;
      if k < |s| { assert s[k].id == x; }
    }
  }

  /** The ids after each operation: addToCart adds the item's id, increment and
      decrement keep the ids, so no operation removes a line item. */
  lemma OperationIds(s: seq<Product>, item: Item, id: string)
    ensures Ids(AddToCart(s, item)) == Ids(s) + {item.id}
    ensures Ids(Increment(s, id)) == Ids(s)
    ensures Ids(Decrement(s, id)) == Ids(s)
  {
    var i := FindIndex(s, item.id);
    if i == -1 { IdsAppend(s, NewLine(item)); } else { IdsUpdate(s, i, Bump(s[i], 1)); }
    var j := FindIndex(s, id);
    if j != -1 {
      IdsUpdate(s, j, Bump(s[j], 1));
      IdsUpdate(s, j, Bump(s[j], -1));
    }
  }

  // ---------------------------------------------------------------------------
  // The cart invariant is preserved

  /** Replacing a slot by a line item with the same id and a quantity of at
      least 1 keeps the cart well formed. */
  lemma WellFormedUpdate(s: seq<Product>, i: nat, p: Product)
    requires WellFormed(s) && i < |s| && p.id == s[i].id && p.quantity >= 1
    ensures WellFormed(s[i := p])
  {
  }

  /** addToCart keeps ids unique and quantities at least 1. */
  lemma AddToCartWellFormed(s: seq<Product>, item: Item)
    requires WellFormed(s)
    ensures WellFormed(AddToCart(s, item))
  {
    var i := FindIndex(s, item.id);
    if i == -1 {
      var r := AddToCart(s, item);
      forall a, b | 0 <= a < b < |r| ensures r[a].id != r[b].id {
        if b == |s| { assert r[a] == s[a]; }
      }
    } else {
      WellFormedUpdate(s, i, Bump(s[i], 1));
    }
  }

  /** increment keeps ids unique and quantities at least 1. */
  lemma IncrementWellFormed(s: seq<Product>, id: string)
    requires WellFormed(s)
    ensures WellFormed(Increment(s, id))
  {
    var i := FindIndex(s, id);
    if i != -1 { WellFormedUpdate(s, i, Bump(s[i], 1)); }
  }

  /** decrement keeps ids unique and quantities at least 1: it never lowers a
      quantity of 1. */
  lemma DecrementWellFormed(s: seq<Product>, id: string)
    requires WellFormed(s)
    ensures WellFormed(Decrement(s, id))
  {
    var i := FindIndex(s, id);
    if i != -1 && s[i].quantity > 1 { WellFormedUpdate(s, i, Bump(s[i], -1)); }
  }

  // ---------------------------------------------------------------------------
  // Properties relating several calls

  /** The quantity left after n decrements of a quantity q that is at least 1. */
  function Floored(q: int, n: nat): int
  {
    if q - n >= 1 then q - n else 1
  }

  /** Repeated decrements keep the cart well formed and keep its ids: no
      sequence of decrements removes a line item. */
  lemma {:induction false} DecrementTimesWellFormed(s: seq<Product>, id: string, n: nat)
    requires WellFormed(s)
    ensures WellFormed(DecrementTimes(s, id, n))
    ensures Ids(DecrementTimes(s, id, n)) == Ids(s)
  {
    if n > 0 {
      var t := DecrementTimes(s, id, n - 1);
      DecrementTimesWellFormed(s, id, n - 1);
      DecrementWellFormed(t, id);
      OperationIds(t, Item(id, [], [], 0), id);
    }
  }

  /** Repeated decrements floor the quantity at 1: after n decrements a line
      item with quantity q has quantity max(1, q - n) and its metadata unchanged. */
  lemma {:induction false} DecrementFloor(s: seq<Product>, id: string, n: nat)
    requires WellFormed(s)
    ensures Lookup(DecrementTimes(s, id, n), id) ==
      match Lookup(s, id)
        case None => None
        case Some(p) => Some(p.(quantity := Floored(p.quantity, n)))
  {
    LookupIsFindIndex(s, id);
    if n > 0 {
      var t := DecrementTimes(s, id, n - 1);
      DecrementFloor(s, id, n - 1);
      DecrementLookup(t, id, id);
      match Lookup(s, id)
      case None =>
      case Some(p) =>
        assert Lookup(t, id) == Some(p.(quantity := Floored(p.quantity, n - 1)));
    }
  }

  /** Identity merge: adding two items with the same new id keeps the first
      item's metadata and gives quantity 2, as one line item at the end. */
  lemma IdentityMerge(s: seq<Product>, a: Item, b: Item)
    requires FindIndex(s, a.id) == -1 && b.id == a.id
    ensures AddToCart(AddToCart(s, a), b) == s + [NewLine(a).(quantity := 2)]
  {
    var t := AddToCart(s, a);
    assert forall k :: 0 <= k < |s| ==> t[k] == s[k];
    assert FindIndex(t, b.id) == |s|;
  }

  /** increment followed by decrement on a present id restores the cart. */
  lemma IncrementThenDecrement(s: seq<Product>, id: string)
    requires WellFormed(s)
    ensures Decrement(Increment(s, id), id) == s
  {
    var i := FindIndex(s, id);
    if i != -1 {
      var t := Increment(s, id);
      assert t[..i] == s[..i];
      assert FindIndex(t, id) == i;
    }
  }

  /** addToCart always changes the cart, and so do increment on a present id
      and decrement on a present id with quantity above 1. */
  lemma OperationsChangeCart(s: seq<Product>, item: Item, id: string)
    ensures AddToCart(s, item) != s
    ensures id in Ids(s) ==> Increment(s, id) != s
    ensures Lookup(s, id).Some? && Lookup(s, id).value.quantity > 1 ==> Decrement(s, id) != s
  {
    var i := FindIndex(s, item.id);
    if i != -1 { assert AddToCart(s, item)[i] != s[i]; }
    LookupIsFindIndex(s, id);
    var j := FindIndex(s, id);
    if j != -1 {
      assert Increment(s, id)[j] != s[j];
      if s[j].quantity > 1 { assert Decrement(s, id)[j] != s[j]; }
    }
  }
}
