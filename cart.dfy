/** The client cart store (app/hooks/useCart.ts): a list of cart lines keyed by
    dish id. Every action replaces the store's `items` with a new list computed
    from the old one; the functions below compute those lists and the class
    holds the list the actions replace. */
module Cart {
  import opened Common
  import opened Types
  import opened Seqs

  predicate HasItem(items: seq<CartItem>, id: string) {
    exists i :: 0 <= i < |items| && items[i].id == id
  }

  /** No dish appears on two lines. */
  ghost predicate UniqueIds(items: seq<CartItem>) {
    forall i, j :: 0 <= i < j < |items| ==> items[i].id != items[j].id
  }

  /** Every line asks for at least one unit. */
  ghost predicate AllPositive(items: seq<CartItem>) {
    forall i :: 0 <= i < |items| ==> items[i].quantity > 0
  }

  /** The line `addToCart` appends for a dish not yet in the cart. */
  function NewLine(dish: Dish): CartItem {
    CartItem(dish.id, dish.name, dish.weight, 1)
  }

  /** The list after `addToCart(dish)`: one more unit on the dish's line when
      `find` locates it, otherwise a new line at the end. */
  function WithDishAdded(items: seq<CartItem>, dish: Dish): seq<CartItem> {
    if FindFirst(items, (it: CartItem) => it.id == dish.id).Some? then
      seq(|items|, i requires 0 <= i < |items| =>
        if items[i].id == dish.id then items[i].(quantity := items[i].quantity + 1) else items[i])
    else
      items + [NewLine(dish)]
  }

  /** The `map` step of `updateQuantity`: the matching line gets the quantity. */
  function WithQuantitySet(items: seq<CartItem>, id: string, quantity: int): seq<CartItem> {
    seq(|items|, i requires 0 <= i < |items| =>
      if items[i].id == id then items[i].(quantity := quantity) else items[i])
  }

  /** The list after `updateQuantity(id, quantity)`: set, then drop every line
      whose quantity is not positive. */
  function WithQuantity(items: seq<CartItem>, id: string, quantity: int): seq<CartItem> {
    Filter(WithQuantitySet(items, id, quantity), (it: CartItem) => it.quantity > 0)
  }

  /** The list after `removeFromCart(id)`. */
  function WithoutDish(items: seq<CartItem>, id: string): seq<CartItem> {
    Filter(items, (it: CartItem) => it.id != id)
  }

  /** Adding a dish not yet in the cart appends exactly its new line. */
  lemma AddNewDishAppends(items: seq<CartItem>, dish: Dish)
    requires !HasItem(items, dish.id)
    ensures WithDishAdded(items, dish) == items + [CartItem(dish.id, dish.name, dish.weight, 1)]
  {
  }

  /** Adding a dish already in the cart raises that line's quantity by one and
      leaves the length, the order and every other line as they were. */
  lemma AddExistingDishIncrements(items: seq<CartItem>, dish: Dish)
    requires HasItem(items, dish.id)
    ensures var r := WithDishAdded(items, dish);
      && |r| == |items|
      && (forall i :: 0 <= i < |items| && items[i].id == dish.id ==>
            r[i] == items[i].(quantity := items[i].quantity + 1))
      && (forall i :: 0 <= i < |items| && items[i].id != dish.id ==> r[i] == items[i])
  {
  }

  /** Adding keeps dish ids unique and quantities positive. */
  lemma AddKeepsInvariant(items: seq<CartItem>, dish: Dish)
    requires UniqueIds(items) && AllPositive(items)
    ensures UniqueIds(WithDishAdded(items, dish)) && AllPositive(WithDishAdded(items, dish))
  {
    var r := WithDishAdded(items, dish);
    if !HasItem(items, dish.id) {
      assert r == items + [NewLine(dish)];
      forall i, j | 0 <= i < j < |r| ensures r[i].id != r[j].id {
        if j == |items| {
          assert r[i] == items[i];
        }
      }
    }
  }

  /** In a cart without duplicate lines, two lines with the same id are one. */
  lemma SameIdSameLine(items: seq<CartItem>, i: nat, j: nat)
    requires UniqueIds(items) && i < |items| && j < |items| && items[i].id == items[j].id
    ensures i == j
  {
  }

  /** Setting the dish's line to one unit more is adding the dish. */
  lemma OneMoreIsAdd(items: seq<CartItem>, dish: Dish, i: nat)
    requires UniqueIds(items) && AllPositive(items)
    requires i < |items| && items[i].id == dish.id
    ensures WithQuantity(items, dish.id, items[i].quantity + 1) == WithDishAdded(items, dish)
  {
    var q := items[i].quantity;
    UpdatePositiveQuantity(items, dish.id, q + 1);
    AddExistingDishIncrements(items, dish);
    var updated := WithQuantity(items, dish.id, q + 1);
    var added := WithDishAdded(items, dish);
    forall j | 0 <= j < |items| ensures updated[j] == added[j] {
      if items[j].id == dish.id {
        SameIdSameLine(items, i, j);
      }
    }
  }

  /** Filtering keeps ids unique. */
  lemma {:induction false} FilterKeepsUniqueIds(items: seq<CartItem>, p: CartItem -> bool)
    requires UniqueIds(items)
    ensures UniqueIds(Filter(items, p))
  {
    if items != [] {
      FilterKeepsUniqueIds(items[1..], p);
      var rest := Filter(items[1..], p);
      if p(items[0]) {
        var r := [items[0]] + rest;
        forall i, j | 0 <= i < j < |r| ensures r[i].id != r[j].id {
          if i == 0 {
            var k :| 0 <= k < |items[1..]| && items[1..][k] == r[j];
            assert items[k + 1] == r[j];
          } else {
            assert r[i] == rest[i - 1] && r[j] == rest[j - 1];
          }
        }
      }
    }
  }

  /** After `updateQuantity` every line is positive, ids stay unique, and a
      quantity of zero or less removes the dish's line. */
  lemma UpdateQuantityInvariant(items: seq<CartItem>, id: string, quantity: int)
    requires UniqueIds(items)
    ensures AllPositive(WithQuantity(items, id, quantity))
    ensures UniqueIds(WithQuantity(items, id, quantity))
    ensures quantity <= 0 ==> !HasItem(WithQuantity(items, id, quantity), id)
  {
    var set_ := WithQuantitySet(items, id, quantity);
    assert UniqueIds(set_);
    FilterKeepsUniqueIds(set_, (it: CartItem) => it.quantity > 0);
    var r := WithQuantity(items, id, quantity);
    if quantity <= 0 {
      forall i | 0 <= i < |r| ensures r[i].id != id {
        assert r[i] in set_;
      }
    }
  }

  /** With a positive quantity nothing is dropped: only the matching line's
      quantity changes, and length and order are kept. */
  lemma UpdatePositiveQuantity(items: seq<CartItem>, id: string, quantity: int)
    requires AllPositive(items) && quantity > 0
    ensures var r := WithQuantity(items, id, quantity);
      && |r| == |items|
      && (forall i :: 0 <= i < |items| && items[i].id == id ==> r[i] == items[i].(quantity := quantity))
      && (forall i :: 0 <= i < |items| && items[i].id != id ==> r[i] == items[i])
  {
    FilterAll(WithQuantitySet(items, id, quantity), (it: CartItem) => it.quantity > 0);
  }

  /** `removeFromCart` drops exactly the dish's line: no line with that id
      remains, every other line is kept, in its relative order. */
  lemma RemoveDropsExactly(items: seq<CartItem>, id: string)
    ensures !HasItem(WithoutDish(items, id), id)
    ensures forall i :: 0 <= i < |items| && items[i].id != id ==> items[i] in WithoutDish(items, id)
    ensures Subsequence(WithoutDish(items, id), items)
  {
    FilterIsSubsequence(items, (it: CartItem) => it.id != id);
  }

  /** Removing twice is removing once. */
  lemma RemoveIdempotent(items: seq<CartItem>, id: string)
    ensures WithoutDish(WithoutDish(items, id), id) == WithoutDish(items, id)
  {
    FilterIdempotent(items, (it: CartItem) => it.id != id);
  }

  /** The store behind `useCart`. */
  class CartStore {
    var items: seq<CartItem>

    ghost predicate Valid()
      reads this
    {
      UniqueIds(items) && AllPositive(items)
    }

    constructor ()
      ensures items == [] && Valid()
    {
      items := [];
    }

    method AddToCart(dish: Dish)
      requires Valid()
      modifies this
      ensures items == WithDishAdded(old(items), dish)
      ensures Valid()
    {
      AddKeepsInvariant(items, dish);
      items := WithDishAdded(items, dish);
    }

    method UpdateQuantity(dishId: string, quantity: int)
      requires Valid()
      modifies this
      ensures items == WithQuantity(old(items), dishId, quantity)
      ensures Valid()
    {
      UpdateQuantityInvariant(items, dishId, quantity);
      items := WithQuantity(items, dishId, quantity);
    }

    method RemoveFromCart(dishId: string)
      requires Valid()
      modifies this
      ensures items == WithoutDish(old(items), dishId)
      ensures Valid()
    {
      FilterKeepsUniqueIds(items, (it: CartItem) => it.id != dishId);
      items := WithoutDish(items, dishId);
    }

    method ClearCart()
      modifies this
      ensures items == [] && Valid()
    {
      items := [];
    }
  }
}
