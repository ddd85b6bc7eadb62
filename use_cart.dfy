/** The cart hook (src/hooks/useCart.js): the updaters it hands to
    `setCartItems`, and the two folds `calculateTotal` and `itemCount`.
    The storage effects around them are not part of this model. */
module UseCart {
  import opened Catalog
  import opened ListOps

  /** A hook cart entry: the product's fields and a quantity. On the item handed
      to `addToCart` a quantity of 0 also stands for a missing one, which
      `item.quantity || 1` treats alike; entries the hook stores always carry a
      number, since every updater writes one. */
  datatype CartEntry = CartEntry(product: Product, quantity: int)

  /** The hook's cart items and its `total`. */
  datatype HookState = HookState(cartItems: seq<CartEntry>, total: int)

  function EntryId(e: CartEntry): string { e.product.id }

  /** JavaScript `q || d` on a quantity. */
  function QuantityOr(q: int, d: int): int { if q != 0 then q else d }

  function EntryAmount(e: CartEntry): int { e.product.price * e.quantity }

  /** `quantity || 0`, for an entry whose quantity is a number, is that number. */
  function EntryCount(e: CartEntry): int { e.quantity }

  /** No entry has a negative price or a negative quantity. */
  predicate NonNegativeEntries(items: seq<CartEntry>) {
    forall j :: 0 <= j < |items| ==> items[j].product.price >= 0 && items[j].quantity >= 0
  }

  /** No entry has a negative quantity. */
  predicate NonNegativeQuantities(items: seq<CartEntry>) {
    forall j :: 0 <= j < |items| ==> items[j].quantity >= 0
  }

  /** `calculateTotal`: the sum of `price * quantity`; no cart of non-negative
      prices and quantities has a negative total. */
  function CalculateTotal(items: seq<CartEntry>): (r: int)
    ensures items == [] ==> r == 0
    ensures NonNegativeEntries(items) ==> r >= 0
  {
    AmountsNonNegative(items);
    Sum(items, EntryAmount)
  }

  /** `itemCount`: the sum of the quantities; never negative when no quantity is. */
  function ItemCount(items: seq<CartEntry>): (r: int)
    ensures items == [] ==> r == 0
    ensures NonNegativeQuantities(items) ==> r >= 0
  {
    CountsNonNegative(items);
    Sum(items, EntryCount)
  }

  lemma {:induction false} AmountsNonNegative(items: seq<CartEntry>)
    ensures NonNegativeEntries(items) ==> Sum(items, EntryAmount) >= 0
  {
    if NonNegativeEntries(items) {
      forall j | 0 <= j < |items| ensures EntryAmount(items[j]) >= 0 {
        var e := items[j];
        assert e.product.price * e.quantity >= 0;
      }
      SumNonNegative(items, EntryAmount);
    }
  }

  lemma {:induction false} CountsNonNegative(items: seq<CartEntry>)
    ensures NonNegativeQuantities(items) ==> Sum(items, EntryCount) >= 0
  {
    if NonNegativeQuantities(items) {
      SumNonNegative(items, EntryCount);
    }
  }

  /** The `addToCart` updater: on an id already present, every entry with it
      gains `item.quantity || 1` and nothing else changes; on a new id the item
      is appended with quantity `item.quantity || 1`. */
  function AddToCart(items: seq<CartEntry>, item: CartEntry): (r: seq<CartEntry>)
    ensures HasKey(items, EntryId, EntryId(item)) ==>
              |r| == |items| &&
              forall j :: 0 <= j < |items| ==>
                r[j].product == items[j].product &&
                r[j].quantity == items[j].quantity +
                  (if EntryId(items[j]) == EntryId(item) then QuantityOr(item.quantity, 1) else 0)
    ensures !HasKey(items, EntryId, EntryId(item)) ==>
              |r| == |items| + 1 && r[..|items|] == items &&
              r[|items|].product == item.product && r[|items|].quantity == QuantityOr(item.quantity, 1)
  {
    if HasKey(items, EntryId, EntryId(item)) then
      seq(|items|, j requires 0 <= j < |items| =>
        if EntryId(items[j]) == EntryId(item)
        then items[j].(quantity := items[j].quantity + QuantityOr(item.quantity, 1))
        else items[j])
    else
      items + [item.(quantity := QuantityOr(item.quantity, 1))]
  }

  /** The `removeFromCart` updater: `filter` on the id. */
  function RemoveFromCart(items: seq<CartEntry>, id: string): (r: seq<CartEntry>)
    ensures !HasKey(r, EntryId, id)
    ensures forall j :: 0 <= j < |items| && EntryId(items[j]) != id ==> items[j] in r
  {
    RemoveAll(items, EntryId, id)
  }

  /** The `updateQuantity` updater: ignored below 1; otherwise every entry with
      the id takes the new quantity and nothing else changes. */
  function UpdateQuantity(items: seq<CartEntry>, id: string, quantity: int): (r: seq<CartEntry>)
    ensures quantity < 1 ==> r == items
    ensures |r| == |items|
    ensures quantity >= 1 ==>
              forall j :: 0 <= j < |items| ==>
                r[j].product == items[j].product &&
                r[j].quantity == (if EntryId(items[j]) == id then quantity else items[j].quantity)
  {
    if quantity < 1 then items
    else
      seq(|items|, j requires 0 <= j < |items| =>
        if EntryId(items[j]) == id then items[j].(quantity := quantity) else items[j])
  }

  /** `clearCart`: no items and a total of 0, whatever the state was; the total
      agrees with `calculateTotal` of the items. */
  function ClearCart(s: HookState): (r: HookState)
    ensures r.cartItems == [] && r.total == 0
    ensures r.total == CalculateTotal(r.cartItems) && ItemCount(r.cartItems) == 0
  {
    HookState([], 0)
  }

  /** With one entry per id, the `addToCart` updater on a present id is an
      update of that one entry. */
  lemma {:induction false} AddExistingIsUpdateAt(items: seq<CartEntry>, item: CartEntry)
    requires DistinctKeys(items, EntryId)
    requires FindIndex(items, EntryId, EntryId(item)) != -1
    ensures var i := FindIndex(items, EntryId, EntryId(item));
            AddToCart(items, item) ==
              items[i := items[i].(quantity := items[i].quantity + QuantityOr(item.quantity, 1))]
  {
    var i := FindIndex(items, EntryId, EntryId(item));
    var r := AddToCart(items, item);
    var u := items[i := items[i].(quantity := items[i].quantity + QuantityOr(item.quantity, 1))];
    forall j | 0 <= j < |items| ensures r[j] == u[j] {
      if j != i {
        assert EntryId(items[j]) != EntryId(items[i]);
      }
    }
  }

  /** The `addToCart` updater keeps one entry per id. */
  lemma {:induction false} AddToCartKeepsDistinct(items: seq<CartEntry>, item: CartEntry)
    requires DistinctKeys(items, EntryId)
    ensures DistinctKeys(AddToCart(items, item), EntryId)
  {
    var r := AddToCart(items, item);
    if HasKey(items, EntryId, EntryId(item)) {
      forall j | 0 <= j < |items| ensures EntryId(r[j]) == EntryId(items[j]) {
      }
    } else {
      forall j | 0 <= j < |items| ensures EntryId(r[j]) != EntryId(r[|items|]) {
        assert r[j] == items[j];
      }
    }
  }

  /** With one entry per id, the `addToCart` updater raises `itemCount` by
      `item.quantity || 1` and `calculateTotal` by that many units at the price of
      the entry it lands in. */
  lemma {:induction false} AddToCartTotals(items: seq<CartEntry>, item: CartEntry)
    requires DistinctKeys(items, EntryId)
    ensures ItemCount(AddToCart(items, item)) == ItemCount(items) + QuantityOr(item.quantity, 1)
    ensures var i := FindIndex(items, EntryId, EntryId(item));
            CalculateTotal(AddToCart(items, item)) == CalculateTotal(items) +
              (if i == -1 then item.product.price else items[i].product.price) * QuantityOr(item.quantity, 1)
  {
    var q := QuantityOr(item.quantity, 1);
    var i := FindIndex(items, EntryId, EntryId(item));
    if i == -1 {
      var added := item.(quantity := q);
      assert AddToCart(items, item) == items + [added];
      AppendTotals(items, added);
    } else {
      AddExistingIsUpdateAt(items, item);
      AddExistingTotals(items, i, q);
    }
  }

  /** Appending an entry raises the count by its quantity and the total by its amount. */
  lemma {:induction false} AppendTotals(items: seq<CartEntry>, e: CartEntry)
    ensures ItemCount(items + [e]) == ItemCount(items) + e.quantity
    ensures CalculateTotal(items + [e]) == CalculateTotal(items) + e.product.price * e.quantity
  {
    assert [e][1..] == [];
    SumAppend(items, [e], EntryCount);
    SumAppend(items, [e], EntryAmount);
  }

  /** Raising entry `i` by `q` units raises the count by `q` and the total by `q` at its price. */
  lemma {:induction false} AddExistingTotals(items: seq<CartEntry>, i: nat, q: int)
    requires i < |items|
    ensures var r := items[i := items[i].(quantity := items[i].quantity + q)];
            ItemCount(r) == ItemCount(items) + q &&
            CalculateTotal(r) == CalculateTotal(items) + items[i].product.price * q
  {
    var line := items[i];
    var bumped := line.(quantity := line.quantity + q);
    SumUpdate(items, i, bumped, EntryCount);
    SumUpdate(items, i, bumped, EntryAmount);
    assert EntryAmount(bumped) == EntryAmount(line) + line.product.price * q by {
      assert line.product.price * (line.quantity + q) == line.product.price * line.quantity + line.product.price * q;
    }
  }

  /** Adding an entry with a new id and then removing that id restores the items. */
  lemma {:induction false} AddThenRemoveRestores(items: seq<CartEntry>, item: CartEntry)
    requires !HasKey(items, EntryId, EntryId(item))
    ensures RemoveFromCart(AddToCart(items, item), EntryId(item)) == items
  {
    var added := item.(quantity := QuantityOr(item.quantity, 1));
    assert [added][1..] == [];
    RemoveAllAppend(items, [added], EntryId, EntryId(item));
    RemoveAllAbsent(items, EntryId, EntryId(item));
  }

  /** Removing is idempotent, and keeps the relative order of what stays:
      removing from a concatenation removes from each part. */
  lemma {:induction false} RemoveFromCartLaws(items: seq<CartEntry>, more: seq<CartEntry>, id: string)
    ensures RemoveFromCart(RemoveFromCart(items, id), id) == RemoveFromCart(items, id)
    ensures RemoveFromCart(items + more, id) == RemoveFromCart(items, id) + RemoveFromCart(more, id)
  {
    RemoveAllIdempotent(items, EntryId, id);
    RemoveAllAppend(items, more, EntryId, id);
  }

  /** With one entry per id, removing a present id lowers `itemCount` and
      `calculateTotal` by exactly that entry's share. */
  lemma {:induction false} RemoveFromCartTotals(items: seq<CartEntry>, id: string)
    requires DistinctKeys(items, EntryId)
    requires HasKey(items, EntryId, id)
    ensures var i, r := FindIndex(items, EntryId, id), RemoveFromCart(items, id);
            ItemCount(r) == ItemCount(items) - items[i].quantity &&
            CalculateTotal(r) == CalculateTotal(items) - items[i].product.price * items[i].quantity
  {
    SumRemoveAll(items, EntryId, id, EntryCount);
    SumRemoveAll(items, EntryId, id, EntryAmount);
  }

  /** With one entry per id, a quantity update of at least 1 on a present id
      shifts `itemCount` by (new - old) and `calculateTotal` by
      `price * (new - old)`. */
  lemma {:induction false} UpdateQuantityTotals(items: seq<CartEntry>, id: string, quantity: int)
    requires DistinctKeys(items, EntryId)
    requires HasKey(items, EntryId, id)
    requires quantity >= 1
    ensures var i, r := FindIndex(items, EntryId, id), UpdateQuantity(items, id, quantity);
            ItemCount(r) == ItemCount(items) + (quantity - items[i].quantity) &&
            CalculateTotal(r) == CalculateTotal(items) + items[i].product.price * (quantity - items[i].quantity)
  {
    var i := FindIndex(items, EntryId, id);
    UpdateQuantityIsUpdateAt(items, id, quantity);
    SetQuantityTotals(items, i, quantity, UpdateQuantity(items, id, quantity));
  }

  /** Setting entry `i`'s quantity shifts the count by (new - old) and the total
      by price × (new - old). */
  lemma {:induction false} SetQuantityTotals(items: seq<CartEntry>, i: nat, quantity: int, r: seq<CartEntry>)
    requires i < |items|
    requires r == items[i := items[i].(quantity := quantity)]
    ensures ItemCount(r) == ItemCount(items) + (quantity - items[i].quantity) &&
            CalculateTotal(r) == CalculateTotal(items) + items[i].product.price * (quantity - items[i].quantity)
  {
    var q := quantity - items[i].quantity;
    assert items[i].(quantity := quantity) == items[i].(quantity := items[i].quantity + q);
    AddExistingTotals(items, i, q);
  }

  /** With one entry per id, `updateQuantity` on a present id overwrites exactly
      that entry's quantity. */
  lemma {:induction false} UpdateQuantityIsUpdateAt(items: seq<CartEntry>, id: string, quantity: int)
    requires DistinctKeys(items, EntryId)
    requires HasKey(items, EntryId, id)
    requires quantity >= 1
    ensures var i := FindIndex(items, EntryId, id);
            UpdateQuantity(items, id, quantity) == items[i := items[i].(quantity := quantity)]
  {
    var i := FindIndex(items, EntryId, id);
    var r := UpdateQuantity(items, id, quantity);
    var expected := items[i := items[i].(quantity := quantity)];
    forall j | 0 <= j < |items| ensures r[j] == expected[j] {
      if j != i {
        assert EntryId(items[j]) != EntryId(items[i]);
      }
    }
  }
}
