/** A cart line's controls, src/components/Cart/CartProduct.jsx: local size and
    topping state seeded from the line, and the `updateItem`/`removeItem`
    dispatches its handlers make. */
module CartProduct {
  import opened Wrappers
  import opened Catalog
  import opened ListOps
  import opened Pricing
  import opened CartSlice

  /** The patch `handleQuantityChange` dispatches: the new quantity, the current
      selection, and the line price for the new quantity, which `updateItem`
      applies only when it is not 0. */
  function QuantityPatch(item: LineItem, size: Modifier, toppings: seq<Modifier>, newQuantity: int): (p: ItemPatch)
    ensures p.id == LineId(item) && p.quantity == Some(newQuantity)
    ensures PriceGiven(p) <==> LinePrice(item.product.price, size, toppings, newQuantity) != 0
  {
    ItemPatch(LineId(item), Some(newQuantity), Some(size), Some(toppings),
              Some(LinePrice(item.product.price, size, toppings, newQuantity)))
  }

  /** The patch `handleSizeChange` and `handleToppingChange` dispatch: no
      quantity, the selection, and the line price for the line's current
      quantity, which `updateItem` applies only when it is not 0. */
  function RepricePatch(item: LineItem, size: Modifier, toppings: seq<Modifier>): (p: ItemPatch)
    ensures p.id == LineId(item) && p.quantity == None
    ensures PriceGiven(p) <==> LinePrice(item.product.price, size, toppings, item.quantity) != 0
  {
    ItemPatch(LineId(item), None, Some(size), Some(toppings),
              Some(LinePrice(item.product.price, size, toppings, item.quantity)))
  }

  /** A size or topping change on a line of the cart: that line takes the new
      size and toppings, keeps its quantity, and its `totalPrice` becomes the
      line price for its quantity (unless that price is 0, which `updateItem`
      does not apply); other lines are unchanged. */
  lemma {:induction false} RepricedLine(items: seq<LineItem>, item: LineItem, size: Modifier, toppings: seq<Modifier>)
    requires FindIndex(items, LineId, LineId(item)) != -1
    requires items[FindIndex(items, LineId, LineId(item))] == item
    ensures var i, r := FindIndex(items, LineId, LineId(item)), PatchedLines(items, RepricePatch(item, size, toppings));
            var price := LinePrice(item.product.price, size, toppings, item.quantity);
            |r| == |items| &&
            r[i].size == Some(size) && r[i].toppings == Some(toppings) && r[i].quantity == item.quantity &&
            r[i].totalPrice == (if price != 0 then price else item.totalPrice) &&
            forall j :: 0 <= j < |items| && j != i ==> r[j] == items[j]
  {
  }

  /** The reprice patch already holds the line's quantity and `updateItem`
      multiplies by it again: the line then adds the unit price times the
      quantity squared to the lines' amount. */
  lemma {:induction false} RepriceCountsQuantityTwice(items: seq<LineItem>, item: LineItem, size: Modifier, toppings: seq<Modifier>)
    requires FindIndex(items, LineId, LineId(item)) != -1
    requires items[FindIndex(items, LineId, LineId(item))] == item
    requires LinePrice(item.product.price, size, toppings, item.quantity) != 0
    ensures var i, r := FindIndex(items, LineId, LineId(item)), PatchedLines(items, RepricePatch(item, size, toppings));
            LineAmount(r[i]) == UnitPrice(item.product.price, size, toppings) * item.quantity * item.quantity
  {
    RepricedLine(items, item, size, toppings);
  }

  /** Two small bowls at base 40000 changed to medium: the line's `totalPrice`
      becomes 100000, what two medium bowls cost, and the line adds 200000 to
      the cart's amount. */
  lemma RepriceDoubleCountExample()
    ensures var item := LineItem(Product("pho", "Pho", 40000, "", "", "noodles"), Some(SizeOptions[0]), Some([]), 40000, 2);
            var r := PatchedLines([item], RepricePatch(item, SizeOptions[1], []));
            LinePrice(40000, SizeOptions[1], [], 2) == 100000 &&
            r[0].totalPrice == 100000 && SumAmount(r) == 200000
  {
    var item := LineItem(Product("pho", "Pho", 40000, "", "", "noodles"), Some(SizeOptions[0]), Some([]), 40000, 2);
    var r := PatchedLines([item], RepricePatch(item, SizeOptions[1], []));
    assert FindIndex([item], LineId, LineId(item)) == 0;
    assert UnitPrice(40000, SizeOptions[1], []) == 50000;
    assert r == [Patched(item, RepricePatch(item, SizeOptions[1], []))];
    assert r[0].totalPrice == 100000;
    assert r[1..] == [];
    assert SumAmount(r) == LineAmount(r[0]) + SumAmount([]);
  }

  /** The reprice patch with the price of one unit in `totalPrice`, as the
      cart slice reads it. */
  function UnitRepricePatch(item: LineItem, size: Modifier, toppings: seq<Modifier>): (p: ItemPatch)
    ensures p.id == LineId(item) && p.quantity == None
    ensures PriceGiven(p) <==> UnitPrice(item.product.price, size, toppings) != 0
    ensures PriceGiven(p) ==> p.totalPrice.value * item.quantity == LinePrice(item.product.price, size, toppings, item.quantity)
  {
    ItemPatch(LineId(item), None, Some(size), Some(toppings), Some(UnitPrice(item.product.price, size, toppings)))
  }

  /** With a per-unit reprice, the line's amount becomes exactly its line
      price, and the lines' amount moves by the difference. */
  lemma {:induction false} UnitRepricedLine(items: seq<LineItem>, item: LineItem, size: Modifier, toppings: seq<Modifier>)
    requires FindIndex(items, LineId, LineId(item)) != -1
    requires items[FindIndex(items, LineId, LineId(item))] == item
    requires UnitPrice(item.product.price, size, toppings) != 0
    ensures var i, r := FindIndex(items, LineId, LineId(item)), PatchedLines(items, UnitRepricePatch(item, size, toppings));
            var price := LinePrice(item.product.price, size, toppings, item.quantity);
            LineAmount(r[i]) == price &&
            r[i].quantity == item.quantity &&
            SumAmount(r) == SumAmount(items) - LineAmount(item) + price
  {
    var patch := UnitRepricePatch(item, size, toppings);
    UpdateItemTotals(items, patch);
    var unit := UnitPrice(item.product.price, size, toppings);
    assert (unit - item.totalPrice) * item.quantity == unit * item.quantity - item.totalPrice * item.quantity;
  }

  /** The plus and minus buttons of a cart line: the dispatched patch carries the
      new quantity, `updateItem` ignores it, so the line keeps its quantity while
      its `totalPrice` becomes the price of the new quantity. */
  lemma {:induction false} QuantityButtonKeepsQuantity(items: seq<LineItem>, item: LineItem, size: Modifier,
                                    toppings: seq<Modifier>, newQuantity: int)
    requires FindIndex(items, LineId, LineId(item)) != -1
    requires items[FindIndex(items, LineId, LineId(item))] == item
    requires LinePrice(item.product.price, size, toppings, newQuantity) != 0
    ensures var i, r := FindIndex(items, LineId, LineId(item)), PatchedLines(items, QuantityPatch(item, size, toppings, newQuantity));
            r[i].quantity == item.quantity &&
            r[i].totalPrice == LinePrice(item.product.price, size, toppings, newQuantity) &&
            SumQuantity(r) == SumQuantity(items)
  {
    UpdateItemTotals(items, QuantityPatch(item, size, toppings, newQuantity));
  }

  /** The component's local selection state. */
  class Component {
    var selectedSize: Modifier
    var selectedToppings: seq<Modifier>

    /** The line's size, else the first size option; the line's toppings, else none. */
    constructor (item: LineItem)
      ensures selectedSize == (if item.size.Some? then item.size.value else SizeOptions[0])
      ensures selectedToppings == (if item.toppings.Some? then item.toppings.value else [])
    {
      selectedSize := item.size.GetOr(SizeOptions[0]);
      selectedToppings := item.toppings.GetOr([]);
    }

    /** `handleQuantityChange`: for a positive quantity, dispatch `updateItem`
        with the quantity patch; otherwise nothing. */
    method HandleQuantityChange(item: LineItem, newQuantity: int, store: CartStore)
      modifies store
      ensures newQuantity > 0 ==>
                var patch := QuantityPatch(item, selectedSize, selectedToppings, newQuantity);
                store.items == PatchedLines(old(store.items), patch) &&
                store.totalQuantity == old(store.totalQuantity) &&
                store.totalAmount == old(store.totalAmount) + PatchShift(old(store.items), patch)
      ensures newQuantity <= 0 ==> unchanged(store)
      ensures old(store.TotalsMatch()) ==> store.TotalsMatch()
    {
      if newQuantity > 0 {
        var toppingsPrice := ToppingsPrice(selectedToppings);
        var totalPrice := (item.product.price + selectedSize.price + toppingsPrice) * newQuantity;
        store.UpdateItem(ItemPatch(LineId(item), Some(newQuantity), Some(selectedSize), Some(selectedToppings), Some(totalPrice)));
      }
    }

    /** The intended `handleQuantityChange`: for a positive quantity, dispatch
        `updateQuantity`, so that the line's quantity becomes the new one. */
    method HandleQuantityChangeIntended(item: LineItem, newQuantity: int, store: CartStore)
      modifies store
      ensures newQuantity > 0 ==> store.items == QuantityUpdated(old(store.items), LineId(item), newQuantity)
      ensures var i := FindIndex(old(store.items), LineId, LineId(item));
              if newQuantity <= 0 || i == -1 then
                store.totalQuantity == old(store.totalQuantity) && store.totalAmount == old(store.totalAmount)
              else
                store.items[i].quantity == newQuantity &&
                store.totalQuantity == old(store.totalQuantity) + (newQuantity - old(store.items)[i].quantity) &&
                store.totalAmount == old(store.totalAmount) +
                  old(store.items)[i].totalPrice * (newQuantity - old(store.items)[i].quantity)
      ensures newQuantity <= 0 ==> unchanged(store)
      ensures old(store.TotalsMatch()) ==> store.TotalsMatch()
    {
      if newQuantity > 0 {
        store.UpdateQuantity(LineId(item), newQuantity);
      }
    }

    /** `handleSizeChange`: select the size and dispatch the reprice patch. */
    method HandleSizeChange(item: LineItem, size: Modifier, store: CartStore)
      modifies this, store
      ensures selectedSize == size && selectedToppings == old(selectedToppings)
      ensures store.items == PatchedLines(old(store.items), RepricePatch(item, size, selectedToppings))
      ensures store.totalQuantity == old(store.totalQuantity)
      ensures store.totalAmount == old(store.totalAmount) + PatchShift(old(store.items), RepricePatch(item, size, selectedToppings))
      ensures old(store.TotalsMatch()) ==> store.TotalsMatch()
    {
      selectedSize := size;
      var toppingsPrice := ToppingsPrice(selectedToppings);
      var totalPrice := (item.product.price + size.price + toppingsPrice) * item.quantity;
      store.UpdateItem(ItemPatch(LineId(item), None, Some(size), Some(selectedToppings), Some(totalPrice)));
    }

    /** `handleToppingChange`: toggle the topping and dispatch the reprice patch
        with the new toppings. */
    method HandleToppingChange(item: LineItem, topping: Modifier, store: CartStore)
      modifies this, store
      ensures selectedToppings == ToggleTopping(old(selectedToppings), topping)
      ensures selectedSize == old(selectedSize)
      ensures store.items == PatchedLines(old(store.items), RepricePatch(item, selectedSize, selectedToppings))
      ensures store.totalQuantity == old(store.totalQuantity)
      ensures store.totalAmount ==
              old(store.totalAmount) + PatchShift(old(store.items), RepricePatch(item, selectedSize, selectedToppings))
      ensures old(store.TotalsMatch()) ==> store.TotalsMatch()
    {
      var newToppings := ToggleTopping(selectedToppings, topping);
      selectedToppings := newToppings;
      var toppingsPrice := ToppingsPrice(newToppings);
      var totalPrice := (item.product.price + selectedSize.price + toppingsPrice) * item.quantity;
      store.UpdateItem(ItemPatch(LineId(item), None, Some(selectedSize), Some(newToppings), Some(totalPrice)));
    }

    /** The intended `handleSizeChange`: the reprice patch carries the price of
        one unit. */
    method HandleSizeChangeIntended(item: LineItem, size: Modifier, store: CartStore)
      modifies this, store
      ensures selectedSize == size && selectedToppings == old(selectedToppings)
      ensures store.items == PatchedLines(old(store.items), UnitRepricePatch(item, size, selectedToppings))
      ensures store.totalQuantity == old(store.totalQuantity)
      ensures store.totalAmount ==
              old(store.totalAmount) + PatchShift(old(store.items), UnitRepricePatch(item, size, selectedToppings))
      ensures old(store.TotalsMatch()) ==> store.TotalsMatch()
    {
      selectedSize := size;
      var toppingsPrice := ToppingsPrice(selectedToppings);
      var unitPrice := item.product.price + size.price + toppingsPrice;
      store.UpdateItem(ItemPatch(LineId(item), None, Some(size), Some(selectedToppings), Some(unitPrice)));
    }

    /** The intended `handleToppingChange`: the reprice patch carries the price
        of one unit. */
    method HandleToppingChangeIntended(item: LineItem, topping: Modifier, store: CartStore)
      modifies this, store
      ensures selectedToppings == ToggleTopping(old(selectedToppings), topping)
      ensures selectedSize == old(selectedSize)
      ensures store.items == PatchedLines(old(store.items), UnitRepricePatch(item, selectedSize, selectedToppings))
      ensures store.totalQuantity == old(store.totalQuantity)
      ensures store.totalAmount ==
              old(store.totalAmount) + PatchShift(old(store.items), UnitRepricePatch(item, selectedSize, selectedToppings))
      ensures old(store.TotalsMatch()) ==> store.TotalsMatch()
    {
      var newToppings := ToggleTopping(selectedToppings, topping);
      selectedToppings := newToppings;
      var toppingsPrice := ToppingsPrice(newToppings);
      var unitPrice := item.product.price + selectedSize.price + toppingsPrice;
      store.UpdateItem(ItemPatch(LineId(item), None, Some(selectedSize), Some(newToppings), Some(unitPrice)));
    }

    /** `handleRemove`: dispatch `removeItem` of exactly this line's id. */
    method HandleRemove(item: LineItem, store: CartStore)
      modifies store
      ensures store.items == RemoveAll(old(store.items), LineId, LineId(item))
      ensures !HasKey(store.items, LineId, LineId(item))
      ensures var i := FindIndex(old(store.items), LineId, LineId(item));
              if i == -1 then
                store.totalQuantity == old(store.totalQuantity) && store.totalAmount == old(store.totalAmount)
              else
                store.totalQuantity == old(store.totalQuantity) - old(store.items)[i].quantity &&
                store.totalAmount == old(store.totalAmount) - old(store.items)[i].totalPrice * old(store.items)[i].quantity
      ensures old(store.OneLinePerId() && store.TotalsMatch()) ==> store.TotalsMatch()
    {
      if FindIndex(store.items, LineId, LineId(item)) == -1 {
        RemoveAllAbsent(store.items, LineId, LineId(item));
      }
      store.RemoveItem(LineId(item));
    }
  }
}
