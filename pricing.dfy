/** The price rule and the topping toggle that ProductCard and CartProduct both
    apply (src/components/Product/ProductCard.jsx:46-47 and 69-78,
    src/components/Cart/CartProduct.jsx:14-15, 29-30, 41-47). */
module Pricing {
  import opened Catalog
  import opened ListOps

  /** `toppings.reduce((total, topping) => total + topping.price, 0)`: nothing
      for no toppings, and never negative when no topping price is. */
  function ToppingsPrice(toppings: seq<Modifier>): (r: int)
    ensures toppings == [] ==> r == 0
    ensures (forall j :: 0 <= j < |toppings| ==> toppings[j].price >= 0) ==> r >= 0
  {
    ToppingPricesNonNegative(toppings);
    Sum(toppings, ModifierPrice)
  }

  lemma ToppingPricesNonNegative(toppings: seq<Modifier>)
    ensures (forall j :: 0 <= j < |toppings| ==> toppings[j].price >= 0) ==> Sum(toppings, ModifierPrice) >= 0
  {
    if forall j :: 0 <= j < |toppings| ==> toppings[j].price >= 0 {
      SumNonNegative(toppings, ModifierPrice);
    }
  }

  /** The price of one unit: base price, plus the size's price, plus every
      topping's price; with no negative modifier prices it is at least the
      base price plus the size's price. */
  function UnitPrice(basePrice: int, size: Modifier, toppings: seq<Modifier>): (r: int)
    ensures toppings == [] ==> r == basePrice + size.price
    ensures (forall j :: 0 <= j < |toppings| ==> toppings[j].price >= 0) ==> r >= basePrice + size.price
  {
    basePrice + size.price + ToppingsPrice(toppings)
  }

  /** `(price + size.price + toppingsPrice) * quantity`: nothing for no units,
      one unit's price for one, and at least one unit's price for any positive
      quantity when that price is not negative. */
  function LinePrice(basePrice: int, size: Modifier, toppings: seq<Modifier>, quantity: int): (r: int)
    ensures quantity == 0 ==> r == 0
    ensures quantity == 1 ==> r == UnitPrice(basePrice, size, toppings)
    ensures UnitPrice(basePrice, size, toppings) >= 0 && quantity >= 1 ==> r >= UnitPrice(basePrice, size, toppings)
  {
    var unit := UnitPrice(basePrice, size, toppings);
    assert unit >= 0 && quantity >= 1 ==> unit * quantity == unit + unit * (quantity - 1) && unit * (quantity - 1) >= 0;
    unit * quantity
  }

  /** The topping selection toggle: drop every selected topping with this id if
      there is one, otherwise append the topping. */
  function ToggleTopping(selected: seq<Modifier>, topping: Modifier): (r: seq<Modifier>)
    ensures HasKey(r, ModifierId, topping.id) <==> !HasKey(selected, ModifierId, topping.id)
    ensures forall j :: 0 <= j < |selected| && selected[j].id != topping.id ==> selected[j] in r
    ensures forall j :: 0 <= j < |r| && r[j].id != topping.id ==> r[j] in selected
    ensures !HasKey(selected, ModifierId, topping.id) ==> r == selected + [topping]
  {
    if HasKey(selected, ModifierId, topping.id) then RemoveAll(selected, ModifierId, topping.id)
    else
      var appended := selected + [topping];
      assert ModifierId(appended[|selected|]) == topping.id;
      appended
  }

  /** The selected topping ids stay distinct. */
  lemma ToggleKeepsDistinct(selected: seq<Modifier>, topping: Modifier)
    requires DistinctKeys(selected, ModifierId)
    ensures DistinctKeys(ToggleTopping(selected, topping), ModifierId)
  {
    if HasKey(selected, ModifierId, topping.id) {
      RemoveAllKeepsDistinct(selected, ModifierId, topping.id);
    }
  }

  /** Selecting a topping that was not selected and then deselecting it restores the selection. */
  lemma ToggleTwiceRestores(selected: seq<Modifier>, topping: Modifier)
    requires !HasKey(selected, ModifierId, topping.id)
    ensures ToggleTopping(ToggleTopping(selected, topping), topping) == selected
  {
    var once := selected + [topping];
    assert once[|selected|] == topping;
    RemoveAllAppend(selected, [topping], ModifierId, topping.id);
    RemoveAllAbsent(selected, ModifierId, topping.id);
  }

  /** With distinct ids, a toggle adds the topping's price or subtracts the price
      of the selected topping it removes. */
  lemma TogglePrice(selected: seq<Modifier>, topping: Modifier)
    requires DistinctKeys(selected, ModifierId)
    ensures var i := FindIndex(selected, ModifierId, topping.id);
            ToppingsPrice(ToggleTopping(selected, topping))
            == ToppingsPrice(selected) + (if i == -1 then topping.price else -selected[i].price)
  {
    if FindIndex(selected, ModifierId, topping.id) == -1 {
      SumAppend(selected, [topping], ModifierPrice);
      assert [topping][1..] == [];
    } else {
      SumRemoveAll(selected, ModifierId, topping.id, ModifierPrice);
    }
  }

  /** Any choice of catalogue toppings costs 5000 per topping. */
  lemma {:induction false} CatalogueToppingsPrice(toppings: seq<Modifier>)
    requires forall j :: 0 <= j < |toppings| ==> toppings[j] in ToppingOptions
    ensures ToppingsPrice(toppings) == 5000 * |toppings|
  {
    if toppings != [] {
      CatalogueToppingsPrice(toppings[1..]);
    }
  }

  /** With catalogue modifiers the unit price is the base price, plus 0, 10000 or
      20000 for the size, plus 5000 per topping. */
  lemma CatalogueUnitPrice(basePrice: int, size: Modifier, toppings: seq<Modifier>)
    requires size in SizeOptions
    requires forall j :: 0 <= j < |toppings| ==> toppings[j] in ToppingOptions
    ensures size.price in {0, 10000, 20000}
    ensures UnitPrice(basePrice, size, toppings) == basePrice + size.price + 5000 * |toppings|
  {
    CatalogueToppingsPrice(toppings);
  }

  /** Base 40000, medium size, two toppings, quantity 3: 60000 a unit, 180000 the line. */
  lemma PricingScenario()
    ensures UnitPrice(40000, SizeOptions[1], [ToppingOptions[0], ToppingOptions[1]]) == 60000
    ensures LinePrice(40000, SizeOptions[1], [ToppingOptions[0], ToppingOptions[1]], 3) == 180000
  {
    CatalogueUnitPrice(40000, SizeOptions[1], [ToppingOptions[0], ToppingOptions[1]]);
  }
}
