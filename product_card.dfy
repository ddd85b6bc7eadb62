/** The product card of src/components/Product/ProductCard.jsx: the selection
    state (quantity, size, toppings) and the `addItem` payload it dispatches. */
module ProductCard {
  import opened Wrappers
  import opened Catalog
  import opened ListOps
  import opened Pricing
  import opened CartSlice

  /** The `addItem` payload: the product's fields, the selection, and
      `totalPrice` = the line price for the picked quantity, which is not the
      price of one unit unless the quantity is 1. */
  function Payload(product: Product, size: Modifier, toppings: seq<Modifier>, quantity: int): (p: LineItem)
    ensures LineId(p) == product.id && p.quantity == quantity
    ensures p.size == Some(size) && p.toppings == Some(toppings)
    ensures UnitPrice(product.price, size, toppings) != 0 ==>
              (p.totalPrice == UnitPrice(product.price, size, toppings) <==> quantity == 1)
  {
    var unit := UnitPrice(product.price, size, toppings);
    assert unit * quantity - unit == unit * (quantity - 1);
    LineItem(product, Some(size), Some(toppings), LinePrice(product.price, size, toppings, quantity), quantity)
  }

  /** Base 40000, medium, two toppings, quantity 3: the payload's `totalPrice` is 180000. */
  lemma {:induction false} PayloadScenario(product: Product)
    requires product.price == 40000
    ensures var p := Payload(product, SizeOptions[1], [ToppingOptions[0], ToppingOptions[1]], 3);
            p.totalPrice == 180000 && p.quantity == 3
  {
    PricingScenario();
  }

  /** The payload's `totalPrice` already holds `quantity` units and `addItem`
      multiplies it by `quantity` again: on an empty cart `totalAmount` becomes
      the unit price times the quantity squared. */
  lemma {:induction false} PayloadCountsQuantityTwice(product: Product, size: Modifier, toppings: seq<Modifier>, quantity: int)
    ensures var p := Payload(product, size, toppings, quantity);
            SumAmount(AddedLines([], p)) == p.totalPrice * quantity &&
            SumAmount(AddedLines([], p)) == UnitPrice(product.price, size, toppings) * quantity * quantity
  {
    var p := Payload(product, size, toppings, quantity);
    AddItemTotals([], p);
  }

  /** Base 40000, small size, no toppings, quantity 2: the line is worth 80000 and
      the cart's `totalAmount` says 160000. */
  lemma {:induction false} DoubleCountExample(product: Product)
    requires product.price == 40000
    ensures var p := Payload(product, SizeOptions[0], [], 2);
            p.totalPrice == 80000 && SumAmount(AddedLines([], p)) == 160000
  {
    PayloadCountsQuantityTwice(product, SizeOptions[0], [], 2);
  }

  /** A payload whose `totalPrice` is the price of one unit, as `addItem` and
      the rest of the cart slice read it. */
  function UnitPayload(product: Product, size: Modifier, toppings: seq<Modifier>, quantity: int): (p: LineItem)
    ensures LineId(p) == product.id && p.quantity == quantity
    ensures p.size == Some(size) && p.toppings == Some(toppings)
    ensures p.totalPrice * p.quantity == LinePrice(product.price, size, toppings, quantity)
  {
    LineItem(product, Some(size), Some(toppings), UnitPrice(product.price, size, toppings), quantity)
  }

  /** With a per-unit payload, `addItem` of a new product raises both the lines'
      amount and `totalAmount` by exactly the line price. */
  lemma {:induction false} UnitPayloadAddsLinePrice(items: seq<LineItem>, product: Product, size: Modifier, toppings: seq<Modifier>, quantity: int)
    requires !HasKey(items, LineId, product.id)
    ensures var p := UnitPayload(product, size, toppings, quantity);
            SumAmount(AddedLines(items, p)) == SumAmount(items) + LinePrice(product.price, size, toppings, quantity) &&
            p.totalPrice * p.quantity == LinePrice(product.price, size, toppings, quantity) &&
            AmountAgrees(items, p)
  {
    var p := UnitPayload(product, size, toppings, quantity);
    assert FindIndex(items, LineId, LineId(p)) == -1;
    AddItemTotals(items, p);
  }

  /** The card's state: the product it shows and the selection. */
  class Component {
    const product: Product
    var quantity: int
    var selectedSize: Modifier
    var selectedToppings: seq<Modifier>

    /** The quantity is positive and the selected topping ids are distinct. */
    ghost predicate Valid()
      reads this
    {
      quantity >= 1 && DistinctKeys(selectedToppings, ModifierId)
    }

    /** Quantity 1, the first size option, no toppings. */
    constructor (product: Product, sizeOptions: seq<Modifier>)
      requires |sizeOptions| > 0
      ensures this.product == product
      ensures quantity == 1 && selectedSize == sizeOptions[0] && selectedToppings == []
      ensures Valid()
    {
      this.product := product;
      quantity := 1;
      selectedSize := sizeOptions[0];
      selectedToppings := [];
    }

    /** `handleQuantityChange`: only a positive quantity is taken. */
    method HandleQuantityChange(newQuantity: int)
      modifies this
      ensures quantity == if newQuantity > 0 then newQuantity else old(quantity)
      ensures selectedSize == old(selectedSize) && selectedToppings == old(selectedToppings)
      ensures old(Valid()) ==> Valid()
    {
      if newQuantity > 0 {
        quantity := newQuantity;
      }
    }

    /** `handleSizeChange`. */
    method HandleSizeChange(size: Modifier)
      modifies this
      ensures selectedSize == size
      ensures quantity == old(quantity) && selectedToppings == old(selectedToppings)
      ensures old(Valid()) ==> Valid()
    {
      selectedSize := size;
    }

    /** `handleToppingChange`: the toggle. */
    method HandleToppingChange(topping: Modifier)
      modifies this
      ensures selectedToppings == ToggleTopping(old(selectedToppings), topping)
      ensures quantity == old(quantity) && selectedSize == old(selectedSize)
      ensures old(Valid()) ==> Valid()
    {
      if Valid() {
        ToggleKeepsDistinct(selectedToppings, topping);
      }
      selectedToppings := ToggleTopping(selectedToppings, topping);
    }

    /** `handleAddToCart`: prices the selection and dispatches `addItem`. */
    method HandleAddToCart(store: CartStore)
      modifies store
      ensures store.items == AddedLines(old(store.items), Payload(product, selectedSize, selectedToppings, quantity))
      ensures store.totalQuantity == old(store.totalQuantity) + quantity
      ensures store.totalAmount ==
              old(store.totalAmount) + LinePrice(product.price, selectedSize, selectedToppings, quantity) * quantity
    {
      var toppingsPrice := ToppingsPrice(selectedToppings);
      var totalPrice := (product.price + selectedSize.price + toppingsPrice) * quantity;
      store.AddItem(LineItem(product, Some(selectedSize), Some(selectedToppings), totalPrice, quantity));
    }

    /** The intended `handleAddToCart`: the payload carries the price of one
        unit, so a new product raises `totalAmount` by exactly its line price
        and the totals keep agreeing with the lines. */
    method HandleAddToCartIntended(store: CartStore)
      modifies store
      ensures store.items == AddedLines(old(store.items), UnitPayload(product, selectedSize, selectedToppings, quantity))
      ensures store.totalQuantity == old(store.totalQuantity) + quantity
      ensures store.totalAmount ==
              old(store.totalAmount) + LinePrice(product.price, selectedSize, selectedToppings, quantity)
      ensures old(!HasKey(store.items, LineId, product.id) && store.TotalsMatch()) ==> store.TotalsMatch()
    {
      var toppingsPrice := ToppingsPrice(selectedToppings);
      var unitPrice := product.price + selectedSize.price + toppingsPrice;
      var payload := LineItem(product, Some(selectedSize), Some(selectedToppings), unitPrice, quantity);
      assert payload == UnitPayload(product, selectedSize, selectedToppings, quantity);
      store.AddItem(payload);
      if !HasKey(old(store.items), LineId, product.id) {
        UnitPayloadAddsLinePrice(old(store.items), product, selectedSize, selectedToppings, quantity);
      }
    }
  }
}
