/** The Redux cart slice (src/store/slices/cartSlice.js): a list of lines plus
    two running totals, updated incrementally by each reducer. */
module CartSlice {
  import opened Wrappers
  import opened Catalog
  import opened ListOps

  /** A cart line: the product's fields spread into the payload, with the chosen
      size and toppings (absent on payloads that lack them), `totalPrice` and
      `quantity`. */
  datatype LineItem = LineItem(
    product: Product,
    size: Option<Modifier>,
    toppings: Option<seq<Modifier>>,
    totalPrice: int,
    quantity: int)

  /** The payload of `updateItem`. The reducer reads `id`, `size`, `toppings` and
      `totalPrice`; a `quantity` its callers send is carried but never read. */
  datatype ItemPatch = ItemPatch(
    id: string,
    quantity: Option<int>,
    size: Option<Modifier>,
    toppings: Option<seq<Modifier>>,
    totalPrice: Option<int>)

  function LineId(l: LineItem): string { l.product.id }

  function LineQuantity(l: LineItem): int { l.quantity }

  /** What a line contributes to `totalAmount`: `totalPrice * quantity`. */
  function LineAmount(l: LineItem): int { l.totalPrice * l.quantity }

  function SumQuantity(items: seq<LineItem>): int { Sum(items, LineQuantity) }

  function SumAmount(items: seq<LineItem>): int { Sum(items, LineAmount) }

  /** The lines after `addItem`: the first line with the payload's id gains the
      payload's quantity, or else the payload is appended. */
  function AddedLines(items: seq<LineItem>, payload: LineItem): (r: seq<LineItem>)
    ensures |r| == if HasKey(items, LineId, LineId(payload)) then |items| else |items| + 1
    ensures forall j :: 0 <= j < |items| ==> LineId(r[j]) == LineId(items[j])
    ensures HasKey(r, LineId, LineId(payload))
  {
    var i := FindIndex(items, LineId, LineId(payload));
    if i == -1 then
      var appended := items + [payload];
      assert LineId(appended[|items|]) == LineId(payload);
      appended
    else
      var merged := items[i := items[i].(quantity := items[i].quantity + payload.quantity)];
      assert LineId(merged[i]) == LineId(payload);
      merged
  }

  /** `addItem` adds `payload.totalPrice * payload.quantity` to `totalAmount`; this
      is what the lines gain when the payload is new or its price per unit
      agrees with the line it merges into. */
  predicate AmountAgrees(items: seq<LineItem>, payload: LineItem) {
    var i := FindIndex(items, LineId, LineId(payload));
    i == -1 || items[i].totalPrice * payload.quantity == payload.totalPrice * payload.quantity
  }

  /** The lines after `updateQuantity`: the first line with the id takes the new quantity. */
  function QuantityUpdated(items: seq<LineItem>, id: string, quantity: int): (r: seq<LineItem>)
    ensures |r| == |items|
    ensures forall j :: 0 <= j < |items| ==>
              r[j] == items[j] || (LineId(items[j]) == id && r[j] == items[j].(quantity := quantity))
    ensures HasKey(items, LineId, id) ==> exists j :: 0 <= j < |r| && LineId(r[j]) == id && r[j].quantity == quantity
  {
    var i := FindIndex(items, LineId, id);
    if i == -1 then items else items[i := items[i].(quantity := quantity)]
  }

  /** `if (totalPrice)`: a missing or zero price is not applied. */
  predicate PriceGiven(patch: ItemPatch) {
    patch.totalPrice.Some? && patch.totalPrice.value != 0
  }

  /** One line under `updateItem`: size and toppings are replaced when given,
      `totalPrice` when truthy. */
  function Patched(l: LineItem, patch: ItemPatch): LineItem {
    l.(size := if patch.size.Some? then patch.size else l.size,
       toppings := if patch.toppings.Some? then patch.toppings else l.toppings,
       totalPrice := if PriceGiven(patch) then patch.totalPrice.value else l.totalPrice)
  }

  /** What `updateItem` adds to `totalAmount`: the change of the first matching
      line's price times its quantity, when a truthy price is given; else 0. */
  function PatchShift(items: seq<LineItem>, patch: ItemPatch): int {
    var i := FindIndex(items, LineId, patch.id);
    if i != -1 && PriceGiven(patch) then (patch.totalPrice.value - items[i].totalPrice) * items[i].quantity else 0
  }

  /** The lines after `updateItem`: the first line with the patch's id is patched. */
  function PatchedLines(items: seq<LineItem>, patch: ItemPatch): (r: seq<LineItem>)
    ensures |r| == |items|
    ensures forall j :: 0 <= j < |items| ==>
              r[j] == items[j] || (LineId(items[j]) == patch.id && r[j] == Patched(items[j], patch))
    ensures forall j :: 0 <= j < |items| ==> r[j].quantity == items[j].quantity && LineId(r[j]) == LineId(items[j])
  {
    var i := FindIndex(items, LineId, patch.id);
    if i == -1 then items else items[i := Patched(items[i], patch)]
  }

  /** `addItem` merges by id: it adds a line only for a new id, so one line per id
      is kept; on an existing id only that line's quantity changes. */
  lemma {:induction false} AddItemMergesById(items: seq<LineItem>, payload: LineItem)
    ensures var r := AddedLines(items, payload);
            HasKey(r, LineId, LineId(payload)) &&
            (DistinctKeys(items, LineId) ==> DistinctKeys(r, LineId))
    ensures var i, r := FindIndex(items, LineId, LineId(payload)), AddedLines(items, payload);
            i != -1 ==>
              |r| == |items| &&
              r[i] == items[i].(quantity := items[i].quantity + payload.quantity) &&
              forall j :: 0 <= j < |items| && j != i ==> r[j] == items[j]
    ensures FindIndex(items, LineId, LineId(payload)) == -1 ==>
              AddedLines(items, payload) == items + [payload]
  {
    var i := FindIndex(items, LineId, LineId(payload));
    var r := AddedLines(items, payload);
    if i == -1 {
      assert LineId(r[|items|]) == LineId(payload);
    } else {
      assert LineId(r[i]) == LineId(payload);
    }
  }

  /** What the lines' sums gain under `addItem`: the payload's quantity, and the
      payload's quantity at the price of the line it lands in. */
  lemma {:induction false} AddItemTotals(items: seq<LineItem>, payload: LineItem)
    ensures SumQuantity(AddedLines(items, payload)) == SumQuantity(items) + payload.quantity
    ensures var i := FindIndex(items, LineId, LineId(payload));
            SumAmount(AddedLines(items, payload)) == SumAmount(items) +
              (if i == -1 then payload.totalPrice else items[i].totalPrice) * payload.quantity
  {
    var i := FindIndex(items, LineId, LineId(payload));
    if i == -1 {
      assert [payload][1..] == [];
      SumAppend(items, [payload], LineQuantity);
      SumAppend(items, [payload], LineAmount);
    } else {
      var line := items[i];
      var merged := line.(quantity := line.quantity + payload.quantity);
      SumUpdate(items, i, merged, LineQuantity);
      SumUpdate(items, i, merged, LineAmount);
      assert LineAmount(merged) == LineAmount(line) + line.totalPrice * payload.quantity by {
        assert line.totalPrice * (line.quantity + payload.quantity)
            == line.totalPrice * line.quantity + line.totalPrice * payload.quantity;
      }
    }
  }

  /** Adding a product whose id is not in the cart and then removing that id
      gives back the original lines. */
  lemma {:induction false} AddThenRemoveRestores(items: seq<LineItem>, payload: LineItem)
    requires !HasKey(items, LineId, LineId(payload))
    ensures RemoveAll(AddedLines(items, payload), LineId, LineId(payload)) == items
  {
    assert FindIndex(items, LineId, LineId(payload)) == -1;
    assert [payload][1..] == [];
    RemoveAllAppend(items, [payload], LineId, LineId(payload));
    RemoveAllAbsent(items, LineId, LineId(payload));
  }

  /** With one line per id, removing a present id lowers the sums by exactly that
      line's quantity and amount, and keeps one line per id. */
  lemma {:induction false} RemoveItemTotals(items: seq<LineItem>, id: string)
    requires DistinctKeys(items, LineId)
    requires FindIndex(items, LineId, id) != -1
    ensures var i, r := FindIndex(items, LineId, id), RemoveAll(items, LineId, id);
            SumQuantity(r) == SumQuantity(items) - items[i].quantity &&
            SumAmount(r) == SumAmount(items) - items[i].totalPrice * items[i].quantity &&
            DistinctKeys(r, LineId)
  {
    SumRemoveAll(items, LineId, id, LineQuantity);
    SumRemoveAll(items, LineId, id, LineAmount);
    RemoveAllKeepsDistinct(items, LineId, id);
  }

  /** `updateQuantity` on a present id shifts the quantity sum by (new - old) and
      the amount sum by `totalPrice * (new - old)`; all other lines and the ids
      are unchanged. */
  lemma {:induction false} UpdateQuantityTotals(items: seq<LineItem>, id: string, quantity: int)
    requires FindIndex(items, LineId, id) != -1
    ensures var i, r := FindIndex(items, LineId, id), QuantityUpdated(items, id, quantity);
            |r| == |items| &&
            r[i].quantity == quantity &&
            (forall j :: 0 <= j < |items| && j != i ==> r[j] == items[j]) &&
            SumQuantity(r) == SumQuantity(items) + (quantity - items[i].quantity) &&
            SumAmount(r) == SumAmount(items) + items[i].totalPrice * (quantity - items[i].quantity) &&
            (DistinctKeys(items, LineId) ==> DistinctKeys(r, LineId))
  {
    var i := FindIndex(items, LineId, id);
    var line := items[i];
    var updated := line.(quantity := quantity);
    var r := QuantityUpdated(items, id, quantity);
    assert r == items[i := updated];
    SumUpdate(items, i, updated, LineQuantity);
    SumUpdate(items, i, updated, LineAmount);
    assert LineAmount(updated) - LineAmount(line) == line.totalPrice * (quantity - line.quantity) by {
      assert line.totalPrice * (quantity - line.quantity)
          == line.totalPrice * quantity - line.totalPrice * line.quantity;
    }
    forall j | 0 <= j < |items| ensures LineId(r[j]) == LineId(items[j]) {
    }
  }

  /** `updateItem` never changes a quantity, whatever the patch carries; on a
      present id with a truthy price the amount sum shifts by
      `(new - old) * quantity`, otherwise the sums are unchanged. */
  lemma {:induction false} UpdateItemTotals(items: seq<LineItem>, patch: ItemPatch)
    ensures var r := PatchedLines(items, patch);
            |r| == |items| &&
            (forall j :: 0 <= j < |items| ==> r[j].quantity == items[j].quantity && LineId(r[j]) == LineId(items[j])) &&
            SumQuantity(r) == SumQuantity(items)
    ensures SumAmount(PatchedLines(items, patch)) == SumAmount(items) + PatchShift(items, patch)
    ensures DistinctKeys(items, LineId) ==> DistinctKeys(PatchedLines(items, patch), LineId)
  {
    var i := FindIndex(items, LineId, patch.id);
    if i != -1 {
      var line := items[i];
      var patched := Patched(line, patch);
      assert PatchedLines(items, patch) == items[i := patched];
      SumUpdate(items, i, patched, LineQuantity);
      SumUpdate(items, i, patched, LineAmount);
      if PriceGiven(patch) {
        var p := patch.totalPrice.value;
        assert LineAmount(patched) - LineAmount(line) == (p - line.totalPrice) * line.quantity by {
          assert p * line.quantity - line.totalPrice * line.quantity == (p - line.totalPrice) * line.quantity;
        }
      } else {
        assert patched.totalPrice == line.totalPrice;
      }
    }
  }

  /** With non-negative prices and quantities on every line, both sums are non-negative. */
  lemma {:induction false} SumsNonNegative(items: seq<LineItem>)
    requires forall j :: 0 <= j < |items| ==> items[j].totalPrice >= 0 && items[j].quantity >= 0
    ensures SumQuantity(items) >= 0 && SumAmount(items) >= 0
  {
    SumNonNegative(items, LineQuantity);
    forall j | 0 <= j < |items| ensures LineAmount(items[j]) >= 0 {
      var l := items[j];
      assert l.totalPrice * l.quantity >= 0;
    }
    SumNonNegative(items, LineAmount);
  }

  /** Adding the same new product twice leaves one line for it, holding twice
      the payload's quantity, after the lines that were there. */
  lemma {:induction false} AddTwiceOneLine(items: seq<LineItem>, payload: LineItem)
    requires !HasKey(items, LineId, LineId(payload))
    ensures var r := AddedLines(AddedLines(items, payload), payload);
            r == items + [payload.(quantity := 2 * payload.quantity)] &&
            (DistinctKeys(items, LineId) ==> DistinctKeys(r, LineId))
  {
    var once := AddedLines(items, payload);
    assert FindIndex(items, LineId, LineId(payload)) == -1;
    assert once == items + [payload];
    assert LineId(once[|items|]) == LineId(payload);
    assert forall j :: 0 <= j < |items| ==> once[j] == items[j];
    assert FindIndex(once, LineId, LineId(payload)) == |items|;
    AddItemMergesById(items, payload);
    AddItemMergesById(once, payload);
  }

  /** `updateQuantity` to 0 does not remove the line: it stays, with quantity 0. */
  lemma {:induction false} ZeroQuantityKeepsLine(items: seq<LineItem>, id: string)
    requires HasKey(items, LineId, id)
    ensures var i, r := FindIndex(items, LineId, id), QuantityUpdated(items, id, 0);
            |r| == |items| && HasKey(r, LineId, id) && r[i].quantity == 0 &&
            r != RemoveAll(items, LineId, id)
  {
    var i := FindIndex(items, LineId, id);
    var r := QuantityUpdated(items, id, 0);
    assert LineId(r[i]) == id;
    assert !HasKey(RemoveAll(items, LineId, id), LineId, id);
  }

  /** `addItem`'s increment of `totalAmount` is what the lines gain exactly when
      the payload's price agrees with the line it merges into. */
  lemma {:induction false} AddItemAgreement(items: seq<LineItem>, payload: LineItem)
    ensures SumQuantity(AddedLines(items, payload)) == SumQuantity(items) + payload.quantity
    ensures SumAmount(AddedLines(items, payload)) == SumAmount(items) + payload.totalPrice * payload.quantity
            <==> AmountAgrees(items, payload)
  {
    AddItemTotals(items, payload);
  }

  /** A payload whose id is in the cart, at a price per unit other than the
      line's, with a non-zero quantity, makes `addItem`'s increment of
      `totalAmount` differ from what the lines gain. */
  lemma {:induction false} AddItemDrift(items: seq<LineItem>, payload: LineItem)
    requires FindIndex(items, LineId, LineId(payload)) != -1
    requires items[FindIndex(items, LineId, LineId(payload))].totalPrice != payload.totalPrice
    requires payload.quantity != 0
    ensures !AmountAgrees(items, payload)
    ensures SumAmount(AddedLines(items, payload)) != SumAmount(items) + payload.totalPrice * payload.quantity
  {
    var i := FindIndex(items, LineId, LineId(payload));
    AddItemTotals(items, payload);
    ScaleKeepsDifference(items[i].totalPrice, payload.totalPrice, payload.quantity);
  }

  /** Two different prices per unit stay different for the same non-zero quantity. */
  lemma ScaleKeepsDifference(a: int, b: int, q: int)
    requires a != b && q != 0
    ensures a * q != b * q
  {
    assert a * q - b * q == (a - b) * q;
  }

  /** Concrete drift: a 50000 line, then the same product added once at 60000
      (say in another size): the lines are worth 100000, `totalAmount` says 110000. */
  lemma AddItemDriftExample()
    ensures var p := Product("pho", "Pho", 40000, "", "", "noodles");
            var line := LineItem(p, None, None, 50000, 1);
            var payload := LineItem(p, None, None, 60000, 1);
            SumAmount([line]) == 50000 &&
            SumAmount(AddedLines([line], payload)) == 100000 &&
            SumAmount([line]) + payload.totalPrice * payload.quantity == 110000
  {
    var p := Product("pho", "Pho", 40000, "", "", "noodles");
    var line := LineItem(p, None, None, 50000, 1);
    var payload := LineItem(p, None, None, 60000, 1);
    assert FindIndex([line], LineId, LineId(payload)) == 0;
    assert [line][1..] == [];
  }

  /** The store's state: `{ items, totalQuantity, totalAmount }`. */
  class CartStore {
    var items: seq<LineItem>
    var totalQuantity: int
    var totalAmount: int

    /** At most one line per product id. */
    ghost predicate OneLinePerId()
      reads this
    {
      DistinctKeys(items, LineId)
    }

    /** The running totals agree with the lines. */
    ghost predicate TotalsMatch()
      reads this
    {
      totalQuantity == SumQuantity(items) && totalAmount == SumAmount(items)
    }

    /** `initialState`: no lines, both totals 0. */
    constructor ()
      ensures items == [] && totalQuantity == 0 && totalAmount == 0
      ensures OneLinePerId() && TotalsMatch()
    {
      items := [];
      totalQuantity := 0;
      totalAmount := 0;
    }

    /** `addItem`. The totals move by the payload's quantity and
        `payload.totalPrice * payload.quantity`; they stay in agreement with the
        lines exactly when the payload's price agrees with the line it merges into. */
    method AddItem(payload: LineItem)
      modifies this
      ensures items == AddedLines(old(items), payload)
      ensures totalQuantity == old(totalQuantity) + payload.quantity
      ensures totalAmount == old(totalAmount) + payload.totalPrice * payload.quantity
      ensures old(OneLinePerId()) ==> OneLinePerId()
      ensures old(TotalsMatch()) ==> (TotalsMatch() <==> AmountAgrees(old(items), payload))
    {
      var i := FindIndex(items, LineId, LineId(payload));
      if i != -1 {
        var existingItem := items[i];
        items := items[i := existingItem.(quantity := existingItem.quantity + payload.quantity)];
      } else {
        items := items + [payload];
      }
      assert items == AddedLines(old(items), payload);
      totalQuantity := totalQuantity + payload.quantity;
      totalAmount := totalAmount + payload.totalPrice * payload.quantity;
      AddItemMergesById(old(items), payload);
      AddItemAgreement(old(items), payload);
    }

    /** `addItem` with the increment of `totalAmount` taken at the price of the
        line the payload merges into, which keeps the totals in agreement. */
    method AddItemReconciled(payload: LineItem)
      modifies this
      ensures items == AddedLines(old(items), payload)
      ensures totalQuantity == old(totalQuantity) + payload.quantity
      ensures var i := FindIndex(old(items), LineId, LineId(payload));
              totalAmount == old(totalAmount) +
                (if i == -1 then payload.totalPrice else old(items)[i].totalPrice) * payload.quantity
      ensures old(OneLinePerId()) ==> OneLinePerId()
      ensures old(TotalsMatch()) ==> TotalsMatch()
    {
      var i := FindIndex(items, LineId, LineId(payload));
      var unitPrice := payload.totalPrice;
      if i != -1 {
        var existingItem := items[i];
        unitPrice := existingItem.totalPrice;
        items := items[i := existingItem.(quantity := existingItem.quantity + payload.quantity)];
      } else {
        items := items + [payload];
      }
      assert items == AddedLines(old(items), payload);
      totalQuantity := totalQuantity + payload.quantity;
      totalAmount := totalAmount + unitPrice * payload.quantity;
      AddItemMergesById(old(items), payload);
      AddItemTotals(old(items), payload);
    }

    /** `removeItem`: a no-op for an absent id; otherwise every line with the id
        goes and the totals drop by the first such line's quantity and amount. */
    method RemoveItem(id: string)
      modifies this
      ensures var i := FindIndex(old(items), LineId, id);
              if i == -1 then
                items == old(items) && totalQuantity == old(totalQuantity) && totalAmount == old(totalAmount)
              else
                items == RemoveAll(old(items), LineId, id) &&
                totalQuantity == old(totalQuantity) - old(items)[i].quantity &&
                totalAmount == old(totalAmount) - old(items)[i].totalPrice * old(items)[i].quantity
      ensures !HasKey(items, LineId, id)
      ensures old(OneLinePerId()) ==> OneLinePerId()
      ensures old(OneLinePerId() && TotalsMatch()) ==> TotalsMatch()
    {
      var i := FindIndex(items, LineId, id);
      if i != -1 {
        var itemToRemove := items[i];
        totalQuantity := totalQuantity - itemToRemove.quantity;
        totalAmount := totalAmount - itemToRemove.totalPrice * itemToRemove.quantity;
        items := RemoveAll(items, LineId, id);
        if DistinctKeys(old(items), LineId) {
          RemoveItemTotals(old(items), id);
        }
      }
    }

    /** `clearCart`: no lines and both totals 0, whatever the state was. */
    method ClearCart()
      modifies this
      ensures items == [] && totalQuantity == 0 && totalAmount == 0
      ensures OneLinePerId() && TotalsMatch()
    {
      items := [];
      totalQuantity := 0;
      totalAmount := 0;
    }

    /** `updateQuantity`: the first line with the id takes the new quantity and
        the totals shift by the difference; a no-op for an absent id. */
    method UpdateQuantity(id: string, quantity: int)
      modifies this
      ensures items == QuantityUpdated(old(items), id, quantity)
      ensures var i := FindIndex(old(items), LineId, id);
              if i == -1 then
                totalQuantity == old(totalQuantity) && totalAmount == old(totalAmount)
              else
                totalQuantity == old(totalQuantity) + (quantity - old(items)[i].quantity) &&
                totalAmount == old(totalAmount) + old(items)[i].totalPrice * (quantity - old(items)[i].quantity)
      ensures old(OneLinePerId()) ==> OneLinePerId()
      ensures old(TotalsMatch()) ==> TotalsMatch()
    {
      var i := FindIndex(items, LineId, id);
      if i != -1 {
        var item := items[i];
        var oldQuantity := item.quantity;
        items := items[i := item.(quantity := quantity)];
        totalQuantity := totalQuantity + (quantity - oldQuantity);
        totalAmount := totalAmount + item.totalPrice * (quantity - oldQuantity);
        UpdateQuantityTotals(old(items), id, quantity);
      }
    }

    /** `updateItem`: patches the first line with the id (size and toppings when
        given, `totalPrice` when truthy, adjusting `totalAmount` by
        `(new - old) * quantity`); no quantity changes. */
    method UpdateItem(patch: ItemPatch)
      modifies this
      ensures items == PatchedLines(old(items), patch)
      ensures totalQuantity == old(totalQuantity)
      ensures totalAmount == old(totalAmount) + PatchShift(old(items), patch)
      ensures old(OneLinePerId()) ==> OneLinePerId()
      ensures old(TotalsMatch()) ==> TotalsMatch()
    {
      var i := FindIndex(items, LineId, patch.id);
      if i != -1 {
        var item := items[i];
        if patch.size.Some? {
          item := item.(size := patch.size);
        }
        if patch.toppings.Some? {
          item := item.(toppings := patch.toppings);
        }
        if patch.totalPrice.Some? && patch.totalPrice.value != 0 {
          var oldTotalPrice := item.totalPrice;
          item := item.(totalPrice := patch.totalPrice.value);
          totalAmount := totalAmount + (patch.totalPrice.value - oldTotalPrice) * item.quantity;
        }
        items := items[i := item];
      }
      UpdateItemTotals(old(items), patch);
    }
  }
}
