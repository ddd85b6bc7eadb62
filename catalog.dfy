/** The records the cart prices against: catalogue products and the size and
    topping modifiers, with the modifier catalogue of src/utils/constants.js.
    Prices are whole Vietnamese dong. */
module Catalog {

  /** A size or topping option: `{ id, name, price }`, `price` being the amount it adds. */
  datatype Modifier = Modifier(id: string, name: string, price: int)

  /** A menu item as the cart receives it. */
  datatype Product = Product(
    id: string,
    name: string,
    price: int,
    image: string,
    description: string,
    category: string)

  function ModifierId(m: Modifier): string { m.id }

  function ModifierPrice(m: Modifier): int { m.price }

  function ProductId(p: Product): string { p.id }

  /** `sizeOptions`: small, medium and large. */
  const SizeOptions: seq<Modifier> := [
    Modifier("small", "Nhỏ", 0),
    Modifier("medium", "Vừa", 10000),
    Modifier("large", "Lớn", 20000)
  ]

  /** `toppingOptions`: eight toppings at 5000 each. */
  const ToppingOptions: seq<Modifier> := [
    Modifier("rau-thom", "Rau thơm", 5000),
    Modifier("hanh-kho", "Hành khô", 5000),
    Modifier("ot", "Ớt", 5000),
    Modifier("chanh", "Chanh", 5000),
    Modifier("tuong-ot", "Tương ớt", 5000),
    Modifier("tuong-dau", "Tương đậu", 5000),
    Modifier("nuoc-mam", "Nước mắm", 5000),
    Modifier("gia-vi", "Gia vị", 5000)
  ]

  /** Every topping of the catalogue costs 5000, and their ids are distinct. */
  lemma ToppingCatalogue()
    ensures forall j :: 0 <= j < |ToppingOptions| ==> ToppingOptions[j].price == 5000
    ensures forall i, j :: 0 <= i < j < |ToppingOptions| ==> ToppingOptions[i].id != ToppingOptions[j].id
  {
  }
}
