/** The Redux menu slice, src/store/slices/foodSlice.js: CRUD by id over the
    list of menu items, with `loading` and `error` flags. */
module FoodSlice {
  import opened Wrappers
  import opened Catalog
  import opened ListOps

  /** The slice's state: `{ foods, loading, error }`. */
  class FoodStore {
    var foods: seq<Product>
    var loading: bool
    var error: Option<string>

    /** `initialState`: no foods, not loading, no error. */
    constructor ()
      ensures foods == [] && !loading && error == None
    {
      foods := [];
      loading := false;
      error := None;
    }

    /** `setFoods`: the list is replaced wholesale and the error cleared. */
    method SetFoods(payload: seq<Product>)
      modifies this
      ensures foods == payload && error == None && loading == old(loading)
    {
      foods := payload;
      error := None;
    }

    /** `addFood`: appended at the end, with no check on the id; error cleared. */
    method AddFood(food: Product)
      modifies this
      ensures foods == old(foods) + [food] && error == None && loading == old(loading)
    {
      foods := foods + [food];
      error := None;
    }

    /** `updateFood`: the first food with the payload's id is replaced in place,
        the list is untouched when no id matches; the error is cleared in both cases. */
    method UpdateFood(food: Product)
      modifies this
      ensures foods == ReplaceFirst(old(foods), ProductId, food)
      ensures |foods| == |old(foods)|
      ensures !HasKey(old(foods), ProductId, food.id) ==> foods == old(foods)
      ensures DistinctKeys(old(foods), ProductId) ==> DistinctKeys(foods, ProductId)
      ensures error == None && loading == old(loading)
    {
      ReplaceFirstKeepsKeys(foods, ProductId, food);
      var index := FindIndex(foods, ProductId, food.id);
      if index != -1 {
        foods := foods[index := food];
      }
      error := None;
    }

    /** `deleteFood`: every food with the id goes, the rest keep their order; error cleared. */
    method DeleteFood(id: string)
      modifies this
      ensures foods == RemoveAll(old(foods), ProductId, id)
      ensures !HasKey(foods, ProductId, id)
      ensures DistinctKeys(old(foods), ProductId) ==> DistinctKeys(foods, ProductId)
      ensures error == None && loading == old(loading)
    {
      if DistinctKeys(foods, ProductId) {
        RemoveAllKeepsDistinct(foods, ProductId, id);
      }
      foods := RemoveAll(foods, ProductId, id);
      error := None;
    }

    /** `setLoading`: only `loading` changes. */
    method SetLoading(value: bool)
      modifies this
      ensures loading == value && foods == old(foods) && error == old(error)
    {
      loading := value;
    }

    /** `setError`: only `error` changes. */
    method SetError(value: Option<string>)
      modifies this
      ensures error == value && foods == old(foods) && loading == old(loading)
    {
      error := value;
    }
  }
}
