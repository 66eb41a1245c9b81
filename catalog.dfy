/** The fixed restaurant catalog of the storefront and its lookup by id. */
module Catalog {
  import opened Wrappers

  /** One catalog entry. Ids are modelled as integers: the source compares
      the id taken from the request body with loose equality, and that
      string-to-number coercion is deliberately abstracted away here. */
  datatype Restaurant = Restaurant(id: int, name: string, image: string)

  const PizzaPlaceImage: string :=
    "https://plus.unsplash.com/premium_photo-1673439304183-8840bd0dc1bf?q=80&w=1887&auto=format&fit=crop&ixlib=rb-4.0.3&ixid=M3wxMjA3fDB8MHxwaG90by1wYWdlfHx8fGVufDB8fHx8fA%3D%3D"
  const SushiSpotImage: string := PizzaPlaceImage
  const BurgerHubImage: string :=
    "https://images.unsplash.com/photo-1508737027454-e6454ef45afd?w=500&auto=format&fit=crop&q=60&ixlib=rb-4.0.3&ixid=M3wxMjA3fDB8MHxzZWFyY2h8Nnx8YnVyZ2VyfGVufDB8fDB8fHww"

  /** The hard-coded catalog, in display order. */
  const Restaurants: seq<Restaurant> := [
    Restaurant(1, "Pizza Place", PizzaPlaceImage),
    Restaurant(2, "Sushi Spot", SushiSpotImage),
    Restaurant(3, "Burger Hub", BurgerHubImage)
  ]

  /** The first entry of `catalog` whose id is `id`, as `Array.prototype.find` returns it. */
  function Find(catalog: seq<Restaurant>, id: int): (r: Option<Restaurant>)
    ensures r.None? <==> forall i :: 0 <= i < |catalog| ==> catalog[i].id != id
    ensures r.Some? ==> exists i :: 0 <= i < |catalog| && catalog[i] == r.value && catalog[i].id == id &&
                                    forall j :: 0 <= j < i ==> catalog[j].id != id
  {
    if |catalog| == 0 then None
    else if catalog[0].id == id then Some(catalog[0])
    else
      var r := Find(catalog[1..], id);
      assert forall i :: 1 <= i < |catalog| ==> catalog[i] == catalog[1..][i - 1];
      r
  }

  /** The set of ids the catalog offers. */
  function Ids(catalog: seq<Restaurant>): (ids: set<int>)
    ensures forall id :: id in ids <==> Find(catalog, id).Some?
  {
    if |catalog| == 0 then {}
    else
      assert forall i :: 1 <= i < |catalog| ==> catalog[i] == catalog[1..][i - 1];
      {catalog[0].id} + Ids(catalog[1..])
  }

  /** A catalog offers at most as many ids as it has entries. */
  lemma {:induction false} IdsBoundedByLength(catalog: seq<Restaurant>)
    ensures |Ids(catalog)| <= |catalog|
  {
    if |catalog| > 0 {
      IdsBoundedByLength(catalog[1..]);
    }
  }

  /** The hard-coded catalog knows exactly the ids 1, 2 and 3, each with its own entry. */
  lemma RestaurantsLookup(id: int)
    ensures Find(Restaurants, id).Some? <==> 1 <= id <= 3
    ensures Find(Restaurants, id).Some? ==> Find(Restaurants, id).value == Restaurants[id - 1]
  {
    assert forall i :: 0 <= i < |Restaurants| ==> Restaurants[i].id == i + 1;
    if 1 <= id <= 3 {
      assert Restaurants[id - 1].id == id;
    }
  }
}
