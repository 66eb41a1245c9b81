/** The in-memory shopping cart: one process-wide list of lines, each a copy
    of a catalog entry plus a quantity, changed in place by the
    add-to-cart and update-quantity request handlers.

    Ids and quantities are integers. The source receives both as strings
    from the request body and relies on JavaScript coercion (`==` against
    the catalog id, `Number(...)` against the cart id, `quantity > 0`, and
    storing the raw string as the new quantity); the model deliberately
    abstracts all of that and treats every value as an already-parsed integer. */
module ShoppingCart {
  import opened Wrappers
  import opened Catalog

  /** A cart line: the fields of the catalog entry spread into it, plus `quantity`. */
  datatype CartLine = CartLine(id: int, name: string, image: string, quantity: int)

  /** The line a catalog entry becomes when first added: `{ ...restaurant, quantity: 1 }`. */
  function NewLine(r: Restaurant): (line: CartLine)
    ensures EntryOf(line) == r && line.quantity == 1
  {
    CartLine(r.id, r.name, r.image, 1)
  }

  /** The catalog fields a line was copied from. */
  function EntryOf(line: CartLine): Restaurant {
    Restaurant(line.id, line.name, line.image)
  }

  /** At most one line per id. */
  predicate UniqueIds(lines: seq<CartLine>) {
    forall i, j :: 0 <= i < j < |lines| ==> lines[i].id != lines[j].id
  }

  /** Every line is a copy of the catalog entry its id finds. */
  predicate CopiedFromCatalog(lines: seq<CartLine>, catalog: seq<Restaurant>) {
    forall i :: 0 <= i < |lines| ==> Find(catalog, lines[i].id) == Some(EntryOf(lines[i]))
  }

  /** Every quantity is at least one. */
  predicate PositiveQuantities(lines: seq<CartLine>) {
    forall i :: 0 <= i < |lines| ==> lines[i].quantity >= 1
  }

  /** The cart invariant kept by every handler. */
  predicate WellFormed(lines: seq<CartLine>, catalog: seq<Restaurant>) {
    UniqueIds(lines) && CopiedFromCatalog(lines, catalog) && PositiveQuantities(lines)
  }

  /** Position of the first line with id `id`, the line `cart.find(item => item.id === id)` returns. */
  function LineIndex(lines: seq<CartLine>, id: int): (r: Option<nat>)
    ensures r.None? <==> forall i :: 0 <= i < |lines| ==> lines[i].id != id
    ensures r.Some? ==> r.value < |lines| && lines[r.value].id == id &&
                        forall j :: 0 <= j < r.value ==> lines[j].id != id
  {
    if |lines| == 0 then None
    else if lines[0].id == id then Some(0)
    else
      assert forall i :: 1 <= i < |lines| ==> lines[i] == lines[1..][i - 1];
      match LineIndex(lines[1..], id)
      case None => None
      case Some(k) => Some(k + 1)
  }

  /** The linear search the handlers run over the cart. */
  method FindLine(lines: seq<CartLine>, id: int) returns (r: Option<nat>)
    ensures r == LineIndex(lines, id)
  {
    var i := 0;
    while i < |lines| && lines[i].id != id
      invariant 0 <= i <= |lines|
      invariant forall j :: 0 <= j < i ==> lines[j].id != id
    {
      i := i + 1;
    }
    if i < |lines| {
      r := Some(i);
    } else {
      r := None;
    }
  }

  /** The cart after an add-to-cart request for `id`. */
  function AfterAdd(lines: seq<CartLine>, catalog: seq<Restaurant>, id: int): seq<CartLine> {
    match Find(catalog, id)
    case None => lines
    case Some(restaurant) =>
      match LineIndex(lines, restaurant.id)
      case Some(k) => lines[k := lines[k].(quantity := lines[k].quantity + 1)]
      case None => lines + [NewLine(restaurant)]
  }

  /** The cart after an update-quantity request setting `id` to `quantity`. */
  function AfterUpdate(lines: seq<CartLine>, id: int, quantity: int): seq<CartLine> {
    match LineIndex(lines, id)
    case Some(k) => if quantity > 0 then lines[k := lines[k].(quantity := quantity)] else lines
    case None => lines
  }

  /** Adding an id the catalog does not know leaves the cart as it was. */
  lemma AddUnknownIsNoop(lines: seq<CartLine>, catalog: seq<Restaurant>, id: int)
    requires forall i :: 0 <= i < |catalog| ==> catalog[i].id != id
    ensures AfterAdd(lines, catalog, id) == lines
  {
  }

  /** Adding a catalog id that already has a line increments exactly that line's
      quantity by one; the length and every other line stay as they were. */
  lemma AddExistingIncrements(lines: seq<CartLine>, catalog: seq<Restaurant>, id: int, k: nat)
    requires UniqueIds(lines)
    requires Find(catalog, id).Some?
    requires k < |lines| && lines[k].id == id
    ensures |AfterAdd(lines, catalog, id)| == |lines|
    ensures AfterAdd(lines, catalog, id)[k] == lines[k].(quantity := lines[k].quantity + 1)
    ensures forall j :: 0 <= j < |lines| && j != k ==> AfterAdd(lines, catalog, id)[j] == lines[j]
  {
  }

  /** Adding a catalog id with no line appends its entry, with quantity one, after the existing lines. */
  lemma AddNewAppends(lines: seq<CartLine>, catalog: seq<Restaurant>, id: int, entry: Restaurant)
    requires Find(catalog, id) == Some(entry)
    requires forall j :: 0 <= j < |lines| ==> lines[j].id != id
    ensures |AfterAdd(lines, catalog, id)| == |lines| + 1
    ensures AfterAdd(lines, catalog, id)[..|lines|] == lines
    ensures AfterAdd(lines, catalog, id)[|lines|] == CartLine(id, entry.name, entry.image, 1)
  {
  }

  /** Two adds of the same catalog id to a cart without it give one new line of quantity two. */
  lemma AddTwiceMakesOneLine(lines: seq<CartLine>, catalog: seq<Restaurant>, id: int, entry: Restaurant)
    requires Find(catalog, id) == Some(entry)
    requires forall j :: 0 <= j < |lines| ==> lines[j].id != id
    ensures AfterAdd(AfterAdd(lines, catalog, id), catalog, id) == lines + [CartLine(id, entry.name, entry.image, 2)]
  {
    var once := AfterAdd(lines, catalog, id);
    assert once == lines + [NewLine(entry)];
    assert once[|lines|].id == id;
    assert LineIndex(once, id) == Some(|lines|);
  }

  /** Adding keeps the cart invariant. */
  lemma AddPreservesWellFormed(lines: seq<CartLine>, catalog: seq<Restaurant>, id: int)
    requires WellFormed(lines, catalog)
    ensures WellFormed(AfterAdd(lines, catalog, id), catalog)
  {
    match Find(catalog, id)
    case None =>
    case Some(restaurant) =>
      match LineIndex(lines, restaurant.id)
      case Some(k) =>
      case None =>
        assert (lines + [NewLine(restaurant)])[|lines|] == NewLine(restaurant);
  }

  /** Setting a quantity that is not positive, or for an id with no line, leaves the cart as it was. */
  lemma UpdateIgnoredIsNoop(lines: seq<CartLine>, id: int, quantity: int)
    requires quantity <= 0 || forall j :: 0 <= j < |lines| ==> lines[j].id != id
    ensures AfterUpdate(lines, id, quantity) == lines
  {
  }

  /** A positive quantity for an id with a line overwrites that line's quantity and nothing else. */
  lemma UpdateSetsQuantity(lines: seq<CartLine>, id: int, quantity: int, k: nat)
    requires UniqueIds(lines)
    requires quantity > 0
    requires k < |lines| && lines[k].id == id
    ensures |AfterUpdate(lines, id, quantity)| == |lines|
    ensures AfterUpdate(lines, id, quantity)[k] == lines[k].(quantity := quantity)
    ensures forall j :: 0 <= j < |lines| && j != k ==> AfterUpdate(lines, id, quantity)[j] == lines[j]
  {
  }

  /** Updating keeps the cart invariant. */
  lemma UpdatePreservesWellFormed(lines: seq<CartLine>, catalog: seq<Restaurant>, id: int, quantity: int)
    requires WellFormed(lines, catalog)
    ensures WellFormed(AfterUpdate(lines, id, quantity), catalog)
  {
  }

  /** The ids of the lines, as a set. */
  function LineIds(lines: seq<CartLine>): (ids: set<int>)
    ensures forall id :: id in ids <==> LineIndex(lines, id).Some?
  {
    if |lines| == 0 then {}
    else
      assert forall i :: 1 <= i < |lines| ==> lines[i] == lines[1..][i - 1];
      {lines[0].id} + LineIds(lines[1..])
  }

  /** With one line per id, the cart has as many distinct ids as lines. */
  lemma {:induction false} UniqueIdsCount(lines: seq<CartLine>)
    requires UniqueIds(lines)
    ensures |LineIds(lines)| == |lines|
  {
    if |lines| > 0 {
      assert UniqueIds(lines[1..]) by {
        assert forall i :: 1 <= i < |lines| ==> lines[i] == lines[1..][i - 1];
      }
      UniqueIdsCount(lines[1..]);
      assert lines[0].id !in LineIds(lines[1..]) by {
        assert forall i :: 1 <= i < |lines| ==> lines[i] == lines[1..][i - 1];
      }
    }
  }

  /** A well-formed cart never holds more lines than the catalog has entries. */
  lemma CartNoLargerThanCatalog(lines: seq<CartLine>, catalog: seq<Restaurant>)
    requires WellFormed(lines, catalog)
    ensures |lines| <= |catalog|
  {
    UniqueIdsCount(lines);
    IdsBoundedByLength(catalog);
    assert LineIds(lines) <= Ids(catalog) by {
      forall id | id in LineIds(lines) ensures id in Ids(catalog) {
        var k := LineIndex(lines, id).value;
        assert Find(catalog, lines[k].id).Some?;
      }
    }
    SubsetCardinality(LineIds(lines), Ids(catalog));
  }

  lemma SubsetCardinality(a: set<int>, b: set<int>)
    requires a <= b
    ensures |a| <= |b|
  {
    assert b == a + (b - a);
  }

  /** The shared cart of the server process (`let cart = []`). */
  class Cart {
    var lines: seq<CartLine>

    ghost predicate Valid()
      reads this
    {
      WellFormed(lines, Restaurants)
    }

    constructor ()
      ensures Valid() && lines == []
    {
      lines := [];
    }

    /** The add-to-cart handler: add-or-increment, then redirect to the home page. */
    method AddToCart(restaurantId: int) returns (redirect: string)
      requires Valid()
      modifies this
      ensures Valid() && |lines| <= |Restaurants|
      ensures lines == AfterAdd(old(lines), Restaurants, restaurantId)
      ensures redirect == "/"
    {
      var restaurant := Find(Restaurants, restaurantId);
      if restaurant.Some? {
        var existing := FindLine(lines, restaurant.value.id);
        if existing.Some? {
          var k := existing.value;
          lines := lines[k := lines[k].(quantity := lines[k].quantity + 1)];
        } else {
          lines := lines + [NewLine(restaurant.value)];
        }
      }
      AddPreservesWellFormed(old(lines), Restaurants, restaurantId);
      CartNoLargerThanCatalog(lines, Restaurants);
      redirect := "/";
    }

    /** The update-quantity handler: overwrite a line's quantity when positive, then redirect to checkout. */
    method UpdateQuantity(restaurantId: int, quantity: int) returns (redirect: string)
      requires Valid()
      modifies this
      ensures Valid() && |lines| <= |Restaurants|
      ensures lines == AfterUpdate(old(lines), restaurantId, quantity)
      ensures redirect == "/checkout"
    {
      var item := FindLine(lines, restaurantId);
      if item.Some? && quantity > 0 {
        var k := item.value;
        lines := lines[k := lines[k].(quantity := quantity)];
      }
      UpdatePreservesWellFormed(old(lines), Restaurants, restaurantId, quantity);
      CartNoLargerThanCatalog(lines, Restaurants);
      redirect := "/checkout";
    }
  }
}
