/** The values held by the cart manager and the pure computations it runs
    over them: the price fallback, the two `reduce` folds behind the cart
    total and the item count, the `filter` that removes an item, the `map`
    that sets a quantity, and the cart a fetch leaves behind. */
module Cart {
  import opened JsValues

  /** The food item an entry refers to; only its price is read. Prices are
      integers in minor currency units. */
  datatype FoodItem = FoodItem(id: string, price: Option<int>)

  /** One entry of the cart, as the server returns it. */
  datatype CartItem = CartItem(id: string, quantity: int, foodItem: Option<FoodItem>, price: Option<int>)

  /** What the GET on the cart resource produced: the response data (which
      may be null or undefined), or a thrown error. */
  datatype FetchOutcome = Fetched(data: Option<seq<CartItem>>) | FetchFailed

  /** The cart a fetch leaves behind: the server's data when it sent some,
      otherwise the empty cart (on failure, and on null or undefined data). */
  function FetchedCart(outcome: FetchOutcome): (c: seq<CartItem>)
    ensures c != [] ==> outcome == Fetched(Some(c))
    ensures outcome.Fetched? && outcome.data.Some? ==> c == outcome.data.value
  {
    match outcome
    case Fetched(Some(data)) => data
    case _ => []
  }

  /** `item.foodItem?.price`: undefined when there is no food item. */
  function FoodPrice(item: CartItem): Option<int>
  {
    match item.foodItem
    case Some(food) => food.price
    case None => None
  }

  /** `item.foodItem?.price || item.price || 0`. */
  function UnitPrice(item: CartItem): (p: int)
    ensures p == 0 || Some(p) == FoodPrice(item) || Some(p) == item.price
  {
    if TruthyNumber(FoodPrice(item)) then FoodPrice(item).value
    else if TruthyNumber(item.price) then item.price.value
    else 0
  }

  /** What one entry adds to the cart total. */
  function LineTotal(item: CartItem): int
  {
    UnitPrice(item) * item.quantity
  }

  /** What one entry adds to the item count. */
  function Quantity(item: CartItem): int
  {
    item.quantity
  }

  /** `c.reduce((acc, item) => acc + f(item), acc)`: a left-to-right fold. */
  function Reduce(c: seq<CartItem>, f: CartItem -> int, acc: int): int
  {
    if c == [] then acc else Reduce(c[1..], f, acc + f(c[0]))
  }

  /** The mathematical sum of `f` over the entries. */
  function Sum(c: seq<CartItem>, f: CartItem -> int): int
  {
    if c == [] then 0 else f(c[0]) + Sum(c[1..], f)
  }

  /** `cartTotal`: the sum of unit price times quantity over the cart. */
  function CartTotal(c: seq<CartItem>): (total: int)
    ensures total == Sum(c, LineTotal)
    ensures c == [] ==> total == 0
  {
    ReduceIsSum(c, LineTotal, 0);
    Reduce(c, LineTotal, 0)
  }

  /** `cartItemCount`: the sum of the quantities over the cart. */
  function CartItemCount(c: seq<CartItem>): (count: int)
    ensures count == Sum(c, Quantity)
    ensures c == [] ==> count == 0
  {
    ReduceIsSum(c, Quantity, 0);
    Reduce(c, Quantity, 0)
  }

  /** `c.filter(item => item.id !== id)`. */
  function Removed(c: seq<CartItem>, id: string): (r: seq<CartItem>)
    ensures |r| <= |c|
    ensures forall x :: x in r <==> x in c && x.id != id
  {
    if c == [] then []
    else if c[0].id == id then Removed(c[1..], id)
    else [c[0]] + Removed(c[1..], id)
  }

  /** `c.filter(item => item.id === id)`: the entries a removal drops. */
  function Matching(c: seq<CartItem>, id: string): (r: seq<CartItem>)
    ensures forall x :: x in r <==> x in c && x.id == id
  {
    if c == [] then []
    else if c[0].id == id then [c[0]] + Matching(c[1..], id)
    else Matching(c[1..], id)
  }

  /** `c.map(item => item.id === id ? { ...item, quantity: q } : item)`:
      same length and order; matching entries get quantity `q` and keep
      every other field; the other entries are untouched. */
  function WithQuantity(c: seq<CartItem>, id: string, q: int): (r: seq<CartItem>)
    ensures |r| == |c|
    ensures forall k :: 0 <= k < |c| ==>
      r[k] == (if c[k].id == id then c[k].(quantity := q) else c[k])
  {
    if c == [] then []
    else [if c[0].id == id then c[0].(quantity := q) else c[0]] + WithQuantity(c[1..], id, q)
  }

  // ----- the folds -----

  /** The fold the source writes equals the plain sum, started from the
      initial accumulator. */
  lemma {:induction false} ReduceIsSum(c: seq<CartItem>, f: CartItem -> int, acc: int)
    ensures Reduce(c, f, acc) == acc + Sum(c, f)
  {
    if c != [] {
      ReduceIsSum(c[1..], f, acc + f(c[0]));
    }
  }

  /** The unit price ignores `item.price` when the food item has a truthy
      price. */
  lemma FoodPriceTakesPrecedence(item: CartItem, p: Option<int>)
    requires TruthyNumber(FoodPrice(item))
    ensures UnitPrice(item.(price := p)) == UnitPrice(item) == FoodPrice(item).value
  {
  }

  /** The unit price is zero exactly when neither price is truthy. */
  lemma UnitPriceZeroIff(item: CartItem)
    ensures UnitPrice(item) == 0 <==> !TruthyNumber(FoodPrice(item)) && !TruthyNumber(item.price)
  {
  }

  /** A cart in which no entry has a truthy price totals zero. */
  lemma {:induction false} UnpricedCartTotalsZero(c: seq<CartItem>)
    requires forall k :: 0 <= k < |c| ==> UnitPrice(c[k]) == 0
    ensures CartTotal(c) == 0
  {
    if c != [] {
      UnpricedCartTotalsZero(c[1..]);
      assert CartTotal(c) == LineTotal(c[0]) + Sum(c[1..], LineTotal);
    }
  }

  // ----- removal -----

  /** Removal distributes over concatenation, so the entries that stay keep
      their relative order. */
  lemma {:induction false} RemovedAppend(a: seq<CartItem>, b: seq<CartItem>, id: string)
    ensures Removed(a + b, id) == Removed(a, id) + Removed(b, id)
  {
    if a == [] {
      assert a + b == b;
    } else {
      assert (a + b)[1..] == a[1..] + b;
      RemovedAppend(a[1..], b, id);
    }
  }

  /** Removing an id that no entry carries changes nothing. */
  lemma {:induction false} RemovedAbsent(c: seq<CartItem>, id: string)
    requires forall k :: 0 <= k < |c| ==> c[k].id != id
    ensures Removed(c, id) == c
  {
    if c != [] {
      RemovedAbsent(c[1..], id);
      assert c == [c[0]] + c[1..];
    }
  }

  /** Removing twice is removing once. */
  lemma {:induction false} RemovedIdempotent(c: seq<CartItem>, id: string)
    ensures Removed(Removed(c, id), id) == Removed(c, id)
  {
    var r := Removed(c, id);
    forall k | 0 <= k < |r| ensures r[k].id != id {
      assert r[k] in r;
    }
    RemovedAbsent(r, id);
  }

  /** Removal splits the cart: what stays and what is dropped partition the
      sum of any per-entry quantity, and the entry count. */
  lemma {:induction false} SumSplitsById(c: seq<CartItem>, id: string, f: CartItem -> int)
    ensures Sum(c, f) == Sum(Removed(c, id), f) + Sum(Matching(c, id), f)
    ensures |c| == |Removed(c, id)| + |Matching(c, id)|
  {
    if c != [] {
      SumSplitsById(c[1..], id, f);
      if c[0].id == id {
        assert Matching(c, id) == [c[0]] + Matching(c[1..], id);
      } else {
        assert Removed(c, id) == [c[0]] + Removed(c[1..], id);
      }
    }
  }

  /** The item count after a removal drops by exactly the quantities of the
      removed entries, and so does the total by their line totals. */
  lemma RemoveLowersAggregates(c: seq<CartItem>, id: string)
    ensures CartItemCount(Removed(c, id)) == CartItemCount(c) - Sum(Matching(c, id), Quantity)
    ensures CartTotal(Removed(c, id)) == CartTotal(c) - Sum(Matching(c, id), LineTotal)
  {
    SumSplitsById(c, id, Quantity);
    SumSplitsById(c, id, LineTotal);
  }

  // ----- quantity update -----

  /** Setting a quantity keeps every entry's id in place. */
  lemma UpdateKeepsIds(c: seq<CartItem>, id: string, q: int)
    ensures forall k :: 0 <= k < |c| ==> WithQuantity(c, id, q)[k].id == c[k].id
  {
  }

  /** Setting the same quantity twice is setting it once. */
  lemma UpdateIdempotent(c: seq<CartItem>, id: string, q: int)
    ensures WithQuantity(WithQuantity(c, id, q), id, q) == WithQuantity(c, id, q)
  {
  }

  /** Removing after an update is removing: the update touches only the
      entries the removal drops. */
  lemma {:induction false} RemoveAfterUpdate(c: seq<CartItem>, id: string, q: int)
    ensures Removed(WithQuantity(c, id, q), id) == Removed(c, id)
  {
    if c != [] {
      var w := WithQuantity(c, id, q);
      assert w[1..] == WithQuantity(c[1..], id, q);
      RemoveAfterUpdate(c[1..], id, q);
    }
  }

  /** After setting the quantity of `id` to `q`, the item count is that of
      the other entries plus `q` for each matching entry. */
  lemma {:induction false} UpdateSetsItemCount(c: seq<CartItem>, id: string, q: int)
    ensures CartItemCount(WithQuantity(c, id, q)) == CartItemCount(Removed(c, id)) + q * |Matching(c, id)|
  {
    UpdateSetsQuantitySum(c, id, q);
  }

  lemma {:induction false} UpdateSetsQuantitySum(c: seq<CartItem>, id: string, q: int)
    ensures Sum(WithQuantity(c, id, q), Quantity) == Sum(Removed(c, id), Quantity) + q * |Matching(c, id)|
  {
    if c != [] {
      var w := WithQuantity(c, id, q);
      var rest := WithQuantity(c[1..], id, q);
      assert w == [w[0]] + rest;
      assert w[1..] == rest;
      UpdateSetsQuantitySum(c[1..], id, q);
      var m := |Matching(c[1..], id)|;
      var s := Sum(Removed(c[1..], id), Quantity);
      assert Sum(rest, Quantity) == s + q * m;
      assert Sum(w, Quantity) == w[0].quantity + Sum(rest, Quantity);
      if c[0].id == id {
        assert Matching(c, id) == [c[0]] + Matching(c[1..], id);
        assert Removed(c, id) == Removed(c[1..], id);
        assert w[0].quantity == q;
        MulSucc(q, m);
      } else {
        assert Removed(c, id) == [c[0]] + Removed(c[1..], id);
        assert Matching(c, id) == Matching(c[1..], id);
        assert w[0] == c[0];
      }
    }
  }

  /** `q * (m + 1) == q * m + q`, for the step of the induction above. */
  lemma MulSucc(q: int, m: int)
    ensures q * (m + 1) == q * m + q
  {
  }
}
