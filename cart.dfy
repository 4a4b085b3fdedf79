/** The cart updaters of the top-level component, written as the pure
    functions the component hands to its state setter, with the count and the
    money totals derived from a cart. */
module Cart {
  import opened Catalog

  /** The ids of the lines, in cart order. */
  function Ids(cart: seq<Line>): seq<int> {
    seq(|cart|, i requires 0 <= i < |cart| => cart[i].id)
  }

  /** No two lines share an id. */
  predicate DistinctIds(cart: seq<Line>) {
    forall i, j :: 0 <= i < j < |cart| ==> cart[i].id != cart[j].id
  }

  /** No line is stored with a quantity below one. */
  predicate PositiveQuantities(cart: seq<Line>) {
    forall i :: 0 <= i < |cart| ==> cart[i].quantity >= 1
  }

  /** The invariant every reachable cart keeps. */
  predicate Valid(cart: seq<Line>) {
    DistinctIds(cart) && PositiveQuantities(cart)
  }

  /** `prevCart.find(line => line.id === id)`: the first line with that id. */
  function Find(cart: seq<Line>, id: int): (r: Option<Line>)
    ensures r.None? <==> id !in Ids(cart)
    ensures r.Some? ==> exists k :: 0 <= k < |cart| && cart[k] == r.value && cart[k].id == id &&
                                    forall j :: 0 <= j < k ==> cart[j].id != id
  {
    if cart == [] then None
    else if cart[0].id == id then assert Ids(cart)[0] == id; Some(cart[0])
    else
      var r := Find(cart[1..], id);
      assert Ids(cart) == [cart[0].id] + Ids(cart[1..]);
      assert forall k :: 0 <= k < |cart| - 1 ==> cart[1..][k] == cart[k + 1];
      r
  }

  /** The line with its quantity raised by one. */
  function Incremented(l: Line): Line {
    l.(quantity := l.quantity + 1)
  }

  /** `prevCart.map(...)` that raises the quantity of every line with the id. */
  function Bumped(cart: seq<Line>, id: int): (r: seq<Line>)
    ensures |r| == |cart|
    ensures forall i :: 0 <= i < |cart| ==> r[i] == if cart[i].id == id then Incremented(cart[i]) else cart[i]
  {
    if cart == [] then []
    else [if cart[0].id == id then Incremented(cart[0]) else cart[0]] + Bumped(cart[1..], id)
  }

  /** `prevCart.map(...)` that sets the quantity of every line with the id. */
  function WithQuantity(cart: seq<Line>, id: int, quantity: int): (r: seq<Line>)
    ensures |r| == |cart|
    ensures forall i :: 0 <= i < |cart| ==> r[i] == if cart[i].id == id then cart[i].(quantity := quantity) else cart[i]
  {
    if cart == [] then []
    else [if cart[0].id == id then cart[0].(quantity := quantity) else cart[0]] + WithQuantity(cart[1..], id, quantity)
  }

  /** `prevCart.filter(line => line.id !== id)`. */
  function Without(cart: seq<Line>, id: int): (r: seq<Line>)
    ensures id !in Ids(r)
    ensures id !in Ids(cart) ==> r == cart
  {
    if cart == [] then []
    else
      assert Ids(cart) == [cart[0].id] + Ids(cart[1..]);
      var rest := Without(cart[1..], id);
      var r := (if cart[0].id == id then [] else [cart[0]]) + rest;
      assert Ids(r) == (if cart[0].id == id then [] else [cart[0].id]) + Ids(rest);
      r
  }

  /** The filter keeps exactly the lines whose id differs. */
  lemma {:induction false} WithoutMembers(cart: seq<Line>, id: int)
    ensures forall l :: l in Without(cart, id) <==> l in cart && l.id != id
  {
    if cart != [] {
      WithoutMembers(cart[1..], id);
      assert forall l :: l in cart <==> l == cart[0] || l in cart[1..];
    }
  }

  /** The add-to-cart updater: a known id gets one more of its line, an
      unknown id gets a new line of quantity one at the end. */
  function AddToCart(cart: seq<Line>, item: FoodItem): (r: seq<Line>)
    ensures item.id in Ids(cart) ==>
              |r| == |cart| &&
              forall i :: 0 <= i < |cart| ==> r[i] == if cart[i].id == item.id then Incremented(cart[i]) else cart[i]
    ensures item.id !in Ids(cart) ==> r == cart + [NewLine(item)]
  {
    if Find(cart, item.id).Some? then Bumped(cart, item.id) else cart + [NewLine(item)]
  }

  /** The update-quantity updater: a quantity of zero or less removes the
      id's lines, any other quantity replaces theirs. */
  function UpdateQuantity(cart: seq<Line>, id: int, quantity: int): (r: seq<Line>)
    ensures quantity <= 0 ==> id !in Ids(r) && forall l :: l in r <==> l in cart && l.id != id
    ensures quantity > 0 ==>
              |r| == |cart| &&
              forall i :: 0 <= i < |cart| ==> r[i] == if cart[i].id == id then cart[i].(quantity := quantity) else cart[i]
    ensures id !in Ids(cart) ==> r == cart
  {
    if quantity <= 0 then WithoutMembers(cart, id); Without(cart, id)
    else
      var r := WithQuantity(cart, id, quantity);
      assert id !in Ids(cart) ==> forall i :: 0 <= i < |cart| ==> Ids(cart)[i] != id && r[i] == cart[i];
      r
  }

  /** `cartCount`: the sum of the quantities. With every quantity at least
      one it is at least the number of lines. */
  function Count(cart: seq<Line>): (n: int)
    ensures PositiveQuantities(cart) ==> n >= |cart|
  {
    if cart == [] then 0
    else
      assert PositiveQuantities(cart) ==> PositiveQuantities(cart[1..]);
      cart[0].quantity + Count(cart[1..])
  }

  /** The sum of price times quantity, in cents; never negative when every
      quantity is at least one. */
  function Subtotal(cart: seq<Line>): (s: int)
    ensures PositiveQuantities(cart) ==> s >= 0
  {
    if cart == [] then 0
    else
      assert PositiveQuantities(cart) ==> PositiveQuantities(cart[1..]);
      cart[0].price * cart[0].quantity + Subtotal(cart[1..])
  }

  /** The sum of the quantities of the lines with the given id. */
  function QuantityOf(cart: seq<Line>, id: int): int {
    if cart == [] then 0
    else (if cart[0].id == id then cart[0].quantity else 0) + QuantityOf(cart[1..], id)
  }

  /** The tax rate applied on the cart and checkout pages. */
  const TAX_RATE: real := 0.1

  /** The taxes the cart page shows, in cents, before display rounding. */
  function Taxes(cart: seq<Line>): (t: real)
    ensures t * 10.0 == Subtotal(cart) as real
    ensures Subtotal(cart) >= 0 ==> 0.0 <= t <= Subtotal(cart) as real
  {
    Subtotal(cart) as real * TAX_RATE
  }

  /** The total the cart page shows: subtotal plus taxes. */
  function CartPageTotal(cart: seq<Line>): (total: real)
    ensures total * 10.0 == Subtotal(cart) as real * 11.0
  {
    Subtotal(cart) as real + Taxes(cart)
  }

  /** The total the checkout page computes on its own from the cart. */
  function CheckoutTotal(cart: seq<Line>): (total: real)
    ensures total == CartPageTotal(cart)
  {
    var subtotal := Subtotal(cart) as real;
    subtotal + subtotal * TAX_RATE
  }

  // ---------------------------------------------------------------------
  // Sums over concatenations

  lemma {:induction false} CountConcat(a: seq<Line>, b: seq<Line>)
    ensures Count(a + b) == Count(a) + Count(b)
  {
    if a != [] {
      assert (a + b)[0] == a[0] && (a + b)[1..] == a[1..] + b;
      CountConcat(a[1..], b);
    } else {
      assert a + b == b;
    }
  }

  lemma {:induction false} SubtotalConcat(a: seq<Line>, b: seq<Line>)
    ensures Subtotal(a + b) == Subtotal(a) + Subtotal(b)
  {
    if a != [] {
      assert (a + b)[0] == a[0] && (a + b)[1..] == a[1..] + b;
      SubtotalConcat(a[1..], b);
    } else {
      assert a + b == b;
    }
  }

  lemma {:induction false} QuantityOfConcat(a: seq<Line>, b: seq<Line>, id: int)
    ensures QuantityOf(a + b, id) == QuantityOf(a, id) + QuantityOf(b, id)
  {
    if a != [] {
      assert (a + b)[0] == a[0] && (a + b)[1..] == a[1..] + b;
      QuantityOfConcat(a[1..], b, id);
    } else {
      assert a + b == b;
    }
  }

  /** Replacing line k changes each sum by the difference of that line alone. */
  lemma ReplaceLine(cart: seq<Line>, k: int, l: Line, id: int)
    requires 0 <= k < |cart|
    ensures Count(cart[k := l]) == Count(cart) - cart[k].quantity + l.quantity
    ensures Subtotal(cart[k := l]) == Subtotal(cart) - cart[k].price * cart[k].quantity + l.price * l.quantity
    ensures QuantityOf(cart[k := l], id) ==
              QuantityOf(cart, id) - QuantityOf([cart[k]], id) + QuantityOf([l], id)
  {
    assert cart == cart[..k] + [cart[k]] + cart[k + 1..];
    assert cart[k := l] == cart[..k] + [l] + cart[k + 1..];
    CountConcat(cart[..k] + [cart[k]], cart[k + 1..]);
    CountConcat(cart[..k], [cart[k]]);
    CountConcat(cart[..k] + [l], cart[k + 1..]);
    CountConcat(cart[..k], [l]);
    SubtotalConcat(cart[..k] + [cart[k]], cart[k + 1..]);
    SubtotalConcat(cart[..k], [cart[k]]);
    SubtotalConcat(cart[..k] + [l], cart[k + 1..]);
    SubtotalConcat(cart[..k], [l]);
    QuantityOfConcat(cart[..k] + [cart[k]], cart[k + 1..], id);
    QuantityOfConcat(cart[..k], [cart[k]], id);
    QuantityOfConcat(cart[..k] + [l], cart[k + 1..], id);
    QuantityOfConcat(cart[..k], [l], id);
  }

  // ---------------------------------------------------------------------
  // The updaters on a cart whose ids are distinct

  /** Adding a known id raises that one line's quantity by one; every other
      line, and the order of all lines, stay as they were. */
  lemma AddExisting(cart: seq<Line>, item: FoodItem, k: int)
    requires DistinctIds(cart)
    requires 0 <= k < |cart| && cart[k].id == item.id
    ensures AddToCart(cart, item) == cart[k := Incremented(cart[k])]
  {
    assert Ids(cart)[k] == item.id;
    var r := AddToCart(cart, item);
    forall i | 0 <= i < |cart|
      ensures r[i] == cart[k := Incremented(cart[k])][i]
    {
      if i != k {
        assert cart[i].id != item.id;
      }
    }
  }

  /** A quantity of zero or less deletes exactly line k; any other quantity
      replaces line k's quantity and leaves the rest alone. */
  lemma UpdateExisting(cart: seq<Line>, id: int, quantity: int, k: int)
    requires DistinctIds(cart)
    requires 0 <= k < |cart| && cart[k].id == id
    ensures quantity <= 0 ==> UpdateQuantity(cart, id, quantity) == cart[..k] + cart[k + 1..]
    ensures quantity > 0 ==> UpdateQuantity(cart, id, quantity) == cart[k := cart[k].(quantity := quantity)]
  {
    if quantity <= 0 {
      WithoutAt(cart, id, k);
    } else {
      var r := UpdateQuantity(cart, id, quantity);
      forall i | 0 <= i < |cart|
        ensures r[i] == cart[k := cart[k].(quantity := quantity)][i]
      {
        if i != k {
          assert cart[i].id != id;
        }
      }
    }
  }

  lemma {:induction false} WithoutAt(cart: seq<Line>, id: int, k: int)
    requires DistinctIds(cart)
    requires 0 <= k < |cart| && cart[k].id == id
    ensures Without(cart, id) == cart[..k] + cart[k + 1..]
  {
    var rest := cart[1..];
    if k == 0 {
      assert id !in Ids(rest) by {
        forall i | 0 <= i < |rest| ensures Ids(rest)[i] != id {
          assert rest[i] == cart[i + 1];
        }
      }
      assert Without(cart, id) == Without(rest, id);
    } else {
      assert Without(rest, id) == rest[..k - 1] + rest[k..] by {
        DistinctTail(cart);
        WithoutAt(rest, id, k - 1);
      }
      assert Without(cart, id) == [cart[0]] + Without(rest, id);
      assert cart[..k] + cart[k + 1..] == [cart[0]] + (rest[..k - 1] + rest[k..]);
    }
  }

  /** The lines after the first of a cart with distinct ids have distinct ids. */
  lemma DistinctTail(cart: seq<Line>)
    requires DistinctIds(cart) && cart != []
    ensures DistinctIds(cart[1..])
  {
    forall i, j | 0 <= i < j < |cart| - 1 ensures cart[1..][i].id != cart[1..][j].id {
      assert cart[1..][i] == cart[i + 1] && cart[1..][j] == cart[j + 1];
    }
  }

  /** Both updaters keep the cart invariant: distinct ids, quantities of at
      least one. */
  lemma AddPreservesValid(cart: seq<Line>, item: FoodItem)
    requires Valid(cart)
    ensures Valid(AddToCart(cart, item))
  {
    var r := AddToCart(cart, item);
    if item.id !in Ids(cart) {
      forall i, j | 0 <= i < j < |r| ensures r[i].id != r[j].id {
        if j == |cart| {
          assert Ids(cart)[i] == r[i].id;
        }
      }
    }
  }

  lemma UpdatePreservesValid(cart: seq<Line>, id: int, quantity: int)
    requires Valid(cart)
    ensures Valid(UpdateQuantity(cart, id, quantity))
  {
    if quantity <= 0 {
      if id in Ids(cart) {
        var k :| 0 <= k < |Ids(cart)| && Ids(cart)[k] == id;
        UpdateExisting(cart, id, quantity, k);
        CutValid(cart, k);
      }
    } else {
      var r := UpdateQuantity(cart, id, quantity);
      assert forall i :: 0 <= i < |r| ==> r[i].id == cart[i].id && r[i].quantity >= 1;
    }
  }

  /** Cutting one line out of a valid cart leaves a valid cart. */
  lemma CutValid(cart: seq<Line>, k: int)
    requires Valid(cart) && 0 <= k < |cart|
    ensures Valid(cart[..k] + cart[k + 1..])
  {
    var r := cart[..k] + cart[k + 1..];
    forall i, j | 0 <= i < j < |r| ensures r[i].id != r[j].id {
      var i' := if i < k then i else i + 1;
      var j' := if j < k then j else j + 1;
      assert r[i] == cart[i'] && r[j] == cart[j'];
    }
    forall i | 0 <= i < |r| ensures r[i].quantity >= 1 {
      assert r[i] == cart[if i < k then i else i + 1];
    }
  }

  // ---------------------------------------------------------------------
  // The count and the totals under the updaters

  /** Adding raises the count by exactly one and the subtotal by the unit
      price of the line that received it: the stored snapshot's price when
      the id was already in the cart, the item's own price otherwise. */
  lemma AddTotals(cart: seq<Line>, item: FoodItem)
    requires DistinctIds(cart)
    ensures Count(AddToCart(cart, item)) == Count(cart) + 1
    ensures Subtotal(AddToCart(cart, item)) ==
              Subtotal(cart) + match Find(cart, item.id) case Some(l) => l.price case None => item.price
  {
    match Find(cart, item.id)
    case Some(l) =>
      var k :| 0 <= k < |cart| && cart[k] == l && cart[k].id == item.id;
      AddExisting(cart, item, k);
      ReplaceLine(cart, k, Incremented(cart[k]), item.id);
    case None =>
      CountConcat(cart, [NewLine(item)]);
      SubtotalConcat(cart, [NewLine(item)]);
  }

  /** Adding one item raises that id's quantity by one and no other's. */
  lemma AddQuantityOf(cart: seq<Line>, item: FoodItem, id: int)
    requires DistinctIds(cart)
    ensures QuantityOf(AddToCart(cart, item), id) == QuantityOf(cart, id) + (if id == item.id then 1 else 0)
  {
    if item.id in Ids(cart) {
      var k :| 0 <= k < |Ids(cart)| && Ids(cart)[k] == item.id;
      AddExisting(cart, item, k);
      ReplaceLine(cart, k, Incremented(cart[k]), id);
    } else {
      QuantityOfConcat(cart, [NewLine(item)], id);
    }
  }

  /** Setting the quantity of the line at k changes the count by the
      difference; removing it takes away its whole quantity. */
  lemma UpdateCount(cart: seq<Line>, id: int, quantity: int, k: int)
    requires DistinctIds(cart)
    requires 0 <= k < |cart| && cart[k].id == id
    ensures Count(UpdateQuantity(cart, id, quantity)) ==
              Count(cart) - cart[k].quantity + (if quantity <= 0 then 0 else quantity)
  {
    UpdateExisting(cart, id, quantity, k);
    if quantity <= 0 {
      CountCut(cart, k);
    } else {
      ReplaceLine(cart, k, cart[k].(quantity := quantity), id);
    }
  }

  /** Cutting out the line at k takes away exactly its quantity. */
  lemma CountCut(cart: seq<Line>, k: int)
    requires 0 <= k < |cart|
    ensures Count(cart[..k] + cart[k + 1..]) == Count(cart) - cart[k].quantity
  {
    var front, back := cart[..k], cart[k + 1..];
    assert cart == front + cart[k..];
    CountConcat(front, cart[k..]);
    assert cart[k..][1..] == back;
    CountConcat(front, back);
  }

  /** On a valid cart the count is at least the number of lines, so the
      count is positive exactly when the cart has a line. */
  lemma {:induction false} CountBounds(cart: seq<Line>)
    requires PositiveQuantities(cart)
    ensures Count(cart) >= |cart|
    ensures Count(cart) > 0 <==> cart != []
  {
    if cart != [] {
      CountBounds(cart[1..]);
    }
  }

  /** The cart page's total is subtotal plus subtotal times the tax rate,
      and the checkout page computes the same total for the same cart. */
  lemma TotalsAgree(cart: seq<Line>)
    ensures CartPageTotal(cart) == Subtotal(cart) as real + Subtotal(cart) as real * TAX_RATE
    ensures CheckoutTotal(cart) == CartPageTotal(cart)
    ensures CartPageTotal(cart) == Subtotal(cart) as real * 11.0 / 10.0
  {
  }

  /** On a cart with distinct ids, the quantity for an id is the quantity of
      its one line, or zero when there is none. */
  lemma {:induction false} QuantityOfLine(cart: seq<Line>, id: int)
    requires DistinctIds(cart)
    ensures id !in Ids(cart) ==> QuantityOf(cart, id) == 0
    ensures forall k :: 0 <= k < |cart| && cart[k].id == id ==> QuantityOf(cart, id) == cart[k].quantity
  {
    if cart != [] {
      assert Ids(cart) == [cart[0].id] + Ids(cart[1..]);
      QuantityOfLine(cart[1..], id);
      if cart[0].id == id {
        assert id !in Ids(cart[1..]) by {
          forall i | 0 <= i < |cart[1..]| ensures Ids(cart[1..])[i] != id {
            assert cart[1..][i] == cart[i + 1];
          }
        }
      }
      forall k | 0 <= k < |cart| && cart[k].id == id
        ensures QuantityOf(cart, id) == cart[k].quantity
      {
        if k > 0 {
          assert cart[1..][k - 1] == cart[k];
        }
      }
    }
  }

  // ---------------------------------------------------------------------
  // Sequences of user actions from the empty initial cart

  /** The number of items in the list with the given id. */
  function Occurrences(items: seq<FoodItem>, id: int): nat {
    if items == [] then 0 else (if items[0].id == id then 1 else 0) + Occurrences(items[1..], id)
  }

  /** The cart after adding the items one after the other. */
  function AddAll(cart: seq<Line>, items: seq<FoodItem>): seq<Line>
    decreases |items|
  {
    if items == [] then cart else AddAll(AddToCart(cart, items[0]), items[1..])
  }

  /** After only adds, the cart is valid, each id's quantity is the number of
      times it was added, and the count is the number of adds. */
  lemma {:induction false} AddAllCounts(cart: seq<Line>, items: seq<FoodItem>, id: int)
    requires Valid(cart)
    ensures Valid(AddAll(cart, items))
    ensures QuantityOf(AddAll(cart, items), id) == QuantityOf(cart, id) + Occurrences(items, id)
    ensures Count(AddAll(cart, items)) == Count(cart) + |items|
    decreases |items|
  {
    if items != [] {
      AddPreservesValid(cart, items[0]);
      AddQuantityOf(cart, items[0], id);
      AddTotals(cart, items[0]);
      AddAllCounts(AddToCart(cart, items[0]), items[1..], id);
    }
  }

  /** Starting from the empty cart: the quantity of an id's line is the
      number of times it was added. */
  lemma AddsFromEmpty(items: seq<FoodItem>, id: int, k: int)
    requires 0 <= k < |AddAll([], items)| && AddAll([], items)[k].id == id
    ensures AddAll([], items)[k].quantity == Occurrences(items, id)
  {
    AddAllCounts([], items, id);
    QuantityOfLine(AddAll([], items), id);
  }

  /** A user action on the cart: an add from the products page or a
      quantity change from the cart page. */
  datatype CartAction = Add(item: FoodItem) | SetQuantity(id: int, quantity: int)

  function Apply(cart: seq<Line>, action: CartAction): seq<Line> {
    match action
    case Add(item) => AddToCart(cart, item)
    case SetQuantity(id, quantity) => UpdateQuantity(cart, id, quantity)
  }

  function Replay(cart: seq<Line>, actions: seq<CartAction>): seq<Line>
    decreases |actions|
  {
    if actions == [] then cart else Replay(Apply(cart, actions[0]), actions[1..])
  }

  /** Every sequence of adds and updates keeps the cart invariant. */
  lemma {:induction false} ReplayValid(cart: seq<Line>, actions: seq<CartAction>)
    requires Valid(cart)
    ensures Valid(Replay(cart, actions))
    decreases |actions|
  {
    if actions != [] {
      match actions[0] {
        case Add(item) => AddPreservesValid(cart, item);
        case SetQuantity(id, quantity) => UpdatePreservesValid(cart, id, quantity);
      }
      ReplayValid(Apply(cart, actions[0]), actions[1..]);
    }
  }
}
