/** The cart page, frontend/src/components/Cart.tsx: the running total
    (a `reduce` over the lines), the per-line amount, when "Place Order" is
    enabled, and the body posted to the orders endpoint. */
module CartView {
  import opened Wrappers
  import opened CartContext

  /** The amount shown on one line: price times quantity. */
  function LineAmount(item: CartItem): int {
    item.product.price * item.quantity
  }

  /** The `reduce` behind the total: a left fold from `acc` adding each
      line's price times quantity, from the first line to the last. */
  function ReduceAmounts(acc: int, items: seq<CartItem>): int
    decreases |items|
  {
    if |items| == 0 then acc else ReduceAmounts(acc + LineAmount(items[0]), items[1..])
  }

  /** `total`: the reduce started from 0. */
  function Total(items: seq<CartItem>): int {
    ReduceAmounts(0, items)
  }

  /** The sum over the lines of price times quantity, as a reference
      definition independent of the fold's order of evaluation. */
  function SumOfAmounts(items: seq<CartItem>): int
    decreases |items|
  {
    if |items| == 0 then 0 else SumOfAmounts(items[..|items| - 1]) + LineAmount(items[|items| - 1])
  }

  lemma {:induction false} ReduceAppend(acc: int, items: seq<CartItem>, x: CartItem)
    ensures ReduceAmounts(acc, items + [x]) == ReduceAmounts(acc, items) + LineAmount(x)
    decreases |items|
  {
    if |items| == 0 {
      assert items + [x] == [x];
      assert [x][1..] == [];
    } else {
      assert (items + [x])[1..] == items[1..] + [x];
      ReduceAppend(acc + LineAmount(items[0]), items[1..], x);
    }
  }

  /** Appending a line adds exactly its amount to the total. */
  lemma TotalAppend(items: seq<CartItem>, x: CartItem)
    ensures Total(items + [x]) == Total(items) + LineAmount(x)
  {
    ReduceAppend(0, items, x);
  }

  /** `total` is the sum over the lines of price times quantity. */
  lemma {:induction false} TotalIsSumOfAmounts(items: seq<CartItem>)
    ensures Total(items) == SumOfAmounts(items)
    decreases |items|
  {
    if |items| > 0 {
      var init := items[..|items| - 1];
      assert init + [items[|items| - 1]] == items;
      TotalIsSumOfAmounts(init);
      TotalAppend(init, items[|items| - 1]);
    }
  }

  // ---------------------------------------------------------------------
  // The total across reducer steps

  /** The summed amount of the lines for `id`. */
  function AmountOf(items: seq<CartItem>, id: string): int
    decreases |items|
  {
    if |items| == 0 then 0
    else (if items[0].product.id == id then LineAmount(items[0]) else 0) + AmountOf(items[1..], id)
  }

  /** The summed unit price of the lines for `id`. */
  function PriceOf(items: seq<CartItem>, id: string): int
    decreases |items|
  {
    if |items| == 0 then 0
    else (if items[0].product.id == id then items[0].product.price else 0) + PriceOf(items[1..], id)
  }

  lemma {:induction false} TotalCons(x: CartItem, rest: seq<CartItem>)
    ensures Total([x] + rest) == LineAmount(x) + Total(rest)
  {
    TotalIsSumOfAmounts([x] + rest);
    TotalIsSumOfAmounts(rest);
    SumCons(x, rest);
  }

  lemma {:induction false} SumCons(x: CartItem, rest: seq<CartItem>)
    ensures SumOfAmounts([x] + rest) == LineAmount(x) + SumOfAmounts(rest)
    decreases |rest|
  {
    if |rest| > 0 {
      var all := [x] + rest;
      assert all[..|all| - 1] == [x] + rest[..|rest| - 1];
      assert all[|all| - 1] == rest[|rest| - 1];
      SumCons(x, rest[..|rest| - 1]);
    } else {
      assert [x] + rest == [x];
      assert [x][..0] == [];
    }
  }

  /** The merge of ADD_TO_CART adds the merged quantity at each matching
      line's own (snapshot) price. */
  lemma {:induction false} MergeTotal(items: seq<CartItem>, id: string, delta: int)
    ensures Total(MergeQuantity(items, id, delta)) == Total(items) + delta * PriceOf(items, id)
    decreases |items|
  {
    if |items| > 0 {
      var r := MergeQuantity(items, id, delta);
      assert r == [r[0]] + MergeQuantity(items[1..], id, delta);
      assert items == [items[0]] + items[1..];
      TotalCons(r[0], MergeQuantity(items[1..], id, delta));
      TotalCons(items[0], items[1..]);
      MergeTotal(items[1..], id, delta);
      if items[0].product.id == id {
        assert LineAmount(r[0]) == LineAmount(items[0]) + delta * items[0].product.price by {
          assert r[0].product.price == items[0].product.price;
          assert r[0].quantity == items[0].quantity + delta;
        }
      }
    }
  }

  /** The removed lines take exactly their amount off the total. */
  lemma {:induction false} RemoveTotal(items: seq<CartItem>, id: string)
    ensures Total(RemoveLines(items, id)) == Total(items) - AmountOf(items, id)
    decreases |items|
  {
    if |items| > 0 {
      assert items == [items[0]] + items[1..];
      TotalCons(items[0], items[1..]);
      RemoveTotal(items[1..], id);
      if items[0].product.id != id {
        TotalCons(items[0], RemoveLines(items[1..], id));
      }
    }
  }

  lemma {:induction false} PriceOfUnique(items: seq<CartItem>, id: string, k: nat)
    requires UniqueIds(items) && k < |items| && items[k].product.id == id
    ensures PriceOf(items, id) == items[k].product.price
    decreases |items|
  {
    if k == 0 {
      TailLine(items, id);
      PriceOfAbsent(items[1..], id);
    } else {
      assert UniqueIds(items[1..]);
      PriceOfUnique(items[1..], id, k - 1);
    }
  }

  lemma {:induction false} PriceOfAbsent(items: seq<CartItem>, id: string)
    requires !HasLine(items, id)
    ensures PriceOf(items, id) == 0
    decreases |items|
  {
    if |items| > 0 {
      TailLine(items, id);
      PriceOfAbsent(items[1..], id);
    }
  }

  /** ADD_TO_CART raises the total by the payload's quantity at the price
      the cart already shows for that product (the snapshot taken when it
      was first added), or by the payload's own amount for a new product. */
  lemma TotalAfterAdd(state: CartState, payload: CartItem)
    requires UniqueIds(state.items)
    ensures var after := Total(CartReducer(state, AddToCart(payload)).items);
      match Find(state.items, payload.product.id)
      case None => after == Total(state.items) + LineAmount(payload)
      case Some(line) => after == Total(state.items) + payload.quantity * line.product.price
  {
    var items := state.items;
    var id := payload.product.id;
    match Find(items, id)
    case None =>
      assert AddItem(items, payload) == items + [payload];
      TotalAppend(items, payload);
    case Some(line) =>
      var k :| FirstLineAt(items, id, k) && items[k] == line;
      assert AddItem(items, payload) == MergeQuantity(items, id, payload.quantity);
      MergeTotal(items, id, payload.quantity);
      PriceOfUnique(items, id, k);
      assert line.product.price == PriceOf(items, id);
  }

  /** REMOVE_FROM_CART takes the removed lines' amounts off the total, and
      CLEAR_CART brings it to 0. */
  lemma TotalAfterRemoveAndClear(state: CartState, id: string)
    ensures Total(CartReducer(state, RemoveFromCart(id)).items) == Total(state.items) - AmountOf(state.items, id)
    ensures Total(CartReducer(state, ClearCart).items) == 0
  {
    RemoveTotal(state.items, id);
  }

  // ---------------------------------------------------------------------
  // Place Order and the order body

  /** "Place Order" is disabled exactly while the cart has no line. */
  predicate PlaceOrderDisabled(items: seq<CartItem>) {
    |items| == 0
  }

  /** Ordering is possible after any ADD_TO_CART and impossible after
      CLEAR_CART. */
  lemma PlaceOrderAfterAddAndClear(state: CartState, payload: CartItem)
    ensures !PlaceOrderDisabled(CartReducer(state, AddToCart(payload)).items)
    ensures PlaceOrderDisabled(CartReducer(state, ClearCart).items)
  {
    var items := state.items;
    if Find(items, payload.product.id).Some? {
      assert |MergeQuantity(items, payload.product.id, payload.quantity)| == |items|;
    }
  }

  /** The JSON body of the order request. */
  datatype OrderBody = OrderBody(items: seq<CartItem>, total: int)

  /** The order carries the current lines unchanged, together with their
      summed amounts. */
  function OrderBodyFor(state: CartState): (body: OrderBody)
    ensures body.items == state.items
    ensures body.total == SumOfAmounts(state.items)
  {
    TotalIsSumOfAmounts(state.items);
    OrderBody(state.items, Total(state.items))
  }

  // ---------------------------------------------------------------------
  // Worked examples

  /** Two units at 100 and one at 50 total 250. */
  lemma TotalExample(a: Product, b: Product)
    requires a.price == 100 && b.price == 50
    ensures Total([CartItem(a, 2), CartItem(b, 1)]) == 250
  {
    var x, y := CartItem(a, 2), CartItem(b, 1);
    assert [] + [x] == [x] && [x] + [y] == [x, y];
    TotalAppend([], x);
    TotalAppend([x], y);
  }

  /** Adding one unit of a product priced 200 twice to the empty cart gives
      a single line of quantity 2 and a total of 400, not two lines. */
  lemma AddTwiceExample(p: Product)
    requires p.price == 200
    ensures var s := Run(InitialState, [AddToCart(CartItem(p, 1)), AddToCart(CartItem(p, 1))]);
      s.items == [CartItem(p, 2)] && Total(s.items) == 400
  {
    var one := CartReducer(InitialState, AddToCart(CartItem(p, 1)));
    assert one.items == [CartItem(p, 1)];
    var two := CartReducer(one, AddToCart(CartItem(p, 1)));
    assert Find(one.items, p.id) == Some(CartItem(p, 1));
    assert two.items == [CartItem(p, 2)];
    var actions := [AddToCart(CartItem(p, 1)), AddToCart(CartItem(p, 1))];
    assert actions[1..][1..] == [];
    assert Run(InitialState, actions) == Run(one, actions[1..]);
    assert Run(one, actions[1..]) == Run(two, []);
    assert [] + [CartItem(p, 2)] == [CartItem(p, 2)];
    TotalAppend([], CartItem(p, 2));
  }
}
