/** The client-side cart store: `cartReducer` in
    frontend/src/context/CartContext.tsx, a pure transition function over
    the list of cart lines, and the facts about it that callers rely on. */
module CartContext {
  import opened Wrappers

  /** The part of a product snapshot the cart uses. Prices are integer
      money units; the source types them as strings and multiplies them as
      numbers. */
  datatype Product = Product(id: string, name: string, price: int, stockQuantity: int)

  /** One cart line. The quantity is whatever number was dispatched: the
      reducer never checks it. */
  datatype CartItem = CartItem(product: Product, quantity: int)

  datatype CartState = CartState(items: seq<CartItem>)

  /** The action types the model gives their own constructor: the four
      the reducer's `switch` handles, and the restore from local storage. */
  const NamedActionTypes: set<string> :=
    {"ADD_TO_CART", "REMOVE_FROM_CART", "UPDATE_QUANTITY", "CLEAR_CART", "SET_CART"}

  /** Any other action type. */
  type UnknownActionType = t: string | t !in NamedActionTypes witness ""

  /** The actions dispatched to the reducer. `SetCart` is what the
      provider dispatches with the cart restored from local storage; an
      action of any other type is `OtherAction`. */
  datatype Action =
    | AddToCart(payload: CartItem)
    | RemoveFromCart(productId: string)
    | UpdateQuantity(productId: string, quantity: int)
    | ClearCart
    | SetCart(saved: CartState)
    | OtherAction(actionType: UnknownActionType)

  /** The state `useReducer` starts from. */
  const InitialState := CartState([])

  // ---------------------------------------------------------------------
  // Queries over a list of lines

  /** Some line of `items` is for product `id`. */
  predicate HasLine(items: seq<CartItem>, id: string) {
    exists i :: 0 <= i < |items| && items[i].product.id == id
  }

  /** No two lines are for the same product. */
  predicate UniqueIds(items: seq<CartItem>) {
    forall i, j :: 0 <= i < j < |items| ==> items[i].product.id != items[j].product.id
  }

  /** Line `i` is the first line for `id`. */
  predicate FirstLineAt(items: seq<CartItem>, id: string, i: int) {
    0 <= i < |items| && items[i].product.id == id && forall j :: 0 <= j < i ==> items[j].product.id != id
  }

  /** The `find` by product id: the first line for `id`, if any. */
  function Find(items: seq<CartItem>, id: string): (r: Option<CartItem>)
    ensures r.Some? <==> HasLine(items, id)
    ensures r.Some? ==> exists i :: FirstLineAt(items, id, i) && items[i] == r.value
  {
    if |items| == 0 then None
    else if items[0].product.id == id then Some(items[0])
    else
      var r := Find(items[1..], id);
      assert HasLine(items[1..], id) <==> HasLine(items, id) by {
        if HasLine(items[1..], id) {
          var k :| 0 <= k < |items[1..]| && items[1..][k].product.id == id;
          assert items[k + 1].product.id == id;
        }
        if HasLine(items, id) {
          var k :| 0 <= k < |items| && items[k].product.id == id;
          assert items[1..][k - 1].product.id == id;
        }
      }
      if r.Some? then
        var i :| FirstLineAt(items[1..], id, i) && items[1..][i] == r.value;
        assert items[i + 1] == r.value;
        forall j | 0 <= j < i + 1 ensures items[j].product.id != id {
          if j > 0 { assert items[j] == items[1..][j - 1]; }
        }
        assert FirstLineAt(items, id, i + 1);
        r
      else r
  }

  /** The summed quantity of the lines for `id`: how many of that product
      the cart holds (0 when it has no line for it). */
  function QuantityOf(items: seq<CartItem>, id: string): int {
    if |items| == 0 then 0
    else (if items[0].product.id == id then items[0].quantity else 0) + QuantityOf(items[1..], id)
  }

  /** The number of lines for `id`. */
  function LineCount(items: seq<CartItem>, id: string): nat {
    if |items| == 0 then 0
    else (if items[0].product.id == id then 1 else 0) + LineCount(items[1..], id)
  }

  // ---------------------------------------------------------------------
  // The list transformations of the reducer's branches

  /** The `map` of ADD_TO_CART for a product already in the cart: every
      line for `id` gets `delta` more, keeping its own product snapshot;
      other lines are untouched; order and length are kept. */
  function MergeQuantity(items: seq<CartItem>, id: string, delta: int): (r: seq<CartItem>)
    ensures |r| == |items|
    ensures forall i :: 0 <= i < |items| ==>
      r[i] == if items[i].product.id == id then items[i].(quantity := items[i].quantity + delta) else items[i]
  {
    if |items| == 0 then []
    else
      var head := if items[0].product.id == id then items[0].(quantity := items[0].quantity + delta) else items[0];
      [head] + MergeQuantity(items[1..], id, delta)
  }

  /** The `filter` of REMOVE_FROM_CART: the lines not for `id`, in order. */
  function RemoveLines(items: seq<CartItem>, id: string): (r: seq<CartItem>)
    ensures |r| <= |items|
    ensures forall x :: x in r <==> x in items && x.product.id != id
  {
    if |items| == 0 then []
    else if items[0].product.id == id then RemoveLines(items[1..], id)
    else [items[0]] + RemoveLines(items[1..], id)
  }

  /** The `map` of UPDATE_QUANTITY: every line for `id` gets exactly
      `quantity` (0 and negative numbers included, nothing is removed);
      other lines are untouched; order and length are kept. */
  function SetQuantity(items: seq<CartItem>, id: string, quantity: int): (r: seq<CartItem>)
    ensures |r| == |items|
    ensures forall i :: 0 <= i < |items| ==>
      r[i] == if items[i].product.id == id then items[i].(quantity := quantity) else items[i]
  {
    if |items| == 0 then []
    else
      var head := if items[0].product.id == id then items[0].(quantity := quantity) else items[0];
      [head] + SetQuantity(items[1..], id, quantity)
  }

  /** ADD_TO_CART: merge into the existing line for the payload's product,
      or append the payload as a new last line. */
  function AddItem(items: seq<CartItem>, payload: CartItem): seq<CartItem> {
    if Find(items, payload.product.id).Some? then MergeQuantity(items, payload.product.id, payload.quantity)
    else items + [payload]
  }

  /** `cartReducer`. */
  function CartReducer(state: CartState, action: Action): CartState {
    match action
    case AddToCart(payload) => state.(items := AddItem(state.items, payload))
    case RemoveFromCart(id) => state.(items := RemoveLines(state.items, id))
    case UpdateQuantity(id, quantity) => state.(items := SetQuantity(state.items, id, quantity))
    case ClearCart => CartState([])
    case SetCart(_) => state
    case OtherAction(_) => state
  }

  /** The state after dispatching `actions` in order. */
  function Run(state: CartState, actions: seq<Action>): CartState
    decreases |actions|
  {
    if |actions| == 0 then state else Run(CartReducer(state, actions[0]), actions[1..])
  }

  // ---------------------------------------------------------------------
  // ADD_TO_CART

  /** A product not yet in the cart is appended as the last line. */
  lemma AddNewAppends(state: CartState, payload: CartItem)
    requires !HasLine(state.items, payload.product.id)
    ensures CartReducer(state, AddToCart(payload)).items == state.items + [payload]
    ensures |CartReducer(state, AddToCart(payload)).items| == |state.items| + 1
  {
  }

  /** A product already in the cart keeps the length; each of its lines
      gains the payload's quantity and keeps its own product snapshot;
      every other line is unchanged and in place. */
  lemma AddExistingMerges(state: CartState, payload: CartItem)
    requires HasLine(state.items, payload.product.id)
    ensures var r := CartReducer(state, AddToCart(payload)).items;
      && |r| == |state.items|
      && (forall i :: 0 <= i < |r| && state.items[i].product.id == payload.product.id ==>
            r[i].product == state.items[i].product && r[i].quantity == state.items[i].quantity + payload.quantity)
      && (forall i :: 0 <= i < |r| && state.items[i].product.id != payload.product.id ==> r[i] == state.items[i])
  {
  }

  /** On a cart with at most one line per product, the cart holds exactly
      the payload's quantity more of that product afterwards, in exactly one
      line. */
  lemma AddQuantity(items: seq<CartItem>, payload: CartItem)
    requires UniqueIds(items)
    ensures QuantityOf(AddItem(items, payload), payload.product.id) == QuantityOf(items, payload.product.id) + payload.quantity
    ensures LineCount(AddItem(items, payload), payload.product.id) == 1
  {
    var id := payload.product.id;
    if HasLine(items, id) {
      var k :| 0 <= k < |items| && items[k].product.id == id;
      MergeQuantityAtUnique(items, id, payload.quantity, k);
    } else {
      QuantityOfAppend(items, payload, id);
      LineCountAppend(items, payload, id);
      NoLineZero(items, id);
    }
  }

  lemma {:induction false} MergeQuantityAtUnique(items: seq<CartItem>, id: string, delta: int, k: nat)
    requires UniqueIds(items)
    requires k < |items| && items[k].product.id == id
    ensures QuantityOf(MergeQuantity(items, id, delta), id) == QuantityOf(items, id) + delta
    ensures LineCount(MergeQuantity(items, id, delta), id) == 1
    decreases |items|
  {
    var r := MergeQuantity(items, id, delta);
    assert r[1..] == MergeQuantity(items[1..], id, delta);
    if k == 0 {
      assert !HasLine(items[1..], id) by { TailLine(items, id); }
      NoLineZero(items[1..], id);
      assert !HasLine(r[1..], id);
      NoLineZero(r[1..], id);
    } else {
      assert UniqueIds(items[1..]);
      MergeQuantityAtUnique(items[1..], id, delta, k - 1);
    }
  }

  /** The lines of the tail are the lines after the first. */
  lemma TailLine(items: seq<CartItem>, id: string)
    requires |items| > 0
    ensures HasLine(items[1..], id) <==> exists j :: 1 <= j < |items| && items[j].product.id == id
  {
    if HasLine(items[1..], id) {
      var k :| 0 <= k < |items[1..]| && items[1..][k].product.id == id;
      assert items[k + 1].product.id == id;
    }
    if j :| 1 <= j < |items| && items[j].product.id == id {
      assert items[1..][j - 1].product.id == id;
    }
  }

  /** Without a line for `id` the cart holds none of it. */
  lemma {:induction false} NoLineZero(items: seq<CartItem>, id: string)
    requires !HasLine(items, id)
    ensures QuantityOf(items, id) == 0 && LineCount(items, id) == 0
    decreases |items|
  {
    if |items| > 0 {
      assert !HasLine(items[1..], id) by { TailLine(items, id); }
      NoLineZero(items[1..], id);
    }
  }

  lemma {:induction false} QuantityOfAppend(items: seq<CartItem>, x: CartItem, id: string)
    ensures QuantityOf(items + [x], id) == QuantityOf(items, id) + (if x.product.id == id then x.quantity else 0)
    decreases |items|
  {
    if |items| > 0 {
      assert (items + [x])[1..] == items[1..] + [x];
      QuantityOfAppend(items[1..], x, id);
    } else {
      assert items + [x] == [x];
    }
  }

  lemma {:induction false} LineCountAppend(items: seq<CartItem>, x: CartItem, id: string)
    ensures LineCount(items + [x], id) == LineCount(items, id) + (if x.product.id == id then 1 else 0)
    decreases |items|
  {
    if |items| > 0 {
      assert (items + [x])[1..] == items[1..] + [x];
      LineCountAppend(items[1..], x, id);
    } else {
      assert items + [x] == [x];
    }
  }

  /** A cart with at most one line per product keeps that property
      through ADD_TO_CART. */
  lemma AddKeepsUniqueIds(items: seq<CartItem>, payload: CartItem)
    requires UniqueIds(items)
    ensures UniqueIds(AddItem(items, payload))
  {
  }

  // ---------------------------------------------------------------------
  // REMOVE_FROM_CART

  /** REMOVE_FROM_CART leaves no line for the product and keeps every
      other line. */
  lemma RemoveDropsProduct(state: CartState, id: string)
    ensures var r := CartReducer(state, RemoveFromCart(id)).items;
      && !HasLine(r, id)
      && (forall x :: x in state.items && x.product.id != id ==> x in r)
  {
    var r := CartReducer(state, RemoveFromCart(id)).items;
    assert forall i :: 0 <= i < |r| ==> r[i] in r;
  }

  /** Removing a product the cart does not hold changes nothing. */
  lemma {:induction false} RemoveAbsentIsNoOp(items: seq<CartItem>, id: string)
    requires !HasLine(items, id)
    ensures RemoveLines(items, id) == items
    decreases |items|
  {
    if |items| > 0 {
      assert !HasLine(items[1..], id) by { TailLine(items, id); }
      RemoveAbsentIsNoOp(items[1..], id);
      assert [items[0]] + items[1..] == items;
    }
  }

  /** The filter distributes over concatenation: the kept lines stay in
      their original order. */
  lemma {:induction false} RemoveKeepsOrder(a: seq<CartItem>, b: seq<CartItem>, id: string)
    ensures RemoveLines(a + b, id) == RemoveLines(a, id) + RemoveLines(b, id)
    decreases |a|
  {
    if |a| > 0 {
      assert (a + b)[0] == a[0] && (a + b)[1..] == a[1..] + b;
      RemoveKeepsOrder(a[1..], b, id);
    } else {
      assert a + b == b;
    }
  }

  /** A cart with at most one line per product keeps that property
      through REMOVE_FROM_CART. */
  lemma {:induction false} RemoveKeepsUniqueIds(items: seq<CartItem>, id: string)
    requires UniqueIds(items)
    ensures UniqueIds(RemoveLines(items, id))
    decreases |items|
  {
    if |items| > 0 {
      var rest := RemoveLines(items[1..], id);
      assert UniqueIds(items[1..]);
      RemoveKeepsUniqueIds(items[1..], id);
      if items[0].product.id != id {
        forall x | x in rest ensures x.product.id != items[0].product.id {
          assert x in items[1..];
          var j :| 0 <= j < |items[1..]| && items[1..][j] == x;
          assert items[j + 1] == x;
        }
        var r := [items[0]] + rest;
        forall i, j | 0 <= i < j < |r| ensures r[i].product.id != r[j].product.id {
          if i == 0 {
            assert r[j] == rest[j - 1] && r[j] in rest;
          } else {
            assert r[i] == rest[i - 1] && r[j] == rest[j - 1];
          }
        }
      }
    }
  }

  // ---------------------------------------------------------------------
  // UPDATE_QUANTITY

  /** UPDATE_QUANTITY sets every line for the product to exactly the given
      number, 0 included, without removing any line; other lines and the
      length are unchanged. */
  lemma UpdateSetsExactly(state: CartState, id: string, quantity: int)
    ensures var r := CartReducer(state, UpdateQuantity(id, quantity)).items;
      && |r| == |state.items|
      && (forall i :: 0 <= i < |r| && state.items[i].product.id == id ==>
            r[i].product == state.items[i].product && r[i].quantity == quantity)
      && (forall i :: 0 <= i < |r| && state.items[i].product.id != id ==> r[i] == state.items[i])
      && (HasLine(state.items, id) <==> HasLine(r, id))
  {
    var r := CartReducer(state, UpdateQuantity(id, quantity)).items;
    if HasLine(r, id) {
      var k :| 0 <= k < |r| && r[k].product.id == id;
      assert state.items[k].product.id == id;
    }
  }

  /** On a cart with at most one line per product that holds `id`, the cart
      holds exactly `quantity` of it afterwards. */
  lemma {:induction false} UpdateQuantityOf(items: seq<CartItem>, id: string, quantity: int)
    requires UniqueIds(items) && HasLine(items, id)
    ensures QuantityOf(SetQuantity(items, id, quantity), id) == quantity
    decreases |items|
  {
    var r := SetQuantity(items, id, quantity);
    assert r[1..] == SetQuantity(items[1..], id, quantity);
    assert UniqueIds(items[1..]);
    if items[0].product.id == id {
      assert !HasLine(items[1..], id) by { TailLine(items, id); }
      assert !HasLine(r[1..], id);
      NoLineZero(r[1..], id);
    } else {
      assert HasLine(items[1..], id) by {
        var j :| 0 <= j < |items| && items[j].product.id == id;
        assert items[1..][j - 1].product.id == id;
      }
      UpdateQuantityOf(items[1..], id, quantity);
    }
  }

  // ---------------------------------------------------------------------
  // CLEAR_CART, SET_CART and unknown actions

  /** CLEAR_CART empties the cart from any state. */
  lemma ClearEmpties(state: CartState)
    ensures CartReducer(state, ClearCart).items == []
  {
  }

  /** SET_CART (the restore from local storage) and every unknown action
      type leave the state as it is. */
  lemma UnhandledActionsAreIdentity(state: CartState, saved: CartState, actionType: UnknownActionType)
    ensures CartReducer(state, SetCart(saved)) == state
    ensures CartReducer(state, OtherAction(actionType)) == state
  {
  }

  // ---------------------------------------------------------------------
  // The invariant over every reachable state

  /** Every action keeps "at most one line per product". */
  lemma ReducerKeepsUniqueIds(state: CartState, action: Action)
    requires UniqueIds(state.items)
    ensures UniqueIds(CartReducer(state, action).items)
  {
    match action
    case AddToCart(payload) => AddKeepsUniqueIds(state.items, payload);
    case RemoveFromCart(id) => RemoveKeepsUniqueIds(state.items, id);
    case UpdateQuantity(id, quantity) =>
    case ClearCart =>
    case SetCart(_) =>
    case OtherAction(_) =>
  }

  /** Whatever is dispatched, starting from the empty cart, the cart never
      holds two lines for the same product. */
  lemma {:induction false} ReachableStatesHaveUniqueIds(state: CartState, actions: seq<Action>)
    requires UniqueIds(state.items)
    ensures UniqueIds(Run(state, actions).items)
    decreases |actions|
  {
    if |actions| > 0 {
      ReducerKeepsUniqueIds(state, actions[0]);
      ReachableStatesHaveUniqueIds(CartReducer(state, actions[0]), actions[1..]);
    }
  }

  /** Adding the same product `n` times with quantity 1 to an empty cart
      gives one line with quantity `n`. */
  lemma {:induction false} RepeatedAddMerges(p: Product, n: nat)
    ensures var r := Run(InitialState, AddOnes(p, n)).items;
      n > 0 ==> LineCount(r, p.id) == 1 && QuantityOf(r, p.id) == n
  {
    RepeatedAddFrom(InitialState, p, n);
  }

  function AddOnes(p: Product, n: nat): seq<Action> {
    if n == 0 then [] else [AddToCart(CartItem(p, 1))] + AddOnes(p, n - 1)
  }

  lemma {:induction false} RepeatedAddFrom(state: CartState, p: Product, n: nat)
    requires UniqueIds(state.items)
    ensures var r := Run(state, AddOnes(p, n)).items;
      && UniqueIds(r)
      && QuantityOf(r, p.id) == QuantityOf(state.items, p.id) + n
      && (n > 0 ==> LineCount(r, p.id) == 1)
      && (n == 0 ==> r == state.items)
    decreases n
  {
    if n > 0 {
      var next := CartReducer(state, AddToCart(CartItem(p, 1)));
      AddQuantity(state.items, CartItem(p, 1));
      AddKeepsUniqueIds(state.items, CartItem(p, 1));
      RepeatedAddFrom(next, p, n - 1);
    }
  }
}
