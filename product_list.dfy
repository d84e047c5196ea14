/** The product grid, frontend/src/components/ProductList.tsx: the
    per-product quantity selector (a dictionary from product id to the
    chosen number) and "Add to Cart", which dispatches the chosen quantity
    and resets the selector to 1. */
module ProductList {
  import opened CartContext

  /** The quantity shown for a product: the stored number, or 1 when it has
      no entry or its entry is 0 (the falsy values an integer can take). */
  function SelectedQuantity(quantities: map<string, int>, id: string): (q: int)
    ensures q != 0
    ensures id in quantities && quantities[id] != 0 ==> q == quantities[id]
    ensures id !in quantities || quantities[id] == 0 ==> q == 1
  {
    if id in quantities && quantities[id] != 0 then quantities[id] else 1
  }

  /** The component's `quantities` state. */
  class QuantitySelector {
    var quantities: map<string, int>

    constructor ()
      ensures quantities == map[]
    {
      quantities := map[];
    }

    /** The number input's `onChange`: records the entered number for one
        product. */
    method SetQuantity(id: string, value: int)
      modifies this
      ensures quantities == old(quantities)[id := value]
    {
      quantities := quantities[id := value];
    }

    /** `handleAddToCart`: the ADD_TO_CART action carries the product with
        its selected quantity; afterwards that product's entry is 1 and every
        other entry is as it was. */
    method HandleAddToCart(product: Product) returns (action: Action)
      modifies this
      ensures action == AddToCart(CartItem(product, SelectedQuantity(old(quantities), product.id)))
      ensures product.id in quantities && quantities[product.id] == 1
      ensures forall id :: id != product.id ==>
        (id in quantities <==> id in old(quantities)) && (id in quantities ==> quantities[id] == old(quantities)[id])
      ensures SelectedQuantity(quantities, product.id) == 1
    {
      var quantity := SelectedQuantity(quantities, product.id);
      action := AddToCart(CartItem(product, quantity));
      quantities := quantities[product.id := 1];
    }
  }

  /** After "Add to Cart" the selector shows 1 for that product and the
      same number as before for every other product. */
  lemma ResetAfterAdd(quantities: map<string, int>, id: string, other: string)
    requires other != id
    ensures SelectedQuantity(quantities[id := 1], id) == 1
    ensures SelectedQuantity(quantities[id := 1], other) == SelectedQuantity(quantities, other)
  {
  }

  /** Adding a product twice in a row without touching the selector adds
      the selected quantity first and then 1, all in one cart line. */
  lemma AddTwiceWithoutEditing(items: seq<CartItem>, quantities: map<string, int>, product: Product)
    requires UniqueIds(items)
    ensures var first := AddItem(items, CartItem(product, SelectedQuantity(quantities, product.id)));
      var second := AddItem(first, CartItem(product, SelectedQuantity(quantities[product.id := 1], product.id)));
      && QuantityOf(second, product.id) == QuantityOf(items, product.id) + SelectedQuantity(quantities, product.id) + 1
      && LineCount(second, product.id) == 1
  {
    var first := AddItem(items, CartItem(product, SelectedQuantity(quantities, product.id)));
    AddQuantity(items, CartItem(product, SelectedQuantity(quantities, product.id)));
    AddKeepsUniqueIds(items, CartItem(product, SelectedQuantity(quantities, product.id)));
    AddQuantity(first, CartItem(product, 1));
  }
}
