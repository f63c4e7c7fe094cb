/**
  The cart slice as the application holds it: one mutable object whose
  reducers update its line list and its two counters in place.  Each method
  is proved to leave the object in the state the matching pure transition of
  `CartModel` describes, and to keep the cart invariant (for an add, when the
  lines already holding the product's id carry its price).
 */
module CartSlice {
  import opened CartModel

  /** Linear search for the first line with product id `id`, as `Array.prototype.find` does. */
  method FindIndex(items: seq<CartItem>, id: int) returns (k: Option<nat>)
    ensures k == IndexOf(items, id)
  {
    var i := 0;
    while i < |items|
      invariant 0 <= i <= |items|
      invariant forall j :: 0 <= j < i ==> items[j].product.id != id
    {
      if items[i].product.id == id {
        k := Some(i);
        assert IndexOf(items, id).Some? && !(IndexOf(items, id).value < i);
        return;
      }
      i := i + 1;
    }
    k := None;
  }

  /** The lines whose product id differs from `id`, in their original order (`Array.prototype.filter`). */
  method FilterOut(items: seq<CartItem>, id: int) returns (r: seq<CartItem>)
    ensures r == Without(items, id)
  {
    r := [];
    var i := 0;
    while i < |items|
      invariant 0 <= i <= |items|
      invariant r == Without(items[..i], id)
    {
      assert items[..i + 1] == items[..i] + [items[i]];
      WithoutConcat(items[..i], [items[i]], id);
      assert [items[i]][1..] == [];
      if items[i].product.id != id {
        r := r + [items[i]];
      }
      i := i + 1;
    }
    assert items[..i] == items;
  }

  class Cart {
    var items: seq<CartItem>
    var totalQuantity: int
    var totalPrice: int

    /** The slice's current value as a plain state. */
    function State(): CartState
      reads this
    {
      CartState(items, totalQuantity, totalPrice)
    }

    ghost predicate Valid()
      reads this
    {
      CartModel.Valid(State())
    }

    /** `initialState`: no lines and both totals zero. */
    constructor ()
      ensures State() == InitialState
      ensures items == [] && totalQuantity == 0 && totalPrice == 0
      ensures Valid()
    {
      items := [];
      totalQuantity := 0;
      totalPrice := 0;
    }

    /** `addToCart(product)`. */
    method AddToCart(p: Product)
      modifies this
      ensures State() == Add(old(State()), p)
      ensures totalQuantity == old(totalQuantity) + 1
      ensures totalPrice == old(totalPrice) + p.price
      ensures old(Valid()) && PriceConsistent(old(items), p) ==> Valid()
      ensures old(Unique(items)) ==> Count(items, p.id) == 1
    {
      ghost var s := State();
      var k := FindIndex(items, p.id);
      match k {
        case None =>
          items := items + [CartItem(p, 1)];
        case Some(i) =>
          items := items[i := items[i].(quantity := items[i].quantity + 1)];
      }
      totalQuantity := totalQuantity + 1;
      totalPrice := totalPrice + p.price;
      if Unique(s.items) {
        AddToCartOneLine(s, p);
      }
      if CartModel.Valid(s) && PriceConsistent(s.items, p) {
        AddToCartPreservesValid(s, p);
      }
    }

    /** `removeFromCart(id)`. */
    method RemoveFromCart(id: int)
      modifies this
      ensures State() == Remove(old(State()), id)
      ensures !HasId(old(items), id) ==> unchanged(this)
      ensures old(Valid()) ==> Valid() && !HasId(items, id)
    {
      ghost var s := State();
      var k := FindIndex(items, id);
      match k {
        case None =>
        case Some(i) =>
          totalQuantity := totalQuantity - items[i].quantity;
          totalPrice := totalPrice - items[i].product.price * items[i].quantity;
          items := FilterOut(items, id);
      }
      if CartModel.Valid(s) {
        RemoveFromCartPreservesValid(s, id);
        if k.Some? {
          RemoveFromCartPresent(s, k.value);
        }
      }
    }

    /** `updateQuantity({ id, quantity })`. */
    method UpdateQuantity(id: int, quantity: int)
      modifies this
      ensures State() == Update(old(State()), id, quantity)
      ensures !HasId(old(items), id) || quantity <= 0 ==> unchanged(this)
      ensures |items| == |old(items)|
      ensures old(Valid()) ==> Valid()
    {
      ghost var s := State();
      var k := FindIndex(items, id);
      match k {
        case None =>
        case Some(i) =>
          if quantity > 0 {
            var diff := quantity - items[i].quantity;
            var price := items[i].product.price;
            items := items[i := items[i].(quantity := quantity)];
            totalQuantity := totalQuantity + diff;
            totalPrice := totalPrice + price * diff;
          }
      }
      if CartModel.Valid(s) {
        UpdateQuantityPreservesValid(s, id, quantity);
      }
    }

    /** `clearCart()`. */
    method ClearCart()
      modifies this
      ensures State() == Clear(old(State()))
      ensures items == [] && totalQuantity == 0 && totalPrice == 0
      ensures Valid()
    {
      items := [];
      totalQuantity := 0;
      totalPrice := 0;
    }

    /** Dispatches one intent to the matching reducer. */
    method Dispatch(a: Action)
      modifies this
      ensures State() == Step(old(State()), a)
      ensures old(Valid()) && (a.AddToCart? ==> PriceConsistent(old(items), a.product)) ==> Valid()
    {
      match a {
        case AddToCart(p) => AddToCart(p);
        case RemoveFromCart(id) => RemoveFromCart(id);
        case UpdateQuantity(id, q) => UpdateQuantity(id, q);
        case ClearCart => ClearCart();
      }
    }
  }
}
