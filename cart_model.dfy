/**
  The cart reducer of the storefront as a pure state-transition system.

  A cart is a list of line items (a product's fields plus a quantity) and two
  running totals.  Each of the four reducer cases is a function from the old
  cart state to the new one; `Step` dispatches on an action and `Run` applies
  a sequence of actions in order.  Prices are integer cents, so every sum is
  exact.
 */
module CartModel {

  datatype Option<T> = None | Some(value: T)

  /** A catalog product as the cart receives it; the cart only inspects `id` and `price`. */
  datatype Product = Product(
    id: int,
    title: string,
    price: int,
    description: string,
    category: Option<string>,
    images: seq<string>)

  /** A cart line: the product's fields as they were when the line was created, plus a quantity. */
  datatype CartItem = CartItem(product: Product, quantity: int)

  datatype CartState = CartState(items: seq<CartItem>, totalQuantity: int, totalPrice: int)

  /** The four intents the presentation layer dispatches to the cart. */
  datatype Action =
    | AddToCart(product: Product)
    | RemoveFromCart(id: int)
    | UpdateQuantity(id: int, quantity: int)
    | ClearCart

  const InitialState: CartState := CartState([], 0, 0)

  // ---------------------------------------------------------------------------
  // Derived quantities over the lines

  function Sum(items: seq<CartItem>, f: CartItem -> int): int
  {
    if items == [] then 0 else f(items[0]) + Sum(items[1..], f)
  }

  function LineQuantity(it: CartItem): int { it.quantity }

  /** What one line contributes to the total price: unit price times quantity. */
  function LinePrice(it: CartItem): int { it.product.price * it.quantity }

  /** Number of lines carrying product id `id`. */
  function Count(items: seq<CartItem>, id: int): nat
  {
    if items == [] then 0
    else (if items[0].product.id == id then 1 else 0) + Count(items[1..], id)
  }

  ghost predicate HasId(items: seq<CartItem>, id: int)
  {
    exists i :: 0 <= i < |items| && items[i].product.id == id
  }

  ghost predicate Unique(items: seq<CartItem>)
  {
    forall i, j :: 0 <= i < j < |items| ==> items[i].product.id != items[j].product.id
  }

  ghost predicate AllPositive(items: seq<CartItem>)
  {
    forall i :: 0 <= i < |items| ==> items[i].quantity >= 1
  }

  /** The cart invariant: exact totals, positive quantities, one line per id. */
  ghost predicate Valid(s: CartState)
  {
    && s.totalQuantity == Sum(s.items, LineQuantity)
    && s.totalPrice == Sum(s.items, LinePrice)
    && AllPositive(s.items)
    && Unique(s.items)
  }

  /** Every line already holding `p.id` carries `p`'s price. */
  ghost predicate PriceConsistent(items: seq<CartItem>, p: Product)
  {
    forall i :: 0 <= i < |items| && items[i].product.id == p.id ==> items[i].product.price == p.price
  }

  // ---------------------------------------------------------------------------
  // The two array operations the reducers rely on

  /** `items.find(item => item.id === id)`, as the index of the first match. */
  function IndexOf(items: seq<CartItem>, id: int): (r: Option<nat>)
    ensures r.Some? ==>
      && r.value < |items|
      && items[r.value].product.id == id
      && forall j :: 0 <= j < r.value ==> items[j].product.id != id
    ensures r.None? ==> forall j :: 0 <= j < |items| ==> items[j].product.id != id
  {
    if items == [] then None
    else if items[0].product.id == id then Some(0)
    else match IndexOf(items[1..], id)
      case None => None
      case Some(k) => Some(k + 1)
  }

  /** `items.filter(item => item.id !== id)`. */
  function Without(items: seq<CartItem>, id: int): (r: seq<CartItem>)
    ensures |r| <= |items|
  {
    if items == [] then []
    else (if items[0].product.id == id then [] else [items[0]]) + Without(items[1..], id)
  }

  /** The filter keeps a line exactly when it was in the cart and carries another id. */
  lemma {:induction false} WithoutMembers(items: seq<CartItem>, id: int)
    ensures forall it :: it in Without(items, id) <==> it in items && it.product.id != id
  {
    if items != [] {
      WithoutMembers(items[1..], id);
      assert items == [items[0]] + items[1..];
    }
  }

  // ---------------------------------------------------------------------------
  // The reducer cases

  /** `addToCart`: the stored line keeps its own fields; the total grows by the new product's price. */
  function Add(s: CartState, p: Product): CartState
  {
    var items := match IndexOf(s.items, p.id)
      case None => s.items + [CartItem(p, 1)]
      case Some(k) => s.items[k := s.items[k].(quantity := s.items[k].quantity + 1)];
    CartState(items, s.totalQuantity + 1, s.totalPrice + p.price)
  }

  /** `removeFromCart`: subtracts the first matching line's contribution and filters the id out. */
  function Remove(s: CartState, id: int): CartState
  {
    match IndexOf(s.items, id)
    case None => s
    case Some(k) =>
      var it := s.items[k];
      CartState(Without(s.items, id), s.totalQuantity - it.quantity,
                s.totalPrice - it.product.price * it.quantity)
  }

  /** `updateQuantity`: only a present id with a positive quantity has an effect. */
  function Update(s: CartState, id: int, quantity: int): CartState
  {
    match IndexOf(s.items, id)
    case None => s
    case Some(k) =>
      if quantity > 0 then
        var it := s.items[k];
        var diff := quantity - it.quantity;
        CartState(s.items[k := it.(quantity := quantity)], s.totalQuantity + diff,
                  s.totalPrice + it.product.price * diff)
      else s
  }

  /** `clearCart`. */
  function Clear(s: CartState): CartState
  {
    InitialState
  }

  function Step(s: CartState, a: Action): CartState
  {
    match a
    case AddToCart(p) => Add(s, p)
    case RemoveFromCart(id) => Remove(s, id)
    case UpdateQuantity(id, q) => Update(s, id, q)
    case ClearCart => Clear(s)
  }

  function Run(s: CartState, acts: seq<Action>): CartState
    decreases |acts|
  {
    if acts == [] then s else Run(Step(s, acts[0]), acts[1..])
  }

  // ---------------------------------------------------------------------------
  // Lemmas about sums, counts and filtering

  lemma {:induction false} SumConcat(a: seq<CartItem>, b: seq<CartItem>, f: CartItem -> int)
    ensures Sum(a + b, f) == Sum(a, f) + Sum(b, f)
  {
    if a == [] {
      assert a + b == b;
    } else {
      assert (a + b)[1..] == a[1..] + b;
      SumConcat(a[1..], b, f);
    }
  }

  /** Splitting a sum around one position. */
  lemma SumAt(items: seq<CartItem>, k: nat, f: CartItem -> int)
    requires k < |items|
    ensures Sum(items, f) == Sum(items[..k], f) + f(items[k]) + Sum(items[k + 1..], f)
  {
    assert items == items[..k] + ([items[k]] + items[k + 1..]);
    SumConcat(items[..k], [items[k]] + items[k + 1..], f);
    assert ([items[k]] + items[k + 1..])[1..] == items[k + 1..];
  }

  /** Replacing one line changes a sum by exactly the difference of that line's terms. */
  lemma SumReplace(items: seq<CartItem>, k: nat, x: CartItem, f: CartItem -> int)
    requires k < |items|
    ensures Sum(items[k := x], f) == Sum(items, f) - f(items[k]) + f(x)
  {
    var r := items[k := x];
    SumAt(items, k, f);
    SumAt(r, k, f);
    assert r[..k] == items[..k];
    assert r[k + 1..] == items[k + 1..];
  }

  /** Removing one position lowers a sum by that line's term. */
  lemma SumDelete(items: seq<CartItem>, k: nat, f: CartItem -> int)
    requires k < |items|
    ensures Sum(items[..k] + items[k + 1..], f) == Sum(items, f) - f(items[k])
  {
    SumAt(items, k, f);
    SumConcat(items[..k], items[k + 1..], f);
  }

  lemma {:induction false} SumAppend(items: seq<CartItem>, x: CartItem, f: CartItem -> int)
    ensures Sum(items + [x], f) == Sum(items, f) + f(x)
  {
    SumConcat(items, [x], f);
    assert [x][1..] == [];
  }

  lemma {:induction false} CountConcat(a: seq<CartItem>, b: seq<CartItem>, id: int)
    ensures Count(a + b, id) == Count(a, id) + Count(b, id)
  {
    if a == [] {
      assert a + b == b;
    } else {
      assert (a + b)[1..] == a[1..] + b;
      CountConcat(a[1..], b, id);
    }
  }

  lemma {:induction false} CountAbsent(items: seq<CartItem>, id: int)
    requires forall j :: 0 <= j < |items| ==> items[j].product.id != id
    ensures Count(items, id) == 0
  {
    if items != [] {
      CountAbsent(items[1..], id);
    }
  }

  /** In a cart with unique ids, an id that occurs at all occurs on exactly one line. */
  lemma CountUnique(items: seq<CartItem>, k: nat)
    requires Unique(items) && k < |items|
    ensures Count(items, items[k].product.id) == 1
  {
    var id := items[k].product.id;
    assert items == items[..k] + ([items[k]] + items[k + 1..]);
    CountConcat(items[..k], [items[k]] + items[k + 1..], id);
    CountConcat([items[k]], items[k + 1..], id);
    CountAbsent(items[..k], id);
    CountAbsent(items[k + 1..], id);
    assert [items[k]][1..] == [];
  }

  lemma {:induction false} WithoutAbsent(items: seq<CartItem>, id: int)
    requires forall j :: 0 <= j < |items| ==> items[j].product.id != id
    ensures Without(items, id) == items
  {
    if items != [] {
      WithoutAbsent(items[1..], id);
      assert [items[0]] + items[1..] == items;
    }
  }

  lemma {:induction false} WithoutConcat(a: seq<CartItem>, b: seq<CartItem>, id: int)
    ensures Without(a + b, id) == Without(a, id) + Without(b, id)
  {
    if a == [] {
      assert a + b == b;
    } else {
      assert (a + b)[1..] == a[1..] + b;
      WithoutConcat(a[1..], b, id);
    }
  }

  /** With unique ids, filtering an id out deletes exactly its one line and keeps the rest in order. */
  lemma WithoutUnique(items: seq<CartItem>, k: nat)
    requires Unique(items) && k < |items|
    ensures Without(items, items[k].product.id) == items[..k] + items[k + 1..]
  {
    UniqueAround(items, k);
    SpliceAt(items, k);
    WithoutSplice(items[..k], items[k], items[k + 1..]);
  }

  lemma SpliceAt(items: seq<CartItem>, k: nat)
    requires k < |items|
    ensures items == items[..k] + ([items[k]] + items[k + 1..])
  {
  }

  /** In a cart with unique ids, no line before or after position `k` shares its id. */
  lemma UniqueAround(items: seq<CartItem>, k: nat)
    requires Unique(items) && k < |items|
    ensures var pre := items[..k]; forall j :: 0 <= j < |pre| ==> pre[j].product.id != items[k].product.id
    ensures var post := items[k + 1..]; forall j :: 0 <= j < |post| ==> post[j].product.id != items[k].product.id
  {
    var pre, post := items[..k], items[k + 1..];
    forall j | 0 <= j < |pre| ensures pre[j].product.id != items[k].product.id {
      assert pre[j] == items[j];
    }
    forall j | 0 <= j < |post| ensures post[j].product.id != items[k].product.id {
      assert post[j] == items[k + 1 + j];
    }
  }

  lemma WithoutSplice(pre: seq<CartItem>, x: CartItem, post: seq<CartItem>)
    requires forall j :: 0 <= j < |pre| ==> pre[j].product.id != x.product.id
    requires forall j :: 0 <= j < |post| ==> post[j].product.id != x.product.id
    ensures Without(pre + ([x] + post), x.product.id) == pre + post
  {
    var id := x.product.id;
    WithoutConcat(pre, [x] + post, id);
    WithoutAt(x, post);
    WithoutAbsent(pre, id);
    WithoutAbsent(post, id);
  }

  lemma WithoutAt(x: CartItem, post: seq<CartItem>)
    ensures Without([x] + post, x.product.id) == Without(post, x.product.id)
  {
    assert ([x] + post)[1..] == post;
  }

  /** Deleting one position keeps quantities positive and ids unique. */
  lemma DeletePreserves(items: seq<CartItem>, k: nat)
    requires k < |items|
    ensures var r := items[..k] + items[k + 1..];
      && |r| == |items| - 1
      && (forall i :: 0 <= i < |r| ==> r[i] == items[if i < k then i else i + 1])
      && (AllPositive(items) ==> AllPositive(r))
      && (Unique(items) ==> Unique(r))
  {
    var r := items[..k] + items[k + 1..];
    assert forall i :: 0 <= i < |r| ==> r[i] == items[if i < k then i else i + 1];
  }

  // ---------------------------------------------------------------------------
  // addToCart

  /** A new id is appended as one line of quantity 1; a present id gets one more unit on its line only. */
  lemma AddToCartLines(s: CartState, p: Product)
    ensures var r := Add(s, p);
      && r.totalQuantity == s.totalQuantity + 1
      && r.totalPrice == s.totalPrice + p.price
      && (!HasId(s.items, p.id) ==> r.items == s.items + [CartItem(p, 1)])
      && (forall k :: (0 <= k < |s.items| && s.items[k].product.id == p.id
              && forall j :: 0 <= j < k ==> s.items[j].product.id != p.id) ==>
            && |r.items| == |s.items|
            && r.items[k] == s.items[k].(quantity := s.items[k].quantity + 1)
            && (forall j :: 0 <= j < |s.items| && j != k ==> r.items[j] == s.items[j]))
  {
  }

  /** After adding, the cart holds exactly one line with that id and ids stay unique. */
  lemma AddToCartOneLine(s: CartState, p: Product)
    requires Unique(s.items)
    ensures Unique(Add(s, p).items)
    ensures Count(Add(s, p).items, p.id) == 1
  {
    var r := Add(s, p).items;
    match IndexOf(s.items, p.id)
    case None =>
      assert r == s.items + [CartItem(p, 1)];
      assert r[|s.items|].product.id == p.id;
      CountUnique(r, |s.items|);
    case Some(k) =>
      assert forall i :: 0 <= i < |r| ==> r[i].product.id == s.items[i].product.id;
      CountUnique(r, k);
  }

  /** `addToCart` keeps the invariant when a present id comes with the price it was stored with. */
  lemma AddToCartPreservesValid(s: CartState, p: Product)
    requires Valid(s) && PriceConsistent(s.items, p)
    ensures Valid(Add(s, p))
  {
    AddToCartOneLine(s, p);
    match IndexOf(s.items, p.id)
    case None =>
      SumAppend(s.items, CartItem(p, 1), LineQuantity);
      SumAppend(s.items, CartItem(p, 1), LinePrice);
    case Some(k) =>
      var x := s.items[k].(quantity := s.items[k].quantity + 1);
      SumReplace(s.items, k, x, LineQuantity);
      SumReplace(s.items, k, x, LinePrice);
  }

  /**
    When the stored line's price differs from the added product's, the new total
    price is off from the lines' sum by exactly that difference.
   */
  lemma AddToCartPriceDrift(s: CartState, p: Product, k: nat)
    requires Valid(s) && k < |s.items| && s.items[k].product.id == p.id
    ensures Add(s, p).totalPrice == Sum(Add(s, p).items, LinePrice) + p.price - s.items[k].product.price
  {
    assert IndexOf(s.items, p.id) == Some(k) by {
      var m := IndexOf(s.items, p.id).value;
      assert !(m < k) && !(k < m);
    }
    var x := s.items[k].(quantity := s.items[k].quantity + 1);
    SumReplace(s.items, k, x, LinePrice);
  }

  /** A concrete instance: a second add of id 1 at a new price leaves the cart inconsistent. */
  lemma AddToCartPriceMismatch()
    ensures var old10 := Product(1, "tee", 10, "", None, []);
      var new12 := old10.(price := 12);
      var s := CartState([CartItem(old10, 1)], 1, 10);
      Valid(s) && !Valid(Add(s, new12)) && Add(s, new12).totalPrice == 22
  {
    var old10 := Product(1, "tee", 10, "", None, []);
    var new12 := old10.(price := 12);
    var s := CartState([CartItem(old10, 1)], 1, 10);
    assert s.items[1..] == [];
    var r := Add(s, new12);
    assert r.items == [CartItem(old10, 2)];
    assert r.items[1..] == [];
  }

  // ---------------------------------------------------------------------------
  // removeFromCart

  /** Removing an id the cart does not hold changes nothing at all. */
  lemma RemoveFromCartAbsent(s: CartState, id: int)
    requires !HasId(s.items, id)
    ensures Remove(s, id) == s
  {
  }

  /**
    Removing a present id deletes its line, keeps the other lines in order and
    takes its quantity and price times quantity off the totals.
   */
  lemma RemoveFromCartPresent(s: CartState, k: nat)
    requires Unique(s.items) && k < |s.items|
    ensures var it := s.items[k];
      var r := Remove(s, it.product.id);
      && r.items == s.items[..k] + s.items[k + 1..]
      && r.totalQuantity == s.totalQuantity - it.quantity
      && r.totalPrice == s.totalPrice - it.product.price * it.quantity
      && !HasId(r.items, it.product.id)
  {
    var id := s.items[k].product.id;
    assert IndexOf(s.items, id) == Some(k);
    WithoutUnique(s.items, k);
    var r := Remove(s, id).items;
    DeletePreserves(s.items, k);
    assert forall i :: 0 <= i < |r| ==> r[i].product.id != id;
  }

  lemma RemoveFromCartPreservesValid(s: CartState, id: int)
    requires Valid(s)
    ensures Valid(Remove(s, id))
  {
    match IndexOf(s.items, id)
    case None =>
    case Some(k) =>
      RemoveFromCartPresent(s, k);
      DeletePreserves(s.items, k);
      SumDelete(s.items, k, LineQuantity);
      SumDelete(s.items, k, LinePrice);
  }

  // ---------------------------------------------------------------------------
  // updateQuantity

  /**
    An absent id or a non-positive quantity is a no-op; otherwise only the
    matching line's quantity changes and the totals shift by the difference.
    The number of lines never changes.
   */
  lemma UpdateQuantityEffect(s: CartState, id: int, quantity: int)
    ensures |Update(s, id, quantity).items| == |s.items|
    ensures !HasId(s.items, id) || quantity <= 0 ==> Update(s, id, quantity) == s
    ensures forall k :: (0 <= k < |s.items| && s.items[k].product.id == id && quantity > 0
              && forall j :: 0 <= j < k ==> s.items[j].product.id != id) ==>
              var it := s.items[k];
              var r := Update(s, id, quantity);
              && r.items == s.items[k := it.(quantity := quantity)]
              && r.totalQuantity == s.totalQuantity + (quantity - it.quantity)
              && r.totalPrice == s.totalPrice + it.product.price * (quantity - it.quantity)
  {
  }

  lemma UpdateQuantityPreservesValid(s: CartState, id: int, quantity: int)
    requires Valid(s)
    ensures Valid(Update(s, id, quantity))
  {
    match IndexOf(s.items, id)
    case None =>
    case Some(k) =>
      if quantity > 0 {
        var x := s.items[k].(quantity := quantity);
        SumReplace(s.items, k, x, LineQuantity);
        SumReplace(s.items, k, x, LinePrice);
        assert s.items[k].product.price * quantity - s.items[k].product.price * s.items[k].quantity
            == s.items[k].product.price * (quantity - s.items[k].quantity);
      }
  }

  // ---------------------------------------------------------------------------
  // clearCart

  /** Clearing yields the initial state, satisfies the invariant, and is idempotent. */
  lemma ClearCartLaws(s: CartState)
    ensures Clear(s) == InitialState
    ensures Clear(s).items == [] && Clear(s).totalQuantity == 0 && Clear(s).totalPrice == 0
    ensures Clear(Clear(s)) == Clear(s)
    ensures Valid(Clear(s))
  {
  }

  // ---------------------------------------------------------------------------
  // Any sequence of intents

  /** Each line's price is the one a fixed price table gives for its id. */
  ghost predicate LinesPriced(items: seq<CartItem>, price: int -> int)
  {
    forall i :: 0 <= i < |items| ==> items[i].product.price == price(items[i].product.id)
  }

  /** Each add request brings the price the table gives for its id. */
  ghost predicate AddsPriced(acts: seq<Action>, price: int -> int)
  {
    forall i :: 0 <= i < |acts| && acts[i].AddToCart? ==>
      acts[i].product.price == price(acts[i].product.id)
  }

  lemma StepPreservesValid(s: CartState, a: Action, price: int -> int)
    requires Valid(s) && LinesPriced(s.items, price)
    requires a.AddToCart? ==> a.product.price == price(a.product.id)
    ensures Valid(Step(s, a)) && LinesPriced(Step(s, a).items, price)
  {
    match a
    case AddToCart(p) =>
      AddToCartPreservesValid(s, p);
    case RemoveFromCart(id) =>
      RemoveFromCartPreservesValid(s, id);
      var r := Remove(s, id).items;
      WithoutMembers(s.items, id);
      assert forall i :: 0 <= i < |r| ==> r[i] in s.items;
    case UpdateQuantity(id, q) =>
      UpdateQuantityPreservesValid(s, id, q);
      var r := Update(s, id, q).items;
      assert forall i :: 0 <= i < |r| ==> r[i].product == s.items[i].product;
    case ClearCart =>
  }

  lemma {:induction false} RunPreservesValid(s: CartState, acts: seq<Action>, price: int -> int)
    requires Valid(s) && LinesPriced(s.items, price) && AddsPriced(acts, price)
    ensures Valid(Run(s, acts))
    decreases |acts|
  {
    if acts != [] {
      StepPreservesValid(s, acts[0], price);
      assert forall i :: 0 <= i < |acts| - 1 ==> acts[1..][i] == acts[i + 1];
      RunPreservesValid(Step(s, acts[0]), acts[1..], price);
    }
  }

  /**
    From the initial state, any sequence of intents in which each id always
    comes with the same price keeps both totals exact, every quantity at
    least 1 and every id on at most one line.
   */
  lemma ReachableValid(acts: seq<Action>, price: int -> int)
    requires AddsPriced(acts, price)
    ensures Valid(Run(InitialState, acts))
  {
    RunPreservesValid(InitialState, acts, price);
  }

  /**
    The weakest per-step price condition: every add request, at the moment it
    is applied, brings the price of any line that already holds its id.
   */
  ghost predicate AddsMatchCart(s: CartState, acts: seq<Action>)
    decreases |acts|
  {
    acts != [] ==>
      && (acts[0].AddToCart? ==> PriceConsistent(s.items, acts[0].product))
      && AddsMatchCart(Step(s, acts[0]), acts[1..])
  }

  /**
    Any sequence of intents whose adds agree with the lines present at that
    moment keeps the invariant; an id may come back at a new price once its
    line has been removed or the cart cleared.
   */
  lemma {:induction false} RunKeepsValidPerStep(s: CartState, acts: seq<Action>)
    requires Valid(s) && AddsMatchCart(s, acts)
    ensures Valid(Run(s, acts))
    decreases |acts|
  {
    if acts != [] {
      match acts[0] {
        case AddToCart(p) => AddToCartPreservesValid(s, p);
        case RemoveFromCart(id) => RemoveFromCartPreservesValid(s, id);
        case UpdateQuantity(id, q) => UpdateQuantityPreservesValid(s, id, q);
        case ClearCart =>
      }
      RunKeepsValidPerStep(Step(s, acts[0]), acts[1..]);
    }
  }

  // ---------------------------------------------------------------------------
  // Worked sequences of intents

  /**
    Adding id 1 twice gives one line of quantity 2; adding id 2 and then removing
    id 1 leaves only id 2's line; the minus button on a line of quantity 1 asks
    for quantity 0, which keeps the line.
   */
  lemma ScenarioSequence()
    ensures var p1 := Product(1, "mug", 5, "", None, []);
      var p2 := Product(2, "cap", 7, "", None, []);
      && Run(InitialState, [AddToCart(p1), AddToCart(p1)]) == CartState([CartItem(p1, 2)], 2, 10)
      && Run(InitialState, [AddToCart(p1), AddToCart(p2), RemoveFromCart(1)]) == CartState([CartItem(p2, 1)], 1, 7)
      && Run(InitialState, [AddToCart(p2), UpdateQuantity(2, 0)]) == CartState([CartItem(p2, 1)], 1, 7)
      && Run(InitialState, [RemoveFromCart(99)]) == InitialState
  {
    var p1 := Product(1, "mug", 5, "", None, []);
    var p2 := Product(2, "cap", 7, "", None, []);
    var a := Add(InitialState, p1);
    assert a.items == [CartItem(p1, 1)];
    assert Add(a, p1).items == [CartItem(p1, 2)];
    var b := Add(a, p2);
    assert b.items == [CartItem(p1, 1), CartItem(p2, 1)];
    assert IndexOf(b.items, 1) == Some(0);
    assert b.items[1..] == [CartItem(p2, 1)];
    assert Without(b.items, 1) == [CartItem(p2, 1)];
    var c := Add(InitialState, p2);
    assert c.items == [CartItem(p2, 1)];
    RunUnfold(InitialState, [AddToCart(p1), AddToCart(p1)]);
    RunUnfold(a, [AddToCart(p1)]);
    RunUnfold(InitialState, [AddToCart(p1), AddToCart(p2), RemoveFromCart(1)]);
    RunUnfold(a, [AddToCart(p2), RemoveFromCart(1)]);
    RunUnfold(b, [RemoveFromCart(1)]);
    RunUnfold(InitialState, [AddToCart(p2), UpdateQuantity(2, 0)]);
    RunUnfold(c, [UpdateQuantity(2, 0)]);
  }

  lemma RunUnfold(s: CartState, acts: seq<Action>)
    requires acts != []
    ensures Run(s, acts) == Run(Step(s, acts[0]), acts[1..])
  {
  }
}
