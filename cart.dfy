/** The point-of-sale cart: the helpers that build a new list of lines from the
    current one (add, change quantity, remove, clear) and the derived totals. */
module Cart {
  import opened Common
  import opened Types
  import opened Seqs

  /** The cart invariant: every line holds at least one unit, and no product
      appears on two lines. */
  predicate Valid(cart: seq<CartItem>)
  {
    && (forall i :: 0 <= i < |cart| ==> cart[i].quantity >= 1)
    && (forall i, j :: 0 <= i < j < |cart| ==> cart[i].product.id != cart[j].product.id)
  }

  /** `cart.find(item => item.product.id === id)`: the first line for the product. */
  function Find(cart: seq<CartItem>, id: Id): (r: Option<nat>)
    ensures r.None? <==> forall i :: 0 <= i < |cart| ==> cart[i].product.id != id
    ensures r.Some? ==> r.value < |cart| && cart[r.value].product.id == id
    ensures r.Some? ==> forall i :: 0 <= i < r.value ==> cart[i].product.id != id
  {
    if cart == [] then None
    else if cart[0].product.id == id then Some(0)
    else match Find(cart[1..], id)
      case None => None
      case Some(i) => Some(i + 1)
  }

  /** How a mapped line's quantity changes: `quantity + 1` when a product is
      added again, `max(1, quantity + change)` for a quantity change. */
  datatype Adjust = PlusOne | AtLeastOne(change: int)

  function Apply(a: Adjust, q: int): int
  {
    match a
    case PlusOne => q + 1
    case AtLeastOne(change) => MaxInt(1, q + change)
  }

  /** `cart.map(item => item.product.id === id ? {...item, quantity: f(item.quantity)} : item)`. */
  function MapMatching(cart: seq<CartItem>, id: Id, f: Adjust): (r: seq<CartItem>)
    ensures |r| == |cart|
  {
    seq(|cart|, i requires 0 <= i < |cart| =>
      if cart[i].product.id == id then cart[i].(quantity := Apply(f, cart[i].quantity)) else cart[i])
  }

  lemma MapMatchingKeepsProducts(cart: seq<CartItem>, id: Id, f: Adjust)
    ensures forall i :: 0 <= i < |cart| ==> MapMatching(cart, id, f)[i].product == cart[i].product
  {
  }

  /** With distinct product ids, mapping over the matching lines changes the one
      line found for the product, or nothing when there is none. */
  lemma MapMatchingOne(cart: seq<CartItem>, id: Id, f: Adjust)
    requires Valid(cart)
    ensures Find(cart, id).None? ==> MapMatching(cart, id, f) == cart
    ensures Find(cart, id).Some? ==>
      var i := Find(cart, id).value;
      MapMatching(cart, id, f) == cart[i := cart[i].(quantity := Apply(f, cart[i].quantity))]
  {
  }

  /** Adds one unit of `product`: an existing line for it grows by one, otherwise
      a new line with quantity 1 is appended. An existing line keeps the product
      record it was added with. */
  function AddToCart(cart: seq<CartItem>, product: Product): (r: seq<CartItem>)
    ensures Find(cart, product.id).None? ==> r == cart + [CartItem(product, 1)]
    ensures Find(r, product.id).Some?
  {
    assert Find(cart, product.id).None? ==> (cart + [CartItem(product, 1)])[|cart|].product.id == product.id;
    MapMatchingKeepsProducts(cart, product.id, PlusOne);
    if Find(cart, product.id).Some? then MapMatching(cart, product.id, PlusOne)
    else cart + [CartItem(product, 1)]
  }

  /** Adding a product already in the cart raises its line by exactly one and
      leaves every other line as it was; the cart invariant is kept. */
  lemma AddToCartExisting(cart: seq<CartItem>, product: Product, i: nat)
    requires Valid(cart)
    requires Find(cart, product.id) == Some(i)
    ensures AddToCart(cart, product) == cart[i := cart[i].(quantity := cart[i].quantity + 1)]
  {
    MapMatchingOne(cart, product.id, PlusOne);
  }

  lemma AddToCartValid(cart: seq<CartItem>, product: Product)
    requires Valid(cart)
    ensures Valid(AddToCart(cart, product))
  {
    if Find(cart, product.id).Some? {
      var i := Find(cart, product.id).value;
      AddToCartExisting(cart, product, i);
      SetQuantityValid(cart, i, cart[i].quantity + 1);
    }
  }

  /** The filter condition of a removal: the line is not for product `id`. */
  function OtherThan(id: Id): CartItem -> bool
  {
    (item: CartItem) => item.product.id != id
  }

  /** `cart.filter(item => item.product.id !== id)`. */
  function RemoveFromCart(cart: seq<CartItem>, id: Id): (r: seq<CartItem>)
    ensures Find(r, id).None?
    ensures |r| <= |cart|
  {
    Keep(cart, OtherThan(id))
  }

  /** With distinct product ids, removing splices out the product's one line,
      and removing a product that is not in the cart changes nothing. */
  lemma RemoveFromCartSplice(cart: seq<CartItem>, id: Id)
    requires Valid(cart)
    ensures Find(cart, id).None? ==> RemoveFromCart(cart, id) == cart
    ensures Find(cart, id).Some? ==>
      var i := Find(cart, id).value;
      RemoveFromCart(cart, id) == cart[..i] + cart[i + 1..]
  {
    match Find(cart, id)
    case None =>
      KeepAll(cart, OtherThan(id));
    case Some(i) =>
      KeepDropOne(cart, i, OtherThan(id));
  }

  lemma RemoveFromCartValid(cart: seq<CartItem>, id: Id)
    requires Valid(cart)
    ensures Valid(RemoveFromCart(cart, id))
  {
    RemoveFromCartSplice(cart, id);
    if Find(cart, id).Some? {
      DeleteValid(cart, Find(cart, id).value);
    }
  }

  /** Deleting one line keeps the cart invariant. */
  lemma DeleteValid(cart: seq<CartItem>, i: nat)
    requires Valid(cart)
    requires i < |cart|
    ensures Valid(cart[..i] + cart[i + 1..])
  {
    var r := cart[..i] + cart[i + 1..];
    forall k | 0 <= k < |r|
      ensures r[k] == cart[if k < i then k else k + 1]
    {
    }
    forall a, b | 0 <= a < b < |r|
      ensures r[a].product.id != r[b].product.id
    {
      var a', b' := if a < i then a else a + 1, if b < i then b else b + 1;
      assert r[a] == cart[a'] && r[b] == cart[b'];
    }
  }

  /** Changes the line for `id` by `change` units: a line that would reach zero or
      less is removed; otherwise its quantity becomes `max(1, quantity + change)`. */
  function UpdateQuantity(cart: seq<CartItem>, id: Id, change: int): (r: seq<CartItem>)
  {
    var found := Find(cart, id);
    if found.Some? && cart[found.value].quantity + change <= 0 then RemoveFromCart(cart, id)
    else MapMatching(cart, id, AtLeastOne(change))
  }

  /** The three behaviours of a quantity change on a valid cart: a product not
      in the cart leaves it unchanged; a line that would fall to zero or below is
      spliced out; otherwise the line's quantity becomes `quantity + change`. */
  lemma UpdateQuantityAbsent(cart: seq<CartItem>, id: Id, change: int)
    requires Valid(cart) && Find(cart, id).None?
    ensures UpdateQuantity(cart, id, change) == cart
  {
    MapMatchingOne(cart, id, AtLeastOne(change));
  }

  lemma UpdateQuantityCases(cart: seq<CartItem>, id: Id, change: int, i: nat)
    requires Valid(cart) && Find(cart, id) == Some(i)
    ensures cart[i].quantity + change <= 0 ==> UpdateQuantity(cart, id, change) == cart[..i] + cart[i + 1..]
    ensures cart[i].quantity + change > 0 ==>
      UpdateQuantity(cart, id, change) == cart[i := cart[i].(quantity := cart[i].quantity + change)]
  {
    if cart[i].quantity + change <= 0 {
      RemoveFromCartSplice(cart, id);
    } else {
      MapMatchingOne(cart, id, AtLeastOne(change));
    }
  }

  /** A quantity change keeps the cart invariant. */
  lemma UpdateQuantityValid(cart: seq<CartItem>, id: Id, change: int)
    requires Valid(cart)
    ensures Valid(UpdateQuantity(cart, id, change))
  {
    var found := Find(cart, id);
    if found.Some? {
      var i := found.value;
      UpdateQuantityCases(cart, id, change, i);
      if cart[i].quantity + change <= 0 {
        DeleteValid(cart, i);
      } else {
        SetQuantityValid(cart, i, cart[i].quantity + change);
      }
    } else {
      UpdateQuantityAbsent(cart, id, change);
    }
  }

  /** Setting one line to a positive quantity keeps the cart invariant. */
  lemma SetQuantityValid(cart: seq<CartItem>, i: nat, q: int)
    requires Valid(cart)
    requires i < |cart| && q >= 1
    ensures Valid(cart[i := cart[i].(quantity := q)])
  {
    var r := cart[i := cart[i].(quantity := q)];
    assert forall k :: 0 <= k < |r| ==> r[k].product == cart[k].product;
  }

  /** `setCart([])`. */
  function ClearCart(): (r: seq<CartItem>)
    ensures |r| == 0
  {
    []
  }

  /** The amount one line contributes: unit price times quantity. */
  function LineTotal(item: CartItem): real
  {
    item.product.price * item.quantity as real
  }

  /** `cart.reduce((sum, item) => sum + item.product.price * item.quantity, 0)`. */
  function Subtotal(cart: seq<CartItem>): real
  {
    SumReal(cart, LineTotal)
  }

  /** The subtotal is the sum of price times quantity over the lines. */
  lemma SubtotalCons(item: CartItem, rest: seq<CartItem>)
    ensures Subtotal([item] + rest) == item.product.price * item.quantity as real + Subtotal(rest)
  {
    assert ([item] + rest)[1..] == rest;
  }

  lemma SubtotalAppend(cart: seq<CartItem>, item: CartItem)
    ensures Subtotal(cart + [item]) == Subtotal(cart) + item.product.price * item.quantity as real
  {
    SumAppend(cart, [item], LineTotal);
  }

  /** One more unit on a line adds one unit price to its amount. */
  lemma LineTotalPlusOne(item: CartItem)
    ensures LineTotal(item.(quantity := item.quantity + 1)) == LineTotal(item) + item.product.price
  {
    assert (item.quantity + 1) as real == item.quantity as real + 1.0;
  }

  /** Adding a product raises the subtotal by one unit price: that of the record
      already in the cart, or that of the product when its line is new. */
  lemma AddToCartSubtotal(cart: seq<CartItem>, product: Product)
    requires Valid(cart)
    ensures Find(cart, product.id).Some? ==>
      Subtotal(AddToCart(cart, product)) == Subtotal(cart) + cart[Find(cart, product.id).value].product.price
    ensures Find(cart, product.id).None? ==>
      Subtotal(AddToCart(cart, product)) == Subtotal(cart) + product.price
  {
    if Find(cart, product.id).Some? {
      AddToCartSubtotalExisting(cart, product);
    } else {
      SubtotalAppend(cart, CartItem(product, 1));
    }
  }

  lemma AddToCartSubtotalExisting(cart: seq<CartItem>, product: Product)
    requires Valid(cart)
    requires Find(cart, product.id).Some?
    ensures var i := Find(cart, product.id).value;
      Subtotal(AddToCart(cart, product)) == Subtotal(cart) + cart[i].product.price
  {
    var i := Find(cart, product.id).value;
    AddToCartExisting(cart, product, i);
    SubtotalBumpOf(cart, i, AddToCart(cart, product));
  }

  lemma SubtotalBumpOf(cart: seq<CartItem>, i: nat, bumped: seq<CartItem>)
    requires i < |cart|
    requires bumped == cart[i := cart[i].(quantity := cart[i].quantity + 1)]
    ensures Subtotal(bumped) == Subtotal(cart) + cart[i].product.price
  {
    SubtotalBump(cart, i);
  }

  lemma SubtotalBump(cart: seq<CartItem>, i: nat)
    requires i < |cart|
    ensures Subtotal(cart[i := cart[i].(quantity := cart[i].quantity + 1)]) == Subtotal(cart) + cart[i].product.price
  {
    SumUpdate(cart, i, cart[i].(quantity := cart[i].quantity + 1), LineTotal);
    LineTotalPlusOne(cart[i]);
  }

  /** `max(0, subtotal - parseFloat(discount || '0'))`. */
  function Total(cart: seq<CartItem>, discount: NumberField): (r: real)
    ensures r >= 0.0
    ensures OrZero(discount) <= Subtotal(cart) ==> r == Subtotal(cart) - OrZero(discount)
    ensures OrZero(discount) > Subtotal(cart) ==> r == 0.0
  {
    MaxReal(0.0, Subtotal(cart) - OrZero(discount))
  }

  /** An empty discount field is a discount of zero. */
  lemma EmptyDiscount(cart: seq<CartItem>)
    ensures Total(cart, Empty) == MaxReal(0.0, Subtotal(cart))
    ensures Total(cart, Empty) == Total(cart, Entered(0.0))
  {
  }
}
