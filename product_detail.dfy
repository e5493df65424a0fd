/**
 * The product detail page: the quantity selector and the two buttons that put
 * the shown product into the cart, the second of which then opens the cart.
 */
module ProductDetail {
  import opened Wrappers
  import opened Sequences
  import opened Text
  import opened Catalog
  import opened Effects

  /** The two buttons of the quantity selector. */
  datatype QuantityAction = Decrement | Increment

  /**
   * `Math.max(1, quantity - 1)` and `quantity + 1`: `-` gives the larger of 1
   * and one less, `+` one more.
   */
  function Step(quantity: int, action: QuantityAction): (r: int)
    ensures action.Decrement? ==> r >= 1 && r >= quantity - 1 && (r == 1 || r == quantity - 1)
    ensures action.Increment? ==> r == quantity + 1
  {
    match action
    case Decrement => if quantity - 1 < 1 then 1 else quantity - 1
    case Increment => quantity + 1
  }

  /** The quantity after pressing the buttons in the given order. */
  function Run(quantity: int, actions: seq<QuantityAction>): int
    decreases |actions|
  {
    if actions == [] then quantity else Run(Step(quantity, actions[0]), actions[1..])
  }

  /**
   * Starting from a positive quantity (the page starts at 1), no sequence of
   * presses takes it below 1, and each press adds at most one.
   */
  lemma {:induction false} RunBounds(quantity: int, actions: seq<QuantityAction>)
    requires quantity >= 1
    ensures 1 <= Run(quantity, actions) <= quantity + |actions|
    decreases |actions|
  {
    if actions != [] {
      RunBounds(Step(quantity, actions[0]), actions[1..]);
    }
  }

  /** `-` undoes `+`; `+` undoes `-` except at 1, where `-` does nothing. */
  lemma StepsUndo(quantity: int)
    requires quantity >= 1
    ensures Step(Step(quantity, Increment), Decrement) == quantity
    ensures quantity > 1 ==> Step(Step(quantity, Decrement), Increment) == quantity
    ensures quantity == 1 ==> Step(quantity, Decrement) == 1
  {
  }

  /** The toast `handleAddToCart` shows after its loop. */
  function AddedToast(quantity: int): Effect {
    ShowToast("Added " + IntToString(quantity) + " item(s) to cart! \U{1F389}", Success)
  }

  /**
   * The effects of `handleAddToCart`: nothing without a product; otherwise
   * `quantity` calls of `addToCart` with it, then the toast.
   */
  function AddToCartEffects(product: Option<Product>, quantity: int): (r: seq<Effect>)
    ensures product.None? ==> r == []
    ensures product.Some? && quantity >= 0 ==>
              |r| == quantity + 1 && r[quantity] == AddedToast(quantity)
              && multiset(r)[AddToCart(product.value)] == quantity
              && forall i :: 0 <= i < quantity ==> r[i] == AddToCart(product.value)
  {
    match product
    case None => []
    case Some(p) =>
      var n := if quantity < 0 then 0 else quantity;
      RepeatCount(AddToCart(p), n);
      assert multiset([AddedToast(quantity)])[AddToCart(p)] == 0;
      Repeat(AddToCart(p), n) + [AddedToast(quantity)]
  }

  class ProductDetailPage {
    var product: Option<Product>
    var quantity: int

    /** The selector never shows a quantity below 1. */
    ghost predicate Valid()
      reads this
    {
      quantity >= 1
    }

    /** The page once the fetch has settled: the product, or none when it was not found. */
    constructor (product: Option<Product>)
      ensures this.product == product && quantity == 1
      ensures Valid()
    {
      this.product := product;
      quantity := 1;
    }

    /** The `-` button. */
    method Decrement()
      modifies this
      ensures product == old(product)
      ensures quantity == Step(old(quantity), QuantityAction.Decrement)
      ensures Valid()
    {
      quantity := Step(quantity, QuantityAction.Decrement);
    }

    /** The `+` button. */
    method Increment()
      requires Valid()
      modifies this
      ensures product == old(product)
      ensures quantity == Step(old(quantity), QuantityAction.Increment)
      ensures Valid()
    {
      quantity := Step(quantity, QuantityAction.Increment);
    }

    /** `handleAddToCart`: one `addToCart` per unit of the quantity, then the toast. */
    method HandleAddToCart() returns (effects: seq<Effect>)
      requires Valid()
      ensures effects == AddToCartEffects(product, quantity)
      ensures product.Some? ==> |effects| == quantity + 1 && effects[quantity] == AddedToast(quantity)
    {
      effects := [];
      if product.Some? {
        var i := 0;
        while i < quantity
          invariant 0 <= i <= quantity
          invariant effects == Repeat(AddToCart(product.value), i)
        {
          effects := effects + [AddToCart(product.value)];
          i := i + 1;
        }
        effects := effects + [AddedToast(quantity)];
      }
    }

    /** `handleBuyNow`: the effects of `handleAddToCart`, then navigation to the cart. */
    method HandleBuyNow() returns (effects: seq<Effect>)
      requires Valid()
      ensures effects == AddToCartEffects(product, quantity) + [Navigate("/cart")]
    {
      effects := HandleAddToCart();
      effects := effects + [Navigate("/cart")];
    }
  }
}
