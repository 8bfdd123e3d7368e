/**
 * The product detail screen: the loaded product, its discounted price and
 * stock label, and the quantity stepper with its minus and plus buttons.
 */
module ProductDetail {
  import opened Wrappers
  import opened Text
  import Pricing

  /** The catalog fields the screen reads. */
  datatype ProductInfo = ProductInfo(
    id: int,
    title: string,
    description: string,
    price: real,
    discountPercentage: real,
    rating: real,
    stock: int,
    brand: string,
    category: string,
    images: seq<string>)

  /** The ceiling the plus button clamps to: `product?.stock || 1`, so a
      missing product and a stock of 0 (falsy) both give 1. */
  function StockCeiling(product: Option<ProductInfo>): (c: int)
    ensures product.None? ==> c == 1
    ensures product.Some? && product.value.stock >= 0 ==> c == if product.value.stock > 1 then product.value.stock else 1
  {
    if product.Some? && product.value.stock != 0 then product.value.stock else 1
  }

  /** The largest quantity the stepper can reach from 1: `max(stock, 1)`. */
  function MaxQuantity(product: Option<ProductInfo>): int {
    if product.Some? && product.value.stock > 1 then product.value.stock else 1
  }

  /** A non-negative stock, which every catalog product has. */
  predicate StockKnown(product: Option<ProductInfo>) {
    product.Some? ==> product.value.stock >= 0
  }

  /** The plus button: `Math.min(prev + 1, product?.stock || 1)`. The result
      is one more than before unless that passes the ceiling, in which case it
      is the ceiling. */
  function Incremented(q: int, product: Option<ProductInfo>): (r: int)
    ensures r <= q + 1 && r <= StockCeiling(product)
    ensures r == q + 1 || r == StockCeiling(product)
  {
    if q + 1 <= StockCeiling(product) then q + 1 else StockCeiling(product)
  }

  /** The minus button: `Math.max(prev - 1, 1)`. One less than before, but
      never below 1. */
  function Decremented(q: int): (r: int)
    ensures r >= 1 && r >= q - 1
    ensures r == q - 1 || r == 1
  {
    if q - 1 >= 1 then q - 1 else 1
  }

  /** `handleQuantityChange(increment)`: plus raises the quantity by one
      below the ceiling, minus lowers it by one above 1, and one press never
      leaves the range `[1, max(stock, 1)]`. */
  function QuantityChanged(q: int, product: Option<ProductInfo>, increment: bool): (r: int)
    ensures increment && q + 1 <= StockCeiling(product) ==> r == q + 1
    ensures !increment && q > 1 ==> r == q - 1
    ensures StockKnown(product) && 1 <= q <= MaxQuantity(product) ==> 1 <= r <= MaxQuantity(product)
  {
    if increment then Incremented(q, product) else Decremented(q)
  }

  /** The quantity after a series of presses (`true` is plus), first press first. */
  function AfterPresses(q: int, product: Option<ProductInfo>, presses: seq<bool>): int
    decreases |presses|
  {
    if presses == [] then q
    else AfterPresses(QuantityChanged(q, product, presses[0]), product, presses[1..])
  }

  /** Starting inside `[1, max(stock, 1)]`, no series of presses leaves it. */
  lemma {:induction false} PressesStayInRange(q: int, product: Option<ProductInfo>, presses: seq<bool>)
    requires StockKnown(product)
    requires 1 <= q <= MaxQuantity(product)
    ensures 1 <= AfterPresses(q, product, presses) <= MaxQuantity(product)
    decreases |presses|
  {
    if presses != [] {
      PressesStayInRange(QuantityChanged(q, product, presses[0]), product, presses[1..]);
    }
  }

  /** The minus button is disabled at `quantity <= 1`: from any quantity of
      at least 1, exactly when pressing it would not change the quantity. */
  function MinusDisabled(quantity: int): (b: bool)
    ensures quantity >= 1 ==> (b <==> Decremented(quantity) == quantity)
  {
    quantity <= 1
  }

  /** The plus button is disabled at `quantity >= product.stock`: from any
      quantity of at least 1, exactly when pressing it would not raise the
      quantity (a stock of 0 clamps to 1, a negative stock lowers it). */
  function PlusDisabled(quantity: int, product: ProductInfo): (b: bool)
    ensures quantity >= 1 ==> (b <==> Incremented(quantity, Some(product)) <= quantity)
  {
    quantity >= product.stock
  }

  /** Within the reachable range the buttons agree with the handler: an
      enabled button moves the quantity by one, and pressing a disabled one
      would leave it where it is. */
  lemma ButtonsMatchHandler(quantity: int, product: ProductInfo)
    requires product.stock >= 0
    requires 1 <= quantity <= MaxQuantity(Some(product))
    ensures !MinusDisabled(quantity) ==> Decremented(quantity) == quantity - 1
    ensures MinusDisabled(quantity) ==> Decremented(quantity) == quantity
    ensures !PlusDisabled(quantity, product) ==> Incremented(quantity, Some(product)) == quantity + 1
    ensures PlusDisabled(quantity, product) ==> Incremented(quantity, Some(product)) == quantity
  {
  }

  /** The stock line: "N available" for a positive stock, "Out of stock" otherwise. */
  function StockLabel(stock: int): (s: string)
    ensures stock > 0 ==> s == IntToString(stock) + " available"
    ensures s == "Out of stock" <==> stock <= 0
  {
    if stock > 0 then
      var s := IntToString(stock) + " available";
      assert s[|s| - 1] != "Out of stock"[11];
      s
    else
      "Out of stock"
  }

  /** The price block and discount badge of a loaded product. */
  datatype PriceBlock = PriceBlock(currentPrice: real, originalPrice: Option<real>, discountBadge: bool)

  function PriceBlockFor(p: ProductInfo): (b: PriceBlock)
    ensures b.currentPrice == Pricing.DiscountedPrice(p.price, p.discountPercentage)
    ensures b.originalPrice.Some? <==> p.discountPercentage > 0.0
    ensures b.discountBadge <==> p.discountPercentage > 0.0
    ensures b.originalPrice.Some? ==> b.originalPrice.value == p.price
    ensures p.price >= 0.0 && 0.0 <= p.discountPercentage <= 100.0 ==> 0.0 <= b.currentPrice <= p.price
    ensures b.originalPrice.Some? && p.price > 0.0 ==> b.currentPrice < b.originalPrice.value
  {
    PriceBlock(
      Pricing.DiscountedPrice(p.price, p.discountPercentage),
      if p.discountPercentage > 0.0 then Some(p.price) else None,
      p.discountPercentage > 0.0)
  }

  /** Which of the screen's three renderings is shown. */
  datatype View = Loading | NotFound | Detail(product: ProductInfo)

  function ViewFor(isLoading: bool, product: Option<ProductInfo>): (v: View)
    ensures v.Loading? <==> isLoading
    ensures v.NotFound? <==> !isLoading && product.None?
    ensures v.Detail? ==> product == Some(v.product)
  {
    if isLoading then Loading
    else if product.None? then NotFound
    else Detail(product.value)
  }

  class ProductDetailScreen {
    var product: Option<ProductInfo>
    var isLoading: bool
    var quantity: int

    constructor ()
      ensures product == None && isLoading && quantity == 1
    {
      product := None;
      isLoading := true;
      quantity := 1;
    }

    /** The start of `loadProduct`. */
    method BeginLoad()
      modifies this`isLoading
      ensures isLoading
    {
      isLoading := true;
    }

    /** The end of `loadProduct`: a loaded product replaces the old one; a
        failure (reported in an alert) keeps it. The quantity is not reset. */
    method FinishLoad(loaded: Option<ProductInfo>)
      modifies this`product, this`isLoading
      ensures !isLoading
      ensures product == if loaded.Some? then loaded else old(product)
    {
      if loaded.Some? {
        product := loaded;
      }
      isLoading := false;
    }

    /** `handleQuantityChange(increment)`; it keeps the quantity inside
        `[1, max(stock, 1)]` once it is there. */
    method HandleQuantityChange(increment: bool)
      modifies this`quantity
      ensures quantity == QuantityChanged(old(quantity), product, increment)
      ensures StockKnown(product) && 1 <= old(quantity) <= MaxQuantity(product) ==> 1 <= quantity <= MaxQuantity(product)
    {
      if increment {
        quantity := Incremented(quantity, product);
      } else {
        quantity := Decremented(quantity);
      }
    }
  }
}
