/**
 * The product card of the product grid: a heart that toggles a local
 * "liked" flag, a discount badge, and the discounted and original prices.
 */
module ProductCard {
  import opened Wrappers
  import Pricing

  /** The `product` prop. */
  datatype CardProduct = CardProduct(
    id: int,
    title: string,
    price: real,
    discountPercentage: real,
    rating: real,
    thumbnail: string,
    category: string)

  datatype Heart = FilledHeart | EmptyHeart

  /** What the card draws for a product and a liked flag. */
  datatype CardView = CardView(
    heart: Heart,
    discountBadge: bool,
    price: real,
    originalPrice: Option<real>,
    title: string,
    category: string,
    rating: real)

  /** The badge and the struck-through original price both appear exactly
      for a positive discount; the shown price is the discounted one and the
      struck-through one is the catalog price. */
  function Render(p: CardProduct, isLiked: bool): (v: CardView)
    ensures v.heart == FilledHeart <==> isLiked
    ensures v.discountBadge <==> p.discountPercentage > 0.0
    ensures v.originalPrice.Some? <==> v.discountBadge
    ensures v.originalPrice.Some? ==> v.originalPrice.value == p.price
    ensures v.price == Pricing.DiscountedPrice(p.price, p.discountPercentage)
    ensures p.price >= 0.0 && 0.0 <= p.discountPercentage <= 100.0 ==> 0.0 <= v.price <= p.price
  {
    CardView(
      if isLiked then FilledHeart else EmptyHeart,
      p.discountPercentage > 0.0,
      Pricing.DiscountedPrice(p.price, p.discountPercentage),
      if p.discountPercentage > 0.0 then Some(p.price) else None,
      p.title,
      p.category,
      p.rating)
  }

  /** Liking changes the heart and nothing else on the card. */
  lemma LikeChangesOnlyHeart(p: CardProduct, a: bool, b: bool)
    ensures Render(p, a).(heart := EmptyHeart) == Render(p, b).(heart := EmptyHeart)
  {
  }

  /** The liked flag after `n` presses of the heart. */
  function LikedAfter(start: bool, n: nat): bool {
    if n == 0 then start else !LikedAfter(start, n - 1)
  }

  /** From the initial `false`, the card is liked exactly after an odd
      number of presses; an even number leaves it unliked. */
  lemma {:induction false} LikedAfterOddPresses(n: nat)
    ensures LikedAfter(false, n) <==> n % 2 == 1
  {
    if n > 0 {
      LikedAfterOddPresses(n - 1);
    }
  }

  class ProductCard {
    const product: CardProduct
    var isLiked: bool

    /** A new card starts unliked. */
    constructor (product: CardProduct)
      ensures this.product == product && !isLiked
    {
      this.product := product;
      isLiked := false;
    }

    /** `handleLike`: flip the flag. */
    method HandleLike()
      modifies this
      ensures isLiked == !old(isLiked)
    {
      isLiked := !isLiked;
    }
  }
}
