/**
 * The product screen: fetching one product, choosing between the loading,
 * error and detail views, the five-star rating row, and the "was" price.
 */
module ProductScreen {
  import opened Wrappers
  import opened Text
  import Fetch
  import Pricing

  datatype Review = Review(rating: real, comment: string, reviewerName: string, reviewerEmail: string)

  /** The catalog fields the screen reads. */
  datatype Product = Product(
    id: int,
    title: string,
    description: string,
    price: real,
    discountPercentage: real,
    rating: real,
    stock: int,
    brand: string,
    category: string,
    thumbnail: string,
    reviews: seq<Review>)

  /** The three star icons. */
  datatype Star = Full | Half | Outline

  /** `Math.trunc`: the integer part, rounded toward zero. */
  function Trunc(r: real): (t: int)
    ensures r >= 0.0 ==> t == r.Floor
    ensures r < 0.0 ==> t == -((-r).Floor)
  {
    if r >= 0.0 then r.Floor else -((-r).Floor)
  }

  /** JavaScript's `rating % 1` is non-zero exactly when the rating is not
      a whole number. JavaScript's `%` keeps the sign of the dividend, so
      `r % 1` is `r - Math.trunc(r)`, which for a negative `r` is not
      `r - floor(r)`. */
  lemma HalfStarIffFractional(rating: real)
    ensures rating - Trunc(rating) as real != 0.0 <==> rating != rating.Floor as real
  {
    if rating < 0.0 {
      var n := (-rating).Floor;
      if rating == rating.Floor as real {
        assert n == -rating.Floor;
      }
    }
  }

  /** `rating % 1 !== 0`: the half star is asked for exactly when the
      rating is not a whole number. */
  function HasHalfStar(rating: real): (b: bool)
    ensures b <==> rating != rating.Floor as real
  {
    HalfStarIffFractional(rating);
    rating - Trunc(rating) as real != 0.0
  }

  /** The icon at position `i` (1 to 5) for a rating. */
  function StarAt(rating: real, i: int): Star {
    if i <= rating.Floor then Full
    else if i == rating.Floor + 1 && HasHalfStar(rating) then Half
    else Outline
  }

  /** Full, then half, then outline. */
  function Rank(s: Star): nat {
    match s
    case Full => 0
    case Half => 1
    case Outline => 2
  }

  /** `renderStars(rating)`: one icon per position 1 to 5. */
  method RenderStars(rating: real) returns (stars: seq<Star>)
    ensures |stars| == 5
    ensures forall k :: 0 <= k < 5 ==> stars[k] == StarAt(rating, k + 1)
    ensures forall j, k :: 0 <= j < k < 5 ==> Rank(stars[j]) <= Rank(stars[k])
  {
    stars := [];
    var fullStars := rating.Floor;
    var hasHalfStar := HasHalfStar(rating);
    for i := 1 to 6
      invariant |stars| == i - 1
      invariant forall k :: 0 <= k < i - 1 ==> stars[k] == StarAt(rating, k + 1)
      invariant forall j, k :: 0 <= j < k < i - 1 ==> Rank(stars[j]) <= Rank(stars[k])
      invariant i > 1 && stars[i - 2] == Half ==> i - 1 == fullStars + 1
    {
      if i <= fullStars {
        stars := stars + [Full];
      } else if i == fullStars + 1 && hasHalfStar {
        stars := stars + [Half];
      } else {
        stars := stars + [Outline];
      }
    }
  }

  /** Position `i` is full exactly up to the rating's floor. */
  lemma FullStarsUpToFloor(rating: real, i: int)
    ensures StarAt(rating, i) == Full <==> i <= rating.Floor
  {
  }

  /** At most one position is half: the one right after the full stars, and
      only for a rating that is not a whole number. */
  lemma AtMostOneHalfStar(rating: real, i: int, j: int)
    requires StarAt(rating, i) == Half && StarAt(rating, j) == Half
    ensures i == j == rating.Floor + 1
    ensures rating != rating.Floor as real
  {
  }

  /** A rating that is not a whole number shows its half star right after the full ones. */
  lemma FractionalRatingShowsHalf(rating: real)
    requires rating != rating.Floor as real
    ensures StarAt(rating, rating.Floor + 1) == Half
  {
  }

  /** A whole rating from 0 to 5 shows exactly that many full stars and no half. */
  lemma WholeRatingStars(n: int, i: int)
    requires 0 <= n <= 5 && 1 <= i <= 5
    ensures StarAt(n as real, i) == (if i <= n then Full else Outline)
  {
  }

  /** The struck-through "was" price: shown only for a positive discount,
      and then `price + price * discountPercentage / 100`. */
  function OriginalPriceShown(p: Product): (r: Option<real>)
    ensures r.Some? <==> p.discountPercentage > 0.0
    ensures r.Some? ==> r.value == Pricing.OriginalPrice(p.price, p.discountPercentage)
    ensures r.Some? && p.price >= 0.0 ==> r.value >= p.price
    ensures r.Some? && p.price > 0.0 ==> r.value > p.price
  {
    if p.discountPercentage > 0.0 then Some(Pricing.OriginalPrice(p.price, p.discountPercentage)) else None
  }

  /** Which rendering the screen shows. */
  datatype View = LoadingView | ErrorView(message: string) | DetailView(product: Product)

  /** Loading first; then an error (a truthy message) or a missing product
      gives the error view, with `error || 'Product not found'` as its text. */
  function ViewFor(loading: bool, error: Option<string>, product: Option<Product>): (v: View)
    ensures v.LoadingView? <==> loading
    ensures !loading ==> (v.ErrorView? <==> Truthy(error) || product.None?)
    ensures v.ErrorView? ==> v.message == if Truthy(error) then error.value else "Product not found"
    ensures v.DetailView? ==> product == Some(v.product)
  {
    if loading then LoadingView
    else if Truthy(error) || product.None? then
      ErrorView(if Truthy(error) then error.value else "Product not found")
    else DetailView(product.value)
  }

  /** The outcome of `fetch(.../products/{id})` and its decoding. */
  datatype FetchOutcome = Loaded(product: Product) | Failed(failure: Fetch.Failure)

  function ErrorMessage(f: Fetch.Failure): string {
    Fetch.ErrorMessage(f, "Failed to fetch product")
  }

  class ProductScreen {
    var product: Option<Product>
    var loading: bool
    var error: Option<string>

    constructor ()
      ensures product == None && loading && error == None
    {
      product := None;
      loading := true;
      error := None;
    }

    /** The start of `fetchProduct`. */
    method BeginFetch()
      modifies this`loading, this`error
      ensures loading && error == None
    {
      loading := true;
      error := None;
    }

    /** The end of `fetchProduct`: a loaded product is stored; a failure
        stores its message and keeps whatever product was shown before. */
    method FinishFetch(outcome: FetchOutcome)
      modifies this
      ensures !loading
      ensures outcome.Loaded? ==> product == Some(outcome.product) && error == old(error)
      ensures outcome.Failed? ==> product == old(product) && error == Some(ErrorMessage(outcome.failure))
      ensures outcome.Failed? && ErrorMessage(outcome.failure) != "" ==>
        ViewFor(loading, error, product) == ErrorView(ErrorMessage(outcome.failure))
    {
      match outcome {
        case Loaded(p) =>
          product := Some(p);
        case Failed(f) =>
          error := Some(ErrorMessage(f));
      }
      loading := false;
    }
  }
}
