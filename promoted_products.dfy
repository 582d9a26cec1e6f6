/**
  The promoted-products screen of app/promoted-products.tsx: liking and
  unliking a product (the liked-id set and the product's like counter change
  together) and the days left on a promotion.
*/
module PromotedProducts {

  /** A sponsored product as listed; `promotedUntil` is a timestamp in milliseconds. */
  datatype PromotedProduct = PromotedProduct(
    id: string,
    vendorName: string,
    productName: string,
    description: string,
    imageUri: string,
    price: string,
    category: string,
    duration: string,
    contactEmail: string,
    contactPhone: string,
    promotedUntil: int,
    views: int,
    likes: int)

  /** The `map` callback of `toggleLike`: the product's likes move by one, down if it was liked. */
  function LikeToggled(p: PromotedProduct, productId: string, wasLiked: bool): PromotedProduct {
    if p.id == productId then p.(likes := if wasLiked then p.likes - 1 else p.likes + 1) else p
  }

  /** The products after `toggleLike(productId)`, given whether it was liked before. */
  function LikesToggled(products: seq<PromotedProduct>, productId: string, wasLiked: bool): (r: seq<PromotedProduct>)
    ensures |r| == |products|
    ensures forall j :: 0 <= j < |products| ==> r[j] == LikeToggled(products[j], productId, wasLiked)
  {
    if products == [] then []
    else [LikeToggled(products[0], productId, wasLiked)] + LikesToggled(products[1..], productId, wasLiked)
  }

  /** The liked set after `toggleLike(productId)`. */
  function LikedToggled(liked: set<string>, productId: string): (r: set<string>)
    ensures productId in r <==> productId !in liked
    ensures forall other :: other != productId ==> (other in r <==> other in liked)
  {
    if productId in liked then liked - {productId} else liked + {productId}
  }

  /** The screen state `toggleLike` works on. */
  datatype LikeState = LikeState(products: seq<PromotedProduct>, liked: set<string>)

  /** `toggleLike(productId)` as a transition of the screen state. */
  function Toggled(st: LikeState, productId: string): LikeState {
    LikeState(
      LikesToggled(st.products, productId, productId in st.liked),
      LikedToggled(st.liked, productId))
  }

  /** Undoing a like change: toggling back with the opposite flag restores every product. */
  lemma {:induction false} LikesToggledUndo(products: seq<PromotedProduct>, productId: string, wasLiked: bool)
    ensures LikesToggled(LikesToggled(products, productId, wasLiked), productId, !wasLiked) == products
  {
    if products != [] {
      LikesToggledUndo(products[1..], productId, wasLiked);
      var once := LikesToggled(products, productId, wasLiked);
      assert once[1..] == LikesToggled(products[1..], productId, wasLiked);
    }
  }

  /** Toggling the same product twice restores both the liked set and every like counter. */
  lemma ToggleTwiceRestores(st: LikeState, productId: string)
    ensures Toggled(Toggled(st, productId), productId) == st
  {
    LikesToggledUndo(st.products, productId, productId in st.liked);
    var liked := LikedToggled(LikedToggled(st.liked, productId), productId);
    assert liked == st.liked;
  }

  /**
    The toggled product's likes go down by one when it was liked and up by one
    otherwise; every other product, and the list's length and order, stay as they were.
  */
  lemma ToggleLikeCounts(st: LikeState, productId: string, j: int)
    requires 0 <= j < |st.products|
    ensures |Toggled(st, productId).products| == |st.products|
    ensures st.products[j].id == productId ==>
      Toggled(st, productId).products[j] ==
        st.products[j].(likes := st.products[j].likes + (if productId in st.liked then -1 else 1))
    ensures st.products[j].id != productId ==> Toggled(st, productId).products[j] == st.products[j]
  {
  }

  /** The screen's state: the listed products and the ids the user has liked. */
  class PromotedProductsScreen {
    var products: seq<PromotedProduct>
    var likedProducts: set<string>

    constructor ()
      ensures products == [] && likedProducts == {}
    {
      products := [];
      likedProducts := {};
    }

    /** `toggleLike(productId)`: flips membership in the liked set and moves that product's likes. */
    method ToggleLike(productId: string)
      modifies this
      ensures likedProducts == LikedToggled(old(likedProducts), productId)
      ensures products == LikesToggled(old(products), productId, productId in old(likedProducts))
    {
      var newLikedProducts := likedProducts;
      if productId in likedProducts {
        newLikedProducts := newLikedProducts - {productId};
      } else {
        newLikedProducts := newLikedProducts + {productId};
      }
      var wasLiked := productId in likedProducts;
      likedProducts := newLikedProducts;
      products := LikesToggled(products, productId, wasLiked);
    }
  }

  // ---------------------------------------------------------------------------
  // Days remaining
  // ---------------------------------------------------------------------------

  /** `1000 * 60 * 60 * 24`: milliseconds in a day. */
  const MsPerDay: int := 1000 * 60 * 60 * 24

  /** `Math.ceil(a / b)` for a positive divisor (Dafny's `/` rounds down for `b > 0`). */
  function CeilDiv(a: int, b: int): (r: int)
    requires b > 0
    ensures (r - 1) * b < a <= r * b
  {
    -((-a) / b)
  }

  /**
    `getDaysRemaining`, with the clock reading passed in as `now`: whole days left,
    rounded up, and never negative.
  */
  function DaysRemaining(promotedUntil: int, now: int): (r: int)
    ensures r >= 0
    ensures promotedUntil - now <= 0 ==> r == 0
    ensures promotedUntil - now > 0 ==>
      (r - 1) * MsPerDay < promotedUntil - now <= r * MsPerDay
  {
    var diffTime := promotedUntil - now;
    var diffDays := CeilDiv(diffTime, MsPerDay);
    if 0 < diffDays then diffDays else 0
  }

  /** A later end date never leaves fewer days. */
  lemma DaysRemainingMonotone(until1: int, until2: int, now: int)
    requires until1 <= until2
    ensures DaysRemaining(until1, now) <= DaysRemaining(until2, now)
  {
  }
}
