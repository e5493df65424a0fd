/**
 * `ReviewProvider`: the review list held in memory, loaded from and written
 * back to `localStorage` under the key `reviews`.
 */
module ReviewContext {
  import opened Sequences
  import opened Reviews
  import opened Storage

  const ReviewsKey := "reviews"

  /** The lazy initial state: the stored list, or `[]` when nothing (usable) is stored. */
  function LoadReviews(entries: map<string, Stored>): (r: seq<Review>)
    ensures ReviewsKey in entries && entries[ReviewsKey].ReviewList? ==> entries[ReviewsKey] == ReviewList(r)
    ensures !(ReviewsKey in entries && entries[ReviewsKey].ReviewList?) ==> r == []
  {
    if ReviewsKey in entries && entries[ReviewsKey].ReviewList? then entries[ReviewsKey].reviews else []
  }

  /** What was persisted is what the next page load starts from. */
  lemma ReloadRestoresReviews(entries: map<string, Stored>, reviews: seq<Review>)
    ensures LoadReviews(entries[ReviewsKey := ReviewList(reviews)]) == reviews
  {
  }

  class ReviewProvider {
    var reviews: seq<Review>
    const storage: LocalStorage

    /** The persisted copy agrees with the list in memory. */
    ghost predicate Persisted()
      reads this, storage
    {
      LoadReviews(storage.entries) == reviews
    }

    /** Mounting: load the stored list, then the persist effect writes it back. */
    constructor (store: LocalStorage)
      modifies store
      ensures storage == store
      ensures reviews == LoadReviews(old(store.entries))
      ensures store.entries == old(store.entries)[ReviewsKey := ReviewList(reviews)]
      ensures Persisted()
    {
      storage := store;
      reviews := LoadReviews(store.entries);
      new;
      storage.SetItem(ReviewsKey, ReviewList(reviews));
    }

    /**
     * `addReview` followed by the persist effect: the new review, stamped with
     * the instant `now`, goes in front of the list, and the list is stored.
     */
    method AddReview(productId: int, rating: real, comment: string, userName: string, now: nat)
      modifies this, storage
      ensures reviews == [NewReview(productId, rating, comment, userName, now)] + old(reviews)
      ensures storage.entries == old(storage.entries)[ReviewsKey := ReviewList(reviews)]
      ensures Persisted()
    {
      reviews := [NewReview(productId, rating, comment, userName, now)] + reviews;
      storage.SetItem(ReviewsKey, ReviewList(reviews));
    }

    /** `getProductReviews`: every copy of exactly this product's reviews, in list order. */
    function GetProductReviews(productId: int): (r: seq<Review>)
      reads this
      ensures IsSubsequence(r, reviews)
      ensures forall x :: multiset(r)[x] == if x.productId == productId then multiset(reviews)[x] else 0
    {
      ProductReviews(reviews, productId)
    }

    /** `getAverageRating`: 0 without reviews, otherwise the sum of the ratings over their count. */
    function GetAverageRating(productId: int): (r: real)
      reads this
      ensures ProductReviews(reviews, productId) == [] ==> r == 0.0
      ensures ProductReviews(reviews, productId) != [] ==>
                r == Sum(Ratings(ProductReviews(reviews, productId))) / (|ProductReviews(reviews, productId)| as real)
      ensures r == AverageRating(reviews, productId)
    {
      AverageRating(reviews, productId)
    }
  }
}
