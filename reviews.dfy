/**
 * Product reviews as values: the review record, the per-product selection
 * `getProductReviews` makes, and the mean rating `getAverageRating` reports.
 */
module Reviews {
  import opened Sequences
  import opened Text

  /** A review; `date` is the creation instant in milliseconds since the epoch. */
  datatype Review = Review(
    id: string, productId: int, userId: int, userName: string,
    rating: real, comment: string, date: nat)

  /** The review `addReview` creates at instant `now`: id and user id are both taken from the clock. */
  function NewReview(productId: int, rating: real, comment: string, userName: string, now: nat): (r: Review)
    ensures r.productId == productId && r.rating == rating
    ensures r.userName == userName && r.comment == comment
    ensures r.id == "REV-" + NatToString(now) && r.userId == now && r.date == now
  {
    Review("REV-" + NatToString(now), productId, now, userName, rating, comment, now)
  }

  /** `reviews.filter(review => review.productId === productId)`. */
  function ProductReviews(reviews: seq<Review>, productId: int): (r: seq<Review>)
    ensures IsSubsequence(r, reviews)
    ensures forall x :: x in r <==> x in reviews && x.productId == productId
    ensures forall x :: multiset(r)[x] == if x.productId == productId then multiset(reviews)[x] else 0
  {
    var keep := (rv: Review) => rv.productId == productId;
    forall x
      ensures x in Filter(reviews, keep) <==> x in reviews && x.productId == productId
    {
      FilterMembership(reviews, keep, x);
    }
    Filter(reviews, keep)
  }

  /** The ratings of a list of reviews, in order. */
  function Ratings(reviews: seq<Review>): (r: seq<real>)
    ensures |r| == |reviews|
    ensures forall i :: 0 <= i < |reviews| ==> r[i] == reviews[i].rating
  {
    seq(|reviews|, i requires 0 <= i < |reviews| => reviews[i].rating)
  }

  /** `reduce((acc, x) => acc + x, 0)` over exact numbers. */
  function Sum(xs: seq<real>): real {
    if xs == [] then 0.0 else xs[0] + Sum(xs[1..])
  }

  /** The arithmetic mean, 0 for an empty list. */
  function Mean(xs: seq<real>): (r: real)
    ensures xs == [] ==> r == 0.0
    ensures xs != [] ==> r * (|xs| as real) == Sum(xs)
  {
    if |xs| == 0 then 0.0
    else
      var n := |xs| as real;
      DivisionCancels(Sum(xs), n);
      Sum(xs) / n
  }

  lemma DivisionCancels(x: real, n: real)
    requires n != 0.0
    ensures (x / n) * n == x
  {
  }

  /** `getAverageRating`: 0 for a product nobody reviewed, otherwise the mean of its ratings. */
  function AverageRating(reviews: seq<Review>, productId: int): (r: real)
    ensures ProductReviews(reviews, productId) == [] ==> r == 0.0
    ensures ProductReviews(reviews, productId) != [] ==>
              r == Sum(Ratings(ProductReviews(reviews, productId))) / (|ProductReviews(reviews, productId)| as real)
  {
    Mean(Ratings(ProductReviews(reviews, productId)))
  }

  /**
   * Prepending a review (what `addReview` does to the list) adds it to the
   * front of its own product's selection and leaves every other product's
   * selection as it was.
   */
  lemma ProductReviewsPrepend(rv: Review, reviews: seq<Review>, productId: int)
    ensures ProductReviews([rv] + reviews, productId) ==
              if rv.productId == productId then [rv] + ProductReviews(reviews, productId)
              else ProductReviews(reviews, productId)
  {
    assert ([rv] + reviews)[1..] == reviews;
  }

  lemma SumPrepend(x: real, xs: seq<real>)
    ensures Sum([x] + xs) == x + Sum(xs)
  {
    assert ([x] + xs)[1..] == xs;
  }

  /** The mean of a list with one more element is the old sum plus that element over the new length. */
  lemma MeanPrepend(x: real, xs: seq<real>)
    ensures Mean([x] + xs) == (x + Sum(xs)) / ((|xs| + 1) as real)
  {
    var ys := [x] + xs;
    assert |ys| == |xs| + 1;
    SumPrepend(x, xs);
  }

  /**
   * After `addReview`, the reviewed product's average is the mean of the new
   * rating followed by its earlier ratings; with `MeanPrepend`, that is the
   * old sum plus the new rating over the old count plus one.
   */
  lemma AverageAfterAdd(rv: Review, reviews: seq<Review>)
    ensures AverageRating([rv] + reviews, rv.productId)
            == Mean([rv.rating] + Ratings(ProductReviews(reviews, rv.productId)))
  {
    var pr := ProductReviews(reviews, rv.productId);
    ProductReviewsPrepend(rv, reviews, rv.productId);
    RatingsPrepend(rv, pr);
  }

  /** Adding a review leaves the average of every other product unchanged. */
  lemma AverageOfOtherProduct(rv: Review, reviews: seq<Review>, productId: int)
    requires rv.productId != productId
    ensures AverageRating([rv] + reviews, productId) == AverageRating(reviews, productId)
  {
    ProductReviewsPrepend(rv, reviews, productId);
  }

  lemma RatingsPrepend(rv: Review, reviews: seq<Review>)
    ensures Ratings([rv] + reviews) == [rv.rating] + Ratings(reviews)
  {
    assert forall i :: 1 <= i < |reviews| + 1 ==> ([rv] + reviews)[i] == reviews[i - 1];
  }

  /** Numbers that all lie in `[lo, hi]` add up to between `lo` and `hi` times their count. */
  lemma {:induction false} SumBounds(xs: seq<real>, lo: real, hi: real)
    requires forall i :: 0 <= i < |xs| ==> lo <= xs[i] <= hi
    ensures lo * (|xs| as real) <= Sum(xs) <= hi * (|xs| as real)
  {
    if xs != [] {
      SumBounds(xs[1..], lo, hi);
      var n := |xs[1..]| as real;
      assert lo * (n + 1.0) == lo * n + lo;
      assert hi * (n + 1.0) == hi * n + hi;
    }
  }

  /** The mean of numbers that all lie in `[lo, hi]` lies there too. */
  lemma MeanBounds(xs: seq<real>, lo: real, hi: real)
    requires forall i :: 0 <= i < |xs| ==> lo <= xs[i] <= hi
    requires xs != []
    ensures lo <= Mean(xs) <= hi
  {
    SumBounds(xs, lo, hi);
    var n := |xs| as real;
    ScaleCancels(lo, Mean(xs), n);
    ScaleCancels(Mean(xs), hi, n);
  }

  lemma ScaleCancels(a: real, b: real, n: real)
    requires n > 0.0 && a * n <= b * n
    ensures a <= b
  {
    assert (b - a) * n >= 0.0;
  }

  /**
   * The average of a reviewed product lies between the smallest and largest
   * rating its reviews carry.
   */
  lemma AverageRatingBounds(reviews: seq<Review>, productId: int, lo: real, hi: real)
    requires forall i :: 0 <= i < |reviews| ==> lo <= reviews[i].rating <= hi
    requires ProductReviews(reviews, productId) != []
    ensures lo <= AverageRating(reviews, productId) <= hi
  {
    var pr := ProductReviews(reviews, productId);
    var xs := Ratings(pr);
    forall i | 0 <= i < |xs|
      ensures lo <= xs[i] <= hi
    {
      assert pr[i] in reviews;
    }
    MeanBounds(xs, lo, hi);
  }
}
