/**
 * The Reviews page: a cached review list with delete and a verified flag
 * that can be flipped.
 */
module Reviews {
  import opened Api

  datatype Review = Review(id: string, isVerified: bool)

  /** The body of the verify toggle's edit call. */
  datatype ReviewPatch = ReviewPatch(isVerified: bool)

  /** The page state of the Reviews page. */
  class ReviewsPage {
    var reviews: seq<Review>
    var loading: bool
    ghost var calls: seq<Call<ReviewPatch>>
    ghost var notices: seq<Notice>

    constructor ()
      ensures reviews == [] && !loading && calls == [] && notices == []
    {
      reviews, loading := [], false;
      calls, notices := [], [];
    }

    /** `fetchReviews`: success replaces the list; failures and throws leave it; loading ends false. */
    method Fetch(reply: Reply<seq<Review>>)
      modifies this`reviews, this`loading, this`calls, this`notices
      ensures calls == old(calls) + [FetchList]
      ensures reviews == if reply.Success? then reply.data else old(reviews)
      ensures notices == old(notices) + match reply
        case Success(_) => []
        case Failure(message) => [Failed(MessageOr(message, "Failed to load reviews"))]
        case Thrown => [Failed("Server error while loading reviews")]
      ensures !loading
    {
      loading := true;
      calls := calls + [FetchList];
      match reply {
        case Success(list) =>
          reviews := list;
        case Failure(message) =>
          notices := notices + [Failed(MessageOr(message, "Failed to load reviews"))];
        case Thrown =>
          notices := notices + [Failed("Server error while loading reviews")];
      }
      loading := false;
    }

    /** `handleDelete(id)`: asks first; success refetches, anything else leaves the list. */
    method Delete(id: string, confirmed: bool, reply: Reply<()>, refetch: Reply<seq<Review>>)
      modifies this`reviews, this`loading, this`calls, this`notices
      ensures !confirmed ==>
        calls == old(calls) + [Confirm("Are you sure you want to delete this review?")]
        && reviews == old(reviews) && loading == old(loading) && notices == old(notices)
      ensures confirmed ==>
        && calls == old(calls) + [Confirm("Are you sure you want to delete this review?"), Api.Delete(id)]
             + (if reply.Success? then [FetchList] else [])
        && reviews == (if reply.Success? && refetch.Success? then refetch.data else old(reviews))
        && !loading
        && notices == old(notices) + match reply
             case Success(_) =>
               [Succeeded("Review deleted successfully")] + (match refetch
                 case Success(_) => []
                 case Failure(message) => [Failed(MessageOr(message, "Failed to load reviews"))]
                 case Thrown => [Failed("Server error while loading reviews")])
             case Failure(message) => [Failed(message)]
             case Thrown => [Failed("Failed to delete review")]
    {
      calls := calls + [Confirm("Are you sure you want to delete this review?")];
      if !confirmed {
        return;
      }
      loading := true;
      calls := calls + [Api.Delete(id)];
      match reply {
        case Success(_) =>
          notices := notices + [Succeeded("Review deleted successfully")];
          Fetch(refetch);
        case Failure(message) =>
          notices := notices + [Failed(message)];
        case Thrown =>
          notices := notices + [Failed("Failed to delete review")];
      }
      loading := false;
    }

    /**
     * `handleVerifyToggle(review)`: sends the negation of the review's flag;
     * success reports by the previous flag and refetches, anything else
     * leaves the list.
     */
    method VerifyToggle(review: Review, reply: Reply<()>, refetch: Reply<seq<Review>>)
      modifies this`reviews, this`loading, this`calls, this`notices
      ensures calls == old(calls) + [Update(review.id, ReviewPatch(!review.isVerified))]
        + if reply.Success? then [FetchList] else []
      ensures calls[|old(calls)|].payload.isVerified != review.isVerified
      ensures reviews == if reply.Success? && refetch.Success? then refetch.data else old(reviews)
      ensures !loading
      ensures notices == old(notices) + match reply
        case Success(_) =>
          [Succeeded(if review.isVerified then "Marked as Unverified" else "Marked as Verified")] + (match refetch
            case Success(_) => []
            case Failure(message) => [Failed(MessageOr(message, "Failed to load reviews"))]
            case Thrown => [Failed("Server error while loading reviews")])
        case Failure(message) => [Failed(message)]
        case Thrown => [Failed("Failed to update review status")]
    {
      loading := true;
      calls := calls + [Update(review.id, ReviewPatch(!review.isVerified))];
      match reply {
        case Success(_) =>
          notices := notices + [Succeeded(if review.isVerified then "Marked as Unverified" else "Marked as Verified")];
          Fetch(refetch);
        case Failure(message) =>
          notices := notices + [Failed(message)];
        case Thrown =>
          notices := notices + [Failed("Failed to update review status")];
      }
      loading := false;
    }
  }
}
