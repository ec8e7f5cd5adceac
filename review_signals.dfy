/** The reactions to review and helpful-vote writes, and the helpful-vote
    toggle that triggers the latter. */
module ReviewSignals {
  import opened Common
  import opened Bookings
  import opened Reviews

  /** `update_review_statistics`: after a review is saved, the hotel's
      statistics record is fetched, or created when missing, and recomputed. */
  method UpdateReviewStatistics(review: Review, stats: HotelStatistics?, reviews: seq<Review>, bookings: seq<Booking>)
    returns (s: HotelStatistics)
    requires stats != null ==> stats.hotel == review.hotel
    modifies stats
    ensures stats != null ==> s == stats
    ensures stats == null ==> fresh(s)
    ensures s.hotel == review.hotel && s.Current(reviews, bookings)
  {
    if stats == null {
      s := new HotelStatistics(review.hotel);
    } else {
      s := stats;
    }
    s.UpdateStatistics(reviews, bookings);
  }

  /** `update_statistics_on_delete`: after a review is deleted the record is
      recomputed only if the hotel has one; none is created. */
  method UpdateStatisticsOnDelete(review: Review, stats: HotelStatistics?, reviews: seq<Review>, bookings: seq<Booking>)
    requires stats != null ==> stats.hotel == review.hotel
    modifies stats
    ensures stats != null ==> stats.Current(reviews, bookings)
  {
    if stats != null {
      stats.UpdateStatistics(reviews, bookings);
    }
  }

  /** `update_helpful_count`: when a vote is created the review's counter is
      set to the number of votes it has; re-saving a vote changes nothing. */
  method UpdateHelpfulCount(vote: Vote, created: bool, votes: set<Vote>)
    modifies vote.review
    ensures created ==> vote.review.helpfulCount == VoteCount(votes, vote.review)
    ensures !created ==> vote.review.helpfulCount == old(vote.review.helpfulCount)
    ensures vote.review.isVerified == old(vote.review.isVerified)
  {
    if created {
      vote.review.helpfulCount := VoteCount(votes, vote.review);
    }
  }

  /** `decrease_helpful_count`: after a vote is deleted the review's counter is
      set to the number of votes it has left. */
  method DecreaseHelpfulCount(vote: Vote, votes: set<Vote>)
    modifies vote.review
    ensures vote.review.helpfulCount == VoteCount(votes, vote.review)
    ensures vote.review.isVerified == old(vote.review.isVerified)
  {
    vote.review.helpfulCount := VoteCount(votes, vote.review);
  }

  datatype ToggleResult = NotFound | Added | Removed

  /** Marking a review helpful toggles the user's vote: an inactive review is
      not found; otherwise a missing vote is created, an existing one deleted,
      and the reaction to that write keeps the counter equal to the votes. */
  method ToggleHelpful(votes: set<Vote>, review: Review, user: UserId)
    returns (after: set<Vote>, result: ToggleResult)
    requires review.helpfulCount == VoteCount(votes, review)
    modifies review
    ensures review.isVerified == old(review.isVerified)
    ensures !review.isActive <==> result == NotFound
    ensures result == Added <==> review.isActive && Vote(review, user) !in votes
    ensures after == match result
      case NotFound => votes
      case Added => votes + {Vote(review, user)}
      case Removed => votes - {Vote(review, user)}
    ensures review.helpfulCount == VoteCount(after, review)
    ensures review.helpfulCount == match result
      case NotFound => old(review.helpfulCount)
      case Added => old(review.helpfulCount) + 1
      case Removed => old(review.helpfulCount) - 1
    ensures forall other: Review {:trigger VoteCount(after, other)} :: other != review ==> VoteCount(after, other) == VoteCount(votes, other)
  {
    if !review.isActive {
      return votes, NotFound;
    }
    var v := Vote(review, user);
    if v !in votes {
      after, result := votes + {v}, Added;
      forall other: Review | other != review ensures VoteCount(after, other) == VoteCount(votes, other) {
        VoteCountAfterAdd(votes, v, other);
      }
      VoteCountAfterAdd(votes, v, review);
      UpdateHelpfulCount(v, true, after);
    } else {
      after, result := votes - {v}, Removed;
      forall other: Review | other != review ensures VoteCount(after, other) == VoteCount(votes, other) {
        VoteCountAfterRemove(votes, v, other);
      }
      VoteCountAfterRemove(votes, v, review);
      DecreaseHelpfulCount(v, after);
    }
  }
}
