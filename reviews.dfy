/** Guest reviews, helpful votes and the per-hotel statistics record that is
    recomputed from them. */
module Reviews {
  import opened Common
  import opened Bookings

  /** The four optional detailed rating axes. */
  datatype Axis = Cleanliness | Service | Location | ValueForMoney

  datatype ReviewError = BookingOfAnotherUser | BookingNotCompleted

  /** The star scale every rating is validated against. */
  predicate InScale(x: nat)
  {
    1 <= x <= 5
  }

  function Sum(s: seq<nat>): nat
  {
    if s == [] then 0 else s[0] + Sum(s[1..])
  }

  /** The arithmetic mean, 0 for no values (an empty aggregate is stored as 0). */
  function Mean(s: seq<nat>): (m: real)
    ensures s != [] ==> m * |s| as real == Sum(s) as real
  {
    if |s| == 0 then 0.0 else Sum(s) as real / |s| as real
  }

  /** The present values of a list of nullable ratings, in order. */
  function Present(s: seq<Option<nat>>): (r: seq<nat>)
    ensures |r| <= |s|
    ensures (forall j :: 0 <= j < |s| && s[j].Some? ==> InScale(s[j].value)) ==> forall x :: x in r ==> InScale(x)
    ensures (forall j :: 0 <= j < |s| ==> s[j].None?) <==> r == []
  {
    if s == [] then []
    else (if s[0].Some? then [s[0].value] else []) + Present(s[1..])
  }

  /** A review of a hotel, optionally tied to the booking it is about. Its
      ratings and moderation flag are fixed here; `save` sets the verified flag
      and the vote signals rewrite the helpful count. */
  class Review {
    const user: UserId
    const hotel: HotelId
    const booking: Booking?
    const rating: nat
    const cleanlinessRating: Option<nat>
    const serviceRating: Option<nat>
    const locationRating: Option<nat>
    const valueRating: Option<nat>
    const wouldRecommend: bool
    const isActive: bool
    var isVerified: bool
    var helpfulCount: nat

    function AxisRating(a: Axis): Option<nat>
    {
      match a
      case Cleanliness => cleanlinessRating
      case Service => serviceRating
      case Location => locationRating
      case ValueForMoney => valueRating
    }

    /** Every rating that is present is on the 1..5 scale. */
    predicate RatingsInScale()
    {
      InScale(rating) && forall a: Axis :: AxisRating(a).Some? ==> InScale(AxisRating(a).value)
    }

    /** The detailed ratings that are present. */
    function DetailedRatings(): seq<nat>
    {
      Present([cleanlinessRating, serviceRating, locationRating, valueRating])
    }

    /** `average_detailed_rating`: the mean of the detailed ratings that are
        present, or the overall rating when none is. */
    function AverageDetailedRating(): (r: real)
      ensures DetailedRatings() == [] ==> r == rating as real
      ensures DetailedRatings() != [] ==> r * |DetailedRatings()| as real == Sum(DetailedRatings()) as real
    {
      var valid := DetailedRatings();
      if valid != [] then Mean(valid) else rating as real
    }

    /** `clean`: an attached booking must belong to the reviewer and be either
        active or confirmed. The source asks the booking whether it is active,
        which compares its dates, so an attached booking of the reviewer must
        have them. */
    function Clean(today: Day): (r: Outcome<ReviewError>)
      requires booking != null && booking.user == user ==> booking.HasDates()
      reads booking
      ensures booking == null ==> r == Pass
      ensures booking != null && booking.user != user ==> r == Fail(BookingOfAnotherUser)
      ensures r == Pass && booking != null ==> booking.user == user && booking.paymentStatus.IsPaid()
      ensures booking != null && booking.user == user && booking.paymentStatus == Confirmed ==> r == Pass
      ensures booking != null && booking.user == user && booking.paymentStatus == Paid
        ==> (r == Pass <==> booking.checkIn.value <= today <= booking.checkOut.value)
      ensures r == Fail(BookingNotCompleted) <==>
        booking != null && booking.user == user && !booking.IsActive(today) && booking.paymentStatus != Confirmed
    {
      if booking != null && booking.user != user then Fail(BookingOfAnotherUser)
      else if booking != null && !booking.IsActive(today) && booking.paymentStatus != Confirmed then Fail(BookingNotCompleted)
      else Pass
    }

    /** `save`: a review with a booking becomes verified; the flag is never
        cleared. */
    method Save()
      modifies this`isVerified
      ensures isVerified == (old(isVerified) || booking != null)
    {
      if booking != null {
        isVerified := true;
      }
    }
  }

  /** With every rating on the 1..5 scale, the average detailed rating is on
      that scale too. */
  lemma {:induction false} AverageDetailedRatingInScale(r: Review)
    requires r.RatingsInScale()
    ensures 1.0 <= r.AverageDetailedRating() <= 5.0
  {
    var s := [r.cleanlinessRating, r.serviceRating, r.locationRating, r.valueRating];
    assert s[0] == r.AxisRating(Cleanliness) && s[1] == r.AxisRating(Service);
    assert s[2] == r.AxisRating(Location) && s[3] == r.AxisRating(ValueForMoney);
    if r.DetailedRatings() != [] {
      MeanInScale(r.DetailedRatings());
    }
  }

  lemma {:induction false} SumBounds(s: seq<nat>)
    requires forall x :: x in s ==> InScale(x)
    ensures |s| <= Sum(s) <= 5 * |s|
  {
    if s != [] {
      assert s[0] in s;
      assert forall x :: x in s[1..] ==> x in s;
      SumBounds(s[1..]);
    }
  }

  /** The mean of values on the 1..5 scale is on that scale. */
  lemma MeanInScale(s: seq<nat>)
    requires s != [] && forall x :: x in s ==> InScale(x)
    ensures 1.0 <= Mean(s) <= 5.0
  {
    SumBounds(s);
    QuotientBounds(Sum(s) as real, |s| as real);
  }

  lemma QuotientBounds(t: real, n: real)
    requires 0.0 < n && n <= t <= 5.0 * n
    ensures 1.0 <= t / n <= 5.0
  {
    var q := t / n;
    assert q * n == t;
    NegativeTimesPositive(q - 1.0, n);
    NegativeTimesPositive(5.0 - q, n);
  }

  lemma NegativeTimesPositive(a: real, n: real)
    ensures a < 0.0 && 0.0 < n ==> a * n < 0.0
  {
  }

  // ---------------------------------------------------------- helpful votes

  /** One user's helpful vote on a review; the table holds at most one vote per
      review and user, so it is a set. */
  datatype Vote = Vote(review: Review, user: UserId)

  /** The number of helpful votes cast on `review`. */
  function VoteCount(votes: set<Vote>, review: Review): nat
  {
    |set v | v in votes && v.review == review|
  }

  /** Adding a vote raises its review's count by one and leaves every other
      review's count alone. */
  lemma VoteCountAfterAdd(votes: set<Vote>, v: Vote, other: Review)
    requires v !in votes
    ensures VoteCount(votes + {v}, v.review) == VoteCount(votes, v.review) + 1
    ensures other != v.review ==> VoteCount(votes + {v}, other) == VoteCount(votes, other)
  {
    assert (set w | w in votes + {v} && w.review == v.review) == (set w | w in votes && w.review == v.review) + {v};
    assert (set w | w in votes + {v} && w.review == other) == (set w | w in votes && w.review == other) + (if other == v.review then {v} else {});
  }

  /** Removing a vote lowers its review's count by one and leaves every other
      review's count alone. */
  lemma VoteCountAfterRemove(votes: set<Vote>, v: Vote, other: Review)
    requires v in votes
    ensures VoteCount(votes - {v}, v.review) == VoteCount(votes, v.review) - 1
    ensures other != v.review ==> VoteCount(votes - {v}, other) == VoteCount(votes, other)
  {
    assert (set w | w in votes - {v} && w.review == v.review) == (set w | w in votes && w.review == v.review) - {v};
    assert other != v.review ==> (set w | w in votes - {v} && w.review == other) == (set w | w in votes && w.review == other);
  }

  // ------------------------------------------------------------- statistics

  /** The active reviews of a hotel, in table order. */
  function ActiveReviews(reviews: seq<Review>, hotel: HotelId): (r: seq<Review>)
    ensures |r| <= |reviews|
  {
    if reviews == [] then []
    else
      (if reviews[0].isActive && reviews[0].hotel == hotel then [reviews[0]] else []) + ActiveReviews(reviews[1..], hotel)
  }

  /** `ActiveReviews` holds exactly the active reviews of the hotel. */
  lemma {:induction false} ActiveReviewsMembers(reviews: seq<Review>, hotel: HotelId)
    ensures forall i :: 0 <= i < |ActiveReviews(reviews, hotel)| ==>
      var r := ActiveReviews(reviews, hotel)[i]; r in reviews && r.isActive && r.hotel == hotel
    ensures forall i :: 0 <= i < |reviews| && reviews[i].isActive && reviews[i].hotel == hotel ==>
      reviews[i] in ActiveReviews(reviews, hotel)
  {
    if reviews != [] {
      var tail := reviews[1..];
      ActiveReviewsMembers(tail, hotel);
      var head := if reviews[0].isActive && reviews[0].hotel == hotel then [reviews[0]] else [];
      var r := ActiveReviews(reviews, hotel);
      assert r == head + ActiveReviews(tail, hotel);
      forall i | 0 <= i < |r| ensures r[i] in reviews && r[i].isActive && r[i].hotel == hotel {
        if i >= |head| {
          assert r[i] == ActiveReviews(tail, hotel)[i - |head|];
          assert r[i] in tail;
        }
      }
      forall i | 0 <= i < |reviews| && reviews[i].isActive && reviews[i].hotel == hotel ensures reviews[i] in r {
        if i > 0 {
          assert reviews[i] == tail[i - 1];
        }
      }
    }
  }

  /** The overall ratings of some reviews. */
  function Ratings(rs: seq<Review>): (r: seq<nat>)
    ensures |r| == |rs|
  {
    if rs == [] then [] else [rs[0].rating] + Ratings(rs[1..])
  }

  /** Reviews whose ratings are on the scale give overall ratings on it. */
  lemma {:induction false} RatingsInScaleWhenReviewsAre(rs: seq<Review>)
    requires forall j :: 0 <= j < |rs| ==> rs[j].RatingsInScale()
    ensures forall x :: x in Ratings(rs) ==> InScale(x)
  {
    if rs != [] {
      RatingsInScaleWhenReviewsAre(rs[1..]);
      assert rs[0].RatingsInScale();
    }
  }

  /** The ratings present on one axis, reviews without it left out. */
  function AxisValues(rs: seq<Review>, a: Axis): (r: seq<nat>)
    ensures |r| <= |rs|
  {
    if rs == [] then []
    else (if rs[0].AxisRating(a).Some? then [rs[0].AxisRating(a).value] else []) + AxisValues(rs[1..], a)
  }

  /** Reviews whose ratings are on the scale give axis values on it. */
  lemma {:induction false} AxisValuesInScale(rs: seq<Review>, a: Axis)
    requires forall j :: 0 <= j < |rs| ==> rs[j].RatingsInScale()
    ensures forall x :: x in AxisValues(rs, a) ==> InScale(x)
  {
    if rs != [] {
      AxisValuesInScale(rs[1..], a);
      assert rs[0].RatingsInScale();
    }
  }

  /** The reviews that recommend the hotel. */
  function RecommendingCount(rs: seq<Review>): (n: nat)
    ensures n <= |rs|
  {
    if rs == [] then 0 else (if rs[0].wouldRecommend then 1 else 0) + RecommendingCount(rs[1..])
  }

  /** `part` out of `whole` as a percentage, 0 when there is no whole. */
  function PercentOf(part: nat, whole: nat): real
  {
    if whole == 0 then 0.0 else part as real / whole as real * 100.0
  }

  lemma PercentageBounded(part: nat, whole: nat)
    requires part <= whole
    ensures 0.0 <= PercentOf(part, whole) <= 100.0
  {
    if whole != 0 {
      var q := part as real / whole as real;
      assert q * whole as real == part as real;
      assert 0.0 <= q <= 1.0;
    }
  }

  /** The payment statuses of a hotel's bookings, in table order. */
  function HotelStatuses(bookings: seq<Booking>, hotel: HotelId): (r: seq<PaymentStatus>)
    reads bookings
    ensures |r| <= |bookings|
  {
    if bookings == [] then []
    else (if bookings[0].hotel == hotel then [bookings[0].paymentStatus] else []) + HotelStatuses(bookings[1..], hotel)
  }

  /** Paid or confirmed bookings (the completed ones). */
  function CompletedCount(ss: seq<PaymentStatus>): (n: nat)
    ensures n <= |ss|
  {
    if ss == [] then 0 else (if ss[0].IsPaid() then 1 else 0) + CompletedCount(ss[1..])
  }

  /** Cancelled bookings (refunded ones are not counted). */
  function CancelledCount(ss: seq<PaymentStatus>): (n: nat)
    ensures n <= |ss|
  {
    if ss == [] then 0 else (if ss[0] == Cancelled then 1 else 0) + CancelledCount(ss[1..])
  }

  /** No booking is both completed and cancelled, so the two counts together
      never exceed the number of bookings. */
  lemma {:induction false} CompletedAndCancelledWithinTotal(ss: seq<PaymentStatus>)
    ensures CompletedCount(ss) + CancelledCount(ss) <= |ss|
  {
    if ss != [] {
      CompletedAndCancelledWithinTotal(ss[1..]);
    }
  }

  lemma {:induction false} AxisValuesAppend(rs: seq<Review>, ts: seq<Review>, a: Axis)
    ensures AxisValues(rs + ts, a) == AxisValues(rs, a) + AxisValues(ts, a)
  {
    if rs == [] {
      assert rs + ts == ts;
    } else {
      var all := rs + ts;
      var head := if rs[0].AxisRating(a).Some? then [rs[0].AxisRating(a).value] else [];
      assert all[0] == rs[0];
      assert all[1..] == rs[1..] + ts;
      AxisValuesAppend(rs[1..], ts, a);
      calc {
        AxisValues(all, a);
        head + AxisValues(rs[1..] + ts, a);
        head + (AxisValues(rs[1..], a) + AxisValues(ts, a));
        (head + AxisValues(rs[1..], a)) + AxisValues(ts, a);
      }
    }
  }

  lemma UnratedAxisLeavesAverage(rs: seq<Review>, r: Review, a: Axis)
    requires r.AxisRating(a).None?
    ensures Mean(AxisValues(rs + [r], a)) == Mean(AxisValues(rs, a))
  {
    AxisValuesAppend(rs, [r], a);
    assert AxisValues([r], a) == [] + AxisValues([], a);
    assert AxisValues(rs + [r], a) == AxisValues(rs, a);
  }

  /** The cached statistics of one hotel. */
  class HotelStatistics {
    const hotel: HotelId
    var averageRating: real
    var totalReviews: nat
    var avgCleanliness: real
    var avgService: real
    var avgLocation: real
    var avgValue: real
    var recommendationPercentage: real
    var totalBookings: nat
    var completedBookings: nat
    var cancelledBookings: nat

    /** A new record: every field at its default of 0. */
    constructor (hotel: HotelId)
      ensures this.hotel == hotel && totalReviews == 0 && totalBookings == 0
      ensures averageRating == 0.0 && recommendationPercentage == 0.0
      ensures avgCleanliness == 0.0 && avgService == 0.0 && avgLocation == 0.0 && avgValue == 0.0
      ensures completedBookings == 0 && cancelledBookings == 0
    {
      this.hotel := hotel;
      averageRating, totalReviews := 0.0, 0;
      avgCleanliness, avgService, avgLocation, avgValue := 0.0, 0.0, 0.0, 0.0;
      recommendationPercentage := 0.0;
      totalBookings, completedBookings, cancelledBookings := 0, 0, 0;
    }

    /** The review figures agree with the hotel's active reviews. */
    predicate ReviewFiguresCurrent(reviews: seq<Review>)
      reads this`totalReviews, this`averageRating, this`avgCleanliness, this`avgService
      reads this`avgLocation, this`avgValue, this`recommendationPercentage
    {
      var active := ActiveReviews(reviews, hotel);
      && totalReviews == |active|
      && averageRating == Mean(Ratings(active))
      && avgCleanliness == Mean(AxisValues(active, Cleanliness))
      && avgService == Mean(AxisValues(active, Service))
      && avgLocation == Mean(AxisValues(active, Location))
      && avgValue == Mean(AxisValues(active, ValueForMoney))
      && recommendationPercentage == PercentOf(RecommendingCount(active), |active|)
    }

    /** The booking figures agree with all of the hotel's bookings. */
    predicate BookingFiguresCurrent(bookings: seq<Booking>)
      reads this`totalBookings, this`completedBookings, this`cancelledBookings, bookings
    {
      var mine := HotelStatuses(bookings, hotel);
      && totalBookings == |mine|
      && completedBookings == CompletedCount(mine)
      && cancelledBookings == CancelledCount(mine)
    }

    /** Every field agrees with the hotel's active reviews and its bookings. */
    predicate Current(reviews: seq<Review>, bookings: seq<Booking>)
      reads this, bookings
    {
      ReviewFiguresCurrent(reviews) && BookingFiguresCurrent(bookings)
    }

    /** `update_statistics`: recompute every field from the hotel's active
        reviews (all zero without any) and from all of its bookings. */
    method UpdateStatistics(reviews: seq<Review>, bookings: seq<Booking>)
      modifies this
      ensures Current(reviews, bookings)
    {
      UpdateReviewFigures(reviews);
      UpdateBookingFigures(bookings);
    }

    /** The review half of `update_statistics`. */
    method UpdateReviewFigures(reviews: seq<Review>)
      modifies this`totalReviews, this`averageRating, this`avgCleanliness, this`avgService
      modifies this`avgLocation, this`avgValue, this`recommendationPercentage
      ensures ReviewFiguresCurrent(reviews)
    {
      var active := ActiveReviews(reviews, hotel);
      totalReviews := |active|;
      if totalReviews > 0 {
        averageRating := Mean(Ratings(active));
        avgCleanliness := Mean(AxisValues(active, Cleanliness));
        avgService := Mean(AxisValues(active, Service));
        avgLocation := Mean(AxisValues(active, Location));
        avgValue := Mean(AxisValues(active, ValueForMoney));
        var recommendations := RecommendingCount(active);
        recommendationPercentage := (recommendations as real / totalReviews as real) * 100.0;
      } else {
        assert active == [];
        averageRating := 0.0;
        avgCleanliness := 0.0;
        avgService := 0.0;
        avgLocation := 0.0;
        avgValue := 0.0;
        recommendationPercentage := 0.0;
      }
    }

    /** The booking half of `update_statistics`. */
    method UpdateBookingFigures(bookings: seq<Booking>)
      modifies this`totalBookings, this`completedBookings, this`cancelledBookings
      ensures BookingFiguresCurrent(bookings)
    {
      var statuses := HotelStatuses(bookings, hotel);
      totalBookings := |statuses|;
      completedBookings := CompletedCount(statuses);
      cancelledBookings := CancelledCount(statuses);
    }
  }

  /** An axis average is 0 (no rating on the axis) or on the 1..5 scale. */
  predicate ZeroOrInScale(x: real)
  {
    x == 0.0 || 1.0 <= x <= 5.0
  }

  lemma AxisAverageZeroOrInScale(rs: seq<Review>, a: Axis)
    requires forall j :: 0 <= j < |rs| ==> rs[j].RatingsInScale()
    ensures ZeroOrInScale(Mean(AxisValues(rs, a)))
  {
    if AxisValues(rs, a) != [] {
      AxisValuesInScale(rs, a);
      MeanInScale(AxisValues(rs, a));
    }
  }

  /** What a current statistics record promises: with no active review every
      average and the recommendation percentage are 0; otherwise the averages
      are on the rating scale (an axis nobody rated stays 0); the percentage is
      between 0 and 100; completed and cancelled bookings fit in the total. */
  lemma {:induction false} CurrentStatisticsInRange(stats: HotelStatistics, reviews: seq<Review>, bookings: seq<Booking>)
    requires stats.Current(reviews, bookings)
    requires forall j :: 0 <= j < |reviews| ==> reviews[j].RatingsInScale()
    ensures stats.totalReviews == 0 ==>
      stats.averageRating == 0.0 && stats.avgCleanliness == 0.0 && stats.avgService == 0.0
      && stats.avgLocation == 0.0 && stats.avgValue == 0.0 && stats.recommendationPercentage == 0.0
    ensures stats.totalReviews > 0 ==> 1.0 <= stats.averageRating <= 5.0
    ensures ZeroOrInScale(stats.avgCleanliness) && ZeroOrInScale(stats.avgService)
    ensures ZeroOrInScale(stats.avgLocation) && ZeroOrInScale(stats.avgValue)
    ensures 0.0 <= stats.recommendationPercentage <= 100.0
    ensures stats.completedBookings + stats.cancelledBookings <= stats.totalBookings
  {
    var active := ActiveReviews(reviews, stats.hotel);
    ActiveReviewsMembers(reviews, stats.hotel);
    forall j | 0 <= j < |active| ensures active[j].RatingsInScale() {
      assert active[j] in reviews;
    }
    if active != [] {
      RatingsInScaleWhenReviewsAre(active);
      MeanInScale(Ratings(active));
    }
    AxisAverageZeroOrInScale(active, Cleanliness);
    AxisAverageZeroOrInScale(active, Service);
    AxisAverageZeroOrInScale(active, Location);
    AxisAverageZeroOrInScale(active, ValueForMoney);
    PercentageBounded(RecommendingCount(active), |active|);
    CompletedAndCancelledWithinTotal(HotelStatuses(bookings, stats.hotel));
  }
}
