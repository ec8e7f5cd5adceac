# Hotel booking core, modelled in Dafny

The system is a hotel reservation site. Guests book a room of a room type
for a stay of whole nights. They may apply a discount coupon, pay, cancel,
review the hotel afterwards and vote reviews helpful. A task scheduler
runs two jobs every day: at midnight one reconciles the status of every
room with today's bookings, and at 1 AM the other cancels bookings left
unpaid for too long. Each hotel
keeps a cached statistics record that is recomputed from its reviews and
bookings.

The model covers the booking rules and the state they update:

- **Coupons** (`bookings.dfy`, class `Coupon`): validation, the validity
  test and the discount rule.
- **Bookings** (`bookings.dfy`, class `Booking`):
  - the invoice number and the pricing rule (subtotal, coupon discount,
    16% tax, total);
  - validation, including the room-availability rule;
  - cancellation and the "active today" test.
- **Rooms** (`rooms.dfy`): the available-room count of a room type.
- **Reviews** (`reviews.dfy`):
  - validation, the verified flag and the average detailed rating;
  - the helpful-vote count;
  - the hotel statistics record and its recomputation.
- **Reactions to writes** (`booking_signals.dfy`, `review_signals.dfy`):
  - a booking write counts a coupon use, occupies or frees the room, and
    refreshes the statistics;
  - a review write refreshes (or creates) the statistics;
  - a vote write resets the review's helpful count.
- **The two periodic jobs** (`room_availability.dfy`,
  `expired_bookings.dfy`).

Modelling conventions:

- Money is `real`, so decimal arithmetic is exact.
- A date is an `int` day number. A datetime is an `int` count of
  microseconds, and `DayOf` takes its date.
- The current time, the random invoice number and the current database
  contents are parameters. A table is a `seq` of objects, with row identity
  as object identity.
- A nullable column is an `Option`. A validation error is an
  `Outcome.Fail`.

The model follows the source where it departs from a natural reading.
These behaviours are stated and proved as lemmas:

- A stored `max_uses` or `max_discount` of 0 means "no limit", because the
  source tests them for truthiness.
- Booking validation does not leave the booking itself out of the
  availability query, so a paid booking that is validated again conflicts
  with itself.
- A booking created already paid never counts a use of its coupon.
- A booking that is set back to PENDING and paid again counts it twice.
- An occupied room stays occupied after its guest leaves while a later stay
  is booked for it.

## Model

| member | source | states |
|---|---|---|
| Common.DayOf | bookings/models.py:342-345 | the date of an instant is the whole day containing it |
| Rooms.RoomType.AvailableRooms | rooms/models.py:96-98 | the result holds exactly the rooms of this type whose availability flag is set, each as many times as it occurs in the rooms, so its length is the available-room count |
| Rooms.RoomType.AvailableRoomsCount | rooms/models.py:96-98 | the count is 0 exactly when no room of this type has its availability flag set |
| Rooms.AvailableRoomsCountBounded | rooms/models.py:96-98 | the available-room count of a type is at most the number of rooms of that type, which is at most the number of rooms; it equals the number of rooms of that type exactly when every one of them has its availability flag set |
| Rooms.Room.constructor | rooms/models.py:126-136 | a new room is AVAILABLE with its availability flag set |
| Bookings.Coupon.Clean | bookings/models.py:103-108 | passes exactly when valid_from < valid_until and a percentage is at most 100; fails with the window error exactly when the window is not ordered, and with the percentage error exactly when the window is ordered and a percentage exceeds 100 |
| Bookings.Coupon.IsValid | bookings/models.py:110-119 | valid exactly when active, inside the closed window and, for a non-zero max_uses, used fewer times than it; with max_uses unset or 0 the usage count plays no part |
| Bookings.Coupon.CalculateDiscount | bookings/models.py:121-133 | 0 when the coupon is invalid or the amount is below the minimum; otherwise never more than the amount; a percentage discount is at most that percentage of the amount and at most a non-zero cap; a fixed discount is min(value, amount); a percentage discount is the amount itself, that percentage of it or the non-zero cap; non-negative for non-negative terms |
| Bookings.ZeroMaxUsesIsUnlimited | bookings/models.py:117 | with max_uses 0, coupons that differ only in their usage count have the same validity and discount |
| Bookings.ZeroMaxDiscountIsNoCap | bookings/models.py:128-129 | a max_discount of 0 gives the same discount as no cap |
| Bookings.ExhaustedCouponGrantsNothing | bookings/models.py:117-118 | a coupon used 5 times out of 5 is invalid at every instant and grants 0 |
| Bookings.Booking.constructor | bookings/models.py:212-247 | a new booking is PENDING, has no invoice number and no discount or tax |
| Bookings.Booking.TotalDays | bookings/models.py:298-303 | for ordered dates the result is the number of nights of the stay; check-in plus the result is check-out whenever both dates are set; 0 without dates |
| Bookings.NightsOfStayCount | bookings/models.py:298-303 | a stay from check-in to an equal or later check-out has check-out minus check-in nights |
| Bookings.Booking.AppliedDiscount | bookings/models.py:310-313 | the coupon's discount when a coupon is attached and valid, 0 otherwise |
| Bookings.Booking.CalculatePrices | bookings/models.py:305-321 | afterwards the four price fields agree with the pricing rule; prices that already agree are left unchanged |
| Bookings.Booking.Save | bookings/models.py:265-274 | an existing invoice number is kept and a missing one is replaced by the fresh one; the booking is repriced exactly when both dates are set |
| Bookings.Booking.Clean | bookings/models.py:276-296 | passes exactly when the dates are ordered, check-in is not in the past, the guests fit the room's capacity and the room is available for the stay; each failure (unordered dates, past check-in, over capacity with the room's capacity, room unavailable) is reported exactly when the rules before it hold and it does not |
| Bookings.Booking.CanBeCancelled | bookings/models.py:323-332 | true exactly for a booking that is neither cancelled nor refunded and whose check-in day is still ahead |
| Bookings.Booking.Cancel | bookings/models.py:334-340 | succeeds exactly when the booking can be cancelled, then it is CANCELLED, keeps its invoice number or gets the fresh one, and is repriced when it has both dates (its prices are kept otherwise); otherwise it fails with NotCancellable and nothing changes |
| Bookings.Booking.IsActive | bookings/models.py:342-347 | active exactly when paid or confirmed and today lies within the stay, both ends included |
| Bookings.RoomAvailableForDates | rooms/models.py:153-163 | a room is available for a stay only with its flag set; for a non-empty stay, when every stored stay is non-empty, it is available exactly when its flag is set and no paid or confirmed booking of the room holds a night of the stay |
| Bookings.OverlapMeansSharedNight | rooms/models.py:157-162 | two non-empty stays overlap under the availability filter exactly when some night belongs to both |
| Bookings.OverlapIsSymmetric | rooms/models.py:157-162 | the overlap test does not depend on which stay is the stored one |
| Bookings.BackToBackStaysDoNotOverlap | rooms/models.py:157-162 | a stay ending on the day another begins does not conflict with it; a stay sharing a night does |
| Bookings.OnlyPaidBookingsOfTheRoomBlock | rooms/models.py:153-163 | adding bookings of other rooms, or bookings that are not paid or confirmed, never changes a room's availability |
| Bookings.AvailableForShorterStay | rooms/models.py:153-163 | a room available for a stay is available for every stay inside it |
| Bookings.PaidBookingConflictsWithItself | bookings/models.py:293-296 | validating a stored paid booking fails, and it fails as unavailable when the earlier rules pass |
| Bookings.PricesAreConsistent | bookings/models.py:305-321 | with current prices, 0 <= discount <= subtotal, tax >= 0, total = (subtotal - discount) * 1.16 and 0 <= total <= subtotal * 1.16 |
| Bookings.PricingExample | bookings/models.py:305-321 | 1200 a night for 3 nights with a 10% coupon capped at 200 gives 3600, 200, 544 and 3944 |
| Bookings.NoCancellationFromCheckInDay | bookings/models.py:328-329 | a booking cannot be cancelled on its check-in day or while it is active |
| Bookings.ActiveBookingHoldsTonightUntilCheckOut | bookings/models.py:342-347 | an active booking blocks tonight's stay exactly when today is before its check-out day |
| Reviews.Review.AverageDetailedRating | reviews/models.py:155-168 | the overall rating when no detailed rating is present; otherwise the result times the number of present ratings is their sum |
| Reviews.AverageDetailedRatingInScale | reviews/models.py:155-168 | with every rating on the 1..5 scale the average detailed rating is on that scale |
| Reviews.Mean | reviews/models.py:289-308 | the mean of a non-empty list times its length is its sum |
| Reviews.MeanInScale | reviews/models.py:289-308 | the mean of a non-empty list of 1..5 ratings lies in 1..5 |
| Reviews.Review.Clean | reviews/models.py:139-146 | passes with no booking; fails for another user's booking; otherwise passes exactly for a confirmed booking or a paid one whose stay includes today; fails as not completed exactly when the reviewer's booking is neither active today nor confirmed |
| Reviews.Review.Save | reviews/models.py:148-153 | a review with a booking becomes verified and the flag is never cleared |
| Reviews.VoteCountAfterAdd | reviews/signals.py:24-30 | adding a new vote raises its review's count by one and leaves every other review's count alone |
| Reviews.VoteCountAfterRemove | reviews/signals.py:33-37 | removing a vote lowers its review's count by one and leaves every other review's count alone |
| Reviews.ActiveReviewsMembers | reviews/models.py:282 | the active reviews of a hotel are exactly its reviews with the active flag set |
| Reviews.AxisValues | reviews/models.py:294-308 | at most one value per review |
| Reviews.AxisValuesInScale | reviews/models.py:294-308 | the values of an axis over reviews on the 1..5 scale are on that scale |
| Reviews.Ratings | reviews/models.py:289-291 | one overall rating per review |
| Reviews.RatingsInScaleWhenReviewsAre | reviews/models.py:289-291 | the overall ratings of reviews on the 1..5 scale are on that scale |
| Reviews.CompletedCount | reviews/models.py:324-326 | at most the number of bookings |
| Reviews.CancelledCount | reviews/models.py:327-329 | at most the number of bookings |
| Reviews.RecommendingCount | reviews/models.py:311 | at most the number of reviews |
| Reviews.PercentageBounded | reviews/models.py:312 | the recommendation percentage of a part of a whole lies in 0..100 |
| Reviews.HotelStatuses | reviews/models.py:322-323 | at most one status per stored booking |
| Reviews.CompletedAndCancelledWithinTotal | reviews/models.py:323-329 | completed plus cancelled bookings never exceed the total |
| Reviews.AxisValuesAppend | reviews/models.py:294-308 | the values of an axis over two lists of reviews are the values over each, in order |
| Reviews.UnratedAxisLeavesAverage | reviews/models.py:294-296 | a further review without a rating on an axis leaves that axis's average unchanged |
| Reviews.HotelStatistics.constructor | reviews/models.py:207-265 | a new statistics record belongs to its hotel and starts with every count, average and the recommendation percentage at 0 |
| Reviews.HotelStatistics.UpdateStatistics | reviews/models.py:276-330 | afterwards every field agrees with the hotel's active reviews and its bookings |
| Reviews.HotelStatistics.UpdateReviewFigures | reviews/models.py:281-319 | afterwards the review count, the averages and the recommendation percentage agree with the hotel's active reviews, all 0 without any |
| Reviews.HotelStatistics.UpdateBookingFigures | reviews/models.py:321-329 | afterwards the total, completed and cancelled counts agree with all of the hotel's bookings |
| Reviews.AxisAverageZeroOrInScale | reviews/models.py:294-308 | an axis average is 0 or lies in 1..5 |
| Reviews.CurrentStatisticsInRange | reviews/models.py:276-330 | current statistics are all 0 without reviews; otherwise the average lies in 1..5, each axis average is 0 or in 1..5, the percentage lies in 0..100, and completed plus cancelled is at most the total |
| BookingSignals.UpdateCouponUsage | bookings/signals.py:7-20 | the coupon's usage count rises by one exactly when a stored booking goes from unpaid to paid or confirmed, and is otherwise unchanged |
| BookingSignals.UpdateRoomStatus | bookings/signals.py:23-50 | an active booking makes its room OCCUPIED and unavailable; a cancelled one makes it AVAILABLE unless another paid booking covers today; otherwise the room is unchanged |
| BookingSignals.UpdateBookingStatistics | bookings/signals.py:53-56 | an existing statistics record becomes current; none is created |
| BookingSignals.PersistBooking | bookings/models.py:265-274 | a booking write keeps the payment status, keeps or fills the invoice number, prices the booking (subtotal, discount with the coupon's usage count from before the write, 16% tax, total), then counts the coupon use, occupies an active booking's room, frees the room of a cancelled booking no other paid booking covers today and otherwise leaves the room as it was, and refreshes the statistics |
| BookingSignals.CouponCountedOnce | bookings/signals.py:10-18 | along the booking lifecycle a coupon is counted once if the booking was created unpaid and later paid, and never otherwise |
| BookingSignals.RepaidBookingCountsTwice | bookings/signals.py:14-17 | a booking paid, set back to PENDING and paid again counts its coupon twice |
| ReviewSignals.UpdateReviewStatistics | reviews/signals.py:7-14 | after a review write, the hotel's statistics record is current, and it is created when it was missing |
| ReviewSignals.UpdateStatisticsOnDelete | reviews/signals.py:17-21 | after a review is deleted, an existing record becomes current; none is created |
| ReviewSignals.UpdateHelpfulCount | reviews/signals.py:24-30 | a newly created vote sets the review's count to its number of votes; a re-saved vote changes nothing |
| ReviewSignals.DecreaseHelpfulCount | reviews/signals.py:33-37 | after a vote is deleted the review's count equals its remaining votes |
| ReviewSignals.ToggleHelpful | reviews/views.py:152-167 | an inactive review is not found; otherwise the user's vote is added when missing and removed when present; the count follows the votes, moving by exactly one, other reviews' counts are unchanged, and the verified flag is left as it was |
| ExpiredBookingsCommand.Cutoff | bookings/management/commands/check_expired_bookings.py:21 | the cutoff falls on the day the given number of days before now's day, at the same time of day, and not after now for a non-negative count |
| ExpiredBookingsCommand.ExpiredOf | bookings/management/commands/check_expired_bookings.py:24-27 | the result holds exactly the bookings that are pending and were made before the cutoff, each as many times as it occurs in the table, so its length is the number of expired rows |
| ExpiredBookingsCommand.NoneExpiredListsNothing | bookings/management/commands/check_expired_bookings.py:24-27 | when no booking is pending past the cutoff the query returns nothing |
| ExpiredBookingsCommand.CancelExpired | bookings/management/commands/check_expired_bookings.py:33 | every expired booking becomes CANCELLED, no other status and no price or invoice number changes, and nothing is left expired |
| ExpiredBookingsCommand.CheckExpiredBookings | bookings/management/commands/check_expired_bookings.py:19-46 | the count is the number of expired bookings, exactly those become CANCELLED, no invoice number or price changes, nothing changes when there are none, and the listing is empty |
| ExpiredBookingsCommand.CheckExpiredBookingsListingCancelled | bookings/management/commands/check_expired_bookings.py:19-46 | as above (including unchanged invoice numbers and prices), but the listing is exactly the bookings it cancelled, as many as counted |
| ExpiredBookingsCommand.BookingAtCutoffIsKept | bookings/management/commands/check_expired_bookings.py:26 | a booking made exactly at the cutoff is not expired |
| ExpiredBookingsCommand.DefaultPeriodExample | bookings/management/commands/check_expired_bookings.py:11-17 | with the default of 3 days a pending booking made 4 days ago expires and one made 2 days ago does not |
| RoomAvailabilityCommand.Reconcile | bookings/management/commands/update_room_availability.py:27-51 | a room with a booking covering today becomes OCCUPIED (and unavailable if it was not occupied; an already occupied room is left as it is); an occupied room with neither a current nor a future booking becomes AVAILABLE; every other room keeps its state |
| RoomAvailabilityCommand.ReconcileIsStable | bookings/management/commands/update_room_availability.py:27-51 | a reconciled room needs no further update, and a room that needs none is left as it is |
| RoomAvailabilityCommand.UpdatesNeeded | bookings/management/commands/update_room_availability.py:13-32 | at most one update per room |
| RoomAvailabilityCommand.UpdateRoomAvailability | bookings/management/commands/update_room_availability.py:11-54 | every room takes its reconciled state, the count is the number of rooms that needed a change, and afterwards no room needs one |
| RoomAvailabilityCommand.NothingNeededCountsZero | bookings/management/commands/update_room_availability.py:18-51 | when no room needs a change the count is 0, so a second run reports nothing |
| RoomAvailabilityCommand.MaintenanceAndCleaningKeptWhenIdle | bookings/management/commands/update_room_availability.py:27-51 | a room under maintenance or cleaning is kept unless a paid booking covers today, which makes it OCCUPIED and unavailable |
| RoomAvailabilityCommand.OccupiedKeptWhileFutureStayBooked | bookings/management/commands/update_room_availability.py:36-44 | an occupied room without a current booking stays occupied while a later stay is booked |

## Left out

- Web views, forms, templates, the admin, e-mail, background task setup and
  the test-data generator. Only the helpful-vote toggle is kept, because it
  drives the vote reactions.
- Hotels, amenities and the descriptive fields of every entity (names,
  texts, images, timestamps), which no rule reads.
- The framework's signal dispatch. Each reaction is an explicit method.
  `PersistBooking` runs them in the framework's order for a booking write.
  A call of `Cancel` or `Save` alone does not run the reactions.
- The nested writes inside the vote reactions. The review save they issue
  would set the verified flag in memory. Its own reaction is a
  get-or-create, so it would refresh the hotel's statistics once more, and
  create the record when the hotel has none. Only the count is modelled.
- `UpdateCouponUsage`: the stored status is passed in, and a missing row or
  primary key is `None`. Concurrent writes to the usage count (a
  read-modify-write race) are not modelled.
- `Booking.Save`: the random invoice number is passed in. Its `INV-` format
  and its uniqueness are not modelled.
- `Booking.CanBeCancelled`, `Booking.Cancel`, `Booking.IsActive`,
  `BookingSignals.UpdateRoomStatus` and `BookingSignals.PersistBooking`
  require the check-in (and for the last three, the check-out) date to be
  set. The source compares these dates directly, which raises an error
  when they are missing. The database filters treat a missing date as "no
  match", and so does the model.
- `Reviews.Review.Clean` requires an attached booking of the reviewer to
  have both dates, for the same reason.
- Python's float division is not modelled: `average_detailed_rating`
  (reviews/models.py:167) divides the sum of the ratings by their count,
  and `recommendation_percentage` (reviews/models.py:312) divides the
  recommendations by the total, both in binary floating point. The model
  divides exactly.
- Decimal rounding of the stored prices and averages (two decimal places)
  is not modelled: the model's arithmetic is exact. The database average
  of integer ratings is taken as the exact mean.
- `Bookings.RoomAvailableForDates`: the reading in nights is stated only
  for a non-empty stay and non-empty stored stays. The source's filter also
  lets a stored paid booking whose check-in equals its check-out block a
  stay around that day, although it holds no night; the predicate itself
  keeps that behaviour.
- `RoomAvailabilityCommand.UpdateRoomAvailability` requires the rooms to be
  distinct objects, as the rows of a table are.
- The sweep of expired bookings writes the status directly, so no reactions
  run: rooms and statistics are not updated. The model does the same.
- Progress messages written to the console are not modelled, apart from
  the listing of cancelled bookings.

## Findings

| source | as written | input that shows it | evidently intended | confidence | as-written member | corrected member |
|---|---|---|---|---|---|---|
| bookings/management/commands/check_expired_bookings.py:29-43 | the listing loop runs the expired-bookings query again after the update has cancelled those bookings, so it lists nothing | one PENDING booking made 4 days ago with the default of 3 days: the count is 1 and the listing is empty | list the bookings that were just cancelled | high, not executed | ExpiredBookingsCommand.CheckExpiredBookings | ExpiredBookingsCommand.CheckExpiredBookingsListingCancelled |
