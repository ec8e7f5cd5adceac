/** The reactions to a booking write: counting a coupon use when a booking
    becomes paid, occupying or freeing its room, and refreshing the hotel's
    statistics. The framework dispatches them implicitly; here `PersistBooking`
    calls them in the framework's order. */
module BookingSignals {
  import opened Common
  import opened Rooms
  import opened Bookings
  import opened Reviews

  /** A save counts a use of the coupon when it takes a stored booking from a
      status outside {PAID, CONFIRMED} to one inside it. `stored` is the status
      of the stored row, `None` when the booking has no primary key yet or no
      row has it. */
  predicate CountsCouponUse(stored: Option<PaymentStatus>, saved: PaymentStatus)
  {
    stored.Some? && !stored.value.IsPaid() && saved.IsPaid()
  }

  /** `update_coupon_usage` (before the row is written). */
  method UpdateCouponUsage(b: Booking, stored: Option<PaymentStatus>)
    modifies b.coupon
    ensures b.coupon != null ==>
      b.coupon.timesUsed == old(b.coupon.timesUsed) + if CountsCouponUse(stored, b.paymentStatus) then 1 else 0
  {
    if stored.Some? {
      var previous := stored.value;
      if !previous.IsPaid() && b.paymentStatus.IsPaid() && b.coupon != null {
        b.coupon.timesUsed := b.coupon.timesUsed + 1;
      }
    }
  }

  /** Some booking of `room` other than `b` is paid or confirmed and covers
      `today`. */
  predicate OtherBookingCovers(b: Booking, bookings: seq<Booking>, today: Day)
    reads bookings
  {
    exists i :: 0 <= i < |bookings| && bookings[i] != b && bookings[i].room == b.room && bookings[i].CoversDay(today)
  }

  /** `update_room_status` (after the row is written): a booking that is active
      today occupies its room; a cancelled one frees it unless another paid or
      confirmed booking of the room covers today; otherwise the room is left as
      it was. The source compares the booking's dates directly, so they must be
      set. */
  method UpdateRoomStatus(b: Booking, bookings: seq<Booking>, today: Day)
    requires b.HasDates()
    modifies b.room
    ensures b.IsActive(today) ==> b.room.status == Occupied && !b.room.isAvailable
    ensures !b.IsActive(today) && b.paymentStatus == Cancelled && !OtherBookingCovers(b, bookings, today)
      ==> b.room.status == Available && b.room.isAvailable
    ensures !b.IsActive(today) && (b.paymentStatus != Cancelled || OtherBookingCovers(b, bookings, today))
      ==> b.room.status == old(b.room.status) && b.room.isAvailable == old(b.room.isAvailable)
  {
    if b.checkIn.value <= today <= b.checkOut.value && b.paymentStatus.IsPaid() {
      b.room.status := Occupied;
      b.room.isAvailable := false;
    } else if b.paymentStatus == Cancelled {
      if !OtherBookingCovers(b, bookings, today) {
        b.room.status := Available;
        b.room.isAvailable := true;
      }
    }
  }

  /** `update_booking_statistics`: refresh the hotel's statistics record when
      it has one; never create one. */
  method UpdateBookingStatistics(b: Booking, stats: HotelStatistics?, reviews: seq<Review>, bookings: seq<Booking>)
    requires stats != null ==> stats.hotel == b.hotel
    modifies stats
    ensures stats != null ==> stats.Current(reviews, bookings)
  {
    if stats != null {
      stats.UpdateStatistics(reviews, bookings);
    }
  }

  /** Saving a booking with both dates set: `save` numbers and prices it, the
      pre-save reaction then counts the coupon use (so the price of the save
      that uses a coupon up still carries its discount), the row is written
      (`bookings` is the table afterwards) and the post-save reactions update
      the room and the statistics. */
  method PersistBooking(b: Booking, stored: Option<PaymentStatus>, now: Instant, freshInvoiceId: string,
                        bookings: seq<Booking>, reviews: seq<Review>, stats: HotelStatistics?)
    requires b.HasDates() && freshInvoiceId != ""
    requires stats != null ==> stats.hotel == b.hotel
    modifies b, b.coupon, b.room, stats
    ensures b.invoiceId == if old(b.invoiceId) == "" then freshInvoiceId else old(b.invoiceId)
    ensures b.invoiceId != ""
    ensures b.paymentStatus == old(b.paymentStatus)
    ensures b.subtotal == b.room.roomType.pricePerNight * b.TotalDays() as real
    ensures var st := b.subtotal; b.discountAmount == old(b.AppliedDiscount(now, st))
    ensures b.taxAmount == (b.subtotal - b.discountAmount) * TaxRate
    ensures b.totalPrice == b.subtotal - b.discountAmount + b.taxAmount
    ensures b.coupon != null ==>
      b.coupon.timesUsed == old(b.coupon.timesUsed) + if CountsCouponUse(stored, b.paymentStatus) then 1 else 0
    ensures b.IsActive(DayOf(now)) ==> b.room.status == Occupied && !b.room.isAvailable
    ensures !b.IsActive(DayOf(now)) && b.paymentStatus == Cancelled && !OtherBookingCovers(b, bookings, DayOf(now))
      ==> b.room.status == Available && b.room.isAvailable
    ensures !b.IsActive(DayOf(now)) && (b.paymentStatus != Cancelled || OtherBookingCovers(b, bookings, DayOf(now)))
      ==> b.room.status == old(b.room.status) && b.room.isAvailable == old(b.room.isAvailable)
    ensures stats != null ==> stats.Current(reviews, bookings)
  {
    b.Save(now, freshInvoiceId);
    UpdateCouponUsage(b, stored);
    UpdateRoomStatus(b, bookings, DayOf(now));
    UpdateBookingStatistics(b, stats, reviews, bookings);
  }

  // ------------------------------------------------ coupon uses over time

  /** The coupon uses counted over the successive saves of one booking:
      `history[0]` is its status when first written (no stored row yet), each
      later entry the status of a later save. */
  function CouponUses(history: seq<PaymentStatus>): nat
  {
    if |history| <= 1 then 0
    else CouponUses(history[..|history| - 1])
         + if CountsCouponUse(Some(history[|history| - 2]), history[|history| - 1]) then 1 else 0
  }

  /** The booking lifecycle: PENDING may move anywhere; PAID and CONFIRMED move
      between each other or to CANCELLED or REFUNDED; those two are final. */
  predicate LifecycleStep(from: PaymentStatus, to: PaymentStatus)
  {
    from == to || from == Pending || (from.IsPaid() && to != Pending)
  }

  predicate FollowsLifecycle(history: seq<PaymentStatus>)
  {
    forall i :: 0 < i < |history| ==> LifecycleStep(history[i - 1], history[i])
  }

  /** Some save after the first one leaves the booking paid or confirmed. */
  predicate PaidAfterCreation(history: seq<PaymentStatus>)
  {
    exists i :: 0 < i < |history| && history[i].IsPaid()
  }

  lemma {:induction false} PendingHistory(history: seq<PaymentStatus>)
    requires FollowsLifecycle(history) && history != [] && history[|history| - 1] == Pending
    ensures forall i :: 0 <= i < |history| ==> history[i] == Pending
  {
    if |history| > 1 {
      var front := history[..|history| - 1];
      assert FollowsLifecycle(front) by {
        forall i | 0 < i < |front| ensures LifecycleStep(front[i - 1], front[i]) {
          assert front[i - 1] == history[i - 1] && front[i] == history[i];
        }
      }
      assert LifecycleStep(history[|history| - 2], history[|history| - 1]);
      PendingHistory(front);
      forall i | 0 <= i < |history| ensures history[i] == Pending {
        if i < |front| {
          assert history[i] == front[i];
        }
      }
    }
  }

  /** Along the lifecycle the coupon of a booking is counted exactly once if
      the booking was created unpaid and later became paid or confirmed, and
      never otherwise (in particular never for a booking created already
      paid). */
  lemma {:induction false} CouponCountedOnce(history: seq<PaymentStatus>)
    requires history != [] && FollowsLifecycle(history)
    ensures CouponUses(history) == if !history[0].IsPaid() && PaidAfterCreation(history) then 1 else 0
  {
    if |history| > 1 {
      var n := |history|;
      var front := history[..n - 1];
      assert FollowsLifecycle(front) by {
        forall i | 0 < i < |front| ensures LifecycleStep(front[i - 1], front[i]) {
          assert front[i - 1] == history[i - 1] && front[i] == history[i];
        }
      }
      CouponCountedOnce(front);
      assert front[0] == history[0];
      var prev, last := history[n - 2], history[n - 1];
      assert prev == front[|front| - 1];
      assert LifecycleStep(prev, last);
      if CountsCouponUse(Some(prev), last) {
        assert prev == Pending;
        PendingHistory(front);
        assert !PaidAfterCreation(front) by {
          forall i | 0 < i < |front| ensures !front[i].IsPaid() {
            assert front[i] == Pending;
          }
        }
        assert PaidAfterCreation(history) by {
          assert history[n - 1].IsPaid();
        }
      } else {
        assert !history[0].IsPaid() && PaidAfterCreation(history) ==> PaidAfterCreation(front) by {
          if !history[0].IsPaid() && PaidAfterCreation(history) {
            var i :| 0 < i < n && history[i].IsPaid();
            if i < n - 1 {
              assert front[i] == history[i];
            } else if n - 2 > 0 {
              assert front[n - 2] == prev;
            }
          }
        }
        assert PaidAfterCreation(front) ==> PaidAfterCreation(history) by {
          if PaidAfterCreation(front) {
            var i :| 0 < i < |front| && front[i].IsPaid();
            assert history[i] == front[i];
          }
        }
      }
    }
  }

  /** Outside the lifecycle (a paid booking set back to PENDING and paid
      again) the same coupon is counted twice. */
  lemma RepaidBookingCountsTwice()
    ensures CouponUses([Pending, Paid, Pending, Paid]) == 2
  {
    var h := [Pending, Paid, Pending, Paid];
    assert h[..3] == [Pending, Paid, Pending];
    assert [Pending, Paid, Pending][..2] == [Pending, Paid];
    assert [Pending, Paid][..1] == [Pending];
    assert CouponUses([Pending, Paid]) == 1;
    assert CouponUses([Pending, Paid, Pending]) == 1;
  }
}
