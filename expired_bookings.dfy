/** The periodic sweep that cancels bookings left PENDING for too long. */
module ExpiredBookingsCommand {
  import opened Common
  import opened Bookings

  /** Days a booking may stay pending when no `--days` option is given. */
  const DefaultDays: int := 3

  /** The instant `days` whole days before `now`: the same time of day,
      `days` calendar days earlier. */
  function Cutoff(now: Instant, days: int): (c: Instant)
    ensures DayOf(c) == DayOf(now) - days && c % TicksPerDay == now % TicksPerDay
    ensures days >= 0 ==> c <= now
  {
    now - days * TicksPerDay
  }

  /** A booking is expired when it is still pending and was made strictly
      before the cutoff. */
  predicate Expired(b: Booking, cutoff: Instant)
    reads b
  {
    b.paymentStatus == Pending && b.bookingDate < cutoff
  }

  /** The rows the query for expired bookings returns, in table order. */
  function ExpiredOf(bookings: seq<Booking>, cutoff: Instant): (r: seq<Booking>)
    reads bookings
    ensures |r| <= |bookings|
    ensures forall b :: b in r ==> b in bookings && Expired(b, cutoff)
    ensures forall b :: b in bookings && Expired(b, cutoff) ==> b in r
    ensures multiset(r) <= multiset(bookings)
    ensures forall x :: x in bookings ==> multiset(r)[x] == if Expired(x, cutoff) then multiset(bookings)[x] else 0
  {
    if bookings == [] then []
    else
      var front, last := bookings[..|bookings| - 1], bookings[|bookings| - 1];
      assert bookings == front + [last];
      var kept := if Expired(last, cutoff) then [last] else [];
      assert multiset(kept) == if Expired(last, cutoff) then multiset{last} else multiset{};
      ExpiredOf(front, cutoff) + kept
  }

  /** The update of the sweep: every expired booking becomes CANCELLED and
      nothing else about any booking changes. */
  method CancelExpired(bookings: seq<Booking>, cutoff: Instant)
    modifies bookings
    ensures forall i :: 0 <= i < |bookings| ==>
      bookings[i].paymentStatus == if old(Expired(bookings[i], cutoff)) then Cancelled else old(bookings[i].paymentStatus)
    ensures forall i :: 0 <= i < |bookings| ==>
      bookings[i].invoiceId == old(bookings[i].invoiceId) && bookings[i].totalPrice == old(bookings[i].totalPrice)
      && bookings[i].subtotal == old(bookings[i].subtotal) && bookings[i].discountAmount == old(bookings[i].discountAmount)
      && bookings[i].taxAmount == old(bookings[i].taxAmount)
    ensures ExpiredOf(bookings, cutoff) == []
  {
    forall i | 0 <= i < |bookings| && Expired(bookings[i], cutoff) {
      bookings[i].paymentStatus := Cancelled;
    }
    NoneExpiredListsNothing(bookings, cutoff);
  }

  /** When no booking is expired the query returns no row. */
  lemma NoneExpiredListsNothing(bookings: seq<Booking>, cutoff: Instant)
    requires forall i :: 0 <= i < |bookings| ==> !Expired(bookings[i], cutoff)
    ensures ExpiredOf(bookings, cutoff) == []
  {
  }

  /** `check_expired_bookings` as written: the expired rows are counted and
      cancelled, then the same query is run again to list them, which by then
      returns nothing. */
  method CheckExpiredBookings(bookings: seq<Booking>, now: Instant, days: int)
    returns (count: nat, listed: seq<Booking>)
    modifies bookings
    ensures count == old(|ExpiredOf(bookings, Cutoff(now, days))|)
    ensures forall i :: 0 <= i < |bookings| ==>
      bookings[i].paymentStatus == if old(Expired(bookings[i], Cutoff(now, days))) then Cancelled else old(bookings[i].paymentStatus)
    ensures forall i :: 0 <= i < |bookings| ==>
      bookings[i].invoiceId == old(bookings[i].invoiceId) && bookings[i].totalPrice == old(bookings[i].totalPrice)
      && bookings[i].subtotal == old(bookings[i].subtotal) && bookings[i].discountAmount == old(bookings[i].discountAmount)
      && bookings[i].taxAmount == old(bookings[i].taxAmount)
    ensures count == 0 ==> forall i :: 0 <= i < |bookings| ==> unchanged(bookings[i])
    ensures listed == []
    ensures count > 0 ==> |listed| < count
  {
    var cutoff := Cutoff(now, days);
    count := |ExpiredOf(bookings, cutoff)|;
    listed := [];
    if count > 0 {
      CancelExpired(bookings, cutoff);
      listed := ExpiredOf(bookings, cutoff);
    } else {
      forall i | 0 <= i < |bookings| ensures !Expired(bookings[i], cutoff) {
        assert bookings[i] in bookings;
      }
    }
  }

  /** The sweep with the listing it evidently intends: the expired rows are
      taken before the update, so exactly the bookings it cancelled are
      listed. */
  method CheckExpiredBookingsListingCancelled(bookings: seq<Booking>, now: Instant, days: int)
    returns (count: nat, listed: seq<Booking>)
    modifies bookings
    ensures count == |listed|
    ensures listed == old(ExpiredOf(bookings, Cutoff(now, days)))
    ensures forall i :: 0 <= i < |bookings| ==>
      bookings[i].paymentStatus == if old(Expired(bookings[i], Cutoff(now, days))) then Cancelled else old(bookings[i].paymentStatus)
    ensures forall b :: b in listed ==> b in bookings && b.paymentStatus == Cancelled
    ensures forall i :: 0 <= i < |bookings| ==>
      bookings[i].invoiceId == old(bookings[i].invoiceId) && bookings[i].totalPrice == old(bookings[i].totalPrice)
      && bookings[i].subtotal == old(bookings[i].subtotal) && bookings[i].discountAmount == old(bookings[i].discountAmount)
      && bookings[i].taxAmount == old(bookings[i].taxAmount)
    ensures count == 0 ==> forall i :: 0 <= i < |bookings| ==> unchanged(bookings[i])
  {
    var cutoff := Cutoff(now, days);
    listed := ExpiredOf(bookings, cutoff);
    count := |listed|;
    if count > 0 {
      CancelExpired(bookings, cutoff);
      forall b | b in listed ensures b in bookings && b.paymentStatus == Cancelled {
        var i :| 0 <= i < |bookings| && bookings[i] == b;
      }
    } else {
      forall i | 0 <= i < |bookings| ensures !Expired(bookings[i], cutoff) {
        assert bookings[i] in bookings;
      }
    }
  }

  /** The cutoff is strict: a booking made exactly at it is kept. */
  lemma BookingAtCutoffIsKept(b: Booking, now: Instant, days: int)
    requires b.bookingDate == Cutoff(now, days)
    ensures !Expired(b, Cutoff(now, days))
  {
  }

  /** With the default period a pending booking made four days ago expires and
      one made two days ago does not. */
  lemma DefaultPeriodExample(b: Booking, c: Booking, now: Instant)
    requires b.paymentStatus == Pending && b.bookingDate == now - 4 * TicksPerDay
    requires c.paymentStatus == Pending && c.bookingDate == now - 2 * TicksPerDay
    ensures Expired(b, Cutoff(now, DefaultDays)) && !Expired(c, Cutoff(now, DefaultDays))
  {
  }
}
