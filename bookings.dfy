/** Coupons, bookings and the availability rule. The availability test belongs
    to a room in the source, but it queries bookings, so it lives here: rooms
    cannot import bookings and be imported by them at once. */
module Bookings {
  import opened Common
  import opened Rooms

  // ---------------------------------------------------------------- coupons

  datatype DiscountType = Percentage | FixedAmount

  datatype CouponError = WindowNotOrdered | PercentageOver100

  /** A discount code. Only its usage counter is written by the core. A
      nullable `max_discount` or `max_uses` is `None`; note that the source
      tests both for truthiness, so a stored 0 behaves as "no limit". */
  class Coupon {
    const code: string
    const discountType: DiscountType
    const discountValue: real
    const minAmount: real
    const maxDiscount: Option<real>
    const validFrom: Instant
    const validUntil: Instant
    const maxUses: Option<nat>
    const isActive: bool
    var timesUsed: nat

    /** `clean`: the validity window must be non-empty and a percentage must not
        exceed 100. */
    function Clean(): (r: Outcome<CouponError>)
      ensures r == Pass <==> validFrom < validUntil && (discountType == Percentage ==> discountValue <= 100.0)
      ensures r == Fail(WindowNotOrdered) <==> validFrom >= validUntil
      ensures r == Fail(PercentageOver100) <==> validFrom < validUntil && discountType == Percentage && discountValue > 100.0
    {
      if validFrom >= validUntil then Fail(WindowNotOrdered)
      else if discountType == Percentage && discountValue > 100.0 then Fail(PercentageOver100)
      else Pass
    }

    /** The usage limit is in force only when `max_uses` is set and non-zero. */
    predicate UsageLimitReached()
      reads this
    {
      maxUses.Some? && maxUses.value != 0 && timesUsed >= maxUses.value
    }

    /** `is_valid`, with the current time passed in. */
    predicate IsValid(now: Instant)
      reads this
      ensures IsValid(now) ==> isActive && validFrom <= now <= validUntil
      ensures maxUses.Some? && 0 < maxUses.value <= timesUsed ==> !IsValid(now)
      ensures (maxUses.None? || maxUses == Some(0)) ==> (IsValid(now) <==> isActive && validFrom <= now <= validUntil)
      ensures IsValid(now) <==>
        isActive && validFrom <= now <= validUntil && (maxUses.None? || maxUses.value == 0 || timesUsed < maxUses.value)
    {
      isActive && !(now < validFrom || now > validUntil) && !UsageLimitReached()
    }

    /** True when the coupon grants a discount on `amount` at `now`. */
    predicate Applies(now: Instant, amount: real)
      reads this
    {
      IsValid(now) && amount >= minAmount
    }

    /** `calculate_discount`: nothing when the coupon is not valid or the amount
        is under the minimum; otherwise a percentage of the amount (capped by a
        non-zero `max_discount`) or the fixed value, never more than the amount. */
    function CalculateDiscount(now: Instant, amount: real): (r: real)
      reads this
      ensures !Applies(now, amount) ==> r == 0.0
      ensures Applies(now, amount) ==> r <= amount
      ensures 0.0 <= amount && 0.0 <= discountValue && (maxDiscount.Some? ==> 0.0 <= maxDiscount.value) ==> 0.0 <= r
      ensures Applies(now, amount) && discountType == Percentage && maxDiscount.Some? && maxDiscount.value != 0.0
        ==> r <= maxDiscount.value
      ensures Applies(now, amount) && discountType == Percentage && 0.0 <= amount
        ==> r <= amount * (discountValue / 100.0)
      ensures Applies(now, amount) && discountType == FixedAmount ==> r == Min(discountValue, amount)
      ensures Applies(now, amount) && discountType == Percentage ==>
        r == amount || r == amount * (discountValue / 100.0) || (maxDiscount.Some? && maxDiscount.value != 0.0 && r == maxDiscount.value)
    {
      if !IsValid(now) || amount < minAmount then 0.0
      else
        var discount :=
          if discountType == Percentage then
            var pct := amount * (discountValue / 100.0);
            assert 0.0 <= amount && 0.0 <= discountValue ==> 0.0 <= pct by {
              if 0.0 <= amount && 0.0 <= discountValue {
                NonNegativeProduct(amount, discountValue / 100.0);
              }
            }
            if maxDiscount.Some? && maxDiscount.value != 0.0 then Min(pct, maxDiscount.value) else pct
          else discountValue;
        Min(discount, amount)
    }
  }

  lemma NonNegativeProduct(a: real, b: real)
    requires 0.0 <= a && 0.0 <= b
    ensures 0.0 <= a * b
  {
  }

  /** Two coupon rows with the same terms (everything but the usage counter). */
  predicate SameTerms(c: Coupon, d: Coupon)
  {
    c.discountType == d.discountType && c.discountValue == d.discountValue
    && c.minAmount == d.minAmount && c.maxDiscount == d.maxDiscount
    && c.validFrom == d.validFrom && c.validUntil == d.validUntil
    && c.maxUses == d.maxUses && c.isActive == d.isActive
  }

  /** A stored `max_uses` of 0 means unlimited: with it, any usage count gives
      the same validity and the same discount. */
  lemma ZeroMaxUsesIsUnlimited(c: Coupon, d: Coupon, now: Instant, amount: real)
    requires SameTerms(c, d) && c.maxUses == Some(0)
    ensures c.IsValid(now) == d.IsValid(now)
    ensures c.CalculateDiscount(now, amount) == d.CalculateDiscount(now, amount)
  {
  }

  /** A stored `max_discount` of 0 means no cap: the percentage discount is the
      same as with no cap at all. */
  lemma ZeroMaxDiscountIsNoCap(c: Coupon, d: Coupon, now: Instant, amount: real)
    requires c.discountType == d.discountType == Percentage
    requires c.discountValue == d.discountValue && c.minAmount == d.minAmount
    requires c.validFrom == d.validFrom && c.validUntil == d.validUntil
    requires c.maxUses == d.maxUses && c.isActive == d.isActive && c.timesUsed == d.timesUsed
    requires c.maxDiscount == Some(0.0) && d.maxDiscount.None?
    ensures c.CalculateDiscount(now, amount) == d.CalculateDiscount(now, amount)
  {
  }

  /** A coupon whose usage count has reached a non-zero `max_uses` (5 of 5, say)
      is invalid at every instant and grants nothing. */
  lemma ExhaustedCouponGrantsNothing(c: Coupon, now: Instant, amount: real)
    requires c.maxUses == Some(5) && c.timesUsed == 5
    ensures !c.IsValid(now) && c.CalculateDiscount(now, amount) == 0.0
  {
  }

  // --------------------------------------------------------------- bookings

  datatype PaymentStatus = Pending | Paid | Confirmed | Cancelled | Refunded
  {
    /** The statuses that hold a room and count as a completed booking. */
    predicate IsPaid() { this == Paid || this == Confirmed }
  }

  datatype BookingError =
    | DatesNotOrdered
    | CheckInInPast
    | OverCapacity(capacity: nat)
    | RoomUnavailable
    | NotCancellable

  /** The value-added tax applied to every booking (16%). */
  const TaxRate: real := 0.16

  /** `night` is one of the nights of the half-open stay [checkIn, checkOut). */
  predicate NightOf(night: Day, checkIn: Day, checkOut: Day)
  {
    checkIn <= night < checkOut
  }

  /** The nights of the half-open stay [checkIn, checkOut). */
  function NightsOfStay(checkIn: Day, checkOut: Day): (nights: set<Day>)
    ensures forall night :: night in nights <==> NightOf(night, checkIn, checkOut)
  {
    set night: Day | checkIn <= night < checkOut && NightOf(night, checkIn, checkOut)
  }

  /** A stay from `checkIn` to a later or equal `checkOut` has exactly
      `checkOut - checkIn` nights. */
  lemma {:induction false} NightsOfStayCount(checkIn: Day, checkOut: Day)
    requires checkIn <= checkOut
    ensures |NightsOfStay(checkIn, checkOut)| == checkOut - checkIn
    decreases checkOut - checkIn
  {
    if checkIn < checkOut {
      NightsOfStayCount(checkIn, checkOut - 1);
      assert NightsOfStay(checkIn, checkOut) == NightsOfStay(checkIn, checkOut - 1) + {checkOut - 1};
    } else {
      assert NightsOfStay(checkIn, checkOut) == {};
    }
  }

  /** Half-open stays [in1, out1) and [in2, out2) share at least one night. */
  predicate StaysOverlap(in1: Day, out1: Day, in2: Day, out2: Day)
  {
    in1 < out2 && out1 > in2
  }

  /** A reservation of one room. Its parties, room and dates are fixed; its
      invoice number, prices and payment status are written by the core. The
      dates are optional because the source tests for their presence. */
  class Booking {
    const user: UserId
    const hotel: HotelId
    const room: Room
    const coupon: Coupon?
    const checkIn: Option<Day>
    const checkOut: Option<Day>
    const bookingDate: Instant
    const adults: nat
    const children: nat
    var invoiceId: string
    var subtotal: real
    var discountAmount: real
    var taxAmount: real
    var totalPrice: real
    var paymentStatus: PaymentStatus

    /** A new, unsaved booking: PENDING, no invoice number, no discount or tax
        yet (the field defaults); the prices are filled in by `Save`. */
    constructor (user: UserId, hotel: HotelId, room: Room, coupon: Coupon?,
                 checkIn: Option<Day>, checkOut: Option<Day>, bookingDate: Instant,
                 adults: nat, children: nat)
      ensures this.user == user && this.hotel == hotel && this.room == room && this.coupon == coupon
      ensures this.checkIn == checkIn && this.checkOut == checkOut && this.bookingDate == bookingDate
      ensures this.adults == adults && this.children == children
      ensures paymentStatus == Pending && invoiceId == ""
      ensures discountAmount == 0.0 && taxAmount == 0.0
    {
      this.user, this.hotel, this.room, this.coupon := user, hotel, room, coupon;
      this.checkIn, this.checkOut, this.bookingDate := checkIn, checkOut, bookingDate;
      this.adults, this.children := adults, children;
      invoiceId := "";
      subtotal, discountAmount, taxAmount, totalPrice := 0.0, 0.0, 0.0, 0.0;
      paymentStatus := Pending;
    }

    predicate HasDates()
    {
      checkIn.Some? && checkOut.Some?
    }

    /** `total_days`: the nights between check-in and check-out, 0 without dates. */
    function TotalDays(): (n: int)
      ensures HasDates() && checkIn.value <= checkOut.value ==> n == |NightsOfStay(checkIn.value, checkOut.value)|
      ensures HasDates() ==> checkIn.value + n == checkOut.value
      ensures !HasDates() ==> n == 0
    {
      if HasDates() then
        if checkIn.value <= checkOut.value then
          NightsOfStayCount(checkIn.value, checkOut.value);
          checkOut.value - checkIn.value
        else checkOut.value - checkIn.value
      else 0
    }

    /** The discount the pricing rule grants on `amount`: the coupon's, when one
        is attached and valid at `now`. */
    function AppliedDiscount(now: Instant, amount: real): (d: real)
      reads coupon
      ensures coupon == null || !coupon.IsValid(now) ==> d == 0.0
      ensures coupon != null && coupon.IsValid(now) ==> d == coupon.CalculateDiscount(now, amount)
    {
      if coupon != null && coupon.IsValid(now) then coupon.CalculateDiscount(now, amount) else 0.0
    }

    /** The four price fields agree with the pricing rule at `now`. */
    predicate PricesCurrent(now: Instant)
      reads this, coupon
    {
      && subtotal == room.roomType.pricePerNight * TotalDays() as real
      && discountAmount == AppliedDiscount(now, subtotal)
      && taxAmount == (subtotal - discountAmount) * TaxRate
      && totalPrice == subtotal - discountAmount + taxAmount
    }

    /** `calculate_prices`: subtotal, then discount, then tax, then total. When
        the fields already agree with the rule nothing changes, so a second run
        on the same inputs is a no-op. */
    method CalculatePrices(now: Instant)
      modifies this`subtotal, this`discountAmount, this`taxAmount, this`totalPrice
      ensures PricesCurrent(now)
      ensures old(PricesCurrent(now)) ==>
        subtotal == old(subtotal) && discountAmount == old(discountAmount)
        && taxAmount == old(taxAmount) && totalPrice == old(totalPrice)
    {
      subtotal := room.roomType.pricePerNight * TotalDays() as real;
      if coupon != null && coupon.IsValid(now) {
        discountAmount := coupon.CalculateDiscount(now, subtotal);
      } else {
        discountAmount := 0.0;
      }
      var taxable := subtotal - discountAmount;
      taxAmount := taxable * TaxRate;
      totalPrice := subtotal - discountAmount + taxAmount;
    }

    /** `save`: give the booking an invoice number if it has none (the random
        number is passed in) and reprice it when both dates are set. */
    method Save(now: Instant, freshInvoiceId: string)
      requires freshInvoiceId != ""
      modifies this`invoiceId, this`subtotal, this`discountAmount, this`taxAmount, this`totalPrice
      ensures invoiceId == if old(invoiceId) == "" then freshInvoiceId else old(invoiceId)
      ensures invoiceId != ""
      ensures HasDates() ==> PricesCurrent(now)
      ensures !HasDates() ==>
        subtotal == old(subtotal) && discountAmount == old(discountAmount)
        && taxAmount == old(taxAmount) && totalPrice == old(totalPrice)
    {
      if invoiceId == "" {
        invoiceId := freshInvoiceId;
      }
      if HasDates() {
        CalculatePrices(now);
      }
    }

    /** `clean`: date order, no past check-in, guest capacity, then availability
        of the room against the stored bookings. The first failing rule is
        reported. The booking itself is not excluded from the stored bookings. */
    function Clean(today: Day, bookings: seq<Booking>): (r: Outcome<BookingError>)
      reads room, bookings
      ensures r == Pass <==>
        && (HasDates() ==> checkIn.value < checkOut.value && today <= checkIn.value
                           && RoomAvailableForDates(room, checkIn.value, checkOut.value, bookings))
        && adults + children <= room.roomType.roomCapacity
      ensures r == Fail(DatesNotOrdered) <==> HasDates() && checkIn.value >= checkOut.value
      ensures r == Fail(CheckInInPast) <==> HasDates() && checkIn.value < checkOut.value && checkIn.value < today
      ensures r == Fail(OverCapacity(room.roomType.roomCapacity)) <==>
        && (HasDates() ==> checkIn.value < checkOut.value && today <= checkIn.value)
        && adults + children > room.roomType.roomCapacity
      ensures r == Fail(RoomUnavailable) <==>
        && HasDates() && checkIn.value < checkOut.value && today <= checkIn.value
        && adults + children <= room.roomType.roomCapacity
        && !RoomAvailableForDates(room, checkIn.value, checkOut.value, bookings)
    {
      if HasDates() && checkIn.value >= checkOut.value then Fail(DatesNotOrdered)
      else if HasDates() && checkIn.value < today then Fail(CheckInInPast)
      else if adults + children > room.roomType.roomCapacity then Fail(OverCapacity(room.roomType.roomCapacity))
      else if HasDates() && !RoomAvailableForDates(room, checkIn.value, checkOut.value, bookings) then Fail(RoomUnavailable)
      else Pass
    }

    /** `can_be_cancelled`: not once cancelled or refunded, and only while the
        check-in day is still ahead. The source compares the check-in date
        directly, so it must be set unless the status already decides. */
    predicate CanBeCancelled(today: Day)
      requires paymentStatus == Cancelled || paymentStatus == Refunded || checkIn.Some?
      reads this
      ensures CanBeCancelled(today) <==> paymentStatus != Cancelled && paymentStatus != Refunded && today < checkIn.value
    {
      if paymentStatus == Cancelled || paymentStatus == Refunded then false
      else !(checkIn.value <= today)
    }

    /** `cancel`: refused (nothing changes) unless the booking can be cancelled
        on the day of `now`; otherwise it becomes CANCELLED and is saved, which
        reprices it at `now`. */
    method Cancel(now: Instant, freshInvoiceId: string) returns (r: Outcome<BookingError>)
      requires paymentStatus == Cancelled || paymentStatus == Refunded || checkIn.Some?
      requires freshInvoiceId != ""
      modifies this
      ensures r == Pass <==> old(CanBeCancelled(DayOf(now)))
      ensures r != Pass ==> r == Fail(NotCancellable) && unchanged(this)
      ensures r == Pass ==> paymentStatus == Cancelled && invoiceId != ""
      ensures r == Pass ==> invoiceId == if old(invoiceId) == "" then freshInvoiceId else old(invoiceId)
      ensures r == Pass && HasDates() ==> PricesCurrent(now)
      ensures r == Pass && !HasDates() ==>
        subtotal == old(subtotal) && discountAmount == old(discountAmount)
        && taxAmount == old(taxAmount) && totalPrice == old(totalPrice)
    {
      if !CanBeCancelled(DayOf(now)) {
        return Fail(NotCancellable);
      }
      paymentStatus := Cancelled;
      Save(now, freshInvoiceId);
      r := Pass;
    }

    /** The booking is paid or confirmed and `day` lies within its stay, both
        ends included: the `check_in_date__lte`/`check_out_date__gte` filter of
        the signals and of the nightly reconciliation (a missing date never
        matches). */
    predicate CoversDay(day: Day)
      reads this
    {
      HasDates() && checkIn.value <= day <= checkOut.value && paymentStatus.IsPaid()
    }

    /** A paid or confirmed booking whose check-in is after `day`. */
    predicate StartsAfter(day: Day)
      reads this
    {
      checkIn.Some? && checkIn.value > day && paymentStatus.IsPaid()
    }

    /** `is_active`: the booking is paid or confirmed and today lies within its
        stay, both ends included. The source compares the dates directly, so
        they must be set. */
    predicate IsActive(today: Day)
      requires HasDates()
      reads this
      ensures IsActive(today) <==> CoversDay(today)
      ensures IsActive(today) ==> paymentStatus.IsPaid() && checkIn.value <= today <= checkOut.value
    {
      checkIn.value <= today <= checkOut.value && paymentStatus.IsPaid()
    }

    /** The booking holds `room` on some night of [from, to). */
    predicate Blocks(r: Room, from: Day, to: Day)
      reads this
    {
      room == r && HasDates() && StaysOverlap(checkIn.value, checkOut.value, from, to) && paymentStatus.IsPaid()
    }
  }

  // ----------------------------------------------------------- availability

  /** `is_available_for_dates`: no paid or confirmed booking of the room
      overlaps the half-open stay [from, to), and the room's flag is set. */
  predicate RoomAvailableForDates(room: Room, from: Day, to: Day, bookings: seq<Booking>)
    reads room, bookings
    ensures RoomAvailableForDates(room, from, to, bookings) ==> room.isAvailable
    ensures from < to && StoredStaysNonEmpty(bookings) ==>
      (RoomAvailableForDates(room, from, to, bookings) <==> room.isAvailable && !NightTaken(room, from, to, bookings))
  {
    assert from < to && StoredStaysNonEmpty(bookings) ==>
      ((forall i :: 0 <= i < |bookings| ==> !bookings[i].Blocks(room, from, to)) <==> !NightTaken(room, from, to, bookings)) by {
      if from < to && StoredStaysNonEmpty(bookings) {
        forall i | 0 <= i < |bookings| && bookings[i].room == room && bookings[i].HasDates()
          ensures StaysOverlap(bookings[i].checkIn.value, bookings[i].checkOut.value, from, to) <==>
            exists night :: NightOf(night, bookings[i].checkIn.value, bookings[i].checkOut.value) && NightOf(night, from, to)
        {
          OverlapMeansSharedNight(bookings[i].checkIn.value, bookings[i].checkOut.value, from, to);
        }
      }
    }
    (forall i :: 0 <= i < |bookings| ==> !bookings[i].Blocks(room, from, to)) && room.isAvailable
  }

  /** Every stored booking with both dates has check-in before check-out. */
  predicate StoredStaysNonEmpty(bookings: seq<Booking>)
    reads bookings
  {
    forall i :: 0 <= i < |bookings| && bookings[i].HasDates() ==> bookings[i].checkIn.value < bookings[i].checkOut.value
  }

  /** Some paid or confirmed booking of `room` holds a night of [from, to). */
  ghost predicate NightTaken(room: Room, from: Day, to: Day, bookings: seq<Booking>)
    reads bookings
  {
    exists i, night :: 0 <= i < |bookings| && bookings[i].room == room && bookings[i].HasDates()
      && bookings[i].paymentStatus.IsPaid() && NightOf(night, from, to)
      && NightOf(night, bookings[i].checkIn.value, bookings[i].checkOut.value)
  }

  // ------------------------------------------------- availability lemmas

  /** The overlap test agrees with its meaning: two non-empty stays overlap
      exactly when some night belongs to both. */
  lemma {:induction false} OverlapMeansSharedNight(in1: Day, out1: Day, in2: Day, out2: Day)
    requires in1 < out1 && in2 < out2
    ensures StaysOverlap(in1, out1, in2, out2) <==> exists night :: NightOf(night, in1, out1) && NightOf(night, in2, out2)
  {
    if StaysOverlap(in1, out1, in2, out2) {
      var night := if in1 < in2 then in2 else in1;
      assert NightOf(night, in1, out1) && NightOf(night, in2, out2);
    }
  }

  /** The overlap test does not depend on which stay is the stored one. */
  lemma OverlapIsSymmetric(in1: Day, out1: Day, in2: Day, out2: Day)
    ensures StaysOverlap(in1, out1, in2, out2) == StaysOverlap(in2, out2, in1, out1)
  {
  }

  /** Stays that meet on a boundary day do not conflict: a stay [d, d+4) and a
      stay [d+4, d+6) may share a room, a stay [d+3, d+5) may not. */
  lemma BackToBackStaysDoNotOverlap(d: Day)
    ensures !StaysOverlap(d, d + 4, d + 4, d + 6) && !StaysOverlap(d + 4, d + 6, d, d + 4)
    ensures StaysOverlap(d, d + 4, d + 3, d + 5)
  {
  }

  /** Bookings of other rooms, and bookings that are pending, cancelled or
      refunded, never change the availability of a room. */
  lemma {:induction false} OnlyPaidBookingsOfTheRoomBlock(room: Room, from: Day, to: Day, bookings: seq<Booking>, others: seq<Booking>)
    requires forall j :: 0 <= j < |others| ==> others[j].room != room || !others[j].paymentStatus.IsPaid()
    ensures RoomAvailableForDates(room, from, to, bookings + others) == RoomAvailableForDates(room, from, to, bookings)
  {
    var all := bookings + others;
    forall i | 0 <= i < |all|
      ensures all[i].Blocks(room, from, to) ==> i < |bookings| && bookings[i].Blocks(room, from, to)
    {
      if i >= |bookings| {
        assert all[i] == others[i - |bookings|];
      }
    }
    forall i | 0 <= i < |bookings|
      ensures all[i] == bookings[i]
    {
    }
  }

  /** A room free for a stay is free for every stay inside it. */
  lemma AvailableForShorterStay(room: Room, from: Day, to: Day, from': Day, to': Day, bookings: seq<Booking>)
    requires RoomAvailableForDates(room, from, to, bookings)
    requires from <= from' && to' <= to
    ensures RoomAvailableForDates(room, from', to', bookings)
  {
  }

  /** Re-validating a stored booking that is already paid or confirmed fails:
      `clean` checks availability without leaving the booking itself out, so
      the booking conflicts with itself. */
  lemma {:induction false} PaidBookingConflictsWithItself(b: Booking, today: Day, bookings: seq<Booking>)
    requires b in bookings && b.paymentStatus.IsPaid()
    requires b.HasDates() && b.checkIn.value < b.checkOut.value
    ensures b.Clean(today, bookings) != Pass
    ensures today <= b.checkIn.value && b.adults + b.children <= b.room.roomType.roomCapacity
      ==> b.Clean(today, bookings) == Fail(RoomUnavailable)
  {
    var i :| 0 <= i < |bookings| && bookings[i] == b;
    assert bookings[i].Blocks(b.room, b.checkIn.value, b.checkOut.value);
  }

  // ------------------------------------------------ pricing and lifecycle

  /** Whatever the coupon, the stored prices of a non-negative stay are
      consistent: the discount lies between 0 and the subtotal, the tax is
      non-negative, and the total is the discounted subtotal plus 16%. */
  lemma {:induction false} PricesAreConsistent(b: Booking, now: Instant)
    requires b.PricesCurrent(now)
    requires 0.0 <= b.room.roomType.pricePerNight && 0 <= b.TotalDays()
    requires b.coupon != null ==>
      0.0 <= b.coupon.discountValue && (b.coupon.maxDiscount.Some? ==> 0.0 <= b.coupon.maxDiscount.value)
    ensures 0.0 <= b.discountAmount <= b.subtotal
    ensures 0.0 <= b.taxAmount
    ensures b.totalPrice == (b.subtotal - b.discountAmount) * (1.0 + TaxRate)
    ensures 0.0 <= b.totalPrice <= b.subtotal * (1.0 + TaxRate)
  {
    NonNegativeProduct(b.room.roomType.pricePerNight, b.TotalDays() as real);
    if b.coupon != null && b.coupon.IsValid(now) {
      assert b.discountAmount == b.coupon.CalculateDiscount(now, b.subtotal);
      if !b.coupon.Applies(now, b.subtotal) {
        assert b.discountAmount == 0.0;
      }
    }
    NonNegativeProduct(b.subtotal - b.discountAmount, TaxRate);
  }

  /** The worked example: 1200.00 a night for three nights with a 10% coupon
      capped at 200.00 (minimum 1000.00) costs 3600.00 - 200.00 + 544.00. */
  lemma PricingExample(b: Booking, now: Instant)
    requires b.room.roomType.pricePerNight == 1200.0 && b.TotalDays() == 3
    requires b.coupon != null && b.coupon.IsValid(now)
    requires b.coupon.discountType == Percentage && b.coupon.discountValue == 10.0
    requires b.coupon.maxDiscount == Some(200.0) && b.coupon.minAmount == 1000.0
    requires b.PricesCurrent(now)
    ensures b.subtotal == 3600.0 && b.discountAmount == 200.0
    ensures b.taxAmount == 544.0 && b.totalPrice == 3944.0
  {
  }

  /** A booking whose check-in is today can no longer be cancelled, and neither
      can one that is active. */
  lemma NoCancellationFromCheckInDay(b: Booking, today: Day)
    requires b.HasDates()
    requires b.checkIn == Some(today) || b.IsActive(today)
    ensures !b.CanBeCancelled(today)
  {
  }

  /** `is_active` counts the check-out day, the availability test does not: on
      its check-out day an active booking no longer holds the room for that
      night, while on every earlier day of the stay it does. */
  lemma ActiveBookingHoldsTonightUntilCheckOut(b: Booking, today: Day)
    requires b.HasDates() && b.IsActive(today)
    ensures b.Blocks(b.room, today, today + 1) <==> today < b.checkOut.value
  {
  }
}
