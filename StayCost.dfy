/**
 * The booking page's price engine as pure functions: the night count, the
 * room cost, the tax, the total payable, and the defaults the page applies
 * to the values carried over from the detail page.
 */
module StayCost {
  import opened Common

  /** The two fixed discounts and the tax rate (18%, as an exact rational). */
  const InstantDiscount: real := 1000.0
  const CouponDiscount: real := 500.0
  const TaxRate: real := 18.0 / 100.0

  /** Absolute difference of two integers. */
  function Distance(a: int, b: int): (d: nat)
    ensures d == a - b || d == b - a
  {
    if a <= b then b - a else a - b
  }

  /**
   * Nights between check-in and check-out, in either order; 0 when either
   * date does not parse (the empty text does not parse either).
   */
  function Nights(checkIn: DateText, checkOut: DateText): (n: nat)
    ensures !(checkIn.Day? && checkOut.Day?) ==> n == 0
    ensures checkIn.Day? && checkOut.Day? ==> n == Distance(checkIn.day, checkOut.day)
  {
    if checkIn.Day? && checkOut.Day? then Distance(checkIn.day, checkOut.day) else 0
  }

  /** The nightly rate used while pricing: 0 while no hotel is loaded. */
  function NightlyRate(hotel: Option<Hotel>): (rate: real)
    ensures hotel.None? ==> rate == 0.0
    ensures hotel.Some? ==> rate == hotel.value.price
  {
    if hotel.Some? then hotel.value.price else 0.0
  }

  /** Nights times the nightly rate times rooms: free when any factor is 0. */
  function RoomCost(nights: nat, rate: real, rooms: int): (c: real)
    ensures nights == 0 || rate == 0.0 || rooms == 0 ==> c == 0.0
  {
    nights as real * rate * rooms as real
  }

  /** The tax: 18% of the room cost. */
  function Taxes(nights: nat, rate: real, rooms: int): (t: real)
    ensures t * 100.0 == RoomCost(nights, rate, rooms) * 18.0
    ensures RoomCost(nights, rate, rooms) >= 0.0 ==> 0.0 <= t <= RoomCost(nights, rate, rooms)
  {
    RoomCost(nights, rate, rooms) * TaxRate
  }

  /** Room cost less both discounts plus tax; no floor is applied. */
  function TotalPayable(nights: nat, rate: real, rooms: int): (total: real)
    ensures RoomCost(nights, rate, rooms) == 0.0 ==> total == -(InstantDiscount + CouponDiscount)
    ensures total >= -(InstantDiscount + CouponDiscount) <==> RoomCost(nights, rate, rooms) >= 0.0
  {
    RoomCost(nights, rate, rooms) - (InstantDiscount + CouponDiscount) + Taxes(nights, rate, rooms)
  }

  /**
   * `+param || 1`: a count carried over as a query parameter, defaulting
   * to 1 when the parameter is absent, empty, zero or not a number.
   */
  function InitialCount(param: NumericText): (c: int)
    ensures c != 0
    ensures Falsy(param) ==> c == 1
    ensures !Falsy(param) ==> c == param.value
  {
    if Falsy(param) then 1 else param.value
  }

  /**
   * `param || minDate`: a date carried over as a query parameter (None when
   * absent), defaulting to today when absent or empty.
   */
  function InitialDate(param: Option<DateText>, today: int): (d: DateText)
    ensures d != Empty
    ensures param.None? || param.value == Empty ==> d == Day(today)
    ensures param.Some? && param.value != Empty ==> d == param.value
  {
    if param.None? || param.value == Empty then Day(today) else param.value
  }

  // ---------------------------------------------------------------------
  // Properties of the night count
  // ---------------------------------------------------------------------

  lemma NightsSymmetric(checkIn: DateText, checkOut: DateText)
    ensures Nights(checkIn, checkOut) == Nights(checkOut, checkIn)
  {
  }

  /** A check-out before check-in is billed as many nights as the reversed pair. */
  lemma BackwardStayIsBilled(inDay: int, outDay: int)
    requires outDay < inDay
    ensures Nights(Day(inDay), Day(outDay)) == inDay - outDay > 0
  {
  }

  /** No nights exactly when a date fails to parse or both are the same day. */
  lemma NightsZeroIff(checkIn: DateText, checkOut: DateText)
    ensures Nights(checkIn, checkOut) == 0 <==>
      !(checkIn.Day? && checkOut.Day?) || checkIn.day == checkOut.day
  {
  }

  // ---------------------------------------------------------------------
  // Properties of the price breakdown
  // ---------------------------------------------------------------------

  /** With non-negative inputs neither the room cost nor the tax is negative. */
  lemma {:induction false} TaxesNonNegative(nights: nat, rate: real, rooms: int)
    requires rate >= 0.0 && rooms >= 0
    ensures RoomCost(nights, rate, rooms) >= 0.0
    ensures Taxes(nights, rate, rooms) >= 0.0
  {
    var nr := nights as real * rate;
    assert nr >= 0.0;
    assert nr * rooms as real >= 0.0;
  }

  /** The total is 118% of the room cost less the 1500 of discounts. */
  lemma TotalClosedForm(nights: nat, rate: real, rooms: int)
    ensures TotalPayable(nights, rate, rooms)
         == RoomCost(nights, rate, rooms) * (118.0 / 100.0) - 1500.0
  {
  }

  /** Each extra room adds one room's stay plus its tax to the total. */
  lemma TotalPerRoom(nights: nat, rate: real, rooms: int)
    ensures TotalPayable(nights, rate, rooms + 1) - TotalPayable(nights, rate, rooms)
         == nights as real * rate * (118.0 / 100.0)
  {
    var nr := nights as real * rate;
    assert RoomCost(nights, rate, rooms + 1) == nr * rooms as real + nr;
  }

  /** Before the hotel loads the rate is 0, so the total is minus the discounts. */
  lemma TotalBeforeHotelLoads(nights: nat, rooms: int)
    ensures TotalPayable(nights, NightlyRate(None), rooms) == -1500.0
  {
  }

  /** The total is not clamped: a short stay at a low rate is negative. */
  lemma TotalCanBeNegative()
    ensures TotalPayable(1, 1000.0, 1) == -320.0
  {
  }

  /**
   * The worked example: 1000 a night from 2024-01-01 to 2024-01-03 (two
   * consecutive day numbers apart by 2) for 2 rooms.
   */
  lemma TwoNightsTwoRooms(start: int)
    ensures Nights(Day(start), Day(start + 2)) == 2
    ensures RoomCost(2, 1000.0, 2) == 4000.0
    ensures Taxes(2, 1000.0, 2) == 720.0
    ensures TotalPayable(2, 1000.0, 2) == 3220.0
  {
  }

  /** The query defaults give a positive count unless a negative one is carried over. */
  lemma InitialCountPositiveIff(param: NumericText)
    ensures InitialCount(param) >= 1 <==> !(param.Number? && param.value < 0)
  {
  }
}
