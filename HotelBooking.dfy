/**
 * The booking page: the parameters carried over from the detail page, the
 * room and person counters, the stored total payable and the submission
 * state (`isProcessing`, `bookingConfirmed`). The HTTP answers arrive as
 * the event methods OnHotelLoaded, OnSubmitSuccess and OnSubmitFailure.
 */
module HotelBooking {
  import opened Common
  import opened StayCost

  /** The query parameters the detail page navigates with. */
  datatype QueryParams = QueryParams(
    checkInDate: Option<DateText>,
    checkOutDate: Option<DateText>,
    selectedPersons: NumericText,
    selectedRooms: NumericText)

  /** The booking posted to the service (the form's own fields left out). */
  datatype BookingSummary = BookingSummary(
    userId: int,
    hotel: Option<Hotel>,
    checkInDate: DateText,
    checkOutDate: DateText,
    numberOfNights: nat,
    instantDiscount: real,
    couponDiscount: real,
    taxes: real,
    totalPayable: real,
    numberOfPersons: int,
    numberOfRooms: int)

  /** What a press of the submit button does. */
  datatype SubmitOutcome = FormInvalid | NotLoggedIn | Posted(summary: BookingSummary)

  class HotelBookingComponent {
    var isProcessing: bool
    var bookingConfirmed: bool
    var hotel: Option<Hotel>
    var numberOfPersons: int
    var numberOfRooms: int
    var checkInDate: DateText
    var checkOutDate: DateText
    var totalPayable: real
    /** Today's day number: `minDate`, the default for both dates. */
    const today: int

    constructor (currentDay: int)
      ensures !isProcessing && !bookingConfirmed && hotel.None?
      ensures numberOfPersons == 1 && numberOfRooms == 1
      ensures checkInDate == Empty && checkOutDate == Empty
      ensures totalPayable == 0.0 && today == currentDay
    {
      isProcessing, bookingConfirmed, hotel := false, false, None;
      numberOfPersons, numberOfRooms := 1, 1;
      checkInDate, checkOutDate := Empty, Empty;
      totalPayable := 0.0;
      today := currentDay;
    }

    /** Nights between the two dates, in either order; 0 when one does not parse. */
    function CalculateNights(): (n: nat)
      reads this
      ensures !(checkInDate.Day? && checkOutDate.Day?) ==> n == 0
      ensures checkInDate.Day? && checkOutDate.Day? ==>
        n == Distance(checkInDate.day, checkOutDate.day)
    {
      Nights(checkInDate, checkOutDate)
    }

    /** 18% of the room cost, the price counting as 0 while no hotel is loaded. */
    function CalculateTaxes(): (t: real)
      reads this
      ensures hotel.None? ==> t == 0.0
      ensures t * 100.0 == RoomCost(CalculateNights(), NightlyRate(hotel), numberOfRooms) * 18.0
    {
      Taxes(CalculateNights(), NightlyRate(hotel), numberOfRooms)
    }

    /** The stored total agrees with the current hotel, dates and room count. */
    ghost predicate TotalIsCurrent()
      reads this
    {
      totalPayable == TotalPayable(CalculateNights(), NightlyRate(hotel), numberOfRooms)
    }

    method CalculateTotal()
      modifies this`totalPayable
      ensures TotalIsCurrent()
    {
      var roomCost := RoomCost(CalculateNights(), NightlyRate(hotel), numberOfRooms);
      var discounts := InstantDiscount + CouponDiscount;
      var taxes := CalculateTaxes();
      totalPayable := roomCost - discounts + taxes;
    }

    /**
     * Page initialisation: seeds dates and counts from the query parameters,
     * issues the hotel fetch when the route carries a non-empty id, and
     * computes the total (before the hotel arrives).
     */
    method NgOnInit(hotelId: Option<string>, query: QueryParams) returns (fetchIssued: bool)
      modifies this`checkInDate, this`checkOutDate, this`numberOfPersons,
               this`numberOfRooms, this`totalPayable
      ensures checkInDate == InitialDate(query.checkInDate, today)
      ensures checkOutDate == InitialDate(query.checkOutDate, today)
      ensures numberOfPersons == InitialCount(query.selectedPersons)
      ensures numberOfRooms == InitialCount(query.selectedRooms)
      ensures fetchIssued <==> hotelId.Some? && hotelId.value != ""
      ensures TotalIsCurrent()
    {
      checkInDate := InitialDate(query.checkInDate, today);
      checkOutDate := InitialDate(query.checkOutDate, today);
      numberOfPersons := InitialCount(query.selectedPersons);
      numberOfRooms := InitialCount(query.selectedRooms);
      fetchIssued := hotelId.Some? && hotelId.value != "";
      CalculateTotal();
    }

    /** The hotel fetch succeeded. */
    method OnHotelLoaded(data: Hotel)
      modifies this`hotel, this`totalPayable
      ensures hotel == Some(data)
      ensures TotalIsCurrent()
    {
      hotel := Some(data);
      CalculateTotal();
    }

    method IncrementRooms()
      modifies this`numberOfRooms, this`totalPayable
      ensures numberOfRooms == old(numberOfRooms) + 1
      ensures TotalIsCurrent()
    {
      numberOfRooms := numberOfRooms + 1;
      CalculateTotal();
    }

    method DecrementRooms()
      modifies this`numberOfRooms, this`totalPayable
      ensures old(numberOfRooms) > 1 ==> numberOfRooms == old(numberOfRooms) - 1 && TotalIsCurrent()
      ensures old(numberOfRooms) <= 1 ==>
        numberOfRooms == old(numberOfRooms) && totalPayable == old(totalPayable)
      ensures old(numberOfRooms) >= 1 ==> numberOfRooms >= 1
    {
      if numberOfRooms > 1 {
        numberOfRooms := numberOfRooms - 1;
        CalculateTotal();
      }
    }

    /** The person count does not enter the price: a current total stays the same. */
    method IncrementPersons()
      modifies this`numberOfPersons, this`totalPayable
      ensures numberOfPersons == old(numberOfPersons) + 1
      ensures TotalIsCurrent()
      ensures old(TotalIsCurrent()) ==> totalPayable == old(totalPayable)
    {
      numberOfPersons := numberOfPersons + 1;
      CalculateTotal();
    }

    method DecrementPersons()
      modifies this`numberOfPersons, this`totalPayable
      ensures old(numberOfPersons) > 1 ==> numberOfPersons == old(numberOfPersons) - 1 && TotalIsCurrent()
      ensures old(numberOfPersons) <= 1 ==>
        numberOfPersons == old(numberOfPersons) && totalPayable == old(totalPayable)
      ensures old(numberOfPersons) >= 1 ==> numberOfPersons >= 1
      ensures old(TotalIsCurrent()) ==> totalPayable == old(totalPayable)
    {
      if numberOfPersons > 1 {
        numberOfPersons := numberOfPersons - 1;
        CalculateTotal();
      }
    }

    /** The booking that a successful submission posts for `userId`. */
    function Summary(userId: int): (s: BookingSummary)
      reads this
      ensures s.userId == userId && s.hotel == hotel
      ensures s.checkInDate == checkInDate && s.checkOutDate == checkOutDate
      ensures s.numberOfRooms == numberOfRooms && s.numberOfPersons == numberOfPersons
      ensures s.totalPayable == totalPayable
      ensures s.instantDiscount == InstantDiscount && s.couponDiscount == CouponDiscount
      ensures s.taxes * 100.0 == RoomCost(s.numberOfNights, NightlyRate(s.hotel), s.numberOfRooms) * 18.0
      ensures s.numberOfNights == Nights(s.checkInDate, s.checkOutDate)
      ensures TotalIsCurrent() ==>
        s.totalPayable == RoomCost(s.numberOfNights, NightlyRate(s.hotel), s.numberOfRooms)
                          - (s.instantDiscount + s.couponDiscount) + s.taxes
    {
      BookingSummary(userId, hotel, checkInDate, checkOutDate, CalculateNights(),
        InstantDiscount, CouponDiscount, CalculateTaxes(), totalPayable,
        numberOfPersons, numberOfRooms)
    }

    /**
     * The submit button. `formValid` is the form's validity; `storedUserId`
     * is `Number(...)` of the user id in local storage. An invalid form or a
     * missing user issues no request and changes nothing; otherwise the
     * booking is posted and the page is marked as processing.
     */
    method SubmitBooking(formValid: bool, storedUserId: NumericText) returns (outcome: SubmitOutcome)
      modifies this`isProcessing
      ensures !formValid ==> outcome == FormInvalid
      ensures formValid && Falsy(storedUserId) ==> outcome == NotLoggedIn
      ensures formValid && !Falsy(storedUserId) ==> outcome == Posted(Summary(storedUserId.value))
      ensures outcome.Posted? ==> isProcessing
      ensures !outcome.Posted? ==> isProcessing == old(isProcessing)
    {
      if !formValid {
        return FormInvalid;
      }
      if Falsy(storedUserId) {
        return NotLoggedIn;
      }
      var summary := Summary(storedUserId.value);
      isProcessing := true;
      outcome := Posted(summary);
    }

    /** The service accepted the booking. */
    method OnSubmitSuccess()
      modifies this`bookingConfirmed, this`isProcessing
      ensures bookingConfirmed && !isProcessing
    {
      bookingConfirmed := true;
      isProcessing := false;
    }

    /** The service rejected the booking: processing ends, confirmation is untouched. */
    method OnSubmitFailure()
      modifies this`isProcessing
      ensures !isProcessing && bookingConfirmed == old(bookingConfirmed)
    {
      isProcessing := false;
    }
  }
}
