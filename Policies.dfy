/**
 * The booking page and the detail page price the same stay with two
 * different policies. These lemmas state where the two agree and where
 * they do not.
 */
module Policies {
  import opened Common
  import opened StayCost
  import opened HotelDetails
  import opened HotelBooking

  /** For a forward stay the preview is the booking page's room cost, before discounts and tax. */
  lemma ForwardStaysAgree(hotel: Hotel, inDay: int, outDay: int, rooms: int)
    requires inDay <= outDay
    ensures PreviewPrice(Some(hotel), Day(inDay), Day(outDay), rooms)
         == Num(RoomCost(Nights(Day(inDay), Day(outDay)), NightlyRate(Some(hotel)), rooms))
  {
  }

  /**
   * A check-out before check-in: the booking page bills the reversed stay,
   * while the detail page previews 0 and so disables booking.
   */
  lemma {:induction false} BackwardStaysDisagree(hotel: Hotel, inDay: int, outDay: int, rooms: int)
    requires outDay < inDay && hotel.price > 0.0 && rooms >= 1
    ensures RoomCost(Nights(Day(inDay), Day(outDay)), NightlyRate(Some(hotel)), rooms) > 0.0
    ensures PreviewPrice(Some(hotel), Day(inDay), Day(outDay), rooms) == Num(0.0)
    ensures !Bookable(Day(inDay), Day(outDay), PreviewPrice(Some(hotel), Day(inDay), Day(outDay), rooms))
  {
    var n := (inDay - outDay) as real;
    assert n >= 1.0;
    assert n * hotel.price > 0.0;
    assert n * hotel.price * rooms as real >= n * hotel.price;
  }

  /** A date that does not parse: no nights on the booking page, NaN on the detail page. */
  lemma InvalidDateDisagrees(hotel: Hotel, other: DateText)
    requires other != Empty
    ensures Nights(Invalid, other) == 0 && Nights(other, Invalid) == 0
    ensures PreviewPrice(Some(hotel), Invalid, other, 1) == NaN
    ensures PreviewPrice(Some(hotel), other, Invalid, 1) == NaN
  {
  }

  /**
   * Six presses of "add room" from the start: the booking page counts seven
   * rooms, the detail page stops at its ceiling of five.
   */
  method RoomCeilingsDisagree(today: int) returns (bookingRooms: int, detailRooms: int)
    ensures bookingRooms == 7
    ensures detailRooms == MaxRooms
  {
    var booking := new HotelBookingComponent(today);
    var details := new HotelDetailsComponent();
    booking.IncrementRooms(); details.IncreaseRooms();
    booking.IncrementRooms(); details.IncreaseRooms();
    booking.IncrementRooms(); details.IncreaseRooms();
    booking.IncrementRooms(); details.IncreaseRooms();
    booking.IncrementRooms(); details.IncreaseRooms();
    booking.IncrementRooms(); details.IncreaseRooms();
    bookingRooms := booking.numberOfRooms;
    detailRooms := details.selectedRooms;
  }
}
