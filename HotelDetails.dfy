/**
 * The hotel detail page: an image carousel with a circular cursor, the
 * date/room/person selectors and the price preview they drive, and the
 * `canBook` query that enables the booking button.
 */
module HotelDetails {
  import opened Common

  /** A JavaScript number that is either NaN or an exact value. */
  datatype Amount = NaN | Num(value: real)

  /** The ceilings the counters are checked against. */
  const MaxRooms: int := 5
  const MaxPersons: int := 10
  /** The number of fallback images set once the hotel has loaded. */
  const CarouselImageCount: nat := 3

  // ---------------------------------------------------------------------
  // Carousel cursor
  // ---------------------------------------------------------------------

  /** One image forward, wrapping from the last image to the first. */
  function NextIndex(i: int, n: nat): (j: int)
    requires n > 0 && 0 <= i < n
    ensures 0 <= j < n
    ensures j == if i == n - 1 then 0 else i + 1
  {
    (i + 1) % n
  }

  /** One image back, wrapping from the first image to the last. */
  function PrevIndex(i: int, n: nat): (j: int)
    requires n > 0 && 0 <= i < n
    ensures 0 <= j < n
    ensures j == if i == 0 then n - 1 else i - 1
  {
    (i - 1 + n) % n
  }

  lemma PrevAfterNext(i: int, n: nat)
    requires n > 0 && 0 <= i < n
    ensures PrevIndex(NextIndex(i, n), n) == i
  {
  }

  lemma NextAfterPrev(i: int, n: nat)
    requires n > 0 && 0 <= i < n
    ensures NextIndex(PrevIndex(i, n), n) == i
  {
  }

  /** The cursor after `k` presses of the forward button. */
  function Advance(i: int, n: nat, k: nat): (j: int)
    requires n > 0 && 0 <= i < n
    ensures 0 <= j < n
  {
    if k == 0 then i else NextIndex(Advance(i, n, k - 1), n)
  }

  /** Within one round, `k` forward presses move the cursor `k` places, wrapping once. */
  lemma {:induction false} AdvanceWithinRound(i: int, n: nat, k: nat)
    requires n > 0 && 0 <= i < n && k <= n
    ensures Advance(i, n, k) == if i + k < n then i + k else i + k - n
  {
    if k > 0 {
      AdvanceWithinRound(i, n, k - 1);
    }
  }

  /** Pressing forward `a` times and then `b` times is pressing it `a + b` times. */
  lemma {:induction false} AdvanceAdds(i: int, n: nat, a: nat, b: nat)
    requires n > 0 && 0 <= i < n
    ensures Advance(Advance(i, n, a), n, b) == Advance(i, n, a + b)
  {
    if b > 0 {
      AdvanceAdds(i, n, a, b - 1);
    }
  }

  /** A full round of forward presses brings the cursor back, so the cursor is periodic. */
  lemma FullRoundReturns(i: int, n: nat, k: nat)
    requires n > 0 && 0 <= i < n
    ensures Advance(i, n, n) == i
    ensures Advance(i, n, n + k) == Advance(i, n, k)
  {
    AdvanceWithinRound(i, n, n);
    AdvanceAdds(i, n, n, k);
  }

  // ---------------------------------------------------------------------
  // Price preview
  // ---------------------------------------------------------------------

  /**
   * The preview total: 0 while the hotel is missing or a date is empty;
   * NaN when a non-empty date does not parse; otherwise the nightly price
   * times the days of the stay, negative stays clamped to 0, times rooms.
   */
  function PreviewPrice(hotel: Option<Hotel>, checkIn: DateText, checkOut: DateText, rooms: int): (a: Amount)
    ensures hotel.None? || checkIn == Empty || checkOut == Empty ==> a == Num(0.0)
    ensures hotel.Some? && checkIn != Empty && checkOut != Empty && !(checkIn.Day? && checkOut.Day?) ==> a == NaN
  {
    if hotel.None? || checkIn == Empty || checkOut == Empty then Num(0.0)
    else if !(checkIn.Day? && checkOut.Day?) then NaN
    else
      var days := if checkOut.day - checkIn.day > 0 then checkOut.day - checkIn.day else 0;
      Num(hotel.value.price * days as real * rooms as real)
  }

  /** `canBook`: both dates entered and a positive total (NaN is not positive). */
  predicate Bookable(checkIn: DateText, checkOut: DateText, total: Amount)
    ensures total.NaN? || total == Num(0.0) ==> !Bookable(checkIn, checkOut, total)
    ensures Bookable(checkIn, checkOut, total) ==> checkIn != Empty && checkOut != Empty
  {
    checkIn != Empty && checkOut != Empty && total.Num? && total.value > 0.0
  }

  /** A check-out on or before check-in previews as 0, whatever the price. */
  lemma BackwardStayPreviewsZero(hotel: Hotel, inDay: int, outDay: int, rooms: int)
    requires outDay <= inDay
    ensures PreviewPrice(Some(hotel), Day(inDay), Day(outDay), rooms) == Num(0.0)
  {
  }

  /** A forward stay previews as price times nights times rooms. */
  lemma ForwardStayPreview(hotel: Hotel, inDay: int, outDay: int, rooms: int)
    requires inDay < outDay
    ensures PreviewPrice(Some(hotel), Day(inDay), Day(outDay), rooms)
         == Num(hotel.price * (outDay - inDay) as real * rooms as real)
  {
  }

  /**
   * With at least one room, booking is enabled after a recomputation exactly
   * when the hotel is loaded with a positive price and check-out is after
   * check-in.
   */
  lemma {:induction false} BookableIff(hotel: Option<Hotel>, checkIn: DateText, checkOut: DateText, rooms: int)
    requires rooms >= 1
    ensures Bookable(checkIn, checkOut, PreviewPrice(hotel, checkIn, checkOut, rooms)) <==>
      hotel.Some? && hotel.value.price > 0.0 &&
      checkIn.Day? && checkOut.Day? && checkIn.day < checkOut.day
  {
    if hotel.Some? && checkIn.Day? && checkOut.Day? && checkIn.day < checkOut.day {
      var p := hotel.value.price;
      var d := (checkOut.day - checkIn.day) as real;
      var r := rooms as real;
      assert d * r >= 1.0;
      assert p * d * r == p * (d * r);
      if p > 0.0 {
        assert p * (d * r) > 0.0;
      } else {
        assert p * (d * r) <= 0.0;
      }
    }
  }

  // ---------------------------------------------------------------------
  // The component
  // ---------------------------------------------------------------------

  class HotelDetailsComponent {
    var hotel: Option<Hotel>
    /** The length of `carouselImages`; the image URLs are not modelled. */
    var carouselSize: nat
    var currentImageIndex: int
    var checkInDate: DateText
    var checkOutDate: DateText
    var selectedRooms: int
    var selectedPersons: int
    var totalPrice: Amount

    /** Counters within their bounds; the cursor on an image once there are images. */
    ghost predicate Valid()
      reads this
    {
      && 1 <= selectedRooms <= MaxRooms
      && 1 <= selectedPersons <= MaxPersons
      && (carouselSize == 0 || carouselSize == CarouselImageCount)
      && 0 <= currentImageIndex
      && (carouselSize == 0 ==> currentImageIndex == 0)
      && (carouselSize > 0 ==> currentImageIndex < carouselSize)
    }

    constructor ()
      ensures Valid()
      ensures hotel.None? && carouselSize == 0 && currentImageIndex == 0
      ensures checkInDate == Empty && checkOutDate == Empty
      ensures selectedRooms == 1 && selectedPersons == 1 && totalPrice == Num(0.0)
    {
      hotel, carouselSize, currentImageIndex := None, 0, 0;
      checkInDate, checkOutDate := Empty, Empty;
      selectedRooms, selectedPersons := 1, 1;
      totalPrice := Num(0.0);
    }

    /** The hotel fetch succeeded: the carousel is filled and the preview computed. */
    method OnHotelLoaded(data: Hotel)
      requires Valid()
      modifies this`hotel, this`carouselSize, this`totalPrice
      ensures Valid()
      ensures hotel == Some(data) && carouselSize == CarouselImageCount
      ensures totalPrice == PreviewPrice(hotel, checkInDate, checkOutDate, selectedRooms)
    {
      hotel := Some(data);
      carouselSize := CarouselImageCount;
      UpdateBookingSummary();
    }

    method NextImage()
      requires Valid() && carouselSize > 0
      modifies this`currentImageIndex
      ensures Valid()
      ensures currentImageIndex == NextIndex(old(currentImageIndex), carouselSize)
    {
      currentImageIndex := (currentImageIndex + 1) % carouselSize;
    }

    method PrevImage()
      requires Valid() && carouselSize > 0
      modifies this`currentImageIndex
      ensures Valid()
      ensures currentImageIndex == PrevIndex(old(currentImageIndex), carouselSize)
    {
      currentImageIndex := (currentImageIndex - 1 + carouselSize) % carouselSize;
    }

    method UpdateBookingSummary()
      modifies this`totalPrice
      ensures totalPrice == PreviewPrice(hotel, checkInDate, checkOutDate, selectedRooms)
    {
      if hotel.None? || checkInDate == Empty || checkOutDate == Empty {
        totalPrice := Num(0.0);
        return;
      }
      if !(checkInDate.Day? && checkOutDate.Day?) {
        totalPrice := NaN;
        return;
      }
      var days := checkOutDate.day - checkInDate.day;
      if days < 0 {
        days := 0;
      }
      totalPrice := Num(hotel.value.price * days as real * selectedRooms as real);
    }

    method DecreaseRooms()
      requires Valid()
      modifies this`selectedRooms, this`totalPrice
      ensures Valid()
      ensures old(selectedRooms) > 1 ==> (selectedRooms == old(selectedRooms) - 1 &&
        totalPrice == PreviewPrice(hotel, checkInDate, checkOutDate, selectedRooms))
      ensures old(selectedRooms) == 1 ==> selectedRooms == 1 && totalPrice == old(totalPrice)
    {
      if selectedRooms > 1 {
        selectedRooms := selectedRooms - 1;
        UpdateBookingSummary();
      }
    }

    method IncreaseRooms()
      requires Valid()
      modifies this`selectedRooms, this`totalPrice
      ensures Valid()
      ensures old(selectedRooms) < MaxRooms ==> (selectedRooms == old(selectedRooms) + 1 &&
        totalPrice == PreviewPrice(hotel, checkInDate, checkOutDate, selectedRooms))
      ensures old(selectedRooms) == MaxRooms ==> selectedRooms == MaxRooms && totalPrice == old(totalPrice)
    {
      if selectedRooms < 5 {
        selectedRooms := selectedRooms + 1;
        UpdateBookingSummary();
      }
    }

    method DecreasePersons()
      requires Valid()
      modifies this`selectedPersons, this`totalPrice
      ensures Valid()
      ensures old(selectedPersons) > 1 ==> (selectedPersons == old(selectedPersons) - 1 &&
        totalPrice == PreviewPrice(hotel, checkInDate, checkOutDate, selectedRooms))
      ensures old(selectedPersons) == 1 ==> selectedPersons == 1 && totalPrice == old(totalPrice)
    {
      if selectedPersons > 1 {
        selectedPersons := selectedPersons - 1;
        UpdateBookingSummary();
      }
    }

    method IncreasePersons()
      requires Valid()
      modifies this`selectedPersons, this`totalPrice
      ensures Valid()
      ensures old(selectedPersons) < MaxPersons ==> (selectedPersons == old(selectedPersons) + 1 &&
        totalPrice == PreviewPrice(hotel, checkInDate, checkOutDate, selectedRooms))
      ensures old(selectedPersons) == MaxPersons ==> selectedPersons == MaxPersons && totalPrice == old(totalPrice)
    {
      if selectedPersons < 10 {
        selectedPersons := selectedPersons + 1;
        UpdateBookingSummary();
      }
    }

    /**
     * Never with an empty date; and while the preview is current, exactly
     * when the hotel has a positive price and check-out follows check-in.
     */
    function CanBook(): (b: bool)
      reads this
      ensures b ==> checkInDate != Empty && checkOutDate != Empty
      ensures totalPrice == PreviewPrice(hotel, checkInDate, checkOutDate, selectedRooms) && selectedRooms >= 1 ==>
        (b <==> hotel.Some? && hotel.value.price > 0.0 &&
                checkInDate.Day? && checkOutDate.Day? && checkInDate.day < checkOutDate.day)
    {
      if selectedRooms >= 1 then
        BookableIff(hotel, checkInDate, checkOutDate, selectedRooms);
        Bookable(checkInDate, checkOutDate, totalPrice)
      else
        Bookable(checkInDate, checkOutDate, totalPrice)
    }
  }
}
