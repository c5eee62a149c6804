/**
 * Value types shared by the three components: the hotel record the
 * catalog service returns, and the two kinds of user-supplied text the
 * components convert before computing with it.
 */
module Common {

  datatype Option<T> = None | Some(value: T)

  /**
   * What JavaScript's numeric conversion (`+text`, `Number(text)`) makes of
   * a query parameter or a stored value. An absent query parameter
   * (`undefined`) and a text that is not a number give NotANumber; the
   * empty text and an absent stored value (`null`) give Number(0).
   * Fractional numbers are not modelled.
   */
  datatype NumericText = NotANumber | Number(value: int)

  /** Falsy in JavaScript: NaN and 0. */
  predicate Falsy(v: NumericText)
  {
    v.NotANumber? || v.value == 0
  }

  /**
   * A date field's text as the `Date` parser sees it: the empty text, a
   * non-empty text that does not parse, or a calendar day given as a day
   * number (days since a fixed epoch).
   */
  datatype DateText = Empty | Invalid | Day(day: int)

  /**
   * A hotel record of the catalog. `amenities` is None when the record's
   * amenity field is missing or is not an array.
   */
  datatype Hotel = Hotel(
    id: int,
    name: string,
    location: string,
    price: real,
    amenities: Option<seq<string>>)
}
