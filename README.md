# jetsetgo hotel booking: a verified model of the three page components

This project models the logic of three Angular components of the jetsetgo
hotel-booking front end and proves properties about them.

- **Booking page** (`HotelBookingComponent`):
  - the price engine: nights, room cost, 18% tax, two fixed discounts, total payable;
  - the defaults applied to the query parameters handed over by the detail page;
  - the room and person counters;
  - the submission state machine over `isProcessing` and `bookingConfirmed`.
- **Detail page** (`HotelDetailsComponent`):
  - the circular image carousel;
  - a second, different price preview;
  - the room and person counters, bounded to 1..5 and 1..10;
  - `canBook`.
- **Hotel list** (`HotelListComponent`):
  - discovery of the amenity checkboxes from the catalog, in insertion order;
  - the amenity toggle and `getAmenityKeys`;
  - the `filteredHotels` pipeline: text match, price ceiling, conjunctive amenity filter, then a stable sort by price.

Files:

- `Common.dfy` holds the shared values:
  - hotels;
  - dates, as `DateText`: the empty text, an unparseable text, or a day number;
  - the result of JavaScript's unary `+` / `Number()` on a query value, as `NumericText`.
- `StayCost.dfy` holds the booking page's price functions and their lemmas.
- `HotelBooking.dfy` holds the booking page as a class.
- `HotelDetails.dfy` holds the carousel cursor, the preview function and the detail page as a class.
- `Catalog.dfy` holds the `filteredHotels` pipeline as pure functions.
- `HotelList.dfy` holds key discovery and the list page as a class.
- `Policies.dfy` holds lemmas that set the two pages' pricing policies side by side.

The asynchronous HTTP answers are modelled as event methods that the caller invokes:

- `OnHotelLoaded`, `OnHotelsLoaded`, `OnSubmitSuccess` and `OnSubmitFailure`;
- today's date is the constructor parameter `currentDay`, stored in the field `today`;
- the form's validity and the stored user id are parameters of `SubmitBooking`.

Money is an exact `real`, and the tax rate is exactly 18/100.

On the detail page a date that does not parse makes the preview NaN, through the `Amount` datatype. NaN is not positive, so `canBook` is then false.

In the list pipeline, a selected amenity combined with a visible hotel that has no amenity array makes `includes` throw. The model gives `TypeError` for that case.

The booking page keeps whatever count a query parameter carries, including a negative one. Its decrement buttons only act above 1, so a negative count stays negative.

`InitialCountPositiveIff` states this exactly.

## Model

| member | source | states |
|---|---|---|
| StayCost.NightlyRate | jetsetgo/src/app/components/hotel-booking/hotel-booking.component.ts:97 | the rate is 0 until the hotel has loaded, and the hotel's price afterwards |
| StayCost.RoomCost | jetsetgo/src/app/components/hotel-booking/hotel-booking.component.ts:95-99 | the room cost is 0 whenever the night count, the rate or the room count is 0 |
| StayCost.Taxes | jetsetgo/src/app/components/hotel-booking/hotel-booking.component.ts:95-99 | the tax is exactly 18/100 of the room cost, and lies between 0 and the room cost when that cost is not negative |
| StayCost.TotalPayable | jetsetgo/src/app/components/hotel-booking/hotel-booking.component.ts:102-108 | with no room cost the total is minus both discounts; the total reaches minus the discounts exactly when the room cost is not negative |
| StayCost.Nights | jetsetgo/src/app/components/hotel-booking/hotel-booking.component.ts:82-92 | 0 when either date fails to parse; otherwise the absolute day difference |
| StayCost.NightsSymmetric | jetsetgo/src/app/components/hotel-booking/hotel-booking.component.ts:89-91 | the night count does not depend on the order of the two dates |
| StayCost.BackwardStayIsBilled | jetsetgo/src/app/components/hotel-booking/hotel-booking.component.ts:89-91 | a check-out before check-in still gives a positive count, the reversed distance |
| StayCost.NightsZeroIff | jetsetgo/src/app/components/hotel-booking/hotel-booking.component.ts:86-91 | zero nights exactly when a date fails to parse or both dates are the same day |
| StayCost.TaxesNonNegative | jetsetgo/src/app/components/hotel-booking/hotel-booking.component.ts:95-99 | with a non-negative price and room count, neither the room cost nor the tax is negative |
| StayCost.TotalClosedForm | jetsetgo/src/app/components/hotel-booking/hotel-booking.component.ts:102-108 | the total payable is 118% of the room cost minus 1500, with no floor |
| StayCost.TotalPerRoom | jetsetgo/src/app/components/hotel-booking/hotel-booking.component.ts:102-108 | each extra room adds nights × price × 1.18 to the total |
| StayCost.TotalBeforeHotelLoads | jetsetgo/src/app/components/hotel-booking/hotel-booking.component.ts:102-108 | while no hotel is loaded the price counts as 0 and the total is −1500 |
| StayCost.TotalCanBeNegative | jetsetgo/src/app/components/hotel-booking/hotel-booking.component.ts:102-108 | one night at 1000 for one room gives a total of −320: the total is not clamped |
| StayCost.TwoNightsTwoRooms | jetsetgo/src/app/components/hotel-booking/hotel-booking.component.ts:95-108 | two nights at 1000 for two rooms: room cost 4000, taxes 720, total 3220 |
| StayCost.InitialCount | jetsetgo/src/app/components/hotel-booking/hotel-booking.component.ts:44-45 | an absent, empty, zero or non-numeric count becomes 1; any other number is kept; the result is never 0 |
| StayCost.InitialCountPositiveIff | jetsetgo/src/app/components/hotel-booking/hotel-booking.component.ts:44-45 | the seeded count is at least 1 exactly when no negative number was carried over |
| StayCost.InitialDate | jetsetgo/src/app/components/hotel-booking/hotel-booking.component.ts:42-43 | an absent or empty date becomes today; any other text is kept; the result is never empty |
| HotelBooking.HotelBookingComponent.constructor | jetsetgo/src/app/components/hotel-booking/hotel-booking.component.ts:16-28 | the field initialisers: not processing, not confirmed, no hotel, one person, one room, empty dates, total 0 |
| HotelBooking.HotelBookingComponent.CalculateNights | jetsetgo/src/app/components/hotel-booking/hotel-booking.component.ts:82-92 | 0 unless both dates parse; otherwise the day distance between check-in and check-out |
| HotelBooking.HotelBookingComponent.CalculateTaxes | jetsetgo/src/app/components/hotel-booking/hotel-booking.component.ts:95-99 | 0 before the hotel loads; otherwise 18/100 of nights × nightly rate × rooms |
| HotelBooking.HotelBookingComponent.Summary | jetsetgo/src/app/components/hotel-booking/hotel-booking.component.ts:124-140 | the submitted booking carries the user id and the page's hotel, dates, room and person counts, stored total and the two fixed discounts; its night count agrees with its dates, its tax is 18/100 of its room cost, and, when the total is current, its total is room cost minus both discounts plus tax |
| HotelBooking.HotelBookingComponent.CalculateTotal | jetsetgo/src/app/components/hotel-booking/hotel-booking.component.ts:102-108 | afterwards the stored total is the total payable for the current dates, hotel and room count |
| HotelBooking.HotelBookingComponent.NgOnInit | jetsetgo/src/app/components/hotel-booking/hotel-booking.component.ts:37-60 | dates and counts are seeded with their defaults; the fetch is issued exactly when the route id is non-empty; the total is current |
| HotelBooking.HotelBookingComponent.OnHotelLoaded | jetsetgo/src/app/components/hotel-booking/hotel-booking.component.ts:63-68 | the loaded hotel is stored and the total recomputed |
| HotelBooking.HotelBookingComponent.IncrementRooms | jetsetgo/src/app/components/hotel-booking/hotel-booking.component.ts:160-163 | the room count rises by exactly one, with no ceiling, and the total is recomputed |
| HotelBooking.HotelBookingComponent.DecrementRooms | jetsetgo/src/app/components/hotel-booking/hotel-booking.component.ts:165-170 | above 1 the count falls by one and the total is recomputed; at or below 1 neither count nor total changes |
| HotelBooking.HotelBookingComponent.IncrementPersons | jetsetgo/src/app/components/hotel-booking/hotel-booking.component.ts:172-175 | the person count rises by one, and a current total keeps its value: persons do not enter the price |
| HotelBooking.HotelBookingComponent.DecrementPersons | jetsetgo/src/app/components/hotel-booking/hotel-booking.component.ts:177-182 | above 1 the count falls by one; at or below 1 neither the count nor the total changes; a current total keeps its value |
| HotelBooking.HotelBookingComponent.SubmitBooking | jetsetgo/src/app/components/hotel-booking/hotel-booking.component.ts:111-145 | an invalid form or a missing or zero user id issues no request and leaves `isProcessing` alone; otherwise the summary is posted and processing starts |
| HotelBooking.HotelBookingComponent.OnSubmitSuccess | jetsetgo/src/app/components/hotel-booking/hotel-booking.component.ts:146-150 | the booking is confirmed and processing ends |
| HotelBooking.HotelBookingComponent.OnSubmitFailure | jetsetgo/src/app/components/hotel-booking/hotel-booking.component.ts:151-155 | processing ends and the confirmation flag is unchanged |
| HotelDetails.NextIndex | jetsetgo/src/app/components/hotel-details/hotel-details.component.ts:58-61 | the next cursor stays in [0, n) and wraps from n−1 to 0 |
| HotelDetails.PrevIndex | jetsetgo/src/app/components/hotel-details/hotel-details.component.ts:63-67 | the previous cursor stays in [0, n) and wraps from 0 to n−1 |
| HotelDetails.PrevAfterNext | jetsetgo/src/app/components/hotel-details/hotel-details.component.ts:58-67 | back after forward restores the cursor |
| HotelDetails.NextAfterPrev | jetsetgo/src/app/components/hotel-details/hotel-details.component.ts:58-67 | forward after back restores the cursor |
| HotelDetails.Advance | jetsetgo/src/app/components/hotel-details/hotel-details.component.ts:58-61 | any number of forward presses keeps the cursor on an image |
| HotelDetails.AdvanceWithinRound | jetsetgo/src/app/components/hotel-details/hotel-details.component.ts:58-61 | within one round, k presses move the cursor k places, wrapping at most once |
| HotelDetails.AdvanceAdds | jetsetgo/src/app/components/hotel-details/hotel-details.component.ts:58-61 | a presses followed by b presses equal a + b presses |
| HotelDetails.FullRoundReturns | jetsetgo/src/app/components/hotel-details/hotel-details.component.ts:58-61 | n presses return the cursor to its start, so the cursor is periodic with period n |
| HotelDetails.PreviewPrice | jetsetgo/src/app/components/hotel-details/hotel-details.component.ts:69-84 | 0 when the hotel or a date is missing; NaN when a date does not parse |
| HotelDetails.BackwardStayPreviewsZero | jetsetgo/src/app/components/hotel-details/hotel-details.component.ts:77-80 | a check-out on or before check-in previews as 0, whatever the price |
| HotelDetails.ForwardStayPreview | jetsetgo/src/app/components/hotel-details/hotel-details.component.ts:77-83 | a forward stay previews as price × days × rooms, with no person count involved |
| HotelDetails.Bookable | jetsetgo/src/app/components/hotel-details/hotel-details.component.ts:115 | a NaN or zero preview is never bookable, and booking needs both dates filled in |
| HotelDetails.BookableIff | jetsetgo/src/app/components/hotel-details/hotel-details.component.ts:114-116 | with at least one room, a fresh preview allows booking exactly when the hotel is loaded with a positive price and check-out is after check-in |
| HotelDetails.HotelDetailsComponent.constructor | jetsetgo/src/app/components/hotel-details/hotel-details.component.ts:17-30 | no hotel, an empty carousel at index 0, empty dates, one room, one person, price 0 |
| HotelDetails.HotelDetailsComponent.OnHotelLoaded | jetsetgo/src/app/components/hotel-details/hotel-details.component.ts:42-50 | the hotel is stored, the three fallback images fill the carousel, and the preview is recomputed |
| HotelDetails.HotelDetailsComponent.NextImage | jetsetgo/src/app/components/hotel-details/hotel-details.component.ts:58-61 | the cursor moves to the next index, wrapping, and stays on an image |
| HotelDetails.HotelDetailsComponent.PrevImage | jetsetgo/src/app/components/hotel-details/hotel-details.component.ts:63-67 | the cursor moves to the previous index, wrapping, and stays on an image |
| HotelDetails.HotelDetailsComponent.UpdateBookingSummary | jetsetgo/src/app/components/hotel-details/hotel-details.component.ts:69-84 | the stored preview becomes the preview of the current hotel, dates and room count |
| HotelDetails.HotelDetailsComponent.DecreaseRooms | jetsetgo/src/app/components/hotel-details/hotel-details.component.ts:86-91 | rooms stay in [1, 5]; above 1 the count falls by one and the preview is recomputed; at 1 nothing changes |
| HotelDetails.HotelDetailsComponent.IncreaseRooms | jetsetgo/src/app/components/hotel-details/hotel-details.component.ts:93-98 | rooms stay in [1, 5]; below 5 the count rises by one and the preview is recomputed; at 5 nothing changes |
| HotelDetails.HotelDetailsComponent.DecreasePersons | jetsetgo/src/app/components/hotel-details/hotel-details.component.ts:101-106 | persons stay in [1, 10]; above 1 the count falls by one; at 1 nothing changes |
| HotelDetails.HotelDetailsComponent.IncreasePersons | jetsetgo/src/app/components/hotel-details/hotel-details.component.ts:108-113 | persons stay in [1, 10]; below 10 the count rises by one; at 10 nothing changes |
| HotelDetails.HotelDetailsComponent.CanBook | jetsetgo/src/app/components/hotel-details/hotel-details.component.ts:114-116 | never true with an empty date; with a current preview, true exactly when the price is positive and the stay runs forward |
| Catalog.Contains | jetsetgo/src/app/components/hotel-list/hotel-list.component.ts:84-85 | the empty query is contained in every text, and a contained query is no longer than the text |
| Catalog.MatchesText | jetsetgo/src/app/components/hotel-list/hotel-list.component.ts:84-85 | a matching query is no longer than the hotel's name or its location |
| Catalog.Selected | jetsetgo/src/app/components/hotel-list/hotel-list.component.ts:93-95 | exactly the amenities whose checkbox is true are selected |
| Catalog.TextFiltered | jetsetgo/src/app/components/hotel-list/hotel-list.component.ts:79-87 | an empty query keeps the list as it is; otherwise exactly the listed hotels whose name or location contains the query are kept |
| Catalog.PriceFiltered | jetsetgo/src/app/components/hotel-list/hotel-list.component.ts:90 | exactly the listed hotels priced at or below the ceiling are kept; the ceiling is inclusive |
| Catalog.AmenityFiltered | jetsetgo/src/app/components/hotel-list/hotel-list.component.ts:93-101 | with nothing selected the list passes unchanged; on success the list never grows |
| Catalog.SortedBy | jetsetgo/src/app/components/hotel-list/hotel-list.component.ts:103-108 | the result is a permutation of its input, ascending or descending by price for the two price criteria, and the input itself for any other criterion |
| Catalog.FilterAndSort | jetsetgo/src/app/components/hotel-list/hotel-list.component.ts:76-111 | with nothing selected the pipeline never fails, and on success it never returns more hotels than the catalog has |
| Catalog.TextThenPrice | jetsetgo/src/app/components/hotel-list/hotel-list.component.ts:79-90 | the text stage followed by the price stage is a single filter by both tests, in catalog order |
| Catalog.Lower | jetsetgo/src/app/components/hotel-list/hotel-list.component.ts:81-85 | lower-casing keeps the length and maps each character on its own |
| Catalog.Filter | jetsetgo/src/app/components/hotel-list/hotel-list.component.ts:82-90 | the kept hotels are exactly the passing ones, with their multiplicities, and never more than the input |
| Catalog.Insert | jetsetgo/src/app/components/hotel-list/hotel-list.component.ts:104-108 | insertion adds exactly the one element and loses none |
| Catalog.InsertSorted | jetsetgo/src/app/components/hotel-list/hotel-list.component.ts:104-108 | inserting into a list sorted by price keeps it sorted |
| Catalog.SortByKey | jetsetgo/src/app/components/hotel-list/hotel-list.component.ts:104-108 | the sort's output is ordered by price and is a permutation of its input |
| Catalog.FilterFilter | jetsetgo/src/app/components/hotel-list/hotel-list.component.ts:82-100 | two successive filters are one filter by the conjunction of their tests |
| Catalog.FilterKeepsAll | jetsetgo/src/app/components/hotel-list/hotel-list.component.ts:82-100 | a filter that every hotel passes returns the list unchanged |
| Catalog.PipelineIsPassing | jetsetgo/src/app/components/hotel-list/hotel-list.component.ts:79-101 | when they succeed, the three filter stages keep exactly the passing hotels, in catalog order |
| Catalog.InsertPricedAt | jetsetgo/src/app/components/hotel-list/hotel-list.component.ts:104-108 | an inserted hotel comes first among the hotels of its own price |
| Catalog.SortIsStable | jetsetgo/src/app/components/hotel-list/hotel-list.component.ts:104-108 | hotels of equal price keep their relative order through the sort |
| Catalog.SortOfSorted | jetsetgo/src/app/components/hotel-list/hotel-list.component.ts:104-108 | sorting an already sorted list changes nothing |
| Catalog.AmenityFailsIff | jetsetgo/src/app/components/hotel-list/hotel-list.component.ts:97-101 | the amenity stage throws exactly when an amenity is selected and some hotel has no amenity array |
| Catalog.InTextAndPrice | jetsetgo/src/app/components/hotel-list/hotel-list.component.ts:80-90 | a hotel survives text and price exactly when the query is empty or matches name or location, and its price is at most the ceiling |
| Catalog.FailsIff | jetsetgo/src/app/components/hotel-list/hotel-list.component.ts:93-101 | the pipeline throws exactly when an amenity is selected and a hotel that passes text and price has no amenity array |
| Catalog.SoundAndComplete | jetsetgo/src/app/components/hotel-list/hotel-list.component.ts:76-111 | on success the output is a permutation of exactly the catalog's hotels that pass all three filters |
| Catalog.OutputOrder | jetsetgo/src/app/components/hotel-list/hotel-list.component.ts:103-108 | ascending for `priceLowToHigh`, descending for `priceHighToLow`, filter order otherwise; equal prices keep catalog order |
| Catalog.Idempotent | jetsetgo/src/app/components/hotel-list/hotel-list.component.ts:76-111 | re-running the pipeline on its own output with the same filters returns that output |
| Catalog.Conjunctive | jetsetgo/src/app/components/hotel-list/hotel-list.component.ts:97-101 | every hotel shown lists every selected amenity |
| Catalog.CheapWifiExample | jetsetgo/src/app/components/hotel-list/hotel-list.component.ts:76-111 | a worked case: the ceiling drops the dear hotel, wifi keeps the cheap one |
| HotelList.AppendNew | jetsetgo/src/app/components/hotel-list/hotel-list.component.ts:50-59 | insertion-ordered growth: the old keys stay a prefix, the members are the union, and distinctness is kept |
| HotelList.AllFalse | jetsetgo/src/app/components/hotel-list/hotel-list.component.ts:57-59 | every discovered key is present and unchecked |
| HotelList.Toggled | jetsetgo/src/app/components/hotel-list/hotel-list.component.ts:64-66 | one entry is negated (an unknown one becomes true) and every other entry is unchanged |
| HotelList.AllLabelsMembers | jetsetgo/src/app/components/hotel-list/hotel-list.component.ts:51-55 | a label is collected exactly when some hotel with an amenity array lists it |
| HotelList.Discovered | jetsetgo/src/app/components/hotel-list/hotel-list.component.ts:49-55 | the discovered keys are distinct and are the union of the labels of hotels with an amenity array |
| HotelList.AppendFresh | jetsetgo/src/app/components/hotel-list/hotel-list.component.ts:57-59 | distinct new keys are appended in their order |
| HotelList.KeysTrackMap | jetsetgo/src/app/components/hotel-list/hotel-list.component.ts:57-59 | writing discovered keys keeps the key order and the map's key set in step |
| HotelList.ToggleTwice | jetsetgo/src/app/components/hotel-list/hotel-list.component.ts:64-66 | toggling twice restores the map exactly when the key was already present |
| HotelList.AddLabels | jetsetgo/src/app/components/hotel-list/hotel-list.component.ts:53 | one hotel's labels are added in order, each new label once |
| HotelList.AppendNewConcat | jetsetgo/src/app/components/hotel-list/hotel-list.component.ts:51-55 | adding two lists of labels one after the other is adding their concatenation |
| HotelList.CollectAmenities | jetsetgo/src/app/components/hotel-list/hotel-list.component.ts:50-55 | the nested loops collect exactly the distinct labels in first-seen order |
| HotelList.HotelListComponent.constructor | jetsetgo/src/app/components/hotel-list/hotel-list.component.ts:15-29 | empty query, ceiling 5000, no amenities, empty catalog, ascending sort |
| HotelList.HotelListComponent.OnHotelsLoaded | jetsetgo/src/app/components/hotel-list/hotel-list.component.ts:33-39 | the catalog is stored in both lists and its amenities are discovered |
| HotelList.HotelListComponent.GenerateDynamicAmenities | jetsetgo/src/app/components/hotel-list/hotel-list.component.ts:49-60 | every discovered label is written as unchecked, new keys are appended in first-seen order, and older entries stay unless rediscovered |
| HotelList.HotelListComponent.ToggleAmenity | jetsetgo/src/app/components/hotel-list/hotel-list.component.ts:64-66 | the selection map is toggled at one key, and an unknown key is appended to the key order |
| HotelList.HotelListComponent.GetAmenityKeys | jetsetgo/src/app/components/hotel-list/hotel-list.component.ts:68-70 | every key of the selection map exactly once, in insertion order |
| HotelList.HotelListComponent.FilteredHotels | jetsetgo/src/app/components/hotel-list/hotel-list.component.ts:76-111 | throws exactly in the `includes` case; otherwise shows exactly the catalog's hotels that pass, reading but never changing the catalog |
| Policies.ForwardStaysAgree | jetsetgo/src/app/components/hotel-details/hotel-details.component.ts:77-83 | for a forward stay the detail preview equals the booking page's room cost before discounts and tax |
| Policies.BackwardStaysDisagree | jetsetgo/src/app/components/hotel-booking/hotel-booking.component.ts:89-91 | a backward stay is billed a positive room cost on the booking page but previews as 0 and cannot be booked on the detail page |
| Policies.InvalidDateDisagrees | jetsetgo/src/app/components/hotel-details/hotel-details.component.ts:75-80 | an unparseable date gives 0 nights on the booking page but a NaN preview on the detail page |
| Policies.RoomCeilingsDisagree | jetsetgo/src/app/components/hotel-details/hotel-details.component.ts:93-98 | six room presses give 7 rooms on the booking page and 5 on the detail page |

## Left out

- HTTP requests, `subscribe`, router navigation, `alert`, `console` and `localStorage` are not modelled. Their outcomes are event methods or parameters. The fetch error callbacks only log, so they change no state and have no counterpart.
- Angular form construction and its validators (`required`, `email`, `pattern`, `minLength`) are not modelled. Form validity is the boolean `formValid` of `SubmitBooking`. The form's own values, which are spread into the posted booking, are not part of `BookingSummary`.
- `BookingSummary` carries the hotel as a whole, not its separate `id`, `name`, `location` and `price` fields.
- `navigateTo` on the booking page is routing only.
- The detail page's `ngOnInit` and `fetchHotelDetails` are not modelled beyond their success callback (`OnHotelLoaded`). They only decide whether a request goes out.
- JavaScript `Date` is not modelled: no parsing of date texts, millisecond arithmetic, time zones, daylight saving, `Math.ceil` over fractional days, or `toISOString`. A date is a day number or an unparseable text, and `minDate` is the day number `today`.
- Edits of the date fields through the page's inputs are not events. Those fields are plain state.
- IEEE-754 rounding is not modelled. Prices, the 0.18 rate and the totals are exact reals, and NaN appears only where an unparseable date produces it.
- StayCost.InitialCount: query values that are fractional numbers or infinities are not modelled; a count is an integer or not a number.
- HotelBooking.HotelBookingComponent.SubmitBooking: the stored user id has the same type, so a stored fractional or infinite id (such as "1.5") is not modelled either.
- Catalog.Lower: only ASCII letters are lower-cased, not the full Unicode mapping of `toLowerCase`.
- Catalog.AmenityFiltered: any amenity field that is not an array is treated as missing and makes the stage throw. For a string field, `includes` would instead search for a substring.
- HotelList.HotelListComponent.GetAmenityKeys: keys are in plain insertion order. `Object.keys` lists integer-like keys (array indices) first, in ascending order, and the model does not.
- Hotels are assumed to have string names and locations and numeric prices. Records with missing or mistyped fields are not modelled.
- HotelDetails.HotelDetailsComponent.NextImage: requires a non-empty carousel. Before the hotel loads the source takes the remainder by zero and sets the index to NaN.
- HotelDetails.HotelDetailsComponent.PrevImage: requires a non-empty carousel, for the same reason.
- HotelDetails.NextIndex, HotelDetails.PrevIndex and HotelDetails.Advance take the same non-empty precondition.
- The carousel image URLs are reduced to their count, three. Templates and styles are not modelled.
- The list page's unused `checkInDate`/`checkOutDate` fields and its `minPriceLimit` slider bound are not modelled.
- HotelList.Toggled: amenity labels are assumed not to name properties inherited from `Object.prototype`. In the source, toggling "toString" would store false (the negation of an inherited function), and a "__proto__" label never becomes an own key.
- HotelList.Discovered: the same assumption; the keys are modelled as a plain map.
- The login component and the route table are not part of this model.
