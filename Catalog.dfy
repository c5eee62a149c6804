/**
 * The hotel list's filter-and-sort pipeline (`filteredHotels`) as a pure
 * function of the catalog and the filter state: a case-insensitive text
 * match on name or location, an inclusive price ceiling, a conjunctive
 * amenity filter, and a stable sort by price.
 */
module Catalog {
  import opened Common

  /**
   * The pipeline either yields the visible hotels or throws a TypeError:
   * `includes` is called on a hotel whose amenity field is not an array.
   */
  datatype Result<T> = Ok(value: T) | TypeError

  const PriceLowToHigh: string := "priceLowToHigh"
  const PriceHighToLow: string := "priceHighToLow"

  // ---------------------------------------------------------------------
  // Text matching
  // ---------------------------------------------------------------------

  /** ASCII lower-casing of one character. */
  function LowerChar(c: char): char
  {
    if 'A' <= c <= 'Z' then (c as int + 32) as char else c
  }

  /** `toLowerCase`, restricted to ASCII letters. */
  function Lower(s: string): (r: string)
    ensures |r| == |s|
    ensures forall i :: 0 <= i < |s| ==> r[i] == LowerChar(s[i])
  {
    if s == [] then [] else [LowerChar(s[0])] + Lower(s[1..])
  }

  /** `q` occurs in `text` starting at position `i`. */
  predicate OccursAt(text: string, q: string, i: int)
  {
    0 <= i <= |text| - |q| && text[i..i + |q|] == q
  }

  /** `includes`: `q` occurs as a contiguous part of `text`. */
  predicate Contains(text: string, q: string)
    ensures q == [] ==> Contains(text, q)
    ensures Contains(text, q) ==> |q| <= |text|
  {
    assert q == [] ==> OccursAt(text, q, 0);
    exists i | 0 <= i <= |text| - |q| :: OccursAt(text, q, i)
  }

  /** The text filter's test for a non-empty query. */
  predicate MatchesText(h: Hotel, query: string)
    ensures MatchesText(h, query) ==> |query| <= |h.name| || |query| <= |h.location|
  {
    Contains(Lower(h.name), Lower(query)) || Contains(Lower(h.location), Lower(query))
  }

  // ---------------------------------------------------------------------
  // Filtering
  // ---------------------------------------------------------------------

  /** `Array.prototype.filter`: the elements that pass, in their order. */
  function Filter(s: seq<Hotel>, keep: Hotel -> bool): (r: seq<Hotel>)
    ensures |r| <= |s|
    ensures forall x :: x in r <==> x in s && keep(x)
    ensures forall x :: multiset(r)[x] == if keep(x) then multiset(s)[x] else 0
  {
    if s == [] then []
    else
      assert s == [s[0]] + s[1..];
      (if keep(s[0]) then [s[0]] else []) + Filter(s[1..], keep)
  }

  /** The amenities switched on in the selection map. */
  function Selected(amenities: map<string, bool>): (selected: set<string>)
    ensures selected <= amenities.Keys
    ensures forall a :: a in selected <==> a in amenities && amenities[a]
  {
    set a | a in amenities && amenities[a]
  }

  /** A hotel whose amenity list holds every selected amenity. */
  predicate HasAll(h: Hotel, selected: set<string>)
  {
    h.amenities.Some? && forall a :: a in selected ==> a in h.amenities.value
  }

  /** The text stage: skipped for an empty query. */
  function TextFiltered(hotels: seq<Hotel>, query: string): (r: seq<Hotel>)
    ensures query == "" ==> r == hotels
    ensures |r| <= |hotels|
    ensures forall h :: h in r <==> h in hotels && (query == "" || MatchesText(h, query))
  {
    if query != "" then Filter(hotels, (h: Hotel) => MatchesText(h, query)) else hotels
  }

  /** The price stage: the ceiling is inclusive. */
  function PriceFiltered(hotels: seq<Hotel>, maxPrice: real): (r: seq<Hotel>)
    ensures |r| <= |hotels|
    ensures forall h :: h in r <==> h in hotels && h.price <= maxPrice
  {
    Filter(hotels, (h: Hotel) => h.price <= maxPrice)
  }

  /**
   * With no amenity selected nothing is removed; otherwise `every` calls
   * `includes` on each hotel's amenity field, which throws on a hotel whose
   * field is not an array.
   */
  function AmenityFiltered(hotels: seq<Hotel>, selected: set<string>): (r: Result<seq<Hotel>>)
    ensures selected == {} ==> r == Ok(hotels)
    ensures r.Ok? ==> |r.value| <= |hotels|
  {
    if selected == {} then Ok(hotels)
    else if exists i :: 0 <= i < |hotels| && hotels[i].amenities.None? then TypeError
    else Ok(Filter(hotels, (h: Hotel) => HasAll(h, selected)))
  }

  // ---------------------------------------------------------------------
  // Sorting
  // ---------------------------------------------------------------------

  /** The sort key: the price, negated for the descending order. */
  function Key(h: Hotel, descending: bool): real
  {
    if descending then -h.price else h.price
  }

  predicate SortedByKey(s: seq<Hotel>, descending: bool)
  {
    forall i, j :: 0 <= i < j < |s| ==> Key(s[i], descending) <= Key(s[j], descending)
  }

  /** Places `x` before the first element whose key is not smaller; nothing is lost or added. */
  function Insert(x: Hotel, s: seq<Hotel>, descending: bool): (r: seq<Hotel>)
    ensures multiset(r) == multiset(s) + multiset{x}
  {
    if s == [] then [x]
    else if Key(x, descending) <= Key(s[0], descending) then [x] + s
    else
      assert s == [s[0]] + s[1..];
      [s[0]] + Insert(x, s[1..], descending)
  }

  /** Inserting into a sorted sequence keeps it sorted. */
  lemma {:induction false} InsertSorted(x: Hotel, s: seq<Hotel>, descending: bool)
    requires SortedByKey(s, descending)
    ensures SortedByKey(Insert(x, s, descending), descending)
  {
    if s == [] {
    } else if Key(x, descending) <= Key(s[0], descending) {
      forall y | y in s ensures Key(x, descending) <= Key(y, descending) {
        var k :| 0 <= k < |s| && s[k] == y;
        assert k == 0 || Key(s[0], descending) <= Key(s[k], descending);
      }
      ConsSorted(x, s, descending);
    } else {
      assert SortedByKey(s[1..], descending);
      InsertSorted(x, s[1..], descending);
      InsertAfterHead(x, s, Insert(x, s[1..], descending), descending);
    }
  }

  /** A head no greater than every later key keeps a sorted tail sorted. */
  lemma ConsSorted(a: Hotel, rest: seq<Hotel>, descending: bool)
    requires SortedByKey(rest, descending)
    requires forall y :: y in rest ==> Key(a, descending) <= Key(y, descending)
    ensures SortedByKey([a] + rest, descending)
  {
    var r := [a] + rest;
    forall i, j | 0 <= i < j < |r| ensures Key(r[i], descending) <= Key(r[j], descending) {
      assert r[j] == rest[j - 1];
      if i > 0 {
        assert r[i] == rest[i - 1];
      }
    }
  }

  /** The step of Insert that passes the head of `s` by. */
  lemma InsertAfterHead(x: Hotel, s: seq<Hotel>, rest: seq<Hotel>, descending: bool)
    requires s != [] && SortedByKey(s, descending)
    requires Key(s[0], descending) < Key(x, descending)
    requires SortedByKey(rest, descending)
    requires multiset(rest) == multiset(s[1..]) + multiset{x}
    ensures SortedByKey([s[0]] + rest, descending)
  {
    forall y | y in rest ensures Key(s[0], descending) <= Key(y, descending) {
      assert y in multiset(rest);
      if y != x {
        assert y in multiset(s[1..]);
        var k :| 0 <= k < |s[1..]| && s[1..][k] == y;
        assert s[k + 1] == y;
      }
    }
    ConsSorted(s[0], rest, descending);
  }

  /** A stable sort by key, the reference for the engine's `Array.prototype.sort`. */
  function SortByKey(s: seq<Hotel>, descending: bool): (r: seq<Hotel>)
    ensures SortedByKey(r, descending)
    ensures multiset(r) == multiset(s)
  {
    if s == [] then []
    else
      assert s == [s[0]] + s[1..];
      var sorted := SortByKey(s[1..], descending);
      InsertSorted(s[0], sorted, descending);
      Insert(s[0], sorted, descending)
  }

  /** The sort step of the pipeline: other criteria leave the order alone. */
  function SortedBy(hotels: seq<Hotel>, criteria: string): (r: seq<Hotel>)
    ensures multiset(r) == multiset(hotels) && |r| == |hotels|
    ensures criteria == PriceLowToHigh ==> SortedByKey(r, false)
    ensures criteria == PriceHighToLow ==> SortedByKey(r, true)
    ensures criteria != PriceLowToHigh && criteria != PriceHighToLow ==> r == hotels
  {
    var r := if criteria == PriceLowToHigh then SortByKey(hotels, false)
      else if criteria == PriceHighToLow then SortByKey(hotels, true)
      else hotels;
    assert |r| == |multiset(r)| == |multiset(hotels)| == |hotels|;
    r
  }

  /** The hotels of `s` priced exactly `p`, in their order. */
  function PricedAt(s: seq<Hotel>, p: real): seq<Hotel>
  {
    if s == [] then []
    else (if s[0].price == p then [s[0]] else []) + PricedAt(s[1..], p)
  }

  // ---------------------------------------------------------------------
  // The pipeline
  // ---------------------------------------------------------------------

  /** `filteredHotels`, over a copy of the catalog. */
  function FilterAndSort(hotels: seq<Hotel>, query: string, maxPrice: real,
                         amenities: map<string, bool>, criteria: string): (r: Result<seq<Hotel>>)
    ensures Selected(amenities) == {} ==> r.Ok?
    ensures r.Ok? ==> |r.value| <= |hotels|
  {
    var byText := TextFiltered(hotels, query);
    var byPrice := PriceFiltered(byText, maxPrice);
    match AmenityFiltered(byPrice, Selected(amenities))
    case TypeError => TypeError
    case Ok(kept) => Ok(SortedBy(kept, criteria))
  }

  /** The three filters as one test. */
  predicate Passes(h: Hotel, query: string, maxPrice: real, selected: set<string>)
  {
    && (query == "" || MatchesText(h, query))
    && h.price <= maxPrice
    && (selected == {} || HasAll(h, selected))
  }

  /** The catalog's hotels that pass all three filters, in catalog order. */
  function Passing(hotels: seq<Hotel>, query: string, maxPrice: real, selected: set<string>): seq<Hotel>
  {
    Filter(hotels, (h: Hotel) => Passes(h, query, maxPrice, selected))
  }

  // ---------------------------------------------------------------------
  // Lemmas about filtering
  // ---------------------------------------------------------------------

  /** Filtering twice is filtering once by the conjunction. */
  lemma {:induction false} FilterFilter(s: seq<Hotel>, f: Hotel -> bool, g: Hotel -> bool, fg: Hotel -> bool)
    requires forall x :: fg(x) == (f(x) && g(x))
    ensures Filter(Filter(s, f), g) == Filter(s, fg)
  {
    if s != [] {
      FilterFilter(s[1..], f, g, fg);
      var rest := Filter(s[1..], f);
      if f(s[0]) {
        assert Filter(s, f) == [s[0]] + rest;
        assert ([s[0]] + rest)[1..] == rest;
      } else {
        assert Filter(s, f) == rest;
      }
    }
  }

  /** Filters with the same test agree. */
  lemma {:induction false} FilterSameTest(s: seq<Hotel>, f: Hotel -> bool, g: Hotel -> bool)
    requires forall x :: f(x) == g(x)
    ensures Filter(s, f) == Filter(s, g)
  {
    if s != [] {
      FilterSameTest(s[1..], f, g);
    }
  }

  /** A filter that every element passes keeps the sequence as it is. */
  lemma {:induction false} FilterKeepsAll(s: seq<Hotel>, f: Hotel -> bool)
    requires forall x :: x in s ==> f(x)
    ensures Filter(s, f) == s
  {
    if s != [] {
      assert s == [s[0]] + s[1..];
      FilterKeepsAll(s[1..], f);
    }
  }

  /** The text and price stages together are one filter by both tests. */
  lemma TextThenPrice(hotels: seq<Hotel>, query: string, maxPrice: real)
    ensures PriceFiltered(TextFiltered(hotels, query), maxPrice)
         == Filter(hotels, (h: Hotel) => Passes(h, query, maxPrice, {}))
  {
    var text: Hotel -> bool := (h: Hotel) => query == "" || MatchesText(h, query);
    var price: Hotel -> bool := (h: Hotel) => h.price <= maxPrice;
    if query == "" {
      FilterKeepsAll(hotels, text);
    } else {
      FilterSameTest(hotels, (h: Hotel) => MatchesText(h, query), text);
    }
    FilterFilter(hotels, text, price, (h: Hotel) => Passes(h, query, maxPrice, {}));
  }

  /** On success the three filter stages keep exactly the passing hotels, in catalog order. */
  lemma PipelineIsPassing(hotels: seq<Hotel>, query: string, maxPrice: real, selected: set<string>)
    requires AmenityFiltered(PriceFiltered(TextFiltered(hotels, query), maxPrice), selected).Ok?
    ensures AmenityFiltered(PriceFiltered(TextFiltered(hotels, query), maxPrice), selected).value
         == Passing(hotels, query, maxPrice, selected)
  {
    var basic: Hotel -> bool := (h: Hotel) => Passes(h, query, maxPrice, {});
    var all: Hotel -> bool := (h: Hotel) => Passes(h, query, maxPrice, selected);
    TextThenPrice(hotels, query, maxPrice);
    if selected == {} {
      FilterSameTest(hotels, basic, all);
    } else {
      FilterFilter(hotels, basic, (h: Hotel) => HasAll(h, selected), all);
    }
  }

  // ---------------------------------------------------------------------
  // Lemmas about sorting
  // ---------------------------------------------------------------------

  lemma PricedAtCons(x: Hotel, s: seq<Hotel>, p: real)
    ensures PricedAt([x] + s, p) == (if x.price == p then [x] else []) + PricedAt(s, p)
  {
    assert ([x] + s)[1..] == s;
  }

  /** Inserting `x` puts it first among the hotels of its price. */
  lemma {:induction false} InsertPricedAt(x: Hotel, s: seq<Hotel>, descending: bool, p: real)
    ensures PricedAt(Insert(x, s, descending), p)
         == (if x.price == p then [x] else []) + PricedAt(s, p)
  {
    if s == [] {
    } else if Key(x, descending) <= Key(s[0], descending) {
      PricedAtCons(x, s, p);
    } else {
      var rest := Insert(x, s[1..], descending);
      InsertPricedAt(x, s[1..], descending, p);
      assert s == [s[0]] + s[1..];
      PricedAtPassHead(x, s[0], s[1..], rest, p);
      assert Insert(x, s, descending) == [s[0]] + rest;
    }
  }

  /** A head of another price passes through when `x` is inserted behind it. */
  lemma PricedAtPassHead(x: Hotel, head: Hotel, tail: seq<Hotel>, rest: seq<Hotel>, p: real)
    requires head.price != x.price
    requires PricedAt(rest, p) == (if x.price == p then [x] else []) + PricedAt(tail, p)
    ensures PricedAt([head] + rest, p) == (if x.price == p then [x] else []) + PricedAt([head] + tail, p)
  {
    PricedAtCons(head, rest, p);
    PricedAtCons(head, tail, p);
  }

  /** The sort is stable: hotels of equal price keep their relative order. */
  lemma {:induction false} SortIsStable(s: seq<Hotel>, descending: bool, p: real)
    ensures PricedAt(SortByKey(s, descending), p) == PricedAt(s, p)
  {
    if s != [] {
      SortIsStable(s[1..], descending, p);
      InsertPricedAt(s[0], SortByKey(s[1..], descending), descending, p);
    }
  }

  /** Sorting an already sorted sequence changes nothing. */
  lemma {:induction false} SortOfSorted(s: seq<Hotel>, descending: bool)
    requires SortedByKey(s, descending)
    ensures SortByKey(s, descending) == s
  {
    if s != [] {
      SortOfSorted(s[1..], descending);
      assert s == [s[0]] + s[1..];
    }
  }

  // ---------------------------------------------------------------------
  // What `filteredHotels` guarantees
  // ---------------------------------------------------------------------

  /**
   * The pipeline throws exactly when an amenity is selected and some hotel
   * that passes the text and price filters has no amenity array.
   */
  lemma FailsIff(hotels: seq<Hotel>, query: string, maxPrice: real,
                 amenities: map<string, bool>, criteria: string)
    ensures FilterAndSort(hotels, query, maxPrice, amenities, criteria).TypeError? <==>
      Selected(amenities) != {} &&
      exists h :: h in hotels && (query == "" || MatchesText(h, query)) &&
        h.price <= maxPrice && h.amenities.None?
  {
    var byPrice := PriceFiltered(TextFiltered(hotels, query), maxPrice);
    var sel := Selected(amenities);
    assert FilterAndSort(hotels, query, maxPrice, amenities, criteria).TypeError? <==>
      AmenityFiltered(byPrice, sel).TypeError?;
    AmenityFailsIff(byPrice, sel);
    InTextAndPrice(hotels, query, maxPrice);
    assert (exists h :: h in byPrice && h.amenities.None?) <==>
      exists h :: h in hotels && (query == "" || MatchesText(h, query)) &&
        h.price <= maxPrice && h.amenities.None?;
  }

  /** The amenity stage throws exactly when an amenity is selected and a hotel has no array. */
  lemma AmenityFailsIff(hotels: seq<Hotel>, selected: set<string>)
    ensures AmenityFiltered(hotels, selected).TypeError? <==>
      selected != {} && exists h :: h in hotels && h.amenities.None?
  {
    if exists h :: h in hotels && h.amenities.None? {
      var h :| h in hotels && h.amenities.None?;
      var i :| 0 <= i < |hotels| && hotels[i] == h;
    }
  }

  /** The hotels left after the text and price filters. */
  lemma InTextAndPrice(hotels: seq<Hotel>, query: string, maxPrice: real)
    ensures forall h :: h in PriceFiltered(TextFiltered(hotels, query), maxPrice) <==>
      h in hotels && (query == "" || MatchesText(h, query)) && h.price <= maxPrice
  {
  }

  /**
   * Soundness and completeness: on success the output is a permutation of
   * exactly the catalog's hotels that pass all three filters.
   */
  lemma SoundAndComplete(hotels: seq<Hotel>, query: string, maxPrice: real,
                         amenities: map<string, bool>, criteria: string)
    requires FilterAndSort(hotels, query, maxPrice, amenities, criteria).Ok?
    ensures var r := FilterAndSort(hotels, query, maxPrice, amenities, criteria).value;
      && multiset(r) == multiset(Passing(hotels, query, maxPrice, Selected(amenities)))
      && forall h :: h in r <==> h in hotels && Passes(h, query, maxPrice, Selected(amenities))
  {
    PipelineIsPassing(hotels, query, maxPrice, Selected(amenities));
    var r := FilterAndSort(hotels, query, maxPrice, amenities, criteria).value;
    var passing := Passing(hotels, query, maxPrice, Selected(amenities));
    assert multiset(r) == multiset(passing);
    forall h ensures h in r <==> h in passing {
      assert h in r <==> h in multiset(r);
      assert h in passing <==> h in multiset(passing);
    }
  }

  /**
   * Order: ascending or descending by price for the two sort criteria, the
   * catalog order otherwise; in every case hotels of equal price keep their
   * catalog order.
   */
  lemma OutputOrder(hotels: seq<Hotel>, query: string, maxPrice: real,
                    amenities: map<string, bool>, criteria: string, p: real)
    requires FilterAndSort(hotels, query, maxPrice, amenities, criteria).Ok?
    ensures var r := FilterAndSort(hotels, query, maxPrice, amenities, criteria).value;
      && (criteria == PriceLowToHigh ==>
            forall i, j :: 0 <= i < j < |r| ==> r[i].price <= r[j].price)
      && (criteria == PriceHighToLow ==>
            forall i, j :: 0 <= i < j < |r| ==> r[i].price >= r[j].price)
      && (criteria != PriceLowToHigh && criteria != PriceHighToLow ==>
            r == Passing(hotels, query, maxPrice, Selected(amenities)))
      && PricedAt(r, p) == PricedAt(Passing(hotels, query, maxPrice, Selected(amenities)), p)
  {
    PipelineIsPassing(hotels, query, maxPrice, Selected(amenities));
    var passing := Passing(hotels, query, maxPrice, Selected(amenities));
    if criteria == PriceLowToHigh {
      SortIsStable(passing, false, p);
    } else if criteria == PriceHighToLow {
      SortIsStable(passing, true, p);
      var r := SortByKey(passing, true);
      forall i, j | 0 <= i < j < |r| ensures r[i].price >= r[j].price {
        assert Key(r[i], true) <= Key(r[j], true);
      }
    }
  }

  /** Hotels that all pass come through the filter stages unchanged. */
  lemma StagesKeepPassing(r: seq<Hotel>, query: string, maxPrice: real, sel: set<string>)
    requires forall h :: h in r ==> Passes(h, query, maxPrice, sel)
    requires AmenityFiltered(PriceFiltered(TextFiltered(r, query), maxPrice), sel).Ok?
    ensures AmenityFiltered(PriceFiltered(TextFiltered(r, query), maxPrice), sel).value == r
  {
    PipelineIsPassing(r, query, maxPrice, sel);
    FilterKeepsAll(r, (h: Hotel) => Passes(h, query, maxPrice, sel));
  }

  /** Running the pipeline on its own output, with the same filters, returns it unchanged. */
  lemma Idempotent(hotels: seq<Hotel>, query: string, maxPrice: real,
                   amenities: map<string, bool>, criteria: string)
    requires FilterAndSort(hotels, query, maxPrice, amenities, criteria).Ok?
    ensures var r := FilterAndSort(hotels, query, maxPrice, amenities, criteria).value;
      FilterAndSort(r, query, maxPrice, amenities, criteria) == Ok(r)
  {
    var sel := Selected(amenities);
    var r := FilterAndSort(hotels, query, maxPrice, amenities, criteria).value;
    SoundAndComplete(hotels, query, maxPrice, amenities, criteria);
    assert forall h :: h in r ==> Passes(h, query, maxPrice, sel);
    FailsIff(r, query, maxPrice, amenities, criteria);
    assert FilterAndSort(r, query, maxPrice, amenities, criteria).Ok?;
    StagesKeepPassing(r, query, maxPrice, sel);
    if criteria == PriceLowToHigh {
      SortOfSorted(r, false);
    } else if criteria == PriceHighToLow {
      SortOfSorted(r, true);
    }
  }

  /** The amenity filter is conjunctive: every kept hotel lists every selected amenity. */
  lemma Conjunctive(hotels: seq<Hotel>, query: string, maxPrice: real,
                    amenities: map<string, bool>, criteria: string, h: Hotel, a: string)
    requires FilterAndSort(hotels, query, maxPrice, amenities, criteria).Ok?
    requires h in FilterAndSort(hotels, query, maxPrice, amenities, criteria).value
    requires a in amenities && amenities[a]
    ensures h.amenities.Some? && a in h.amenities.value
  {
    SoundAndComplete(hotels, query, maxPrice, amenities, criteria);
    assert a in Selected(amenities);
  }

  /** A ceiling between two prices keeps the cheaper hotel only. */
  lemma PriceCut(cheap: Hotel, dear: Hotel, ceiling: real)
    requires cheap.price <= ceiling < dear.price
    ensures PriceFiltered([cheap, dear], ceiling) == [cheap]
  {
    assert [cheap, dear][1..] == [dear];
    assert [dear][1..] == [];
  }

  /** A hotel listing every selected amenity survives the amenity stage. */
  lemma AmenityKeeps(h: Hotel, selected: set<string>)
    requires selected != {} && HasAll(h, selected)
    ensures AmenityFiltered([h], selected) == Ok([h])
  {
    assert !exists i :: 0 <= i < |[h]| && [h][i].amenities.None?;
    FilterKeepsAll([h], (x: Hotel) => HasAll(x, selected));
  }

  /**
   * The worked example: two hotels at 100 (wifi) and 200 (wifi, pool), an
   * empty query, a ceiling of 150, wifi selected, ascending order.
   */
  lemma CheapWifiExample()
    ensures var cheap := Hotel(1, "Sea View", "Goa", 100.0, Some(["wifi"]));
      var dear := Hotel(2, "Hill Top", "Ooty", 200.0, Some(["wifi", "pool"]));
      FilterAndSort([cheap, dear], "", 150.0, map["wifi" := true], PriceLowToHigh) == Ok([cheap])
  {
    var cheap := Hotel(1, "Sea View", "Goa", 100.0, Some(["wifi"]));
    var dear := Hotel(2, "Hill Top", "Ooty", 200.0, Some(["wifi", "pool"]));
    assert Selected(map["wifi" := true]) == {"wifi"};
    PriceCut(cheap, dear, 150.0);
    AmenityKeeps(cheap, {"wifi"});
    SortOfSorted([cheap], false);
  }
}
