/**
 * The hotel list page: the catalog snapshot, the filter state (query,
 * price ceiling, amenity selection, sort criterion) and the amenity
 * selection map, whose keys are discovered once from the catalog and kept
 * in insertion order, as `Object.keys` reports string keys that are not
 * array indices.
 */
module HotelList {
  import opened Common
  import opened Catalog

  /** The slider's upper bound, which is also the initial ceiling. */
  const MaxPriceLimit: real := 5000.0

  predicate Distinct(s: seq<string>)
  {
    forall i, j :: 0 <= i < j < |s| ==> s[i] != s[j]
  }

  /**
   * Adds the elements of `xs`, left to right, that are not present yet:
   * how a JavaScript `Set` or an object's keys grow under insertion.
   */
  function AppendNew(order: seq<string>, xs: seq<string>): (r: seq<string>)
    ensures |order| <= |r| && r[..|order|] == order
    ensures forall a :: a in r <==> a in order || a in xs
    ensures Distinct(order) ==> Distinct(r)
  {
    if xs == [] then order
    else
      var prefix := AppendNew(order, xs[..|xs| - 1]);
      assert forall a :: a in xs <==> a in xs[..|xs| - 1] || a == xs[|xs| - 1] by {
        assert xs == xs[..|xs| - 1] + [xs[|xs| - 1]];
      }
      if xs[|xs| - 1] in prefix then prefix else prefix + [xs[|xs| - 1]]
  }

  /** The amenity labels of one hotel; none when its field is not an array. */
  function LabelsOf(h: Hotel): seq<string>
  {
    if h.amenities.Some? then h.amenities.value else []
  }

  /** Every label of every hotel, in catalog order, duplicates included. */
  function AllLabels(hotels: seq<Hotel>): seq<string>
  {
    if hotels == [] then []
    else AllLabels(hotels[..|hotels| - 1]) + LabelsOf(hotels[|hotels| - 1])
  }

  /**
   * The distinct labels of the catalog, in first-seen order: exactly the
   * labels of the hotels whose amenity field is an array, each once.
   */
  function Discovered(hotels: seq<Hotel>): (keys: seq<string>)
    ensures Distinct(keys)
    ensures forall a :: a in keys <==>
      exists h :: h in hotels && h.amenities.Some? && a in h.amenities.value
  {
    AllLabelsMembers(hotels);
    AppendNew([], AllLabels(hotels))
  }

  /** Every key of `keys` mapped to false (unchecked). */
  function AllFalse(keys: seq<string>): (m: map<string, bool>)
    ensures forall a :: a in m <==> a in keys
    ensures forall a :: a in m ==> !m[a]
  {
    map a | a in keys :: false
  }

  /** `amenities[a] = !amenities[a]`; an unknown key reads as undefined, so it becomes true. */
  function Toggled(m: map<string, bool>, a: string): (r: map<string, bool>)
    ensures r.Keys == m.Keys + {a}
    ensures r[a] == !(a in m && m[a])
    ensures forall k :: k in m && k != a ==> r[k] == m[k]
  {
    m[a := !(a in m && m[a])]
  }

  // ---------------------------------------------------------------------
  // Lemmas
  // ---------------------------------------------------------------------

  /** A label is in the catalog's list exactly when some hotel with an amenity array has it. */
  lemma {:induction false} AllLabelsMembers(hotels: seq<Hotel>)
    ensures forall a :: a in AllLabels(hotels) <==>
      exists h :: h in hotels && h.amenities.Some? && a in h.amenities.value
  {
    if hotels != [] {
      var init := hotels[..|hotels| - 1];
      var last := hotels[|hotels| - 1];
      AllLabelsMembers(init);
      assert hotels == init + [last];
      forall a ensures a in AllLabels(hotels) <==>
        exists h :: h in hotels && h.amenities.Some? && a in h.amenities.value
      {
        if a in AllLabels(hotels) && a !in AllLabels(init) {
          assert last in hotels && last.amenities.Some? && a in last.amenities.value;
        }
        if exists h :: h in hotels && h.amenities.Some? && a in h.amenities.value {
          var h :| h in hotels && h.amenities.Some? && a in h.amenities.value;
          if h != last {
            assert h in init;
          }
        }
      }
    }
  }

  /** Adding distinct new keys appends them in their order. */
  lemma {:induction false} AppendFresh(order: seq<string>, xs: seq<string>)
    requires Distinct(xs)
    requires forall a :: a in xs ==> a !in order
    ensures AppendNew(order, xs) == order + xs
  {
    if xs != [] {
      var init := xs[..|xs| - 1];
      AppendFresh(order, init);
      assert xs == init + [xs[|xs| - 1]];
      assert xs[|xs| - 1] !in init;
    }
  }

  /** AppendNew takes one more element at a time. */
  lemma AppendNewSnoc(order: seq<string>, xs: seq<string>, x: string)
    ensures AppendNew(order, xs + [x])
         == if x in AppendNew(order, xs) then AppendNew(order, xs) else AppendNew(order, xs) + [x]
  {
    assert (xs + [x])[..|xs|] == xs;
  }

  /** Adding `xs` and then `ys` is adding `xs + ys`. */
  lemma {:induction false} AppendNewConcat(order: seq<string>, xs: seq<string>, ys: seq<string>)
    ensures AppendNew(AppendNew(order, xs), ys) == AppendNew(order, xs + ys)
  {
    if ys == [] {
      assert xs + ys == xs;
    } else {
      var init, last := ys[..|ys| - 1], ys[|ys| - 1];
      AppendNewConcat(order, xs, init);
      assert ys == init + [last];
      assert xs + ys == (xs + init) + [last];
      AppendNewSnoc(order, xs + init, last);
      AppendNewSnoc(AppendNew(order, xs), init, last);
    }
  }

  /** The step of the inner discovery loop: one more label of the current hotel. */
  lemma AppendNextLabel(order: seq<string>, labels: seq<string>, j: int, current: seq<string>)
    requires 0 <= j < |labels| && current == AppendNew(order, labels[..j])
    ensures AppendNew(order, labels[..j + 1])
         == if labels[j] in current then current else current + [labels[j]]
  {
    assert labels[..j + 1] == labels[..j] + [labels[j]];
    AppendNewSnoc(order, labels[..j], labels[j]);
  }

  /** The step of the outer discovery loop: one more hotel's labels. */
  lemma CollectStep(catalog: seq<Hotel>, i: int, before: seq<string>, after: seq<string>)
    requires 0 <= i < |catalog|
    requires before == AppendNew([], AllLabels(catalog[..i]))
    requires after == AppendNew(before, LabelsOf(catalog[i]))
    ensures after == AppendNew([], AllLabels(catalog[..i + 1]))
  {
    AllLabelsSnoc(catalog, i);
    AppendNewConcat([], AllLabels(catalog[..i]), LabelsOf(catalog[i]));
  }

  /** The catalog's labels grow one hotel at a time. */
  lemma AllLabelsSnoc(hotels: seq<Hotel>, i: int)
    requires 0 <= i < |hotels|
    ensures AllLabels(hotels[..i + 1]) == AllLabels(hotels[..i]) + LabelsOf(hotels[i])
  {
    assert hotels[..i + 1][..i] == hotels[..i];
  }

  /** Unchecking one more key. */
  lemma AllFalseSnoc(m: map<string, bool>, keys: seq<string>, a: string)
    ensures (m + AllFalse(keys))[a := false] == m + AllFalse(keys + [a])
  {
  }

  /** Writing the keys of `xs` into a map whose keys `keys` lists keeps the two in step. */
  lemma KeysTrackMap(keys: seq<string>, m: map<string, bool>, xs: seq<string>)
    requires Distinct(keys) && forall a :: a in keys <==> a in m
    ensures Distinct(AppendNew(keys, xs))
    ensures forall a :: a in AppendNew(keys, xs) <==> a in m + AllFalse(xs)
  {
  }

  /** The step of the writing loop: one more discovered key marked unchecked. */
  lemma WriteStep(keys0: seq<string>, m0: map<string, bool>, all: seq<string>, k: int,
                  keys: seq<string>, m: map<string, bool>)
    requires forall a :: a in keys0 <==> a in m0
    requires 0 <= k < |all|
    requires keys == AppendNew(keys0, all[..k]) && m == m0 + AllFalse(all[..k])
    ensures (if all[k] in m then keys else keys + [all[k]]) == AppendNew(keys0, all[..k + 1])
    ensures m[all[k] := false] == m0 + AllFalse(all[..k + 1])
  {
    var xs, x := all[..k], all[k];
    assert all[..k + 1] == xs + [x];
    assert x in m <==> x in m0 || x in xs;
    assert x in keys <==> x in keys0 || x in xs;
    AppendNewSnoc(keys0, xs, x);
    AllFalseSnoc(m0, xs, x);
  }

  /** Toggling twice restores the map exactly when the key was already there. */
  lemma ToggleTwice(m: map<string, bool>, a: string)
    ensures Toggled(Toggled(m, a), a) == m <==> a in m
  {
    if a in m {
      assert Toggled(Toggled(m, a), a) == m[a := m[a]];
    }
  }

  /** The inner `forEach`: adds one hotel's labels, in order, to the insertion-ordered set. */
  method AddLabels(all: seq<string>, labels: seq<string>) returns (r: seq<string>)
    ensures r == AppendNew(all, labels)
  {
    r := all;
    var j := 0;
    while j < |labels|
      invariant 0 <= j <= |labels|
      invariant r == AppendNew(all, labels[..j])
    {
      AppendNextLabel(all, labels, j, r);
      if labels[j] !in r {
        r := r + [labels[j]];
      }
      j := j + 1;
    }
    assert labels[..j] == labels;
  }

  /**
   * The first half of `generateDynamicAmenities`: the labels of every hotel
   * whose amenity field is an array, added one by one to an
   * insertion-ordered set.
   */
  method CollectAmenities(catalog: seq<Hotel>) returns (all: seq<string>)
    ensures all == Discovered(catalog)
  {
    all := [];
    var i := 0;
    while i < |catalog|
      invariant 0 <= i <= |catalog|
      invariant all == AppendNew([], AllLabels(catalog[..i]))
    {
      ghost var before := all;
      if catalog[i].amenities.Some? {
        all := AddLabels(all, catalog[i].amenities.value);
      }
      CollectStep(catalog, i, before, all);
      i := i + 1;
    }
    assert catalog[..i] == catalog;
  }

  // ---------------------------------------------------------------------
  // The component
  // ---------------------------------------------------------------------

  class HotelListComponent {
    var searchQuery: string
    var maxPrice: real
    /** `filters.amenities`, with its keys' insertion order kept beside it. */
    var amenities: map<string, bool>
    var amenityKeys: seq<string>
    var hotels: seq<Hotel>
    var originalHotels: seq<Hotel>
    var sortCriteria: string

    /** The key order lists each key of the amenity map once. */
    ghost predicate Valid()
      reads this
    {
      Distinct(amenityKeys) && forall a :: a in amenityKeys <==> a in amenities
    }

    constructor ()
      ensures Valid()
      ensures searchQuery == "" && maxPrice == MaxPriceLimit
      ensures amenities == map[] && amenityKeys == []
      ensures hotels == [] && originalHotels == [] && sortCriteria == PriceLowToHigh
    {
      searchQuery, maxPrice := "", MaxPriceLimit;
      amenities, amenityKeys := map[], [];
      hotels, originalHotels := [], [];
      sortCriteria := PriceLowToHigh;
    }

    /** The catalog fetch succeeded. */
    method OnHotelsLoaded(data: seq<Hotel>)
      requires Valid()
      modifies this`hotels, this`originalHotels, this`amenities, this`amenityKeys
      ensures Valid()
      ensures hotels == data && originalHotels == data
      ensures amenities == old(amenities) + AllFalse(Discovered(data))
      ensures amenityKeys == AppendNew(old(amenityKeys), Discovered(data))
    {
      hotels := data;
      originalHotels := data;
      GenerateDynamicAmenities();
    }

    /**
     * Collects the labels of every hotel whose amenity field is an array
     * into an insertion-ordered set, then marks each as unchecked.
     */
    method GenerateDynamicAmenities()
      requires Valid()
      modifies this`amenities, this`amenityKeys
      ensures Valid()
      ensures amenities == old(amenities) + AllFalse(Discovered(originalHotels))
      ensures amenityKeys == AppendNew(old(amenityKeys), Discovered(originalHotels))
    {
      var all := CollectAmenities(originalHotels);
      var keys, m := amenityKeys, amenities;
      ghost var keys0, m0 := keys, m;
      assert Distinct(keys0) && forall a :: a in keys0 <==> a in m0;
      var k := 0;
      while k < |all|
        invariant 0 <= k <= |all|
        invariant keys == AppendNew(keys0, all[..k])
        invariant m == m0 + AllFalse(all[..k])
      {
        WriteStep(keys0, m0, all, k, keys, m);
        if all[k] !in m {
          keys := keys + [all[k]];
        }
        m := m[all[k] := false];
        k := k + 1;
      }
      assert all[..k] == all;
      KeysTrackMap(keys0, m0, all);
      amenities, amenityKeys := m, keys;
    }

    /** Flips one amenity's selection; an unknown amenity is added as selected. */
    method ToggleAmenity(a: string)
      requires Valid()
      modifies this`amenities, this`amenityKeys
      ensures Valid()
      ensures amenities == Toggled(old(amenities), a)
      ensures amenityKeys == AppendNew(old(amenityKeys), [a])
    {
      if a !in amenities {
        amenityKeys := amenityKeys + [a];
      }
      amenities := amenities[a := !(a in amenities && amenities[a])];
    }

    /** `Object.keys(filters.amenities)`: every key once, in insertion order. */
    function GetAmenityKeys(): (keys: seq<string>)
      reads this
      requires Valid()
      ensures Distinct(keys)
      ensures forall a :: a in keys <==> a in amenities
    {
      amenityKeys
    }

    /** `filteredHotels`: reads the catalog and the filter state, changes nothing. */
    function FilteredHotels(): (r: Result<seq<Hotel>>)
      reads this
      ensures r.TypeError? <==> (Selected(amenities) != {} &&
        exists h :: h in originalHotels && (searchQuery == "" || MatchesText(h, searchQuery)) &&
          h.price <= maxPrice && h.amenities.None?)
      ensures r.Ok? ==> forall h :: h in r.value <==>
        h in originalHotels && Passes(h, searchQuery, maxPrice, Selected(amenities))
    {
      FailsIff(originalHotels, searchQuery, maxPrice, amenities, sortCriteria);
      var r := FilterAndSort(originalHotels, searchQuery, maxPrice, amenities, sortCriteria);
      if r.Ok? then
        SoundAndComplete(originalHotels, searchQuery, maxPrice, amenities, sortCriteria);
        r
      else r
    }
  }
}
