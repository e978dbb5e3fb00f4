/** The carbon offset marketplace: a list of offers, three optional filters
    (type, certification, price range) applied one after the other, the tons
    badge over what is shown, and the rule that sample offers stay unless the
    backend returns some. */
module OffsetMarketplace {
  import opened Wrappers
  import opened JsNumbers
  import opened Backend
  import Text
  import Seqs

  /** One offer; prices and tons are JavaScript numbers. */
  datatype Offset = Offset(
    id: string, providerName: string, offsetType: string, pricePerTon: real,
    availableTons: real, certification: string, projectDescription: string, isAvailable: bool)

  /** The three filter selections; "" means "all". */
  datatype Filters = Filters(offsetType: string, certification: string, priceRange: string)

  const NoFilters := Filters("", "", "")

  /** `const [min, max] = range.split("-").map(Number)`: `max` is absent when
      there is no "-". */
  datatype PriceBounds = PriceBounds(min: Num, max: Option<Num>)

  function ParsePriceRange(range: string): (b: PriceBounds)
    ensures b.max.None? <==> '-' !in range
  {
    var parts := Text.Split(range, '-');
    SplitPieces(range);
    PriceBounds(ToNumber(parts[0]), if |parts| >= 2 then Some(ToNumber(parts[1])) else None)
  }

  /** A string splits on "-" into two pieces or more exactly when it holds a "-". */
  lemma {:induction false} SplitPieces(s: string)
    ensures |Text.Split(s, '-')| >= 2 <==> '-' in s
  {
    if s != "" {
      SplitPieces(s[1..]);
      assert s == [s[0]] + s[1..];
    }
  }

  /** `x >= n` and `x <= n` for a number `n`; a comparison with NaN is false. */
  predicate AtLeast(x: real, n: Num)
  {
    n.Finite? && x >= n.v
  }

  predicate AtMost(x: real, n: Num)
  {
    n.Finite? && x <= n.v
  }

  /** The price test: both bounds when `max` is truthy, else only the lower one. */
  predicate InPriceRange(price: real, b: PriceBounds)
  {
    if b.max.Some? && Truthy(b.max.value) then AtLeast(price, b.min) && AtMost(price, b.max.value)
    else AtLeast(price, b.min)
  }

  predicate TypeMatches(o: Offset, f: Filters)
  {
    f.offsetType == "" || o.offsetType == f.offsetType
  }

  predicate CertificationMatches(o: Offset, f: Filters)
  {
    f.certification == "" || o.certification == f.certification
  }

  predicate PriceMatches(o: Offset, f: Filters)
  {
    f.priceRange == "" || InPriceRange(o.pricePerTon, ParsePriceRange(f.priceRange))
  }

  /** An offer is shown when it passes every filter that is set. */
  predicate Matches(o: Offset, f: Filters)
  {
    TypeMatches(o, f) && CertificationMatches(o, f) && PriceMatches(o, f)
  }

  /** What the list shows: one pass over the offers keeping those that match. */
  function Filtered(offsets: seq<Offset>, f: Filters): seq<Offset>
  {
    Seqs.Filter(offsets, (o: Offset) => Matches(o, f))
  }

  /** The list shown keeps the offers' order and only drops offers. */
  lemma FilteredIsSubsequence(offsets: seq<Offset>, f: Filters)
    ensures Seqs.IsSubsequence(Filtered(offsets, f), offsets)
  {
    Seqs.FilterIsSubsequence(offsets, (o: Offset) => Matches(o, f));
  }

  /** An offer is shown exactly as often as it is listed when it matches, and not
      at all otherwise. */
  lemma FilteredExactly(offsets: seq<Offset>, f: Filters, o: Offset)
    ensures multiset(Filtered(offsets, f))[o] == if Matches(o, f) then multiset(offsets)[o] else 0
  {
    Seqs.FilterMultiplicity(offsets, (o: Offset) => Matches(o, f), o);
  }

  /** Every offer shown has the selected type and certification, when one is set,
      and its price is in the selected range. */
  lemma ShownOffersMatch(offsets: seq<Offset>, f: Filters)
    ensures forall o :: o in Filtered(offsets, f) ==>
              o in offsets
              && (f.offsetType != "" ==> o.offsetType == f.offsetType)
              && (f.certification != "" ==> o.certification == f.certification)
              && (f.priceRange != "" ==> InPriceRange(o.pricePerTon, ParsePriceRange(f.priceRange)))
  {
  }

  /** With no filter set, every offer is shown, in order. */
  lemma NoFiltersShowAll(offsets: seq<Offset>)
    ensures Filtered(offsets, NoFilters) == offsets
  {
    Seqs.FilterAll(offsets, (o: Offset) => Matches(o, NoFilters));
  }

  /** A range `"a-b"` of two digit strings with `b` not zero keeps the prices from
      `a` to `b`, both included. */
  lemma PriceBetween(a: string, b: string, price: real)
    requires a != "" && IsDigits(a) && b != "" && IsDigits(b) && DigitsValue(b) != 0
    ensures ParsePriceRange(a + "-" + b) == PriceBounds(Finite(DigitsValue(a) as real), Some(Finite(DigitsValue(b) as real)))
    ensures InPriceRange(price, ParsePriceRange(a + "-" + b))
            <==> DigitsValue(a) as real <= price <= DigitsValue(b) as real
  {
    RangeParts(a, b);
    BothBounds(price, DigitsValue(a) as real, DigitsValue(b) as real);
  }

  /** Finite bounds with a non-zero maximum keep exactly the prices between them. */
  lemma BothBounds(price: real, lo: real, hi: real)
    requires hi != 0.0
    ensures InPriceRange(price, PriceBounds(Finite(lo), Some(Finite(hi)))) <==> lo <= price <= hi
  {
  }

  /** A range `"a-0"` has a falsy maximum and keeps every price from `a` up. */
  lemma PriceZeroMaximum(a: string, b: string, price: real)
    requires a != "" && IsDigits(a) && b != "" && IsDigits(b) && DigitsValue(b) == 0
    ensures InPriceRange(price, ParsePriceRange(a + "-" + b)) <==> DigitsValue(a) as real <= price
  {
    RangeParts(a, b);
  }

  lemma RangeParts(a: string, b: string)
    requires a != "" && IsDigits(a) && b != "" && IsDigits(b)
    ensures ParsePriceRange(a + "-" + b) == PriceBounds(Finite(DigitsValue(a) as real), Some(Finite(DigitsValue(b) as real)))
  {
    assert '-' !in a && '-' !in b by {
      assert forall i :: 0 <= i < |a| ==> IsDigit(a[i]);
      assert forall i :: 0 <= i < |b| ==> IsDigit(b[i]);
    }
    assert Text.Join([a, b], '-') == a + "-" + b by {
      assert [a, b][1..] == [b];
    }
    Text.SplitJoin([a, b], '-');
    DigitsParse(a);
    DigitsParse(b);
  }

  /** A single value `"a"` (no "-") keeps every price from `a` up. */
  lemma PriceFrom(a: string, price: real)
    requires a != "" && IsDigits(a)
    ensures ParsePriceRange(a) == PriceBounds(Finite(DigitsValue(a) as real), None)
    ensures InPriceRange(price, ParsePriceRange(a)) <==> DigitsValue(a) as real <= price
  {
    assert '-' !in a by {
      assert forall i :: 0 <= i < |a| ==> IsDigit(a[i]);
    }
    Text.SplitWithoutSeparator(a, '-');
    DigitsParse(a);
  }

  /** The offered "$0 - $20" choice keeps prices from 0 to 20, and "$100+" keeps
      prices of 100 and more. */
  lemma OfferedRanges(price: real)
    ensures InPriceRange(price, ParsePriceRange("0-20")) <==> 0.0 <= price <= 20.0
    ensures InPriceRange(price, ParsePriceRange("100")) <==> 100.0 <= price
  {
    assert DigitsValue("0") == 0 by { assert "0"[..0] == ""; }
    assert DigitsValue("20") == 20 by { assert "20"[..1] == "2" && "2"[..0] == ""; }
    assert DigitsValue("100") == 100 by {
      assert "100"[..2] == "10" && "10"[..1] == "1" && "1"[..0] == "";
    }
    assert "0" + "-" + "20" == "0-20";
    PriceBetween("0", "20", price);
    PriceFrom("100", price);
  }

  /** The tons badge: the sum of the available tons over what is shown. */
  function TonsOf(offsets: seq<Offset>): real
  {
    Seqs.Sum(offsets, (o: Offset) => o.availableTons)
  }

  /** Filters can only lower the tons badge when tons are not negative. */
  lemma FilteredTonsAtMost(offsets: seq<Offset>, f: Filters)
    requires forall o :: o in offsets ==> o.availableTons >= 0.0
    ensures TonsOf(Filtered(offsets, f)) <= TonsOf(offsets)
  {
    Seqs.SumFilterAtMost(offsets, (o: Offset) => Matches(o, f), (o: Offset) => o.availableTons);
  }

  /** The five offers shown before (or instead of) the backend's. */
  const SampleOffsets: seq<Offset> := [
    Offset("sample-1", "Gold Standard Forestry", "Forestry", 15.50, 1000.0, "Gold Standard",
           "Reforestation project in Costa Rica protecting biodiversity and sequestering carbon through native tree planting.", true),
    Offset("sample-2", "Verra Renewable Energy", "Renewable Energy", 12.25, 2500.0, "Verra VCS",
           "Wind farm development in India providing clean energy and reducing fossil fuel dependency.", true),
    Offset("sample-3", "Clean Development Mechanism", "Waste Management", 18.75, 750.0, "CDM",
           "Methane capture from landfills in Brazil, converting waste gas to clean energy.", true),
    Offset("sample-4", "Blue Carbon Initiative", "Blue Carbon", 22.00, 500.0, "Plan Vivo",
           "Mangrove restoration in Indonesia protecting coastal ecosystems and marine biodiversity.", true),
    Offset("sample-5", "Direct Air Capture Co.", "Direct Air Capture", 150.00, 100.0, "Gold Standard",
           "Advanced direct air capture technology permanently removing COâ‚‚ from the atmosphere.", true)
  ]

  /** The sample offers hold 4850 tons in all. */
  lemma SampleTons()
    ensures TonsOf(SampleOffsets) == 4850.0
  {
    var s := SampleOffsets;
    TonsStep(s);
    TonsStep(s[1..]);
    TonsStep(s[2..]);
    TonsStep(s[3..]);
    TonsStep(s[4..]);
    assert s[1..][1..] == s[2..] && s[2..][1..] == s[3..] && s[3..][1..] == s[4..] && s[4..][1..] == [];
  }

  lemma TonsStep(s: seq<Offset>)
    requires s != []
    ensures TonsOf(s) == s[0].availableTons + TonsOf(s[1..])
  {
  }

  /** The component's state. The effect that re-runs `applyFilters` whenever the
      offers or the filters change is folded into every method that changes
      them, so the shown list always equals `Filtered(offsets, filters)`. */
  class Marketplace {
    var offsets: seq<Offset>
    var filteredOffsets: seq<Offset>
    var loading: bool
    var filters: Filters

    predicate Valid()
      reads this
    {
      filteredOffsets == Filtered(offsets, filters)
    }

    constructor ()
      ensures Valid() && offsets == [] && filteredOffsets == [] && loading && filters == NoFilters
    {
      offsets := [];
      filteredOffsets := [];
      loading := true;
      filters := NoFilters;
    }

    /** `applyFilters`: a copy of the offers narrowed by each filter that is set,
        in turn; the result is the one-pass filter by all three. */
    method ApplyFilters()
      modifies this`filteredOffsets
      ensures Valid()
    {
      var f := filters;
      var filtered := offsets;
      ghost var typed := Seqs.Filter(offsets, (o: Offset) => TypeMatches(o, f));
      if f.offsetType != "" {
        filtered := Seqs.Filter(filtered, (o: Offset) => o.offsetType == f.offsetType);
        Seqs.FilterSame(offsets, (o: Offset) => o.offsetType == f.offsetType, (o: Offset) => TypeMatches(o, f));
      } else {
        Seqs.FilterAll(offsets, (o: Offset) => TypeMatches(o, f));
      }
      assert filtered == typed;
      ghost var certified := Seqs.Filter(offsets, (o: Offset) => TypeMatches(o, f) && CertificationMatches(o, f));
      if f.certification != "" {
        filtered := Seqs.Filter(filtered, (o: Offset) => o.certification == f.certification);
        Seqs.FilterFilter(offsets, (o: Offset) => TypeMatches(o, f), (o: Offset) => o.certification == f.certification,
                          (o: Offset) => TypeMatches(o, f) && CertificationMatches(o, f));
      } else {
        Seqs.FilterFilter(offsets, (o: Offset) => TypeMatches(o, f), (o: Offset) => CertificationMatches(o, f),
                          (o: Offset) => TypeMatches(o, f) && CertificationMatches(o, f));
        Seqs.FilterAll(typed, (o: Offset) => CertificationMatches(o, f));
      }
      assert filtered == certified;
      if f.priceRange != "" {
        var bounds := ParsePriceRange(f.priceRange);
        filtered := Seqs.Filter(filtered, (o: Offset) => InPriceRange(o.pricePerTon, bounds));
        Seqs.FilterFilter(offsets, (o: Offset) => TypeMatches(o, f) && CertificationMatches(o, f),
                          (o: Offset) => InPriceRange(o.pricePerTon, bounds), (o: Offset) => Matches(o, f));
      } else {
        Seqs.FilterFilter(offsets, (o: Offset) => TypeMatches(o, f) && CertificationMatches(o, f),
                          (o: Offset) => PriceMatches(o, f), (o: Offset) => Matches(o, f));
        Seqs.FilterAll(certified, (o: Offset) => PriceMatches(o, f));
      }
      filteredOffsets := filtered;
    }

    /** `fetchOffsets`: the returned rows replace the offers only when the read
        succeeded with at least one row; otherwise the offers are kept. */
    method FetchOffsets(result: Read<Offset>)
      modifies this`offsets, this`filteredOffsets
      ensures offsets == if result.Rows? && |result.rows| > 0 then result.rows else old(offsets)
      ensures Valid()
    {
      if result.ReadFailed? {
        ApplyFilters();
        return;
      }
      if |result.rows| > 0 {
        offsets := result.rows;
      }
      ApplyFilters();
    }

    /** `initializeData`: the sample offers first, loading off, then the fetch. */
    method InitializeData(result: Read<Offset>)
      modifies this`offsets, this`filteredOffsets, this`loading
      ensures !loading
      ensures offsets == if result.Rows? && |result.rows| > 0 then result.rows else SampleOffsets
      ensures Valid()
    {
      offsets := SampleOffsets;
      loading := false;
      FetchOffsets(result);
    }

    /** `setFilters`, as the filter controls call it. */
    method SetFilters(f: Filters)
      modifies this`filters, this`filteredOffsets
      ensures filters == f && Valid()
    {
      filters := f;
      ApplyFilters();
    }

    /** The "Clear Filters" button: every offer is shown again. */
    method ClearFilters()
      modifies this`filters, this`filteredOffsets
      ensures filters == NoFilters && filteredOffsets == offsets
      ensures Valid()
    {
      SetFilters(NoFilters);
      NoFiltersShowAll(offsets);
    }

    /** The tons badge: the tons of the offers that pass the filters. */
    function TonsAvailable(): (tons: real)
      reads this
      ensures Valid() ==> tons == TonsOf(Filtered(offsets, filters))
    {
      TonsOf(filteredOffsets)
    }
  }
}
