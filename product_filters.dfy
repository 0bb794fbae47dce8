/** The filter bar above the product grid: edits of one filter at a time,
    the reset, and the badge counting the filters in use besides the search
    text. The filter values themselves belong to the page; this component
    hands every new filter record to the page's callback. */
module ProductFilters {
  import opened Common

  datatype FilterKey = Search | Category | MinPrice | MaxPrice

  /** Form values, all strings; `""` means "not set". */
  datatype Filters = Filters(search: string, category: string, minPrice: string, maxPrice: string)

  const NoFilters := Filters("", "", "", "")

  function ValueOf(f: Filters, k: FilterKey): string {
    match k
    case Search => f.search
    case Category => f.category
    case MinPrice => f.minPrice
    case MaxPrice => f.maxPrice
  }

  /** `{ ...filters, [key]: value }` */
  function With(f: Filters, k: FilterKey, v: string): Filters {
    match k
    case Search => f.(search := v)
    case Category => f.(category := v)
    case MinPrice => f.(minPrice := v)
    case MaxPrice => f.(maxPrice := v)
  }

  /** The filters the badge counts: the search text never does. */
  const CountedKeys: set<FilterKey> := {Category, MinPrice, MaxPrice}

  /** The counted filters that are set (non-empty, as JavaScript truthiness
      has it: `"0"` is set). */
  function ActiveKeys(f: Filters): set<FilterKey> {
    set k | k in CountedKeys && ValueOf(f, k) != ""
  }

  /** The same set, one counted filter at a time. */
  lemma ActiveKeysByCase(f: Filters)
    ensures ActiveKeys(f) ==
              (if f.category != "" then {Category} else {})
              + (if f.minPrice != "" then {MinPrice} else {})
              + (if f.maxPrice != "" then {MaxPrice} else {})
  {
  }

  /** The badge never shows more than three. */
  lemma ActiveCountAtMostThree(f: Filters)
    ensures |ActiveKeys(f)| <= 3
  {
    ActiveKeysByCase(f);
    var byCategory: set<FilterKey> := if f.category != "" then {Category} else {};
    var byMin: set<FilterKey> := if f.minPrice != "" then {MinPrice} else {};
    var byMax: set<FilterKey> := if f.maxPrice != "" then {MaxPrice} else {};
    assert |byCategory + byMin| <= |byCategory| + |byMin|;
    assert |byCategory + byMin + byMax| <= |byCategory + byMin| + |byMax|;
  }

  /** Reset filters count nothing. */
  lemma NoFiltersCountNothing()
    ensures ActiveKeys(NoFilters) == {}
  {
    ActiveKeysByCase(NoFilters);
  }

  /** The search text never affects the badge. */
  lemma SearchNeverCounts(f: Filters, v: string)
    ensures ActiveKeys(With(f, Search, v)) == ActiveKeys(f)
  {
    ActiveKeysByCase(f);
    ActiveKeysByCase(With(f, Search, v));
  }

  /** What follows the count in the summary: singular for exactly one. */
  function CountedNoun(count: nat): string {
    " filter" + (if count == 1 then "" else "s") + " applied"
  }

  /** The text next to the reset button. */
  function SummaryLabel(count: nat): (text: string)
    ensures count == 0 ==> text == "No filters applied"
    ensures count == 1 ==> text == "1 filter applied"
    ensures count > 1 ==> text == NatToString(count) + " filters applied"
  {
    if count > 0 then NatToString(count) + CountedNoun(count)
    else "No filters applied"
  }

  /** A run of digits followed by text that starts with a non-digit can be
      split back unambiguously. */
  lemma DigitsThenText(d1: string, x1: string, d2: string, x2: string)
    requires IsDigits(d1) && IsDigits(d2)
    requires |x1| > 0 && !('0' <= x1[0] <= '9')
    requires |x2| > 0 && !('0' <= x2[0] <= '9')
    ensures d1 + x1 == d2 + x2 ==> d1 == d2
  {
    if d1 + x1 == d2 + x2 {
      var s := d1 + x1;
      assert !('0' <= s[|d1|] <= '9');
      assert !('0' <= s[|d2|] <= '9');
      assert |d1| == |d2|;
      assert d1 == s[..|d1|] == d2;
    }
  }

  /** Only the "no filters" text starts with something other than a digit. */
  lemma SummaryLabelLead(n: nat)
    ensures |SummaryLabel(n)| > 0
    ensures '0' <= SummaryLabel(n)[0] <= '9' <==> n > 0
  {
  }

  /** The summary determines the count: different counts read differently. */
  lemma SummaryLabelInjective(a: nat, b: nat)
    ensures SummaryLabel(a) == SummaryLabel(b) ==> a == b
  {
    SummaryLabelLead(a);
    SummaryLabelLead(b);
    if SummaryLabel(a) == SummaryLabel(b) && a > 0 && b > 0 {
      assert CountedNoun(a)[0] == ' ' && CountedNoun(b)[0] == ' ';
      DigitsThenText(NatToString(a), CountedNoun(a), NatToString(b), CountedNoun(b));
      NatToStringInjective(a, b);
    }
  }

  class FilterPanel {
    var isFilterOpen: bool

    constructor ()
      ensures !isFilterOpen
    {
      isFilterOpen := false;
    }

    /** The filter icon opens and closes the panel. */
    method ToggleFilters()
      modifies this
      ensures isFilterOpen == !old(isFilterOpen)
    {
      isFilterOpen := !isFilterOpen;
    }

    /** The record passed to the page's callback: the old filters with only
        `key` replaced. */
    method HandleFilterChange(filters: Filters, key: FilterKey, value: string) returns (emitted: Filters)
      ensures ValueOf(emitted, key) == value
      ensures forall k :: k != key ==> ValueOf(emitted, k) == ValueOf(filters, k)
    {
      emitted := With(filters, key, value);
    }

    /** Hands all-empty filters to the page and closes the panel. */
    method ClearFilters() returns (emitted: Filters)
      modifies this
      ensures forall k :: ValueOf(emitted, k) == ""
      ensures ActiveKeys(emitted) == {}
      ensures !isFilterOpen
    {
      emitted := Filters("", "", "", "");
      isFilterOpen := false;
    }

    /** Counts, one `if` at a time, the counted filters that are set. */
    method GetActiveFiltersCount(filters: Filters) returns (count: nat)
      ensures count == |ActiveKeys(filters)|
      ensures count <= 3
    {
      ghost var counted: set<FilterKey> := {};
      count := 0;
      if filters.category != "" {
        count := count + 1;
        counted := counted + {Category};
      }
      assert count == |counted| && counted <= {Category};
      if filters.minPrice != "" {
        count := count + 1;
        counted := counted + {MinPrice};
      }
      assert count == |counted| && counted <= {Category, MinPrice};
      if filters.maxPrice != "" {
        count := count + 1;
        counted := counted + {MaxPrice};
      }
      assert count == |counted|;
      ActiveKeysByCase(filters);
      ActiveCountAtMostThree(filters);
    }
  }
}
