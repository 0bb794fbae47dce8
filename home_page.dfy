/** The storefront's home page: it owns the product filters, turns them into
    the query of `GET /items`, and keeps the product list, the loading flag
    and the error banner. */
module HomePage {
  import opened Common
  import opened Api
  import opened ProductFilters

  /** The characters `String.prototype.trim` removes: the ECMAScript
      WhiteSpace and LineTerminator code points. */
  predicate IsJsWhitespace(c: char) {
    c == '\t' || c == '\n' || c == '\U{B}' || c == '\U{C}' || c == '\r' || c == ' '
    || c == '\U{A0}' || c == '\U{1680}' || ('\U{2000}' <= c <= '\U{200A}')
    || c == '\U{2028}' || c == '\U{2029}' || c == '\U{202F}' || c == '\U{205F}'
    || c == '\U{3000}' || c == '\U{FEFF}'
  }

  /** `s` with its leading whitespace removed. */
  function TrimStart(s: string): string
    decreases |s|
  {
    if s != [] && IsJsWhitespace(s[0]) then TrimStart(s[1..]) else s
  }

  /** `s` with its trailing whitespace removed. */
  function TrimEnd(s: string): string
    decreases |s|
  {
    if s != [] && IsJsWhitespace(s[|s| - 1]) then TrimEnd(s[..|s| - 1]) else s
  }

  /** Trimming the start keeps a suffix, everything cut is whitespace, and
      what is kept does not start with whitespace. */
  lemma {:induction false} TrimStartSpec(s: string)
    ensures var r := TrimStart(s);
      && |r| <= |s| && r == s[|s| - |r|..]
      && (forall i :: 0 <= i < |s| - |r| ==> IsJsWhitespace(s[i]))
      && (r == [] || !IsJsWhitespace(r[0]))
    decreases |s|
  {
    if s != [] && IsJsWhitespace(s[0]) {
      TrimStartSpec(s[1..]);
      var r := TrimStart(s);
      assert r == TrimStart(s[1..]);
      assert s[1..][|s| - 1 - |r|..] == s[|s| - |r|..];
      forall i | 0 <= i < |s| - |r|
        ensures IsJsWhitespace(s[i])
      {
        if i > 0 {
          assert s[i] == s[1..][i - 1];
        }
      }
    }
  }

  /** Trimming the end keeps a prefix, dually. */
  lemma {:induction false} TrimEndSpec(s: string)
    ensures var r := TrimEnd(s);
      && |r| <= |s| && r == s[..|r|]
      && (forall i :: |r| <= i < |s| ==> IsJsWhitespace(s[i]))
      && (r == [] || !IsJsWhitespace(r[|r| - 1]))
    decreases |s|
  {
    if s != [] && IsJsWhitespace(s[|s| - 1]) {
      TrimEndSpec(s[..|s| - 1]);
      var r := TrimEnd(s);
      assert r == TrimEnd(s[..|s| - 1]);
      assert s[..|s| - 1][..|r|] == s[..|r|];
      forall i | |r| <= i < |s|
        ensures IsJsWhitespace(s[i])
      {
        if i < |s| - 1 {
          assert s[i] == s[..|s| - 1][i];
        }
      }
    }
  }

  /** `s.trim()`: never longer than `s`, and with no whitespace left at
      either end. */
  function Trim(s: string): (r: string)
    ensures |r| <= |s|
    ensures r == [] || (!IsJsWhitespace(r[0]) && !IsJsWhitespace(r[|r| - 1]))
  {
    TrimStartSpec(s);
    TrimEndSpec(TrimStart(s));
    TrimEnd(TrimStart(s))
  }

  /** `s.trim()` is falsy exactly when `s` is blank. */
  lemma TrimEmptyIffBlank(s: string)
    ensures Trim(s) == [] <==> forall i :: 0 <= i < |s| ==> IsJsWhitespace(s[i])
  {
    var t := TrimStart(s);
    TrimStartSpec(s);
    TrimEndSpec(t);
    if t != [] {
      assert t[0] == s[|s| - |t|];
    }
  }

  /** A trimmed text is a piece of the original with no whitespace at
      either end, and everything cut off on either side is whitespace. */
  lemma TrimIsInner(s: string)
    ensures exists i, j :: 0 <= i <= j <= |s| && Trim(s) == s[i..j]
              && (forall k :: 0 <= k < i ==> IsJsWhitespace(s[k]))
              && (forall k :: j <= k < |s| ==> IsJsWhitespace(s[k]))
    ensures Trim(s) == [] || (!IsJsWhitespace(Trim(s)[0]) && !IsJsWhitespace(Trim(s)[|Trim(s)| - 1]))
  {
    var t := TrimStart(s);
    var r := TrimEnd(t);
    TrimStartSpec(s);
    TrimEndSpec(t);
    var i := |s| - |t|;
    assert r == s[i..i + |r|];
    forall k | i + |r| <= k < |s|
      ensures IsJsWhitespace(s[k])
    {
      assert s[k] == t[k - i];
    }
    if r != [] {
      assert r[0] == t[0];
    }
  }

  /** The query string names of the four filters. */
  const SearchParam := "search"
  const CategoryParam := "category"
  const MinPriceParam := "minPrice"
  const MaxPriceParam := "maxPrice"

  lemma ParamNamesDistinct()
    ensures SearchParam != CategoryParam && SearchParam != MinPriceParam && SearchParam != MaxPriceParam
    ensures CategoryParam != MinPriceParam && CategoryParam != MaxPriceParam
    ensures MinPriceParam != MaxPriceParam
  {
    assert |SearchParam| == 6 && |CategoryParam| == 8;
    assert CategoryParam[0] == 'c' && MinPriceParam[0] == 'm' && MaxPriceParam[0] == 'm';
    assert MinPriceParam[1] == 'i' && MaxPriceParam[1] == 'a';
  }

  /** `params` is the query built from `f`: the trimmed search text when it
      is not blank, and each other filter that is set, verbatim; nothing
      else. */
  predicate IsQueryFor(f: Filters, params: map<string, string>) {
    && params.Keys <= {SearchParam, CategoryParam, MinPriceParam, MaxPriceParam}
    && (SearchParam in params <==> Trim(f.search) != "")
    && (SearchParam in params ==> params[SearchParam] == Trim(f.search))
    && (CategoryParam in params <==> f.category != "")
    && (CategoryParam in params ==> params[CategoryParam] == f.category)
    && (MinPriceParam in params <==> f.minPrice != "")
    && (MinPriceParam in params ==> params[MinPriceParam] == f.minPrice)
    && (MaxPriceParam in params <==> f.maxPrice != "")
    && (MaxPriceParam in params ==> params[MaxPriceParam] == f.maxPrice)
  }

  /** The filters fix the query completely. */
  lemma QueryDeterminedByFilters(f: Filters, p1: map<string, string>, p2: map<string, string>)
    requires IsQueryFor(f, p1) && IsQueryFor(f, p2)
    ensures p1 == p2
  {
    assert p1.Keys == p2.Keys;
    assert forall k :: k in p1 ==> p1[k] == p2[k];
  }

  /** Reset filters, and filters holding only whitespace search text, ask
      for the whole catalogue; a blank search text is never sent. */
  lemma BlankFiltersAskForEverything(f: Filters, params: map<string, string>)
    requires IsQueryFor(f, params)
    requires forall i :: 0 <= i < |f.search| ==> IsJsWhitespace(f.search[i])
    requires ActiveKeys(f) == {}
    ensures params == map[]
  {
    TrimEmptyIffBlank(f.search);
    assert Category !in ActiveKeys(f) && MinPrice !in ActiveKeys(f) && MaxPrice !in ActiveKeys(f);
    assert params.Keys == {};
  }

  /** Every filter the badge counts is sent to the server, under its own
      name. */
  lemma CountedFiltersAreSent(f: Filters, params: map<string, string>)
    requires IsQueryFor(f, params)
    ensures Category in ActiveKeys(f) <==> CategoryParam in params
    ensures MinPrice in ActiveKeys(f) <==> MinPriceParam in params
    ensures MaxPrice in ActiveKeys(f) <==> MaxPriceParam in params
  {
    assert Category in CountedKeys && MinPrice in CountedKeys && MaxPrice in CountedKeys;
  }

  /** `m` with `key` set to `value` when `value` is non-empty. */
  function PutIfSet(m: map<string, string>, key: string, value: string): map<string, string> {
    if value != "" then m[key := value] else m
  }

  /** The query of `GET /items` for filters `f`, one entry at a time; it is
      the query the filters call for. */
  function QueryOf(f: Filters): (params: map<string, string>)
    ensures IsQueryFor(f, params)
  {
    ParamNamesDistinct();
    var withSearch := PutIfSet(map[], SearchParam, Trim(f.search));
    var withCategory := PutIfSet(withSearch, CategoryParam, f.category);
    var withMin := PutIfSet(withCategory, MinPriceParam, f.minPrice);
    PutIfSet(withMin, MaxPriceParam, f.maxPrice)
  }

  /** The query `fetchProducts` builds from the filters. */
  method BuildParams(filters: Filters) returns (params: map<string, string>)
    ensures params == QueryOf(filters)
    ensures IsQueryFor(filters, params)
  {
    var search := Trim(filters.search);
    params := map[];
    if search != "" {
      params := params[SearchParam := search];
    }
    assert params == PutIfSet(map[], SearchParam, search);
    ghost var withSearch := params;
    if filters.category != "" {
      params := params[CategoryParam := filters.category];
    }
    assert params == PutIfSet(withSearch, CategoryParam, filters.category);
    ghost var withCategory := params;
    if filters.minPrice != "" {
      params := params[MinPriceParam := filters.minPrice];
    }
    assert params == PutIfSet(withCategory, MinPriceParam, filters.minPrice);
    ghost var withMin := params;
    if filters.maxPrice != "" {
      params := params[MaxPriceParam := filters.maxPrice];
    }
    assert params == PutIfSet(withMin, MaxPriceParam, filters.maxPrice);
  }

  const LoadFailedMessage := "Failed to load products. Please try again."

  /** What the page body shows. */
  datatype Screen =
    | FullPageSpinner
    | Listing(status: string, showsNoProducts: bool)

  class Home {
    const api: ApiClient
    var products: seq<Product>
    var loading: bool
    var error: Option<string>
    var filters: Filters

    /** The page mounts with no products, the spinner on, and no filter set. */
    constructor (api: ApiClient)
      ensures this.api == api
      ensures products == [] && loading && error == None && filters == NoFilters
    {
      this.api := api;
      products := [];
      loading := true;
      error := None;
      filters := NoFilters;
    }

    /** Loads the products for the current filters. A failure keeps the
        products already on screen and raises the banner; either way the
        spinner goes off. */
    method FetchProducts(response: Response<seq<Product>>)
      modifies this, api, api.storage
      ensures filters == old(filters)
      ensures !loading
      ensures response.Ok? ==> products == response.data && error == None
      ensures response.Err? ==> products == old(products) && error == Some(LoadFailedMessage)
      ensures |api.sent| == |old(api.sent)| + 1
      ensures api.sent[..|old(api.sent)|] == old(api.sent)
      ensures var req := api.sent[|old(api.sent)|];
                req.endpoint == ItemsGetAll(QueryOf(filters)) && IsQueryFor(filters, req.endpoint.params)
                && req.headers == WithBearer(DefaultHeaders(), old(api.storage.entries))
      ensures api.storage.entries == AfterCall(old(api.storage.entries), response)
      ensures api.location == LocationAfter(old(api.location), response)
    {
      loading := true;
      error := None;
      var params := BuildParams(filters);
      var r := api.Send(ItemsGetAll(params), response);
      if r.Ok? {
        products := r.data;
      } else {
        error := Some(LoadFailedMessage);
      }
      loading := false;
    }

    /** The callback handed to the filter bar. */
    method HandleFilterChange(next: Filters)
      modifies this`filters
      ensures filters == next
    {
      filters := next;
    }

    /** The "Clear all filters" button of the empty result. */
    method ClearAllFilters()
      modifies this`filters
      ensures filters == NoFilters
      ensures ActiveKeys(filters) == {} && Trim(filters.search) == ""
    {
      filters := Filters("", "", "", "");
    }

    /** The page body: the full-page spinner only while the first load has
        nothing to show; otherwise the status line, and the empty-result
        panel when a finished load found nothing. */
    function View(): (v: Screen)
      reads this
      ensures v.FullPageSpinner? <==> loading && products == []
      ensures v.Listing? && loading ==> v.status == "Searching..."
      ensures v.Listing? && !loading ==> v.status == NatToString(|products|) + " products found"
      ensures v.Listing? ==> (v.showsNoProducts <==> products == [] && !loading)
    {
      if loading && |products| == 0 then FullPageSpinner
      else Listing(if loading then "Searching..." else NatToString(|products|) + " products found",
                   |products| == 0 && !loading)
    }
  }
}
