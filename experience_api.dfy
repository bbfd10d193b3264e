/**
 * `getAllExperiences` without the HTTP request: the query parameters built from the
 * filters, the request URL, and the normalisation applied to the experiences the
 * server returns.
 */
module ExperienceApi {
  import opened Wrappers
  import opened JsString
  import opened Types

  /** The optional filters a caller passes; prices are whole numbers. */
  datatype ExperienceFilters = ExperienceFilters(
    search: Option<string>,
    category: Option<string>,
    location: Option<string>,
    minPrice: Option<int>,
    maxPrice: Option<int>)

  /** The query keys, declared in the order they are appended. */
  datatype ParamKey = Search | Category | Location | MinPrice | MaxPrice {
    /** The key as it appears in the query string. */
    function Name(): string {
      match this
      case Search => "search"
      case Category => "category"
      case Location => "location"
      case MinPrice => "minPrice"
      case MaxPrice => "maxPrice"
    }

    /** The key's position in the append order. */
    function Rank(): nat {
      match this
      case Search => 0
      case Category => 1
      case Location => 2
      case MinPrice => 3
      case MaxPrice => 4
    }
  }

  /** The value recorded under `key`, `None` when there is none. */
  function Lookup(params: seq<(ParamKey, string)>, key: ParamKey): Option<string> {
    if params == [] then None
    else if params[0].0 == key then Some(params[0].1)
    else Lookup(params[1..], key)
  }

  /** A text filter is sent when it is present and non-empty (the empty string is falsy). */
  function TextParam(filter: Option<string>): (r: Option<string>)
    ensures r.Some? <==> filter.Some? && filter.value != ""
    ensures r.Some? ==> r == filter
  {
    if filter.Some? && filter.value != "" then filter else None
  }

  /** A price filter is sent whenever it is defined, 0 included, as `toString()` writes it. */
  function PriceParam(filter: Option<int>): (r: Option<string>)
    ensures r.Some? <==> filter.Some?
    ensures r.Some? ==> r.value != "" && ParseInt(r.value) == filter
  {
    match filter
    case None => None
    case Some(p) =>
      ParseIntOfString(p);
      Some(IntToString(p))
  }

  /** The keys appear in the append order, each at most once. */
  predicate InParamOrder(params: seq<(ParamKey, string)>) {
    forall i, j :: 0 <= i < j < |params| ==> params[i].0.Rank() < params[j].0.Rank()
  }

  /** Every key comes before `key` in the append order. */
  predicate AllBefore(params: seq<(ParamKey, string)>, key: ParamKey) {
    forall i :: 0 <= i < |params| ==> params[i].0.Rank() < key.Rank()
  }

  lemma LookupAppended(params: seq<(ParamKey, string)>, key: ParamKey, value: string, other: ParamKey)
    requires Lookup(params, key) == None || key != other
    ensures Lookup(params + [(other, value)], key)
         == if Lookup(params, key).Some? then Lookup(params, key)
            else if key == other then Some(value) else None
  {
    if params != [] {
      assert (params + [(other, value)])[1..] == params[1..] + [(other, value)];
      LookupAppended(params[1..], key, value, other);
    }
  }

  /** A list whose keys all come before `key` has no value under it. */
  lemma LookupOfEarlier(params: seq<(ParamKey, string)>, key: ParamKey)
    requires AllBefore(params, key)
    ensures Lookup(params, key) == None
  {
    if params != [] {
      LookupOfEarlier(params[1..], key);
    }
  }

  /** `queryParams.append(key, value)` on the parameter list. */
  method Append(params: seq<(ParamKey, string)>, key: ParamKey, value: string) returns (r: seq<(ParamKey, string)>)
    requires InParamOrder(params) && AllBefore(params, key)
    ensures r == params + [(key, value)]
    ensures InParamOrder(r)
    ensures Lookup(r, key) == Some(value)
    ensures forall k :: k != key ==> Lookup(r, k) == Lookup(params, k)
  {
    r := params + [(key, value)];
    LookupOfEarlier(params, key);
    forall k | k != key ensures Lookup(r, k) == Lookup(params, k) {
      LookupAppended(params, k, value, key);
    }
    LookupAppended(params, key, value, key);
  }

  /** Appends `(key, value)` when `value` is present, and leaves the list as it is otherwise. */
  method AppendIfPresent(params: seq<(ParamKey, string)>, key: ParamKey, value: Option<string>)
    returns (r: seq<(ParamKey, string)>)
    requires InParamOrder(params) && AllBefore(params, key)
    ensures InParamOrder(r)
    ensures Lookup(r, key) == value
    ensures forall k :: k != key ==> Lookup(r, k) == Lookup(params, k)
    ensures forall k: ParamKey :: key.Rank() < k.Rank() ==> AllBefore(r, k)
  {
    r := params;
    if value.Some? {
      r := Append(params, key, value.value);
    } else {
      LookupOfEarlier(params, key);
    }
  }

  /** The parameter list `getAllExperiences` builds: each filter that is sent, under its
      own key, in the order search, category, location, minPrice, maxPrice. */
  method BuildQueryParams(filters: ExperienceFilters) returns (params: seq<(ParamKey, string)>)
    ensures InParamOrder(params)
    ensures Lookup(params, Search) == TextParam(filters.search)
    ensures Lookup(params, Category) == TextParam(filters.category)
    ensures Lookup(params, Location) == TextParam(filters.location)
    ensures Lookup(params, MinPrice) == PriceParam(filters.minPrice)
    ensures Lookup(params, MaxPrice) == PriceParam(filters.maxPrice)
  {
    params := [];
    params := AppendIfPresent(params, Search, TextParam(filters.search));
    params := AppendIfPresent(params, Category, TextParam(filters.category));
    params := AppendIfPresent(params, Location, TextParam(filters.location));
    params := AppendIfPresent(params, MinPrice, PriceParam(filters.minPrice));
    params := AppendIfPresent(params, MaxPrice, PriceParam(filters.maxPrice));
  }

  const ExperiencesEndpoint: string := "http://localhost:5000/api/experiences"

  /** `queryParams.toString()` without percent-encoding: `key=value` pairs joined by `&`. */
  function Serialize(params: seq<(ParamKey, string)>): (query: string)
    ensures query == "" <==> params == []
  {
    if params == [] then ""
    else params[0].0.Name() + "=" + params[0].1 + (if |params| == 1 then "" else "&" + Serialize(params[1..]))
  }

  /** The request URL: the endpoint, then `?` and the parameters when there are any. */
  function ExperiencesUrl(params: seq<(ParamKey, string)>): string {
    var query := Serialize(params);
    ExperiencesEndpoint + (if query != "" then "?" + query else "")
  }

  /** The URL has a `?` exactly when some parameter is sent, and starts with the endpoint. */
  lemma UrlHasQueryIffParams(params: seq<(ParamKey, string)>)
    ensures var url := ExperiencesUrl(params);
      && url[..|ExperiencesEndpoint|] == ExperiencesEndpoint
      && ('?' in url <==> params != [])
  {
    var url := ExperiencesUrl(params);
    var query := Serialize(params);
    assert '?' !in ExperiencesEndpoint;
    if params != [] {
      assert query[|params[0].0.Name()|] == '=';
      assert url[|ExperiencesEndpoint|] == '?';
    } else {
      assert url == ExperiencesEndpoint;
    }
  }

  // ---------------------------------------------------------------------------
  // Normalisation of the returned experiences
  // ---------------------------------------------------------------------------

  /** All three list fields are present. */
  predicate IsNormalized(e: Experience) {
    e.highlights.Some? && e.included.Some? && e.not_included.Some?
  }

  /** `list || []`. */
  function OrEmpty(list: Option<seq<string>>): (r: Option<seq<string>>)
    ensures r.Some?
    ensures list.Some? ==> r == list
    ensures list.None? ==> r == Some([])
  {
    Some(list.GetOr([]))
  }

  /** The record `map` builds for each experience: a missing list becomes `[]`. */
  function NormalizeExperience(e: Experience): (r: Experience)
    ensures IsNormalized(r)
    ensures r.(highlights := e.highlights, included := e.included, not_included := e.not_included) == e
    ensures e.highlights.Some? ==> r.highlights == e.highlights
    ensures e.included.Some? ==> r.included == e.included
    ensures e.not_included.Some? ==> r.not_included == e.not_included
    ensures e.highlights.None? ==> r.highlights == Some([])
    ensures e.included.None? ==> r.included == Some([])
    ensures e.not_included.None? ==> r.not_included == Some([])
  {
    e.(highlights := OrEmpty(e.highlights), included := OrEmpty(e.included),
       not_included := OrEmpty(e.not_included))
  }

  /** A record that already has its lists comes through unchanged. */
  lemma NormalizeKeepsNormalized(e: Experience)
    requires IsNormalized(e)
    ensures NormalizeExperience(e) == e
  {
  }

  /** Normalising twice is normalising once. */
  lemma NormalizeIdempotent(e: Experience)
    ensures NormalizeExperience(NormalizeExperience(e)) == NormalizeExperience(e)
  {
    NormalizeKeepsNormalized(NormalizeExperience(e));
  }

  /** `data.map(...)`: one normalised record per record, in the same order. */
  function NormalizeAll(list: seq<Experience>): (r: seq<Experience>)
    ensures |r| == |list|
    ensures forall i :: 0 <= i < |list| ==> r[i] == NormalizeExperience(list[i])
  {
    if list == [] then [] else [NormalizeExperience(list[0])] + NormalizeAll(list[1..])
  }

  /** Normalising an already normalised list changes nothing. */
  lemma NormalizeAllIdempotent(list: seq<Experience>)
    requires forall i :: 0 <= i < |list| ==> IsNormalized(list[i])
    ensures NormalizeAll(list) == list
  {
    var r := NormalizeAll(list);
    forall i | 0 <= i < |list| ensures r[i] == list[i] {
      NormalizeKeepsNormalized(list[i]);
    }
  }

  /** The answer `getAllExperiences` returns: the server's answer with its `data` list
      normalised when there is one, and untouched otherwise. */
  function NormalizeResponse(response: ApiResponse<seq<Experience>>): (r: ApiResponse<seq<Experience>>)
    ensures r.success == response.success && r.message == response.message
    ensures r.data.Some? <==> response.data.Some?
    ensures response.data.Some? ==> r.data.value == NormalizeAll(response.data.value)
  {
    if response.data.Some? then response.(data := Some(NormalizeAll(response.data.value))) else response
  }

  /** An answer without a list is passed through as it came. */
  lemma NormalizeSkipsMissingData(response: ApiResponse<seq<Experience>>)
    requires response.data.None?
    ensures NormalizeResponse(response) == response
  {
  }

  /** Normalising an answer twice is normalising it once. */
  lemma NormalizeResponseIdempotent(response: ApiResponse<seq<Experience>>)
    ensures NormalizeResponse(NormalizeResponse(response)) == NormalizeResponse(response)
  {
    if response.data.Some? {
      var once := NormalizeAll(response.data.value);
      forall i | 0 <= i < |once| ensures IsNormalized(once[i]) { }
      NormalizeAllIdempotent(once);
    }
  }

  /** `getAllExperiences`: the URL requested for the filters, and the normalised answer
      the server's `response` becomes. */
  method GetAllExperiences(filters: ExperienceFilters, response: ApiResponse<seq<Experience>>)
    returns (url: string, result: ApiResponse<seq<Experience>>)
    ensures exists params ::
      && InParamOrder(params)
      && Lookup(params, Search) == TextParam(filters.search)
      && Lookup(params, Category) == TextParam(filters.category)
      && Lookup(params, Location) == TextParam(filters.location)
      && Lookup(params, MinPrice) == PriceParam(filters.minPrice)
      && Lookup(params, MaxPrice) == PriceParam(filters.maxPrice)
      && url == ExperiencesUrl(params)
    ensures result == NormalizeResponse(response)
  {
    var params := BuildQueryParams(filters);
    url := ExperiencesUrl(params);
    result := NormalizeResponse(response);
  }
}
