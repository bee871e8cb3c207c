/** The home page's listing: the filters read from the query string, the filtered and
    sorted list, and the parameter updates of its filter controls. */
module IndexPage {
  import opened Text
  import opened Seqs
  import opened Sorting
  import opened Types
  import opened Listing

  /** The filters the page reads from its query string. */
  datatype IndexFilters = IndexFilters(
    category: string,
    query: string,
    sort: string,
    adType: string,
    tags: seq<string>,
    provinces: seq<string>,
    ageGroups: seq<string>)

  /** The page's reading of its parameters; sort defaults to relevance, type to `all`,
      and the badge lists are comma-separated. */
  function ReadFilters(params: map<string, string>): (f: IndexFilters)
    ensures f.sort != "" && f.adType != ""
    ensures forall i :: 0 <= i < |f.tags| ==> f.tags[i] != ""
  {
    IndexFilters(
      Param(params, "category"),
      Param(params, "q"),
      ParamOr(params, "sort", "relevance"),
      ParamOr(params, "type", "all"),
      ParamList(params, "tags"),
      ParamList(params, "provinces"),
      ParamList(params, "ageGroups"))
  }

  predicate TypeOk(f: IndexFilters, ad: RankedAd)
  {
    f.adType != "all" ==> ad.adType == f.adType
  }

  predicate CategoryOk(f: IndexFilters, ad: RankedAd)
  {
    f.category != "" ==> ad.category == f.category
  }

  predicate QueryOk(f: IndexFilters, ad: RankedAd)
  {
    f.query != "" ==> MatchesQuery(ad, f.query)
  }

  predicate TagsOk(f: IndexFilters, ad: RankedAd)
  {
    |f.tags| > 0 ==> Shares(ad.tags, f.tags)
  }

  predicate ProvincesOk(f: IndexFilters, ad: RankedAd)
  {
    |f.provinces| > 0 ==> Shares(ad.provinces, f.provinces)
  }

  /** Ads for every age stay whatever age groups are selected. */
  predicate AgeOk(f: IndexFilters, ad: RankedAd)
  {
    |f.ageGroups| > 0 ==> "all" in ad.ageGroups || Shares(ad.ageGroups, f.ageGroups)
  }

  /** An ad is listed when every active filter holds. */
  predicate Keeps(f: IndexFilters, ad: RankedAd)
  {
    TypeOk(f, ad) && CategoryOk(f, ad) && QueryOk(f, ad) && TagsOk(f, ad) && ProvincesOk(f, ad) && AgeOk(f, ad)
  }

  /** `Keeps(f, _)` as a value to filter with. */
  function Kept(f: IndexFilters): RankedAd -> bool
  {
    a => Keeps(f, a)
  }

  /** The filtering half of `filteredAndSortedAds`: `result` is narrowed by each active
      filter in turn, which leaves the ads that pass them all, in their order. */
  method ApplyFilters(ads: seq<RankedAd>, f: IndexFilters) returns (result: seq<RankedAd>)
    ensures result == Filter(ads, Kept(f))
  {
    result := ads;
    ghost var p0 := (a: RankedAd) => true;
    FilterAll(ads, p0);

    var byType := (ad: RankedAd) => ad.adType == f.adType;
    ghost var p1 := (a: RankedAd) => TypeOk(f, a);
    result := FilterIf(result, byType, f.adType != "all", ads, p0, p1);

    var byCategory := (ad: RankedAd) => ad.category == f.category;
    ghost var p2 := (a: RankedAd) => TypeOk(f, a) && CategoryOk(f, a);
    result := FilterIf(result, byCategory, f.category != "", ads, p1, p2);

    var byQuery := (ad: RankedAd) => MatchesQuery(ad, f.query);
    ghost var p3 := (a: RankedAd) => TypeOk(f, a) && CategoryOk(f, a) && QueryOk(f, a);
    result := FilterIf(result, byQuery, f.query != "", ads, p2, p3);

    var byTags := (ad: RankedAd) => Shares(ad.tags, f.tags);
    ghost var p4 := (a: RankedAd) => TypeOk(f, a) && CategoryOk(f, a) && QueryOk(f, a) && TagsOk(f, a);
    result := FilterIf(result, byTags, |f.tags| > 0, ads, p3, p4);

    var byProvinces := (ad: RankedAd) => Shares(ad.provinces, f.provinces);
    ghost var p5 := (a: RankedAd) =>
      TypeOk(f, a) && CategoryOk(f, a) && QueryOk(f, a) && TagsOk(f, a) && ProvincesOk(f, a);
    result := FilterIf(result, byProvinces, |f.provinces| > 0, ads, p4, p5);

    var byAge := (ad: RankedAd) => "all" in ad.ageGroups || Shares(ad.ageGroups, f.ageGroups);
    result := FilterIf(result, byAge, |f.ageGroups| > 0, ads, p5, Kept(f));
  }

  /** `filteredAndSortedAds`: the filtered ads, sorted by the chosen option. The result
      holds exactly the ads that pass every filter, each as often as in `ads`, in the
      order the sort option promises. */
  method FilteredAndSortedAds(ads: seq<RankedAd>, f: IndexFilters, ts: string -> int)
    returns (result: seq<RankedAd>)
    ensures multiset(result) == multiset(Filter(ads, Kept(f)))
    ensures forall ad :: ad in result <==> ad in ads && Keeps(f, ad)
    ensures OrderedBy(f.sort, ts, result)
  {
    var filtered := ApplyFilters(ads, f);
    result := SortBy(filtered, SortKey(f.sort, ts));
    SortOrder(filtered, f.sort, ts);
    SameElements(result, filtered);
  }

  /** `hasActiveFilters`: a category or a badge list is selected. */
  predicate HasActiveFilters(f: IndexFilters)
  {
    f.category != "" || |f.tags| > 0 || |f.provinces| > 0 || |f.ageGroups| > 0
  }

  /** The search text and the type toggle are not counted as active filters: without
      one, only they can hide an ad. */
  lemma InactiveKeeps(f: IndexFilters, ad: RankedAd)
    ensures !HasActiveFilters(f) ==> (Keeps(f, ad) <==> TypeOk(f, ad) && QueryOk(f, ad))
    ensures HasActiveFilters(f) <==> f.category != "" || f.tags != [] || f.provinces != [] || f.ageGroups != []
  {
  }

  /** The page's query string. */
  class IndexState {
    var searchParams: map<string, string>

    constructor (params: map<string, string>)
      ensures searchParams == params
    {
      searchParams := params;
    }

    /** The filters the page currently shows. */
    function Filters(): IndexFilters
      reads this
    {
      ReadFilters(searchParams)
    }

    /** `updateFilter(key, value)`: a copy of the parameters is changed and stored. */
    method UpdateFilter(key: string, value: FilterValue)
      modifies this
      ensures searchParams == WithFilter(old(searchParams), key, value)
    {
      var newParams := searchParams;
      match value {
        case Many(xs) =>
          if |xs| > 0 {
            newParams := newParams[key := JoinWith(xs, ",")];
          } else {
            newParams := newParams - {key};
          }
        case One(s) =>
          if s != "" {
            newParams := newParams[key := s];
          } else {
            newParams := newParams - {key};
          }
      }
      searchParams := newParams;
    }

    /** `clearFilter(key)`: only that key goes. */
    method ClearFilter(key: string)
      modifies this
      ensures searchParams == old(searchParams) - {key}
    {
      var newParams := searchParams;
      newParams := newParams - {key};
      searchParams := newParams;
    }

    /** `clearAllFilters`: every parameter goes, so no filter is active. */
    method ClearAllFilters()
      modifies this
      ensures searchParams == map[]
      ensures !HasActiveFilters(Filters()) && Filters().adType == "all" && Filters().query == ""
    {
      searchParams := map[];
    }
  }
}
