/** The filtered listing reached from a badge: one tag, province, age group or category
    from the query string, its header, and the filtered and sorted list. */
module FilteredAdsPage {
  import opened Wrappers
  import opened Seqs
  import opened Sorting
  import opened Types
  import opened Constants
  import opened Listing

  /** The filters the page reads from its query string; all default to "" except the
      sort, which defaults to relevance. */
  datatype BadgeFilters = BadgeFilters(
    query: string,
    sort: string,
    tag: string,
    province: string,
    age: string,
    category: string,
    adType: string)

  function ReadFilters(params: map<string, string>): (f: BadgeFilters)
    ensures f.sort != ""
    ensures f.tag == Param(params, "tag") && f.province == Param(params, "province")
    ensures f.age == Param(params, "age") && f.category == Param(params, "category")
  {
    BadgeFilters(
      Param(params, "q"),
      ParamOr(params, "sort", "relevance"),
      Param(params, "tag"),
      Param(params, "province"),
      Param(params, "age"),
      Param(params, "category"),
      Param(params, "type"))
  }

  /** The type filter is skipped for "" and for `all`. */
  predicate TypeOk(f: BadgeFilters, ad: RankedAd)
  {
    f.adType != "" && f.adType != "all" ==> ad.adType == f.adType
  }

  predicate TagOk(f: BadgeFilters, ad: RankedAd)
  {
    f.tag != "" ==> f.tag in ad.tags
  }

  predicate ProvinceOk(f: BadgeFilters, ad: RankedAd)
  {
    f.province != "" ==> f.province in ad.provinces
  }

  predicate AgeOk(f: BadgeFilters, ad: RankedAd)
  {
    f.age != "" ==> "all" in ad.ageGroups || f.age in ad.ageGroups
  }

  predicate CategoryOk(f: BadgeFilters, ad: RankedAd)
  {
    f.category != "" ==> ad.category == f.category
  }

  predicate QueryOk(f: BadgeFilters, ad: RankedAd)
  {
    f.query != "" ==> MatchesQuery(ad, f.query)
  }

  /** An ad is listed when every filter that is set holds. */
  predicate Keeps(f: BadgeFilters, ad: RankedAd)
  {
    TypeOk(f, ad) && TagOk(f, ad) && ProvinceOk(f, ad) && AgeOk(f, ad) && CategoryOk(f, ad) && QueryOk(f, ad)
  }

  function Kept(f: BadgeFilters): RankedAd -> bool
  {
    a => Keeps(f, a)
  }

  /** The filtering half of `filteredAndSortedAds`, one filter at a time, in the page's
      order: type, tag, province, age group, category, search text. */
  method ApplyFilters(ads: seq<RankedAd>, f: BadgeFilters) returns (result: seq<RankedAd>)
    ensures result == Filter(ads, Kept(f))
  {
    result := ads;
    ghost var p0 := (a: RankedAd) => true;
    FilterAll(ads, p0);

    var byType := (ad: RankedAd) => ad.adType == f.adType;
    ghost var p1 := (a: RankedAd) => TypeOk(f, a);
    result := FilterIf(result, byType, f.adType != "" && f.adType != "all", ads, p0, p1);

    var byTag := (ad: RankedAd) => f.tag in ad.tags;
    ghost var p2 := (a: RankedAd) => TypeOk(f, a) && TagOk(f, a);
    result := FilterIf(result, byTag, f.tag != "", ads, p1, p2);

    var byProvince := (ad: RankedAd) => f.province in ad.provinces;
    ghost var p3 := (a: RankedAd) => TypeOk(f, a) && TagOk(f, a) && ProvinceOk(f, a);
    result := FilterIf(result, byProvince, f.province != "", ads, p2, p3);

    var byAge := (ad: RankedAd) => "all" in ad.ageGroups || f.age in ad.ageGroups;
    ghost var p4 := (a: RankedAd) => TypeOk(f, a) && TagOk(f, a) && ProvinceOk(f, a) && AgeOk(f, a);
    result := FilterIf(result, byAge, f.age != "", ads, p3, p4);

    var byCategory := (ad: RankedAd) => ad.category == f.category;
    ghost var p5 := (a: RankedAd) =>
      TypeOk(f, a) && TagOk(f, a) && ProvinceOk(f, a) && AgeOk(f, a) && CategoryOk(f, a);
    result := FilterIf(result, byCategory, f.category != "", ads, p4, p5);

    var byQuery := (ad: RankedAd) => MatchesQuery(ad, f.query);
    result := FilterIf(result, byQuery, f.query != "", ads, p5, Kept(f));
  }

  /** `filteredAndSortedAds`: exactly the ads that pass every filter, each as often as in
      `ads`, in the order the sort option promises. */
  method FilteredAndSortedAds(ads: seq<RankedAd>, f: BadgeFilters, ts: string -> int)
    returns (result: seq<RankedAd>)
    ensures multiset(result) == multiset(Filter(ads, Kept(f)))
    ensures forall ad :: ad in result <==> ad in ads && Keeps(f, ad)
    ensures OrderedBy(f.sort, ts, result)
  {
    var filtered := ApplyFilters(ads, f);
    result := SortBy(filtered, SortKey(f.sort, ts));
    SortOrder(filtered, f.sort, ts);
    SameElements(result, filtered);
  }

  /** Which filter the header describes. */
  datatype FilterKind = TagFilter | ProvinceFilter | AgeFilter | CategoryFilter

  /** The header's type caption. */
  function KindCaption(k: FilterKind): string
  {
    match k
    case TagFilter => "تگ"
    case ProvinceFilter => "استان"
    case AgeFilter => "گروه سنی"
    case CategoryFilter => "دسته‌بندی"
  }

  /** The header: what is filtered and its caption. Icons are not modelled. */
  datatype FilterInfo = FilterInfo(kind: FilterKind, caption: string)

  /** `entry?.label || value`: the table's caption when the value is found and the
      caption is non-empty, the raw value otherwise. */
  function CaptionOr(table: seq<Entry>, value: string): string
  {
    var e := Find(table, value);
    if e.Some? && e.value.caption != "" then e.value.caption else value
  }

  /** `getFilterInfo`: the first filter set, in the order tag, province, age group,
      category, or nothing. The tag caption is `found ? found.label : value`. */
  function GetFilterInfo(f: BadgeFilters): (r: Option<FilterInfo>)
    ensures r.None? <==> f.tag == "" && f.province == "" && f.age == "" && f.category == ""
  {
    if f.tag != "" then
      var t := Find(TAGS, f.tag);
      Some(FilterInfo(TagFilter, if t.Some? then t.value.caption else f.tag))
    else if f.province != "" then Some(FilterInfo(ProvinceFilter, CaptionOr(PROVINCES, f.province)))
    else if f.age != "" then Some(FilterInfo(AgeFilter, CaptionOr(AGE_GROUPS, f.age)))
    else if f.category != "" then Some(FilterInfo(CategoryFilter, CaptionOr(CATEGORIES, f.category)))
    else None
  }

  /** The header follows the priority tag > province > age group > category, and names
      a value the table lacks by that value itself. */
  lemma FilterInfoPriority(f: BadgeFilters)
    ensures f.tag != "" ==> GetFilterInfo(f).value.kind == TagFilter
    ensures f.tag == "" && f.province != "" ==> GetFilterInfo(f).value.kind == ProvinceFilter
    ensures f.tag == "" && f.province == "" && f.age != "" ==> GetFilterInfo(f).value.kind == AgeFilter
    ensures f.tag == "" && f.province == "" && f.age == "" && f.category != "" ==>
      GetFilterInfo(f).value.kind == CategoryFilter
    ensures f.tag != "" && f.tag !in Values(TAGS) ==> GetFilterInfo(f).value.caption == f.tag
    ensures f.tag == "" && f.province != "" && f.province !in Values(PROVINCES) ==>
      GetFilterInfo(f).value.caption == f.province
    ensures f.tag == "" && f.province == "" && f.age != "" && f.age !in Values(AGE_GROUPS) ==>
      GetFilterInfo(f).value.caption == f.age
    ensures f.tag == "" && f.province == "" && f.age == "" && f.category != "" && f.category !in Values(CATEGORIES) ==>
      GetFilterInfo(f).value.caption == f.category
  {
  }

  /** In a table without repeated values or empty captions, a value the table has is
      named by its own entry's caption. */
  lemma CaptionOfKnown(table: seq<Entry>, e: Entry)
    requires DistinctValues(table) && LabelsPresent(table) && e in table
    ensures CaptionOr(table, e.value) == e.caption
    ensures Find(table, e.value) == Some(e)
  {
    var r := Find(table, e.value);
    var i :| 0 <= i < |table| && table[i] == e;
    assert Values(table)[i] == e.value;
    var j :| 0 <= j < |table| && table[j] == r.value;
    assert Values(table)[i] == Values(table)[j];
  }

  /** A value the constant table has is named in the header by its caption. */
  lemma FilterInfoKnownCaption(f: BadgeFilters, e: Entry)
    ensures f.tag != "" && e in TAGS && e.value == f.tag ==> GetFilterInfo(f).value.caption == e.caption
    ensures f.tag == "" && f.province != "" && e in PROVINCES && e.value == f.province ==>
      GetFilterInfo(f).value.caption == e.caption
    ensures f.tag == "" && f.province == "" && f.age != "" && e in AGE_GROUPS && e.value == f.age ==>
      GetFilterInfo(f).value.caption == e.caption
    ensures (f.tag == "" && f.province == "" && f.age == "" && f.category != "" && e in CATEGORIES &&
             e.value == f.category) ==> GetFilterInfo(f).value.caption == e.caption
  {
    if f.tag != "" {
      if e in TAGS && e.value == f.tag {
        TagsShape();
        CaptionOfKnown(TAGS, e);
      }
    } else if f.province != "" {
      if e in PROVINCES && e.value == f.province {
        ProvincesShape();
        CaptionOfKnown(PROVINCES, e);
      }
    } else if f.age != "" {
      if e in AGE_GROUPS && e.value == f.age {
        AgeGroupsShape();
        CaptionOfKnown(AGE_GROUPS, e);
      }
    } else if e in CATEGORIES && e.value == f.category {
      CategoriesShape();
      CaptionOfKnown(CATEGORIES, e);
    }
  }

  /** The page's query string. */
  class BadgeState {
    var searchParams: map<string, string>

    constructor (params: map<string, string>)
      ensures searchParams == params
    {
      searchParams := params;
    }

    /** `updateFilter(key, value)`: a non-empty value is set, an empty one deletes the
        key; the other keys keep their values. */
    method UpdateFilter(key: string, value: string)
      modifies this
      ensures searchParams == WithFilter(old(searchParams), key, One(value))
    {
      var newParams := searchParams;
      if value != "" {
        newParams := newParams[key := value];
      } else {
        newParams := newParams - {key};
      }
      searchParams := newParams;
    }
  }
}
