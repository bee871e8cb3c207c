/** What the two listing pages share: reading and writing the query-string filters,
    the search-text match and the sort orders of the sort menu. */
module Listing {
  import opened Text
  import opened Seqs
  import opened Sorting
  import opened Types

  /** `searchParams.get(key) || ""`: an absent key and an empty value both read as "". */
  function Param(params: map<string, string>, key: string): string
  {
    if key in params then params[key] else ""
  }

  /** `searchParams.get(key) || d`. */
  function ParamOr(params: map<string, string>, key: string, d: string): (r: string)
    ensures Param(params, key) != "" ==> r == Param(params, key)
    ensures Param(params, key) == "" ==> r == d
  {
    var v := Param(params, key);
    if v != "" then v else d
  }

  /** `searchParams.get(key)?.split(",").filter(Boolean) || []`. */
  function ParamList(params: map<string, string>, key: string): (r: seq<string>)
    ensures forall i :: 0 <= i < |r| ==> r[i] != "" && ',' !in r[i]
    ensures key !in params ==> r == []
  {
    if key in params then Filter(SplitOn(params[key], ','), s => s != "") else []
  }

  /** The value an `updateFilter` call is given: one string or a list of them. */
  datatype FilterValue = One(s: string) | Many(xs: seq<string>)

  /** The parameters after `updateFilter(key, value)` on a copy: a non-empty list is
      stored comma-joined, a non-empty string as it is, and an empty one of either kind
      deletes the key. */
  function WithFilter(params: map<string, string>, key: string, value: FilterValue): (r: map<string, string>)
    ensures forall k :: k != key ==> (k in r <==> k in params)
    ensures forall k :: k != key && k in r ==> r[k] == params[k]
  {
    match value
    case Many(xs) => if |xs| > 0 then params[key := JoinWith(xs, ",")] else params - {key}
    case One(s) => if s != "" then params[key := s] else params - {key}
  }

  /** A list written by `updateFilter` reads back as that list, provided no element is
      empty or holds a comma; an empty list deletes the key. */
  lemma ListRoundTrip(params: map<string, string>, key: string, xs: seq<string>)
    requires forall i :: 0 <= i < |xs| ==> xs[i] != "" && ',' !in xs[i]
    ensures ParamList(WithFilter(params, key, Many(xs)), key) == xs
    ensures |xs| == 0 <==> key !in WithFilter(params, key, Many(xs))
  {
    if |xs| > 0 {
      assert "," == [','];
      SplitJoin(xs, ',');
      FilterAll(xs, s => s != "");
    }
  }

  /** A string written by `updateFilter` reads back as that string; an empty one deletes
      the key. */
  lemma OneRoundTrip(params: map<string, string>, key: string, s: string)
    ensures Param(WithFilter(params, key, One(s)), key) == s
    ensures s == "" <==> key !in WithFilter(params, key, One(s))
  {
  }

  /** `name.toLowerCase().includes(q) || text.toLowerCase().includes(q)` with `q` the
      lower-cased query. */
  predicate MatchesQuery(ad: RankedAd, query: string)
  {
    var q := Lower(query);
    Contains(Lower(ad.name), q) || Contains(Lower(ad.text), q)
  }

  /** The search is case-insensitive: queries that agree up to case match alike, and an
      ad matches a query that is a prefix of its name. */
  lemma MatchesQueryCase(ad: RankedAd, q1: string, q2: string)
    requires EqualsIgnoreCase(q1, q2)
    ensures MatchesQuery(ad, q1) <==> MatchesQuery(ad, q2)
    ensures q1 <= ad.name ==> MatchesQuery(ad, q1)
  {
    if q1 <= ad.name {
      assert Lower(q1) <= Lower(ad.name);
      ContainsAt(Lower(ad.name), Lower(q1), 0);
    }
  }

  /** `xs.some(x => ys.includes(x))`. */
  predicate Shares(xs: seq<string>, ys: seq<string>)
  {
    exists x :: x in xs && x in ys
  }

  /** The key `result.sort` orders by, ascending; a comparator `b - a` is ascending by
      the negated value. `ts` is `new Date(createdAt).getTime()`. */
  function SortKey(sort: string, ts: string -> int): RankedAd -> real
  {
    if sort == "most-members" then (a: RankedAd) => -(a.members as real)
    else if sort == "least-members" then (a: RankedAd) => a.members as real
    else if sort == "newest" then (a: RankedAd) => -(ts(a.createdAt) as real)
    else if sort == "oldest" then (a: RankedAd) => ts(a.createdAt) as real
    else (a: RankedAd) => -a.relevanceScore
  }

  /** The order each option of the sort menu promises; any other value sorts by
      relevance. */
  predicate OrderedBy(sort: string, ts: string -> int, r: seq<RankedAd>)
  {
    && (sort == "most-members" ==> forall i, j :: 0 <= i < j < |r| ==> r[i].members >= r[j].members)
    && (sort == "least-members" ==> forall i, j :: 0 <= i < j < |r| ==> r[i].members <= r[j].members)
    && (sort == "newest" ==> forall i, j :: 0 <= i < j < |r| ==> ts(r[i].createdAt) >= ts(r[j].createdAt))
    && (sort == "oldest" ==> forall i, j :: 0 <= i < j < |r| ==> ts(r[i].createdAt) <= ts(r[j].createdAt))
    && (sort != "most-members" && sort != "least-members" && sort != "newest" && sort != "oldest" ==>
          forall i, j :: 0 <= i < j < |r| ==> r[i].relevanceScore >= r[j].relevanceScore)
  }

  /** Sorting by the option's key puts the ads in the promised order and keeps them all. */
  lemma SortOrder(s: seq<RankedAd>, sort: string, ts: string -> int)
    ensures OrderedBy(sort, ts, SortBy(s, SortKey(sort, ts)))
    ensures multiset(SortBy(s, SortKey(sort, ts))) == multiset(s)
  {
    SortBySorted(s, SortKey(sort, ts));
    SortByPermutes(s, SortKey(sort, ts));
  }
}
