/** The administrator's statistics page: per-ad counts of views, clicks and likes, the
    overall totals, the ranking by views and its top twenty rows. The table reads are
    parameters: `None` is a read that failed. */
module AnalyticsPage {
  import opened Wrappers
  import opened Seqs
  import opened Sorting

  /** An ad as read for the statistics (`id, name, category`). */
  datatype AdRow = AdRow(id: string, name: string, category: string)

  datatype AdStats = AdStats(id: string, name: string, category: string, views: nat, clicks: nat, likes: nat)

  datatype OverallStats = OverallStats(totalViews: nat, totalClicks: nat, totalVisits: nat, totalAds: nat, totalLikes: nat)

  /** `counts[id] || 0`. */
  function CountOf(counts: map<string, nat>, id: string): nat
  {
    if id in counts then counts[id] else 0
  }

  /** The dictionary `reduce` builds from the `ad_id` column, one row at a time. */
  function Tally(ids: seq<string>): map<string, nat>
  {
    if |ids| == 0 then map[]
    else
      var acc := Tally(ids[..|ids| - 1]);
      var id := ids[|ids| - 1];
      acc[id := CountOf(acc, id) + 1]
  }

  /** The dictionary has a key for each id that occurs, and its count is the number of
      rows with that id; an id with no rows reads as 0. */
  lemma {:induction false} TallyCounts(ids: seq<string>)
    ensures forall x :: x in Tally(ids) <==> x in ids
    ensures forall x :: CountOf(Tally(ids), x) == Count(ids, x)
  {
    if |ids| > 0 {
      var init := ids[..|ids| - 1];
      var last := ids[|ids| - 1];
      TallyCounts(init);
      assert ids == init + [last];
      assert multiset(ids) == multiset(init) + multiset{last};
      forall x
        ensures CountOf(Tally(ids), x) == Count(ids, x)
      {
        assert Count(ids, x) == Count(init, x) + (if x == last then 1 else 0);
      }
    }
  }

  /** `rows.reduce((acc, r) => { acc[r.ad_id] = (acc[r.ad_id] || 0) + 1; return acc }, {})`. */
  method CountBy(ids: seq<string>) returns (acc: map<string, nat>)
    ensures acc == Tally(ids)
    ensures forall x :: x in acc <==> x in ids
    ensures forall x :: CountOf(acc, x) == Count(ids, x)
  {
    acc := map[];
    var i := 0;
    while i < |ids|
      invariant 0 <= i <= |ids|
      invariant acc == Tally(ids[..i])
    {
      var id := ids[i];
      acc := acc[id := CountOf(acc, id) + 1];
      assert ids[..i + 1][..i] == ids[..i];
      i := i + 1;
    }
    assert ids[..|ids|] == ids;
    TallyCounts(ids);
  }

  /** One ad's row of the table. */
  function StatsOf(ad: AdRow, views: map<string, nat>, clicks: map<string, nat>, likes: map<string, nat>): AdStats
  {
    AdStats(ad.id, ad.name, ad.category, CountOf(views, ad.id), CountOf(clicks, ad.id), CountOf(likes, ad.id))
  }

  /** `statsPerAd`: one entry per ad, in order, keeping its id, name and category. */
  function StatsPerAd(ads: seq<AdRow>, views: map<string, nat>, clicks: map<string, nat>, likes: map<string, nat>)
    : (r: seq<AdStats>)
    ensures |r| == |ads|
    ensures forall i :: 0 <= i < |ads| ==>
      r[i].id == ads[i].id && r[i].name == ads[i].name && r[i].category == ads[i].category
    ensures forall i :: 0 <= i < |ads| ==>
      r[i].views == CountOf(views, ads[i].id) && r[i].clicks == CountOf(clicks, ads[i].id)
      && r[i].likes == CountOf(likes, ads[i].id)
  {
    seq(|ads|, i requires 0 <= i < |ads| => StatsOf(ads[i], views, clicks, likes))
  }

  /** `statsPerAd.sort((a, b) => b.views - a.views)`. */
  function ByViews(): AdStats -> real
  {
    (s: AdStats) => -(s.views as real)
  }

  /** After the sort the views never increase down the table, and every entry is kept. */
  lemma SortedByViews(stats: seq<AdStats>)
    ensures forall i, j :: 0 <= i < j < |SortBy(stats, ByViews())| ==>
      SortBy(stats, ByViews())[i].views >= SortBy(stats, ByViews())[j].views
    ensures multiset(SortBy(stats, ByViews())) == multiset(stats)
  {
    SortBySorted(stats, ByViews());
    SortByPermutes(stats, ByViews());
  }

  /** The views of a list of table rows, summed. */
  function TotalOfViews(stats: seq<AdStats>): nat
  {
    if |stats| == 0 then 0 else stats[0].views + TotalOfViews(stats[1..])
  }

  /** Inserting a row adds its views to the sum. */
  lemma {:induction false} InsertKeepsTotal(x: AdStats, s: seq<AdStats>)
    ensures TotalOfViews(Insert(x, s, ByViews())) == x.views + TotalOfViews(s)
  {
    if |s| > 0 && ByViews()(x) > ByViews()(s[0]) {
      InsertKeepsTotal(x, s[1..]);
      var r := Insert(x, s, ByViews());
      assert r[1..] == Insert(x, s[1..], ByViews());
    }
  }

  /** Sorting keeps the sum of views. */
  lemma {:induction false} SortKeepsTotal(s: seq<AdStats>)
    ensures TotalOfViews(SortBy(s, ByViews())) == TotalOfViews(s)
  {
    if |s| > 0 {
      SortKeepsTotal(s[1..]);
      InsertKeepsTotal(s[0], SortBy(s[1..], ByViews()));
    }
  }

  function Ids(ads: seq<AdRow>): (r: seq<string>)
    ensures |r| == |ads| && forall i :: 0 <= i < |ads| ==> r[i] == ads[i].id
  {
    seq(|ads|, i requires 0 <= i < |ads| => ads[i].id)
  }

  /** The number of rows whose id is one of `ids`, counted id by id. */
  function RowsFor(ids: seq<string>, rows: seq<string>): nat
  {
    if |ids| == 0 then 0 else Count(rows, ids[0]) + RowsFor(ids[1..], rows)
  }

  /** One more row adds one to the count of distinct ids exactly when its id is among them. */
  lemma {:induction false} RowsForCons(ids: seq<string>, r: string, rows: seq<string>)
    requires Distinct(ids)
    ensures RowsFor(ids, [r] + rows) == RowsFor(ids, rows) + (if r in ids then 1 else 0)
  {
    if |ids| > 0 {
      RowsForCons(ids[1..], r, rows);
      assert multiset([r] + rows) == multiset{r} + multiset(rows);
      assert ids == [ids[0]] + ids[1..];
      assert r == ids[0] ==> r !in ids[1..];
    }
  }

  /** Distinct ids never account for more rows than there are. */
  lemma {:induction false} RowsForBound(ids: seq<string>, rows: seq<string>)
    requires Distinct(ids)
    ensures RowsFor(ids, rows) <= |rows|
  {
    if |rows| == 0 {
      RowsForEmpty(ids);
    } else {
      assert rows == [rows[0]] + rows[1..];
      RowsForCons(ids, rows[0], rows[1..]);
      RowsForBound(ids, rows[1..]);
    }
  }

  lemma {:induction false} RowsForEmpty(ids: seq<string>)
    ensures RowsFor(ids, []) == 0
  {
    if |ids| > 0 {
      RowsForEmpty(ids[1..]);
    }
  }

  /** The table's views are the rows counted for its ids. */
  lemma {:induction false} TotalIsRowsFor(ads: seq<AdRow>, rows: seq<string>, views: map<string, nat>,
                                          clicks: map<string, nat>, likes: map<string, nat>)
    requires forall x :: CountOf(views, x) == Count(rows, x)
    ensures TotalOfViews(StatsPerAd(ads, views, clicks, likes)) == RowsFor(Ids(ads), rows)
  {
    if |ads| > 0 {
      TotalIsRowsFor(ads[1..], rows, views, clicks, likes);
      assert StatsPerAd(ads, views, clicks, likes)[1..] == StatsPerAd(ads[1..], views, clicks, likes);
      assert Ids(ads)[1..] == Ids(ads[1..]);
    }
  }

  /** With distinct ad ids the table's views add up to at most the number of view rows:
      rows for ads that are not listed are dropped. */
  lemma ViewsWithinTotal(ads: seq<AdRow>, rows: seq<string>, views: map<string, nat>,
                         clicks: map<string, nat>, likes: map<string, nat>)
    requires Distinct(Ids(ads))
    requires forall x :: CountOf(views, x) == Count(rows, x)
    ensures TotalOfViews(SortBy(StatsPerAd(ads, views, clicks, likes), ByViews())) <= |rows|
  {
    SortKeepsTotal(StatsPerAd(ads, views, clicks, likes));
    TotalIsRowsFor(ads, rows, views, clicks, likes);
    RowsForBound(Ids(ads), rows);
  }

  /** `adStats.slice(0, 20)`: the rows the table shows. */
  function TopRows(stats: seq<AdStats>): (r: seq<AdStats>)
    ensures |r| == if |stats| < 20 then |stats| else 20
    ensures r <= stats
  {
    Take(stats, 20)
  }

  class Analytics {
    var adStats: seq<AdStats>
    var overall: OverallStats
    var loading: bool
    var failed: bool

    constructor ()
      ensures adStats == [] && overall == OverallStats(0, 0, 0, 0, 0) && loading && !failed
    {
      adStats := [];
      overall := OverallStats(0, 0, 0, 0, 0);
      loading := true;
      failed := false;
    }

    /** `fetchAnalytics`. Each read may fail; the first failure shows an error and leaves
        the table and the totals as they were. Otherwise the counts are built, the table
        is sorted by views and the totals are the row counts. */
    method FetchAnalytics(ads: Option<seq<AdRow>>, views: Option<seq<string>>, clicks: Option<seq<string>>,
                          visits: Option<Option<nat>>, likes: Option<seq<string>>)
      modifies this
      ensures !loading
      ensures (ads.None? || views.None? || clicks.None? || visits.None? || likes.None?) ==>
        adStats == old(adStats) && overall == old(overall) && failed
      ensures ads.Some? && views.Some? && clicks.Some? && visits.Some? && likes.Some? ==>
        && !failed
        && adStats == SortBy(StatsPerAd(ads.value, Tally(views.value), Tally(clicks.value), Tally(likes.value)), ByViews())
        && overall == OverallStats(|views.value|, |clicks.value|, visits.value.GetOr(0), |ads.value|, |likes.value|)
    {
      if ads.None? || views.None? || clicks.None? || visits.None? || likes.None? {
        failed := true;
        loading := false;
        return;
      }
      var viewCounts := CountBy(views.value);
      var clickCounts := CountBy(clicks.value);
      var likeCounts := CountBy(likes.value);
      var statsPerAd := StatsPerAd(ads.value, viewCounts, clickCounts, likeCounts);
      statsPerAd := SortBy(statsPerAd, ByViews());
      adStats := statsPerAd;
      overall := OverallStats(|views.value|, |clicks.value|, visits.value.GetOr(0), |ads.value|, |likes.value|);
      failed := false;
      loading := false;
    }
  }
}
