/** The moderators' list of every ad: the search box with the status and category
    selects, and deletion. The database calls are parameters. */
module ManageAds {
  import opened Wrappers
  import opened Text
  import opened Seqs

  /** A row of the `ads` table as the page reads it. */
  datatype Ad = Ad(
    id: string,
    name: string,
    text: string,
    category: string,
    telegramLink: string,
    members: int,
    status: string,
    isApproved: bool,
    createdAt: string,
    userId: string,
    adType: string)

  /** `matchesSearch && matchesStatus && matchesCategory`, the search being a
      case-insensitive substring of the name or the text. */
  predicate Matches(ad: Ad, query: string, statusFilter: string, categoryFilter: string)
  {
    && (Contains(Lower(ad.name), Lower(query)) || Contains(Lower(ad.text), Lower(query)))
    && (statusFilter == "all" || ad.status == statusFilter)
    && (categoryFilter == "all" || ad.category == categoryFilter)
  }

  /** `filteredAds`: the ads that match, in the list's order. */
  function FilteredAds(ads: seq<Ad>, query: string, statusFilter: string, categoryFilter: string): (r: seq<Ad>)
    ensures forall ad :: ad in r <==> ad in ads && Matches(ad, query, statusFilter, categoryFilter)
    ensures IsSubsequence(r, ads)
  {
    var keep := (ad: Ad) => Matches(ad, query, statusFilter, categoryFilter);
    FilterIsSubsequence(ads, keep);
    Filter(ads, keep)
  }

  /** The page's initial filters, an empty search with both selects on `all`, list every
      ad. */
  lemma InitialFiltersKeepAll(ads: seq<Ad>)
    ensures FilteredAds(ads, "", "all", "all") == ads
  {
    var keep := (ad: Ad) => Matches(ad, "", "all", "all");
    forall i | 0 <= i < |ads|
      ensures keep(ads[i])
    {
      ContainsAt(Lower(ads[i].name), Lower(""), 0);
    }
    FilterAll(ads, keep);
  }

  /** A status or category select other than `all` shows only ads with that value. */
  lemma SelectsNarrow(ads: seq<Ad>, query: string, statusFilter: string, categoryFilter: string)
    ensures statusFilter != "all" ==>
      forall ad :: ad in FilteredAds(ads, query, statusFilter, categoryFilter) ==> ad.status == statusFilter
    ensures categoryFilter != "all" ==>
      forall ad :: ad in FilteredAds(ads, query, statusFilter, categoryFilter) ==> ad.category == categoryFilter
  {
  }

  function OtherId(adId: string): Ad -> bool
  {
    (ad: Ad) => ad.id != adId
  }

  /** `ads.filter(ad => ad.id !== adId)`: exactly the ads with that id go, the others
      stay in order. */
  function WithoutId(ads: seq<Ad>, adId: string): (r: seq<Ad>)
    ensures forall ad :: ad in r <==> ad in ads && ad.id != adId
    ensures IsSubsequence(r, ads)
  {
    FilterIsSubsequence(ads, OtherId(adId));
    Filter(ads, OtherId(adId))
  }

  /** Removing an id twice removes it once. */
  lemma WithoutIdTwice(ads: seq<Ad>, adId: string)
    ensures WithoutId(WithoutId(ads, adId), adId) == WithoutId(ads, adId)
  {
    FilterAll(WithoutId(ads, adId), OtherId(adId));
  }

  /** Deleting from the list and then filtering shows what filtering and then deleting
      shows: the deleted ad simply disappears from the current view. */
  lemma DeleteThenFilter(ads: seq<Ad>, adId: string, query: string, statusFilter: string, categoryFilter: string)
    ensures FilteredAds(WithoutId(ads, adId), query, statusFilter, categoryFilter)
         == WithoutId(FilteredAds(ads, query, statusFilter, categoryFilter), adId)
  {
    FilterCommute(ads, OtherId(adId), (ad: Ad) => Matches(ad, query, statusFilter, categoryFilter));
  }

  class Moderation {
    var ads: seq<Ad>
    var loading: bool
    var processing: Option<string>
    /** Whether the last call showed the error toast. */
    var failed: bool

    /** The page opens loading, with no ads. */
    constructor ()
      ensures ads == [] && loading && processing.None? && !failed
    {
      ads := [];
      loading := true;
      processing := None;
      failed := false;
    }

    /** `fetchAds`, with `reply` the read (`None` an error, `Some(None)` null data): the
        rows read, or none for null data; an error keeps the list and shows the toast.
        Either way loading ends. */
    method FetchAds(reply: Option<Option<seq<Ad>>>)
      modifies this
      ensures !loading && processing == old(processing)
      ensures reply.None? ==> ads == old(ads) && failed
      ensures reply.Some? ==> ads == reply.value.GetOr([]) && !failed
    {
      if reply.None? {
        failed := true;
      } else {
        ads := reply.value.GetOr([]);
        failed := false;
      }
      loading := false;
    }

    /** `deleteAd`: while the call runs the ad is processing; a successful delete drops
        every ad with that id from the list, a failed one leaves it as it was. */
    method DeleteAd(adId: string, deleteOk: bool)
      modifies this
      ensures processing.None?
      ensures deleteOk ==> ads == WithoutId(old(ads), adId) && !failed
      ensures !deleteOk ==> ads == old(ads) && failed
    {
      processing := Some(adId);
      if deleteOk {
        ads := Filter(ads, OtherId(adId));
        failed := false;
      } else {
        failed := true;
      }
      processing := None;
    }
  }
}
