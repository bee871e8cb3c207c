/** The administrator's review page for scraped candidates: the list the scraper
    returned, stamped with the page's defaults, edited entry by entry and saved one at a
    time or as a selection. Calls to the scraper and to the database are parameters. */
module ScraperPage {
  import opened Wrappers
  import opened Text
  import opened Seqs
  import opened Constants
  import ScrapeTelegram

  /** A candidate under review. */
  datatype ReviewAd = ReviewAd(
    name: string,
    text: string,
    telegramLink: string,
    category: string,
    adType: string,
    members: Option<nat>,
    imageUrl: Option<string>,
    selected: bool,
    cities: seq<string>)

  /** The row inserted for a candidate. */
  datatype InsertRow = InsertRow(
    userId: Option<string>,
    name: string,
    text: string,
    telegramLink: string,
    category: string,
    adType: string,
    members: int,
    imageUrl: Option<string>,
    cities: seq<string>,
    isApproved: bool,
    status: string)

  /** The messages the page shows. */
  datatype Notice =
    | MissingUrl
    | Found(count: nat)
    | ScrapeFailed
    | Saved(name: string)
    | SaveFailed
    | NoneSelected
    | SavedMany(count: nat)
    | SaveManyFailed

  /** What the page renders around its tool. */
  datatype View = Spinner | Restricted | Tool

  /** The page waits for the session and the role, and only an administrator gets the
      tool. */
  function PageView(authLoading: bool, roleLoading: bool, hasUser: bool, isAdmin: bool): (v: View)
    ensures v == Tool <==> !authLoading && !roleLoading && hasUser && isAdmin
    ensures v == Spinner <==> authLoading || roleLoading
  {
    if authLoading || roleLoading then Spinner
    else if !hasUser || !isAdmin then Restricted
    else Tool
  }

  /** The spread `{ ...ad, category, adType, selected: false, cities }` of one scraped ad. */
  function Stamp(ad: ScrapeTelegram.ScrapedAd, category: string, adType: string, cities: seq<string>): ReviewAd
  {
    ReviewAd(ad.name, ad.text, ad.telegramLink, category, adType, ad.members, ad.imageUrl, false, cities)
  }

  /** `data.ads.map(...)`: every scraped ad stamped with the defaults, in order. */
  function StampAll(ads: seq<ScrapeTelegram.ScrapedAd>, category: string, adType: string, cities: seq<string>)
    : (r: seq<ReviewAd>)
    ensures |r| == |ads|
    ensures forall i :: 0 <= i < |ads| ==>
      && r[i].category == category && r[i].adType == adType && !r[i].selected && r[i].cities == cities
      && r[i].name == ads[i].name && r[i].text == ads[i].text && r[i].telegramLink == ads[i].telegramLink
      && r[i].members == ads[i].members && r[i].imageUrl == ads[i].imageUrl
  {
    seq(|ads|, i requires 0 <= i < |ads| => Stamp(ads[i], category, adType, cities))
  }

  /** A fresh candidate is offered for all 31 provinces, none twice. */
  lemma StampedForAllProvinces(ads: seq<ScrapeTelegram.ScrapedAd>, category: string, adType: string)
    ensures forall i :: 0 <= i < |ads| ==>
      var c := StampAll(ads, category, adType, Values(PROVINCES))[i].cities;
      |c| == 31 && Distinct(c) && forall e :: e in PROVINCES ==> e.value in c
  {
    ProvincesShape();
    forall e | e in PROVINCES
      ensures e.value in Values(PROVINCES)
    {
      var k :| 0 <= k < |PROVINCES| && PROVINCES[k] == e;
      assert Values(PROVINCES)[k] == e.value;
    }
  }

  /** `members || 0`, `imageUrl || null`, `cities || []`, approved and active. */
  function RowOf(ad: ReviewAd, userId: Option<string>): (r: InsertRow)
    ensures r.isApproved && r.status == "active"
    ensures r.members == ad.members.GetOr(0)
    ensures r.imageUrl.None? <==> ad.imageUrl.None? || ad.imageUrl.value == ""
    ensures r.imageUrl.Some? ==> r.imageUrl == ad.imageUrl
    ensures r.name == ad.name && r.text == ad.text && r.telegramLink == ad.telegramLink
    ensures r.category == ad.category && r.adType == ad.adType && r.cities == ad.cities
  {
    InsertRow(userId, ad.name, ad.text, ad.telegramLink, ad.category, ad.adType,
      if ad.members.Some? && ad.members.value != 0 then ad.members.value else 0,
      if ad.imageUrl.Some? && ad.imageUrl.value != "" then ad.imageUrl else None,
      ad.cities, true, "active")
  }

  /** One row per ad, in order. */
  function RowsOf(ads: seq<ReviewAd>, userId: Option<string>): (r: seq<InsertRow>)
    ensures |r| == |ads|
    ensures forall i :: 0 <= i < |ads| ==> r[i] == RowOf(ads[i], userId)
  {
    seq(|ads|, i requires 0 <= i < |ads| => RowOf(ads[i], userId))
  }

  /** `prev.map((ad, i) => i === index ? { ...ad, selected: !ad.selected } : ad)`. */
  function ToggledAt(s: seq<ReviewAd>, index: int): (r: seq<ReviewAd>)
    ensures |r| == |s|
    ensures forall i :: 0 <= i < |s| && i != index ==> r[i] == s[i]
    ensures 0 <= index < |s| ==> r[index] == s[index].(selected := !s[index].selected)
  {
    seq(|s|, i requires 0 <= i < |s| => if i == index then s[i].(selected := !s[i].selected) else s[i])
  }

  /** `prev.map((ad, i) => i === index ? { ...ad, category } : ad)`. */
  function WithCategoryAt(s: seq<ReviewAd>, index: int, category: string): (r: seq<ReviewAd>)
    ensures |r| == |s|
    ensures forall i :: 0 <= i < |s| && i != index ==> r[i] == s[i]
    ensures 0 <= index < |s| ==> r[index] == s[index].(category := category)
  {
    seq(|s|, i requires 0 <= i < |s| => if i == index then s[i].(category := category) else s[i])
  }

  /** `prev.map((ad, i) => i === index ? { ...ad, adType } : ad)`. */
  function WithTypeAt(s: seq<ReviewAd>, index: int, adType: string): (r: seq<ReviewAd>)
    ensures |r| == |s|
    ensures forall i :: 0 <= i < |s| && i != index ==> r[i] == s[i]
    ensures 0 <= index < |s| ==> r[index] == s[index].(adType := adType)
  {
    seq(|s|, i requires 0 <= i < |s| => if i == index then s[i].(adType := adType) else s[i])
  }

  /** `prev.filter((_, i) => i !== index)` over the part of the list that starts at
      position `from`. */
  function OtherIndices<T>(s: seq<T>, index: int, from: nat): seq<T>
    decreases |s|
  {
    if |s| == 0 then []
    else (if from == index then [] else [s[0]]) + OtherIndices(s[1..], index, from + 1)
  }

  /** Dropping position `index` keeps everything else in order; an index outside the
      list drops nothing. */
  lemma {:induction false} OtherIndicesSpec<T>(s: seq<T>, index: int, from: nat)
    ensures from <= index < from + |s| ==>
      OtherIndices(s, index, from) == s[..index - from] + s[index - from + 1..]
    ensures !(from <= index < from + |s|) ==> OtherIndices(s, index, from) == s
    decreases |s|
  {
    if |s| > 0 {
      OtherIndicesSpec(s[1..], index, from + 1);
      if from == index {
        assert s[index - from + 1..] == s[1..];
      } else if from < index < from + |s| {
        assert s[..index - from] == [s[0]] + s[1..][..index - from - 1];
        assert s[index - from + 1..] == s[1..][index - from..];
      } else {
        assert s == [s[0]] + s[1..];
      }
    }
  }

  /** `ad.selected`, as a value to filter with. */
  function IsSelected(): ReviewAd -> bool
  {
    (ad: ReviewAd) => ad.selected
  }

  /** `!ad.selected`, as a value to filter with. */
  function IsUnselected(): ReviewAd -> bool
  {
    (ad: ReviewAd) => !ad.selected
  }

  /** `scrapedAds.filter(ad => ad.selected).length`. */
  function SelectedCount(s: seq<ReviewAd>): (n: nat)
    ensures n <= |s|
  {
    |Filter(s, IsSelected())|
  }

  /** Toggling the same entry twice gives the list back. */
  lemma ToggleTwice(s: seq<ReviewAd>, index: int)
    ensures ToggledAt(ToggledAt(s, index), index) == s
  {
  }

  /** Toggling an entry moves the selected count by one, up or down. */
  lemma ToggleCount(s: seq<ReviewAd>, index: int)
    requires 0 <= index < |s|
    ensures SelectedCount(ToggledAt(s, index)) == SelectedCount(s) + (if s[index].selected then -1 else 1)
  {
    var t := ToggledAt(s, index);
    assert s == s[..index] + [s[index]] + s[index + 1..];
    assert t == s[..index] + [t[index]] + s[index + 1..];
    FilterAppend(s[..index] + [s[index]], s[index + 1..], IsSelected());
    FilterAppend(s[..index], [s[index]], IsSelected());
    FilterAppend(s[..index] + [t[index]], s[index + 1..], IsSelected());
    FilterAppend(s[..index], [t[index]], IsSelected());
  }

  /** Changing a category or a type leaves the selection alone. */
  lemma EditKeepsSelection(s: seq<ReviewAd>, index: int, value: string)
    ensures SelectedCount(WithCategoryAt(s, index, value)) == SelectedCount(s)
    ensures SelectedCount(WithTypeAt(s, index, value)) == SelectedCount(s)
  {
    SameSelection(s, WithCategoryAt(s, index, value));
    SameSelection(s, WithTypeAt(s, index, value));
  }

  /** Lists that agree on every `selected` flag have the same selected count. */
  lemma {:induction false} SameSelection(s: seq<ReviewAd>, t: seq<ReviewAd>)
    requires |s| == |t| && forall i :: 0 <= i < |s| ==> s[i].selected == t[i].selected
    ensures SelectedCount(s) == SelectedCount(t)
  {
    if |s| > 0 {
      SameSelection(s[1..], t[1..]);
      assert s == [s[0]] + s[1..];
      assert t == [t[0]] + t[1..];
      FilterAppend([s[0]], s[1..], IsSelected());
      FilterAppend([t[0]], t[1..], IsSelected());
    }
  }

  /** Every entry is either saved with the selection or left on the list. */
  lemma {:induction false} SelectionSplits(s: seq<ReviewAd>)
    ensures |Filter(s, IsSelected())| + |Filter(s, IsUnselected())| == |s|
  {
    if |s| > 0 {
      SelectionSplits(s[1..]);
    }
  }

  class TelegramScraper {
    var channelUrl: string
    var defaultCategory: string
    var defaultAdType: string
    var isLoading: bool
    var scrapedAds: seq<ReviewAd>
    var notice: Option<Notice>

    /** The page opens with an empty list, category `chat` and type `group`. */
    constructor ()
      ensures channelUrl == "" && defaultCategory == "chat" && defaultAdType == "group"
      ensures !isLoading && scrapedAds == [] && notice.None?
    {
      channelUrl := "";
      defaultCategory := "chat";
      defaultAdType := "group";
      isLoading := false;
      scrapedAds := [];
      notice := None;
    }

    /** The body sent to the scraper: the trimmed address and the default type. */
    function ScrapeRequest(): ScrapeTelegram.Request
      reads this
    {
      ScrapeTelegram.Body(Some(Trim(channelUrl)), Some(defaultAdType))
    }

    /** `handleScrape`. A blank address is refused with the list untouched and no call.
        Otherwise the list is cleared; `reply` is the scraper's answer (`None` when the
        call itself failed), and a successful one is stamped with the defaults. */
    method HandleScrape(reply: Option<ScrapeTelegram.Response>)
      modifies this
      ensures channelUrl == old(channelUrl) && defaultCategory == old(defaultCategory)
      ensures defaultAdType == old(defaultAdType)
      ensures Trim(channelUrl) == "" ==>
        scrapedAds == old(scrapedAds) && notice == Some(MissingUrl) && isLoading == old(isLoading)
      ensures Trim(channelUrl) != "" ==> !isLoading
      ensures Trim(channelUrl) != "" && reply.Some? && reply.value.Success? ==>
        && scrapedAds == StampAll(reply.value.ads, defaultCategory, defaultAdType, Values(PROVINCES))
        && notice == Some(Found(|reply.value.ads|))
      ensures Trim(channelUrl) != "" && !(reply.Some? && reply.value.Success?) ==>
        scrapedAds == [] && notice == Some(ScrapeFailed)
    {
      if Trim(channelUrl) == "" {
        notice := Some(MissingUrl);
        return;
      }
      isLoading := true;
      scrapedAds := [];
      if reply.Some? && reply.value.Success? {
        var allCities := Values(PROVINCES);
        scrapedAds := StampAll(reply.value.ads, defaultCategory, defaultAdType, allCities);
        notice := Some(Found(|reply.value.ads|));
      } else {
        notice := Some(ScrapeFailed);
      }
      isLoading := false;
    }

    /** `toggleAdSelection(index)`. */
    method ToggleAdSelection(index: int)
      modifies this
      ensures scrapedAds == ToggledAt(old(scrapedAds), index)
      ensures unchanged(`notice) && unchanged(`channelUrl)
    {
      scrapedAds := ToggledAt(scrapedAds, index);
    }

    /** `updateAdCategory(index, category)`. */
    method UpdateAdCategory(index: int, category: string)
      modifies this
      ensures scrapedAds == WithCategoryAt(old(scrapedAds), index, category)
      ensures unchanged(`notice) && unchanged(`channelUrl)
    {
      scrapedAds := WithCategoryAt(scrapedAds, index, category);
    }

    /** `updateAdType(index, adType)`. */
    method UpdateAdType(index: int, adType: string)
      modifies this
      ensures scrapedAds == WithTypeAt(old(scrapedAds), index, adType)
      ensures unchanged(`notice) && unchanged(`channelUrl)
    {
      scrapedAds := WithTypeAt(scrapedAds, index, adType);
    }

    /** `saveSingleAd(index)`. An index with no entry does nothing. Otherwise `row` is
        the row sent for that entry; when the insert succeeds (`insertOk`) the entry
        leaves the list and the others stay in order. */
    method SaveSingleAd(index: int, userId: Option<string>, insertOk: bool) returns (row: Option<InsertRow>)
      modifies this
      ensures !(0 <= index < |old(scrapedAds)|) ==>
        row.None? && scrapedAds == old(scrapedAds) && notice == old(notice)
      ensures 0 <= index < |old(scrapedAds)| ==> row == Some(RowOf(old(scrapedAds)[index], userId))
      ensures 0 <= index < |old(scrapedAds)| && insertOk ==>
        && scrapedAds == old(scrapedAds)[..index] + old(scrapedAds)[index + 1..]
        && notice == Some(Saved(old(scrapedAds)[index].name))
      ensures 0 <= index < |old(scrapedAds)| && !insertOk ==>
        scrapedAds == old(scrapedAds) && notice == Some(SaveFailed)
    {
      if !(0 <= index < |scrapedAds|) {
        return None;
      }
      var ad := scrapedAds[index];
      row := Some(RowOf(ad, userId));
      if insertOk {
        notice := Some(Saved(ad.name));
        OtherIndicesSpec(scrapedAds, index, 0);
        scrapedAds := OtherIndices(scrapedAds, index, 0);
      } else {
        notice := Some(SaveFailed);
      }
    }

    /** `saveSelectedAds`. With nothing selected it refuses and sends nothing. Otherwise
        `rows` holds one row per selected entry; when the insert succeeds exactly the
        unselected entries stay, in order. */
    method SaveSelectedAds(userId: Option<string>, insertOk: bool) returns (rows: seq<InsertRow>)
      modifies this
      ensures SelectedCount(old(scrapedAds)) == 0 ==>
        rows == [] && scrapedAds == old(scrapedAds) && notice == Some(NoneSelected)
      ensures SelectedCount(old(scrapedAds)) > 0 ==>
        rows == RowsOf(Filter(old(scrapedAds), IsSelected()), userId)
      ensures SelectedCount(old(scrapedAds)) > 0 && insertOk ==>
        && scrapedAds == Filter(old(scrapedAds), IsUnselected())
        && notice == Some(SavedMany(SelectedCount(old(scrapedAds))))
      ensures SelectedCount(old(scrapedAds)) > 0 && !insertOk ==>
        scrapedAds == old(scrapedAds) && notice == Some(SaveManyFailed)
    {
      var selectedAds := Filter(scrapedAds, IsSelected());
      if |selectedAds| == 0 {
        notice := Some(NoneSelected);
        return [];
      }
      rows := RowsOf(selectedAds, userId);
      if insertOk {
        notice := Some(SavedMany(|selectedAds|));
        scrapedAds := Filter(scrapedAds, IsUnselected());
      } else {
        notice := Some(SaveManyFailed);
      }
    }
  }
}
