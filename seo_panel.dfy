/** The search-engine panel: the sitemap built from the approved ads, the keyword list and
    the sitemap's XML. The query result and today's date are parameters. */
module SeoPanel {
  import opened Wrappers
  import opened Text
  import opened Seqs
  import opened ListEdits

  /** A row of the sitemap query (`id, name, updated_at, category`). */
  datatype SitemapAd = SitemapAd(id: string, name: string, updatedAt: string, category: string)

  datatype PanelEntry = PanelEntry(url: string, lastmod: string, priority: string)

  /** The panel's page settings. */
  datatype PanelSeo = PanelSeo(
    title: string,
    description: string,
    keywords: seq<string>,
    canonicalUrl: string,
    ogImage: string,
    robots: string)

  const INITIAL_SEO := PanelSeo(
    "تلگروپ - بهترین گروه‌ها و کانال‌های تلگرام",
    "جستجو و کشف بهترین گروه‌ها و کانال‌های تلگرام در دسته‌بندی‌های مختلف. ثبت رایگان گروه و کانال تلگرام.",
    ["گروه تلگرام", "کانال تلگرام", "لینکدونی", "تبلیغات تلگرام"],
    "https://telegroup.ir",
    "/og-image.png",
    "index, follow")

  /** `ads.map(ad => ad.category)`. */
  function CategoriesOf(ads: seq<SitemapAd>): (r: seq<string>)
    ensures |r| == |ads| && forall i :: 0 <= i < |ads| ==> r[i] == ads[i].category
  {
    seq(|ads|, i requires 0 <= i < |ads| => ads[i].category)
  }

  function CategoryEntry(cat: string, today: string): PanelEntry
  {
    PanelEntry("/filter?category=" + cat, BeforeFirst(today, 'T'), "0.7")
  }

  function AdEntry(ad: SitemapAd): PanelEntry
  {
    PanelEntry("/ad/" + ad.id, BeforeFirst(ad.updatedAt, 'T'), "0.6")
  }

  function CategoryEntries(cats: seq<string>, today: string): (r: seq<PanelEntry>)
    ensures |r| == |cats| && forall i :: 0 <= i < |cats| ==> r[i] == CategoryEntry(cats[i], today)
  {
    seq(|cats|, i requires 0 <= i < |cats| => CategoryEntry(cats[i], today))
  }

  function AdEntries(ads: seq<SitemapAd>): (r: seq<PanelEntry>)
    ensures |r| == |ads| && forall i :: 0 <= i < |ads| ==> r[i] == AdEntry(ads[i])
  {
    seq(|ads|, i requires 0 <= i < |ads| => AdEntry(ads[i]))
  }

  lemma CategoryEntriesStep(cats: seq<string>, i: nat, today: string)
    requires i < |cats|
    ensures CategoryEntries(cats[..i + 1], today) == CategoryEntries(cats[..i], today) + [CategoryEntry(cats[i], today)]
  {
  }

  lemma AdEntriesStep(ads: seq<SitemapAd>, j: nat)
    requires j < |ads|
    ensures AdEntries(ads[..j + 1]) == AdEntries(ads[..j]) + [AdEntry(ads[j])]
  {
  }

  /** The fixed pages, then one page per distinct category, then one per ad. */
  function Sitemap(ads: seq<SitemapAd>, today: string): seq<PanelEntry>
  {
    [PanelEntry("/", BeforeFirst(today, 'T'), "1.0"), PanelEntry("/submit", BeforeFirst(today, 'T'), "0.8")]
    + CategoryEntries(Dedup(CategoriesOf(ads)), today) + AdEntries(ads)
  }

  /** The sitemap's layout: the home page at 1.0 and the form at 0.8 first; then one
      entry at 0.7 per distinct category in the order the categories first appear, all
      dated by the day part of `today`; then one entry at 0.6 per ad, dated by the day
      part of its update time. */
  lemma SitemapShape(ads: seq<SitemapAd>, today: string)
    ensures var s := Sitemap(ads, today); var cats := Dedup(CategoriesOf(ads));
      && |s| == 2 + |cats| + |ads|
      && s[0].url == "/" && s[0].priority == "1.0" && s[1].url == "/submit" && s[1].priority == "0.8"
      && s[0].lastmod == BeforeFirst(today, 'T') && s[1].lastmod == BeforeFirst(today, 'T')
      && (forall i :: 0 <= i < |cats| ==>
            s[2 + i].url == "/filter?category=" + cats[i] && s[2 + i].priority == "0.7"
            && s[2 + i].lastmod == BeforeFirst(today, 'T'))
      && (forall i :: 0 <= i < |ads| ==>
            s[2 + |cats| + i].url == "/ad/" + ads[i].id && s[2 + |cats| + i].priority == "0.6"
            && s[2 + |cats| + i].lastmod == BeforeFirst(ads[i].updatedAt, 'T'))
  {
  }

  /** Each category of the ads gets exactly one entry. */
  lemma OneEntryPerCategory(ads: seq<SitemapAd>, today: string, c: string)
    ensures c in CategoriesOf(ads) <==> CategoryEntry(c, today) in CategoryEntries(Dedup(CategoriesOf(ads)), today)
    ensures forall i, j :: 0 <= i < j < |Dedup(CategoriesOf(ads))| ==>
      CategoryEntries(Dedup(CategoriesOf(ads)), today)[i].url != CategoryEntries(Dedup(CategoriesOf(ads)), today)[j].url
  {
    var cats := Dedup(CategoriesOf(ads));
    var es := CategoryEntries(cats, today);
    if CategoryEntry(c, today) in es {
      var i :| 0 <= i < |es| && es[i] == CategoryEntry(c, today);
      assert ("/filter?category=" + cats[i])[17..] == cats[i];
      assert ("/filter?category=" + c)[17..] == c;
    }
    forall i, j | 0 <= i < j < |cats|
      ensures es[i].url != es[j].url
    {
      assert es[i].url[17..] == cats[i];
      assert es[j].url[17..] == cats[j];
    }
  }

  /** One `<url>` block of the XML. */
  function UrlBlock(canonicalUrl: string, e: PanelEntry): string
  {
    "  <url>\n    " + (("<loc>" + canonicalUrl + e.url + "</loc>")
    + ("\n    <lastmod>" + e.lastmod + "</lastmod>\n    <priority>" + e.priority + "</priority>\n  </url>"))
  }

  function UrlBlocks(canonicalUrl: string, entries: seq<PanelEntry>): (r: seq<string>)
    ensures |r| == |entries| && forall i :: 0 <= i < |entries| ==> r[i] == UrlBlock(canonicalUrl, entries[i])
  {
    seq(|entries|, i requires 0 <= i < |entries| => UrlBlock(canonicalUrl, entries[i]))
  }

  /** `generateSitemapXML`: the blocks, one per line break, inside `<urlset>`. */
  function SitemapXml(canonicalUrl: string, entries: seq<PanelEntry>): string
  {
    "<?xml version=\"1.0\" encoding=\"UTF-8\"?>\n<urlset xmlns=\"http://www.sitemaps.org/schemas/sitemap/0.9\">\n"
    + JoinWith(UrlBlocks(canonicalUrl, entries), "\n") + "\n</urlset>"
  }

  /** There is one block per entry, and each locates its page under the canonical
      address. */
  lemma SitemapXmlBlocks(canonicalUrl: string, entries: seq<PanelEntry>, i: nat)
    requires i < |entries|
    ensures |UrlBlocks(canonicalUrl, entries)| == |entries|
    ensures Contains(UrlBlocks(canonicalUrl, entries)[i], "<loc>" + canonicalUrl + entries[i].url + "</loc>")
  {
    var e := entries[i];
    ContainsMiddle("  <url>\n    ", "<loc>" + canonicalUrl + e.url + "</loc>",
      "\n    <lastmod>" + e.lastmod + "</lastmod>\n    <priority>" + e.priority + "</priority>\n  </url>");
  }

  class Panel {
    var seoData: PanelSeo
    var sitemapEntries: seq<PanelEntry>
    var isLoadingSitemap: bool
    var newKeyword: string
    /** Whether the last sitemap build showed the error toast. */
    var failed: bool

    constructor ()
      ensures seoData == INITIAL_SEO && sitemapEntries == [] && !isLoadingSitemap && newKeyword == "" && !failed
    {
      seoData := INITIAL_SEO;
      sitemapEntries := [];
      isLoadingSitemap := false;
      newKeyword := "";
      failed := false;
    }

    /** `generateSitemap`, with `reply` the query's result (`None` an error,
        `Some(None)` no rows) and `today` the current time as an ISO string. The
        entries are pushed one by one; a failed query keeps the previous sitemap. */
    method GenerateSitemap(reply: Option<Option<seq<SitemapAd>>>, today: string)
      modifies this
      ensures reply.None? ==> sitemapEntries == old(sitemapEntries) && failed
      ensures reply.Some? ==> sitemapEntries == Sitemap(reply.value.GetOr([]), today) && !failed
      ensures !isLoadingSitemap && seoData == old(seoData) && newKeyword == old(newKeyword)
    {
      isLoadingSitemap := true;
      if reply.None? {
        failed := true;
        isLoadingSitemap := false;
        return;
      }
      var ads := reply.value.GetOr([]);
      var date := BeforeFirst(today, 'T');
      var entries := [PanelEntry("/", date, "1.0"), PanelEntry("/submit", date, "0.8")];
      var categories := Dedup(CategoriesOf(ads));
      var i := 0;
      while i < |categories|
        invariant 0 <= i <= |categories|
        invariant entries == [PanelEntry("/", date, "1.0"), PanelEntry("/submit", date, "0.8")]
                             + CategoryEntries(categories[..i], today)
        invariant seoData == old(seoData) && newKeyword == old(newKeyword)
      {
        entries := entries + [PanelEntry("/filter?category=" + categories[i], date, "0.7")];
        assert entries[|entries| - 1] == CategoryEntry(categories[i], today);
        CategoryEntriesStep(categories, i, today);
        i := i + 1;
      }
      assert categories[..|categories|] == categories;
      var j := 0;
      while j < |ads|
        invariant 0 <= j <= |ads|
        invariant entries == [PanelEntry("/", date, "1.0"), PanelEntry("/submit", date, "0.8")]
                             + CategoryEntries(categories, today) + AdEntries(ads[..j])
        invariant seoData == old(seoData) && newKeyword == old(newKeyword)
      {
        var ad := ads[j];
        entries := entries + [PanelEntry("/ad/" + ad.id, BeforeFirst(ad.updatedAt, 'T'), "0.6")];
        assert entries[|entries| - 1] == AdEntry(ads[j]);
        AdEntriesStep(ads, j);
        j := j + 1;
      }
      assert ads[..|ads|] == ads;
      sitemapEntries := entries;
      failed := false;
      isLoadingSitemap := false;
    }

    /** The keyword box's text. */
    method TypeKeyword(input: string)
      modifies this
      ensures newKeyword == input
      ensures seoData == old(seoData) && sitemapEntries == old(sitemapEntries)
      ensures isLoadingSitemap == old(isLoadingSitemap) && failed == old(failed)
    {
      newKeyword := input;
    }

    /** `addKeyword`: a new trimmed keyword is appended and the box cleared; otherwise
        nothing changes. */
    method AddKeyword()
      modifies this
      ensures seoData == old(seoData).(keywords := AddTrimmed(old(seoData.keywords), old(newKeyword)))
      ensures newKeyword == if Accepts(old(seoData.keywords), old(newKeyword)) then "" else old(newKeyword)
      ensures sitemapEntries == old(sitemapEntries)
      ensures isLoadingSitemap == old(isLoadingSitemap) && failed == old(failed)
    {
      var k := Trim(newKeyword);
      if k != "" && k !in seoData.keywords {
        seoData := seoData.(keywords := seoData.keywords + [k]);
        newKeyword := "";
      }
    }

    /** `removeKeyword`: every copy of the keyword goes, the others keep their order. */
    method RemoveKeyword(keyword: string)
      modifies this
      ensures seoData == old(seoData).(keywords := RemoveAll(old(seoData.keywords), keyword))
      ensures newKeyword == old(newKeyword) && sitemapEntries == old(sitemapEntries)
      ensures isLoadingSitemap == old(isLoadingSitemap) && failed == old(failed)
    {
      seoData := seoData.(keywords := Filter(seoData.keywords, Unequal(keyword)));
    }

    /** The XML the panel shows for its current entries. */
    function Xml(): string
      reads this
    {
      SitemapXml(seoData.canonicalUrl, sitemapEntries)
    }
  }
}
