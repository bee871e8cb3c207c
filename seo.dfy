/** The search-engine helpers: the product record embedded in an ad's page, the meta
    tags of a page and the sitemap block of an ad. The page origin, the current time and
    the date formatting are parameters. */
module Seo {
  import opened Wrappers
  import opened Text

  /** The page data the meta tags are built from. */
  datatype SeoData = SeoData(
    title: string,
    description: string,
    keywords: seq<string>,
    image: Option<string>,
    url: string,
    pageType: string)

  datatype Offer = Offer(offerType: string, availability: string)

  /** The schema.org record of an ad. `image` is left out when the ad has none. */
  datatype AdStructuredData = AdStructuredData(
    context: string,
    recordType: string,
    name: string,
    description: string,
    image: Option<string>,
    url: string,
    offers: Offer)

  /** What `generateAdStructuredData` is given. */
  datatype AdSummary = AdSummary(name: string, text: string, imageUrl: Option<string>, telegramLink: string)

  /** `generateAdStructuredData`: a product named like the ad, described by its text,
      pictured by its image and located at its telegram link, always in stock. */
  function AdStructured(ad: AdSummary): (r: AdStructuredData)
    ensures r.name == ad.name && r.description == ad.text && r.image == ad.imageUrl && r.url == ad.telegramLink
    ensures r.context == "https://schema.org" && r.recordType == "Product"
    ensures r.offers == Offer("Offer", "https://schema.org/InStock")
  {
    AdStructuredData("https://schema.org", "Product", ad.name, ad.text, ad.imageUrl, ad.telegramLink,
      Offer("Offer", "https://schema.org/InStock"))
  }

  /** The ad can be read back from its record. */
  lemma StructuredRoundTrip(ad: AdSummary)
    ensures var r := AdStructured(ad); AdSummary(r.name, r.description, r.image, r.url) == ad
  {
  }

  /** `seo.image || ""`. */
  function ImageOrEmpty(image: Option<string>): string
  {
    if image.Some? then image.value else ""
  }

  const META_KEYS: set<string> := {
    "title", "description", "keywords", "og:title", "og:description", "og:image", "og:url", "og:type",
    "twitter:card", "twitter:title", "twitter:description", "twitter:image"}

  /** `generateMetaTags`. */
  function MetaTags(seo: SeoData): (r: map<string, string>)
    ensures r.Keys == META_KEYS
  {
    map[
      "title" := seo.title,
      "description" := seo.description,
      "keywords" := JoinWith(seo.keywords, ", "),
      "og:title" := seo.title,
      "og:description" := seo.description,
      "og:image" := ImageOrEmpty(seo.image),
      "og:url" := seo.url,
      "og:type" := seo.pageType,
      "twitter:card" := "summary_large_image",
      "twitter:title" := seo.title,
      "twitter:description" := seo.description,
      "twitter:image" := ImageOrEmpty(seo.image)]
  }

  /** The open-graph and twitter tags repeat the title and the description, share the
      image (empty without one), and the card is always the large-image one. */
  lemma MetaTagsAgree(seo: SeoData)
    ensures var m := MetaTags(seo);
      && m["og:title"] == m["twitter:title"] == m["title"] == seo.title
      && m["og:description"] == m["twitter:description"] == m["description"] == seo.description
      && m["og:image"] == m["twitter:image"]
      && (seo.image.None? ==> m["og:image"] == "")
      && m["twitter:card"] == "summary_large_image"
      && m["og:url"] == seo.url && m["og:type"] == seo.pageType
  {
  }

  /** The keywords tag lists the keywords separated by ", ": one more keyword adds the
      separator and itself. */
  lemma {:induction false} KeywordsJoin(keywords: seq<string>, k: string)
    ensures JoinWith([k], ", ") == k
    ensures |keywords| > 0 ==> JoinWith(keywords + [k], ", ") == JoinWith(keywords, ", ") + ", " + k
  {
    if |keywords| > 1 {
      KeywordsJoin(keywords[1..], k);
      assert (keywords + [k])[1..] == keywords[1..] + [k];
    } else if |keywords| == 1 {
      assert keywords + [k] == [keywords[0], k];
    }
  }

  /** `<lastmod>`: the date part of the update time, or of now without one. `iso` is
      `new Date(x).toISOString()`. */
  function LastMod(updatedAt: Option<string>, now: string, iso: string -> string): string
  {
    if updatedAt.Some? && updatedAt.value != "" then BeforeFirst(iso(updatedAt.value), 'T')
    else BeforeFirst(now, 'T')
  }

  const CHANGEFREQ_TAG := "<changefreq>weekly</changefreq>"

  const PRIORITY_TAG := "<priority>0.8</priority>"

  /** `generateSitemapEntry`: the `<url>` block of an ad. */
  function SitemapEntry(baseUrl: string, id: string, updatedAt: Option<string>, now: string, iso: string -> string): string
  {
    "\n  <url>\n    " + (("<loc>" + baseUrl + "/ad/" + id + "</loc>")
    + ("\n    " + (("<lastmod>" + LastMod(updatedAt, now, iso) + "</lastmod>")
    + ("\n    " + (CHANGEFREQ_TAG + ("\n    " + (PRIORITY_TAG + "\n  </url>")))))))
  }

  /** The block locates the ad at `/ad/<id>` under the origin, changes weekly, has
      priority 0.8, and carries a date without a time part. */
  lemma SitemapEntryShape(baseUrl: string, id: string, updatedAt: Option<string>, now: string, iso: string -> string)
    ensures Contains(SitemapEntry(baseUrl, id, updatedAt, now, iso), "<loc>" + baseUrl + "/ad/" + id + "</loc>")
    ensures Contains(SitemapEntry(baseUrl, id, updatedAt, now, iso), CHANGEFREQ_TAG)
    ensures Contains(SitemapEntry(baseUrl, id, updatedAt, now, iso), PRIORITY_TAG)
    ensures 'T' !in LastMod(updatedAt, now, iso)
  {
    var head := "\n  <url>\n    ";
    var loc := "<loc>" + baseUrl + "/ad/" + id + "</loc>";
    var date := "<lastmod>" + LastMod(updatedAt, now, iso) + "</lastmod>";
    var sep := "\n    ";
    var prioTail := PRIORITY_TAG + "\n  </url>";
    var freqTail := CHANGEFREQ_TAG + (sep + prioTail);
    var dateTail := date + (sep + freqTail);
    ContainsMiddle(head, loc, sep + dateTail);
    ContainsMiddle(sep, PRIORITY_TAG, "\n  </url>");
    ContainsPrefixed(CHANGEFREQ_TAG, sep + prioTail, PRIORITY_TAG);
    ContainsMiddle("", CHANGEFREQ_TAG, sep + prioTail);
    assert "" + freqTail == freqTail;
    ContainsPrefixed(sep, freqTail, CHANGEFREQ_TAG);
    ContainsPrefixed(sep, freqTail, PRIORITY_TAG);
    ContainsPrefixed(date, sep + freqTail, CHANGEFREQ_TAG);
    ContainsPrefixed(date, sep + freqTail, PRIORITY_TAG);
    ContainsPrefixed(sep, dateTail, CHANGEFREQ_TAG);
    ContainsPrefixed(sep, dateTail, PRIORITY_TAG);
    ContainsPrefixed(loc, sep + dateTail, CHANGEFREQ_TAG);
    ContainsPrefixed(loc, sep + dateTail, PRIORITY_TAG);
    ContainsPrefixed(head, loc + (sep + dateTail), CHANGEFREQ_TAG);
    ContainsPrefixed(head, loc + (sep + dateTail), PRIORITY_TAG);
  }
}
