/** The request handler of the Telegram preview extractor
    (supabase/functions/scrape-telegram/index.ts): it turns a channel URL and the page
    the scrape service returns for it into a list of candidate ads. */
module ScrapeTelegram {
  import opened Wrappers
  import opened Text
  import opened Seqs
  import opened ScrapeScan
  import opened ScrapeText

  /** One candidate ad, as the handler returns it. */
  datatype ScrapedAd = ScrapedAd(
    name: string,
    text: string,
    telegramLink: string,
    category: string,
    adType: string,
    members: Option<nat>,
    imageUrl: Option<string>)

  /** The request: a body that is no JSON (with the parse error's message), or the
      body's `channelUrl` and `adType`, each possibly absent. */
  datatype Request =
    | Unreadable(message: string)
    | Body(channelUrl: Option<string>, adType: Option<string>)

  /** What the scrape service gave back: an exception (with its message), or a reply with its status and
      the fields the handler reads (`data.error`, `data.data.html`, `data.html`,
      `data.data.markdown`, `data.markdown`). */
  datatype Upstream =
    | Threw(message: string)
    | Replied(ok: bool, status: int, error: Option<string>,
              nestedHtml: Option<string>, html: Option<string>,
              nestedMarkdown: Option<string>, markdown: Option<string>)

  datatype Response =
    | Failure(status: int, error: string)
    | Success(ads: seq<ScrapedAd>, channelUrl: string)

  /** A JavaScript string value that is truthy: present and non-empty. */
  predicate Truthy(o: Option<string>)
  {
    o.Some? && o.value != ""
  }

  /** `a || b || fallback` over optional strings. */
  function FirstTruthy(a: Option<string>, b: Option<string>, fallback: string): (r: string)
    ensures Truthy(a) ==> r == a.value
    ensures !Truthy(a) && Truthy(b) ==> r == b.value
    ensures !Truthy(a) && !Truthy(b) ==> r == fallback
  {
    if Truthy(a) then a.value else if Truthy(b) then b.value else fallback
  }

  // ---------------------------------------------------------------------------
  // The URL that is scraped

  /** The preview URL for a channel URL: trimmed, the first `/s/` turned into `/`,
      then `https://t.me/s/<handle>` for the first `t.me/<handle>`; without a handle,
      the text itself behind `https://t.me/s/` unless it already starts with `https://`. */
  function NormalizedUrl(channelUrl: string): (r: string)
    ensures "https://" <= r
  {
    var webUrl := ReplaceFirst(Trim(channelUrl), "/s/", "/");
    match MatchHandle(webUrl, false)
    case Some(h) => "https://t.me/s/" + h
    case None => if "https://" <= webUrl then webUrl else "https://t.me/s/" + webUrl
  }

  /** In `pre + "t.me/" + h` the only `.` is the one of `t.me`. */
  lemma DotOnlyInHost(pre: string, h: string, k: nat)
    requires '.' !in pre && AllWordChars(h)
    requires k < |pre| + 5 + |h| && k != |pre| + 1
    ensures (pre + "t.me/" + h)[k] != '.'
  {
    var s := pre + "t.me/" + h;
    if k < |pre| {
      assert s[k] == pre[k];
    } else if k < |pre| + 5 {
      assert s[k] == "t.me/"[k - |pre|];
    } else {
      assert s[k] == h[k - |pre| - 5];
    }
  }

  /** The handle pattern finds the handle that follows the only `t.me/` of a text. */
  lemma MatchHandleAfter(pre: string, h: string, ci: bool)
    requires '.' !in pre && |h| > 0 && AllWordChars(h)
    ensures MatchHandle(pre + "t.me/" + h, ci) == Some(h)
  {
    var s := pre + "t.me/" + h;
    var j := |pre|;
    forall q | 0 <= q < |s| && q != j
      ensures HandleAt(s, q, ci).None?
    {
      HandleNeedsDot(s, q, ci);
      if q + 1 < |s| {
        DotOnlyInHost(pre, h, q + 1);
      }
    }
    assert s[j..j + 5] == "t.me/";
    assert MatchesAt(s, j, "t.me/", ci) by {
      forall k | 0 <= k < 5
        ensures FoldEq(s[j + k], "t.me/"[k], ci)
      {
        assert s[j + k] == s[j..j + 5][k];
      }
    }
    assert s[j + 5..] == h;
    WordRunAll(s, j + 5);
    assert s[j + 5..j + 5 + WordRun(s, j + 5)] == h;
    MatchHandleOnlyAt(s, ci, 0, j);
  }

  /** The normalised URL of a trimmed text whose `/s/` step gives a text with a handle. */
  lemma NormalizedWith(u: string, webUrl: string, h: string)
    requires Trim(u) == u && ReplaceFirst(u, "/s/", "/") == webUrl
    requires MatchHandle(webUrl, false) == Some(h)
    ensures NormalizedUrl(u) == "https://t.me/s/" + h
  {
  }

  /** A handle alone, such as `t.me/foo`, keeps its handle. */
  lemma NormalizedBare(h: string)
    requires |h| > 0 && AllWordChars(h)
    ensures NormalizedUrl("t.me/" + h) == "https://t.me/s/" + h
  {
    TrimWordEnd("t.me/", h);
    NoSlashSBare(h);
    BareHandle(h);
    NormalizedWith("t.me/" + h, "t.me/" + h, h);
  }

  /** `https://t.me/foo` becomes `https://t.me/s/foo`. */
  lemma NormalizedPlain(h: string)
    requires |h| > 0 && AllWordChars(h)
    ensures NormalizedUrl("https://t.me/" + h) == "https://t.me/s/" + h
  {
    TrimWordEnd("https://t.me/", h);
    NoSlashSPlain(h);
    PlainHandle(h);
    NormalizedWith("https://t.me/" + h, "https://t.me/" + h, h);
  }

  /** `https://t.me/s/foo` stays `https://t.me/s/foo`: its `/s/` is dropped, then put back. */
  lemma NormalizedPreview(h: string)
    requires |h| > 0 && AllWordChars(h)
    ensures NormalizedUrl("https://t.me/s/" + h) == "https://t.me/s/" + h
  {
    TrimWordEnd("https://t.me/s/", h);
    PreviewDropsS(h);
    PlainHandle(h);
    NormalizedWith("https://t.me/s/" + h, "https://t.me/" + h, h);
  }

  /** The handle pattern finds the handle of `t.me/<handle>`. */
  lemma BareHandle(h: string)
    requires |h| > 0 && AllWordChars(h)
    ensures MatchHandle("t.me/" + h, false) == Some(h)
  {
    assert "" + "t.me/" + h == "t.me/" + h;
    MatchHandleAfter("", h, false);
  }

  /** The handle pattern finds the handle of `https://t.me/<handle>`. */
  lemma PlainHandle(h: string)
    requires |h| > 0 && AllWordChars(h)
    ensures MatchHandle("https://t.me/" + h, false) == Some(h)
  {
    assert "https://" + "t.me/" + h == "https://t.me/" + h;
    MatchHandleAfter("https://", h, false);
  }

  /** The `/s/` of `https://t.me/s/<handle>` is the first one, and it becomes `/`. */
  lemma PreviewDropsS(h: string)
    requires |h| > 0 && AllWordChars(h)
    ensures ReplaceFirst("https://t.me/s/" + h, "/s/", "/") == "https://t.me/" + h
  {
    var u := "https://t.me/s/" + h;
    forall k | 0 <= k < 12
      ensures !("/s/" <= u[k..])
    {
      NoSlashSInHost(u, k);
    }
    assert "/s/" <= u[12..];
    FindFromAt(u, "/s/", 0, 12);
    assert u[..12] + "/" + u[15..] == "https://t.me/" + h;
  }

  /** A prefix that starts with no space, followed by a handle, is already trimmed. */
  lemma TrimWordEnd(pre: string, h: string)
    requires |pre| > 0 && !IsSpace(pre[0]) && |h| > 0 && AllWordChars(h)
    ensures Trim(pre + h) == pre + h
  {
    var u := pre + h;
    assert u[|u| - 1] == h[|h| - 1];
    TrimNoop(u);
  }

  /** No `/s/` starts inside `https://t.me` (of a text that begins so). */
  lemma NoSlashSInHost(u: string, k: nat)
    requires "https://t.me/" <= u && k < 12
    ensures !("/s/" <= u[k..])
  {
    assert u[..13] == "https://t.me/";
    assert u[k..][..2] == u[k..k + 2];
    if k < 4 {
      assert u[k] == "http"[k];
    } else if k > 4 {
      assert u[k + 1] == "//t.me/"[k - 5];
      assert u[k + 1] in "//t.me/";
    }
  }

  /** `t.me/<handle>` holds no `/s/`. */
  lemma NoSlashSBare(h: string)
    requires |h| > 0 && AllWordChars(h)
    ensures ReplaceFirst("t.me/" + h, "/s/", "/") == "t.me/" + h
  {
    forall k | 0 <= k <= |"t.me/" + h|
      ensures !("/s/" <= ("t.me/" + h)[k..])
    {
      NoSlashSBareAt(h, k);
    }
    ReplaceAbsent("t.me/" + h, "/s/", "/");
  }

  lemma NoSlashSBareAt(h: string, k: nat)
    requires AllWordChars(h) && k <= 5 + |h|
    ensures !("/s/" <= ("t.me/" + h)[k..])
  {
    var u := "t.me/" + h;
    if k + 3 <= |u| {
      assert u[k..][..3] == u[k..k + 3];
      if k < 4 {
        assert u[k] == "t.me"[k];
      } else if k == 4 {
        assert u[k + 2] == h[1];
      } else {
        assert u[k] == h[k - 5];
      }
    }
  }

  /** `https://t.me/<handle>` holds no `/s/`. */
  lemma NoSlashSPlain(h: string)
    requires |h| > 0 && AllWordChars(h)
    ensures ReplaceFirst("https://t.me/" + h, "/s/", "/") == "https://t.me/" + h
  {
    forall k | 0 <= k <= |"https://t.me/" + h|
      ensures !("/s/" <= ("https://t.me/" + h)[k..])
    {
      NoSlashSPlainAt(h, k);
    }
    ReplaceAbsent("https://t.me/" + h, "/s/", "/");
  }

  lemma NoSlashSPlainAt(h: string, k: nat)
    requires AllWordChars(h) && k <= 13 + |h|
    ensures !("/s/" <= ("https://t.me/" + h)[k..])
  {
    var u := "https://t.me/" + h;
    if k + 3 <= |u| {
      assert u[k..][..3] == u[k..k + 3];
      if k < 12 {
        NoSlashSInHost(u, k);
      } else if k == 12 {
        assert u[k + 2] == h[1];
      } else {
        assert u[k] == h[k - 13];
      }
    }
  }

  /** Replacing a piece that occurs nowhere changes nothing. */
  lemma ReplaceAbsent(s: string, t: string, rep: string)
    requires forall k :: 0 <= k <= |s| ==> !(t <= s[k..])
    ensures ReplaceFirst(s, t, rep) == s
  {
  }

  /** `FindFrom` stops at the first occurrence: when nothing occurs in `[i, k)`. */
  lemma {:induction false} FindFromAt(s: string, t: string, i: nat, k: nat)
    requires i <= k <= |s| && t <= s[k..]
    requires forall j :: i <= j < k ==> !(t <= s[j..])
    ensures FindFrom(s, t, i) == Some(k)
    decreases k - i
  {
    if i < k {
      FindFromAt(s, t, i + 1, k);
    }
  }

  // ---------------------------------------------------------------------------
  // Images

  /** The images the handler keeps: kept sources of all image tags, in document order. */
  function KeptImages(html: string): seq<string>
  {
    Filter(ImageSourcesFrom(html, 0), KeptImage)
  }

  /** One `exec` step: the sources from `i` are the next match's source, then the
      sources after that match. */
  lemma ImageSourcesStep(html: string, i: nat)
    requires i <= |html|
    ensures NextImage(html, i).None? ==> ImageSourcesFrom(html, i) == []
    ensures NextImage(html, i).Some? ==>
      ImageSourcesFrom(html, i)
      == [NextImage(html, i).value.src] + ImageSourcesFrom(html, NextImage(html, i).value.next)
  {
  }

  /** The loop body: `src` is pushed when it is kept. */
  method PushKept(images: seq<string>, src: string) returns (r: seq<string>)
    ensures r == images + Filter([src], KeptImage)
  {
    r := images;
    if KeptImage(src) {
      r := r + [src];
    }
  }

  /** The `exec` loop: each match's source is pushed when it is kept. */
  method ExtractImages(html: string) returns (images: seq<string>)
    ensures images == KeptImages(html)
  {
    images := [];
    var pos: nat := 0;
    var m := NextImage(html, pos);
    while m.Some?
      invariant pos <= |html| && m == NextImage(html, pos)
      invariant images + Filter(ImageSourcesFrom(html, pos), KeptImage) == KeptImages(html)
      decreases |html| - pos
    {
      ImageSourcesStep(html, pos);
      ghost var before := images;
      images := PushKept(images, m.value.src);
      FilterStep(before, m.value.src, ImageSourcesFrom(html, m.value.next), KeptImage, KeptImages(html));
      pos := m.value.next;
      m := NextImage(html, pos);
    }
    ImageSourcesStep(html, pos);
  }

  /** Every kept image is a `telesco.pe` file that is neither an emoji nor an icon, and
      the kept images keep their page order. */
  lemma KeptImagesAreTelegramFiles(html: string)
    ensures forall k :: 0 <= k < |KeptImages(html)| ==>
      var src := KeptImages(html)[k];
      src != "" && Contains(src, "telesco.pe") && !Contains(src, "emoji") && !Contains(src, "icon")
    ensures IsSubsequence(KeptImages(html), ImageSourcesFrom(html, 0))
  {
    FilterIsSubsequence(ImageSourcesFrom(html, 0), KeptImage);
  }

  // ---------------------------------------------------------------------------
  // Links

  /** Whether a link is a candidate: its handle, lowered, is neither the source channel
      nor `s` (the preview path). */
  predicate KeepLink(link: string, source: string)
  {
    match MatchHandle(link, true)
    case None => false
    case Some(h) => Lower(h) != source && Lower(h) != "s"
  }

  /** `[...new Set(allLinks)].filter(...)`. */
  function UniqueLinks(markdown: string, source: string): seq<string>
  {
    Filter(Dedup(AllLinks(markdown)), l => KeepLink(l, source))
  }

  /** A matched link's own handle is the one the case-insensitive handle pattern finds. */
  lemma LinkHandleCaseInsensitive(x: string)
    requires IsLink(x)
    ensures MatchHandle(x, true) == Some(LinkHandle(x))
  {
    LinkHandleMatch(x, true);
    var p := SchemeEnd(x, 0);
    forall k | 0 <= k < 5
      ensures FoldEq(x[p + 3 + k], "t.me/"[k], true)
    {
      assert FoldEq(x[p + (3 + k)], "://t.me/"[3 + k], true);
    }
  }

  /** The candidate links are distinct, ordered by first occurrence, and none has the
      source channel or `s` as its lowered handle. */
  lemma UniqueLinksProperties(markdown: string, source: string)
    ensures var u := UniqueLinks(markdown, source);
      && Distinct(u)
      && IsSubsequence(u, Dedup(AllLinks(markdown)))
      && forall k :: 0 <= k < |u| ==>
           IsLink(u[k]) && Lower(LinkHandle(u[k])) != source && Lower(LinkHandle(u[k])) != "s"
  {
    var d := Dedup(AllLinks(markdown));
    var u := UniqueLinks(markdown, source);
    FilterDistinct(d, l => KeepLink(l, source));
    FilterIsSubsequence(d, l => KeepLink(l, source));
    forall k | 0 <= k < |u|
      ensures IsLink(u[k]) && Lower(LinkHandle(u[k])) != source && Lower(LinkHandle(u[k])) != "s"
    {
      assert u[k] in d;
      assert u[k] in AllLinks(markdown);
      LinkHandleCaseInsensitive(u[k]);
    }
  }

  /** A link with a handle passes exactly when that handle is neither source nor `s`;
      so the empty candidate list means every page link names the source channel or `s`. */
  lemma NoCandidatesIff(markdown: string, source: string)
    ensures UniqueLinks(markdown, source) == [] <==>
      forall k :: 0 <= k < |AllLinks(markdown)| ==>
        var h := Lower(LinkHandle(AllLinks(markdown)[k])); h == source || h == "s"
  {
    var all := AllLinks(markdown);
    var d := Dedup(all);
    var u := UniqueLinks(markdown, source);
    if u == [] {
      forall k | 0 <= k < |all|
        ensures Lower(LinkHandle(all[k])) == source || Lower(LinkHandle(all[k])) == "s"
      {
        assert all[k] in d;
        LinkHandleCaseInsensitive(all[k]);
        assert !KeepLink(all[k], source);
      }
    } else {
      assert u[0] in d;
      var k :| 0 <= k < |all| && all[k] == u[0];
      LinkHandleCaseInsensitive(all[k]);
      assert KeepLink(all[k], source);
    }
  }

  // ---------------------------------------------------------------------------
  // One primary candidate

  /** Whether a section mentions the link, or its handle in any letter case. */
  predicate Mentions(section: string, link: string, handle: string)
  {
    Contains(section, link) || Contains(Lower(section), Lower(handle))
  }

  /** The first section that mentions the link. */
  function FirstMention(sections: seq<string>, link: string, handle: string): (r: Option<nat>)
    ensures r.Some? ==> r.value < |sections| && Mentions(sections[r.value], link, handle)
    ensures r.Some? ==> forall k :: 0 <= k < r.value ==> !Mentions(sections[k], link, handle)
    ensures r.None? ==> forall k :: 0 <= k < |sections| ==> !Mentions(sections[k], link, handle)
  {
    if |sections| == 0 then None
    else if Mentions(sections[0], link, handle) then Some(0)
    else match FirstMention(sections[1..], link, handle)
      case None => None
      case Some(k) => Some(k + 1)
  }

  /** The cleaned text of the first section that mentions the link, `""` when none does. */
  function SectionText(sections: seq<string>, link: string, handle: string): string
  {
    match FirstMention(sections, link, handle)
    case Some(k) => CleanText(sections[k])
    case None => ""
  }

  /** The section at `i` is the first that mentions the link when none before it does. */
  lemma SectionTextAt(sections: seq<string>, link: string, handle: string, i: nat)
    requires i < |sections| && Mentions(sections[i], link, handle)
    requires forall k :: 0 <= k < i ==> !Mentions(sections[k], link, handle)
    ensures SectionText(sections, link, handle) == CleanText(sections[i])
  {
  }

  /** The inner `for`/`break` search over the sections. */
  method FindPostText(sections: seq<string>, link: string, handle: string) returns (postText: string)
    ensures postText == SectionText(sections, link, handle)
  {
    postText := "";
    var i := 0;
    while i < |sections|
      invariant 0 <= i <= |sections| && postText == ""
      invariant forall k :: 0 <= k < i ==> !Mentions(sections[k], link, handle)
    {
      if Contains(sections[i], link) || Contains(Lower(sections[i]), Lower(handle)) {
        postText := CleanText(sections[i]);
        SectionTextAt(sections, link, handle, i);
        return;
      }
      i := i + 1;
    }
  }

  /** `adType === 'channel' ? 'کانال' : 'گروه'`. */
  function TypeWord(adType: string): string
  {
    if adType == "channel" then "کانال" else "گروه"
  }

  /** The generic text for a link whose section says too little. */
  function GenericText(adType: string, handle: string): string
  {
    "لینک " + TypeWord(adType) + ": @" + handle
  }

  /** The post text: the section text, or the generic text when it is empty or shorter
      than ten characters. */
  function PostText(found: string, adType: string, handle: string): (r: string)
    ensures |r| >= 10
  {
    if found == "" || |found| < 10 then GenericText(adType, handle) else found
  }

  /** A line that says something: more than three characters once trimmed. */
  predicate LongLine(l: string)
  {
    |Trim(l)| > 3
  }

  /** `j` is the index of the first long line of `lines`. */
  predicate FirstLongLine(lines: seq<string>, j: int)
  {
    0 <= j < |lines| && LongLine(lines[j]) && forall k :: 0 <= k < j ==> !LongLine(lines[k])
  }

  /** The name: the first line with more than three characters once trimmed, cut to
      fifty characters, unless it starts with a digit; otherwise the handle. So it is the
      handle or a line of four to fifty characters that does not start with a digit. */
  function NameOf(postText: string, handle: string): (n: string)
    ensures n == handle || (4 <= |n| <= 50 && !IsDigit(n[0]))
  {
    var lines := Filter(SplitOn(postText, '\n'), LongLine);
    if |lines| > 0 then
      var first := Take(Trim(lines[0]), 50);
      if |first| > 3 && !IsDigit(first[0]) then first else handle
    else handle
  }

  /** The name comes from the first long line of the post text: that line, trimmed and
      cut to fifty characters, is the name unless it starts with a digit, in which case
      the handle is. */
  lemma NameFromFirstLine(postText: string, handle: string, j: int)
    requires FirstLongLine(SplitOn(postText, '\n'), j)
    ensures var first := Take(Trim(SplitOn(postText, '\n')[j]), 50);
      && 4 <= |first| <= 50
      && (!IsDigit(first[0]) ==> NameOf(postText, handle) == first)
      && (IsDigit(first[0]) ==> NameOf(postText, handle) == handle)
  {
    FilterFirst(SplitOn(postText, '\n'), LongLine, j);
  }

  /** Without a long line, the name is the handle. */
  lemma NameWithoutLongLine(postText: string, handle: string)
    requires forall k :: 0 <= k < |SplitOn(postText, '\n')| ==> !LongLine(SplitOn(postText, '\n')[k])
    ensures NameOf(postText, handle) == handle
  {
    FilterNone(SplitOn(postText, '\n'), LongLine);
  }

  /** For a link whose section says too little, the name is the generic text itself
      (cut to fifty characters), not the bare handle. */
  lemma GenericTextName(adType: string, handle: string)
    requires |handle| > 0 && AllWordChars(handle)
    ensures NameOf(GenericText(adType, handle), handle) == Take(GenericText(adType, handle), 50)
  {
    var g := GenericText(adType, handle);
    var w := TypeWord(adType);
    assert g == "لینک " + w + ": @" + handle;
    assert '\n' !in g by {
      assert '\n' !in "لینک " + w + ": @";
      assert forall k :: 0 <= k < |handle| ==> IsWordChar(handle[k]);
    }
    assert SplitOn(g, '\n') == [g] by {
      assert IndexOfChar(g, '\n').None?;
    }
    assert g[0] == 'ل';
    assert g[|g| - 1] == handle[|handle| - 1];
    TrimNoop(g);
    var lines := Filter([g], l => |Trim(l)| > 3);
    assert lines == [g];
  }

  /** `images[imageIndex] || undefined`. */
  function ImageFor(images: seq<string>, imageIndex: nat): Option<string>
  {
    if imageIndex < |images| && images[imageIndex] != "" then Some(images[imageIndex]) else None
  }

  /** The candidate built for one link with a handle: its text is between ten and five
      hundred characters long, and its name is never empty. */
  function Candidate(handle: string, found: string, adType: string, image: Option<string>): (c: ScrapedAd)
    ensures 10 <= |c.text| <= 500 && (|handle| > 0 ==> |c.name| > 0)
    ensures c.telegramLink == "https://t.me/" + handle && c.category == "chat"
    ensures c.adType == adType && c.imageUrl == image
  {
    var postText := PostText(found, adType, handle);
    ScrapedAd(NameOf(postText, handle), Take(postText, 500), "https://t.me/" + handle,
              "chat", adType, Members(postText), image)
  }

  /** A link whose section says too little gets the generic text, as text and as name. */
  lemma CandidateGeneric(handle: string, found: string, adType: string, image: Option<string>)
    requires |handle| > 0 && AllWordChars(handle) && |found| < 10
    ensures var c := Candidate(handle, found, adType, image);
      && c.text == Take(GenericText(adType, handle), 500)
      && c.name == Take(GenericText(adType, handle), 50)
  {
    GenericTextName(adType, handle);
  }

  // ---------------------------------------------------------------------------
  // The primary pass

  /** The state of the primary loop: the ads pushed and the next image index. */
  datatype Pass = Pass(ads: seq<ScrapedAd>, imageIndex: nat)

  /** The primary loop after its first `n` links: a link whose handle matches gets the ad
      `build(handle, find(link, handle), image)`, where `find` gives its post text, with
      the next image. */
  function PassUpTo(links: seq<string>, n: nat, images: seq<string>,
                    find: (string, string) -> string,
                    build: (string, string, Option<string>) -> ScrapedAd): (r: Pass)
    requires n <= |links|
    ensures |r.ads| <= n
  {
    if n == 0 then Pass([], 0)
    else
      var prev := PassUpTo(links, n - 1, images, find, build);
      var link := links[n - 1];
      match MatchHandle(link, true)
      case None => prev
      case Some(h) =>
        var image := ImageFor(images, prev.imageIndex);
        Pass(prev.ads + [build(h, find(link, h), image)],
             if image.Some? then prev.imageIndex + 1 else prev.imageIndex)
  }

  /** One more link without a handle adds nothing. */
  lemma PassSkip(links: seq<string>, n: nat, images: seq<string>,
                 find: (string, string) -> string,
                 build: (string, string, Option<string>) -> ScrapedAd, p: Pass)
    requires n < |links| && MatchHandle(links[n], true).None?
    requires p == PassUpTo(links, n, images, find, build)
    ensures p == PassUpTo(links, n + 1, images, find, build)
  {
  }

  /** One more link with handle `h` adds the ad its builder makes from the link's post
      text, with the next image. */
  lemma PassPush(links: seq<string>, n: nat, images: seq<string>,
                 find: (string, string) -> string,
                 build: (string, string, Option<string>) -> ScrapedAd,
                 p: Pass, h: string, postText: string)
    requires n < |links| && MatchHandle(links[n], true) == Some(h)
    requires p == PassUpTo(links, n, images, find, build)
    requires postText == find(links[n], h)
    ensures var image := ImageFor(images, p.imageIndex);
      Pass(p.ads + [build(h, postText, image)], if image.Some? then p.imageIndex + 1 else p.imageIndex)
      == PassUpTo(links, n + 1, images, find, build)
  {
  }

  /** The post text of a link: the cleaned first section that mentions it. */
  function SectionsFinder(sections: seq<string>): (string, string) -> string
  {
    (link, h) => SectionText(sections, link, h)
  }

  /** The ad literal of the primary loop. */
  function CandidateOf(adType: string): (string, string, Option<string>) -> ScrapedAd
  {
    (h, found, image) => Candidate(h, found, adType, image)
  }

  /** The primary loop over the candidate links after its first `n` links. */
  function PrimaryUpTo(links: seq<string>, n: nat, sections: seq<string>, images: seq<string>,
                       adType: string): Pass
    requires n <= |links|
  {
    PassUpTo(links, n, images, SectionsFinder(sections), CandidateOf(adType))
  }

  /** One turn of the `for` loop: link `i` is skipped when no handle matches, and
      otherwise gets an ad with its post text and the next image. */
  method PassStep(links: seq<string>, i: nat, sections: seq<string>, images: seq<string>,
                  build: (string, string, Option<string>) -> ScrapedAd,
                  ads: seq<ScrapedAd>, imageIndex: nat)
    returns (ads': seq<ScrapedAd>, imageIndex': nat)
    requires i < |links|
    requires Pass(ads, imageIndex) == PassUpTo(links, i, images, SectionsFinder(sections), build)
    ensures Pass(ads', imageIndex') == PassUpTo(links, i + 1, images, SectionsFinder(sections), build)
  {
    var link := links[i];
    var linkMatch := MatchHandle(link, true);
    if linkMatch.None? {
      PassSkip(links, i, images, SectionsFinder(sections), build, Pass(ads, imageIndex));
      return ads, imageIndex;
    }
    var channelName := linkMatch.value;
    var postText := FindPostText(sections, link, channelName);
    PassPush(links, i, images, SectionsFinder(sections), build, Pass(ads, imageIndex), channelName, postText);
    var imageUrl := ImageFor(images, imageIndex);
    imageIndex' := imageIndex;
    if imageUrl.Some? {
      imageIndex' := imageIndex + 1;
    }
    ads' := ads + [build(channelName, postText, imageUrl)];
  }

  /** The `for` loop over the links, with `build` making each ad. */
  method PassLoop(links: seq<string>, sections: seq<string>, images: seq<string>,
                  build: (string, string, Option<string>) -> ScrapedAd)
    returns (ads: seq<ScrapedAd>)
    ensures ads == PassUpTo(links, |links|, images, SectionsFinder(sections), build).ads
  {
    ads := [];
    var imageIndex := 0;
    var i := 0;
    while i < |links|
      invariant 0 <= i <= |links|
      invariant Pass(ads, imageIndex) == PassUpTo(links, i, images, SectionsFinder(sections), build)
    {
      ads, imageIndex := PassStep(links, i, sections, images, build, ads, imageIndex);
      i := i + 1;
    }
  }

  /** The primary pass: the loop with the candidate of each handle. */
  method PrimaryPass(links: seq<string>, sections: seq<string>, images: seq<string>, adType: string)
    returns (ads: seq<ScrapedAd>)
    ensures ads == PrimaryUpTo(links, |links|, sections, images, adType).ads
  {
    ads := PassLoop(links, sections, images, CandidateOf(adType));
  }

  /** The images are handed out in order: the first `imageIndex` ads got the first
      images, one each, and the ads after them got none. */
  predicate ImagesInOrder(p: Pass, images: seq<string>)
  {
    && p.imageIndex == (if |p.ads| < |images| then |p.ads| else |images|)
    && forall k :: 0 <= k < |p.ads| ==>
         p.ads[k].imageUrl == (if k < |images| then Some(images[k]) else None)
  }

  /** Image bookkeeping of one pushed ad: the next ad gets the next image, or none once
      they run out. */
  lemma ImagesStep(prev: Pass, ad: ScrapedAd, images: seq<string>)
    requires forall k :: 0 <= k < |images| ==> images[k] != ""
    requires ImagesInOrder(prev, images)
    requires ad.imageUrl == ImageFor(images, prev.imageIndex)
    ensures ImagesInOrder(Pass(prev.ads + [ad], if ImageFor(images, prev.imageIndex).Some?
                                                then prev.imageIndex + 1 else prev.imageIndex), images)
  {
    var ads := prev.ads + [ad];
    forall k | 0 <= k < |ads|
      ensures ads[k].imageUrl == (if k < |images| then Some(images[k]) else None)
    {
      if k < |prev.ads| {
        assert ads[k] == prev.ads[k];
      }
    }
  }

  /** A builder that attaches the image it is given hands out non-empty images in order. */
  lemma {:induction false} PassImages(links: seq<string>, n: nat, images: seq<string>,
                                      find: (string, string) -> string,
                                      build: (string, string, Option<string>) -> ScrapedAd)
    requires n <= |links|
    requires forall k :: 0 <= k < |images| ==> images[k] != ""
    requires forall h, t, i :: build(h, t, i).imageUrl == i
    ensures ImagesInOrder(PassUpTo(links, n, images, find, build), images)
  {
    if n > 0 {
      PassImages(links, n - 1, images, find, build);
      var prev := PassUpTo(links, n - 1, images, find, build);
      var link := links[n - 1];
      match MatchHandle(link, true)
      case None =>
        PassSkip(links, n - 1, images, find, build, prev);
      case Some(h) =>
        PassPush(links, n - 1, images, find, build, prev, h, find(link, h));
        ImagesStep(prev, build(h, find(link, h), ImageFor(images, prev.imageIndex)), images);
    }
  }

  /** With non-empty image sources, the `k`-th primary ad gets `images[k]`, or no image
      once they run out: images are handed out in order and never reused. */
  lemma PrimaryImages(links: seq<string>, sections: seq<string>, images: seq<string>, adType: string)
    requires forall k :: 0 <= k < |images| ==> images[k] != ""
    ensures ImagesInOrder(PrimaryUpTo(links, |links|, sections, images, adType), images)
  {
    PassImages(links, |links|, images, SectionsFinder(sections), CandidateOf(adType));
  }

  /** The ads of `p` are one per link of `links[..n]`, each the one `build` makes for the
      link's handle and post text. */
  predicate OnePerLink(p: Pass, links: seq<string>, n: nat,
                       find: (string, string) -> string,
                       build: (string, string, Option<string>) -> ScrapedAd)
    requires n <= |links|
    requires forall k :: 0 <= k < |links| ==> MatchHandle(links[k], true).Some?
  {
    && |p.ads| == n
    && forall k :: 0 <= k < n ==>
         var h := MatchHandle(links[k], true).value;
         p.ads[k] == build(h, find(links[k], h), p.ads[k].imageUrl)
  }

  /** Adding the ad of link `n` keeps one ad per link. */
  lemma OnePerLinkStep(p: Pass, links: seq<string>, n: nat,
                       find: (string, string) -> string,
                       build: (string, string, Option<string>) -> ScrapedAd,
                       ad: ScrapedAd, index: nat)
    requires n < |links|
    requires forall k :: 0 <= k < |links| ==> MatchHandle(links[k], true).Some?
    requires OnePerLink(p, links, n, find, build)
    requires var h := MatchHandle(links[n], true).value; ad == build(h, find(links[n], h), ad.imageUrl)
    ensures OnePerLink(Pass(p.ads + [ad], index), links, n + 1, find, build)
  {
    var ads := p.ads + [ad];
    forall k | 0 <= k < n + 1
      ensures var h := MatchHandle(links[k], true).value;
        ads[k] == build(h, find(links[k], h), ads[k].imageUrl)
    {
      if k < n {
        assert ads[k] == p.ads[k];
      }
    }
  }

  /** When every link has a handle, each link yields the ad its builder makes for that
      handle and the link's post text. */
  lemma {:induction false} PassOnePerLink(links: seq<string>, n: nat, images: seq<string>,
                                          find: (string, string) -> string,
                                          build: (string, string, Option<string>) -> ScrapedAd)
    requires n <= |links|
    requires forall k :: 0 <= k < |links| ==> MatchHandle(links[k], true).Some?
    requires forall h, t, i :: build(h, t, i).imageUrl == i
    ensures OnePerLink(PassUpTo(links, n, images, find, build), links, n, find, build)
  {
    if n > 0 {
      PassOnePerLink(links, n - 1, images, find, build);
      var prev := PassUpTo(links, n - 1, images, find, build);
      var h := MatchHandle(links[n - 1], true).value;
      var image := ImageFor(images, prev.imageIndex);
      var ad := build(h, find(links[n - 1], h), image);
      PassPush(links, n - 1, images, find, build, prev, h, find(links[n - 1], h));
      OnePerLinkStep(prev, links, n - 1, find, build, ad,
                     if image.Some? then prev.imageIndex + 1 else prev.imageIndex);
    }
  }

  /** Every link of the candidate list yields an ad for its handle, with a text of ten to
      five hundred characters and a non-empty name: the `continue` never fires. */
  lemma PrimaryOnePerLink(links: seq<string>, sections: seq<string>, images: seq<string>, adType: string)
    requires forall k :: 0 <= k < |links| ==> IsLink(links[k])
    ensures var ads := PrimaryUpTo(links, |links|, sections, images, adType).ads;
      && |ads| == |links|
      && forall k :: 0 <= k < |links| ==>
           ads[k].telegramLink == "https://t.me/" + LinkHandle(links[k])
           && 10 <= |ads[k].text| <= 500 && |ads[k].name| > 0
  {
    forall k | 0 <= k < |links|
      ensures MatchHandle(links[k], true) == Some(LinkHandle(links[k]))
    {
      LinkHandleCaseInsensitive(links[k]);
    }
    PassOnePerLink(links, |links|, images, SectionsFinder(sections), CandidateOf(adType));
  }

  // ---------------------------------------------------------------------------
  // The fallback pass

  /** A matched link never holds `/s/`: after `t.me/` comes a handle, with no `/`. */
  lemma LinkHasNoSlashS(x: string)
    requires IsLink(x)
    ensures !Contains(x, "/s/")
  {
    if Contains(x, "/s/") {
      var k := ContainsWitness(x, "/s/");
      NoSlashSAt(x, k);
    }
  }

  /** `/s/` does not start at any index of a link. */
  lemma NoSlashSAt(x: string, k: nat)
    requires IsLink(x) && k <= |x|
    ensures !("/s/" <= x[k..])
  {
    var p := SchemeEnd(x, 0);
    if k + 3 <= |x| {
      if k < 4 {
        assert FoldEq(x[0 + k], "http"[k], true);
        assert x[k] != '/';
      } else if k < p {
        assert x[k] != '/';
      } else if k == p + 1 {
        assert FoldEq(x[p + 2], "://t.me/"[2], true);
        assert x[k + 1] != 's';
      } else if k == p + 2 {
        assert FoldEq(x[p + 3], "://t.me/"[3], true);
        assert x[k + 1] != 's';
      } else if k < p + 7 {
        assert FoldEq(x[p + (k - p)], "://t.me/"[k - p], true);
        assert x[k] != '/';
      } else if k == p + 7 {
        assert x[p + 8..][1] == x[k + 2];
        assert x[k + 2] != '/';
      } else {
        assert x[p + 8..][k - p - 8] == x[k];
        assert x[k] != '/';
      }
      assert x[k..][..3] == x[k..k + 3];
    }
  }

  /** The name of a fallback ad whose link the case-sensitive handle pattern misses. */
  const AnonymousName := "آگهی تلگرام"

  /** The links of the fallback pass: the distinct page links without `/s/`, at most
      twenty of them. */
  function FallbackLinks(markdown: string): seq<string>
  {
    Take(Filter(Dedup(AllLinks(markdown)), l => !Contains(l, "/s/")), 20)
  }

  /** The fallback ad of the link at index `i`: the link as text and as Telegram link,
      no member count, and `images[i]`. */
  function FallbackAd(link: string, i: nat, images: seq<string>, adType: string): ScrapedAd
  {
    ScrapedAd(MatchHandle(link, false).GetOr(AnonymousName), "لینک " + TypeWord(adType) + ": " + link,
              link, "chat", adType, None, ImageFor(images, i))
  }

  /** The fallback ads of the first `n` links, one per link. */
  function FallbackUpTo(links: seq<string>, n: nat, images: seq<string>, adType: string): (r: seq<ScrapedAd>)
    requires n <= |links|
    ensures |r| == n
  {
    if n == 0 then []
    else FallbackUpTo(links, n - 1, images, adType) + [FallbackAd(links[n - 1], n - 1, images, adType)]
  }

  function FallbackAds(markdown: string, images: seq<string>, adType: string): seq<ScrapedAd>
  {
    FallbackUpTo(FallbackLinks(markdown), |FallbackLinks(markdown)|, images, adType)
  }

  /** The fallback loop: each link gets the image at the current length of `ads`. */
  method FallbackPass(markdown: string, images: seq<string>, adType: string) returns (ads: seq<ScrapedAd>)
    ensures ads == FallbackAds(markdown, images, adType)
  {
    var links := FallbackLinks(markdown);
    ads := [];
    var i := 0;
    while i < |links|
      invariant 0 <= i <= |links| && ads == FallbackUpTo(links, i, images, adType)
    {
      var link := links[i];
      var linkMatch := MatchHandle(link, false);
      var name := if linkMatch.Some? then linkMatch.value else AnonymousName;
      ads := ads + [ScrapedAd(name, "لینک " + TypeWord(adType) + ": " + link, link, "chat", adType,
                              None, ImageFor(images, |ads|))];
      i := i + 1;
    }
  }

  /** The `/s/` filter of the fallback removes nothing, and the fallback links are at most
      twenty distinct page links in first-occurrence order. */
  lemma FallbackLinksProperties(markdown: string)
    ensures var links := FallbackLinks(markdown);
      && links == Take(Dedup(AllLinks(markdown)), 20)
      && |links| <= 20 && Distinct(links)
      && forall k :: 0 <= k < |links| ==> IsLink(links[k]) && !Contains(links[k], "/s/")
  {
    var d := Dedup(AllLinks(markdown));
    forall k | 0 <= k < |d|
      ensures !Contains(d[k], "/s/")
    {
      assert d[k] in AllLinks(markdown);
      LinkHasNoSlashS(d[k]);
    }
    FilterAll(d, l => !Contains(l, "/s/"));
    var links := Take(d, 20);
    forall k | 0 <= k < |links|
      ensures links[k] == d[k]
    {
    }
  }

  /** Each fallback ad carries its link, the link's handle as name when the host is
      written `t.me` in lower case (else the anonymous name), and the `k`-th image. */
  lemma FallbackAdsShape(markdown: string, images: seq<string>, adType: string)
    requires forall k :: 0 <= k < |images| ==> images[k] != ""
    ensures var links := FallbackLinks(markdown);
      var ads := FallbackAds(markdown, images, adType);
      && |ads| == |links| <= 20
      && forall k :: 0 <= k < |ads| ==>
           && ads[k].telegramLink == links[k] && ads[k].members.None?
           && ads[k].text == "لینک " + TypeWord(adType) + ": " + links[k]
           && ads[k].imageUrl == (if k < |images| then Some(images[k]) else None)
           && ads[k].name == (if MatchesAt(links[k], SchemeEnd(links[k], 0) + 3, "t.me/", false)
                              then LinkHandle(links[k]) else AnonymousName)
  {
    var links := FallbackLinks(markdown);
    FallbackLinksProperties(markdown);
    forall k | 0 <= k < |links|
      ensures FallbackUpTo(links, |links|, images, adType)[k] == FallbackAd(links[k], k, images, adType)
    {
      FallbackUpToAt(links, |links|, images, adType, k);
    }
    forall k | 0 <= k < |links|
      ensures MatchHandle(links[k], false)
              == if MatchesAt(links[k], SchemeEnd(links[k], 0) + 3, "t.me/", false)
                 then Some(LinkHandle(links[k])) else None
    {
      LinkHandleMatch(links[k], false);
    }
  }

  /** The `k`-th fallback ad is the one of the `k`-th link. */
  lemma {:induction false} FallbackUpToAt(links: seq<string>, n: nat, images: seq<string>, adType: string, k: nat)
    requires k < n <= |links|
    ensures FallbackUpTo(links, n, images, adType)[k] == FallbackAd(links[k], k, images, adType)
  {
    if k < n - 1 {
      FallbackUpToAt(links, n - 1, images, adType, k);
    }
  }

  /** When the fallback runs, no page link names anything but the source channel or `s`:
      so every fallback link does. */
  lemma FallbackOnlySourceOrS(markdown: string, source: string)
    requires UniqueLinks(markdown, source) == []
    ensures forall k :: 0 <= k < |FallbackLinks(markdown)| ==>
      var h := Lower(LinkHandle(FallbackLinks(markdown)[k])); h == source || h == "s"
  {
    NoCandidatesIff(markdown, source);
    FallbackLinksProperties(markdown);
    var all := AllLinks(markdown);
    var links := FallbackLinks(markdown);
    forall k | 0 <= k < |links|
      ensures Lower(LinkHandle(links[k])) == source || Lower(LinkHandle(links[k])) == "s"
    {
      assert links[k] in Dedup(all);
      var j :| 0 <= j < |all| && all[j] == links[k];
    }
  }

  // ---------------------------------------------------------------------------
  // The handler

  /** The ads of a scraped page: the primary pass, or the fallback when it found nothing. */
  function PageAds(html: string, markdown: string, channelUrl: string, adType: string): seq<ScrapedAd>
  {
    var images := KeptImages(html);
    var links := UniqueLinks(markdown, SourceChannel(channelUrl));
    var primary := PrimaryUpTo(links, |links|, Sections(markdown), images, adType).ads;
    if |primary| == 0 then FallbackAds(markdown, images, adType) else primary
  }

  /** The primary pass finds nothing exactly when there is no candidate link, that is,
      when every page link names the source channel or `s`. */
  lemma PrimaryEmptyIff(markdown: string, channelUrl: string, images: seq<string>, adType: string)
    ensures var source := SourceChannel(channelUrl);
      var links := UniqueLinks(markdown, source);
      && (PrimaryUpTo(links, |links|, Sections(markdown), images, adType).ads == [] <==> links == [])
      && (links == [] <==>
            forall k :: 0 <= k < |AllLinks(markdown)| ==>
              var h := Lower(LinkHandle(AllLinks(markdown)[k])); h == source || h == "s")
  {
    var source := SourceChannel(channelUrl);
    UniqueLinksProperties(markdown, source);
    PrimaryOnePerLink(UniqueLinks(markdown, source), Sections(markdown), images, adType);
    NoCandidatesIff(markdown, source);
  }

  /** The handler on a request, the API key setting and what the scrape service gave back. */
  function Respond(req: Request, apiKey: Option<string>, reply: Upstream): Response
  {
    match req
    case Unreadable(message) => Failure(500, message)
    case Body(channelUrl, adType) =>
      if !Truthy(channelUrl) then Failure(400, "Channel URL is required")
      else if !Truthy(apiKey) then Failure(500, "Scraper not configured")
      else match reply
        case Threw(message) => Failure(500, message)
        case Replied(ok, status, error, nestedHtml, html, nestedMarkdown, markdown) =>
          if !ok then Failure(status, FirstTruthy(error, None, "Scrape failed"))
          else
            var ads := PageAds(FirstTruthy(nestedHtml, html, ""), FirstTruthy(nestedMarkdown, markdown, ""),
                               channelUrl.value, adType.GetOr("group"));
            Success(Take(ads, 30), NormalizedUrl(channelUrl.value))
  }

  /** The URL the handler asks the scrape service for, when it gets that far. */
  function RequestedUrl(req: Request, apiKey: Option<string>): Option<string>
  {
    if req.Body? && Truthy(req.channelUrl) && Truthy(apiKey) then Some(NormalizedUrl(req.channelUrl.value))
    else None
  }

  /** The request handler; `reply` stands for the `fetch` to the scrape service, and
      `requested` is the URL it is asked for (`None` when the handler returns before). */
  method HandleRequest(req: Request, apiKey: Option<string>, reply: Upstream)
    returns (resp: Response, requested: Option<string>)
    ensures resp == Respond(req, apiKey, reply)
    ensures requested == RequestedUrl(req, apiKey)
  {
    requested := None;
    if req.Unreadable? {
      return Failure(500, req.message), None;
    }
    var channelUrl := req.channelUrl;
    if !Truthy(channelUrl) {
      return Failure(400, "Channel URL is required"), None;
    }
    if !Truthy(apiKey) {
      return Failure(500, "Scraper not configured"), None;
    }
    var webUrl := PreviewUrl(channelUrl.value);
    requested := Some(webUrl);
    if reply.Threw? {
      return Failure(500, reply.message), requested;
    }
    if !reply.ok {
      return Failure(reply.status, FirstTruthy(reply.error, None, "Scrape failed")), requested;
    }
    var html := FirstTruthy(reply.nestedHtml, reply.html, "");
    var markdown := FirstTruthy(reply.nestedMarkdown, reply.markdown, "");
    var ads := ScrapePage(html, markdown, channelUrl.value, req.adType.GetOr("group"));
    resp := Success(Take(ads, 30), webUrl);
  }

  /** The step-wise rewriting of `webUrl`. */
  method PreviewUrl(channelUrl: string) returns (webUrl: string)
    ensures webUrl == NormalizedUrl(channelUrl)
  {
    webUrl := Trim(channelUrl);
    webUrl := ReplaceFirst(webUrl, "/s/", "/");
    var channelMatch := MatchHandle(webUrl, false);
    if channelMatch.Some? {
      webUrl := "https://t.me/s/" + channelMatch.value;
    } else if !("https://" <= webUrl) {
      webUrl := "https://t.me/s/" + webUrl;
    }
  }

  /** Images, candidate links, sections, the primary loop and, when it found nothing, the
      fallback loop. */
  method ScrapePage(html: string, markdown: string, channelUrl: string, adType: string)
    returns (ads: seq<ScrapedAd>)
    ensures ads == PageAds(html, markdown, channelUrl, adType)
  {
    var images := ExtractImages(html);
    var uniqueLinks := UniqueLinks(markdown, SourceChannel(channelUrl));
    ads := PrimaryPass(uniqueLinks, Sections(markdown), images, adType);
    if |ads| == 0 {
      ads := FallbackPass(markdown, images, adType);
    }
  }

  /** The guards: no URL gives 400 whatever the key and the service, and no key gives 500;
      neither reaches the scrape service. A success needs both and an `ok` reply, and
      then holds at most thirty ads and the preview URL, which starts with `https://`. */
  lemma RespondOutcomes(req: Request, apiKey: Option<string>, reply: Upstream)
    ensures req.Body? && !Truthy(req.channelUrl) ==>
      Respond(req, apiKey, reply) == Failure(400, "Channel URL is required") && RequestedUrl(req, apiKey).None?
    ensures req.Body? && Truthy(req.channelUrl) && !Truthy(apiKey) ==>
      Respond(req, apiKey, reply) == Failure(500, "Scraper not configured") && RequestedUrl(req, apiKey).None?
    ensures Respond(req, apiKey, reply).Success? <==>
      req.Body? && Truthy(req.channelUrl) && Truthy(apiKey) && reply.Replied? && reply.ok
    ensures Respond(req, apiKey, reply).Success? ==>
      var r := Respond(req, apiKey, reply);
      |r.ads| <= 30 && Some(r.channelUrl) == RequestedUrl(req, apiKey) && "https://" <= r.channelUrl
    ensures reply.Replied? && !reply.ok && RequestedUrl(req, apiKey).Some? ==>
      Respond(req, apiKey, reply) == Failure(reply.status, FirstTruthy(reply.error, None, "Scrape failed"))
  {
  }
}
