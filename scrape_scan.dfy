/** Hand-written scanners for the regular expressions of the Telegram preview
    extractor (supabase/functions/scrape-telegram/index.ts). Each follows the
    JavaScript matching rule: the leftmost position where the pattern matches,
    with greedy quantifiers; a global scan resumes after each match. */
module ScrapeScan {
  import opened Wrappers
  import opened Text

  /** Character equality, under ASCII case folding when the regex has the `i` flag. */
  predicate FoldEq(a: char, b: char, ci: bool)
  {
    if ci then LowerChar(a) == LowerChar(b) else a == b
  }

  /** The literal `pat` occurs in `s` at index `i`. */
  predicate MatchesAt(s: string, i: nat, pat: string, ci: bool)
  {
    i + |pat| <= |s| && forall k :: 0 <= k < |pat| ==> FoldEq(s[i + k], pat[k], ci)
  }

  /** A literal match survives cutting the string down to a slice that holds it. */
  lemma MatchesInSlice(s: string, a: nat, b: nat, j: nat, pat: string, ci: bool)
    requires a <= b <= |s| && a + j + |pat| <= b
    ensures MatchesAt(s, a + j, pat, ci) <==> MatchesAt(s[a..b], j, pat, ci)
  {
    var x := s[a..b];
    assert forall k :: 0 <= k < |pat| ==> (FoldEq(x[j + k], pat[k], ci) <==> FoldEq(s[a + j + k], pat[k], ci));
  }

  /** Length of the run of `[a-zA-Z0-9_]` characters starting at `i`. */
  function WordRun(s: string, i: nat): (n: nat)
    requires i <= |s|
    ensures i + n <= |s|
    ensures forall k :: i <= k < i + n ==> IsWordChar(s[k])
    ensures i + n < |s| ==> !IsWordChar(s[i + n])
    decreases |s| - i
  {
    if i < |s| && IsWordChar(s[i]) then 1 + WordRun(s, i + 1) else 0
  }

  // ---------------------------------------------------------------------------
  // `/t\.me\/([a-zA-Z0-9_]+)/` and `/t\.me\/(?:s\/)?([a-zA-Z0-9_]+)/i`

  /** The handle captured by a `t.me/` match at `i`, if the pattern matches there. */
  function HandleAt(s: string, i: nat, ci: bool): (r: Option<string>)
    ensures r.Some? ==> |r.value| > 0 && AllWordChars(r.value)
  {
    if MatchesAt(s, i, "t.me/", ci) && i + 5 < |s| && IsWordChar(s[i + 5]) then
      var n := WordRun(s, i + 5);
      Some(s[i + 5..i + 5 + n])
    else None
  }

  /** `s.match(/t\.me\/([a-zA-Z0-9_]+)/)[1]` from index `i` on (`ci`: with the `i` flag). */
  function MatchHandleFrom(s: string, ci: bool, i: nat): (r: Option<string>)
    requires i <= |s|
    ensures r.Some? ==> |r.value| > 0 && AllWordChars(r.value)
    decreases |s| - i
  {
    if i == |s| then None
    else if HandleAt(s, i, ci).Some? then HandleAt(s, i, ci)
    else MatchHandleFrom(s, ci, i + 1)
  }

  /** A handle found by the scan is the one of the leftmost match at or after `i`. */
  lemma {:induction false} MatchHandleFromFirst(s: string, ci: bool, i: nat) returns (q: nat)
    requires i <= |s| && MatchHandleFrom(s, ci, i).Some?
    ensures i <= q < |s| && HandleAt(s, q, ci) == MatchHandleFrom(s, ci, i)
    ensures forall q' :: i <= q' < q ==> HandleAt(s, q', ci).None?
    decreases |s| - i
  {
    if HandleAt(s, i, ci).Some? {
      q := i;
    } else {
      q := MatchHandleFromFirst(s, ci, i + 1);
    }
  }

  /** The scan finds nothing only when the pattern matches nowhere from `i` on. */
  lemma {:induction false} MatchHandleFromNone(s: string, ci: bool, i: nat)
    requires i <= |s| && MatchHandleFrom(s, ci, i).None?
    ensures forall q :: i <= q < |s| ==> HandleAt(s, q, ci).None?
    decreases |s| - i
  {
    if i < |s| {
      MatchHandleFromNone(s, ci, i + 1);
    }
  }

  function MatchHandle(s: string, ci: bool): (r: Option<string>)
    ensures r.Some? ==> |r.value| > 0 && AllWordChars(r.value)
  {
    MatchHandleFrom(s, ci, 0)
  }

  /** A `t.me/` match needs the `.` right after its first character. */
  lemma HandleNeedsDot(s: string, q: nat, ci: bool)
    ensures HandleAt(s, q, ci).Some? ==> q + 1 < |s| && s[q + 1] == '.'
  {
    if HandleAt(s, q, ci).Some? {
      assert FoldEq(s[q + 1], "t.me/"[1], ci);
    }
  }

  /** When the handle pattern can match only at `j`, the scan finds what matches there. */
  lemma {:induction false} MatchHandleOnlyAt(s: string, ci: bool, i: nat, j: nat)
    requires i <= j < |s|
    requires forall q :: i <= q < |s| && q != j ==> HandleAt(s, q, ci).None?
    ensures MatchHandleFrom(s, ci, i) == HandleAt(s, j, ci)
    decreases j - i
  {
    if i < j {
      MatchHandleOnlyAt(s, ci, i + 1, j);
    } else if HandleAt(s, j, ci).None? {
      MatchHandleNowhere(s, ci, j + 1);
    }
  }

  lemma {:induction false} MatchHandleNowhere(s: string, ci: bool, i: nat)
    requires i <= |s|
    requires forall q :: i <= q < |s| ==> HandleAt(s, q, ci).None?
    ensures MatchHandleFrom(s, ci, i).None?
    decreases |s| - i
  {
    if i < |s| {
      MatchHandleNowhere(s, ci, i + 1);
    }
  }

  /** The handle of a `t.me/(?:s/)?` match at `i`: the optional `s/` is taken when a
      handle follows it, and otherwise the pattern backtracks to capture from `s` itself. */
  function SourceAt(s: string, i: nat): (r: Option<string>)
    ensures r.Some? ==> |r.value| > 0 && AllWordChars(r.value)
  {
    if !MatchesAt(s, i, "t.me/", true) then None
    else if MatchesAt(s, i + 5, "s/", true) && i + 7 < |s| && IsWordChar(s[i + 7]) then
      Some(s[i + 7..i + 7 + WordRun(s, i + 7)])
    else if i + 5 < |s| && IsWordChar(s[i + 5]) then
      Some(s[i + 5..i + 5 + WordRun(s, i + 5)])
    else None
  }

  function SourceFrom(s: string, i: nat): (r: Option<string>)
    requires i <= |s|
    ensures r.Some? ==> |r.value| > 0 && AllWordChars(r.value)
    decreases |s| - i
  {
    if i == |s| then None
    else if SourceAt(s, i).Some? then SourceAt(s, i)
    else SourceFrom(s, i + 1)
  }

  /** The source channel: the lowered handle of the requested URL, or `""` without one. */
  function SourceChannel(channelUrl: string): (r: string)
    ensures forall k :: 0 <= k < |r| ==> !('A' <= r[k] <= 'Z')
  {
    match SourceFrom(channelUrl, 0)
    case Some(h) => Lower(h)
    case None => ""
  }

  // ---------------------------------------------------------------------------
  // `/https?:\/\/t\.me\/([a-zA-Z0-9_]+)/gi`

  /** Where `://t.me/` must start in a link match at `i`: after `https` or `http`. */
  function SchemeEnd(s: string, i: nat): nat
  {
    if i + 4 < |s| && LowerChar(s[i + 4]) == 's' then i + 5 else i + 4
  }

  /** Length of the link match at `i`, or 0 when there is none. */
  function LinkAt(s: string, i: nat): (n: nat)
    ensures n > 0 ==> i + n <= |s|
  {
    var p := SchemeEnd(s, i);
    if MatchesAt(s, i, "http", true) && MatchesAt(s, p, "://t.me/", true)
       && p + 8 < |s| && IsWordChar(s[p + 8])
    then p + 8 + WordRun(s, p + 8) - i
    else 0
  }

  /** The shape of every matched link: `http` or `https`, `://t.me/`, then a handle,
      with letters in any case. */
  predicate IsLink(x: string)
  {
    var p := SchemeEnd(x, 0);
    && MatchesAt(x, 0, "http", true)
    && MatchesAt(x, p, "://t.me/", true)
    && p + 8 < |x|
    && AllWordChars(x[p + 8..])
  }

  /** The handle of a link, in its original case. */
  function LinkHandle(x: string): (h: string)
    requires IsLink(x)
    ensures |h| > 0 && AllWordChars(h)
  {
    x[SchemeEnd(x, 0) + 8..]
  }

  lemma LinkAtIsLink(s: string, i: nat)
    requires LinkAt(s, i) > 0
    ensures IsLink(s[i..i + LinkAt(s, i)])
  {
    var n := LinkAt(s, i);
    var p := SchemeEnd(s, i);
    SchemeEndInSlice(s, i, i + n);
    MatchesInSlice(s, i, i + n, 0, "http", true);
    MatchesInSlice(s, i, i + n, p - i, "://t.me/", true);
    LinkTailInSlice(s, i, p + 8, i + n);
  }

  /** Cutting out a slice that starts at `i` and is longer than `https` keeps where the
      scheme ends. */
  lemma SchemeEndInSlice(s: string, i: nat, j: nat)
    requires i + 5 < j <= |s|
    ensures SchemeEnd(s[i..j], 0) == SchemeEnd(s, i) - i
  {
    assert s[i..j][4] == s[i + 4];
  }

  /** The handle run after `t.me/` stays all word characters in the cut-out link. */
  lemma LinkTailInSlice(s: string, i: nat, h: nat, j: nat)
    requires i <= h <= j <= |s| && h < |s|
    requires j == h + WordRun(s, h)
    ensures AllWordChars(s[i..j][h - i..])
  {
    assert s[i..j][h - i..] == s[h..j];
  }

  /** All link matches from index `i` on: `markdown.match(regex) || []`. */
  function LinksFrom(s: string, i: nat): (r: seq<string>)
    requires i <= |s|
    ensures forall k :: 0 <= k < |r| ==> IsLink(r[k])
    decreases |s| - i
  {
    if i == |s| then []
    else if LinkAt(s, i) > 0 then
      LinkAtIsLink(s, i);
      [s[i..i + LinkAt(s, i)]] + LinksFrom(s, i + LinkAt(s, i))
    else LinksFrom(s, i + 1)
  }

  function AllLinks(markdown: string): (r: seq<string>)
    ensures forall k :: 0 <= k < |r| ==> IsLink(r[k])
  {
    LinksFrom(markdown, 0)
  }

  /** In a link, the only `.` is the one of `t.me`. */
  lemma LinkNoDot(x: string, k: nat)
    requires IsLink(x) && k < |x| && k != SchemeEnd(x, 0) + 4
    ensures x[k] != '.'
  {
    var p := SchemeEnd(x, 0);
    if k < 4 {
      assert FoldEq(x[k], "http"[k], true);
    } else if k == 4 && p == 5 {
      assert LowerChar(x[4]) == 's';
    } else if k < p + 8 {
      assert FoldEq(x[p + (k - p)], "://t.me/"[k - p], true);
    } else {
      assert x[p + 8..][k - p - 8] == x[k];
    }
  }

  /** The handle pattern finds a link's own handle under the `i` flag, and without the
      flag exactly when the host is written `t.me` in lower case. */
  lemma LinkHandleMatch(x: string, ci: bool)
    requires IsLink(x)
    ensures var p := SchemeEnd(x, 0);
      MatchHandle(x, ci) == if MatchesAt(x, p + 3, "t.me/", ci) then Some(LinkHandle(x)) else None
  {
    var p := SchemeEnd(x, 0);
    LinkHandleOnlyAtHost(x, ci);
    LinkHandleAtHost(x, ci);
    MatchHandleOnlyAt(x, ci, 0, p + 3);
  }

  /** In a link, the handle pattern can match only at the `t` of `t.me`. */
  lemma LinkHandleOnlyAtHost(x: string, ci: bool)
    requires IsLink(x)
    ensures forall q :: 0 <= q < |x| && q != SchemeEnd(x, 0) + 3 ==> HandleAt(x, q, ci).None?
  {
    var p := SchemeEnd(x, 0);
    forall q | 0 <= q < |x| && q != p + 3
      ensures HandleAt(x, q, ci).None?
    {
      if q + 1 < |x| {
        LinkNoDot(x, q + 1);
        assert !FoldEq(x[q + 1], "t.me/"[1], ci);
      }
    }
  }

  /** At the `t` of `t.me` the handle pattern captures the link's handle, provided the
      host is spelled as the flag demands. */
  lemma LinkHandleAtHost(x: string, ci: bool)
    requires IsLink(x)
    ensures var p := SchemeEnd(x, 0);
      HandleAt(x, p + 3, ci) == if MatchesAt(x, p + 3, "t.me/", ci) then Some(LinkHandle(x)) else None
  {
    var p := SchemeEnd(x, 0);
    assert IsWordChar(x[p + 8]) by {
      assert x[p + 8..][0] == x[p + 8];
    }
    WordRunAll(x, p + 8);
    assert x[p + 8..p + 8 + WordRun(x, p + 8)] == x[p + 8..];
  }

  lemma {:induction false} WordRunAll(x: string, i: nat)
    requires i <= |x| && AllWordChars(x[i..])
    ensures WordRun(x, i) == |x| - i
    decreases |x| - i
  {
    if i < |x| {
      assert x[i..][0] == x[i];
      assert x[i + 1..] == x[i..][1..];
      WordRunAll(x, i + 1);
    }
  }

  // ---------------------------------------------------------------------------
  // `/<img[^>]+src="([^"]+)"[^>]*>/gi`

  /** Index of the first `c` at or after `i`, or `|s|` when there is none. */
  function NextChar(s: string, i: nat, c: char): (k: nat)
    requires i <= |s|
    ensures i <= k <= |s|
    ensures forall j :: i <= j < k ==> s[j] != c
    ensures k < |s| ==> s[k] == c
    decreases |s| - i
  {
    if i == |s| || s[i] == c then i else NextChar(s, i + 1, c)
  }

  /** From a `src="` at `p` the rest of the pattern matches: a non-empty value up to the
      next `"`, and a `>` somewhere after it. */
  predicate SrcCompletes(s: string, p: nat)
  {
    && MatchesAt(s, p, "src=\"", true)
    && var q := NextChar(s, p + 5, '"');
       p + 5 < q < |s| && NextChar(s, q + 1, '>') < |s|
  }

  /** The greedy `[^>]+` backtracks from the longest run: the last `p` in `[lo, hi)`
      where the rest of the pattern matches. */
  function LastSrc(s: string, lo: nat, hi: nat): (r: Option<nat>)
    requires lo <= hi
    ensures r.Some? ==> lo <= r.value < hi && SrcCompletes(s, r.value)
    decreases hi - lo
  {
    if hi == lo then None
    else if SrcCompletes(s, hi - 1) then Some(hi - 1)
    else LastSrc(s, lo, hi - 1)
  }

  /** `LastSrc` finds the last place in `[lo, hi)` where the pattern completes, and finds
      nothing only when it completes nowhere there. */
  lemma {:induction false} LastSrcIsLast(s: string, lo: nat, hi: nat)
    requires lo <= hi
    ensures LastSrc(s, lo, hi).Some? ==> forall p :: LastSrc(s, lo, hi).value < p < hi ==> !SrcCompletes(s, p)
    ensures LastSrc(s, lo, hi).None? ==> forall p :: lo <= p < hi ==> !SrcCompletes(s, p)
    decreases hi - lo
  {
    if hi > lo {
      if SrcCompletes(s, hi - 1) {
        assert LastSrc(s, lo, hi) == Some(hi - 1);
      } else {
        LastSrcIsLast(s, lo, hi - 1);
        LastSrcSkips(s, lo, hi);
        var from := if LastSrc(s, lo, hi - 1).Some? then LastSrc(s, lo, hi - 1).value + 1 else lo;
        assert forall p :: from <= p < hi - 1 ==> !SrcCompletes(s, p);
        NoneCompleteUpTo(s, from, hi);
      }
    }
  }

  /** Extending a stretch where the pattern completes nowhere by one more such index. */
  lemma NoneCompleteUpTo(s: string, from: nat, hi: nat)
    requires from <= hi
    requires hi > 0 && !SrcCompletes(s, hi - 1)
    requires forall p :: from <= p < hi - 1 ==> !SrcCompletes(s, p)
    ensures forall p :: from <= p < hi ==> !SrcCompletes(s, p)
  {
  }

  lemma LastSrcSkips(s: string, lo: nat, hi: nat)
    requires lo < hi && !SrcCompletes(s, hi - 1)
    ensures LastSrc(s, lo, hi) == LastSrc(s, lo, hi - 1)
  {
  }

  /** One image-tag match: the captured `src` value and the index after the match. */
  datatype ImageMatch = ImageMatch(src: string, next: nat)

  /** The image-tag match at `i`, if the pattern matches there. */
  function ImageAt(s: string, i: nat): (r: Option<ImageMatch>)
    ensures r.Some? ==> i < r.value.next <= |s| && |r.value.src| > 0 && '"' !in r.value.src
  {
    if !MatchesAt(s, i, "<img", true) then None
    else
      var e := NextChar(s, i + 4, '>');
      if e < i + 5 then None
      else match LastSrc(s, i + 5, e)
        case None => None
        case Some(p) =>
          var q := NextChar(s, p + 5, '"');
          var f := NextChar(s, q + 1, '>');
          Some(ImageMatch(s[p + 5..q], f + 1))
  }

  /** `imageRegex.exec(html)` with `lastIndex` at `i`: the leftmost match at or after `i`. */
  function NextImage(s: string, i: nat): (r: Option<ImageMatch>)
    requires i <= |s|
    ensures r.Some? ==> i < r.value.next <= |s| && |r.value.src| > 0
    decreases |s| - i
  {
    if i == |s| then None
    else if ImageAt(s, i).Some? then ImageAt(s, i)
    else NextImage(s, i + 1)
  }

  /** The `src` values of all image-tag matches from index `i` on, in document order. */
  function ImageSourcesFrom(s: string, i: nat): seq<string>
    requires i <= |s|
    decreases |s| - i
  {
    match NextImage(s, i)
    case None => []
    case Some(m) => [m.src] + ImageSourcesFrom(s, m.next)
  }

  /** Whether an image source is kept: a Telegram CDN file that is not an emoji or an icon. */
  predicate KeptImage(src: string)
  {
    src != "" && !Contains(src, "emoji") && !Contains(src, "icon") && Contains(src, "telesco.pe")
  }
}
