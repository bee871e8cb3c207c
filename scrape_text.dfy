/** The text side of the Telegram preview extractor: `cleanText`, the split of the
    page markdown into post sections, and the member-count pattern
    (supabase/functions/scrape-telegram/index.ts). */
module ScrapeText {
  import opened Wrappers
  import opened Text
  import opened ScrapeScan

  // ---------------------------------------------------------------------------
  // cleanText

  /** The patterns `cleanText` deletes globally. */
  datatype Markup =
    | ImageMarkdown   // `!\[[^\]]*\]\([^)]+\)`
    | LinkMarkdown    // `\[[^\]]*\]\([^)]+\)`
    | Url             // `https?:\/\/[^\s]+`
    | EmptyParens     // `\(\)`

  /** Length of a `[…](…)` match at `i`: no `]` inside the brackets, at least one
      character and no `)` inside the parentheses. 0 when there is none. */
  function BracketLinkAt(s: string, i: nat): (n: nat)
    ensures n > 0 ==> i + n <= |s|
  {
    if !(i < |s| && s[i] == '[') then 0
    else
      var b := NextChar(s, i + 1, ']');
      if !(b + 1 < |s| && s[b + 1] == '(') then 0
      else
        var c := NextChar(s, b + 2, ')');
        if b + 2 < c < |s| then c + 1 - i else 0
  }

  /** Length of a `https?://` followed by at least one non-space, 0 when there is none. */
  function UrlAt(s: string, i: nat): (n: nat)
    ensures n > 0 ==> i + n <= |s|
  {
    var p := if i + 4 < |s| && s[i + 4] == 's' then i + 5 else i + 4;
    if MatchesAt(s, i, "http", false) && MatchesAt(s, p, "://", false) && p + 3 < |s| && !IsSpace(s[p + 3])
    then NonSpaceRun(s, p + 3) + p + 3 - i
    else 0
  }

  function NonSpaceRun(s: string, i: nat): (n: nat)
    requires i <= |s|
    ensures i + n <= |s|
    decreases |s| - i
  {
    if i < |s| && !IsSpace(s[i]) then 1 + NonSpaceRun(s, i + 1) else 0
  }

  /** Length of the match of `m` at the start of `s`, 0 when `m` does not match there. */
  function MarkupLength(m: Markup, s: string): (n: nat)
    ensures n <= |s|
  {
    match m
    case ImageMarkdown =>
      if |s| > 0 && s[0] == '!' && BracketLinkAt(s, 1) > 0 then 1 + BracketLinkAt(s, 1) else 0
    case LinkMarkdown => BracketLinkAt(s, 0)
    case Url => UrlAt(s, 0)
    case EmptyParens => if MatchesAt(s, 0, "()", false) then 2 else 0
  }

  /** `s.replace(/m/g, '')`: leftmost matches are deleted and scanning resumes after each. */
  function RemoveMarkup(m: Markup, s: string): (r: string)
    ensures |r| <= |s|
    decreases |s|
  {
    if |s| == 0 then ""
    else
      var n := MarkupLength(m, s);
      if n > 0 then RemoveMarkup(m, s[n..])
      else [s[0]] + RemoveMarkup(m, s[1..])
  }

  /** Removing markup only deletes characters. */
  lemma {:induction false} RemoveMarkupChars(m: Markup, s: string)
    ensures forall c :: c in RemoveMarkup(m, s) ==> c in s
    decreases |s|
  {
    if |s| > 0 {
      var n := MarkupLength(m, s);
      if n > 0 {
        RemoveMarkupChars(m, s[n..]);
        InSuffix(s, n);
      } else {
        RemoveMarkupChars(m, s[1..]);
        InSuffix(s, 1);
      }
    }
  }

  /** The characters `[*_#`]` that `cleanText` strips. */
  predicate IsFormatting(c: char)
  {
    c == '*' || c == '_' || c == '#' || c == '`'
  }

  function StripFormatting(s: string): string
  {
    if |s| == 0 then ""
    else (if IsFormatting(s[0]) then "" else [s[0]]) + StripFormatting(s[1..])
  }

  /** Stripping keeps only characters of `s` that are not formatting characters. */
  lemma {:induction false} StripFormattingChars(s: string)
    ensures forall c :: c in StripFormatting(s) ==> c in s && !IsFormatting(c)
  {
    if |s| > 0 {
      StripFormattingChars(s[1..]);
    }
  }

  /** Number of leading newlines. */
  function NewlineRun(s: string): (n: nat)
    ensures n <= |s|
    ensures forall k :: 0 <= k < n ==> s[k] == '\n'
    ensures n < |s| ==> s[n] != '\n'
  {
    if |s| > 0 && s[0] == '\n' then 1 + NewlineRun(s[1..]) else 0
  }

  /** `s.replace(/\n{3,}/g, '\n\n')`. */
  function CollapseNewlines(s: string): (r: string)
    ensures !Contains(r, "\n\n\n")
    ensures |s| > 0 ==> |r| > 0 && (r[0] == '\n' <==> s[0] == '\n')
    decreases |s|
  {
    if |s| == 0 then ""
    else
      var n := NewlineRun(s);
      if n == 0 then
        var rest := CollapseNewlines(s[1..]);
        NoTripleAfter([s[0]], rest);
        [s[0]] + rest
      else
        var rest := CollapseNewlines(s[n..]);
        var run := if n >= 3 then "\n\n" else s[..n];
        assert forall k :: 0 <= k < |run| ==> run[k] == '\n';
        NoTripleAfter(run, rest);
        run + rest
  }

  /** Collapsing newline runs only deletes newlines. */
  lemma {:induction false} CollapseNewlinesChars(s: string)
    ensures forall c :: c in CollapseNewlines(s) ==> c in s
    decreases |s|
  {
    if |s| > 0 {
      var n := NewlineRun(s);
      if n == 0 {
        CollapseNewlinesChars(s[1..]);
        InSuffix(s, 1);
      } else {
        CollapseNewlinesChars(s[n..]);
        InSuffix(s, n);
        var run := if n >= 3 then "\n\n" else s[..n];
        assert forall c :: c in run ==> c == s[0];
      }
    }
  }

  /** One or two newlines followed by a string that does not start with one, or a single
      other character followed by anything, add no three newlines in a row. */
  lemma {:induction false} NoTripleAfter(a: string, b: string)
    requires 0 < |a|
    requires || (|a| <= 2 && (forall k :: 0 <= k < |a| ==> a[k] == '\n') && (|b| > 0 ==> b[0] != '\n'))
             || (|a| == 1 && a[0] != '\n')
    requires !Contains(b, "\n\n\n")
    ensures !Contains(a + b, "\n\n\n")
    decreases |a|
  {
    var t := "\n\n\n";
    assert !(t <= a + b) by {
      if |a + b| >= 3 {
        if a[0] != '\n' {
          assert (a + b)[0] != t[0];
        } else if |a| == 1 {
          assert (a + b)[1] == b[0];
        } else {
          assert (a + b)[2] == b[0];
        }
      }
    }
    if |a| == 2 {
      assert (a + b)[1..] == a[1..] + b;
      NoTripleAfter(a[1..], b);
    } else {
      assert (a + b)[1..] == b;
    }
  }

  /** A piece cut out of a string without three newlines in a row has none either. */
  lemma NoTripleInSlice(s: string, i: nat, j: nat)
    requires i <= j <= |s| && !Contains(s, "\n\n\n")
    ensures !Contains(s[i..j], "\n\n\n")
  {
    if Contains(s[i..j], "\n\n\n") {
      var k := ContainsWitness(s[i..j], "\n\n\n");
      assert s[i + k..][..3] == s[i..j][k..][..3];
      ContainsAt(s, "\n\n\n", i + k);
    }
  }

  /** `cleanText`: markdown images and links, URLs, formatting characters and `()` are
      deleted, runs of three or more newlines become two, and the ends are trimmed. */
  function CleanText(text: string): string
  {
    var s1 := RemoveMarkup(ImageMarkdown, text);
    var s2 := RemoveMarkup(LinkMarkdown, s1);
    var s3 := RemoveMarkup(Url, s2);
    var s4 := StripFormatting(s3);
    var s5 := RemoveMarkup(EmptyParens, s4);
    Trim(CollapseNewlines(s5))
  }

  /** The cleaned text holds no formatting character, no three newlines in a row,
      and no white space at either end; every character comes from the input. */
  lemma CleanTextIsClean(text: string)
    ensures var r := CleanText(text);
      && (forall c :: c in r ==> c in text && !IsFormatting(c))
      && !Contains(r, "\n\n\n")
      && (|r| > 0 ==> !IsSpace(r[0]) && !IsSpace(r[|r| - 1]))
  {
    CleanTextChars(text);
    CleanTextNoTriple(text);
  }

  lemma CleanTextChars(text: string)
    ensures forall c :: c in CleanText(text) ==> c in text && !IsFormatting(c)
  {
    var s1 := RemoveMarkup(ImageMarkdown, text);
    var s2 := RemoveMarkup(LinkMarkdown, s1);
    var s3 := RemoveMarkup(Url, s2);
    var s4 := StripFormatting(s3);
    var s5 := RemoveMarkup(EmptyParens, s4);
    var s6 := CollapseNewlines(s5);
    RemoveMarkupChars(ImageMarkdown, text);
    RemoveMarkupChars(LinkMarkdown, s1);
    RemoveMarkupChars(Url, s2);
    assert forall c :: c in s3 ==> c in text;
    StripFormattingChars(s3);
    RemoveMarkupChars(EmptyParens, s4);
    CollapseNewlinesChars(s5);
    assert forall c :: c in s6 ==> c in text && !IsFormatting(c);
    TrimChars(s6);
  }

  lemma CleanTextNoTriple(text: string)
    ensures !Contains(CleanText(text), "\n\n\n")
  {
    var s5 := RemoveMarkup(EmptyParens, StripFormatting(RemoveMarkup(Url, RemoveMarkup(LinkMarkdown, RemoveMarkup(ImageMarkdown, text)))));
    TrimNoTriple(CollapseNewlines(s5));
  }

  lemma TrimNoTriple(s: string)
    requires !Contains(s, "\n\n\n")
    ensures !Contains(Trim(s), "\n\n\n")
  {
    var a := LeadingSpaces(s);
    NoTripleInSlice(s, a, a + |Trim(s)|);
  }

  /** Every character of the trimmed string occurs in the string. */
  lemma TrimChars(s: string)
    ensures forall c :: c in Trim(s) ==> c in s
  {
    var r := Trim(s);
    var a := LeadingSpaces(s);
    forall c | c in r
      ensures c in s
    {
      var k :| 0 <= k < |r| && r[k] == c;
      assert s[a + k] == c;
    }
  }

  // ---------------------------------------------------------------------------
  // `markdown.split(/\n---\n|\n\*\*\*\n|\n_{3,}\n|\n\d{1,2}:\d{2}\n/)`

  function UnderscoreRun(s: string, i: nat): (n: nat)
    requires i <= |s|
    ensures i + n <= |s|
    ensures i + n < |s| ==> s[i + n] != '_'
    decreases |s| - i
  {
    if i < |s| && s[i] == '_' then 1 + UnderscoreRun(s, i + 1) else 0
  }

  predicate DigitAt(s: string, i: nat)
  {
    i < |s| && IsDigit(s[i])
  }

  /** Length of a clock-time separator `\n9:99\n` or `\n99:99\n` at `i`, 0 if none. Two
      hour digits are tried first; backing off to one leaves a digit where `:` must be. */
  function TimeSeparatorAt(s: string, i: nat): (n: nat)
    ensures n > 0 ==> i + n <= |s|
  {
    if DigitAt(s, i + 1) && DigitAt(s, i + 2) then
      if MatchesAt(s, i + 3, ":", false) && DigitAt(s, i + 4) && DigitAt(s, i + 5)
         && MatchesAt(s, i + 6, "\n", false) then 7 else 0
    else if DigitAt(s, i + 1) && MatchesAt(s, i + 2, ":", false) && DigitAt(s, i + 3)
         && DigitAt(s, i + 4) && MatchesAt(s, i + 5, "\n", false) then 6
    else 0
  }

  /** Length of a post separator at `i` (the first alternative that matches), 0 if none. */
  function SeparatorAt(s: string, i: nat): (n: nat)
    ensures n > 0 ==> i + n <= |s|
  {
    if !MatchesAt(s, i, "\n", false) then 0
    else if MatchesAt(s, i, "\n---\n", false) then 5
    else if MatchesAt(s, i, "\n***\n", false) then 5
    else
      var u := UnderscoreRun(s, i + 1);
      if u >= 3 && MatchesAt(s, i + 1 + u, "\n", false) then u + 2
      else
        TimeSeparatorAt(s, i)
  }

  /** `split` from scan index `q`, with the current piece starting at `p`: each separator
      ends a piece, and what follows the last one is the final piece. */
  function SplitFrom(s: string, p: nat, q: nat): (r: seq<string>)
    requires p <= q <= |s|
    ensures |r| >= 1
    decreases |s| - q
  {
    if q == |s| then [s[p..]]
    else
      var n := SeparatorAt(s, q);
      if n > 0 then [s[p..q]] + SplitFrom(s, q + n, q + n)
      else SplitFrom(s, p, q + 1)
  }

  /** The post sections of the page markdown; there is always at least one. */
  function Sections(markdown: string): (r: seq<string>)
    ensures |r| >= 1
  {
    SplitFrom(markdown, 0, 0)
  }

  /** Text with no separator anywhere is a single section. */
  lemma {:induction false} SplitNoSeparator(s: string, p: nat, q: nat)
    requires p <= q <= |s|
    requires forall k :: q <= k < |s| ==> SeparatorAt(s, k) == 0
    ensures SplitFrom(s, p, q) == [s[p..]]
    decreases |s| - q
  {
    if q < |s| {
      SplitNoSeparator(s, p, q + 1);
    }
  }

  // ---------------------------------------------------------------------------
  // `/(\d+(?:[,\s]\d+)*)\s*(عضو|نفر|member|k\s*عضو)/i`

  function DigitRun(s: string, i: nat): (n: nat)
    requires i <= |s|
    ensures i + n <= |s|
    ensures forall k :: i <= k < i + n ==> IsDigit(s[k])
    decreases |s| - i
  {
    if i < |s| && IsDigit(s[i]) then 1 + DigitRun(s, i + 1) else 0
  }

  function SpaceRun(s: string, i: nat): (n: nat)
    requires i <= |s|
    ensures i + n <= |s|
    decreases |s| - i
  {
    if i < |s| && IsSpace(s[i]) then 1 + SpaceRun(s, i + 1) else 0
  }

  predicate IsCountSeparator(c: char)
  {
    c == ',' || IsSpace(c)
  }

  /** End of the greedy `\d+(?:[,\s]\d+)*` that starts with the digit at `i`: digit runs
      joined by single commas or spaces. */
  function CountEnd(s: string, i: nat): (e: nat)
    requires i <= |s|
    ensures i <= e <= |s|
    ensures forall k :: i <= k < e ==> IsDigit(s[k]) || IsCountSeparator(s[k])
    decreases |s| - i
  {
    var e := i + DigitRun(s, i);
    if e + 1 < |s| && IsCountSeparator(s[e]) && IsDigit(s[e + 1]) then CountEnd(s, e + 1) else e
  }

  /** Which unit follows: the `k` alternative counts thousands. */
  datatype Unit = NoUnit | Ones | Thousands

  /** The unit alternatives at `w`, in the order of the pattern. */
  function UnitAt(s: string, w: nat): Unit
  {
    if MatchesAt(s, w, "عضو", true) || MatchesAt(s, w, "نفر", true) || MatchesAt(s, w, "member", true)
    then Ones
    else if w < |s| && LowerChar(s[w]) == 'k' && MatchesAt(s, w + 1 + SpaceRun(s, w + 1), "عضو", true)
    then Thousands
    else NoUnit
  }

  /** `count.replace(/[,\s]/g, '')`. */
  function DigitsOnly(s: string): (r: string)
    ensures forall k :: 0 <= k < |r| ==> !IsCountSeparator(r[k])
  {
    if |s| == 0 then ""
    else (if IsCountSeparator(s[0]) then "" else [s[0]]) + DigitsOnly(s[1..])
  }

  function DigitValue(c: char): nat
  {
    if IsDigit(c) then c as int - '0' as int else 0
  }

  /** `parseInt(d, 10)` of a string of decimal digits. */
  function DecimalValue(d: string): nat
  {
    if |d| == 0 then 0 else DecimalValue(d[..|d| - 1]) * 10 + DigitValue(d[|d| - 1])
  }

  /** The member count of a match at `i`. JavaScript backtracking cannot rescue a failed
      greedy parse here: a shorter digit run leaves a digit, and fewer separator groups
      leave a separator followed by a digit, where the pattern needs white space or a unit. */
  function MemberAt(s: string, i: nat): Option<nat>
    requires i <= |s|
  {
    if !DigitAt(s, i) then None
    else
      MemberWith(s, i, CountEnd(s, i))
  }

  /** The member count of a match at `i` whose digits end at `e`. */
  function MemberWith(s: string, i: nat, e: nat): Option<nat>
    requires i <= e <= |s|
  {
    Scaled(UnitAt(s, e + SpaceRun(s, e)), DecimalValue(DigitsOnly(s[i..e])))
  }

  /** The count a unit makes of the digits: none without a unit, thousands for `k`. */
  function Scaled(u: Unit, count: nat): Option<nat>
  {
    match u
    case NoUnit => None
    case Ones => Some(count)
    case Thousands => Some(count * 1000)
  }

  /** The member count of the leftmost match at or after `i`, if any. */
  function MembersFrom(s: string, i: nat): Option<nat>
    requires i <= |s|
    decreases |s| - i
  {
    if i == |s| then None
    else if MemberAt(s, i).Some? then MemberAt(s, i)
    else MembersFrom(s, i + 1)
  }

  function Members(postText: string): Option<nat>
  {
    MembersFrom(postText, 0)
  }

  /** A text without digits mentions no member count. */
  lemma {:induction false} NoDigitsNoMembers(s: string, i: nat)
    requires i <= |s|
    requires forall k :: i <= k < |s| ==> !IsDigit(s[k])
    ensures MembersFrom(s, i).None?
    decreases |s| - i
  {
    if i < |s| {
      NoDigitsNoMembers(s, i + 1);
    }
  }

  predicate AllDigits(d: string)
  {
    forall k :: 0 <= k < |d| ==> IsDigit(d[k])
  }

  /** A text in which no unit alternative occurs mentions no member count, whatever
      digits it holds. */
  lemma {:induction false} NoUnitNoMembers(s: string, i: nat)
    requires i <= |s|
    requires forall w :: UnitAt(s, w) == NoUnit
    ensures MembersFrom(s, i).None?
    decreases |s| - i
  {
    if i < |s| {
      if DigitAt(s, i) {
        var e := CountEnd(s, i);
        assert UnitAt(s, e + SpaceRun(s, e)) == NoUnit;
      }
      NoUnitNoMembers(s, i + 1);
    }
  }

  /** Digit groups joined by single separators: `g0 s0 g1 s1 … gn`. */
  function Joined(groups: seq<string>, seps: string): string
    requires |groups| == |seps| + 1
    decreases |seps|
  {
    if |seps| == 0 then groups[0] else groups[0] + [seps[0]] + Joined(groups[1..], seps[1..])
  }

  /** The groups' digits one after the other. */
  function Concat(groups: seq<string>): string
  {
    if |groups| == 0 then "" else groups[0] + Concat(groups[1..])
  }

  /** What `\d+(?:[,\s]\d+)*` accepts: non-empty digit groups, each pair joined by one
      comma or one white-space character. */
  predicate CountShape(groups: seq<string>, seps: string)
    decreases |seps|
  {
    && |groups| == |seps| + 1
    && |groups[0]| > 0 && AllDigits(groups[0])
    && (|seps| > 0 ==> IsCountSeparator(seps[0]) && CountShape(groups[1..], seps[1..]))
  }

  /** Nothing at `e` extends the count: no digit, and no separator followed by a digit. */
  predicate CountStops(s: string, e: nat)
  {
    && e <= |s|
    && !(e < |s| && IsDigit(s[e]))
    && !(e + 1 < |s| && IsCountSeparator(s[e]) && IsDigit(s[e + 1]))
  }

  /** A joined run starts with its first group. */
  lemma JoinedStart(groups: seq<string>, seps: string)
    requires |groups| == |seps| + 1
    ensures |Joined(groups, seps)| >= |groups[0]|
    ensures Joined(groups, seps)[..|groups[0]|] == groups[0]
  {
  }

  /** A digit run that stops at a non-digit or at the end has the run's length. */
  lemma {:induction false} DigitRunExact(s: string, i: nat, j: nat)
    requires i <= j <= |s| && (j == |s| || !IsDigit(s[j]))
    requires forall k :: i <= k < j ==> IsDigit(s[k])
    ensures DigitRun(s, i) == j - i
    decreases j - i
  {
    if i < j {
      DigitRunExact(s, i + 1, j);
    }
  }

  /** A digit group written at `i` that is followed by a separator and a digit: the
      count goes on after the separator. */
  lemma CountEndStep(s: string, i: nat, g: string)
    requires |g| > 0 && AllDigits(g) && i + |g| + 1 < |s| && s[i..i + |g|] == g
    requires IsCountSeparator(s[i + |g|]) && IsDigit(s[i + |g| + 1])
    ensures CountEnd(s, i) == CountEnd(s, i + |g| + 1)
  {
    forall k | i <= k < i + |g|
      ensures IsDigit(s[k])
    {
      assert s[k] == g[k - i];
    }
    DigitRunExact(s, i, i + |g|);
  }

  /** A digit group written at `i` after which the count cannot go on ends it. */
  lemma CountEndLast(s: string, i: nat, g: string)
    requires |g| > 0 && AllDigits(g) && i + |g| <= |s| && s[i..i + |g|] == g
    requires CountStops(s, i + |g|)
    ensures CountEnd(s, i) == i + |g|
  {
    forall k | i <= k < i + |g|
      ensures IsDigit(s[k])
    {
      assert s[k] == g[k - i];
    }
    DigitRunExact(s, i, i + |g|);
  }

  /** A run of groups starts with a digit. */
  lemma JoinedFirstDigit(groups: seq<string>, seps: string)
    requires CountShape(groups, seps)
    ensures |Joined(groups, seps)| > 0 && IsDigit(Joined(groups, seps)[0])
  {
    JoinedStart(groups, seps);
    assert Joined(groups, seps)[0] == Joined(groups, seps)[..|groups[0]|][0];
  }

  /** Where a run of two or more groups is written at `i`: its first group, the
      separator after it, and the rest of the run. */
  lemma JoinedAt(s: string, i: nat, groups: seq<string>, seps: string)
    requires CountShape(groups, seps) && |seps| > 0
    requires i + |Joined(groups, seps)| <= |s|
    requires s[i..i + |Joined(groups, seps)|] == Joined(groups, seps)
    ensures var g := groups[0]; var rest := Joined(groups[1..], seps[1..]);
      && i + |g| + 1 + |rest| == i + |Joined(groups, seps)|
      && s[i..i + |g|] == g && s[i + |g|] == seps[0]
      && s[i + |g| + 1..i + |g| + 1 + |rest|] == rest
  {
    var rest := Joined(groups[1..], seps[1..]);
    assert Joined(groups, seps) == groups[0] + [seps[0]] + rest;
    ThreeParts(s, i, groups[0], seps[0], rest);
  }

  /** Where the parts of a text written at `i` lie. */
  lemma ThreeParts(s: string, i: nat, x: string, c: char, y: string)
    requires i + |x| + 1 + |y| <= |s| && s[i..i + |x| + 1 + |y|] == x + [c] + y
    ensures s[i..i + |x|] == x && s[i + |x|] == c && s[i + |x| + 1..i + |x| + 1 + |y|] == y
  {
    var t := s[i..i + |x| + 1 + |y|];
    assert s[i..i + |x|] == t[..|x|];
    assert s[i + |x|] == t[|x|];
    assert s[i + |x| + 1..i + |x| + 1 + |y|] == t[|x| + 1..];
  }

  /** The greedy count that starts at `i` covers exactly a run of groups written there,
      when what follows the run cannot extend it. */
  lemma {:induction false} CountEndJoined(s: string, i: nat, groups: seq<string>, seps: string)
    requires CountShape(groups, seps)
    requires i + |Joined(groups, seps)| <= |s|
    requires s[i..i + |Joined(groups, seps)|] == Joined(groups, seps)
    requires CountStops(s, i + |Joined(groups, seps)|)
    ensures CountEnd(s, i) == i + |Joined(groups, seps)|
    decreases |seps|
  {
    if |seps| == 0 {
      CountEndLast(s, i, groups[0]);
    } else {
      CountEndNext(s, i, groups, seps);
      CountEndJoined(s, i + |groups[0]| + 1, groups[1..], seps[1..]);
    }
  }

  /** A run of two or more groups at `i`: the count goes on where the rest of the run
      is written. */
  lemma CountEndNext(s: string, i: nat, groups: seq<string>, seps: string)
    requires CountShape(groups, seps) && |seps| > 0
    requires i + |Joined(groups, seps)| <= |s|
    requires s[i..i + |Joined(groups, seps)|] == Joined(groups, seps)
    ensures var m := i + |groups[0]| + 1; var rest := Joined(groups[1..], seps[1..]);
      && m + |rest| == i + |Joined(groups, seps)|
      && s[m..m + |rest|] == rest
      && CountEnd(s, i) == CountEnd(s, m)
  {
    JoinedAt(s, i, groups, seps);
    var m := i + |groups[0]| + 1;
    var rest := Joined(groups[1..], seps[1..]);
    JoinedFirstDigit(groups[1..], seps[1..]);
    assert s[m] == s[m..m + |rest|][0] == rest[0];
    CountEndStep(s, i, groups[0]);
  }

  /** Removing separators from plain digits changes nothing. */
  lemma {:induction false} DigitsOnlyDigits(d: string)
    requires AllDigits(d)
    ensures DigitsOnly(d) == d
  {
    if |d| > 0 {
      DigitsOnlyDigits(d[1..]);
      assert !IsCountSeparator(d[0]);
    }
  }

  lemma {:induction false} DigitsOnlyAppend(a: string, b: string)
    ensures DigitsOnly(a + b) == DigitsOnly(a) + DigitsOnly(b)
  {
    if |a| > 0 {
      assert (a + b)[0] == a[0];
      assert (a + b)[1..] == a[1..] + b;
      DigitsOnlyAppend(a[1..], b);
    } else {
      assert a + b == b;
    }
  }

  /** `replace(/[,\s]/g, '')` of a run of groups leaves exactly their digits. */
  lemma {:induction false} DigitsOnlyJoined(groups: seq<string>, seps: string)
    requires CountShape(groups, seps)
    ensures DigitsOnly(Joined(groups, seps)) == Concat(groups)
    decreases |seps|
  {
    DigitsOnlyDigits(groups[0]);
    if |seps| == 0 {
      assert groups[1..] == [];
      assert Concat(groups) == groups[0] + Concat(groups[1..]);
    } else {
      var rest := Joined(groups[1..], seps[1..]);
      DigitsOnlyJoined(groups[1..], seps[1..]);
      DigitsOnlyAppend(groups[0] + [seps[0]], rest);
      DigitsOnlyAppend(groups[0], [seps[0]]);
      assert DigitsOnly([seps[0]]) == "" by {
        assert [seps[0]][1..] == [];
      }
    }
  }

  /** Positions without a digit never start a match. */
  lemma {:induction false} MembersSkip(s: string, i: nat, j: nat)
    requires i <= j <= |s|
    requires forall k :: i <= k < j ==> !IsDigit(s[k])
    ensures MembersFrom(s, i) == MembersFrom(s, j)
    decreases j - i
  {
    if i < j {
      MembersSkip(s, i + 1, j);
    }
  }

  /** A match at a digit is valued where its greedy count ends. */
  lemma MemberAtEnd(s: string, p: nat)
    requires DigitAt(s, p)
    ensures MemberAt(s, p) == MemberWith(s, p, CountEnd(s, p))
  {
  }

  /** The value of a match whose count ends at `e` and whose unit is at `w`. */
  lemma MemberWithIs(s: string, p: nat, e: nat, w: nat, count: nat)
    requires p <= e <= |s| && w == e + SpaceRun(s, e)
    requires DecimalValue(DigitsOnly(s[p..e])) == count
    ensures MemberWith(s, p, e) == Scaled(UnitAt(s, w), count)
  {
  }

  /** The count of a match at `p` that spans the groups `groups` and whose unit is at
      `w`, found after a text without digits. */
  lemma MembersAfter(s: string, p: nat, groups: seq<string>, seps: string, w: nat)
    requires CountShape(groups, seps)
    requires p + |Joined(groups, seps)| <= |s|
    requires forall k :: 0 <= k < p ==> !IsDigit(s[k])
    requires s[p..p + |Joined(groups, seps)|] == Joined(groups, seps)
    requires CountStops(s, p + |Joined(groups, seps)|)
    requires w == p + |Joined(groups, seps)| + SpaceRun(s, p + |Joined(groups, seps)|)
    ensures UnitAt(s, w) == Ones ==> Members(s) == Some(DecimalValue(Concat(groups)))
    ensures UnitAt(s, w) == Thousands ==> Members(s) == Some(DecimalValue(Concat(groups)) * 1000)
  {
    MemberAtRun(s, p, groups, seps, w);
    MembersSkip(s, 0, p);
    if UnitAt(s, w) != NoUnit {
      FirstMatch(s, p);
    }
  }

  /** The match at `p` that spans the groups is valued by the unit at `w`. */
  lemma MemberAtRun(s: string, p: nat, groups: seq<string>, seps: string, w: nat)
    requires CountShape(groups, seps)
    requires p + |Joined(groups, seps)| <= |s|
    requires s[p..p + |Joined(groups, seps)|] == Joined(groups, seps)
    requires CountStops(s, p + |Joined(groups, seps)|)
    requires w == p + |Joined(groups, seps)| + SpaceRun(s, p + |Joined(groups, seps)|)
    ensures p < |s| && MemberAt(s, p) == Scaled(UnitAt(s, w), DecimalValue(Concat(groups)))
  {
    var run := Joined(groups, seps);
    var e := p + |run|;
    JoinedFirstDigit(groups, seps);
    assert DigitAt(s, p) by {
      assert s[p] == s[p..e][0] == run[0];
    }
    CountEndJoined(s, p, groups, seps);
    DigitsOnlyJoined(groups, seps);
    MemberAtEnd(s, p);
    MemberWithIs(s, p, e, w, DecimalValue(Concat(groups)));
  }

  /** The leftmost match is the one at `p` when there is one there. */
  lemma FirstMatch(s: string, p: nat)
    requires p < |s| && MemberAt(s, p).Some?
    ensures MembersFrom(s, p) == MemberAt(s, p)
  {
  }

  lemma SpaceRunStops(s: string, i: nat)
    requires i < |s| && !IsSpace(s[i])
    ensures SpaceRun(s, i) == 0
  {
  }

  lemma SpaceRunOne(s: string, i: nat)
    requires i + 1 < |s| && IsSpace(s[i]) && !IsSpace(s[i + 1])
    ensures SpaceRun(s, i) == 1
  {
    SpaceRunStops(s, i + 1);
  }

  /** A literal occurs where the text holds it. */
  lemma MatchesLiteral(s: string, w: nat, pat: string, ci: bool)
    requires w + |pat| <= |s| && s[w..w + |pat|] == pat
    ensures MatchesAt(s, w, pat, ci)
  {
    forall k | 0 <= k < |pat|
      ensures FoldEq(s[w + k], pat[k], ci)
    {
      assert s[w + k] == s[w..w + |pat|][k];
    }
  }

  /** A literal does not occur where its first character differs. */
  lemma MismatchFirst(s: string, w: nat, pat: string, ci: bool)
    requires |pat| > 0 && w < |s| && !FoldEq(s[w], pat[0], ci)
    ensures !MatchesAt(s, w, pat, ci)
  {
    assert s[w + 0] == s[w];
  }

  /** The text before a run of groups, the run and the text after it. */
  lemma AroundParts(pre: string, run: string, a: string, b: string)
    requires |a| > 0
    ensures var s := pre + run + a + b; var e := |pre| + |run|;
      && e < |s|
      && (forall k :: 0 <= k < |pre| ==> s[k] == pre[k])
      && s[|pre|..e] == run
      && s[e] == a[0]
      && (e + 1 < |s| ==> s[e + 1] == if |a| > 1 then a[1] else b[0])
  {
    var x := pre + run;
    var s := x + a + b;
    assert x[|pre|..] == run;
    assert s[|pre|..|x|] == x[|pre|..];
  }

  /** A run of groups after text without digits and before a unit `a + b` that does
      not extend the count: the first match is that run, valued by the unit. */
  lemma MembersAround(pre: string, groups: seq<string>, seps: string, a: string, b: string, w: nat)
    requires forall k :: 0 <= k < |pre| ==> !IsDigit(pre[k])
    requires CountShape(groups, seps)
    requires |a| > 0 && !IsDigit(a[0]) && (|a| > 1 ==> !IsDigit(a[1])) && (|b| > 0 ==> !IsDigit(b[0]))
    requires var s := pre + Joined(groups, seps) + a + b; var e := |pre| + |Joined(groups, seps)|;
      w == e + SpaceRun(s, e)
    ensures var s := pre + Joined(groups, seps) + a + b;
      && (UnitAt(s, w) == Ones ==> Members(s) == Some(DecimalValue(Concat(groups))))
      && (UnitAt(s, w) == Thousands ==> Members(s) == Some(DecimalValue(Concat(groups)) * 1000))
  {
    var run := Joined(groups, seps);
    var s := pre + run + a + b;
    var e := |pre| + |run|;
    AroundParts(pre, run, a, b);
    assert CountStops(s, e);
    MembersAfter(s, |pre|, groups, seps, w);
  }

  /** A count such as `1,200` or `1 200`, after text without digits and followed by a
      space and `عضو`, `نفر` or `member`, is the number its digits spell once the
      separators are removed. */
  lemma MembersOnes(pre: string, groups: seq<string>, seps: string, unit: string)
    requires forall k :: 0 <= k < |pre| ==> !IsDigit(pre[k])
    requires CountShape(groups, seps)
    requires unit == "عضو" || unit == "نفر" || unit == "member"
    ensures Members(pre + Joined(groups, seps) + " " + unit) == Some(DecimalValue(Concat(groups)))
  {
    var d := pre + Joined(groups, seps);
    OnesUnit(d, unit);
    assert unit[0] == 'ع' || unit[0] == 'ن' || unit[0] == 'm';
    MembersAround(pre, groups, seps, " ", unit, |d| + 1);
  }

  /** After a space, each of the plain units counts ones. */
  lemma OnesUnit(d: string, unit: string)
    requires unit == "عضو" || unit == "نفر" || unit == "member"
    ensures SpaceRun(d + " " + unit, |d|) == 1
    ensures UnitAt(d + " " + unit, |d| + 1) == Ones
  {
    var s := d + " " + unit;
    assert unit[0] == 'ع' || unit[0] == 'ن' || unit[0] == 'm';
    assert s[|d|] == ' ' && s[|d| + 1] == unit[0];
    SpaceRunOne(s, |d|);
    SliceAfter(d + " ", unit);
    MatchesLiteral(s, |d| + 1, unit, true);
  }

  lemma SliceAfter(a: string, b: string)
    ensures (a + b)[|a|..|a| + |b|] == b
  {
  }

  /** A count followed by `k عضو`, after text without digits, counts thousands of the
      number its digits spell once the separators are removed. */
  lemma MembersThousands(pre: string, groups: seq<string>, seps: string)
    requires forall k :: 0 <= k < |pre| ==> !IsDigit(pre[k])
    requires CountShape(groups, seps)
    ensures Members(pre + Joined(groups, seps) + "k" + " عضو") == Some(DecimalValue(Concat(groups)) * 1000)
  {
    var d := pre + Joined(groups, seps);
    ThousandsUnit(d);
    MembersAround(pre, groups, seps, "k", " عضو", |d|);
  }

  /** `k`, a space and `عضو` count thousands. */
  lemma ThousandsUnit(d: string)
    ensures SpaceRun(d + "k" + " عضو", |d|) == 0
    ensures UnitAt(d + "k" + " عضو", |d|) == Thousands
  {
    SliceAfter(d + "k", " عضو");
    ThousandsAt(d + "k" + " عضو", |d|);
  }

  lemma ThousandsAt(s: string, w: nat)
    requires w + 5 <= |s| && s[w] == 'k' && s[w + 1..w + 5] == " عضو"
    ensures SpaceRun(s, w) == 0 && UnitAt(s, w) == Thousands
  {
    assert s[w + 1] == s[w + 1..w + 5][0] && s[w + 2] == s[w + 1..w + 5][1];
    assert s[w + 2..w + 5] == s[w + 1..w + 5][1..];
    SpaceRunStops(s, w);
    SpaceRunOne(s, w + 1);
    MatchesLiteral(s, w + 2, "عضو", true);
    UnitThousands(s, w);
  }

  /** A `k` followed, after white space, by `عضو` counts thousands. */
  lemma UnitThousands(s: string, w: nat)
    requires w + 1 <= |s| && s[w] == 'k'
    requires MatchesAt(s, w + 1 + SpaceRun(s, w + 1), "عضو", true)
    ensures UnitAt(s, w) == Thousands
  {
    MismatchFirst(s, w, "عضو", true);
    MismatchFirst(s, w, "نفر", true);
    MismatchFirst(s, w, "member", true);
  }

  /** The commonest form, `1,200 عضو`: the comma is dropped. */
  lemma MembersCommaExample()
    ensures Members("1,200 عضو") == Some(1200)
  {
    CommaGroups();
    MembersOnes("", ["1", "200"], ",", "عضو");
    CommaText();
  }

  lemma CommaText()
    ensures "" + "1,200" + " " + "عضو" == "1,200 عضو"
  {
  }

  /** `1,200` as groups and separators, and the number its digits spell. */
  lemma CommaGroups()
    ensures CountShape(["1", "200"], ",")
    ensures Joined(["1", "200"], ",") == "1,200"
    ensures DecimalValue(Concat(["1", "200"])) == 1200
  {
    var groups := ["1", "200"];
    assert Joined(groups, ",") == "1,200" by {
      assert Joined(groups[1..], ","[1..]) == "200";
    }
    assert Concat(groups) == "1200" by {
      assert Concat(groups[1..]) == "200" + Concat([]);
    }
    assert DecimalValue("1200") == 1200 by {
      assert "1200"[..3] == "120" && "120"[..2] == "12" && "12"[..1] == "1" && "1"[..0] == "";
    }
  }
}
