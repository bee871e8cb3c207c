/** The client's event tracking: the per-tab session id kept in session storage, the
    view, click and visit rows, and the like calls. `crypto.randomUUID` and the
    database answers are parameters. */
module Tracking {
  import opened Wrappers
  import opened Seqs

  const SESSION_KEY := "session_id"

  /** The session id the storage already holds, if any; an empty one counts as none. */
  function StoredId(items: map<string, string>): Option<string>
  {
    if SESSION_KEY in items && items[SESSION_KEY] != "" then Some(items[SESSION_KEY]) else None
  }

  /** The id `getSessionId` returns: the stored one, or the fresh one. */
  function SessionIdOf(items: map<string, string>, freshId: string): string
  {
    StoredId(items).GetOr(freshId)
  }

  /** The storage after `getSessionId`: written only when no id was stored. */
  function AfterGet(items: map<string, string>, freshId: string): map<string, string>
  {
    if StoredId(items).Some? then items else items[SESSION_KEY := freshId]
  }

  /** Once an id is handed out, the storage holds exactly it, and every later call hands
      out the same id and leaves the storage as it is, whatever fresh id it is given. */
  lemma SessionIdStable(items: map<string, string>, freshId: string, later: string)
    requires SessionIdOf(items, freshId) != ""
    ensures StoredId(AfterGet(items, freshId)) == Some(SessionIdOf(items, freshId))
    ensures SessionIdOf(AfterGet(items, freshId), later) == SessionIdOf(items, freshId)
    ensures AfterGet(AfterGet(items, freshId), later) == AfterGet(items, freshId)
    ensures forall k :: k != SESSION_KEY ==> (k in AfterGet(items, freshId) <==> k in items)
  {
  }

  /** `sessionStorage`. */
  class SessionStore {
    var items: map<string, string>

    constructor (initial: map<string, string>)
      ensures items == initial
    {
      items := initial;
    }

    /** `getSessionId`: an id already stored is returned and nothing is written;
        otherwise `freshId` is stored and returned. */
    method GetSessionId(freshId: string) returns (id: string)
      modifies this
      ensures id == SessionIdOf(old(items), freshId)
      ensures items == AfterGet(old(items), freshId)
      ensures StoredId(old(items)).Some? ==> items == old(items)
    {
      var stored := if SESSION_KEY in items then items[SESSION_KEY] else "";
      id := stored;
      if stored == "" {
        id := freshId;
        items := items[SESSION_KEY := id];
      }
    }
  }

  /** The three tracking tables. */
  datatype Table = AdViews | AdClicks | SiteVisits

  /** A tracking row: the ad (or page path), the user or null, the session. */
  datatype TrackRow = TrackRow(table: Table, target: string, userId: Option<string>, sessionId: string)

  /** `userId || null`. */
  function UserOrNull(userId: Option<string>): (r: Option<string>)
    ensures r.Some? <==> userId.Some? && userId.value != ""
    ensures r.Some? ==> r == userId
  {
    if userId.Some? && userId.value != "" then userId else None
  }

  /** The user column is never an empty id, reading the column back with null as ""
      gives the caller's value, and applying the rule again changes nothing. */
  lemma UserColumn(userId: Option<string>)
    ensures UserOrNull(userId) != Some("")
    ensures UserOrNull(userId).GetOr("") == userId.GetOr("")
    ensures UserOrNull(UserOrNull(userId)) == UserOrNull(userId)
  {
  }

  /** `trackAdView`, `trackAdClick` and `trackSiteVisit`: the row they insert. The
      insert's outcome is not looked at and an exception is swallowed, so the call has
      no failure to report. */
  method Track(store: SessionStore, table: Table, target: string, userId: Option<string>, freshId: string)
    returns (row: TrackRow)
    modifies store
    ensures row == TrackRow(table, target, UserOrNull(userId), SessionIdOf(old(store.items), freshId))
    ensures store.items == AfterGet(old(store.items), freshId)
    ensures row.userId != Some("")
  {
    var sessionId := store.GetSessionId(freshId);
    row := TrackRow(table, target, UserOrNull(userId), sessionId);
  }

  /** How a call to the database ended. */
  datatype CallOutcome = Ok | ErrorReply | Thrown

  /** `likeAd` and `unlikeAd`: true exactly when the call ended without an error. */
  function Succeeded(outcome: CallOutcome): (r: bool)
    ensures r <==> outcome == Ok
  {
    match outcome
    case Ok => true
    case ErrorReply => false
    case Thrown => false
  }

  /** A row of `ad_likes`. */
  datatype Like = Like(adId: string, userId: string)

  /** `getAdLikesCount`, with `reply` the count query (`None` an error or exception,
      `Some(None)` a null count): the count, or 0. */
  function LikesCount(reply: Option<Option<nat>>): (r: nat)
    ensures reply.None? || reply.value.None? ==> r == 0
    ensures reply.Some? && reply.value.Some? ==> r == reply.value.value
  {
    if reply.Some? && reply.value.Some? then reply.value.value else 0
  }

  /** `isAdLikedByUser`, with `reply` the `maybeSingle` query (`None` an error or
      exception, `Some(None)` no row): true only for a row found without an error. */
  function IsLiked(reply: Option<Option<Like>>): (r: bool)
    ensures r <==> reply.Some? && reply.value.Some?
  {
    reply.Some? && reply.value.Some?
  }

  function OfAd(adId: string): Like -> bool
  {
    (l: Like) => l.adId == adId
  }

  function NotThisLike(adId: string, userId: string): Like -> bool
  {
    (l: Like) => !(l.adId == adId && l.userId == userId)
  }

  function ThisLike(adId: string, userId: string): Like -> bool
  {
    (l: Like) => l.adId == adId && l.userId == userId
  }

  /** The reply of the count query (`count: "exact", head: true`) read against the
      table: the number of the ad's rows, or nothing when the read fails. */
  function CountReply(likes: seq<Like>, adId: string, read: CallOutcome): Option<Option<nat>>
  {
    if Succeeded(read) then Some(Some(|Filter(likes, OfAd(adId))|)) else None
  }

  /** The reply of the `maybeSingle` query read against the table: no row, the one
      row, or an error when there are several. */
  function LikedReply(likes: seq<Like>, adId: string, userId: string, read: CallOutcome): Option<Option<Like>>
  {
    var rows := Filter(likes, ThisLike(adId, userId));
    if !Succeeded(read) || |rows| > 1 then None
    else if |rows| == 0 then Some(None)
    else Some(Some(rows[0]))
  }

  /** Read against the table, `getAdLikesCount` is the number of the ad's likes and
      `isAdLikedByUser` holds exactly when the user's like of the ad is stored once; a
      failed read gives 0 and false. */
  lemma RepliesOfTable(likes: seq<Like>, adId: string, userId: string, read: CallOutcome)
    ensures LikesCount(CountReply(likes, adId, read)) == if Succeeded(read) then |Filter(likes, OfAd(adId))| else 0
    ensures IsLiked(LikedReply(likes, adId, userId, read)) <==>
      Succeeded(read) && Count(likes, Like(adId, userId)) == 1
  {
    ThisLikeCount(likes, adId, userId);
  }

  /** The user's rows for the ad are the copies of that one like. */
  lemma {:induction false} ThisLikeCount(likes: seq<Like>, adId: string, userId: string)
    ensures |Filter(likes, ThisLike(adId, userId))| == Count(likes, Like(adId, userId))
  {
    if |likes| > 0 {
      ThisLikeCount(likes[1..], adId, userId);
      assert likes == [likes[0]] + likes[1..];
      assert multiset(likes) == multiset{likes[0]} + multiset(likes[1..]);
    }
  }

  /** A filter that keeps nothing of `s` gives the empty list. */
  lemma NoneKept(s: seq<Like>, p: Like -> bool)
    requires forall l :: l in s ==> !p(l)
    ensures Filter(s, p) == []
  {
  }

  /** The table after `likeAd`: a successful insert adds the row. */
  function AfterLike(likes: seq<Like>, adId: string, userId: string, outcome: CallOutcome): seq<Like>
  {
    if Succeeded(outcome) then likes + [Like(adId, userId)] else likes
  }

  /** The table after `unlikeAd`: a successful delete removes the user's rows for the ad. */
  function AfterUnlike(likes: seq<Like>, adId: string, userId: string, outcome: CallOutcome): seq<Like>
  {
    if Succeeded(outcome) then Filter(likes, NotThisLike(adId, userId)) else likes
  }

  /** A like that reports success raises the ad's count by one and is found by the
      liked query; one that reports failure changes nothing. */
  lemma LikeCounts(likes: seq<Like>, adId: string, userId: string, outcome: CallOutcome)
    ensures Succeeded(outcome) ==>
      |Filter(AfterLike(likes, adId, userId, outcome), OfAd(adId))| == |Filter(likes, OfAd(adId))| + 1
      && Like(adId, userId) in AfterLike(likes, adId, userId, outcome)
    ensures !Succeeded(outcome) ==> AfterLike(likes, adId, userId, outcome) == likes
  {
    if Succeeded(outcome) {
      FilterAppend(likes, [Like(adId, userId)], OfAd(adId));
    }
  }

  /** An unlike that reports success leaves no like of that user for the ad, and keeps
      every other like. */
  lemma UnlikeRemoves(likes: seq<Like>, adId: string, userId: string, outcome: CallOutcome)
    ensures Succeeded(outcome) ==> Like(adId, userId) !in AfterUnlike(likes, adId, userId, outcome)
    ensures forall l :: l in likes && l != Like(adId, userId) ==> l in AfterUnlike(likes, adId, userId, outcome)
    ensures IsSubsequence(AfterUnlike(likes, adId, userId, outcome), likes)
  {
    if Succeeded(outcome) {
      FilterIsSubsequence(likes, NotThisLike(adId, userId));
    } else {
      FilterAll(likes, (l: Like) => true);
      FilterIsSubsequence(likes, (l: Like) => true);
    }
  }

  /** After a successful like, a successful read counts one more like of the ad, and
      the liked query holds exactly when the user had not liked it before (a second
      row makes `maybeSingle` fail). */
  lemma LikeThenRead(likes: seq<Like>, adId: string, userId: string, outcome: CallOutcome, read: CallOutcome)
    requires Succeeded(outcome) && Succeeded(read)
    ensures LikesCount(CountReply(AfterLike(likes, adId, userId, outcome), adId, read))
      == LikesCount(CountReply(likes, adId, read)) + 1
    ensures IsLiked(LikedReply(AfterLike(likes, adId, userId, outcome), adId, userId, read))
      <==> Like(adId, userId) !in likes
  {
    var l := Like(adId, userId);
    LikeCounts(likes, adId, userId, outcome);
    FilterAppend(likes, [l], ThisLike(adId, userId));
    if l !in likes {
      NoneKept(likes, ThisLike(adId, userId));
    } else {
      assert l in Filter(likes, ThisLike(adId, userId));
    }
  }

  /** After a successful unlike the liked query is false, whatever the read, and a
      successful count drops by the number of the user's rows for the ad. */
  lemma UnlikeThenRead(likes: seq<Like>, adId: string, userId: string, outcome: CallOutcome, read: CallOutcome)
    requires Succeeded(outcome)
    ensures !IsLiked(LikedReply(AfterUnlike(likes, adId, userId, outcome), adId, userId, read))
    ensures Succeeded(read) ==>
      LikesCount(CountReply(AfterUnlike(likes, adId, userId, outcome), adId, read))
      + |Filter(likes, ThisLike(adId, userId))| == LikesCount(CountReply(likes, adId, read))
  {
    var after := AfterUnlike(likes, adId, userId, outcome);
    NoneKept(after, ThisLike(adId, userId));
    UnlikeCount(likes, adId, userId);
  }

  /** The ad's likes are those an unlike keeps plus the user's. */
  lemma {:induction false} UnlikeCount(likes: seq<Like>, adId: string, userId: string)
    ensures |Filter(Filter(likes, NotThisLike(adId, userId)), OfAd(adId))|
      + |Filter(likes, ThisLike(adId, userId))| == |Filter(likes, OfAd(adId))|
  {
    if |likes| > 0 {
      var x := likes[0];
      var kept := Filter(likes, NotThisLike(adId, userId));
      UnlikeCount(likes[1..], adId, userId);
      assert kept == (if NotThisLike(adId, userId)(x) then [x] else []) + Filter(likes[1..], NotThisLike(adId, userId));
      FilterAppend(if NotThisLike(adId, userId)(x) then [x] else [], Filter(likes[1..], NotThisLike(adId, userId)), OfAd(adId));
    }
  }
}
