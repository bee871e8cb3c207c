/** The review page: every ad split into the pending, approved and rejected tabs, and the
    approve and reject actions that write a new status. The database calls are
    parameters: `None` is a call that failed. */
module AdminPanel {
  import opened Wrappers
  import opened Seqs

  /** A row of the `ads` table as the page reads it. */
  datatype PendingAd = PendingAd(
    id: string,
    name: string,
    text: string,
    category: string,
    telegramLink: string,
    members: int,
    status: string,
    createdAt: string,
    userId: string)

  /** The two decisions an administrator can take on an ad. */
  datatype Verdict = Approve | Reject

  function VerdictStatus(v: Verdict): string
  {
    match v
    case Approve => "approved"
    case Reject => "rejected"
  }

  /** The columns `updateAdStatus` writes. */
  datatype StatusUpdate = StatusUpdate(status: string, isApproved: bool)

  /** `{ status, is_approved: status === "approved" }`: the flag is set exactly for an
      approval, and the status is one of the two verdicts. */
  function Payload(v: Verdict): (u: StatusUpdate)
    ensures u.isApproved <==> v == Approve
    ensures u.isApproved <==> u.status == "approved"
    ensures u.status == "approved" || u.status == "rejected"
  {
    var status := VerdictStatus(v);
    StatusUpdate(status, status == "approved")
  }

  /** The two verdicts write different rows. */
  lemma PayloadsDiffer()
    ensures Payload(Approve) != Payload(Reject)
    ensures Payload(Approve).status != Payload(Reject).status
  {
  }

  function HasStatus(status: string): PendingAd -> bool
  {
    (ad: PendingAd) => ad.status == status
  }

  /** `ads.filter((ad) => ad.status === status)`. */
  function WithStatus(ads: seq<PendingAd>, status: string): (r: seq<PendingAd>)
    ensures forall ad :: ad in r <==> ad in ads && ad.status == status
    ensures IsSubsequence(r, ads)
  {
    FilterIsSubsequence(ads, HasStatus(status));
    Filter(ads, HasStatus(status))
  }

  /** The ads whose status is none of the three tabs'. */
  function Untabbed(ads: seq<PendingAd>): seq<PendingAd>
  {
    Filter(ads, (ad: PendingAd) => ad.status != "pending" && ad.status != "approved" && ad.status != "rejected")
  }

  /** The three tabs are exact-status filters: each keeps the order of `ads`, no ad is in
      two of them, and an ad with any other status is in none. */
  lemma TabsPartition(ads: seq<PendingAd>)
    ensures IsSubsequence(WithStatus(ads, "pending"), ads)
    ensures IsSubsequence(WithStatus(ads, "approved"), ads)
    ensures IsSubsequence(WithStatus(ads, "rejected"), ads)
    ensures forall ad :: !(ad in WithStatus(ads, "pending") && ad in WithStatus(ads, "approved"))
    ensures forall ad :: !(ad in WithStatus(ads, "pending") && ad in WithStatus(ads, "rejected"))
    ensures forall ad :: !(ad in WithStatus(ads, "approved") && ad in WithStatus(ads, "rejected"))
    ensures forall ad :: ad in ads && ad.status != "pending" && ad.status != "approved" && ad.status != "rejected" ==>
      ad !in WithStatus(ads, "pending") && ad !in WithStatus(ads, "approved") && ad !in WithStatus(ads, "rejected")
  {
  }

  /** The tabs' counters and the ads in no tab add up to the whole list. */
  lemma {:induction false} TabCounts(ads: seq<PendingAd>)
    ensures |WithStatus(ads, "pending")| + |WithStatus(ads, "approved")| + |WithStatus(ads, "rejected")|
            + |Untabbed(ads)| == |ads|
  {
    if |ads| > 0 {
      TabCounts(ads[1..]);
    }
  }

  /** The tabs of the page. */
  datatype Tab = PendingTab | ApprovedTab | RejectedTab

  function TabStatus(t: Tab): string
  {
    match t
    case PendingTab => "pending"
    case ApprovedTab => "approved"
    case RejectedTab => "rejected"
  }

  /** The `showActions` each tab passes to its cards; the card's default is `true`. */
  function ShowActions(t: Tab): bool
  {
    match t
    case PendingTab => true
    case ApprovedTab => false
    case RejectedTab => true
  }

  /** A card offers approve and reject exactly when its ad is not approved yet: pending
      ads and rejected ads can be decided (again), approved ones cannot. */
  lemma ActionsUnlessApproved(ads: seq<PendingAd>, t: Tab, ad: PendingAd)
    requires ad in WithStatus(ads, TabStatus(t))
    ensures ShowActions(t) <==> ad.status != "approved"
    ensures ShowActions(t) <==> ad.status == "pending" || ad.status == "rejected"
  {
  }

  /** The table after `update(payload).eq("id", adId)`: every row with that id takes the
      new status, the others are unchanged. */
  function Reviewed(ads: seq<PendingAd>, adId: string, v: Verdict): (r: seq<PendingAd>)
    ensures |r| == |ads|
    ensures forall i :: 0 <= i < |ads| && ads[i].id == adId ==> r[i] == ads[i].(status := Payload(v).status)
    ensures forall i :: 0 <= i < |ads| && ads[i].id != adId ==> r[i] == ads[i]
  {
    seq(|ads|, i requires 0 <= i < |ads| =>
      if ads[i].id == adId then ads[i].(status := Payload(v).status) else ads[i])
  }

  /** After a decision the reviewed ad leaves the pending tab for the tab of its verdict,
      and no other ad changes tab. */
  lemma ReviewMovesTab(ads: seq<PendingAd>, adId: string, v: Verdict, i: nat)
    requires i < |ads|
    ensures ads[i].id == adId ==>
      Reviewed(ads, adId, v)[i] in WithStatus(Reviewed(ads, adId, v), VerdictStatus(v))
      && Reviewed(ads, adId, v)[i] !in WithStatus(Reviewed(ads, adId, v), "pending")
    ensures ads[i].id != adId ==>
      forall s :: Reviewed(ads, adId, v)[i] in WithStatus(Reviewed(ads, adId, v), s) <==> ads[i].status == s
  {
  }

  /** What the page renders. */
  datatype AdminView =
    | Spinner
    | Tabs(pending: seq<PendingAd>, approved: seq<PendingAd>, rejected: seq<PendingAd>)

  class AdminReview {
    var ads: seq<PendingAd>
    var loading: bool
    var processing: Option<string>
    /** Whether the last call showed the error toast. */
    var failed: bool

    constructor ()
      ensures ads == [] && loading && processing.None? && !failed
    {
      ads := [];
      loading := true;
      processing := None;
      failed := false;
    }

    /** The spinner while the session, the role or the list is loading; the three tabs
        otherwise. */
    function View(authLoading: bool, roleLoading: bool): AdminView
      reads this
    {
      if authLoading || roleLoading || loading then Spinner
      else Tabs(WithStatus(ads, "pending"), WithStatus(ads, "approved"), WithStatus(ads, "rejected"))
    }

    /** A card shows its spinner while its own ad is being decided. */
    predicate CardProcessing(ad: PendingAd)
      reads this
    {
      processing == Some(ad.id)
    }

    /** `fetchAds`: `reply` is the query's result (`None` an error, `Some(None)` no
        data). A failure keeps the list; `data || []` replaces it otherwise. Loading
        ends either way. */
    method FetchAds(reply: Option<Option<seq<PendingAd>>>)
      modifies this
      ensures !loading && processing == old(processing)
      ensures reply.None? ==> ads == old(ads) && failed
      ensures reply.Some? ==> ads == reply.value.GetOr([]) && !failed
    {
      if reply.None? {
        failed := true;
      } else {
        ads := reply.value.GetOr([]);
        failed := false;
      }
      loading := false;
    }

    /** The first half of `updateAdStatus`: the ad is marked as processing and the
        payload for its verdict is what goes to the database. */
    method BeginUpdate(adId: string, v: Verdict) returns (payload: StatusUpdate)
      modifies this
      ensures processing == Some(adId)
      ensures payload == Payload(v)
      ensures ads == old(ads) && loading == old(loading) && failed == old(failed)
    {
      processing := Some(adId);
      payload := StatusUpdate(VerdictStatus(v), VerdictStatus(v) == "approved");
    }

    /** The second half: a successful update reloads the list (with `refetch` as the
        reload's result), a failed one shows the error; in both cases no card is
        processing afterwards. */
    method FinishUpdate(updateOk: bool, refetch: Option<Option<seq<PendingAd>>>)
      modifies this
      ensures processing.None?
      ensures !updateOk ==> ads == old(ads) && failed && loading == old(loading)
      ensures updateOk && refetch.None? ==> ads == old(ads) && failed && !loading
      ensures updateOk && refetch.Some? ==> ads == refetch.value.GetOr([]) && !failed && !loading
    {
      if updateOk {
        FetchAds(refetch);
      } else {
        failed := true;
      }
      processing := None;
    }
  }
}
