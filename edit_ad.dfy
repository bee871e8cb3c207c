/** The edit page of an ad: the form loaded from the stored ad, its schema and the patch
    it sends to `updateAd`. The store's answers are parameters. */
module EditAd {
  import opened Wrappers
  import opened Text
  import opened Types
  import opened Ads
  import opened AdSubmissionForm

  /** The form's fields. */
  datatype EditValues = EditValues(
    name: string,
    text: string,
    category: string,
    telegramLink: string,
    imageUrl: string,
    members: int,
    cities: seq<string>,
    tags: seq<string>,
    ageGroups: seq<string>)

  const EDIT_DEFAULTS := EditValues("", "", "", "", "", 0, [], [], [])

  /** The edit schema's looser link rule: `t.me` or `telegram` anywhere in the link. */
  predicate MentionsTelegram(link: string)
  {
    Contains(link, "t.me") || Contains(link, "telegram")
  }

  /** Every rule of `editAdSchema` the values break. */
  function EditIssues(v: EditValues, isUrl: string -> bool): set<Issue>
  {
    (if |v.name| < 3 then {NameTooShort} else {}) + (if |v.name| > 100 then {NameTooLong} else {})
    + (if |v.text| < 10 then {TextTooShort} else {}) + (if |v.text| > 500 then {TextTooLong} else {})
    + (if |v.category| < 1 then {CategoryMissing} else {})
    + (if !isUrl(v.telegramLink) then {LinkNotUrl} else {})
    + (if !MentionsTelegram(v.telegramLink) then {LinkNotTelegram} else {})
    + (if v.imageUrl != "" && !isUrl(v.imageUrl) then {ImageNotUrl} else {})
    + (if v.members < 0 then {MembersNegative} else {})
  }

  /** Every link the submission form accepts, the edit form accepts too. */
  lemma SubmissionLinkEditable(link: string)
    requires TelegramPattern(link)
    ensures MentionsTelegram(link)
  {
    var rest := AfterScheme(link).value;
    var k := |link| - |rest|;
    if "t.me/" <= rest {
      assert "t.me" <= link[k..];
      ContainsAt(link, "t.me", k);
    } else {
      assert "telegram" <= link[k..];
      ContainsAt(link, "telegram", k);
    }
  }

  /** The converse fails: the edit form lets through links the submission form refuses. */
  lemma EditLinkLooser()
    ensures MentionsTelegram("https://example.com/telegram") && !TelegramPattern("https://example.com/telegram")
  {
    var link := "https://example.com/telegram";
    assert "telegram" <= link[20..];
    ContainsAt(link, "telegram", 20);
    var rest := "example.com/telegram";
    assert AfterScheme(link) == Some(rest);
    assert !("t.me/" <= rest) && !("telegram.me/" <= rest) by { assert rest[0] == 'e'; }
  }

  /** `form.reset(...)` from the stored ad: an empty image reads as "", and the lists
      that may be missing as empty. */
  function LoadedValues(ad: RankedAd): (v: EditValues)
    ensures v.name == ad.name && v.text == ad.text && v.category == ad.category
    ensures v.telegramLink == ad.telegramLink && v.imageUrl == ad.imageUrl && v.members == ad.members
    ensures v.cities == ad.cities.GetOr([]) && v.tags == ad.tags && v.ageGroups == ad.ageGroups
  {
    EditValues(ad.name, ad.text, ad.category, ad.telegramLink, ad.imageUrl,
      if ad.members != 0 then ad.members else 0,
      ad.cities.GetOr([]), ad.tags, ad.ageGroups)
  }

  /** An ad read through the record mapper never shows a city in the form: the mapper
      puts the stored locations in `provinces`, and the form reads `cities`. */
  lemma StoredLocationsNotShown(db: DbAd)
    ensures LoadedValues(MapDbAdToRankedAd(db)).cities == []
    ensures LoadedValues(MapDbAdToRankedAd(db)).imageUrl != ""
  {
  }

  /** The patch `onSubmit` sends: an empty image is left out, every other field is
      passed through, and the locations go in `cities`. */
  function EditPatch(v: EditValues): (p: AdPatch)
    ensures p.imageUrl == (if v.imageUrl == "" then None else Some(v.imageUrl))
    ensures p.name == Some(v.name) && p.text == Some(v.text) && p.category == Some(v.category)
    ensures p.telegramLink == Some(v.telegramLink) && p.members == Some(v.members)
    ensures p.cities == Some(v.cities) && p.tags == Some(v.tags) && p.ageGroups == Some(v.ageGroups)
    ensures p.provinces.None? && p.minAge.None? && p.maxAge.None? && p.adType.None?
  {
    AdPatch(Some(v.name), Some(v.text), Some(v.category), Some(v.telegramLink),
      if v.imageUrl != "" then Some(v.imageUrl) else None,
      Some(v.members), Some(v.tags), Some(v.cities), None, Some(v.ageGroups), None, None, None)
  }

  /** What the update writes for an edit: the locations column is never written, the
      image column only for a non-empty image, and the fields of the form always. */
  lemma EditColumns(v: EditValues)
    ensures PatchField(EditPatch(v), Cities).None?
    ensures PatchField(EditPatch(v), ImageUrl).Some? <==> v.imageUrl != ""
    ensures PatchField(EditPatch(v), Name) == Some(Str(v.name))
    ensures PatchField(EditPatch(v), Members) == Some(Num(v.members))
    ensures PatchField(EditPatch(v), MinAge).None? && PatchField(EditPatch(v), AdType).None?
  {
  }

  /** Loading an ad and saving it unchanged writes back its name, text, category, link,
      member count and lists, and keeps its image unless it has none. */
  lemma LoadThenSave(ad: RankedAd)
    ensures EditPatch(LoadedValues(ad)).name == Some(ad.name)
    ensures EditPatch(LoadedValues(ad)).members == Some(ad.members)
    ensures EditPatch(LoadedValues(ad)).tags == Some(ad.tags)
    ensures ad.imageUrl != "" ==> EditPatch(LoadedValues(ad)).imageUrl == Some(ad.imageUrl)
  {
  }

  class EditPage {
    var values: EditValues
    var isLoading: bool
    var isSubmitting: bool
    var navigated: Option<string>
    /** Whether the last call showed the error toast. */
    var failed: bool

    constructor ()
      ensures values == EDIT_DEFAULTS && isLoading && !isSubmitting && navigated.None? && !failed
    {
      values := EDIT_DEFAULTS;
      isLoading := true;
      isSubmitting := false;
      navigated := None;
      failed := false;
    }

    /** `loadAd` with `reply` the result of `getAdById`. A missing ad sends the user to
        the dashboard and the spinner stays; a found one fills the form. */
    method LoadAd(reply: Option<RankedAd>)
      modifies this
      ensures reply.None? ==> values == old(values) && isLoading && navigated == Some("/dashboard") && failed
      ensures reply.Some? ==>
        values == LoadedValues(reply.value) && !isLoading && navigated == old(navigated) && failed == old(failed)
      ensures isSubmitting == old(isSubmitting)
    {
      isLoading := true;
      if reply.None? {
        failed := true;
        navigated := Some("/dashboard");
        return;
      }
      var ad := reply.value;
      values := EditValues(ad.name, ad.text, ad.category, ad.telegramLink, ad.imageUrl,
        if ad.members != 0 then ad.members else 0,
        ad.cities.GetOr([]), ad.tags, ad.ageGroups);
      isLoading := false;
    }

    /** `form.handleSubmit(onSubmit)`: values that break a rule are not sent; otherwise
        the patch goes to `updateAd`, whose result is `result`. A stored ad leads to the
        dashboard, a null result to the error toast on this page. */
    method Submit(isUrl: string -> bool, result: Option<RankedAd>) returns (sent: Option<AdPatch>)
      modifies this
      ensures EditIssues(old(values), isUrl) != {} ==> sent.None? && navigated == old(navigated) && failed == old(failed)
      ensures EditIssues(old(values), isUrl) == {} ==>
        && sent == Some(EditPatch(old(values)))
        && (result.Some? ==> navigated == Some("/dashboard") && !failed)
        && (result.None? ==> navigated == old(navigated) && failed)
      ensures values == old(values) && isLoading == old(isLoading) && !isSubmitting
    {
      if EditIssues(values, isUrl) != {} {
        sent := None;
        isSubmitting := false;
        return;
      }
      isSubmitting := true;
      sent := Some(EditPatch(values));
      isSubmitting := false;
      if result.Some? {
        failed := false;
        navigated := Some("/dashboard");
      } else {
        failed := true;
      }
    }
  }
}
