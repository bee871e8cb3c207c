/** The ad submission form: its validation schema, the tag box, the city checkboxes and
    the mapping of a valid form to the `addAd` input. zod's URL check is the parameter
    `isUrl`; the insert's outcome is a parameter too. */
module AdSubmissionForm {
  import opened Wrappers
  import opened Text
  import opened Seqs
  import opened Types
  import opened ListEdits

  datatype CityTarget = AllCities | OneCity | ManyCities

  datatype AgeTarget = AllAges | AgeList | CustomAges

  /** The form's fields. `members` and the ages are the numbers zod coerces them to. */
  datatype FormValues = FormValues(
    category: string,
    name: string,
    text: string,
    telegramLink: string,
    members: int,
    imageUrl: string,
    cityTarget: CityTarget,
    selectedCities: seq<string>,
    ageTarget: AgeTarget,
    selectedAgeGroups: seq<string>,
    minAge: Option<int>,
    maxAge: Option<int>,
    tags: seq<string>)

  /** `defaultValues`. */
  const DEFAULT_VALUES := FormValues("", "", "", "", 0, "", AllCities, [], AllAges, [], None, None, [])

  /** The image a submission without one is given. */
  const DEFAULT_IMAGE := "https://images.unsplash.com/photo-1611162617474-5b21e879e113?w=400&h=300&fit=crop"

  /** `^https?://`: what follows the scheme, if the link starts with one. */
  function AfterScheme(s: string): (r: Option<string>)
    ensures r.Some? ==> |r.value| < |s| && r.value == s[|s| - |r.value|..]
  {
    if "https://" <= s then Some(s[8..])
    else if "http://" <= s then Some(s[7..])
    else None
  }

  /** `/^https?:\/\/(t\.me|telegram\.me)\//`, read left to right. */
  predicate TelegramPattern(s: string)
  {
    match AfterScheme(s)
    case None => false
    case Some(rest) => "t.me/" <= rest || "telegram.me/" <= rest
  }

  const TELEGRAM_PREFIXES: seq<string> :=
    ["http://t.me/", "https://t.me/", "http://telegram.me/", "https://telegram.me/"]

  /** `a + b` starts `s` exactly when `a` does and `b` starts the rest. */
  lemma PrefixConcat(a: string, b: string, s: string)
    ensures a + b <= s <==> a <= s && b <= s[|a|..]
  {
    if a + b <= s {
      assert s[..|a|] == (a + b)[..|a|] == a;
      assert s[|a|..][..|b|] == (a + b)[|a|..] == b;
    }
    if a <= s && b <= s[|a|..] {
      assert s[..|a| + |b|] == s[..|a|] + s[|a|..][..|b|];
    }
  }

  /** The pattern matches exactly the links that start with one of the four telegram
      prefixes. */
  lemma TelegramPatternPrefixes(s: string)
    ensures TelegramPattern(s) <==> exists i :: 0 <= i < |TELEGRAM_PREFIXES| && TELEGRAM_PREFIXES[i] <= s
  {
    PrefixConcat("http://", "t.me/", s);
    PrefixConcat("https://", "t.me/", s);
    PrefixConcat("http://", "telegram.me/", s);
    PrefixConcat("https://", "telegram.me/", s);
    assert TELEGRAM_PREFIXES[0] == "http://" + "t.me/";
    assert TELEGRAM_PREFIXES[1] == "https://" + "t.me/";
    assert TELEGRAM_PREFIXES[2] == "http://" + "telegram.me/";
    assert TELEGRAM_PREFIXES[3] == "https://" + "telegram.me/";
    if "https://" <= s {
      assert !("http://" + "t.me/" <= s) by { assert s[4] == 's'; }
      assert !("http://" + "telegram.me/" <= s) by { assert s[4] == 's'; }
    } else if "http://" <= s {
      assert !("https://" + "t.me/" <= s);
    }
  }

  /** The rules of `formSchema` a value can break. */
  datatype Issue =
    | CategoryMissing
    | NameTooShort | NameTooLong
    | TextTooShort | TextTooLong
    | LinkNotUrl | LinkNotTelegram
    | MembersNegative
    | ImageNotUrl
    | MinAgeOutOfRange | MaxAgeOutOfRange

  predicate AgeInRange(a: Option<int>)
  {
    a.None? || 0 <= a.value <= 120
  }

  /** Every rule the values break; zod checks each field's rules independently. */
  function Issues(v: FormValues, isUrl: string -> bool): set<Issue>
  {
    (if |v.category| < 1 then {CategoryMissing} else {})
    + (if |v.name| < 3 then {NameTooShort} else {}) + (if |v.name| > 100 then {NameTooLong} else {})
    + (if |v.text| < 10 then {TextTooShort} else {}) + (if |v.text| > 500 then {TextTooLong} else {})
    + (if !isUrl(v.telegramLink) then {LinkNotUrl} else {})
    + (if !TelegramPattern(v.telegramLink) then {LinkNotTelegram} else {})
    + (if v.members < 0 then {MembersNegative} else {})
    + (if v.imageUrl != "" && !isUrl(v.imageUrl) then {ImageNotUrl} else {})
    + (if !AgeInRange(v.minAge) then {MinAgeOutOfRange} else {})
    + (if !AgeInRange(v.maxAge) then {MaxAgeOutOfRange} else {})
  }

  /** The empty defaults are refused: they miss a category, a name, a text and a
      link. */
  lemma DefaultsRefused(isUrl: string -> bool)
    ensures CategoryMissing in Issues(DEFAULT_VALUES, isUrl)
    ensures NameTooShort in Issues(DEFAULT_VALUES, isUrl) && TextTooShort in Issues(DEFAULT_VALUES, isUrl)
    ensures LinkNotTelegram in Issues(DEFAULT_VALUES, isUrl)
  {
  }

  /** The `addAd` input `onSubmit` builds: no cities for the whole country, `["all"]`
      for every age, the ages only for a custom range, and the default image for an
      empty one. The `cities` field is what `addAd` does not read. */
  function Submission(v: FormValues): (d: AdFormData)
    ensures d.cities == (if v.cityTarget == AllCities then [] else v.selectedCities)
    ensures d.ageGroups == (if v.ageTarget == AllAges then ["all"] else v.selectedAgeGroups)
    ensures v.ageTarget != CustomAges ==> d.minAge.None? && d.maxAge.None?
    ensures v.ageTarget == CustomAges ==> d.minAge == v.minAge && d.maxAge == v.maxAge
    ensures d.imageUrl == Some(if v.imageUrl == "" then DEFAULT_IMAGE else v.imageUrl)
    ensures d.category == v.category && d.name == v.name && d.text == v.text
    ensures d.telegramLink == v.telegramLink && d.members == v.members && d.tags == v.tags
  {
    var cities := if v.cityTarget == AllCities then [] else v.selectedCities;
    var ageGroups := if v.ageTarget == AllAges then ["all"] else v.selectedAgeGroups;
    AdFormData(
      v.category, v.name, v.text, v.telegramLink, v.members,
      Some(if v.imageUrl != "" then v.imageUrl else DEFAULT_IMAGE),
      cities, ageGroups,
      if v.ageTarget == CustomAges then v.minAge else None,
      if v.ageTarget == CustomAges then v.maxAge else None,
      v.tags)
  }

  /** What a valid form hands to `addAd` meets the schema's bounds: a category, name and
      text of allowed length, a telegram link, a non-negative member count, an image,
      and ages within 0..120. */
  lemma ValidSubmission(v: FormValues, isUrl: string -> bool)
    requires Issues(v, isUrl) == {}
    ensures var d := Submission(v);
      && d.category != "" && 3 <= |d.name| <= 100 && 10 <= |d.text| <= 500
      && TelegramPattern(d.telegramLink) && isUrl(d.telegramLink) && d.members >= 0
      && d.imageUrl.Some? && d.imageUrl.value != ""
      && AgeInRange(d.minAge) && AgeInRange(d.maxAge)
  {
    assert CategoryMissing !in Issues(v, isUrl);
    assert NameTooShort !in Issues(v, isUrl) && NameTooLong !in Issues(v, isUrl);
    assert TextTooShort !in Issues(v, isUrl) && TextTooLong !in Issues(v, isUrl);
    assert LinkNotUrl !in Issues(v, isUrl) && LinkNotTelegram !in Issues(v, isUrl);
    assert MembersNegative !in Issues(v, isUrl);
    assert MinAgeOutOfRange !in Issues(v, isUrl) && MaxAgeOutOfRange !in Issues(v, isUrl);
  }

  /** A city checkbox's `onCheckedChange`: for a single city the choice replaces the
      selection or clears it; otherwise it is appended or every copy removed. */
  function CheckCity(target: CityTarget, selected: seq<string>, city: string, checked: bool): (r: seq<string>)
    ensures checked ==> city in r
    ensures !checked ==> city !in r
    ensures target == OneCity ==> |r| <= 1
    ensures target != OneCity ==> forall c :: c != city ==> (c in r <==> c in selected)
  {
    if target == OneCity then (if checked then [city] else [])
    else if checked then selected + [city]
    else RemoveAll(selected, city)
  }

  /** With several cities, checking a city that was not selected and unchecking it
      again restores the selection. */
  lemma CheckUncheck(selected: seq<string>, city: string)
    requires city !in selected
    ensures CheckCity(ManyCities, CheckCity(ManyCities, selected, city, true), city, false) == selected
  {
    RemoveAppended(selected, city);
  }

  /** How the form ends a submission. */
  datatype SubmitOutcome = Submitted | SubmitFailed

  /** The outcome as the form computes it: only an exception leads to the error toast.
      `addAd` reports a failed insert by returning null, which the form does not look
      at, so a failed insert is announced as a success and the form navigates home. */
  function OutcomeAsWritten(thrown: bool, reply: Option<RankedAd>): (r: SubmitOutcome)
    ensures r == SubmitFailed <==> thrown
  {
    if thrown then SubmitFailed else Submitted
  }

  /** An insert that failed, without an exception, is reported as submitted. */
  lemma FailedInsertAnnounced()
    ensures OutcomeAsWritten(false, None) == Submitted
  {
  }

  /** The outcome the form evidently intends: a submission succeeds exactly when the ad
      was stored. */
  function Outcome(thrown: bool, reply: Option<RankedAd>): (r: SubmitOutcome)
    ensures r == Submitted <==> !thrown && reply.Some?
  {
    if thrown || reply.None? then SubmitFailed else Submitted
  }

  class SubmissionForm {
    var values: FormValues
    var customTag: string
    var isSubmitting: bool
    var navigated: Option<string>
    /** Whether the last submission showed the error toast. */
    var failed: bool

    constructor ()
      ensures values == DEFAULT_VALUES && customTag == "" && !isSubmitting && navigated.None? && !failed
    {
      values := DEFAULT_VALUES;
      customTag := "";
      isSubmitting := false;
      navigated := None;
      failed := false;
    }

    /** The tag box's text. */
    method TypeTag(input: string)
      modifies this
      ensures customTag == input && values == old(values)
      ensures isSubmitting == old(isSubmitting) && navigated == old(navigated) && failed == old(failed)
    {
      customTag := input;
    }

    /** `handleAddTag`: a new trimmed tag is appended and the box cleared; otherwise
        nothing changes. */
    method AddTag()
      modifies this
      ensures values == old(values).(tags := AddTrimmed(old(values.tags), old(customTag)))
      ensures customTag == if Accepts(old(values.tags), old(customTag)) then "" else old(customTag)
      ensures isSubmitting == old(isSubmitting) && navigated == old(navigated) && failed == old(failed)
    {
      var t := Trim(customTag);
      if t != "" && t !in values.tags {
        values := values.(tags := values.tags + [t]);
        customTag := "";
      }
    }

    /** `handleRemoveTag`: every copy of the tag goes, the others keep their order. */
    method RemoveTag(tag: string)
      modifies this
      ensures values == old(values).(tags := RemoveAll(old(values.tags), tag))
      ensures customTag == old(customTag)
      ensures isSubmitting == old(isSubmitting) && navigated == old(navigated) && failed == old(failed)
    {
      values := values.(tags := Filter(values.tags, Unequal(tag)));
    }

    /** A click on a city checkbox. */
    method ToggleCity(city: string, checked: bool)
      modifies this
      ensures values == old(values).(selectedCities := CheckCity(old(values.cityTarget), old(values.selectedCities), city, checked))
      ensures customTag == old(customTag)
      ensures isSubmitting == old(isSubmitting) && navigated == old(navigated) && failed == old(failed)
    {
      var next: seq<string>;
      if values.cityTarget == OneCity {
        next := if checked then [city] else [];
      } else if checked {
        next := values.selectedCities + [city];
      } else {
        next := Filter(values.selectedCities, Unequal(city));
      }
      values := values.(selectedCities := next);
    }

    /** `form.handleSubmit(onSubmit)`: values that break a rule are not submitted;
        otherwise the mapped input goes to `addAd`, whose result is `reply`, and the
        form navigates home exactly when the ad was stored. */
    method Submit(isUrl: string -> bool, thrown: bool, reply: Option<RankedAd>) returns (sent: Option<AdFormData>)
      modifies this
      ensures Issues(old(values), isUrl) != {} ==>
        sent.None? && navigated == old(navigated) && failed == old(failed)
      ensures Issues(old(values), isUrl) == {} ==>
        && sent == Some(Submission(old(values)))
        && (Outcome(thrown, reply) == Submitted ==> navigated == Some("/") && !failed)
        && (Outcome(thrown, reply) == SubmitFailed ==> navigated == old(navigated) && failed)
      ensures values == old(values) && customTag == old(customTag) && !isSubmitting
    {
      if Issues(values, isUrl) != {} {
        sent := None;
        isSubmitting := false;
        return;
      }
      isSubmitting := true;
      sent := Some(Submission(values));
      if Outcome(thrown, reply) == Submitted {
        navigated := Some("/");
        failed := false;
      } else {
        failed := true;
      }
      isSubmitting := false;
    }
  }
}
