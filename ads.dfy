/** The ad store's record handling: rows read from the `ads` table become `RankedAd`s,
    rows written for seeding, for a submission and for a partial update. The database
    calls themselves are not modelled; what they return is a parameter. */
module Ads {
  import opened Wrappers
  import opened Seqs
  import opened Types

  const PLACEHOLDER_IMAGE := "https://picsum.photos/400/300"
  const DEFAULT_RELEVANCE := 0.5
  const DEFAULT_AD_TYPE := "group"

  /** A row of the `ads` table as read back; nullable columns are options. The
      locations column is still called `cities`. */
  datatype DbAd = DbAd(
    id: string,
    name: string,
    text: string,
    category: string,
    telegramLink: string,
    imageUrl: Option<string>,
    members: Option<int>,
    tags: Option<seq<string>>,
    cities: Option<seq<string>>,
    ageGroups: Option<seq<string>>,
    minAge: Option<int>,
    maxAge: Option<int>,
    relevanceScore: Option<real>,
    createdAt: string,
    adType: Option<string>)

  /** The columns of an insert; `None` leaves a column out of the payload. */
  datatype NewAd = NewAd(
    userId: Option<string>,
    name: string,
    text: string,
    category: string,
    telegramLink: string,
    imageUrl: Option<string>,
    members: int,
    tags: seq<string>,
    cities: seq<string>,
    ageGroups: seq<string>,
    minAge: Option<int>,
    maxAge: Option<int>,
    relevanceScore: Option<real>,
    adType: Option<string>,
    isApproved: Option<bool>,
    status: Option<string>)

  /** `x || d` for a nullable string: empty and null both give `d`. */
  function OrText(x: Option<string>, d: string): string
  {
    if x.Some? && x.value != "" then x.value else d
  }

  /** `mapDbAdToRankedAd`. */
  function MapDbAdToRankedAd(db: DbAd): (r: RankedAd)
    ensures r.imageUrl != "" && r.relevanceScore != 0.0 && r.adType != ""
    ensures r.cities.None?
    ensures r.id == db.id && r.name == db.name && r.text == db.text
    ensures r.category == db.category && r.telegramLink == db.telegramLink
    ensures r.createdAt == db.createdAt
  {
    RankedAd(
      db.id, db.name, db.text, db.category, db.telegramLink, db.createdAt,
      OrText(db.imageUrl, PLACEHOLDER_IMAGE),
      if db.members.Some? && db.members.value != 0 then db.members.value else 0,
      db.tags.GetOr([]),
      None,
      db.cities.GetOr([]),
      db.ageGroups.GetOr([]),
      db.minAge,
      db.maxAge,
      if db.relevanceScore.Some? && db.relevanceScore.value != 0.0 then db.relevanceScore.value
      else DEFAULT_RELEVANCE,
      OrText(db.adType, DEFAULT_AD_TYPE))
  }

  /** The defaults of the mapper, column by column. */
  lemma MapDefaults(db: DbAd)
    ensures var r := MapDbAdToRankedAd(db);
      && (db.imageUrl.None? ==> r.imageUrl == PLACEHOLDER_IMAGE)
      && (db.members.None? ==> r.members == 0)
      && (db.members.Some? ==> r.members == db.members.value)
      && (db.tags.None? ==> r.tags == [])
      && (db.cities.None? ==> r.provinces == [])
      && (db.cities.Some? ==> r.provinces == db.cities.value)
      && (db.ageGroups.None? ==> r.ageGroups == [])
      && (db.minAge.None? ==> r.minAge.None?)
      && (db.minAge == Some(0) ==> r.minAge == Some(0))
      && (db.maxAge.None? ==> r.maxAge.None?)
      && (db.maxAge == Some(0) ==> r.maxAge == Some(0))
      && ((db.relevanceScore.None? || db.relevanceScore == Some(0.0)) ==> r.relevanceScore == 0.5)
      && (db.adType.None? ==> r.adType == "group")
  {
  }

  /** The row the database returns for an inserted one: the columns as written, the
      generated `id` and `created_at`. */
  function Stored(row: NewAd, id: string, createdAt: string): DbAd
  {
    DbAd(id, row.name, row.text, row.category, row.telegramLink, row.imageUrl,
      Some(row.members), Some(row.tags), Some(row.cities), Some(row.ageGroups),
      row.minAge, row.maxAge, row.relevanceScore, createdAt, row.adType)
  }

  /** `rows.map(mapDbAdToRankedAd)`: one ad per row, in order. */
  function MapRows(rows: seq<DbAd>): (r: seq<RankedAd>)
    ensures |r| == |rows|
    ensures forall i :: 0 <= i < |rows| ==> r[i] == MapDbAdToRankedAd(rows[i])
  {
    seq(|rows|, i requires 0 <= i < |rows| => MapDbAdToRankedAd(rows[i]))
  }

  /** `getAds`, with `reply` the first read (`None` an error, `Some(None)` null data) and
      `seeded` the read after seeding (`None` null data). An error gives no ads; an empty
      or null table is seeded and read again; otherwise the rows read are mapped. */
  function GetAds(reply: Option<Option<seq<DbAd>>>, seeded: Option<seq<DbAd>>): (r: seq<RankedAd>)
    ensures reply.None? ==> r == []
    ensures reply.Some? && (reply.value.None? || |reply.value.value| == 0) ==>
      r == MapRows(seeded.GetOr([]))
    ensures reply.Some? && reply.value.Some? && |reply.value.value| > 0 ==> r == MapRows(reply.value.value)
  {
    match reply
    case None => []
    case Some(data) =>
      if data.None? || |data.value| == 0 then MapRows(seeded.GetOr([])) else MapRows(data.value)
  }

  /** The read-back after seeding matters only for an empty table. */
  lemma GetAdsSeedsOnlyEmpty(reply: Option<Option<seq<DbAd>>>, seeded: Option<seq<DbAd>>, other: Option<seq<DbAd>>)
    requires GetAds(reply, seeded) != GetAds(reply, other)
    ensures reply.Some? && (reply.value.None? || reply.value.value == [])
  {
  }

  /** `getUserAds`: the user's rows mapped, or none on an error or null data. */
  function GetUserAds(reply: Option<Option<seq<DbAd>>>): (r: seq<RankedAd>)
    ensures reply.None? || reply.value.None? ==> r == []
    ensures reply.Some? && reply.value.Some? ==> r == MapRows(reply.value.value)
  {
    if reply.Some? && reply.value.Some? then MapRows(reply.value.value) else []
  }

  /** The user's ads read from the rows the query returns: one ad per row, with its
      id, date and an image to show; rows ordered newest first (`order("created_at",
      { ascending: false })`, with `ts` the timestamp order) give ads in that order.
      An error or null data gives none, so the dashboard reads like the public listing
      without the seeding. */
  lemma GetUserAdsRows(reply: Option<Option<seq<DbAd>>>, ts: string -> int)
    ensures reply.Some? && reply.value.Some? ==>
      var rows := reply.value.value;
      var r := GetUserAds(reply);
      && |r| == |rows|
      && (forall i :: 0 <= i < |r| ==>
            r[i].id == rows[i].id && r[i].createdAt == rows[i].createdAt && r[i].imageUrl != "")
      && ((forall i, j :: 0 <= i < j < |rows| ==> ts(rows[i].createdAt) >= ts(rows[j].createdAt)) ==>
          (forall i, j :: 0 <= i < j < |r| ==> ts(r[i].createdAt) >= ts(r[j].createdAt)))
    ensures GetUserAds(reply) == GetAds(reply, None)
  {
  }

  /** `deleteAd`: true exactly when the delete reported no error. */
  function DeleteAd(failed: bool): (r: bool)
    ensures r <==> !failed
  {
    !failed
  }

  function OtherId(adId: string): DbAd -> bool
  {
    (row: DbAd) => row.id != adId
  }

  /** The table after `delete().eq("id", adId)`: the rows with that id go, unless the
      delete failed. */
  function AfterDelete(rows: seq<DbAd>, adId: string, failed: bool): seq<DbAd>
  {
    if failed then rows else Filter(rows, OtherId(adId))
  }

  /** `eq("id", adId).maybeSingle()` read against the table: the one row with the id,
      or nothing for no row or several. */
  function ReadById(rows: seq<DbAd>, adId: string): Option<DbAd>
  {
    var found := Filter(rows, (row: DbAd) => row.id == adId);
    if |found| == 1 then Some(found[0]) else None
  }

  /** When `deleteAd` reports success the ad can no longer be read, and every other row
      stays in its order; when it reports failure the table is as before. */
  lemma DeleteThenRead(rows: seq<DbAd>, adId: string, failed: bool)
    ensures DeleteAd(failed) ==> GetAdById(adId, ReadById(AfterDelete(rows, adId, failed), adId)).None?
    ensures DeleteAd(failed) ==> forall row :: row in rows && row.id != adId ==> row in AfterDelete(rows, adId, failed)
    ensures IsSubsequence(AfterDelete(rows, adId, failed), rows)
    ensures !DeleteAd(failed) ==> AfterDelete(rows, adId, failed) == rows
  {
    var after := AfterDelete(rows, adId, failed);
    if failed {
      FilterAll(rows, (row: DbAd) => true);
      FilterIsSubsequence(rows, (row: DbAd) => true);
    } else {
      FilterIsSubsequence(rows, OtherId(adId));
    }
  }

  /** `getAdById`, with `reply` `None` for an error or no row: null, or the mapped row,
      whose id is the one asked for when the database honoured the filter. */
  function GetAdById(adId: string, reply: Option<DbAd>): (r: Option<RankedAd>)
    ensures r.None? <==> reply.None?
    ensures reply.Some? && reply.value.id == adId ==> r.value.id == adId
  {
    match reply
    case None => None
    case Some(row) => Some(MapDbAdToRankedAd(row))
  }

  /** An entry of the built-in seed list. */
  datatype SeedAd = SeedAd(
    name: string,
    text: string,
    category: string,
    telegramLink: string,
    imageUrl: string,
    members: int,
    tags: seq<string>,
    provinces: seq<string>,
    ageGroups: seq<string>,
    relevanceScore: real,
    adType: string)

  /** The insert row of one seed entry; its provinces go to the `cities` column. */
  function SeedRow(ad: SeedAd): NewAd
  {
    NewAd(None, ad.name, ad.text, ad.category, ad.telegramLink, Some(ad.imageUrl),
      ad.members, ad.tags, ad.provinces, ad.ageGroups, None, None,
      Some(ad.relevanceScore), Some(ad.adType), None, None)
  }

  /** `seedAds.map(...)`: one row per seed entry, in order. */
  function SeedRows(seeds: seq<SeedAd>): (r: seq<NewAd>)
    ensures |r| == |seeds|
    ensures forall i :: 0 <= i < |seeds| ==> r[i] == SeedRow(seeds[i])
  {
    if |seeds| == 0 then [] else [SeedRow(seeds[0])] + SeedRows(seeds[1..])
  }

  /** A seeded row reads back as the seed entry, provided the entry needs none of the
      mapper's defaults. */
  lemma SeedRoundTrip(ad: SeedAd, id: string, createdAt: string)
    requires ad.imageUrl != "" && ad.relevanceScore != 0.0 && ad.adType != ""
    ensures var r := MapDbAdToRankedAd(Stored(SeedRow(ad), id, createdAt));
      && r.name == ad.name && r.text == ad.text && r.category == ad.category
      && r.telegramLink == ad.telegramLink && r.imageUrl == ad.imageUrl
      && r.members == ad.members && r.tags == ad.tags && r.provinces == ad.provinces
      && r.ageGroups == ad.ageGroups && r.relevanceScore == ad.relevanceScore
      && r.adType == ad.adType && r.minAge.None? && r.maxAge.None?
  {
  }

  /** The insert row of `addAd`. The image defaults to a picsum URL seeded with the
      clock (`stamp` is its decimal text); `random` in [0, 1) stands for `Math.random()`.
      The form data has no `provinces` and no `adType`, so the `cities` column is always
      empty and `ad_type` is never sent. */
  function AddAdRow(data: AdFormData, userId: string, stamp: string, random: real): NewAd
  {
    NewAd(Some(userId), data.name, data.text, data.category, data.telegramLink,
      Some(OrText(data.imageUrl, "https://picsum.photos/seed/" + stamp + "/400/300")),
      data.members, data.tags, [], data.ageGroups, data.minAge, data.maxAge,
      Some(random * 0.3 + 0.7), None, None, None)
  }

  /** `addAd`: the mapped stored row, or null when the insert failed. */
  function AddAd(data: AdFormData, userId: string, stamp: string, random: real,
                 reply: Option<DbAd>): (r: Option<RankedAd>)
    ensures r.Some? <==> reply.Some?
  {
    match reply
    case None => None
    case Some(row) => Some(MapDbAdToRankedAd(row))
  }

  /** Whatever cities a submission selects, the stored ad reads back with no provinces,
      and its relevance lies in [0.7, 1.0). */
  lemma SubmittedCitiesDropped(data: AdFormData, userId: string, stamp: string,
                               random: real, id: string, createdAt: string)
    requires 0.0 <= random < 1.0
    ensures var r := MapDbAdToRankedAd(Stored(AddAdRow(data, userId, stamp, random), id, createdAt));
      r.provinces == [] && r.adType == "group" && 0.7 <= r.relevanceScore < 1.0
  {
  }

  /** A value of the update dictionary. */
  datatype Value = Str(s: string) | Num(n: int) | Strs(xs: seq<string>)

  /** `Partial<AdFormData>` with the fields `updateAd` reads. Callers pass `cities`,
      which `updateAd` does not read; it reads `provinces` instead. */
  datatype AdPatch = AdPatch(
    name: Option<string>,
    text: Option<string>,
    category: Option<string>,
    telegramLink: Option<string>,
    imageUrl: Option<string>,
    members: Option<int>,
    tags: Option<seq<string>>,
    cities: Option<seq<string>>,
    provinces: Option<seq<string>>,
    ageGroups: Option<seq<string>>,
    minAge: Option<int>,
    maxAge: Option<int>,
    adType: Option<string>)

  /** A column of the `ads` table that an update may write. */
  datatype Column =
    | Name | Text | Category | TelegramLink | ImageUrl | Members | Tags | Cities
    | AgeGroups | MinAge | MaxAge | AdType

  /** The column's name in the table. */
  function ColumnName(c: Column): string
  {
    match c
    case Name => "name"
    case Text => "text"
    case Category => "category"
    case TelegramLink => "telegram_link"
    case ImageUrl => "image_url"
    case Members => "members"
    case Tags => "tags"
    case Cities => "cities"
    case AgeGroups => "age_groups"
    case MinAge => "min_age"
    case MaxAge => "max_age"
    case AdType => "ad_type"
  }

  function TextOf(x: Option<string>): Option<Value>
  {
    if x.Some? then Some(Str(x.value)) else None
  }

  function NumberOf(x: Option<int>): Option<Value>
  {
    if x.Some? then Some(Num(x.value)) else None
  }

  function TextsOf(x: Option<seq<string>>): Option<Value>
  {
    if x.Some? then Some(Strs(x.value)) else None
  }

  /** The value a column gets from a patch: each camelCase field goes to its
      snake_case column, and the `cities` column is fed from `provinces`. */
  function PatchField(p: AdPatch, c: Column): Option<Value>
  {
    match c
    case Name => TextOf(p.name)
    case Text => TextOf(p.text)
    case Category => TextOf(p.category)
    case TelegramLink => TextOf(p.telegramLink)
    case ImageUrl => TextOf(p.imageUrl)
    case Members => NumberOf(p.members)
    case Tags => TextsOf(p.tags)
    case Cities => TextsOf(p.provinces)
    case AgeGroups => TextsOf(p.ageGroups)
    case MinAge => NumberOf(p.minAge)
    case MaxAge => NumberOf(p.maxAge)
    case AdType => TextOf(p.adType)
  }

  /** A patch's `cities` field plays no part in the update. */
  lemma PatchIgnoresCities(p: AdPatch, c: Column, other: Option<seq<string>>)
    ensures PatchField(p.(cities := other), c) == PatchField(p, c)
    ensures ColumnName(Cities) == "cities" && PatchField(p, Cities) == TextsOf(p.provinces)
  {
  }

  /** The columns in the order `updateAd` considers them. */
  const COLUMN_ORDER: seq<Column> := [Name, Text, Category, TelegramLink, ImageUrl, Members, Tags, Cities, AgeGroups, MinAge, MaxAge, AdType]

  /** The dictionary with `c` set to `v` when `v` is defined. */
  function Put(d: map<Column, Value>, c: Column, v: Option<Value>): map<Column, Value>
  {
    if v.Some? then d[c := v.value] else d
  }

  lemma ColumnPositions()
    ensures COLUMN_ORDER[0] == Name && COLUMN_ORDER[1] == Text && COLUMN_ORDER[2] == Category
    ensures COLUMN_ORDER[3] == TelegramLink && COLUMN_ORDER[4] == ImageUrl && COLUMN_ORDER[5] == Members
    ensures COLUMN_ORDER[6] == Tags && COLUMN_ORDER[7] == Cities && COLUMN_ORDER[8] == AgeGroups
    ensures COLUMN_ORDER[9] == MinAge && COLUMN_ORDER[10] == MaxAge && COLUMN_ORDER[11] == AdType
  {
  }

  /** Every column is among those `updateAd` considers. */
  lemma ColumnOrdered(c: Column)
    ensures c in COLUMN_ORDER
  {
    match c
    case Name => assert COLUMN_ORDER[0] == Name;
    case Text => assert COLUMN_ORDER[1] == Text;
    case Category => assert COLUMN_ORDER[2] == Category;
    case TelegramLink => assert COLUMN_ORDER[3] == TelegramLink;
    case ImageUrl => assert COLUMN_ORDER[4] == ImageUrl;
    case Members => assert COLUMN_ORDER[5] == Members;
    case Tags => assert COLUMN_ORDER[6] == Tags;
    case Cities => assert COLUMN_ORDER[7] == Cities;
    case AgeGroups => assert COLUMN_ORDER[8] == AgeGroups;
    case MinAge => assert COLUMN_ORDER[9] == MinAge;
    case MaxAge => assert COLUMN_ORDER[10] == MaxAge;
    case AdType => assert COLUMN_ORDER[11] == AdType;
  }

  /** The dictionary after the first `k` columns have been considered. */
  function FilledUpTo(p: AdPatch, k: nat): map<Column, Value>
    requires k <= |COLUMN_ORDER|
  {
    if k == 0 then map[]
    else
      Put(FilledUpTo(p, k - 1), COLUMN_ORDER[k - 1], PatchField(p, COLUMN_ORDER[k - 1]))
  }

  /** After `k` columns the dictionary holds exactly the defined ones among them. */
  lemma {:induction false} FilledUpToSpec(p: AdPatch, k: nat)
    requires k <= |COLUMN_ORDER|
    ensures forall c :: c in FilledUpTo(p, k) <==> c in COLUMN_ORDER[..k] && PatchField(p, c).Some?
    ensures forall c :: c in FilledUpTo(p, k) ==> FilledUpTo(p, k)[c] == PatchField(p, c).value
  {
    if k > 0 {
      FilledUpToSpec(p, k - 1);
      var c := COLUMN_ORDER[k - 1];
      assert COLUMN_ORDER[..k] == COLUMN_ORDER[..k - 1] + [c];
      assert FilledUpTo(p, k) == Put(FilledUpTo(p, k - 1), c, PatchField(p, c));
    }
  }

  /** The complete dictionary holds exactly the columns the patch defines. */
  lemma FilledSpec(p: AdPatch, d: map<Column, Value>)
    requires d == FilledUpTo(p, |COLUMN_ORDER|)
    ensures forall c :: c in d <==> PatchField(p, c).Some?
    ensures forall c :: c in d ==> d[c] == PatchField(p, c).value
  {
    FilledUpToSpec(p, |COLUMN_ORDER|);
    assert COLUMN_ORDER[..|COLUMN_ORDER|] == COLUMN_ORDER;
    forall c: Column
      ensures c in COLUMN_ORDER
    {
      ColumnOrdered(c);
    }
  }

  /** One `if (updates.field !== undefined) updateData.column = updates.field`. */
  method SetIfDefined(d: map<Column, Value>, c: Column, v: Option<Value>, ghost p: AdPatch, ghost k: nat)
    returns (r: map<Column, Value>)
    requires 0 < k <= |COLUMN_ORDER| && COLUMN_ORDER[k - 1] == c && v == PatchField(p, c)
    requires d == FilledUpTo(p, k - 1)
    ensures r == FilledUpTo(p, k)
  {
    r := d;
    if v.Some? {
      r := r[c := v.value];
    }
  }

  /** The `updateData` dictionary of `updateAd`, filled one defined field at a time:
      a column is present exactly when the patch defines its field. */
  method BuildUpdate(p: AdPatch) returns (updateData: map<Column, Value>)
    ensures forall c :: c in updateData <==> PatchField(p, c).Some?
    ensures forall c :: c in updateData ==> updateData[c] == PatchField(p, c).value
  {
    ColumnPositions();
    updateData := map[];
    updateData := SetIfDefined(updateData, Name, TextOf(p.name), p, 1);
    updateData := SetIfDefined(updateData, Text, TextOf(p.text), p, 2);
    updateData := SetIfDefined(updateData, Category, TextOf(p.category), p, 3);
    updateData := SetIfDefined(updateData, TelegramLink, TextOf(p.telegramLink), p, 4);
    updateData := SetIfDefined(updateData, ImageUrl, TextOf(p.imageUrl), p, 5);
    updateData := SetIfDefined(updateData, Members, NumberOf(p.members), p, 6);
    updateData := SetIfDefined(updateData, Tags, TextsOf(p.tags), p, 7);
    updateData := SetIfDefined(updateData, Cities, TextsOf(p.provinces), p, 8);
    updateData := SetIfDefined(updateData, AgeGroups, TextsOf(p.ageGroups), p, 9);
    updateData := SetIfDefined(updateData, MinAge, NumberOf(p.minAge), p, 10);
    updateData := SetIfDefined(updateData, MaxAge, NumberOf(p.maxAge), p, 11);
    updateData := SetIfDefined(updateData, AdType, TextOf(p.adType), p, 12);
    FilledSpec(p, updateData);
  }

  /** `updateAd`'s result: null on an error or when no row comes back, otherwise the
      mapped row. */
  function UpdateAd(reply: Option<DbAd>): (r: Option<RankedAd>)
    ensures r.None? <==> reply.None?
    ensures reply.Some? ==> r.value.id == reply.value.id
  {
    match reply
    case None => None
    case Some(row) => Some(MapDbAdToRankedAd(row))
  }
}
