/** The records the application passes around. */
module Types {
  import opened Wrappers

  /** A listed ad as the record mapper builds it. The interface declares `cities` as a
      required list, but the mapper never fills it, so it is absent here (`None`). The
      mapper writes the database locations to `provinces` and also sets `adType`, two
      fields the interface does not declare. */
  datatype RankedAd = RankedAd(
    id: string,
    name: string,
    text: string,
    category: string,
    telegramLink: string,
    createdAt: string,
    imageUrl: string,
    members: int,
    tags: seq<string>,
    cities: Option<seq<string>>,
    provinces: seq<string>,
    ageGroups: seq<string>,
    minAge: Option<int>,
    maxAge: Option<int>,
    relevanceScore: real,
    adType: string)

  /** What the submission form hands to the store. It has no `provinces` and no `adType`. */
  datatype AdFormData = AdFormData(
    category: string,
    name: string,
    text: string,
    telegramLink: string,
    members: int,
    imageUrl: Option<string>,
    cities: seq<string>,
    ageGroups: seq<string>,
    minAge: Option<int>,
    maxAge: Option<int>,
    tags: seq<string>)
}
