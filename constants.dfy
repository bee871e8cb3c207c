/** The constant tables the pages share: categories, provinces (also used as cities),
    tags, age groups and ad types, each a list of value/caption entries. */
module Constants {
  import opened Wrappers
  import opened Seqs

  /** One option of a table. Category icons are presentation and are not modelled. */
  datatype Entry = Entry(value: string, caption: string)

  function Values(table: seq<Entry>): (r: seq<string>)
    ensures |r| == |table|
    ensures forall i :: 0 <= i < |table| ==> r[i] == table[i].value
  {
    seq(|table|, i requires 0 <= i < |table| => table[i].value)
  }

  /** `table.find(e => e.value === v)`: the first entry with that value. */
  function Find(table: seq<Entry>, v: string): (r: Option<Entry>)
    ensures r.Some? ==> r.value in table && r.value.value == v
    ensures r.None? <==> v !in Values(table)
  {
    if |table| == 0 then None
    else if table[0].value == v then Some(table[0])
    else
      var r := Find(table[1..], v);
      assert Values(table) == [table[0].value] + Values(table[1..]);
      r
  }

  /** No two entries share a value. */
  predicate DistinctValues(table: seq<Entry>)
  {
    Distinct(Values(table))
  }

  function Captions(table: seq<Entry>): (r: seq<string>)
    ensures |r| == |table|
    ensures forall i :: 0 <= i < |table| ==> r[i] == table[i].caption
  {
    seq(|table|, i requires 0 <= i < |table| => table[i].caption)
  }

  /** No two entries share a caption, so a caption names one option. */
  predicate DistinctCaptions(table: seq<Entry>)
  {
    Distinct(Captions(table))
  }

  /** Every entry has a non-empty caption. */
  predicate LabelsPresent(table: seq<Entry>)
  {
    forall i :: 0 <= i < |table| ==> table[i].caption != ""
  }

  const CATEGORIES: seq<Entry> := [
    Entry("chat", "چت و سرگرمی"),
    Entry("shopping", "خرید و فروش"),
    Entry("jobs", "کار و استخدام"),
    Entry("education", "آموزش"),
    Entry("entertainment", "سرگرمی"),
    Entry("health", "سلامت"),
    Entry("news", "اخبار"),
    Entry("music", "موسیقی"),
    Entry("food", "غذا و رستوران"),
    Entry("automotive", "خودرو"),
    Entry("realestate", "املاک"),
    Entry("tech", "تکنولوژی"),
    Entry("social", "اجتماعی")
  ]

  const PROVINCES: seq<Entry> := [
    Entry("alborz", "البرز"),
    Entry("ardabil", "اردبیل"),
    Entry("azarbayjan-e-sharghi", "آذربایجان شرقی"),
    Entry("azarbayjan-e-gharbi", "آذربایجان غربی"),
    Entry("bushehr", "بوشهر"),
    Entry("chaharmahal-va-bakhtiari", "چهارمحال و بختیاری"),
    Entry("fars", "فارس"),
    Entry("gilan", "گیلان"),
    Entry("golestan", "گلستان"),
    Entry("hamadan", "همدان"),
    Entry("hormozgan", "هرمزگان"),
    Entry("ilam", "ایلام"),
    Entry("isfahan", "اصفهان"),
    Entry("kerman", "کرمان"),
    Entry("kermanshah", "کرمانشاه"),
    Entry("khorasan-e-jonubi", "خراسان جنوبی"),
    Entry("khorasan-e-razavi", "خراسان رضوی"),
    Entry("khorasan-e-shomali", "خراسان شمالی"),
    Entry("khuzestan", "خوزستان"),
    Entry("kohgiluyeh-va-boyer-ahmad", "کهگیلویه و بویراحمد"),
    Entry("kurdistan", "کردستان"),
    Entry("lorestan", "لرستان"),
    Entry("markazi", "مرکزی"),
    Entry("mazandaran", "مازندران"),
    Entry("qazvin", "قزوین"),
    Entry("qom", "قم"),
    Entry("semnan", "سمنان"),
    Entry("sistan-va-baluchestan", "سیستان و بلوچستان"),
    Entry("tehran", "تهران"),
    Entry("yazd", "یزد"),
    Entry("zanjan", "زنجان")
  ]

  /** Kept as an alias of the province table. */
  const CITIES: seq<Entry> := PROVINCES

  const TAGS: seq<Entry> := [
    Entry("free", "رایگان"),
    Entry("discount", "تخفیف"),
    Entry("new", "جدید"),
    Entry("verified", "تأیید شده"),
    Entry("popular", "محبوب"),
    Entry("premium", "ویژه"),
    Entry("trusted", "معتبر"),
    Entry("active", "فعال")
  ]

  const AGE_GROUPS: seq<Entry> := [
    Entry("youth", "جوانان (۱۸-۲۵)"),
    Entry("adults", "بزرگسالان (۲۵-۴۰)"),
    Entry("middle", "میانسال (۴۰-۶۰)"),
    Entry("senior", "سالمندان (۶۰+)"),
    Entry("all", "همه سنین")
  ]

  const AD_TYPES: seq<Entry> := [
    Entry("group", "گروه"),
    Entry("channel", "کانال")
  ]

  lemma CategoriesShape()
    ensures |CATEGORIES| == 13 && DistinctValues(CATEGORIES) && LabelsPresent(CATEGORIES)
    ensures DistinctCaptions(CATEGORIES)
    ensures "all" !in Values(CATEGORIES)
  {
    CategoryValues();
    CategoryCaptions();
  }

  lemma CategoryValues()
    ensures DistinctValues(CATEGORIES) && "all" !in Values(CATEGORIES)
  {
    var front := ["chat", "shopping", "jobs", "education", "entertainment", "health"];
    var back := ["news", "music", "food", "automotive", "realestate", "tech", "social"];
    assert Values(CATEGORIES) == front + back;
    DistinctAppend(front, back);
  }

  lemma CategoryCaptions()
    ensures DistinctCaptions(CATEGORIES)
  {
    var front := ["چت و سرگرمی", "خرید و فروش", "کار و استخدام", "آموزش", "سرگرمی", "سلامت"];
    var back := ["اخبار", "موسیقی", "غذا و رستوران", "خودرو", "املاک", "تکنولوژی", "اجتماعی"];
    assert Captions(CATEGORIES) == front + back;
    DistinctAppend(front, back);
  }

  lemma ProvincesShape()
    ensures |PROVINCES| == 31 && DistinctValues(PROVINCES) && LabelsPresent(PROVINCES)
    ensures DistinctCaptions(PROVINCES)
    ensures CITIES == PROVINCES
  {
    var front, back := ProvinceHalves();
    DistinctAppend(front, back);
    ProvinceCaptions();
    var captionsFront, captionsBack := ProvinceCaptionHalves();
    DistinctAppend(captionsFront, captionsBack);
  }

  /** The province captions, split in two halves that are compared separately. */
  lemma ProvinceCaptionHalves() returns (front: seq<string>, back: seq<string>)
    ensures Captions(PROVINCES) == front + back
    ensures Distinct(front) && Distinct(back)
    ensures forall i :: 0 <= i < |front| ==> front[i] !in back
  {
    front := ["البرز", "اردبیل", "آذربایجان شرقی", "آذربایجان غربی", "بوشهر", "چهارمحال و بختیاری", "فارس", "گیلان", "گلستان", "همدان", "هرمزگان", "ایلام", "اصفهان", "کرمان", "کرمانشاه"];
    back := ["خراسان جنوبی", "خراسان رضوی", "خراسان شمالی", "خوزستان", "کهگیلویه و بویراحمد", "کردستان", "لرستان", "مرکزی", "مازندران", "قزوین", "قم", "سمنان", "سیستان و بلوچستان", "تهران", "یزد", "زنجان"];
    ProvinceCaptionList(front, back);
    CaptionsFront(front);
    CaptionsBack(back);
    CaptionHalvesDisjoint(front, back);
  }

  lemma ProvinceCaptionList(front: seq<string>, back: seq<string>)
    requires front == ["البرز", "اردبیل", "آذربایجان شرقی", "آذربایجان غربی", "بوشهر", "چهارمحال و بختیاری", "فارس", "گیلان", "گلستان", "همدان", "هرمزگان", "ایلام", "اصفهان", "کرمان", "کرمانشاه"]
    requires back == ["خراسان جنوبی", "خراسان رضوی", "خراسان شمالی", "خوزستان", "کهگیلویه و بویراحمد", "کردستان", "لرستان", "مرکزی", "مازندران", "قزوین", "قم", "سمنان", "سیستان و بلوچستان", "تهران", "یزد", "زنجان"]
    ensures Captions(PROVINCES) == front + back
  {
  }

  lemma CaptionsFront(front: seq<string>)
    requires front == ["البرز", "اردبیل", "آذربایجان شرقی", "آذربایجان غربی", "بوشهر", "چهارمحال و بختیاری", "فارس", "گیلان", "گلستان", "همدان", "هرمزگان", "ایلام", "اصفهان", "کرمان", "کرمانشاه"]
    ensures Distinct(front)
  {
  }

  lemma CaptionsBack(back: seq<string>)
    requires back == ["خراسان جنوبی", "خراسان رضوی", "خراسان شمالی", "خوزستان", "کهگیلویه و بویراحمد", "کردستان", "لرستان", "مرکزی", "مازندران", "قزوین", "قم", "سمنان", "سیستان و بلوچستان", "تهران", "یزد", "زنجان"]
    ensures Distinct(back)
  {
  }

  lemma CaptionHalvesDisjoint(front: seq<string>, back: seq<string>)
    requires front == ["البرز", "اردبیل", "آذربایجان شرقی", "آذربایجان غربی", "بوشهر", "چهارمحال و بختیاری", "فارس", "گیلان", "گلستان", "همدان", "هرمزگان", "ایلام", "اصفهان", "کرمان", "کرمانشاه"]
    requires back == ["خراسان جنوبی", "خراسان رضوی", "خراسان شمالی", "خوزستان", "کهگیلویه و بویراحمد", "کردستان", "لرستان", "مرکزی", "مازندران", "قزوین", "قم", "سمنان", "سیستان و بلوچستان", "تهران", "یزد", "زنجان"]
    ensures forall i :: 0 <= i < |front| ==> front[i] !in back
  {
  }

  /** The province values, split in two halves that are compared separately. */
  lemma ProvinceHalves() returns (front: seq<string>, back: seq<string>)
    ensures Values(PROVINCES) == front + back
    ensures Distinct(front) && Distinct(back)
    ensures forall i :: 0 <= i < |front| ==> front[i] !in back
  {
    front, back := ProvinceValues();
    DistinctFront(front);
    DistinctBack(back);
    HalvesDisjoint(front, back);
  }

  lemma ProvinceValues() returns (front: seq<string>, back: seq<string>)
    ensures Values(PROVINCES) == front + back
    ensures front == ["alborz", "ardabil", "azarbayjan-e-sharghi", "azarbayjan-e-gharbi", "bushehr", "chaharmahal-va-bakhtiari", "fars", "gilan", "golestan", "hamadan", "hormozgan", "ilam", "isfahan", "kerman", "kermanshah"]
    ensures back == ["khorasan-e-jonubi", "khorasan-e-razavi", "khorasan-e-shomali", "khuzestan", "kohgiluyeh-va-boyer-ahmad", "kurdistan", "lorestan", "markazi", "mazandaran", "qazvin", "qom", "semnan", "sistan-va-baluchestan", "tehran", "yazd", "zanjan"]
  {
    front := ["alborz", "ardabil", "azarbayjan-e-sharghi", "azarbayjan-e-gharbi", "bushehr", "chaharmahal-va-bakhtiari", "fars", "gilan", "golestan", "hamadan", "hormozgan", "ilam", "isfahan", "kerman", "kermanshah"];
    back := ["khorasan-e-jonubi", "khorasan-e-razavi", "khorasan-e-shomali", "khuzestan", "kohgiluyeh-va-boyer-ahmad", "kurdistan", "lorestan", "markazi", "mazandaran", "qazvin", "qom", "semnan", "sistan-va-baluchestan", "tehran", "yazd", "zanjan"];
  }

  lemma DistinctFront(front: seq<string>)
    requires front == ["alborz", "ardabil", "azarbayjan-e-sharghi", "azarbayjan-e-gharbi", "bushehr", "chaharmahal-va-bakhtiari", "fars", "gilan", "golestan", "hamadan", "hormozgan", "ilam", "isfahan", "kerman", "kermanshah"]
    ensures Distinct(front)
  {
  }

  lemma DistinctBack(back: seq<string>)
    requires back == ["khorasan-e-jonubi", "khorasan-e-razavi", "khorasan-e-shomali", "khuzestan", "kohgiluyeh-va-boyer-ahmad", "kurdistan", "lorestan", "markazi", "mazandaran", "qazvin", "qom", "semnan", "sistan-va-baluchestan", "tehran", "yazd", "zanjan"]
    ensures Distinct(back)
  {
  }

  lemma HalvesDisjoint(front: seq<string>, back: seq<string>)
    requires front == ["alborz", "ardabil", "azarbayjan-e-sharghi", "azarbayjan-e-gharbi", "bushehr", "chaharmahal-va-bakhtiari", "fars", "gilan", "golestan", "hamadan", "hormozgan", "ilam", "isfahan", "kerman", "kermanshah"]
    requires back == ["khorasan-e-jonubi", "khorasan-e-razavi", "khorasan-e-shomali", "khuzestan", "kohgiluyeh-va-boyer-ahmad", "kurdistan", "lorestan", "markazi", "mazandaran", "qazvin", "qom", "semnan", "sistan-va-baluchestan", "tehran", "yazd", "zanjan"]
    ensures forall i :: 0 <= i < |front| ==> front[i] !in back
  {
  }

  lemma ProvinceCaptions()
    ensures |PROVINCES| == 31 && LabelsPresent(PROVINCES)
  {
  }

  lemma TagsShape()
    ensures |TAGS| == 8 && DistinctValues(TAGS) && LabelsPresent(TAGS)
    ensures DistinctCaptions(TAGS)
  {
  }

  lemma AgeGroupsShape()
    ensures |AGE_GROUPS| == 5 && DistinctValues(AGE_GROUPS) && LabelsPresent(AGE_GROUPS)
    ensures "all" in Values(AGE_GROUPS)
  {
    assert Values(AGE_GROUPS)[4] == "all";
  }

  lemma AdTypesShape()
    ensures Values(AD_TYPES) == ["group", "channel"] && LabelsPresent(AD_TYPES)
  {
  }
}
