/**
 * One node record of the Lightning Network rankings API and its projection
 * into the display-ready view object.
 */
module LightningNodes {

  /** Kotlin's nullable values (`String?`, `Map<String, String>?`). */
  datatype Option<+T> = None | Some(value: T)

  /** A node record as decoded from the API's JSON. */
  datatype LightningNode = LightningNode(
    publicKey: string,
    alias: Option<string>,
    channels: int,
    capacity: int,                           // satoshis
    firstSeen: int,                          // Unix seconds
    updatedAt: int,                          // Unix seconds
    city: Option<map<string, string>>,       // language code -> name
    country: Option<map<string, string>>)    // language code -> name

  /** The display-ready projection of a node record. */
  datatype LightningNodeViewObject = LightningNodeViewObject(
    publicKey: string,
    alias: string,
    channels: int,
    capacityBtc: real,
    firstSeen: string,
    updatedAt: string,
    city: string,
    country: string)

  /** Placeholder for an absent alias or an unresolved locality. */
  const Unknown: string := "Unknown"

  /** Satoshis in one bitcoin. */
  const SatoshisPerBtc: int := 100_000_000

  /** The language preference of the locality lookup, most preferred first. */
  const LocalePreference: seq<string> := ["pt-BR", "en"]

  /**
   * Reference definition of a language-preference lookup: the name under the
   * first language of `languages` that `names` has, or None when it has none.
   */
  function FirstLocalized(names: map<string, string>, languages: seq<string>): (r: Option<string>)
    ensures r.None? <==> forall i :: 0 <= i < |languages| ==> languages[i] !in names
    ensures r.Some? ==>
      exists i :: 0 <= i < |languages| && languages[i] in names && names[languages[i]] == r.value &&
        forall j :: 0 <= j < i ==> languages[j] !in names
  {
    if languages == [] then None
    else if languages[0] in names then Some(names[languages[0]])
    else FirstLocalized(names, languages[1..])
  }

  /**
   * The localized name of a city or country: the "pt-BR" entry, else the
   * "en" entry, else Unknown (also when the map itself is absent).
   */
  function GetLocalizedValue(names: Option<map<string, string>>): (r: string)
    ensures names.Some? && "pt-BR" in names.value ==> r == names.value["pt-BR"]
    ensures names.Some? && "pt-BR" !in names.value && "en" in names.value ==> r == names.value["en"]
    ensures names.None? || ("pt-BR" !in names.value && "en" !in names.value) ==> r == Unknown
  {
    match names
    case None => Unknown
    case Some(m) =>
      if "pt-BR" in m then m["pt-BR"]
      else if "en" in m then m["en"]
      else Unknown
  }

  /**
   * The view object of a node record. `formatDate` stands for the platform's
   * date formatter, which depends on the default locale and time zone.
   */
  function ToViewObject(node: LightningNode, formatDate: int -> string): (v: LightningNodeViewObject)
    ensures v.publicKey == node.publicKey && v.channels == node.channels
    ensures node.alias.Some? ==> v.alias == node.alias.value
    ensures node.alias.None? ==> v.alias == Unknown
    ensures v.capacityBtc * SatoshisPerBtc as real == node.capacity as real
    ensures v.firstSeen == formatDate(node.firstSeen) && v.updatedAt == formatDate(node.updatedAt)
    ensures v.city == GetLocalizedValue(node.city) && v.country == GetLocalizedValue(node.country)
  {
    LightningNodeViewObject(
      publicKey := node.publicKey,
      alias := match node.alias case Some(a) => a case None => Unknown,
      channels := node.channels,
      capacityBtc := node.capacity as real / SatoshisPerBtc as real,
      firstSeen := formatDate(node.firstSeen),
      updatedAt := formatDate(node.updatedAt),
      city := GetLocalizedValue(node.city),
      country := GetLocalizedValue(node.country))
  }

  /** The locality lookup is the preference lookup over LocalePreference, defaulting to Unknown. */
  lemma LocalizedValueFollowsPreference(names: Option<map<string, string>>)
    ensures names.None? ==> GetLocalizedValue(names) == Unknown
    ensures names.Some? ==>
      GetLocalizedValue(names) ==
        match FirstLocalized(names.value, LocalePreference) case Some(n) => n case None => Unknown
  {
  }

  /** A resolved locality is either the placeholder or one of the names in the map. */
  lemma LocalizedValueIsAName(names: Option<map<string, string>>)
    ensures GetLocalizedValue(names) == Unknown || (names.Some? && GetLocalizedValue(names) in names.value.Values)
  {
  }

  /** City and country are resolved by the same rule, each from its own map only. */
  lemma CityAndCountryResolvedIndependently(
    a: LightningNode, b: LightningNode, formatDate: int -> string)
    ensures a.city == b.city ==> ToViewObject(a, formatDate).city == ToViewObject(b, formatDate).city
    ensures a.country == b.country ==> ToViewObject(a, formatDate).country == ToViewObject(b, formatDate).country
    ensures a.city == a.country ==> ToViewObject(a, formatDate).city == ToViewObject(a, formatDate).country
  {
  }

  /** Both timestamps go through the one formatter: equal timestamps give equal strings. */
  lemma TimestampsShareFormatter(node: LightningNode, formatDate: int -> string)
    requires node.firstSeen == node.updatedAt
    ensures ToViewObject(node, formatDate).firstSeen == ToViewObject(node, formatDate).updatedAt
  {
  }

  /**
   * The record of the repository's success test, projected: 25,000,000 satoshis
   * is 0.25 BTC and the "pt-BR" names are taken.
   */
  lemma RepositoryTestRecord(formatDate: int -> string)
    ensures ToViewObject(
      LightningNode("publicKey1", Some("Node 1"), 5, 25000000, 1638326400, 1638326400,
        Some(map["pt-BR" := "São Paulo"]), Some(map["pt-BR" := "BR"])), formatDate)
      == LightningNodeViewObject("publicKey1", "Node 1", 5, 0.25,
        formatDate(1638326400), formatDate(1638326400), "São Paulo", "BR")
  {
  }
}
