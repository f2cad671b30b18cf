/**
 * The build-time ETL (`BuildDataTask`): every locale file `<lang>.json` of the
 * upstream game database, a flat map from `"<24-char id> <property>"` keys to
 * text, is folded into one record per ID holding `Name` and `ShortName`,
 * enriched from the item catalogue (`templates/items.json`), stripped of the
 * records that got no name, and written as `database/<lang>.json` when any
 * record is left.
 *
 * Gson calls that throw inside the build task are not caught there: the Gradle task
 * fails.  The model returns `Crashed` (or `None`) where that happens.
 */
module BuildData {
  import opened Wrappers
  import opened KotlinText
  import opened Json
  import opened Models

  /** The values a record holds (`MutableMap<String, Any>`). */
  datatype Value = VStr(s: string) | VBool(b: bool) | VInt(i: int) | VDouble(d: Double)

  /** One ID's record. */
  type ItemData = map<string, Value>

  /** The item catalogue: ID to its template object. */
  type ItemsData = map<string, map<string, Json>>

  /** The records of one locale file, by ID. */
  type Table = map<string, ItemData>

  /** One entry of a locale file: its key and its text. */
  type LocaleEntry = (string, string)

  /** A locale file: its name and its entries in document order. */
  datatype LocaleFile = LocaleFile(name: string, entries: seq<LocaleEntry>)

  // ---------------------------------------------------------------------------
  // Locale keys and the per-ID fold
  // ---------------------------------------------------------------------------

  /**
   * `key.split(" ")` must give exactly two parts, and the first (the ID) must
   * be 24 characters long; the result is the ID and the raw property name.
   */
  function ParseLocaleKey(key: string): (r: Option<(string, string)>)
    ensures r.Some? ==> |r.value.0| == 24
  {
    var parts := Split(key, ' ');
    if |parts| != 2 then None
    else if |parts[0]| != 24 then None
    else Some((parts[0], parts[1]))
  }

  /** `property.replaceFirstChar { it.uppercase() }`. */
  function NormalizeProperty(property: string): string {
    CapitalizeFirst(property)
  }

  /** The record `getOrPut` creates for a new ID. */
  const Seed: ItemData := map["Name" := VStr(""), "ShortName" := VStr("")]

  /** `(itemData[key] as? String)?.isEmpty() == true`. */
  predicate HasEmptyText(d: ItemData, key: string) {
    key in d && d[key].VStr? && d[key].s == ""
  }

  /** `(itemData[key] as? String)?.isNotEmpty() == true`. */
  predicate HasText(d: ItemData, key: string) {
    key in d && d[key].VStr? && d[key].s != ""
  }

  /** The `when (normalizedProperty)` block: one locale entry applied to its ID's record. */
  function ApplyProperty(d: ItemData, property: string, value: string): (r: ItemData)
    ensures d.Keys <= r.Keys <= d.Keys + {"Name", "ShortName"}
    ensures forall k :: k in d && k != "Name" && k != "ShortName" ==> r[k] == d[k]
    ensures IsBlank(value) || property !in {"Name", "ShortName", "Nickname"} ==> r == d
  {
    TrimEmptyIffBlank(value);
    var trimmed := Trim(value);
    if property == "Nickname" then
      if trimmed != "" then d["Name" := VStr(trimmed)]["ShortName" := VStr(trimmed)] else d
    else if property == "Name" || property == "ShortName" then
      if trimmed == "" then d
      else
        var d1 := d[property := VStr(trimmed)];
        var d2 := if HasEmptyText(d1, "Name") then d1["Name" := VStr(trimmed)] else d1;
        if HasEmptyText(d2, "ShortName") then d2["ShortName" := VStr(trimmed)] else d2
    else d
  }

  /** One iteration of `sourceData.forEach`. */
  function LocaleStep(t: Table, key: string, value: string): (r: Table)
    ensures ParseLocaleKey(key).None? ==> r == t
    ensures ParseLocaleKey(key).Some? ==> r.Keys == t.Keys + {ParseLocaleKey(key).value.0}
    ensures forall id :: id in t && (ParseLocaleKey(key).None? || id != ParseLocaleKey(key).value.0) ==> r[id] == t[id]
  {
    match ParseLocaleKey(key)
    case None => t
    case Some((id, property)) =>
      var d := if id in t then t[id] else Seed;
      t[id := ApplyProperty(d, NormalizeProperty(property), value)]
  }

  /** `transformedData` after the entries of a locale file, in document order. */
  function FoldLocale(entries: seq<LocaleEntry>): (r: Table)
    ensures forall id :: id in r ==> |id| == 24
    decreases |entries|
  {
    if entries == [] then map[]
    else
      var last := entries[|entries| - 1];
      LocaleStep(FoldLocale(entries[..|entries| - 1]), last.0, last.1)
  }

  /** The entries of `entries` that address `id`, as (normalized property, value) pairs, in order. */
  function PropertiesOf(entries: seq<LocaleEntry>, id: string): seq<(string, string)>
    decreases |entries|
  {
    if entries == [] then []
    else
      var rest := PropertiesOf(entries[..|entries| - 1], id);
      var last := entries[|entries| - 1];
      match ParseLocaleKey(last.0)
      case Some((i, property)) => if i == id then rest + [(NormalizeProperty(property), last.1)] else rest
      case None => rest
  }

  /** One ID's record, built from the seed by its own properties in order. */
  function RecordFold(properties: seq<(string, string)>): ItemData
    decreases |properties|
  {
    if properties == [] then Seed
    else
      var last := properties[|properties| - 1];
      ApplyProperty(RecordFold(properties[..|properties| - 1]), last.0, last.1)
  }

  /** No whitespace at either end, as `trim()` leaves it. */
  predicate Trimmed(s: string) {
    s == "" || (!IsWhitespace(s[0]) && !IsWhitespace(s[|s| - 1]))
  }

  /**
   * The shape every folded record has: both names are text without surrounding
   * whitespace, and one is empty exactly when the other is.
   */
  predicate NamesWellFormed(d: ItemData) {
    && "Name" in d && d["Name"].VStr? && Trimmed(d["Name"].s)
    && "ShortName" in d && d["ShortName"].VStr? && Trimmed(d["ShortName"].s)
    && (d["Name"].s == "" <==> d["ShortName"].s == "")
  }

  // ---------------------------------------------------------------------------
  // Enrichment from the item catalogue
  // ---------------------------------------------------------------------------

  const AMMO_PARENTS: set<string> := {"5485a8684bdc2da71d8b4567", AMMO_PACK_PARENT}
  /** The parent of ammunition packs, whose ballistics come from the round inside. */
  const AMMO_PACK_PARENT: string := "543be5cb4bdc2deb348b4568"
  const WEAPON_PARENTS: set<string> := {
    "5447b5cf4bdc2d65278b4567", "5447b5e04bdc2d62278b4567", "5447b5f14bdc2d61278b4567",
    "5447b5fc4bdc2d87278b4567", "5447b6094bdc2dc3278b4567", "5447b6194bdc2d67278b4567",
    "5447b6254bdc2dc3278b4568", "5447bed64bdc2d97278b4568", "5447bedf4bdc2d87278b4568",
    "5447bee84bdc2dc3278b4569"
  }
  const HEADWEAR_PARENTS: set<string> := {"5a341c4086f77401f2541505", "5a341c4686f77469e155819e"}
  const CURRENCY_PARENT: string := "543be5dd4bdc2deb348b4569"
  const ARMOR_PARENT: string := "5448e54d4bdc2dcc718b4568"
  const KEY_PARENT: string := "543be5e94bdc2df1348b4568"
  const MEDIKIT_PARENT: string := "5448f39d4bdc2d0a728b4568"
  const DRUG_PARENT: string := "5448f3a14bdc2d27728b4569"
  const STIMULANT_PARENT: string := "5448f3a64bdc2d60728b456a"
  const FOOD_PARENT: string := "5448e8d04bdc2ddf718b4569"
  const DRINK_PARENT: string := "5448e8d64bdc2dce718b4568"
  const CUSTOMIZATION_PARENT: string := "5cc084dd14c02e000b0550a3"

  /** The parents that stand alone for their kind. */
  const SINGLE_PARENTS: set<string> :=
    {CURRENCY_PARENT, ARMOR_PARENT, KEY_PARENT, MEDIKIT_PARENT, DRUG_PARENT,
     STIMULANT_PARENT, FOOD_PARENT, DRINK_PARENT, CUSTOMIZATION_PARENT}

  /** Every parent `determineItemType` maps to a kind other than `ITEM`. */
  const KNOWN_PARENTS: set<string> := AMMO_PARENTS + WEAPON_PARENTS + HEADWEAR_PARENTS + SINGLE_PARENTS

  /** `determineItemType`: the item kind named by a catalogue `_parent` ID; `ITEM` for any other. */
  function DetermineItemType(parentId: string): (r: string)
    ensures ValueOf(r).Some?
    ensures r == "AMMO" <==> parentId in AMMO_PARENTS
    ensures r == "WEAPON" <==> parentId in WEAPON_PARENTS
    ensures r == "HEADWEAR" <==> parentId in HEADWEAR_PARENTS
    ensures r == "CUSTOMIZATION" <==> parentId == CUSTOMIZATION_PARENT
  {
    if parentId in AMMO_PARENTS then "AMMO"
    else if parentId in WEAPON_PARENTS then "WEAPON"
    else if parentId == CURRENCY_PARENT then "CURRENCY"
    else if parentId == ARMOR_PARENT then "ARMOR"
    else if parentId in HEADWEAR_PARENTS then "HEADWEAR"
    else if parentId == KEY_PARENT then "KEY"
    else if parentId == MEDIKIT_PARENT then "MEDIKIT"
    else if parentId == DRUG_PARENT then "DRUG"
    else if parentId == STIMULANT_PARENT then "STIMULANT"
    else if parentId == FOOD_PARENT then "FOOD"
    else if parentId == DRINK_PARENT then "DRINK"
    else if parentId == CUSTOMIZATION_PARENT then "CUSTOMIZATION"
    else "ITEM"
  }

  /**
   * The rest of the table: each kind with a single parent is given by exactly
   * that parent, and `ITEM` exactly by a parent outside the table.
   */
  lemma DetermineItemTypeTable(parentId: string)
    ensures DetermineItemType(parentId) == "ITEM" <==> parentId !in KNOWN_PARENTS
    ensures DetermineItemType(parentId) == "CURRENCY" <==> parentId == CURRENCY_PARENT
    ensures DetermineItemType(parentId) == "ARMOR" <==> parentId == ARMOR_PARENT
    ensures DetermineItemType(parentId) == "KEY" <==> parentId == KEY_PARENT
    ensures DetermineItemType(parentId) == "MEDIKIT" <==> parentId == MEDIKIT_PARENT
    ensures DetermineItemType(parentId) == "DRUG" <==> parentId == DRUG_PARENT
    ensures DetermineItemType(parentId) == "STIMULANT" <==> parentId == STIMULANT_PARENT
    ensures DetermineItemType(parentId) == "FOOD" <==> parentId == FOOD_PARENT
    ensures DetermineItemType(parentId) == "DRINK" <==> parentId == DRINK_PARENT
  {
    var r := DetermineItemType(parentId);
    if parentId == CURRENCY_PARENT {
      assert r == "CURRENCY";
    } else if parentId == ARMOR_PARENT {
      assert r == "ARMOR";
    } else if parentId == KEY_PARENT {
      assert r == "KEY";
    } else if parentId == MEDIKIT_PARENT {
      assert r == "MEDIKIT";
    } else if parentId == DRUG_PARENT {
      assert r == "DRUG";
    } else if parentId == STIMULANT_PARENT {
      assert r == "STIMULANT";
    } else if parentId == FOOD_PARENT {
      assert r == "FOOD";
    } else if parentId == DRINK_PARENT {
      assert r == "DRINK";
    }
  }

  /** The keys `enrichAmmoData` writes. */
  const AMMO_KEYS: set<string> := {"Caliber", "Damage", "ArmorDamage", "PenetrationPower"}

  /** The keys `enrichCustomizationData` writes. */
  const CUSTOMIZATION_KEYS: set<string> :=
    {"Description", "BodyPart", "Sides", "IntegratedArmorVest", "AvailableAsDefault"}

  /** The keys `enrichItemData` writes for every catalogued item. */
  const COMMON_KEYS: set<string> := {"Weight", "QuestItem", "FleaBlacklisted"}

  /** Every key the enrichment writes. */
  const ENRICHED_KEYS: set<string> := COMMON_KEYS + {"Type"} + AMMO_KEYS + CUSTOMIZATION_KEYS

  /**
   * `r` is `d` with some of `keys` added or overwritten: nothing removed, and
   * every other key as it was.
   */
  predicate Extends(d: ItemData, r: ItemData, keys: set<string>) {
    && d.Keys <= r.Keys <= d.Keys + keys
    && forall k :: k in d && k !in keys ==> r[k] == d[k]
  }

  /** A `Type` entry, where there is one, names an item kind. */
  predicate TypeWellFormed(d: ItemData) {
    "Type" in d ==> d["Type"].VStr? && ValueOf(d["Type"].s).Some?
  }

  // The conversions the enrichment applies (`asDouble`, `asBoolean`, `asString`, `asInt`).

  function ToDouble(j: Json, parseDouble: string -> Option<Double>): Option<Value> {
    match AsDouble(j, parseDouble)
    case Some(x) => Some(VDouble(x))
    case None => None
  }

  function ToBool(j: Json): Option<Value> {
    match AsBoolean(j)
    case Some(b) => Some(VBool(b))
    case None => None
  }

  /** `!asBoolean`, for `CanSellOnRagfair` becoming `FleaBlacklisted`. */
  function ToNegatedBool(j: Json): Option<Value> {
    match AsBoolean(j)
    case Some(b) => Some(VBool(!b))
    case None => None
  }

  function ToStr(j: Json): Option<Value> {
    match AsString(j)
    case Some(s) => Some(VStr(s))
    case None => None
  }

  function ToInt(j: Json): Option<Value> {
    match AsInt(j)
    case Some(i) => Some(VInt(i))
    case None => None
  }

  /** The member `key` is present, not JSON null, and its conversion throws. */
  predicate Fails(props: map<string, Json>, key: string, convert: Json -> Option<Value>) {
    GetNonNull(props, key).Some? && convert(props[key]).None?
  }

  /** The member `key` is present and not JSON null, and converts to `v`. */
  predicate Converts(props: map<string, Json>, key: string, convert: Json -> Option<Value>, v: Value) {
    GetNonNull(props, key).Some? && convert(props[key]) == Some(v)
  }

  /** `enrichAmmoData` throws: a present ballistic member does not convert. */
  predicate AmmoFails(props: map<string, Json>) {
    || Fails(props, "Caliber", ToStr) || Fails(props, "Damage", ToInt)
    || Fails(props, "ArmorDamage", ToInt) || Fails(props, "PenetrationPower", ToInt)
  }

  /** `enrichCustomizationData` throws: a present customization member does not convert. */
  predicate CustomizationFails(props: map<string, Json>) {
    || Fails(props, "Description", ToStr) || Fails(props, "BodyPart", ToStr)
    || Fails(props, "Side", ToStr) || Fails(props, "IntegratedArmorVest", ToBool)
    || Fails(props, "AvailableAsDefault", ToBool)
  }

  /** The common part of `enrichItemData` throws: weight or one of the two flags does not convert. */
  predicate CommonFails(props: map<string, Json>, parseDouble: string -> Option<Double>) {
    || Fails(props, "Weight", j => ToDouble(j, parseDouble)) || Fails(props, "QuestItem", ToBool)
    || Fails(props, "CanSellOnRagfair", ToNegatedBool)
  }

  /** `props.get(key)?.let { if (!it.isJsonNull) itemData[target] = convert(it) }`. */
  function PutIfPresent(d: ItemData, props: map<string, Json>, key: string, target: string,
                        convert: Json -> Option<Value>): (r: Option<ItemData>)
    ensures r.None? <==> Fails(props, key, convert)
    ensures GetNonNull(props, key).None? ==> r == Some(d)
    ensures r.Some? && GetNonNull(props, key).Some? ==> r.value == d[target := convert(props[key]).value]
  {
    match GetNonNull(props, key)
    case None => Some(d)
    case Some(j) =>
      match convert(j)
      case None => None
      case Some(v) => Some(d[target := v])
  }

  /** `enrichAmmoData`: calibre, damage, armour damage and penetration of a round. */
  function EnrichAmmoData(d: ItemData, props: map<string, Json>): (r: Option<ItemData>)
    ensures r.None? <==> AmmoFails(props)
    ensures r.Some? ==> Extends(d, r.value, AMMO_KEYS)
    ensures r.Some? && GetNonNull(props, "Caliber").Some? ==>
              "Caliber" in r.value && Converts(props, "Caliber", ToStr, r.value["Caliber"])
    ensures r.Some? && GetNonNull(props, "Damage").Some? ==>
              "Damage" in r.value && Converts(props, "Damage", ToInt, r.value["Damage"])
    ensures r.Some? && GetNonNull(props, "ArmorDamage").Some? ==>
              "ArmorDamage" in r.value && Converts(props, "ArmorDamage", ToInt, r.value["ArmorDamage"])
    ensures r.Some? && GetNonNull(props, "PenetrationPower").Some? ==>
              "PenetrationPower" in r.value && Converts(props, "PenetrationPower", ToInt, r.value["PenetrationPower"])
  {
    var d1 :- PutIfPresent(d, props, "Caliber", "Caliber", ToStr);
    var d2 :- PutIfPresent(d1, props, "Damage", "Damage", ToInt);
    var d3 :- PutIfPresent(d2, props, "ArmorDamage", "ArmorDamage", ToInt);
    PutIfPresent(d3, props, "PenetrationPower", "PenetrationPower", ToInt)
  }

  /** `enrichCustomizationData`: description, body part, sides (from `Side`) and two flags. */
  function EnrichCustomizationData(d: ItemData, props: map<string, Json>): (r: Option<ItemData>)
    ensures r.None? <==> CustomizationFails(props)
    ensures r.Some? ==> Extends(d, r.value, CUSTOMIZATION_KEYS)
    ensures r.Some? && GetNonNull(props, "Description").Some? ==>
              "Description" in r.value && Converts(props, "Description", ToStr, r.value["Description"])
    ensures r.Some? && GetNonNull(props, "BodyPart").Some? ==>
              "BodyPart" in r.value && Converts(props, "BodyPart", ToStr, r.value["BodyPart"])
    ensures r.Some? && GetNonNull(props, "Side").Some? ==>
              "Sides" in r.value && Converts(props, "Side", ToStr, r.value["Sides"])
    ensures r.Some? && GetNonNull(props, "IntegratedArmorVest").Some? ==>
              "IntegratedArmorVest" in r.value
              && Converts(props, "IntegratedArmorVest", ToBool, r.value["IntegratedArmorVest"])
    ensures r.Some? && GetNonNull(props, "AvailableAsDefault").Some? ==>
              "AvailableAsDefault" in r.value
              && Converts(props, "AvailableAsDefault", ToBool, r.value["AvailableAsDefault"])
  {
    var d1 :- PutIfPresent(d, props, "Description", "Description", ToStr);
    var d2 :- PutIfPresent(d1, props, "BodyPart", "BodyPart", ToStr);
    var d3 :- PutIfPresent(d2, props, "Side", "Sides", ToStr);
    var d4 :- PutIfPresent(d3, props, "IntegratedArmorVest", "IntegratedArmorVest", ToBool);
    PutIfPresent(d4, props, "AvailableAsDefault", "AvailableAsDefault", ToBool)
  }

  /**
   * The round an ammunition pack holds: the first entry of the first `Filter`
   * of the first filter of the first stack slot, read with `asString`.
   * `Absent` where a step finds nothing (the pack is left as it is), `Throws`
   * where a cast or `asString` fails.
   */
  function PackedAmmoId(props: map<string, Json>): (r: Access<string>)
    ensures GetArray(props, "StackSlots").Absent? ==> r.Absent?
    ensures GetArray(props, "StackSlots").Throws? ==> r.Throws?
  {
    match GetArray(props, "StackSlots")
    case Throws => Throws
    case Absent => Absent
    case Present(slots) =>
      if |slots| == 0 then Absent
      else match AsObject(slots[0])
      case None => Throws
      case Some(firstSlot) =>
        match GetObject(firstSlot, "_props")
        case Throws => Throws
        case Absent => Absent
        case Present(slotProps) =>
          match GetArray(slotProps, "filters")
          case Throws => Throws
          case Absent => Absent
          case Present(filters) =>
            if |filters| == 0 then Absent
            else match AsObject(filters[0])
            case None => Throws
            case Some(filter0) =>
              match GetArray(filter0, "Filter")
              case Throws => Throws
              case Absent => Absent
              case Present(filter) =>
                if |filter| == 0 then Absent
                else match AsString(filter[0])
                case None => Throws
                case Some(ammoId) => Present(ammoId)
  }

  /**
   * `enrichAmmoPackData` throws: a cast on the way to the round fails, or the
   * catalogued round's `_props` is not an object or its ballistics do not convert.
   */
  predicate PackFails(props: map<string, Json>, items: ItemsData) {
    || PackedAmmoId(props).Throws?
    || (&& PackedAmmoId(props).Present? && PackedAmmoId(props).value in items
        && match GetObject(items[PackedAmmoId(props).value], "_props")
           case Throws => true
           case Absent => false
           case Present(ammoProps) => AmmoFails(ammoProps))
  }

  /** `enrichAmmoPackData`: the pack gets the ballistics of the round it holds, when the catalogue has it. */
  function EnrichAmmoPackData(d: ItemData, props: map<string, Json>, items: ItemsData): (r: Option<ItemData>)
    ensures PackedAmmoId(props).Throws? ==> r.None?
    ensures PackedAmmoId(props).Absent? ==> r == Some(d)
    ensures PackedAmmoId(props).Present? && PackedAmmoId(props).value !in items ==> r == Some(d)
    ensures PackedAmmoId(props).Present? && PackedAmmoId(props).value in items ==>
              match GetObject(items[PackedAmmoId(props).value], "_props")
              case Throws => r.None?
              case Absent => r == Some(d)
              case Present(ammoProps) => r == EnrichAmmoData(d, ammoProps)
    ensures r.None? <==> PackFails(props, items)
    ensures r.Some? ==> Extends(d, r.value, AMMO_KEYS)
  {
    match PackedAmmoId(props)
    case Throws => None
    case Absent => Some(d)
    case Present(ammoId) =>
      if ammoId !in items then Some(d)
      else match GetObject(items[ammoId], "_props")
      case Throws => None
      case Absent => Some(d)
      case Present(ammoProps) => EnrichAmmoData(d, ammoProps)
  }

  /** The conversions of the members every catalogued item contributes. */
  predicate CommonDataCopied(props: map<string, Json>, r: ItemData, parseDouble: string -> Option<Double>) {
    && (GetNonNull(props, "Weight").Some? ==>
          "Weight" in r && Converts(props, "Weight", j => ToDouble(j, parseDouble), r["Weight"]))
    && (GetNonNull(props, "QuestItem").Some? ==>
          "QuestItem" in r && Converts(props, "QuestItem", ToBool, r["QuestItem"]))
    && (GetNonNull(props, "CanSellOnRagfair").Some? ==>
          "FleaBlacklisted" in r && Converts(props, "CanSellOnRagfair", ToNegatedBool, r["FleaBlacklisted"]))
  }

  /** The keys the `_parent`-dependent part of `enrichItemData` writes. */
  const TYPED_KEYS: set<string> := {"Type"} + AMMO_KEYS + CUSTOMIZATION_KEYS

  /** The keys the `_parent`-dependent part writes for an item of kind `kind`: its own, and `Type`. */
  function KindKeys(kind: string): (keys: set<string>)
    ensures "Type" in keys && keys <= TYPED_KEYS
    ensures keys * AMMO_KEYS != {} <==> kind == "AMMO"
    ensures keys * CUSTOMIZATION_KEYS != {} <==> kind == "CUSTOMIZATION"
  {
    assert "Caliber" in AMMO_KEYS && "Description" in CUSTOMIZATION_KEYS;
    if kind == "AMMO" then {"Type"} + AMMO_KEYS
    else if kind == "CUSTOMIZATION" then {"Type"} + CUSTOMIZATION_KEYS
    else {"Type"}
  }

  /**
   * The `_parent`-dependent part throws for an item whose parent is `parent`:
   * only the ammunition, ammunition-pack and customization steps can throw.
   */
  predicate TypedFails(parent: string, props: map<string, Json>, items: ItemsData) {
    if parent == AMMO_PACK_PARENT then PackFails(props, items)
    else if DetermineItemType(parent) == "AMMO" then AmmoFails(props)
    else if DetermineItemType(parent) == "CUSTOMIZATION" then CustomizationFails(props)
    else false
  }

  /** The first half of `enrichItemData`: weight, quest flag and flea-market flag. */
  function EnrichCommonData(d: ItemData, props: map<string, Json>,
                            parseDouble: string -> Option<Double>): (r: Option<ItemData>)
    ensures r.None? <==> CommonFails(props, parseDouble)
    ensures r.Some? ==> Extends(d, r.value, COMMON_KEYS) && CommonDataCopied(props, r.value, parseDouble)
  {
    var d1 :- PutIfPresent(d, props, "Weight", "Weight", j => ToDouble(j, parseDouble));
    var d2 :- PutIfPresent(d1, props, "QuestItem", "QuestItem", ToBool);
    PutIfPresent(d2, props, "CanSellOnRagfair", "FleaBlacklisted", ToNegatedBool)
  }

  /** The second half of `enrichItemData`, for an item whose `_parent` reads as `parent`. */
  function EnrichByParent(d: ItemData, parent: string, props: map<string, Json>, items: ItemsData): (r: Option<ItemData>)
    ensures r.None? <==> TypedFails(parent, props, items)
    ensures r.Some? ==> Extends(d, r.value, KindKeys(DetermineItemType(parent)))
    ensures r.Some? ==> Extends(d, r.value, TYPED_KEYS)
    ensures r.Some? ==> "Type" in r.value && r.value["Type"] == VStr(DetermineItemType(parent))
    ensures parent == AMMO_PACK_PARENT ==>
              r == EnrichAmmoPackData(d["Type" := VStr("AMMO")], props, items)
    ensures DetermineItemType(parent) == "AMMO" && parent != AMMO_PACK_PARENT ==>
              r == EnrichAmmoData(d["Type" := VStr("AMMO")], props)
    ensures DetermineItemType(parent) == "CUSTOMIZATION" ==>
              r == EnrichCustomizationData(d["Type" := VStr("CUSTOMIZATION")], props)
    ensures DetermineItemType(parent) !in {"AMMO", "CUSTOMIZATION"} ==>
              r == Some(d["Type" := VStr(DetermineItemType(parent))])
  {
    var itemType := DetermineItemType(parent);
    var d4 := d["Type" := VStr(itemType)];
    if itemType == "AMMO" then
      if parent == AMMO_PACK_PARENT then EnrichAmmoPackData(d4, props, items)
      else EnrichAmmoData(d4, props)
    else if itemType == "CUSTOMIZATION" then EnrichCustomizationData(d4, props)
    else Some(d4)
  }

  /** What the first half copied survives the second, which writes other keys. */
  lemma CommonDataSurvives(props: map<string, Json>, d: ItemData, r: ItemData, parseDouble: string -> Option<Double>)
    requires CommonDataCopied(props, d, parseDouble) && Extends(d, r, TYPED_KEYS)
    ensures CommonDataCopied(props, r, parseDouble)
  {
    assert COMMON_KEYS * TYPED_KEYS == {};
  }

  /** `enrichItemData`: one record enriched from its catalogue template `itemJson`. */
  function EnrichItemData(d: ItemData, itemJson: map<string, Json>, items: ItemsData,
                          parseDouble: string -> Option<Double>): (r: Option<ItemData>)
    ensures GetObject(itemJson, "_props").Absent? ==> r == Some(d)
    ensures GetObject(itemJson, "_props").Throws? ==> r.None?
    ensures r.Some? ==> Extends(d, r.value, ENRICHED_KEYS)
    ensures r.Some? && GetObject(itemJson, "_props").Present? ==>
              CommonDataCopied(GetObject(itemJson, "_props").value, r.value, parseDouble)
    ensures r.Some? && GetObject(itemJson, "_props").Present? && "_parent" in itemJson ==>
              && AsString(itemJson["_parent"]).Some?
              && "Type" in r.value && r.value["Type"] == VStr(DetermineItemType(AsString(itemJson["_parent"]).value))
    ensures r.Some? && "_parent" !in itemJson ==> Extends(d, r.value, COMMON_KEYS)
    ensures r.Some? && GetObject(itemJson, "_props").Present? && "_parent" in itemJson ==>
              && AsString(itemJson["_parent"]).Some?
              && Extends(d, r.value, COMMON_KEYS + KindKeys(DetermineItemType(AsString(itemJson["_parent"]).value)))
    ensures r.None? <==>
              match GetObject(itemJson, "_props")
              case Throws => true
              case Absent => false
              case Present(props) =>
                || CommonFails(props, parseDouble)
                || ("_parent" in itemJson
                    && (AsString(itemJson["_parent"]).None?
                        || TypedFails(AsString(itemJson["_parent"]).value, props, items)))
  {
    match GetObject(itemJson, "_props")
    case Throws => None
    case Absent => Some(d)
    case Present(props) =>
      var d3 :- EnrichCommonData(d, props, parseDouble);
      if "_parent" !in itemJson then Some(d3)
      else
        var parent :- AsString(itemJson["_parent"]);
        var r := EnrichByParent(d3, parent, props, items);
        if r.Some? then CommonDataSurvives(props, d3, r.value, parseDouble); r else r
  }

  /** `id in items`, as a function value. */
  function InCatalogue(items: ItemsData): (f: string -> bool)
    ensures forall id :: f(id) == (id in items)
  {
    id => id in items
  }

  /** `enrichItemData` against the catalogue entry of the record's ID (never called without one). */
  function Enricher(items: ItemsData, parseDouble: string -> Option<Double>): (f: (ItemData, string) -> Option<ItemData>)
    ensures forall d, id :: id in items ==> f(d, id) == EnrichItemData(d, items[id], items, parseDouble)
  {
    (d, id) => if id in items then EnrichItemData(d, items[id], items, parseDouble) else None
  }

  /** One record after a loop that enriches the records `known` picks out. */
  function EntryWith(t: Table, id: string, known: string -> bool, enrich: (ItemData, string) -> Option<ItemData>): Option<ItemData>
    requires id in t
  {
    if known(id) then enrich(t[id], id) else Some(t[id])
  }

  /** The table after such a loop; absent when some enrichment throws. */
  function EnrichAllWith(t: Table, known: string -> bool, enrich: (ItemData, string) -> Option<ItemData>): (r: Option<Table>)
    ensures r.None? <==> exists id :: id in t && EntryWith(t, id, known, enrich).None?
    ensures r.Some? ==> r.value.Keys == t.Keys
    ensures r.Some? ==> forall id :: id in t ==> Some(r.value[id]) == EntryWith(t, id, known, enrich)
  {
    if forall id :: id in t ==> EntryWith(t, id, known, enrich).Some? then
      Some(map id | id in t :: EntryWith(t, id, known, enrich).value)
    else None
  }

  /** One record after the enrichment loop: enriched when the catalogue has its ID, as it was otherwise. */
  function EnrichEntry(t: Table, id: string, items: ItemsData, parseDouble: string -> Option<Double>): (r: Option<ItemData>)
    requires id in t
    ensures r == EntryWith(t, id, InCatalogue(items), Enricher(items, parseDouble))
  {
    if id in items then EnrichItemData(t[id], items[id], items, parseDouble) else Some(t[id])
  }

  /** The enrichment of some record of `t` throws. */
  predicate SomeEnrichmentThrows(t: Table, items: ItemsData, parseDouble: string -> Option<Double>) {
    exists id :: id in t && EnrichEntry(t, id, items, parseDouble).None?
  }

  /** `transformedData` after the enrichment loop; absent when the enrichment of some record throws. */
  function EnrichAll(t: Table, items: ItemsData, parseDouble: string -> Option<Double>): (r: Option<Table>)
    ensures r.None? <==> SomeEnrichmentThrows(t, items, parseDouble)
    ensures r.Some? ==> r.value.Keys == t.Keys
    ensures r.Some? ==> forall id :: id in t ==> Some(r.value[id]) == EnrichEntry(t, id, items, parseDouble)
  {
    var r := EnrichAllWith(t, InCatalogue(items), Enricher(items, parseDouble));
    assert forall id :: id in t ==> EnrichEntry(t, id, items, parseDouble) == EntryWith(t, id, InCatalogue(items), Enricher(items, parseDouble));
    r
  }

  /** `filterValues`: the records with a non-empty `Name` or `ShortName`. */
  function FilterNamed(t: Table): (r: Table)
    ensures r.Keys <= t.Keys
    ensures forall id :: id in r <==> id in t && (HasText(t[id], "Name") || HasText(t[id], "ShortName"))
    ensures forall id :: id in r ==> r[id] == t[id]
  {
    map id | id in t && (HasText(t[id], "Name") || HasText(t[id], "ShortName")) :: t[id]
  }

  /** What processing one locale file comes to. */
  datatype FileOutcome = Crashed | Skipped | Written(table: Table)

  /** The outcome of one locale file, as the steps of `optimizeLocales` define it. */
  function LocaleOutcome(entries: seq<LocaleEntry>, items: ItemsData,
                         parseDouble: string -> Option<Double>): (r: FileOutcome)
    ensures r.Written? ==> forall id :: id in r.table ==> |id| == 24
  {
    TableOutcome(FoldLocale(entries), items, parseDouble)
  }

  /** The outcome once the entries are folded into `transformed`: enrichment, then the filter. */
  function TableOutcome(transformed: Table, items: ItemsData, parseDouble: string -> Option<Double>): (r: FileOutcome)
    ensures r.Written? ==> r.table != map[] && r.table.Keys <= transformed.Keys
  {
    match EnrichAll(transformed, items, parseDouble)
    case None => Crashed
    case Some(t) => FilterOutcome(t)
  }

  /** The filter and the decision to write (`if (filtered.isNotEmpty())`). */
  function FilterOutcome(t: Table): (r: FileOutcome)
    ensures r.Crashed? == false
    ensures r.Written? ==> r.table == FilterNamed(t) && r.table != map[]
    ensures r.Skipped? ==> FilterNamed(t) == map[]
  {
    var filtered := FilterNamed(t);
    if filtered == map[] then Skipped else Written(filtered)
  }

  // ---------------------------------------------------------------------------
  // The build task
  // ---------------------------------------------------------------------------

  /** Index of the last `c` in `s`, or -1 when there is none. */
  function LastIndexOf(s: string, c: char): (i: int)
    ensures -1 <= i < |s|
    ensures i >= 0 ==> s[i] == c
    ensures forall k :: i < k < |s| ==> s[k] != c
    decreases |s|
  {
    if s == [] then -1
    else if s[|s| - 1] == c then |s| - 1
    else LastIndexOf(s[..|s| - 1], c)
  }

  /** `File.extension`: the text after the last `.` of the name, or "" when there is none. */
  function Extension(name: string): (e: string)
    ensures LastIndexOf(name, '.') < 0 ==> e == ""
    ensures LastIndexOf(name, '.') >= 0 ==> e == name[LastIndexOf(name, '.') + 1..]
    ensures '.' !in e
  {
    var i := LastIndexOf(name, '.');
    if i < 0 then "" else name[i + 1..]
  }

  /** What the build task has written so far, and whether it has failed. */
  datatype RunState = RunState(written: map<string, Table>, crashed: bool)

  /** The processing of one locale file's entries, as a function value. */
  function LocaleProcessor(items: ItemsData, parseDouble: string -> Option<Double>): (process: seq<LocaleEntry> -> FileOutcome)
    ensures forall entries :: process(entries) == LocaleOutcome(entries, items, parseDouble)
  {
    entries => LocaleOutcome(entries, items, parseDouble)
  }

  /** One iteration of `listFiles { … }?.forEach` over a locale file, each file processed by `process`. */
  function RunStep(s: RunState, file: LocaleFile, process: seq<LocaleEntry> -> FileOutcome): (r: RunState)
    ensures s.crashed ==> r == s
    ensures forall n :: n in r.written ==> n in s.written || (n == file.name && Extension(n) == "json")
    ensures forall n :: n in s.written && n != file.name ==> n in r.written && r.written[n] == s.written[n]
  {
    if s.crashed || Extension(file.name) != "json" then s
    else match process(file.entries)
    case Crashed => RunState(s.written, true)
    case Skipped => s
    case Written(t) => RunState(s.written[file.name := t], false)
  }

  /** The state after the given locale files, in listing order. */
  function Run(files: seq<LocaleFile>, process: seq<LocaleEntry> -> FileOutcome): (r: RunState)
    ensures forall n :: n in r.written ==> Extension(n) == "json"
    decreases |files|
  {
    if files == [] then RunState(map[], false)
    else RunStep(Run(files[..|files| - 1], process), files[|files| - 1], process)
  }

  /** The `sourceData.forEach` loop of `optimizeLocales`: the fold of one file's entries. */
  method FoldEntries(entries: seq<LocaleEntry>) returns (transformed: Table)
    ensures transformed == FoldLocale(entries)
  {
    transformed := map[];
    for i := 0 to |entries|
      invariant transformed == FoldLocale(entries[..i])
    {
      assert entries[..i + 1][..i] == entries[..i];
      var (key, value) := entries[i];
      var parts := Split(key, ' ');
      if |parts| != 2 {
        continue;
      }
      var id, property := parts[0], parts[1];
      if |id| != 24 {
        continue;
      }
      var normalizedProperty := NormalizeProperty(property);
      var itemData := if id in transformed then transformed[id] else Seed;
      itemData := ApplyProperty(itemData, normalizedProperty, value);
      transformed := transformed[id := itemData];
    }
    assert entries[..|entries|] == entries;
  }

  /**
   * The `transformedData.forEach` loop of `optimizeLocales`: every record
   * `known` picks out (those the catalogue has) is enriched in place; `None`
   * when an enrichment throws.
   */
  method EnrichRecords(folded: Table, known: string -> bool, enrich: (ItemData, string) -> Option<ItemData>)
    returns (result: Option<Table>)
    ensures result == EnrichAllWith(folded, known, enrich)
  {
    var transformed := folded;
    var pending := transformed.Keys;
    while pending != {}
      invariant pending <= folded.Keys && transformed.Keys == folded.Keys
      invariant forall id :: id in pending ==> transformed[id] == folded[id]
      invariant forall id :: id in folded && id !in pending ==>
                  Some(transformed[id]) == EntryWith(folded, id, known, enrich)
      decreases pending
    {
      var id :| id in pending;
      pending := pending - {id};
      if known(id) {
        var enriched := enrich(transformed[id], id);
        if enriched.None? {
          assert EntryWith(folded, id, known, enrich).None?;
          return None;
        }
        transformed := transformed[id := enriched.value];
      }
    }
    assert forall id :: id in folded ==> EntryWith(folded, id, known, enrich).Some?;
    var all := EnrichAllWith(folded, known, enrich);
    assert all.value == transformed;
    result := Some(transformed);
  }

  /**
   * `optimizeLocales` on one file: the fold over its entries, the enrichment
   * of every record, the filter, and the decision to write.
   */
  method OptimizeLocaleFile(entries: seq<LocaleEntry>, items: ItemsData, parseDouble: string -> Option<Double>)
    returns (outcome: FileOutcome)
    ensures outcome == LocaleOutcome(entries, items, parseDouble)
  {
    var transformed := FoldEntries(entries);
    var enriched := EnrichRecords(transformed, InCatalogue(items), Enricher(items, parseDouble));
    if enriched.None? {
      return Crashed;
    }
    var filtered := FilterNamed(enriched.value);
    if filtered != map[] {
      outcome := Written(filtered);
    } else {
      outcome := Skipped;
    }
  }

  /**
   * `optimizeLocales`: every `.json` file of the locale directory, in listing
   * order, until one throws.  A missing directory writes nothing.
   */
  method OptimizeLocales(localesDir: Option<seq<LocaleFile>>, items: ItemsData,
                         parseDouble: string -> Option<Double>)
    returns (written: map<string, Table>, crashed: bool)
    ensures localesDir.None? ==> written == map[] && !crashed
    ensures localesDir.Some? ==> RunState(written, crashed) == Run(localesDir.value, LocaleProcessor(items, parseDouble))
  {
    written, crashed := map[], false;
    if localesDir.None? {
      return;
    }
    var files := localesDir.value;
    for i := 0 to |files|
      invariant RunState(written, crashed) == Run(files[..i], LocaleProcessor(items, parseDouble))
    {
      assert files[..i + 1][..i] == files[..i];
      if crashed {
        continue;
      }
      var file := files[i];
      if Extension(file.name) != "json" {
        continue;
      }
      var outcome := OptimizeLocaleFile(file.entries, items, parseDouble);
      match outcome
      case Crashed => crashed := true;
      case Skipped =>
      case Written(t) => written := written[file.name := t];
    }
    assert files[..|files|] == files;
  }

  /** `loadItemsData`: the catalogue, or an empty one when the file is missing. */
  function LoadItemsData(itemsFile: Option<ItemsData>): (items: ItemsData)
    ensures itemsFile.None? ==> items == map[]
    ensures itemsFile.Some? ==> items == itemsFile.value
  {
    itemsFile.GetOr(map[])
  }

  /** `buildData`: load the catalogue, then optimise the locales with it. */
  method BuildDataTask(itemsFile: Option<ItemsData>, localesDir: Option<seq<LocaleFile>>,
                       parseDouble: string -> Option<Double>)
    returns (written: map<string, Table>, crashed: bool)
    ensures localesDir.None? ==> written == map[] && !crashed
    ensures localesDir.Some? ==>
              RunState(written, crashed) == Run(localesDir.value, LocaleProcessor(LoadItemsData(itemsFile), parseDouble))
  {
    var itemsData := LoadItemsData(itemsFile);
    written, crashed := OptimizeLocales(localesDir, itemsData, parseDouble);
  }

  // ---------------------------------------------------------------------------
  // Properties
  // ---------------------------------------------------------------------------

  /** A locale key is used exactly when it has one space, after its 24-character ID. */
  lemma LocaleKeyAccepted(key: string)
    ensures ParseLocaleKey(key).Some? <==> CountChar(key, ' ') == 1 && IndexOf(key, ' ') == 24
    ensures ParseLocaleKey(key).Some? ==> 25 <= |key| && ParseLocaleKey(key).value == (key[..24], key[25..])
  {
    SplitLength(key, ' ');
    if CountChar(key, ' ') == 1 {
      SplitTwo(key, ' ');
    }
  }

  /** `"<id> <property>"` with a 24-character ID and no other space reads as that ID and property. */
  lemma LocaleKeyOf(id: string, property: string)
    requires |id| == 24
    requires forall k :: 0 <= k < |id| ==> id[k] != ' '
    requires forall k :: 0 <= k < |property| ==> property[k] != ' '
    ensures ParseLocaleKey(id + " " + property) == Some((id, property))
  {
    var key := id + " " + property;
    assert key == id + (" " + property);
    CountCharAppend(id, " " + property, ' ');
    CountCharAppend(" ", property, ' ');
    CountCharZero(id, ' ');
    CountCharZero(property, ' ');
    assert key[24] == ' ';
    assert IndexOf(key, ' ') == 24;
    LocaleKeyAccepted(key);
    assert key[..24] == id && key[25..] == property;
  }

  /** One entry keeps the record's shape: both names trimmed text, empty together. */
  lemma ApplyPropertyWellFormed(d: ItemData, property: string, value: string)
    requires NamesWellFormed(d)
    ensures NamesWellFormed(ApplyProperty(d, property, value))
    ensures ApplyProperty(d, property, value).Keys == d.Keys
  {
    var trimmed := Trim(value);
    assert Trimmed(trimmed);
  }

  /**
   * The shape of `transformedData` after the fold: every record is keyed by a
   * 24-character ID and holds exactly `Name` and `ShortName`, trimmed, and
   * empty together.
   */
  predicate FoldedTable(t: Table) {
    forall id :: id in t ==> |id| == 24 && t[id].Keys == {"Name", "ShortName"} && NamesWellFormed(t[id])
  }

  lemma FoldedTableUpdate(t: Table, id: string, d: ItemData)
    requires FoldedTable(t) && |id| == 24 && d.Keys == {"Name", "ShortName"} && NamesWellFormed(d)
    ensures FoldedTable(t[id := d])
  {
  }

  lemma LocaleStepWellFormed(t: Table, key: string, value: string)
    requires FoldedTable(t)
    ensures FoldedTable(LocaleStep(t, key, value))
  {
    var parsed := ParseLocaleKey(key);
    if parsed.Some? {
      var id, property := parsed.value.0, parsed.value.1;
      assert |id| == 24;
      var d := if id in t then t[id] else Seed;
      ApplyPropertyWellFormed(d, NormalizeProperty(property), value);
      FoldedTableUpdate(t, id, ApplyProperty(d, NormalizeProperty(property), value));
    }
  }

  lemma {:induction false} FoldWellFormed(entries: seq<LocaleEntry>)
    ensures FoldedTable(FoldLocale(entries))
    decreases |entries|
  {
    if entries != [] {
      var prefix := entries[..|entries| - 1];
      var last := entries[|entries| - 1];
      FoldWellFormed(prefix);
      LocaleStepWellFormed(FoldLocale(prefix), last.0, last.1);
    }
  }

  /**
   * A record depends only on the entries that address its own ID: it exists
   * exactly when one does, and it is those entries folded over the seed.
   */
  lemma {:induction false} FoldProjection(entries: seq<LocaleEntry>, id: string)
    ensures id in FoldLocale(entries) <==> PropertiesOf(entries, id) != []
    ensures id in FoldLocale(entries) ==> FoldLocale(entries)[id] == RecordFold(PropertiesOf(entries, id))
    decreases |entries|
  {
    if entries != [] {
      var prefix := entries[..|entries| - 1];
      var last := entries[|entries| - 1];
      FoldProjection(prefix, id);
      var rest := PropertiesOf(prefix, id);
      match ParseLocaleKey(last.0)
      case None =>
      case Some((i, property)) =>
        if i == id {
          var ps := rest + [(NormalizeProperty(property), last.1)];
          assert ps[..|ps| - 1] == rest;
        }
    }
  }

  /** A `ShortName` alone fills `Name` as well. */
  lemma ShortNameFillsName(v: string)
    requires v != "" && Trimmed(v)
    ensures RecordFold([("ShortName", v)]) == map["Name" := VStr(v), "ShortName" := VStr(v)]
  {
    TrimUnchanged(v);
  }

  /** A `Name` after a `ShortName` replaces only `Name`. */
  lemma NameAfterShortName(short: string, name: string)
    requires short != "" && Trimmed(short) && name != "" && Trimmed(name)
    ensures RecordFold([("ShortName", short), ("Name", name)])
            == map["Name" := VStr(name), "ShortName" := VStr(short)]
  {
    ShortNameFillsName(short);
    TrimUnchanged(name);
    var ps: seq<(string, string)> := [("ShortName", short), ("Name", name)];
    assert ps[..1] == [("ShortName", short)];
  }

  /** A `Nickname` replaces both names, whatever came before. */
  lemma NicknameReplacesBoth(ps: seq<(string, string)>, nick: string)
    requires nick != "" && Trimmed(nick)
    ensures RecordFold(ps + [("Nickname", nick)]) == RecordFold(ps)["Name" := VStr(nick)]["ShortName" := VStr(nick)]
  {
    TrimUnchanged(nick);
    assert (ps + [("Nickname", nick)])[..|ps|] == ps;
  }

  /** A blank text, and any property other than the three names, changes nothing. */
  lemma IgnoredEntries(ps: seq<(string, string)>, property: string, value: string)
    requires IsBlank(value) || property !in {"Name", "ShortName", "Nickname"}
    ensures RecordFold(ps + [(property, value)]) == RecordFold(ps)
  {
    TrimEmptyIffBlank(value);
    assert (ps + [(property, value)])[..|ps|] == ps;
  }

  /** Locale texts are trimmed before they are stored. */
  lemma TrimExample()
    ensures Trim(" Foo\t") == "Foo"
  {
    assert LeadingCount(" Foo\t", IsWhitespace) == 1;
    assert TrailingCount(" Foo\t"[1..], IsWhitespace) == 1;
    assert " Foo\t"[1..][..3] == "Foo";
  }

  /**
   * The keys the build task writes are exactly the JSON names the plugin's record
   * reads, and the enrichment never writes a name.
   */
  lemma EnrichedKeysSerialized()
    ensures {"Name", "ShortName"} + ENRICHED_KEYS == SerializedNames
    ensures "Name" !in ENRICHED_KEYS && "ShortName" !in ENRICHED_KEYS
  {
  }

  /** An enriched record keeps its names, writes only keys the plugin reads, and types itself validly. */
  lemma EnrichEntryShape(t: Table, id: string, items: ItemsData, parseDouble: string -> Option<Double>)
    requires id in t && t[id].Keys == {"Name", "ShortName"}
    requires EnrichEntry(t, id, items, parseDouble).Some?
    ensures var r := EnrichEntry(t, id, items, parseDouble).value;
            && "Name" in r && r["Name"] == t[id]["Name"]
            && "ShortName" in r && r["ShortName"] == t[id]["ShortName"]
            && r.Keys <= SerializedNames
            && TypeWellFormed(r)
            && (id !in items ==> r == t[id])
  {
    if id in items {
      EnrichItemDataShape(t[id], items[id], items, parseDouble);
    }
  }

  lemma EnrichItemDataShape(d: ItemData, itemJson: map<string, Json>, items: ItemsData,
                            parseDouble: string -> Option<Double>)
    requires d.Keys == {"Name", "ShortName"}
    requires EnrichItemData(d, itemJson, items, parseDouble).Some?
    ensures var r := EnrichItemData(d, itemJson, items, parseDouble).value;
            && "Name" in r && r["Name"] == d["Name"]
            && "ShortName" in r && r["ShortName"] == d["ShortName"]
            && r.Keys <= SerializedNames
            && TypeWellFormed(r)
  {
    var r := EnrichItemData(d, itemJson, items, parseDouble).value;
    assert Extends(d, r, ENRICHED_KEYS);
    EnrichedKeysSerialized();
    if "Type" in r {
      if "_parent" !in itemJson {
        assert false;
      }
    }
  }

  /** The build task fails on a locale file exactly when the enrichment of one of its records throws. */
  lemma LocaleOutcomeCrashed(entries: seq<LocaleEntry>, items: ItemsData, parseDouble: string -> Option<Double>)
    ensures LocaleOutcome(entries, items, parseDouble).Crashed? <==>
              SomeEnrichmentThrows(FoldLocale(entries), items, parseDouble)
  {
    var t := FoldLocale(entries);
    assert LocaleOutcome(entries, items, parseDouble) == TableOutcome(t, items, parseDouble);
    assert TableOutcome(t, items, parseDouble).Crashed? <==> EnrichAll(t, items, parseDouble).None?;
  }

  /** Both records have the same `Name` and the same `ShortName`. */
  predicate SameNames(a: ItemData, b: ItemData) {
    && "Name" in a && "Name" in b && a["Name"] == b["Name"]
    && "ShortName" in a && "ShortName" in b && a["ShortName"] == b["ShortName"]
  }

  /** The enrichment loop's result, record by record, for a folded table. */
  lemma EnrichAllShape(f: Table, items: ItemsData, parseDouble: string -> Option<Double>)
    requires FoldedTable(f) && EnrichAll(f, items, parseDouble).Some?
    ensures var e := EnrichAll(f, items, parseDouble).value;
            && e.Keys == f.Keys
            && forall id :: id in e ==>
                 && id in f && SameNames(e[id], f[id])
                 && e[id].Keys <= SerializedNames && TypeWellFormed(e[id])
                 && (id !in items ==> e[id] == f[id])
  {
    var e := EnrichAll(f, items, parseDouble).value;
    forall id | id in e
      ensures && id in f && SameNames(e[id], f[id])
              && e[id].Keys <= SerializedNames && TypeWellFormed(e[id])
              && (id !in items ==> e[id] == f[id])
    {
      EnrichEntryShape(f, id, items, parseDouble);
    }
  }

  /** What a table written for the folded table `f` holds. */
  ghost predicate WrittenFrom(t: Table, f: Table, items: ItemsData) {
    && t != map[]
    && (forall id :: id in t <==> id in f && HasText(f[id], "Name"))
    && (forall id :: id in t ==>
          && id in f && |id| == 24 && SameNames(t[id], f[id])
          && HasText(t[id], "Name") && HasText(t[id], "ShortName")
          && t[id].Keys <= SerializedNames && TypeWellFormed(t[id])
          && (id !in items ==> t[id] == f[id]))
  }

  lemma TableOutcomeWritten(f: Table, items: ItemsData, parseDouble: string -> Option<Double>)
    requires FoldedTable(f) && TableOutcome(f, items, parseDouble).Written?
    ensures WrittenFrom(TableOutcome(f, items, parseDouble).table, f, items)
  {
    EnrichAllShape(f, items, parseDouble);
    var e := EnrichAll(f, items, parseDouble).value;
    var t := FilterNamed(e);
    assert TableOutcome(f, items, parseDouble).table == t;
    forall id | id in t
      ensures && id in f && |id| == 24 && SameNames(t[id], f[id])
              && HasText(t[id], "Name") && HasText(t[id], "ShortName")
              && t[id].Keys <= SerializedNames && TypeWellFormed(t[id])
              && (id !in items ==> t[id] == f[id])
    {
      assert t[id] == e[id];
    }
    forall id
      ensures id in t <==> id in f && HasText(f[id], "Name")
    {
      if id in f {
        assert SameNames(e[id], f[id]);
      }
    }
  }

  lemma TableOutcomeSkipped(f: Table, items: ItemsData, parseDouble: string -> Option<Double>)
    requires FoldedTable(f) && TableOutcome(f, items, parseDouble).Skipped?
    ensures forall id :: id in f ==> !HasText(f[id], "Name") && !HasText(f[id], "ShortName")
  {
    EnrichAllShape(f, items, parseDouble);
    var e := EnrichAll(f, items, parseDouble).value;
    forall id | id in f
      ensures !HasText(f[id], "Name") && !HasText(f[id], "ShortName")
    {
      assert id !in FilterNamed(e);
    }
  }

  /**
   * A written file holds exactly the records that got a name, each with the
   * names its locale entries gave it, both non-empty, with only keys the
   * plugin reads and a valid `Type`; a record the catalogue lacks is written
   * as folded.
   */
  lemma LocaleOutcomeWritten(entries: seq<LocaleEntry>, items: ItemsData, parseDouble: string -> Option<Double>)
    requires LocaleOutcome(entries, items, parseDouble).Written?
    ensures WrittenFrom(LocaleOutcome(entries, items, parseDouble).table, FoldLocale(entries), items)
  {
    FoldWellFormed(entries);
    TableOutcomeWritten(FoldLocale(entries), items, parseDouble);
  }

  /** A file is skipped exactly when no record got a name. */
  lemma LocaleOutcomeSkipped(entries: seq<LocaleEntry>, items: ItemsData, parseDouble: string -> Option<Double>)
    requires LocaleOutcome(entries, items, parseDouble).Skipped?
    ensures forall id :: id in FoldLocale(entries) ==>
              !HasText(FoldLocale(entries)[id], "Name") && !HasText(FoldLocale(entries)[id], "ShortName")
  {
    var t := FoldLocale(entries);
    assert LocaleOutcome(entries, items, parseDouble) == TableOutcome(t, items, parseDouble);
    FoldWellFormed(entries);
    TableOutcomeSkipped(t, items, parseDouble);
  }

  /** One step writes at most the current file, and only a `.json` one, with the table it produced. */
  lemma RunStepWritten(s: RunState, file: LocaleFile, process: seq<LocaleEntry> -> FileOutcome)
    ensures var s' := RunStep(s, file, process);
            forall name :: name in s'.written ==>
              || (name in s.written && s'.written[name] == s.written[name])
              || (name == file.name && Extension(name) == "json" && process(file.entries) == Written(s'.written[name]))
  {
  }

  /**
   * Every file the build task writes has a `.json` name and holds the table its
   * namesake locale file produced.
   */
  lemma {:induction false} RunWritten(files: seq<LocaleFile>, process: seq<LocaleEntry> -> FileOutcome)
    ensures forall name :: name in Run(files, process).written ==>
              && Extension(name) == "json"
              && exists k :: 0 <= k < |files| && files[k].name == name
                   && process(files[k].entries) == Written(Run(files, process).written[name])
    decreases |files|
  {
    if files != [] {
      var prefix := files[..|files| - 1];
      var last := files[|files| - 1];
      var s := Run(prefix, process);
      var s' := Run(files, process);
      assert s' == RunStep(s, last, process);
      RunWritten(prefix, process);
      RunStepWritten(s, last, process);
      forall name | name in s'.written
        ensures Extension(name) == "json"
        ensures exists k :: 0 <= k < |files| && files[k].name == name
                  && process(files[k].entries) == Written(s'.written[name])
      {
        if name in s.written && s'.written[name] == s.written[name] {
          var k :| 0 <= k < |prefix| && prefix[k].name == name
                   && process(prefix[k].entries) == Written(s.written[name]);
          assert files[k] == prefix[k];
        } else {
          assert files[|files| - 1].name == name;
        }
      }
    }
  }

  /** Once a file throws, nothing more is written. */
  lemma {:induction false} RunStopsAtCrash(files: seq<LocaleFile>, n: nat, process: seq<LocaleEntry> -> FileOutcome)
    requires n <= |files| && Run(files[..n], process).crashed
    ensures Run(files, process) == Run(files[..n], process)
    decreases |files| - n
  {
    if n < |files| {
      assert files[..n + 1][..n] == files[..n];
      RunStopsAtCrash(files, n + 1, process);
    } else {
      assert files[..n] == files;
    }
  }

  /** The ammunition pack of the source's comment takes the calibre and damage of the round it holds. */
  lemma AmmoPackTakesRoundData(ammoId: string, caliber: string)
    ensures var pack := map["StackSlots" := JArray([JObject(map["_props" := JObject(map[
              "filters" := JArray([JObject(map["Filter" := JArray([JString(ammoId)])])])])])])];
            var items := map[ammoId := map["_props" := JObject(map[
              "Caliber" := JString(caliber), "Damage" := JNumber(Number("54", 54))])]];
            EnrichAmmoPackData(Seed, pack, items) == Some(Seed["Caliber" := VStr(caliber)]["Damage" := VInt(54)])
  {
  }

  /**
   * A record that carries no ballistic or customization key (as every folded
   * record does) gains ballistic keys only as an AMMO item and customization
   * keys only as a CUSTOMIZATION item.
   */
  lemma {:induction false} KindFieldsOnlyForKind(d: ItemData, itemJson: map<string, Json>, items: ItemsData,
                                                 parseDouble: string -> Option<Double>)
    requires d.Keys * (AMMO_KEYS + CUSTOMIZATION_KEYS) == {}
    ensures var e := EnrichItemData(d, itemJson, items, parseDouble);
            e.Some? ==>
              && (forall k :: k in AMMO_KEYS && k in e.value ==> "Type" in e.value && e.value["Type"] == VStr("AMMO"))
              && (forall k :: k in CUSTOMIZATION_KEYS && k in e.value ==>
                    "Type" in e.value && e.value["Type"] == VStr("CUSTOMIZATION"))
  {
    var e := EnrichItemData(d, itemJson, items, parseDouble);
    if e.None? {
      return;
    }
    var r := e.value;
    assert COMMON_KEYS * (AMMO_KEYS + CUSTOMIZATION_KEYS) == {};
    if GetObject(itemJson, "_props").Present? && "_parent" in itemJson {
      var kind := DetermineItemType(AsString(itemJson["_parent"]).value);
      var keys := KindKeys(kind);
      assert Extends(d, r, COMMON_KEYS + keys);
      forall k | k in AMMO_KEYS && k in r
        ensures kind == "AMMO"
      {
        assert k in keys;
        assert k in keys * AMMO_KEYS;
      }
      forall k | k in CUSTOMIZATION_KEYS && k in r
        ensures kind == "CUSTOMIZATION"
      {
        assert k in keys;
        assert k in keys * CUSTOMIZATION_KEYS;
      }
    }
  }

  /** A template whose `_props` has no common member goes straight to the type step. */
  lemma NoCommonData(d: ItemData, parent: string, props: map<string, Json>, items: ItemsData,
                     parseDouble: string -> Option<Double>)
    requires "Weight" !in props && "QuestItem" !in props && "CanSellOnRagfair" !in props
    ensures EnrichItemData(d, map["_parent" := JString(parent), "_props" := JObject(props)], items, parseDouble)
              == EnrichByParent(d, parent, props, items)
  {
    var itemJson := map["_parent" := JString(parent), "_props" := JObject(props)];
    assert GetObject(itemJson, "_props") == Present(props);
    assert EnrichCommonData(d, props, parseDouble) == Some(d);
    assert AsString(itemJson["_parent"]) == Some(parent);
  }

  /** A round with a calibre and a damage, and nothing else, adds exactly those two keys. */
  lemma RoundData(d: ItemData, caliber: string)
    ensures EnrichAmmoData(d, map["Caliber" := JString(caliber), "Damage" := JNumber(Number("54", 54))])
              == Some(d["Caliber" := VStr(caliber)]["Damage" := VInt(54)])
  {
    var round: map<string, Json> := map["Caliber" := JString(caliber), "Damage" := JNumber(Number("54", 54))];
    var d1 := d["Caliber" := VStr(caliber)];
    var d2 := d1["Damage" := VInt(54)];
    assert PutIfPresent(d, round, "Caliber", "Caliber", ToStr) == Some(d1);
    assert PutIfPresent(d1, round, "Damage", "Damage", ToInt) == Some(d2);
    assert PutIfPresent(d2, round, "ArmorDamage", "ArmorDamage", ToInt) == Some(d2);
    assert PutIfPresent(d2, round, "PenetrationPower", "PenetrationPower", ToInt) == Some(d2);
  }

  /**
   * An ammunition pack enriched as a whole catalogue item: it is typed AMMO and
   * takes the calibre and damage of the round its first filter names.
   */
  lemma AmmoPackEnrichedAsItem(ammoId: string, caliber: string, parseDouble: string -> Option<Double>)
    ensures var pack := map["StackSlots" := JArray([JObject(map["_props" := JObject(map[
              "filters" := JArray([JObject(map["Filter" := JArray([JString(ammoId)])])])])])])];
            var itemJson := map["_parent" := JString(AMMO_PACK_PARENT), "_props" := JObject(pack)];
            var items := map[ammoId := map["_props" := JObject(map[
              "Caliber" := JString(caliber), "Damage" := JNumber(Number("54", 54))])]];
            EnrichItemData(Seed, itemJson, items, parseDouble)
              == Some(Seed["Type" := VStr("AMMO")]["Caliber" := VStr(caliber)]["Damage" := VInt(54)])
  {
    var pack := map["StackSlots" := JArray([JObject(map["_props" := JObject(map[
              "filters" := JArray([JObject(map["Filter" := JArray([JString(ammoId)])])])])])])];
    var round: map<string, Json> := map["Caliber" := JString(caliber), "Damage" := JNumber(Number("54", 54))];
    var items: ItemsData := map[ammoId := map["_props" := JObject(round)]];
    var d4 := Seed["Type" := VStr("AMMO")];
    NoCommonData(Seed, AMMO_PACK_PARENT, pack, items, parseDouble);
    assert EnrichByParent(Seed, AMMO_PACK_PARENT, pack, items) == EnrichAmmoPackData(d4, pack, items);
    PackTakesRound(d4, ammoId, caliber);
  }

  /** The pack step alone, on any record. */
  lemma PackTakesRound(d: ItemData, ammoId: string, caliber: string)
    ensures var pack := map["StackSlots" := JArray([JObject(map["_props" := JObject(map[
              "filters" := JArray([JObject(map["Filter" := JArray([JString(ammoId)])])])])])])];
            var items := map[ammoId := map["_props" := JObject(map[
              "Caliber" := JString(caliber), "Damage" := JNumber(Number("54", 54))])]];
            EnrichAmmoPackData(d, pack, items) == Some(d["Caliber" := VStr(caliber)]["Damage" := VInt(54)])
  {
    var pack := map["StackSlots" := JArray([JObject(map["_props" := JObject(map[
              "filters" := JArray([JObject(map["Filter" := JArray([JString(ammoId)])])])])])])];
    var round: map<string, Json> := map["Caliber" := JString(caliber), "Damage" := JNumber(Number("54", 54))];
    var items: ItemsData := map[ammoId := map["_props" := JObject(round)]];
    assert PackedAmmoId(pack) == Present(ammoId);
    assert GetObject(items[ammoId], "_props") == Present(round);
    RoundData(d, caliber);
  }

  /** `File.extension` of a locale file name, and of two names the filter rejects. */
  lemma ExtensionExamples()
    ensures Extension("en.json") == "json"
    ensures Extension("en.json.bak") == "bak"
    ensures Extension("json") == ""
  {
    var s1, s2 := "en.json", "en.json.bak";
    assert s1[2] == '.' && s1[3] != '.' && s1[4] != '.' && s1[5] != '.' && s1[6] != '.';
    assert s2[7] == '.' && s2[8] != '.' && s2[9] != '.' && s2[10] != '.';
    assert s1[2 + 1..] == "json" && s2[7 + 1..] == "bak";
  }
}
