/**
 * The record served for one ID (`ItemDetails`) and the enumeration of item
 * kinds (`ItemDetailType`).
 */
module Models {
  import opened Wrappers
  import opened KotlinText
  import opened Json

  /** The sixteen item kinds, in declaration order. */
  datatype ItemDetailType =
    | ITEM | AMMO | WEAPON | ARMOR | HEADWEAR | KEY | MEDIKIT | DRUG
    | STIMULANT | FOOD | DRINK | CURRENCY | TRADER | CUSTOMIZATION | LOCATION | QUEST

  /** `ItemDetailType.values()`. */
  const Values: seq<ItemDetailType> := [
    ITEM, AMMO, WEAPON, ARMOR, HEADWEAR, KEY, MEDIKIT, DRUG,
    STIMULANT, FOOD, DRINK, CURRENCY, TRADER, CUSTOMIZATION, LOCATION, QUEST
  ]

  /** `ItemDetailType.name`. */
  function Name(t: ItemDetailType): string {
    match t
    case ITEM => "ITEM"
    case AMMO => "AMMO"
    case WEAPON => "WEAPON"
    case ARMOR => "ARMOR"
    case HEADWEAR => "HEADWEAR"
    case KEY => "KEY"
    case MEDIKIT => "MEDIKIT"
    case DRUG => "DRUG"
    case STIMULANT => "STIMULANT"
    case FOOD => "FOOD"
    case DRINK => "DRINK"
    case CURRENCY => "CURRENCY"
    case TRADER => "TRADER"
    case CUSTOMIZATION => "CUSTOMIZATION"
    case LOCATION => "LOCATION"
    case QUEST => "QUEST"
  }

  /** `ItemDetailType.valueOf(s)`: the constant whose name is exactly `s`; absent where Kotlin throws. */
  function ValueOf(s: string): (r: Option<ItemDetailType>)
    ensures r.Some? ==> Name(r.value) == s
  {
    if s == "ITEM" then Some(ITEM)
    else if s == "AMMO" then Some(AMMO)
    else if s == "WEAPON" then Some(WEAPON)
    else if s == "ARMOR" then Some(ARMOR)
    else if s == "HEADWEAR" then Some(HEADWEAR)
    else if s == "KEY" then Some(KEY)
    else if s == "MEDIKIT" then Some(MEDIKIT)
    else if s == "DRUG" then Some(DRUG)
    else if s == "STIMULANT" then Some(STIMULANT)
    else if s == "FOOD" then Some(FOOD)
    else if s == "DRINK" then Some(DRINK)
    else if s == "CURRENCY" then Some(CURRENCY)
    else if s == "TRADER" then Some(TRADER)
    else if s == "CUSTOMIZATION" then Some(CUSTOMIZATION)
    else if s == "LOCATION" then Some(LOCATION)
    else if s == "QUEST" then Some(QUEST)
    else None
  }

  /** `ItemDetailType.ordinal`. */
  function Ordinal(t: ItemDetailType): nat {
    match t
    case ITEM => 0
    case AMMO => 1
    case WEAPON => 2
    case ARMOR => 3
    case HEADWEAR => 4
    case KEY => 5
    case MEDIKIT => 6
    case DRUG => 7
    case STIMULANT => 8
    case FOOD => 9
    case DRINK => 10
    case CURRENCY => 11
    case TRADER => 12
    case CUSTOMIZATION => 13
    case LOCATION => 14
    case QUEST => 15
  }

  /**
   * `values()` lists every constant exactly once, in declaration order: the
   * constant at each position has that position as its ordinal, so no two
   * positions hold the same constant.
   */
  lemma ValuesComplete()
    ensures |Values| == 16
    ensures forall t: ItemDetailType :: Ordinal(t) < 16 && Values[Ordinal(t)] == t
    ensures forall i :: 0 <= i < |Values| ==> Ordinal(Values[i]) == i
    ensures forall i, j :: 0 <= i < j < |Values| ==> Values[i] != Values[j]
    ensures Values[0] == ITEM && Values[15] == QUEST
  {
    forall i | 0 <= i < |Values|
      ensures Ordinal(Values[i]) == i
    {
    }
  }

  /** `valueOf` inverts `name`, and no two constants share a name. */
  lemma {:induction false} ValueOfName(t: ItemDetailType)
    ensures ValueOf(Name(t)) == Some(t)
  {
    match t
    case ITEM =>
    case AMMO =>
    case WEAPON =>
    case ARMOR =>
    case HEADWEAR =>
    case KEY =>
    case MEDIKIT =>
    case DRUG =>
    case STIMULANT =>
    case FOOD =>
    case DRINK =>
    case CURRENCY =>
    case TRADER =>
    case CUSTOMIZATION =>
    case LOCATION =>
    case QUEST =>
  }

  /** Every constant's name resolves to that constant. */
  lemma NamesResolve()
    ensures forall c: ItemDetailType :: ValueOf(Name(c)) == Some(c)
  {
    forall c: ItemDetailType
      ensures ValueOf(Name(c)) == Some(c)
    {
      ValueOfName(c);
    }
  }

  /** Every constant's name is upper case, and starts with a letter other than `E`. */
  lemma NameShape(t: ItemDetailType)
    ensures NoLowerLetters(Name(t))
    ensures Name(t) != "" && Name(t)[0] in "ACDFHIKLMQSTW"
  {
  }

  /**
   * One resolved ID.  `name` and `shortName` are required (Kotlin `String`);
   * every other field is nullable with default `null`.
   */
  datatype ItemDetails = ItemDetails(
    name: string,
    shortName: string,
    itemType: Option<ItemDetailType>,
    detailLink: Option<string>,
    parent: Option<string>,
    parentID: Option<string>,
    parentDetailLink: Option<string>,
    fleaBlacklisted: Option<bool>,
    questItem: Option<bool>,
    weight: Option<Double>,
    // Ammo
    caliber: Option<string>,
    damage: Option<int>,
    armorDamage: Option<int>,
    penetrationPower: Option<int>,
    // Traders
    currency: Option<string>,
    unlockedByDefault: Option<bool>,
    // Customization items
    description: Option<string>,
    bodyPart: Option<string>,
    sides: Option<string>,
    integratedArmorVest: Option<bool>,
    availableAsDefault: Option<bool>,
    prefabPath: Option<string>,
    // Locations
    id: Option<string>,
    airdropChance: Option<Double>,
    escapeTimeLimit: Option<int>,
    insurance: Option<bool>,
    bossSpawns: Option<string>,
    // Quests
    trader: Option<string>,
    traderId: Option<string>,
    traderLink: Option<string>,
    questType: Option<string>)

  /** `ItemDetails(name = …, shortName = …)`: every optional field left at its default. */
  function Minimal(name: string, shortName: string): (r: ItemDetails)
    ensures r.name == name && r.shortName == shortName
    ensures r.itemType.None? && r.detailLink.None? && r.parent.None? && r.parentID.None?
    ensures r.parentDetailLink.None? && r.fleaBlacklisted.None? && r.questItem.None? && r.weight.None?
    ensures r.caliber.None? && r.damage.None? && r.armorDamage.None? && r.penetrationPower.None?
    ensures r.currency.None? && r.unlockedByDefault.None?
    ensures r.description.None? && r.bodyPart.None? && r.sides.None? && r.integratedArmorVest.None?
    ensures r.availableAsDefault.None? && r.prefabPath.None?
    ensures r.id.None? && r.airdropChance.None? && r.escapeTimeLimit.None? && r.insurance.None? && r.bossSpawns.None?
    ensures r.trader.None? && r.traderId.None? && r.traderLink.None? && r.questType.None?
  {
    ItemDetails(name, shortName, None, None, None, None, None, None, None, None,
                None, None, None, None, None, None, None, None, None, None, None, None,
                None, None, None, None, None, None, None, None, None)
  }

  /** The JSON keys given by `@SerializedName` on the record's fields. */
  const SerializedNames: set<string> := {
    "Name", "ShortName", "Type", "FleaBlacklisted", "QuestItem", "Weight",
    "Caliber", "Damage", "ArmorDamage", "PenetrationPower",
    "Description", "BodyPart", "Sides", "IntegratedArmorVest", "AvailableAsDefault"
  }
}
