/**
 * `SptIdDocumentationProvider`: the HTML tooltip for an ID under the caret.
 * The element's text is looked up whole, after stripping quotes and
 * whitespace, and otherwise the first ID found inside it that the service
 * resolves is used.  Item values are inserted into the HTML as they are,
 * without escaping.
 */
module Documentation {
  import opened Wrappers
  import opened KotlinText
  import opened Json
  import opened Models
  import opened DataService
  import opened IdScan

  // ---------------------------------------------------------------------------
  // Rendering item values
  // ---------------------------------------------------------------------------

  /** The characters `generateDoc` strips from both ends of the element text. */
  predicate IsCleanChar(c: char) {
    c == '"' || c == '\'' || c == ' ' || c == '\n' || c == '\r' || c == '\t'
  }

  /** `text.trim('"', '\'', ' ', '\n', '\r', '\t')`. */
  function CleanText(text: string): (r: string)
    ensures r == "" <==> forall k :: 0 <= k < |text| ==> IsCleanChar(text[k])
    ensures r != "" ==> !IsCleanChar(r[0]) && !IsCleanChar(r[|r| - 1])
  {
    TrimBy(text, IsCleanChar)
  }

  /** `value?.toString()` of a nullable `Int`; a `String` value is its own text. */
  function IntText(v: Option<int>): (r: Option<string>)
    ensures r.Some? <==> v.Some?
  {
    if v.Some? then Some(IntToString(v.value)) else None
  }

  /** `value?.toString()` of a nullable `Boolean`. */
  function BoolText(v: Option<bool>): (r: Option<string>)
    ensures r.Some? <==> v.Some?
  {
    if v.Some? then Some(BoolToString(v.value)) else None
  }

  /** `value?.toString()` of a nullable `Double`: its printed decimal text. */
  function DoubleText(v: Option<Double>): (r: Option<string>)
    ensures r.Some? <==> v.Some?
  {
    if v.Some? then Some(v.value.text) else None
  }

  /** `item.type?.name`. */
  function TypeText(v: Option<ItemDetailType>): (r: Option<string>)
    ensures r.Some? <==> v.Some?
  {
    if v.Some? then Some(Name(v.value)) else None
  }

  /** What `appendValueIfDefined(sb, key, value)` appends: "key value\n", or nothing. */
  function ValueLine(key: string, value: Option<string>): (r: string)
    ensures r == "" <==> value.None? || IsBlank(value.value)
  {
    if value.Some? && !IsBlank(value.value) then key + " " + value.value + "\n" else ""
  }

  lemma NatToStringNotBlank(n: nat)
    ensures !IsWhitespace(NatToString(n)[0])
  {
    var s := NatToString(n);
    assert IsDigit(s[0]);
  }

  /** A present number or boolean is never blank, so its line always appears. */
  lemma PresentAlwaysShown(key: string, i: int, b: bool)
    ensures ValueLine(key, IntText(Some(i))) == key + " " + IntToString(i) + "\n"
    ensures ValueLine(key, BoolText(Some(b))) == key + " " + BoolToString(b) + "\n"
  {
    if i < 0 {
      assert IntToString(i)[0] == '-';
    } else {
      NatToStringNotBlank(i);
    }
    assert !IsWhitespace(BoolToString(b)[0]);
  }

  // ---------------------------------------------------------------------------
  // The tooltip, section by section
  // ---------------------------------------------------------------------------

  /** The `<h3>` header: the name, then the short name in brackets when it differs. */
  function Header(item: ItemDetails): string {
    if item.name != item.shortName then ("<h3>" + item.name) + (" [<em>" + item.shortName + "</em>]") + "</h3>"
    else ("<h3>" + item.name) + "</h3>"
  }

  /** An ID shown as a link when there is a link for it, as plain text otherwise. */
  function Reference(link: Option<string>, id: string): string {
    if link.Some? then "<a href=\"" + link.value + "\">" + id + "</a>" else id
  }

  /** The Parent line, shown only when both the parent's name and its ID are known. */
  function ParentLine(item: ItemDetails, service: SptDataService): (r: string)
    reads service
    ensures r == "" <==> item.parent.None? || item.parentID.None?
  {
    if item.parent.Some? && item.parentID.Some? then
      (service.GetTranslation("Parent:") + " " + item.parent.value + " - ")
      + Reference(item.parentDetailLink, item.parentID.value) + "\n"
    else ""
  }

  function AmmoLines(item: ItemDetails, service: SptDataService): string
    reads service
  {
    ValueLine(service.GetTranslation("Caliber:"), item.caliber)
    + ValueLine(service.GetTranslation("Damage:"), IntText(item.damage))
    + ValueLine(service.GetTranslation("Armor Damage:"), IntText(item.armorDamage))
    + ValueLine(service.GetTranslation("Penetration Power:"), IntText(item.penetrationPower))
  }

  function CustomizationLines(item: ItemDetails, service: SptDataService): string
    reads service
  {
    ValueLine(service.GetTranslation("Description:"), item.description)
    + ValueLine(service.GetTranslation("Body Part:"), item.bodyPart)
    + ValueLine(service.GetTranslation("Sides:"), item.sides)
    + ValueLine(service.GetTranslation("Integrated Armor:"), BoolText(item.integratedArmorVest))
    + ValueLine(service.GetTranslation("Available By Default:"), BoolText(item.availableAsDefault))
    + ValueLine(service.GetTranslation("Prefab Path:"), item.prefabPath)
  }

  function LocationLines(item: ItemDetails, service: SptDataService): string
    reads service
  {
    ValueLine(service.GetTranslation("Map ID:"), item.id)
    + ValueLine(service.GetTranslation("Airdrop Chance:"), DoubleText(item.airdropChance))
    + ValueLine(service.GetTranslation("Time Limit:"), IntText(item.escapeTimeLimit))
    + ValueLine(service.GetTranslation("Insurance:"), BoolText(item.insurance))
    + ValueLine(service.GetTranslation("Boss Spawns:"), item.bossSpawns)
  }

  /**
   * The trader: a full line when its name and ID are both known, else a
   * "Trader ID:" line; nothing only when there is no ID, or when there is no
   * name and the ID is blank.
   */
  function TraderLine(item: ItemDetails, service: SptDataService): (r: string)
    reads service
    ensures r == "" <==> item.traderId.None? || (item.trader.None? && IsBlank(item.traderId.value))
  {
    if item.trader.Some? && item.traderId.Some? then
      (service.GetTranslation("Trader:") + " " + item.trader.value + " - ")
      + Reference(item.traderLink, item.traderId.value) + "\n"
    else ValueLine(service.GetTranslation("Trader ID:"), item.traderId)
  }

  function QuestLines(item: ItemDetails, service: SptDataService): string
    reads service
  {
    TraderLine(item, service)
    + ValueLine(service.GetTranslation("Quest Type:"), item.questType)
  }

  /** The lines shown for one kind of item only. */
  function TypeLines(item: ItemDetails, service: SptDataService): (r: string)
    reads service
    ensures item.itemType !in {Some(AMMO), Some(CUSTOMIZATION), Some(LOCATION), Some(QUEST)} ==> r == ""
  {
    match item.itemType
    case Some(AMMO) => AmmoLines(item, service)
    case Some(CUSTOMIZATION) => CustomizationLines(item, service)
    case Some(LOCATION) => LocationLines(item, service)
    case Some(QUEST) => QuestLines(item, service)
    case _ => ""
  }

  /** The lines shown for every kind of item, after the kind-specific ones. */
  function CommonLines(item: ItemDetails, service: SptDataService): string
    reads service
  {
    ValueLine(service.GetTranslation("Weight:"), DoubleText(item.weight))
    + ValueLine(service.GetTranslation("Flea Blacklisted:"), BoolText(item.fleaBlacklisted))
    + ValueLine(service.GetTranslation("Unlocked By Default:"), BoolText(item.unlockedByDefault))
  }

  /** Everything between `<pre>` and `</pre>`. */
  function Body(item: ItemDetails, service: SptDataService): string
    reads service
  {
    ValueLine(service.GetTranslation("Type:"), TypeText(item.itemType))
    + ParentLine(item, service) + TypeLines(item, service) + CommonLines(item, service)
  }

  /** The link that closes the "Full Details" block. */
  function DetailAnchor(link: string): string {
    "<a href=\"" + link + "\">" + link + "</a></p>"
  }

  /** The "Full Details" block after the body, present only with a detail link. */
  function DetailBlock(item: ItemDetails, service: SptDataService): (r: string)
    reads service
    ensures r == "" <==> item.detailLink.None?
  {
    if item.detailLink.Some? then
      "<hr>" + ("<p><strong>" + service.GetTranslation("Full Details:") + "</strong><br>")
      + DetailAnchor(item.detailLink.value)
    else ""
  }

  /** `buildDocumentation(item, dataService)`. */
  function Doc(item: ItemDetails, service: SptDataService): string
    reads service
  {
    Header(item) + "<pre>" + Body(item, service) + "</pre>" + DetailBlock(item, service)
  }

  // ---------------------------------------------------------------------------
  // Properties of the tooltip
  // ---------------------------------------------------------------------------

  /** The tooltip opens with the name, adds the short name only when it differs, and then opens the `<pre>` body. */
  lemma DocHeader(item: ItemDetails, service: SptDataService)
    ensures item.name == item.shortName ==> StartsWith(Doc(item, service), ("<h3>" + item.name) + "</h3>" + "<pre>")
    ensures item.name != item.shortName ==>
              StartsWith(Doc(item, service), ("<h3>" + item.name) + (" [<em>" + item.shortName + "</em>]") + "</h3>" + "<pre>")
  {
    var h := Header(item) + "<pre>";
    var b := h + Body(item, service);
    var c := b + "</pre>";
    PrefixOfAppend(h, Body(item, service));
    PrefixOfAppend(b, "</pre>");
    PrefixOfAppend(c, DetailBlock(item, service));
    PrefixTrans(Doc(item, service), c, b);
    PrefixTrans(Doc(item, service), b, h);
  }

  /** Without a detail link the tooltip ends with the body; with one it ends with the link to it. */
  lemma DocEnding(item: ItemDetails, service: SptDataService)
    ensures item.detailLink.None? ==> EndsWith(Doc(item, service), "</pre>")
    ensures item.detailLink.Some? ==> EndsWith(Doc(item, service), DetailAnchor(item.detailLink.value))
  {
    var body := Body(item, service);
    var c := Header(item) + "<pre>" + body + "</pre>";
    assert Doc(item, service) == c + DetailBlock(item, service);
    if item.detailLink.Some? {
      var mid := "<hr>" + ("<p><strong>" + service.GetTranslation("Full Details:") + "</strong><br>");
      var anchor := DetailAnchor(item.detailLink.value);
      assert DetailBlock(item, service) == mid + anchor;
      AppendAssoc(c, mid, anchor);
      SuffixOfAppend(c + mid, anchor);
    } else {
      assert c + DetailBlock(item, service) == c;
      SuffixOfAppend(Header(item) + "<pre>" + body, "</pre>");
    }
  }

  /** The body lists the type first, when the item has one. */
  lemma TypeShownFirst(item: ItemDetails, service: SptDataService)
    requires item.itemType.Some?
    ensures StartsWith(Body(item, service), service.GetTranslation("Type:") + " " + Name(item.itemType.value) + "\n")
  {
    var t := Name(item.itemType.value);
    NameShape(item.itemType.value);
    assert !IsBlank(t) by {
      assert t[0] in "ACDFHIKLMQSTW";
      assert !IsWhitespace(t[0]);
    }
    var line := ValueLine(service.GetTranslation("Type:"), TypeText(item.itemType));
    var lp := line + ParentLine(item, service);
    var lpt := lp + TypeLines(item, service);
    PrefixOfAppend(line, ParentLine(item, service));
    PrefixOfAppend(lp, TypeLines(item, service));
    PrefixOfAppend(lpt, CommonLines(item, service));
    PrefixTrans(Body(item, service), lpt, lp);
    PrefixTrans(Body(item, service), lp, line);
  }

  /** Two items whose shown fields agree, and whose kind-specific lines agree, get the same tooltip. */
  lemma SameTooltip(a: ItemDetails, b: ItemDetails, service: SptDataService)
    requires a.name == b.name && a.shortName == b.shortName && a.itemType == b.itemType && a.detailLink == b.detailLink
    requires a.parent == b.parent && a.parentID == b.parentID && a.parentDetailLink == b.parentDetailLink
    requires a.weight == b.weight && a.fleaBlacklisted == b.fleaBlacklisted && a.unlockedByDefault == b.unlockedByDefault
    requires TypeLines(a, service) == TypeLines(b, service)
    ensures Doc(a, service) == Doc(b, service)
  {
    assert Header(a) == Header(b);
    assert ParentLine(a, service) == ParentLine(b, service);
    assert CommonLines(a, service) == CommonLines(b, service);
    assert DetailBlock(a, service) == DetailBlock(b, service);
  }

  /** The ammunition fields show only in an AMMO tooltip. */
  lemma AmmoFieldsOnlyForAmmo(item: ItemDetails, service: SptDataService,
                              caliber: Option<string>, damage: Option<int>, armorDamage: Option<int>, penetrationPower: Option<int>)
    requires item.itemType != Some(AMMO)
    ensures Doc(item.(caliber := caliber, damage := damage, armorDamage := armorDamage, penetrationPower := penetrationPower), service)
         == Doc(item, service)
  {
    var other := item.(caliber := caliber, damage := damage, armorDamage := armorDamage, penetrationPower := penetrationPower);
    assert TypeLines(other, service) == TypeLines(item, service);
    SameTooltip(other, item, service);
  }

  /** The customization fields show only in a CUSTOMIZATION tooltip. */
  lemma CustomizationFieldsOnlyForCustomization(item: ItemDetails, service: SptDataService,
                                                description: Option<string>, bodyPart: Option<string>, sides: Option<string>,
                                                integratedArmorVest: Option<bool>, availableAsDefault: Option<bool>,
                                                prefabPath: Option<string>)
    requires item.itemType != Some(CUSTOMIZATION)
    ensures Doc(item.(description := description, bodyPart := bodyPart, sides := sides,
                      integratedArmorVest := integratedArmorVest, availableAsDefault := availableAsDefault,
                      prefabPath := prefabPath), service)
         == Doc(item, service)
  {
    var other := item.(description := description, bodyPart := bodyPart, sides := sides,
                       integratedArmorVest := integratedArmorVest, availableAsDefault := availableAsDefault,
                       prefabPath := prefabPath);
    assert TypeLines(other, service) == TypeLines(item, service);
    SameTooltip(other, item, service);
  }

  /** The location fields show only in a LOCATION tooltip. */
  lemma LocationFieldsOnlyForLocation(item: ItemDetails, service: SptDataService,
                                      id: Option<string>, airdropChance: Option<Double>, escapeTimeLimit: Option<int>,
                                      insurance: Option<bool>, bossSpawns: Option<string>)
    requires item.itemType != Some(LOCATION)
    ensures Doc(item.(id := id, airdropChance := airdropChance, escapeTimeLimit := escapeTimeLimit,
                      insurance := insurance, bossSpawns := bossSpawns), service)
         == Doc(item, service)
  {
    var other := item.(id := id, airdropChance := airdropChance, escapeTimeLimit := escapeTimeLimit,
                       insurance := insurance, bossSpawns := bossSpawns);
    assert TypeLines(other, service) == TypeLines(item, service);
    SameTooltip(other, item, service);
  }

  /** The quest fields show only in a QUEST tooltip. */
  lemma QuestFieldsOnlyForQuest(item: ItemDetails, service: SptDataService,
                                trader: Option<string>, traderId: Option<string>, traderLink: Option<string>,
                                questType: Option<string>)
    requires item.itemType != Some(QUEST)
    ensures Doc(item.(trader := trader, traderId := traderId, traderLink := traderLink, questType := questType), service)
         == Doc(item, service)
  {
    var other := item.(trader := trader, traderId := traderId, traderLink := traderLink, questType := questType);
    assert TypeLines(other, service) == TypeLines(item, service);
    SameTooltip(other, item, service);
  }

  /** `questItem` and `currency` never appear in a tooltip. */
  lemma UnshownFields(item: ItemDetails, service: SptDataService, questItem: Option<bool>, currency: Option<string>)
    ensures Doc(item.(questItem := questItem, currency := currency), service) == Doc(item, service)
  {
    var other := item.(questItem := questItem, currency := currency);
    assert TypeLines(other, service) == TypeLines(item, service);
    SameTooltip(other, item, service);
  }

  // ---------------------------------------------------------------------------
  // Building the tooltip, appending to a buffer
  // ---------------------------------------------------------------------------

  /** `appendValueIfDefined`. */
  method AppendValueIfDefined(sb: string, key: string, value: Option<string>) returns (out: string)
    ensures out == sb + ValueLine(key, value)
  {
    out := sb;
    if value.Some? {
      var valueStr := value.value;
      if !IsBlank(valueStr) {
        out := out + (key + " " + valueStr + "\n");
      }
    }
  }

  /** Appends "head" and then the reference, in two steps, and the line end. */
  method AppendReferenceLine(sb: string, head: string, link: Option<string>, id: string) returns (out: string)
    ensures out == sb + (head + Reference(link, id) + "\n")
  {
    out := sb + head;
    if link.Some? {
      out := out + ("<a href=\"" + link.value + "\">" + id + "</a>");
    } else {
      out := out + id;
    }
    AppendAssoc(sb, head, Reference(link, id));
    out := out + "\n";
    AppendAssoc(sb, head + Reference(link, id), "\n");
  }

  method AppendParent(sb: string, item: ItemDetails, service: SptDataService) returns (out: string)
    ensures out == sb + ParentLine(item, service)
  {
    out := sb;
    if item.parent.Some? && item.parentID.Some? {
      out := AppendReferenceLine(out, service.GetTranslation("Parent:") + " " + item.parent.value + " - ",
                                 item.parentDetailLink, item.parentID.value);
    }
  }

  method AppendAmmo(sb: string, item: ItemDetails, service: SptDataService) returns (out: string)
    ensures out == sb + AmmoLines(item, service)
  {
    var v1 := ValueLine(service.GetTranslation("Caliber:"), item.caliber);
    var v2 := ValueLine(service.GetTranslation("Damage:"), IntText(item.damage));
    var v3 := ValueLine(service.GetTranslation("Armor Damage:"), IntText(item.armorDamage));
    var v4 := ValueLine(service.GetTranslation("Penetration Power:"), IntText(item.penetrationPower));
    out := AppendValueIfDefined(sb, service.GetTranslation("Caliber:"), item.caliber);
    out := AppendValueIfDefined(out, service.GetTranslation("Damage:"), IntText(item.damage));
    AppendAssoc(sb, v1, v2);
    out := AppendValueIfDefined(out, service.GetTranslation("Armor Damage:"), IntText(item.armorDamage));
    AppendAssoc(sb, v1 + v2, v3);
    out := AppendValueIfDefined(out, service.GetTranslation("Penetration Power:"), IntText(item.penetrationPower));
    AppendAssoc(sb, v1 + v2 + v3, v4);
  }

  method AppendCustomization(sb: string, item: ItemDetails, service: SptDataService) returns (out: string)
    ensures out == sb + CustomizationLines(item, service)
  {
    var v1 := ValueLine(service.GetTranslation("Description:"), item.description);
    var v2 := ValueLine(service.GetTranslation("Body Part:"), item.bodyPart);
    var v3 := ValueLine(service.GetTranslation("Sides:"), item.sides);
    var v4 := ValueLine(service.GetTranslation("Integrated Armor:"), BoolText(item.integratedArmorVest));
    var v5 := ValueLine(service.GetTranslation("Available By Default:"), BoolText(item.availableAsDefault));
    var v6 := ValueLine(service.GetTranslation("Prefab Path:"), item.prefabPath);
    out := AppendValueIfDefined(sb, service.GetTranslation("Description:"), item.description);
    out := AppendValueIfDefined(out, service.GetTranslation("Body Part:"), item.bodyPart);
    AppendAssoc(sb, v1, v2);
    out := AppendValueIfDefined(out, service.GetTranslation("Sides:"), item.sides);
    AppendAssoc(sb, v1 + v2, v3);
    out := AppendValueIfDefined(out, service.GetTranslation("Integrated Armor:"), BoolText(item.integratedArmorVest));
    AppendAssoc(sb, v1 + v2 + v3, v4);
    out := AppendValueIfDefined(out, service.GetTranslation("Available By Default:"), BoolText(item.availableAsDefault));
    AppendAssoc(sb, v1 + v2 + v3 + v4, v5);
    out := AppendValueIfDefined(out, service.GetTranslation("Prefab Path:"), item.prefabPath);
    AppendAssoc(sb, v1 + v2 + v3 + v4 + v5, v6);
  }

  method AppendLocation(sb: string, item: ItemDetails, service: SptDataService) returns (out: string)
    ensures out == sb + LocationLines(item, service)
  {
    var v1 := ValueLine(service.GetTranslation("Map ID:"), item.id);
    var v2 := ValueLine(service.GetTranslation("Airdrop Chance:"), DoubleText(item.airdropChance));
    var v3 := ValueLine(service.GetTranslation("Time Limit:"), IntText(item.escapeTimeLimit));
    var v4 := ValueLine(service.GetTranslation("Insurance:"), BoolText(item.insurance));
    var v5 := ValueLine(service.GetTranslation("Boss Spawns:"), item.bossSpawns);
    out := AppendValueIfDefined(sb, service.GetTranslation("Map ID:"), item.id);
    out := AppendValueIfDefined(out, service.GetTranslation("Airdrop Chance:"), DoubleText(item.airdropChance));
    AppendAssoc(sb, v1, v2);
    out := AppendValueIfDefined(out, service.GetTranslation("Time Limit:"), IntText(item.escapeTimeLimit));
    AppendAssoc(sb, v1 + v2, v3);
    out := AppendValueIfDefined(out, service.GetTranslation("Insurance:"), BoolText(item.insurance));
    AppendAssoc(sb, v1 + v2 + v3, v4);
    out := AppendValueIfDefined(out, service.GetTranslation("Boss Spawns:"), item.bossSpawns);
    AppendAssoc(sb, v1 + v2 + v3 + v4, v5);
  }

  method AppendQuest(sb: string, item: ItemDetails, service: SptDataService) returns (out: string)
    ensures out == sb + QuestLines(item, service)
  {
    if item.trader.Some? && item.traderId.Some? {
      out := AppendReferenceLine(sb, service.GetTranslation("Trader:") + " " + item.trader.value + " - ",
                                 item.traderLink, item.traderId.value);
    } else {
      out := AppendValueIfDefined(sb, service.GetTranslation("Trader ID:"), item.traderId);
    }
    out := AppendValueIfDefined(out, service.GetTranslation("Quest Type:"), item.questType);
    AppendAssoc(sb, TraderLine(item, service), ValueLine(service.GetTranslation("Quest Type:"), item.questType));
  }

  method AppendTypeLines(sb: string, item: ItemDetails, service: SptDataService) returns (out: string)
    ensures out == sb + TypeLines(item, service)
  {
    match item.itemType {
      case Some(AMMO) => out := AppendAmmo(sb, item, service);
      case Some(CUSTOMIZATION) => out := AppendCustomization(sb, item, service);
      case Some(LOCATION) => out := AppendLocation(sb, item, service);
      case Some(QUEST) => out := AppendQuest(sb, item, service);
      case _ => out := sb;
    }
  }

  method AppendCommon(sb: string, item: ItemDetails, service: SptDataService) returns (out: string)
    ensures out == sb + CommonLines(item, service)
  {
    var v1 := ValueLine(service.GetTranslation("Weight:"), DoubleText(item.weight));
    var v2 := ValueLine(service.GetTranslation("Flea Blacklisted:"), BoolText(item.fleaBlacklisted));
    var v3 := ValueLine(service.GetTranslation("Unlocked By Default:"), BoolText(item.unlockedByDefault));
    out := AppendValueIfDefined(sb, service.GetTranslation("Weight:"), DoubleText(item.weight));
    out := AppendValueIfDefined(out, service.GetTranslation("Flea Blacklisted:"), BoolText(item.fleaBlacklisted));
    AppendAssoc(sb, v1, v2);
    out := AppendValueIfDefined(out, service.GetTranslation("Unlocked By Default:"), BoolText(item.unlockedByDefault));
    AppendAssoc(sb, v1 + v2, v3);
  }

  /** The `<pre>` body, appended section by section. */
  method AppendBody(sb: string, item: ItemDetails, service: SptDataService) returns (out: string)
    ensures out == sb + Body(item, service)
  {
    var t := ValueLine(service.GetTranslation("Type:"), TypeText(item.itemType));
    var p := ParentLine(item, service);
    var k := TypeLines(item, service);
    out := AppendValueIfDefined(sb, service.GetTranslation("Type:"), TypeText(item.itemType));
    out := AppendParent(out, item, service);
    AppendAssoc(sb, t, p);
    out := AppendTypeLines(out, item, service);
    AppendAssoc(sb, t + p, k);
    out := AppendCommon(out, item, service);
    AppendAssoc(sb, t + p + k, CommonLines(item, service));
  }

  /** The header, appended in the pieces `buildDocumentation` appends. */
  method AppendHeader(sb: string, item: ItemDetails) returns (out: string)
    ensures out == sb + Header(item)
  {
    out := sb + ("<h3>" + item.name);
    if item.name != item.shortName {
      out := out + (" [<em>" + item.shortName + "</em>]");
      AppendAssoc(sb, "<h3>" + item.name, " [<em>" + item.shortName + "</em>]");
      AppendAssoc(sb, ("<h3>" + item.name) + (" [<em>" + item.shortName + "</em>]"), "</h3>");
    } else {
      AppendAssoc(sb, "<h3>" + item.name, "</h3>");
    }
    out := out + "</h3>";
  }

  /** The "Full Details" block, when there is a detail link. */
  method AppendDetailBlock(sb: string, item: ItemDetails, service: SptDataService) returns (out: string)
    ensures out == sb + DetailBlock(item, service)
  {
    out := sb;
    if item.detailLink.Some? {
      var middle := "<p><strong>" + service.GetTranslation("Full Details:") + "</strong><br>";
      out := out + "<hr>";
      out := out + middle;
      AppendAssoc(sb, "<hr>", middle);
      out := out + ("<a href=\"" + item.detailLink.value + "\">" + item.detailLink.value + "</a></p>");
      AppendAssoc(sb, "<hr>" + middle, DetailAnchor(item.detailLink.value));
    }
  }

  /** `buildDocumentation`: the sections appended to one buffer in order. */
  method BuildDocumentation(item: ItemDetails, service: SptDataService) returns (sb: string)
    ensures sb == Doc(item, service)
  {
    sb := AppendHeader("", item);
    assert sb == Header(item);
    sb := sb + "<pre>";
    sb := AppendBody(sb, item, service);
    sb := sb + "</pre>";
    sb := AppendDetailBlock(sb, item, service);
  }

  // ---------------------------------------------------------------------------
  // Choosing the item
  // ---------------------------------------------------------------------------

  /** Index of the first start at or after `from` whose candidate resolves, or -1. */
  function FirstResolvedFrom(text: string, starts: seq<nat>, from: nat, service: SptDataService): (r: int)
    requires ValidStarts(text, starts) && from <= |starts|
    reads service
    ensures -1 <= r < |starts|
    ensures r >= 0 ==> from <= r && starts[r] in starts && Resolves(text, starts[r], service)
    ensures r >= 0 ==> forall k :: from <= k < r ==> starts[k] in starts && !Resolves(text, starts[k], service)
    ensures r < 0 ==> forall k :: from <= k < |starts| ==> starts[k] in starts && !Resolves(text, starts[k], service)
    decreases |starts| - from
  {
    if from == |starts| then -1
    else if (assert starts[from] in starts; Resolves(text, starts[from], service)) then from
    else FirstResolvedFrom(text, starts, from + 1, service)
  }

  /**
   * The item `generateDoc` documents, for an element whose text is `element`
   * (absent for a null element or text): the cleaned whole text if it
   * resolves, else the first match that does.
   */
  function ChosenItem(element: Option<string>, service: SptDataService): Option<ItemDetails>
    reads service
  {
    if element.None? then None
    else
      var text := element.value;
      var exact := service.GetItemDetails(CleanText(text));
      if exact.Some? then exact
      else
        MatchesValid(text);
        var ms := Matches(text, 0);
        var j := FirstResolvedFrom(text, ms, 0, service);
        if j < 0 then None else service.GetItemDetails(Candidate(text, ms[j]))
  }

  /** `generateDoc(element, originalElement)`. */
  function GenerateDocSpec(element: Option<string>, service: SptDataService): Option<string>
    reads service
  {
    var item := ChosenItem(element, service);
    if item.None? then None else Some(Doc(item.value, service))
  }

  /** The whole cleaned text wins when the service resolves it. */
  lemma ExactLookupFirst(text: string, service: SptDataService)
    requires service.GetItemDetails(CleanText(text)).Some?
    ensures ChosenItem(Some(text), service) == service.GetItemDetails(CleanText(text))
  {
  }

  /** Otherwise there is no tooltip exactly when no match in the text resolves. */
  lemma NoDocIffNoKnownMatch(text: string, ms: seq<nat>, service: SptDataService)
    requires ms == Matches(text, 0)
    requires service.GetItemDetails(CleanText(text)).None?
    ensures ValidStarts(text, ms)
    ensures ChosenItem(Some(text), service).None? <==> forall k :: 0 <= k < |ms| ==> !Resolves(text, ms[k], service)
  {
    MatchesValid(text);
    var j := FirstResolvedFrom(text, ms, 0, service);
    if j >= 0 {
      assert Resolves(text, ms[j], service);
    }
  }

  /** Otherwise the tooltip is for the first match that resolves: every earlier match is unknown. */
  lemma FirstKnownMatchWins(text: string, ms: seq<nat>, service: SptDataService)
    requires ms == Matches(text, 0)
    requires service.GetItemDetails(CleanText(text)).None? && ChosenItem(Some(text), service).Some?
    ensures ValidStarts(text, ms)
    ensures exists j :: 0 <= j < |ms| && ChosenItem(Some(text), service) == service.GetItemDetails(Candidate(text, ms[j]))
              && forall k :: 0 <= k < j ==> !Resolves(text, ms[k], service)
  {
    MatchesValid(text);
    var j := FirstResolvedFrom(text, ms, 0, service);
    assert ChosenItem(Some(text), service) == service.GetItemDetails(Candidate(text, ms[j]));
  }

  /** A null element, or one without text, gets no tooltip. */
  lemma NoElementNoDoc(service: SptDataService)
    ensures GenerateDocSpec(None, service).None?
  {
  }

  /** `generateDoc`: the exact lookup, then a loop over the matches that returns at the first resolved one. */
  method GenerateDoc(element: Option<string>, service: SptDataService) returns (doc: Option<string>)
    ensures doc == GenerateDocSpec(element, service)
  {
    if element.None? {
      return None;
    }
    var text := element.value;
    var cleanText := CleanText(text);
    var exact := service.GetItemDetails(cleanText);
    if exact.Some? {
      var d := BuildDocumentation(exact.value, service);
      return Some(d);
    }
    var matches := FindAll(text);
    MatchesValid(text);
    for i := 0 to |matches|
      invariant FirstResolvedFrom(text, matches, 0, service) == FirstResolvedFrom(text, matches, i, service)
    {
      assert matches[i] in matches;
      var found := service.GetItemDetails(Candidate(text, matches[i]));
      if found.Some? {
        var d := BuildDocumentation(found.value, service);
        return Some(d);
      }
    }
    return None;
  }
}
