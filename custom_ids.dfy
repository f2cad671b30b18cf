/**
 * `SptIdsFileWatcher`: the project-level loader of `.sptids` override files.
 * Every `.sptids` file under the project is parsed; each top-level entry maps
 * an ID to per-language payloads, and the payload for the current language
 * becomes a custom record when it parses and has a non-empty name.  The
 * merged map replaces the data service's custom layer.
 */
module CustomIds {
  import opened Wrappers
  import opened Json
  import opened KotlinText
  import opened Models
  import opened Deserializers
  import opened FileSearch
  import opened SettingsState
  import opened DataService

  /** The name every override file has. */
  const SPTIDS_FILENAME: string := ".sptids"

  // ---------------------------------------------------------------------------
  // Binding one payload to an ItemDetails record
  // ---------------------------------------------------------------------------

  /** Reading one record field: a value or null, or an exception that abandons the record. */
  datatype FieldRead<T> = Read(value: Option<T>) | Broken

  /**
   * A `String` field: JSON null or no member is null; a string is itself; a
   * number its literal text; a boolean "true" or "false"; an object or array
   * makes the binding throw.
   */
  function ReadString(o: map<string, Json>, key: string): (r: FieldRead<string>)
    ensures r.Broken? <==> key in o && (o[key].JObject? || o[key].JArray?)
    ensures r.Read? && r.value.Some? ==> key in o && AsString(o[key]) == r.value
  {
    if key !in o then Read(None)
    else match o[key]
      case JNull => Read(None)
      case JString(s) => Read(Some(s))
      case JNumber(n) => Read(Some(n.text))
      case JBool(b) => Read(Some(BoolToString(b)))
      case _ => Broken
  }

  /** A `Boolean?` field, through the tolerant boolean deserializer. */
  function ReadBool(o: map<string, Json>, key: string): Option<bool> {
    if key in o then DeserializeBoolean(o[key]) else None
  }

  /** An `Int?` field, through the tolerant integer deserializer. */
  function ReadInt(o: map<string, Json>, key: string): Option<int> {
    if key in o then DeserializeInt(o[key]) else None
  }

  /** A `Double?` field, through the tolerant double deserializer. */
  function ReadDouble(o: map<string, Json>, key: string, parseDouble: string -> Option<Double>): Option<Double> {
    if key in o then DeserializeDouble(o[key], parseDouble) else None
  }

  /** The `Type` field: null stays null; any other value goes through the item-kind deserializer. */
  function ReadType(o: map<string, Json>, key: string): Option<ItemDetailType> {
    if key in o && o[key] != JNull then Some(DeserializeItemDetailType(o[key])) else None
  }

  /** The JSON keys of the record's `String` fields. */
  const STRING_KEYS: seq<string> := [
    "Name", "ShortName", "detailLink", "parent", "parentID", "parentDetailLink",
    "Caliber", "currency", "Description", "BodyPart", "Sides", "prefabPath",
    "id", "bossSpawns", "trader", "traderId", "traderLink", "questType"
  ]

  /** Some string field holds an object or an array. */
  predicate SomeStringBroken(o: map<string, Json>) {
    exists k :: 0 <= k < |STRING_KEYS| && ReadString(o, STRING_KEYS[k]).Broken?
  }

  /** The payload's `Name` member, read as a string, when it is there and not null. */
  predicate HasName(o: map<string, Json>) {
    ReadString(o, "Name").Read? && ReadString(o, "Name").value.Some?
  }

  /**
   * `gson.fromJson<ItemDetails>(payload)` with the tolerant deserializers
   * registered; absent where the result is null (a JSON null payload) or where
   * binding throws (a payload that is not an object, a string field holding an
   * object or array, or a null `Name`, which fails the later `isNotEmpty`
   * call).  A missing `ShortName` reads as the text "null", which is what
   * every later use of the field prints.
   */
  function ParseItemDetails(j: Json, parseDouble: string -> Option<Double>): (r: Option<ItemDetails>)
    ensures r.Some? <==> j.JObject? && !SomeStringBroken(j.fields) && HasName(j.fields)
    ensures r.Some? ==> r.value.name == AsString(j.fields["Name"]).value
    ensures r.Some? ==> r.value.itemType == ReadType(j.fields, "Type")
    ensures r.Some? ==> r.value.questItem == ReadBool(j.fields, "QuestItem")
    ensures r.Some? ==> r.value.damage == ReadInt(j.fields, "Damage")
    ensures r.Some? ==> r.value.weight == ReadDouble(j.fields, "Weight", parseDouble)
  {
    if !j.JObject? then None
    else
      var o := j.fields;
      if SomeStringBroken(o) || !HasName(o) then None
      else
        var s := (key: string) => if ReadString(o, key).Read? then ReadString(o, key).value else None;
        Some(ItemDetails(
          name := ReadString(o, "Name").value.value,
          shortName := s("ShortName").GetOr("null"),
          itemType := ReadType(o, "Type"),
          detailLink := s("detailLink"),
          parent := s("parent"),
          parentID := s("parentID"),
          parentDetailLink := s("parentDetailLink"),
          fleaBlacklisted := ReadBool(o, "FleaBlacklisted"),
          questItem := ReadBool(o, "QuestItem"),
          weight := ReadDouble(o, "Weight", parseDouble),
          caliber := s("Caliber"),
          damage := ReadInt(o, "Damage"),
          armorDamage := ReadInt(o, "ArmorDamage"),
          penetrationPower := ReadInt(o, "PenetrationPower"),
          currency := s("currency"),
          unlockedByDefault := ReadBool(o, "unlockedByDefault"),
          description := s("Description"),
          bodyPart := s("BodyPart"),
          sides := s("Sides"),
          integratedArmorVest := ReadBool(o, "IntegratedArmorVest"),
          availableAsDefault := ReadBool(o, "AvailableAsDefault"),
          prefabPath := s("prefabPath"),
          id := s("id"),
          airdropChance := ReadDouble(o, "airdropChance", parseDouble),
          escapeTimeLimit := ReadInt(o, "escapeTimeLimit"),
          insurance := ReadBool(o, "insurance"),
          bossSpawns := s("bossSpawns"),
          trader := s("trader"),
          traderId := s("traderId"),
          traderLink := s("traderLink"),
          questType := s("questType")))
  }

  // ---------------------------------------------------------------------------
  // The fold over entries and files
  // ---------------------------------------------------------------------------

  /**
   * One top-level entry: it contributes when its value is an object with a
   * member for the current language whose payload parses to a record with a
   * non-empty name (spaces count as a name).
   */
  function AcceptEntry(value: Json, language: string, parseDouble: string -> Option<Double>): (r: Option<ItemDetails>)
    ensures r.Some? <==> value.JObject? && language in value.fields
                         && ParseItemDetails(value.fields[language], parseDouble).Some?
                         && ParseItemDetails(value.fields[language], parseDouble).value.name != ""
    ensures r.Some? ==> r == ParseItemDetails(value.fields[language], parseDouble)
  {
    if !value.JObject? || language !in value.fields then None
    else
      var details := ParseItemDetails(value.fields[language], parseDouble);
      if details.Some? && details.value.name != "" then details else None
  }

  /** `AcceptEntry` for one language, as a function value. */
  function Acceptor(language: string, parseDouble: string -> Option<Double>): (accept: Json -> Option<ItemDetails>)
    ensures forall v :: accept(v) == AcceptEntry(v, language, parseDouble)
  {
    v => AcceptEntry(v, language, parseDouble)
  }

  /** The entries among the IDs `ids` that `accept` turns into a value, keyed by ID. */
  function AcceptedAmong<V>(entries: map<string, Json>, ids: set<string>, accept: Json -> Option<V>): map<string, V> {
    map id | id in ids && id in entries && accept(entries[id]).Some? :: accept(entries[id]).value
  }

  /** What one file contributes when `accept` judges its entries: nothing unless it holds a top-level object. */
  function FileItemsWith<V>(content: Option<Json>, accept: Json -> Option<V>): map<string, V> {
    if content.Some? && content.value.JObject? then
      AcceptedAmong(content.value.fields, content.value.fields.Keys, accept)
    else map[]
  }

  /**
   * What one file contributes: for a top-level object, the accepted entries
   * keyed by ID; for unparseable text or any other top-level value, nothing.
   */
  function FileItems(content: Option<Json>, language: string, parseDouble: string -> Option<Double>): (r: map<string, ItemDetails>)
    ensures !(content.Some? && content.value.JObject?) ==> r == map[]
    ensures content.Some? && content.value.JObject? ==>
              forall id :: id in r <==> (id in content.value.fields
                                       && AcceptEntry(content.value.fields[id], language, parseDouble).Some?)
    ensures content.Some? && content.value.JObject? ==>
              forall id :: id in r ==> Some(r[id]) == AcceptEntry(content.value.fields[id], language, parseDouble)
  {
    FileItemsWith(content, Acceptor(language, parseDouble))
  }

  /** Taking one more ID into account adds its value when it is accepted, and nothing otherwise. */
  lemma AcceptedAmongStep<V>(entries: map<string, Json>, ids: set<string>, id: string,
                             accept: Json -> Option<V>, items: map<string, V>)
    requires id in entries && id !in ids
    ensures items + AcceptedAmong(entries, ids + {id}, accept)
            == if accept(entries[id]).Some? then (items + AcceptedAmong(entries, ids, accept))[id := accept(entries[id]).value]
               else items + AcceptedAmong(entries, ids, accept)
  {
  }

  /**
   * The JSON a file holds: `JsonParser.parseString` of its text, absent where
   * reading or parsing throws (a directory has no contents to read).
   */
  function ReadJson(f: VirtualFile, parseJson: string -> Option<Json>): Option<Json> {
    if f.File? then parseJson(f.text) else None
  }

  /** What each file of `files` contributes when `accept` judges the entries, in order. */
  function ContributionsWith<V>(files: seq<VirtualFile>, parseJson: string -> Option<Json>,
                                accept: Json -> Option<V>): (r: seq<map<string, V>>)
    ensures |r| == |files|
    ensures forall i :: 0 <= i < |files| ==> r[i] == FileItemsWith(ReadJson(files[i], parseJson), accept)
  {
    seq(|files|, i requires 0 <= i < |files| => FileItemsWith(ReadJson(files[i], parseJson), accept))
  }

  /** What each file of `files` contributes, in order. */
  function Contributions(files: seq<VirtualFile>, language: string, parseJson: string -> Option<Json>,
                         parseDouble: string -> Option<Double>): (r: seq<map<string, ItemDetails>>)
    ensures |r| == |files|
    ensures forall i :: 0 <= i < |files| ==> r[i] == FileItems(ReadJson(files[i], parseJson), language, parseDouble)
  {
    ContributionsWith(files, parseJson, Acceptor(language, parseDouble))
  }

  /** Maps laid over one another in order, later keys overwriting earlier ones. */
  function Merge<V>(layers: seq<map<string, V>>): map<string, V> {
    if layers == [] then map[] else Merge(layers[..|layers| - 1]) + layers[|layers| - 1]
  }

  /** The custom layer built from `files` in order: each file's entries overwrite earlier ones. */
  function CustomItemsOf(files: seq<VirtualFile>, language: string, parseJson: string -> Option<Json>,
                         parseDouble: string -> Option<Double>): map<string, ItemDetails>
  {
    Merge(Contributions(files, language, parseJson, parseDouble))
  }

  /** A key of the merge is a key of some layer, and the other way round. */
  lemma {:induction false} MergeKeys<V>(layers: seq<map<string, V>>, key: string)
    ensures key in Merge(layers) <==> exists i :: 0 <= i < |layers| && key in layers[i]
    decreases |layers|
  {
    if layers != [] {
      var n := |layers| - 1;
      MergeKeys(layers[..n], key);
      assert forall i :: 0 <= i < n ==> layers[..n][i] == layers[i];
    }
  }

  /** The merged value of a key is the one from the last layer that has it. */
  lemma {:induction false} MergeLastWins<V>(layers: seq<map<string, V>>, key: string, i: nat)
    requires i < |layers| && key in layers[i]
    requires forall j :: i < j < |layers| ==> key !in layers[j]
    ensures key in Merge(layers) && Merge(layers)[key] == layers[i][key]
    decreases |layers|
  {
    var n := |layers| - 1;
    if i < n {
      MergeLastWins(layers[..n], key, i);
    }
  }

  /**
   * An ID is in the custom layer iff some file contributes it, and its record
   * is the one from the last file that does: a failing entry or file removes
   * nothing that another file supplies.
   */
  lemma LaterFileWins(files: seq<VirtualFile>, language: string, parseJson: string -> Option<Json>,
                      parseDouble: string -> Option<Double>, id: string, i: nat)
    requires i < |files|
    requires id in FileItems(ReadJson(files[i], parseJson), language, parseDouble)
    requires forall j :: i < j < |files| ==> id !in FileItems(ReadJson(files[j], parseJson), language, parseDouble)
    ensures id in CustomItemsOf(files, language, parseJson, parseDouble)
    ensures CustomItemsOf(files, language, parseJson, parseDouble)[id]
         == FileItems(ReadJson(files[i], parseJson), language, parseDouble)[id]
  {
    MergeLastWins(Contributions(files, language, parseJson, parseDouble), id, i);
  }

  /** An ID is in the custom layer iff at least one file contributes it. */
  lemma CustomKeys(files: seq<VirtualFile>, language: string, parseJson: string -> Option<Json>,
                   parseDouble: string -> Option<Double>, id: string)
    ensures id in CustomItemsOf(files, language, parseJson, parseDouble) <==>
            exists i :: 0 <= i < |files| && id in FileItems(ReadJson(files[i], parseJson), language, parseDouble)
  {
    var cs := Contributions(files, language, parseJson, parseDouble);
    MergeKeys(cs, id);
    assert forall i :: 0 <= i < |files| ==> cs[i] == FileItems(ReadJson(files[i], parseJson), language, parseDouble);
  }

  /** Only the current language's payload is read: the others may be anything. */
  lemma OtherLanguagesIgnored(a: map<string, Json>, b: map<string, Json>, language: string,
                              parseDouble: string -> Option<Double>)
    requires language in a && language in b && a[language] == b[language]
    ensures AcceptEntry(JObject(a), language, parseDouble) == AcceptEntry(JObject(b), language, parseDouble)
  {
  }

  /** A name of spaces is accepted: the check is for an empty name, not a blank one. */
  lemma BlankNameAccepted(parseDouble: string -> Option<Double>)
    ensures AcceptEntry(JObject(map["en" := JObject(map["Name" := JString(" ")])]), "en", parseDouble).Some?
  {
    var o := map["Name" := JString(" ")];
    assert !SomeStringBroken(o) by {
      forall k | 0 <= k < |STRING_KEYS|
        ensures !ReadString(o, STRING_KEYS[k]).Broken?
      {
      }
    }
    assert HasName(o);
  }

  /** A missing current-language payload, or an empty name, contributes nothing. */
  lemma RejectedEntries(payload: Json, language: string, other: string, parseDouble: string -> Option<Double>)
    requires other != language
    ensures AcceptEntry(JObject(map[other := payload]), language, parseDouble).None?
    ensures AcceptEntry(JObject(map[language := JObject(map["Name" := JString("")])]), language, parseDouble).None?
    ensures AcceptEntry(JObject(map[language := JNull]), language, parseDouble).None?
    ensures AcceptEntry(JString(language), language, parseDouble).None?
  {
    var o := map["Name" := JString("")];
    var p := ParseItemDetails(JObject(o), parseDouble);
    assert p.Some? ==> p.value.name == "";
  }

  // ---------------------------------------------------------------------------
  // Events
  // ---------------------------------------------------------------------------

  /** The kinds of virtual-file-system event the listener can receive. */
  datatype EventKind = Create | ContentChange | Delete | Move | Copy | PropertyChange

  /** An event, with the file it concerns when it has one. */
  datatype FileEvent = FileEvent(kind: EventKind, file: Option<VirtualFile>)

  /** The listener reloads for a create, content-change or delete event on a file named `.sptids`. */
  predicate TriggersReload(e: FileEvent) {
    e.file.Some? && e.file.value.name == SPTIDS_FILENAME && (e.kind.Create? || e.kind.ContentChange? || e.kind.Delete?)
  }

  /** Moves, copies and property changes never reload, nor does any event on another file. */
  lemma EventFilter(e: FileEvent)
    ensures (e.kind.Move? || e.kind.Copy? || e.kind.PropertyChange?) ==> !TriggersReload(e)
    ensures e.file.None? || e.file.value.name != SPTIDS_FILENAME ==> !TriggersReload(e)
    ensures e.file.Some? && e.file.value.name == SPTIDS_FILENAME && e.kind.Delete? ==> TriggersReload(e)
  {
  }

  // ---------------------------------------------------------------------------
  // The watcher
  // ---------------------------------------------------------------------------

  /**
   * The open project.  Its base directory (which may be unknown) is the live
   * file tree: the IDE changes it between events, and every reload reads it
   * afresh.
   */
  class Project {
    var baseDir: Option<VirtualFile>

    constructor(baseDir: Option<VirtualFile>)
      ensures this.baseDir == baseDir
    {
      this.baseDir := baseDir;
    }
  }

  /**
   * A reload reads the tree as it is now: for a project holding one `.sptids`
   * file, the custom layer is exactly that file's accepted entries, so
   * editing the file's text changes the layer the next reload computes.
   */
  lemma ReloadReadsCurrentText(text: string, language: string, parseJson: string -> Option<Json>,
                               parseDouble: string -> Option<Double>)
    ensures CustomItemsOf(SearchResults(Some(Directory("project", [File(SPTIDS_FILENAME, text)])),
                                        SPTIDS_FILENAME, DEFAULT_EXCLUDES), language, parseJson, parseDouble)
         == FileItems(parseJson(text), language, parseDouble)
  {
    var f := File(SPTIDS_FILENAME, text);
    var files := SearchResults(Some(Directory("project", [f])), SPTIDS_FILENAME, DEFAULT_EXCLUDES);
    assert files == [f] by { HiddenFileMatches(text); }
    var m := FileItems(parseJson(text), language, parseDouble);
    var cs := Contributions(files, language, parseJson, parseDouble);
    assert |cs| == 1;
    assert ReadJson(f, parseJson) == parseJson(text);
    assert cs[0] == m;
    assert cs[..0] == [];
    calc {
      Merge(cs);
      Merge(cs[..0]) + cs[0];
      map[] + m;
    }
    assert map[] + m == m;
  }

  /** `SptIdsFileWatcher`: one per project. */
  class SptIdsFileWatcher {
    /** The project whose tree every reload walks. */
    const project: Project
    /** The data service whose custom layer this watcher fills. */
    const service: SptDataService
    /** The lenient JSON parser applied to a file's text; absent where it throws. */
    const parseJson: string -> Option<Json>
    /** The JVM's decimal parser used by the double deserializer. */
    const parseDouble: string -> Option<Double>

    /** The custom layer a reload computes for the project's current tree and the current language. */
    function Expected(): map<string, ItemDetails>
      reads project, service.settings
    {
      CustomItemsOf(SearchResults(project.baseDir, SPTIDS_FILENAME, DEFAULT_EXCLUDES), service.settings.language,
                    parseJson, parseDouble)
    }

    /** Creating the watcher loads the custom layer once. */
    constructor(project: Project, service: SptDataService,
                parseJson: string -> Option<Json>, parseDouble: string -> Option<Double>)
      modifies service
      ensures this.project == project && this.service == service
      ensures this.parseJson == parseJson && this.parseDouble == parseDouble
      ensures service.customItems == Expected()
      ensures service.itemsCache == old(service.itemsCache)
      ensures service.translationsCache == old(service.translationsCache)
    {
      this.project := project;
      this.service := service;
      this.parseJson := parseJson;
      this.parseDouble := parseDouble;
      new;
      LoadAllCustomIds();
    }

    /** `findAllSptIdsFiles`: the same walk as `FileSearchUtils`, for `.sptids` with the default exclusions. */
    method FindAllSptIdsFiles(directory: Option<VirtualFile>) returns (files: seq<VirtualFile>)
      ensures files == SearchResults(directory, SPTIDS_FILENAME, DEFAULT_EXCLUDES)
    {
      files := FindAllFilesRecursively(directory, SPTIDS_FILENAME, DEFAULT_EXCLUDES);
    }

    /** The loop over one file's entries, adding those `accept` turns into records to `items`. */
    method LoadFileEntries(entries: map<string, Json>, accept: Json -> Option<ItemDetails>, items: map<string, ItemDetails>)
        returns (result: map<string, ItemDetails>)
      ensures result == items + AcceptedAmong(entries, entries.Keys, accept)
    {
      result := items;
      var pending := entries.Keys;
      while pending != {}
        invariant pending <= entries.Keys
        invariant result == items + AcceptedAmong(entries, entries.Keys - pending, accept)
        decreases pending
      {
        var id :| id in pending;
        AcceptedAmongStep(entries, entries.Keys - pending, id, accept, items);
        var details := accept(entries[id]);
        if details.Some? {
          result := result[id := details.value];
        }
        assert entries.Keys - (pending - {id}) == (entries.Keys - pending) + {id};
        pending := pending - {id};
      }
    }

    /** The loop over the found files, in order, each file's accepted entries overwriting earlier ones. */
    method LoadFiles(files: seq<VirtualFile>, accept: Json -> Option<ItemDetails>) returns (allCustomItems: map<string, ItemDetails>)
      ensures allCustomItems == Merge(ContributionsWith(files, parseJson, accept))
    {
      allCustomItems := map[];
      ghost var layers := ContributionsWith(files, parseJson, accept);
      for i := 0 to |files|
        invariant allCustomItems == Merge(layers[..i])
      {
        var jsonElement := if files[i].File? then parseJson(files[i].text) else None;
        if jsonElement.Some? && jsonElement.value.JObject? {
          allCustomItems := LoadFileEntries(jsonElement.value.fields, accept, allCustomItems);
        }
        assert layers[..i + 1][..i] == layers[..i];
      }
      assert layers[..|files|] == layers;
    }

    /**
     * `loadAllCustomIds`: find every `.sptids` file, fold their entries for the
     * current language, and hand the result to the data service in one call.
     */
    method LoadAllCustomIds()
      modifies service
      ensures service.customItems == Expected()
      ensures project.baseDir.None? ==> service.customItems == map[]
      ensures service.itemsCache == old(service.itemsCache)
      ensures service.translationsCache == old(service.translationsCache)
    {
      var allCustomItems: map<string, ItemDetails> := map[];
      var currentLanguage := service.settings.language;
      var baseDir := project.baseDir;
      if baseDir.Some? {
        var files := FindAllSptIdsFiles(baseDir);
        allCustomItems := LoadFiles(files, Acceptor(currentLanguage, parseDouble));
      }
      service.SetCustomItems(allCustomItems);
    }

    /**
     * The listener, after a batch of events has changed the tree: reload once
     * per triggering event; each reload walks the tree as it now is, so every
     * one computes the same layer.
     */
    method After(events: seq<FileEvent>)
      modifies service
      ensures (exists k :: 0 <= k < |events| && TriggersReload(events[k])) ==> service.customItems == Expected()
      ensures (forall k :: 0 <= k < |events| ==> !TriggersReload(events[k])) ==> service.customItems == old(service.customItems)
      ensures service.itemsCache == old(service.itemsCache)
      ensures service.translationsCache == old(service.translationsCache)
    {
      ghost var triggered := false;
      for i := 0 to |events|
        invariant triggered <==> exists k :: 0 <= k < i && TriggersReload(events[k])
        invariant service.itemsCache == old(service.itemsCache)
        invariant service.translationsCache == old(service.translationsCache)
        invariant service.customItems == if triggered then Expected() else old(service.customItems)
      {
        if TriggersReload(events[i]) {
          LoadAllCustomIds();
          triggered := true;
        }
      }
    }
  }
}
