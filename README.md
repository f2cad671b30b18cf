# SPT ID Highlighter, modelled in Dafny

The SPT ID Highlighter is an IntelliJ plugin for modders of the SPT game server. It replaces the opaque
24-character hexadecimal IDs the game's data files are full of with readable item records. It has two halves.

- **Build time.** A Gradle task (`BuildDataTask`) reads the upstream locale files and the item catalogue.
  It folds every `"<id> <property>"` locale entry into one record per ID, with `Name` and `ShortName`.
  It enriches those records from the catalogue: weight, flags, the item kind from the parent table, and
  ballistics (one hop further for ammunition packs). It drops records that got no name, and writes one
  table per language.
- **Run time.** A data service holds three layers. The static item table and the translation table are
  loaded per language, falling back to English. The custom layer comes from `.sptids` override files that
  a watcher finds anywhere in the project. Lookups consult the custom layer first.
  - The annotator underlines every known ID in the editor.
  - The documentation provider renders an HTML tooltip for the ID under the caret.
  - A settings page chooses the language.
  - An editor action inserts freshly generated MongoDB ObjectIds.

The model is one Dafny module per source file. There are also four support modules:
- `Wrappers` holds `Option`.
- `KotlinText` holds the Kotlin string functions the code relies on.
- `Json` holds an already-parsed JSON value, with the Gson accessors the code calls.
- `IdScan` holds the `[0-9a-f]{24}` scan that the annotator and the documentation provider share.

Code that changes state step by step is modelled as classes and methods with loops:
- the data service, the settings bean and page, and the watcher;
- the ObjectId generator and the editor action;
- the build task's loops.

Each such method is proved equal to a specification function, and the properties are proved about those
functions. Pure code is modelled as functions and lemmas: the deserializers, the item-kind table, the
tooltip's structure and the file walk's reference definition.

Inputs the source reads from outside are parameters:
- file contents, directory trees and the project's base directory;
- the JVM's decimal parser (`parseDouble`) and the lenient JSON parser (`parseJson`);
- the clock and the random bytes;
- the user's answer to the confirmation dialog.

A Gson call that throws inside the build task is not caught there, so the Gradle task fails. The model
returns `Crashed` or `None` at that point.

Two behaviours of the code are easy to miss, and the model keeps both.
- **Locale keys.** `split(" ")` splits on every space, and a key is used only when it gives exactly two
  parts (`BuildDataTask.kt:69-71`). A key with two spaces is therefore skipped.
- **Language change.** `apply` only calls `loadData`, which reloads the static layers. The custom layer
  keeps the records of the old language until the next `.sptids` event (`SptIdSettingsConfigurable.kt:32-36`,
  `SptDataService.kt:28-39`).

## Model

| member | source | states |
|---|---|---|
| BuildData.LocaleKeyAccepted | buildSrc/src/main/kotlin/BuildDataTask.kt:69-75 | A key is used iff it has exactly one space and that space is at position 24: splitting on every space must give two parts, the first 24 long. The result is then the ID before the space and the property after it. |
| BuildData.LocaleKeyOf | buildSrc/src/main/kotlin/BuildDataTask.kt:69-75 | A 24-character ID and a property, neither containing a space, joined by one space, read back as that ID and property. There is no hex check on the ID. |
| BuildData.ParseLocaleKey | buildSrc/src/main/kotlin/BuildDataTask.kt:69-75 | Any accepted key gives a 24-character ID; which keys are accepted is `LocaleKeyAccepted`. |
| KotlinText.CapitalizeFirst | buildSrc/src/main/kotlin/BuildDataTask.kt:77 | `replaceFirstChar { it.uppercase() }` on ASCII: the same length, only the first character upper-cased, the rest unchanged. |
| KotlinText.SplitLength | buildSrc/src/main/kotlin/BuildDataTask.kt:69 | `split(" ")` yields one more part than there are spaces. |
| KotlinText.SplitTwo | buildSrc/src/main/kotlin/BuildDataTask.kt:69-73 | With exactly one delimiter, the two parts are the text before it and the text after it. |
| KotlinText.Split | buildSrc/src/main/kotlin/BuildDataTask.kt:69 | Definition, no contract of its own: `split(" ")`, empty parts included. `SplitLength` and `SplitTwo` state its properties. |
| KotlinText.TrimBy | src/main/kotlin/com/madmanbeavis/sptidHighlighter/documentation/SptIdDocumentationProvider.kt:21 | `trim(predicate)`: empty iff every character is droppable; otherwise it neither starts nor ends with a droppable character, and it is no longer than the input. |
| KotlinText.TrimEmptyIffBlank | buildSrc/src/main/kotlin/BuildDataTask.kt:85-86 | `trim()` is empty exactly when the text is blank, so `trim().isNotEmpty()` is `isNotBlank()`. |
| KotlinText.Trim | buildSrc/src/main/kotlin/BuildDataTask.kt:85 | Definition, no contract of its own: `trim()` as `TrimBy` with Kotlin's whitespace. `TrimEmptyIffBlank` and `TrimBy`'s contract state its properties. |
| KotlinText.IsWhitespace | buildSrc/src/main/kotlin/BuildDataTask.kt:85 | Definition, no contract of its own: the characters `Char.isWhitespace` accepts. |
| BuildData.ApplyPropertyWellFormed | buildSrc/src/main/kotlin/BuildDataTask.kt:83-104 | One locale entry keeps a record's shape: both names trimmed text, one empty iff the other is, and no key added. |
| BuildData.ApplyProperty | buildSrc/src/main/kotlin/BuildDataTask.kt:83-104 | Only `Name` and `ShortName` are written, no key is removed, and every other key keeps its value. A blank value, or a property other than `Name`, `ShortName` and `Nickname`, leaves the record unchanged. |
| BuildData.LocaleStep | buildSrc/src/main/kotlin/BuildDataTask.kt:68-105 | An entry whose key is rejected leaves the table unchanged. An accepted entry adds or updates only its own ID's record; every other record stays. |
| BuildData.FoldLocale | buildSrc/src/main/kotlin/BuildDataTask.kt:66-105 | Every ID in the folded table is 24 characters long. Its per-record content is `FoldProjection`. |
| BuildData.FoldWellFormed | buildSrc/src/main/kotlin/BuildDataTask.kt:66-105 | After the fold, every record has a 24-character key and exactly the keys `Name` and `ShortName`, both trimmed and empty together. |
| BuildData.FoldProjection | buildSrc/src/main/kotlin/BuildDataTask.kt:68-105 | A record exists iff some entry addresses its ID. It is the seed (`getOrPut`) folded by that ID's own entries in document order; entries for other IDs do not affect it. |
| BuildData.ShortNameFillsName | buildSrc/src/main/kotlin/BuildDataTask.kt:91-102 | A non-empty `ShortName` alone sets both names to it. |
| BuildData.NameAfterShortName | buildSrc/src/main/kotlin/BuildDataTask.kt:91-102 | A `Name` after a `ShortName` replaces only `Name`; the short name stays. |
| BuildData.NicknameReplacesBoth | buildSrc/src/main/kotlin/BuildDataTask.kt:84-90 | A non-blank `Nickname` overwrites both names with its trimmed text, whatever came before. |
| BuildData.IgnoredEntries | buildSrc/src/main/kotlin/BuildDataTask.kt:83-104 | A blank text, or a property other than `Name`, `ShortName` and `Nickname`, leaves the record unchanged. |
| BuildData.TrimExample | buildSrc/src/main/kotlin/BuildDataTask.kt:85 | Texts are stored trimmed: `" Foo\t"` becomes `"Foo"`. |
| BuildData.FoldEntries | buildSrc/src/main/kotlin/BuildDataTask.kt:66-105 | The `sourceData.forEach` loop builds exactly the fold of the entries in document order. |
| BuildData.DetermineItemType | buildSrc/src/main/kotlin/BuildDataTask.kt:268-288 | The result always names an `ItemDetailType` constant. It is AMMO iff the parent is one of the two ammunition parents (pack included), WEAPON iff one of the ten weapon parents, HEADWEAR iff one of the two headwear parents, and CUSTOMIZATION iff the customization parent. The remaining kinds are stated by `BuildData.DetermineItemTypeTable`. |
| BuildData.DetermineItemTypeTable | buildSrc/src/main/kotlin/BuildDataTask.kt:268-288 | CURRENCY, ARMOR, KEY, MEDIKIT, DRUG, STIMULANT, FOOD and DRINK each come from exactly their one parent. ITEM comes exactly from a parent outside the table (`KNOWN_PARENTS`), so an unknown parent defaults to ITEM and no listed parent does. |
| Json.GetNonNull | buildSrc/src/main/kotlin/BuildDataTask.kt:135-139 | `get(key)?.let { if (!it.isJsonNull) … }`: present iff the member exists and is not JSON null, and then it is that member. |
| Json.GetObject | buildSrc/src/main/kotlin/BuildDataTask.kt:132 | `getAsJsonObject(key)`: absent iff there is no member, the object iff the member is an object, a throw otherwise. |
| Json.GetArray | buildSrc/src/main/kotlin/BuildDataTask.kt:178 | `getAsJsonArray(key)`: absent iff there is no member, the array iff the member is an array, a throw otherwise. |
| Json.AsObject | buildSrc/src/main/kotlin/BuildDataTask.kt:180 | `asJsonObject` succeeds exactly on objects. |
| Json.AsString | buildSrc/src/main/kotlin/BuildDataTask.kt:156 | Definition, no contract of its own: `asString`. A string is itself, a number its literal text, a boolean `true` or `false`, a one-element array its element; null, objects and other arrays throw. |
| Json.AsBoolean | buildSrc/src/main/kotlin/BuildDataTask.kt:144 | Definition, no contract of its own: `asBoolean`. A boolean is itself, another primitive is true only for the text `true` in any case, a one-element array its element; the rest throw. |
| Json.AsInt | buildSrc/src/main/kotlin/BuildDataTask.kt:249 | Definition, no contract of its own: `asInt`. A number gives the low 32 bits of its truncated value, a string is parsed as an `Int`, a one-element array its element; the rest throw. |
| Json.AsDouble | buildSrc/src/main/kotlin/BuildDataTask.kt:137 | Definition, no contract of its own: `asDouble`. The primitive's text through the JVM parser `parseDouble`, a one-element array its element; the rest throw. |
| BuildData.PutIfPresent | buildSrc/src/main/kotlin/BuildDataTask.kt:135-139 | A member that is absent or JSON null leaves the record as it was. A present member is written under the target key, converted. It throws exactly when the conversion of a present, non-null member fails. |
| BuildData.PackedAmmoId | buildSrc/src/main/kotlin/BuildDataTask.kt:176-199 | No `StackSlots` member reads as absent (the pack is left alone), and a `StackSlots` member that is not an array throws. The remaining steps are `EnrichAmmoPackData`'s contract. |
| BuildData.EnrichAmmoData | buildSrc/src/main/kotlin/BuildDataTask.kt:238-266 | Only the four ballistic keys are added or overwritten. Each present, non-null member is copied, converted (`Caliber` as string, the others as `asInt`). The result is absent exactly when one of those conversions throws. |
| BuildData.EnrichCustomizationData | buildSrc/src/main/kotlin/BuildDataTask.kt:201-236 | Only the five customization keys are written. `Sides` is read from the catalogue member `Side`. Absent exactly when a conversion throws. |
| BuildData.EnrichAmmoPackData | buildSrc/src/main/kotlin/BuildDataTask.kt:176-199 | The pack gets the ballistics of the catalogue entry named by `StackSlots[0]._props.filters[0].Filter[0]`. If any link of that chain is missing or empty, or the round is not catalogued, the record is unchanged. A failing cast gives a throw. Only ballistic keys are written. |
| BuildData.AmmoPackTakesRoundData | buildSrc/src/main/kotlin/BuildDataTask.kt:165-199 | A concrete pack whose first filter names a catalogued round takes that round's calibre and damage. |
| BuildData.EnrichCommonData | buildSrc/src/main/kotlin/BuildDataTask.kt:134-153 | Only `Weight`, `QuestItem` and `FleaBlacklisted` are written. Each is copied from its member when present and not null; `FleaBlacklisted` is the negation of `CanSellOnRagfair`. Absent exactly when a conversion throws. |
| BuildData.EnrichByParent | buildSrc/src/main/kotlin/BuildDataTask.kt:155-173 | Sets `Type` to the parent's kind and dispatches on it: a parent of kind AMMO other than the pack parent gets `enrichAmmoData`, the pack parent gets `enrichAmmoPackData`, CUSTOMIZATION gets `enrichCustomizationData`, and every other kind gets nothing more. The keys written are `Type` and that kind's own keys only. It throws exactly when that kind's step throws. |
| BuildData.KindKeys | buildSrc/src/main/kotlin/BuildDataTask.kt:162-172 | The keys the type step may write for a kind: `Type` always, ammunition keys iff the kind is AMMO, customization keys iff it is CUSTOMIZATION. |
| BuildData.CommonDataSurvives | buildSrc/src/main/kotlin/BuildDataTask.kt:131-174 | The type-dependent part writes other keys, so the weight and flags copied before it are still in the final record. |
| BuildData.EnrichItemData | buildSrc/src/main/kotlin/BuildDataTask.kt:131-174 | A template without `_props` contributes nothing, not even `Type`; a `_props` that is not an object throws. Otherwise the common data is always copied. `Type` and the kind-specific data come only with a `_parent`, and the keys written are the common keys plus that kind's own. It throws exactly when `_props` is not an object, a common member does not convert, `_parent` is not readable as a string, or the kind's step throws; this does not depend on the record. |
| BuildData.KindFieldsOnlyForKind | buildSrc/src/main/kotlin/BuildDataTask.kt:162-172 | A record with no ballistic or customization keys, as every folded record is, gains ballistic keys only when typed AMMO and customization keys only when typed CUSTOMIZATION. |
| BuildData.AmmoPackEnrichedAsItem | buildSrc/src/main/kotlin/BuildDataTask.kt:131-199 | A catalogue item whose parent is the pack parent is typed AMMO and takes the calibre and damage of the round its first filter names, through the whole of `enrichItemData`. |
| BuildData.NoCommonData | buildSrc/src/main/kotlin/BuildDataTask.kt:131-172 | A template with a string `_parent` and a `_props` without `Weight`, `QuestItem` or `CanSellOnRagfair` is enriched by the type step alone. |
| BuildData.RoundData | buildSrc/src/main/kotlin/BuildDataTask.kt:238-266 | A round whose only members are a calibre and a damage adds exactly those two keys, converted. |
| BuildData.EnrichAllWith | buildSrc/src/main/kotlin/BuildDataTask.kt:107-112 | The enrichment loop keeps the table's key set. Each record is enriched when picked out, and unchanged otherwise. The result is absent iff some enrichment throws. |
| BuildData.EnrichEntry | buildSrc/src/main/kotlin/BuildDataTask.kt:108-111 | One record is enriched against its own catalogue template when the catalogue has its ID, and is left as folded otherwise. |
| BuildData.EnrichAll | buildSrc/src/main/kotlin/BuildDataTask.kt:107-112 | `transformedData` after enrichment: the same IDs, each record as `EnrichEntry` gives it, absent iff some record's enrichment throws. |
| BuildData.EnrichRecords | buildSrc/src/main/kotlin/BuildDataTask.kt:107-112 | The in-place `forEach` over the records computes exactly that table, stopping at the first throw. |
| BuildData.EnrichedKeysSerialized | buildSrc/src/main/kotlin/BuildDataTask.kt:80-263 | The names plus every key the enrichment writes are exactly the `@SerializedName` keys of `ItemDetails`, and the enrichment never writes `Name` or `ShortName`. |
| BuildData.EnrichItemDataShape | buildSrc/src/main/kotlin/BuildDataTask.kt:131-174 | An enriched record keeps both names, holds only keys the plugin's record reads, and any `Type` it has names an item kind. |
| BuildData.EnrichEntryShape | buildSrc/src/main/kotlin/BuildDataTask.kt:108-111 | The same for one record of the loop. An ID the catalogue lacks is unchanged, so it gets no `Type`. |
| BuildData.EnrichAllShape | buildSrc/src/main/kotlin/BuildDataTask.kt:107-112 | For a folded table, every enriched record keeps its names, reads only serialized keys, and is well typed; uncatalogued ones are unchanged. |
| BuildData.FilterNamed | buildSrc/src/main/kotlin/BuildDataTask.kt:115-118 | `filterValues` keeps exactly the records whose `Name` or `ShortName` is non-empty text, unchanged. |
| BuildData.FilterOutcome | buildSrc/src/main/kotlin/BuildDataTask.kt:115-125 | A file is written with the filtered table when that table is non-empty, and skipped when it is empty. It never crashes. |
| BuildData.TableOutcome | buildSrc/src/main/kotlin/BuildDataTask.kt:107-125 | A written table is non-empty and holds only IDs of the folded table. |
| BuildData.LocaleOutcome | buildSrc/src/main/kotlin/BuildDataTask.kt:66-125 | Every ID of a written table is 24 characters long. |
| BuildData.OptimizeLocaleFile | buildSrc/src/main/kotlin/BuildDataTask.kt:59-125 | Processing one locale file gives the fold, then the enrichment, then the filter: a crash, a skip, or the written table. |
| BuildData.LocaleOutcomeCrashed | buildSrc/src/main/kotlin/BuildDataTask.kt:107-112 | A locale file crashes the build task exactly when the enrichment of one of its records throws. |
| BuildData.TableOutcomeWritten | buildSrc/src/main/kotlin/BuildDataTask.kt:107-125 | From a folded table, a written table holds exactly the IDs whose folded `Name` is non-empty. Each record has both names as folded, both non-empty, 24-character keys, only serialized keys and a valid `Type`. Uncatalogued records are written as folded. |
| BuildData.TableOutcomeSkipped | buildSrc/src/main/kotlin/BuildDataTask.kt:114-125 | From a folded table, a skip means no record got a name. |
| BuildData.LocaleOutcomeWritten | buildSrc/src/main/kotlin/BuildDataTask.kt:66-125 | A written locale file holds exactly the records its entries named, with the names those entries gave them. An ID seen only through other properties is dropped, even after enrichment. |
| BuildData.LocaleOutcomeSkipped | buildSrc/src/main/kotlin/BuildDataTask.kt:114-125 | A skipped locale file folded to no record with a name or short name. |
| BuildData.LastIndexOf | buildSrc/src/main/kotlin/BuildDataTask.kt:58 | The position of the last occurrence of the character, or -1 when it does not occur. |
| BuildData.Extension | buildSrc/src/main/kotlin/BuildDataTask.kt:58 | `File.extension`: the text after the last `.`, or "" without one. It never contains a dot. |
| BuildData.ExtensionExamples | buildSrc/src/main/kotlin/BuildDataTask.kt:58 | Only a name whose last extension is `json` passes the listing filter; `en.json.bak` and `json` do not. |
| BuildData.RunStepWritten | buildSrc/src/main/kotlin/BuildDataTask.kt:58-126 | One iteration over a listed file writes at most that file. It writes only a `.json` file and only the table that file produced. Earlier outputs stay. |
| BuildData.RunWritten | buildSrc/src/main/kotlin/BuildDataTask.kt:58-126 | Every output file has a `.json` name and holds the table produced by a listed locale file of that name. |
| BuildData.RunStep | buildSrc/src/main/kotlin/BuildDataTask.kt:58-126 | After a crash nothing changes. Otherwise the step may write only the current file, and only when its extension is `json`; other written files keep their tables. |
| BuildData.Run | buildSrc/src/main/kotlin/BuildDataTask.kt:58-126 | Every file the run has written has the extension `json`. |
| BuildData.RunStopsAtCrash | buildSrc/src/main/kotlin/BuildDataTask.kt:58-126 | Once a locale file throws, the build task stops: the later files change nothing. |
| BuildData.OptimizeLocales | buildSrc/src/main/kotlin/BuildDataTask.kt:50-129 | A missing locale directory writes nothing. Otherwise the loop over the listed files computes the run over them, under the enrichment catalogue, in listing order. |
| BuildData.LoadItemsData | buildSrc/src/main/kotlin/BuildDataTask.kt:33-48 | A missing items file gives the empty catalogue; otherwise the catalogue is the file's content. |
| BuildData.BuildDataTask | buildSrc/src/main/kotlin/BuildDataTask.kt:13-31 | `buildData` optimises the locales against the loaded catalogue, which is empty when the items file is missing. |
| DataService.LoadWithFallback | src/main/kotlin/com/madmanbeavis/sptidHighlighter/services/SptDataService.kt:41-85 | A language whose resource loads gives that table. A failing language falls back to English, and a failing English gives the empty table. The same rule holds for items and for translations. |
| DataService.FallbackSources | src/main/kotlin/com/madmanbeavis/sptidHighlighter/services/SptDataService.kt:41-62 | Whatever the language, the loaded table is that language's, English's or empty. |
| DataService.SptDataService.constructor | src/main/kotlin/com/madmanbeavis/sptidHighlighter/services/SptDataService.kt:24-26 | Creating the service loads both static layers for the current language, with an empty custom layer. |
| DataService.SptDataService.LoadData | src/main/kotlin/com/madmanbeavis/sptidHighlighter/services/SptDataService.kt:28-39 | `loadData` reloads both static layers for the setting's language, each with fallback. The custom layer is preserved. |
| DataService.SptDataService.GetItemDetails | src/main/kotlin/com/madmanbeavis/sptidHighlighter/services/SptDataService.kt:87-92 | The custom record when there is one, otherwise the static record; absent exactly when neither layer has the ID. |
| DataService.SptDataService.GetAllItemIds | src/main/kotlin/com/madmanbeavis/sptidHighlighter/services/SptDataService.kt:94-96 | Exactly the union of the static and custom key sets. |
| DataService.SptDataService.GetTranslation | src/main/kotlin/com/madmanbeavis/sptidHighlighter/services/SptDataService.kt:98-100 | The cached translation, or the key itself when it has none. |
| DataService.SptDataService.ResolvesIffListed | src/main/kotlin/com/madmanbeavis/sptidHighlighter/services/SptDataService.kt:87-96 | An ID resolves iff it is among the IDs the service reports. |
| DataService.SptDataService.SetCustomItems | src/main/kotlin/com/madmanbeavis/sptidHighlighter/services/SptDataService.kt:102-105 | The whole custom layer is replaced; each of its records then wins every lookup. Both caches are untouched. |
| DataService.SptDataService.ClearCustomItems | src/main/kotlin/com/madmanbeavis/sptidHighlighter/services/SptDataService.kt:107-110 | The custom layer is emptied, so every lookup sees only the static layer. Both caches are untouched. |
| CustomIds.ReadString | src/main/kotlin/com/madmanbeavis/sptidHighlighter/services/SptIdsFileWatcher.kt:180 | A `String` field bound by Gson throws exactly when the member is an object or an array. A value it reads is the member's string form. |
| CustomIds.ReadBool | src/main/kotlin/com/madmanbeavis/sptidHighlighter/services/SptIdsFileWatcher.kt:25-26 | Definition, no contract of its own: a `Boolean?` field bound through the registered `FlexibleBooleanDeserializer`, whose behaviour is `DeserializeBoolean`'s contract. |
| CustomIds.ReadInt | src/main/kotlin/com/madmanbeavis/sptidHighlighter/services/SptIdsFileWatcher.kt:27-28 | Definition, no contract of its own: an `Int?` field bound through `FlexibleIntDeserializer`, whose behaviour is `DeserializeInt`'s contract. |
| CustomIds.ReadDouble | src/main/kotlin/com/madmanbeavis/sptidHighlighter/services/SptIdsFileWatcher.kt:29-30 | Definition, no contract of its own: a `Double?` field bound through `FlexibleDoubleDeserializer`, whose behaviour is `DeserializeDouble`'s contract. |
| CustomIds.ReadType | src/main/kotlin/com/madmanbeavis/sptidHighlighter/services/SptIdsFileWatcher.kt:24 | Definition, no contract of its own: the `type` field bound through `ItemDetailTypeDeserializer`, whose behaviour is `DeserializeItemDetailType`'s contract; JSON null stays null. |
| CustomIds.ParseItemDetails | src/main/kotlin/com/madmanbeavis/sptidHighlighter/services/SptIdsFileWatcher.kt:180-181 | A payload gives a record iff it is an object, no string field holds an object or array, and `Name` is present and not null. The record's name, type, quest flag, damage and weight are then the tolerant readings of those members. |
| CustomIds.AcceptEntry | src/main/kotlin/com/madmanbeavis/sptidHighlighter/services/SptIdsFileWatcher.kt:175-188 | An entry contributes iff its value is an object with a member for the current language, and that payload parses to a record with a non-empty name. It then contributes exactly that record. |
| CustomIds.Acceptor | src/main/kotlin/com/madmanbeavis/sptidHighlighter/services/SptIdsFileWatcher.kt:175-188 | The same judgement for one language, as a function value. |
| CustomIds.OtherLanguagesIgnored | src/main/kotlin/com/madmanbeavis/sptidHighlighter/services/SptIdsFileWatcher.kt:179 | Only the current language's payload is read: two entries that agree on it are judged alike, whatever their other languages hold. |
| CustomIds.BlankNameAccepted | src/main/kotlin/com/madmanbeavis/sptidHighlighter/services/SptIdsFileWatcher.kt:181 | A name made of spaces is accepted: the check is `isNotEmpty`, not `isNotBlank`. |
| CustomIds.RejectedEntries | src/main/kotlin/com/madmanbeavis/sptidHighlighter/services/SptIdsFileWatcher.kt:177-187 | Nothing is contributed by an entry without the current language, by an empty name, by a null payload, or by a value that is not an object. |
| CustomIds.FileItems | src/main/kotlin/com/madmanbeavis/sptidHighlighter/services/SptIdsFileWatcher.kt:165-194 | An unparseable file, or one whose top level is not an object, contributes nothing. Otherwise it contributes exactly its accepted entries, keyed by ID. A failing entry removes only itself. |
| CustomIds.ContributionsWith | src/main/kotlin/com/madmanbeavis/sptidHighlighter/services/SptIdsFileWatcher.kt:162-198 | One contribution per discovered file, in discovery order, each that file's accepted entries. |
| CustomIds.Contributions | src/main/kotlin/com/madmanbeavis/sptidHighlighter/services/SptIdsFileWatcher.kt:162-198 | The same, under the current language's acceptance rule. |
| CustomIds.MergeKeys | src/main/kotlin/com/madmanbeavis/sptidHighlighter/services/SptIdsFileWatcher.kt:162-182 | A key is in the merged map iff some layer has it. |
| CustomIds.Merge | src/main/kotlin/com/madmanbeavis/sptidHighlighter/services/SptIdsFileWatcher.kt:162-182 | Definition, no contract of its own: the layers laid over one another in order. `MergeKeys` and `MergeLastWins` state its keys and which layer wins. |
| CustomIds.CustomItemsOf | src/main/kotlin/com/madmanbeavis/sptidHighlighter/services/SptIdsFileWatcher.kt:162-198 | Definition, no contract of its own: the merge of the files' contributions in search order. `CustomKeys` states its keys, and `LoadFiles` is proved equal to it. |
| CustomIds.MergeLastWins | src/main/kotlin/com/madmanbeavis/sptidHighlighter/services/SptIdsFileWatcher.kt:162-182 | A merged value comes from the last layer that has the key. |
| CustomIds.LaterFileWins | src/main/kotlin/com/madmanbeavis/sptidHighlighter/services/SptIdsFileWatcher.kt:162-182 | An ID that a file supplies and no later file does gets that file's record, whatever earlier files held. |
| CustomIds.CustomKeys | src/main/kotlin/com/madmanbeavis/sptidHighlighter/services/SptIdsFileWatcher.kt:162-197 | An ID is in the custom layer iff at least one discovered file contributes it. |
| CustomIds.EventFilter | src/main/kotlin/com/madmanbeavis/sptidHighlighter/services/SptIdsFileWatcher.kt:127-142 | Moves, copies, property changes, events without a file and events on other files never reload. A delete event on a `.sptids` file does. |
| CustomIds.TriggersReload | src/main/kotlin/com/madmanbeavis/sptidHighlighter/services/SptIdsFileWatcher.kt:127-142 | Definition, no contract of its own: a create, content-change or delete event on a file named `.sptids`. `EventFilter` proves a batch reloads iff some event satisfies it. |
| CustomIds.Project.constructor | src/main/kotlin/com/madmanbeavis/sptidHighlighter/services/SptIdsFileWatcher.kt:158 | The project's base directory, possibly unknown. It is a variable: the tree changes between events, and each reload reads its current value. |
| CustomIds.ReloadReadsCurrentText | src/main/kotlin/com/madmanbeavis/sptidHighlighter/services/SptIdsFileWatcher.kt:152-203 | For a project holding one `.sptids` file, the reload's layer is exactly the accepted entries of that file's current text. So an edit to the file changes what the next reload loads. |
| CustomIds.SptIdsFileWatcher.constructor | src/main/kotlin/com/madmanbeavis/sptidHighlighter/services/SptIdsFileWatcher.kt:118-121 | Creating the watcher loads the custom layer once: it becomes the layer computed from the files the project's tree holds then. The static layers are untouched. |
| CustomIds.SptIdsFileWatcher.FindAllSptIdsFiles | src/main/kotlin/com/madmanbeavis/sptidHighlighter/services/SptIdsFileWatcher.kt:205-233 | The private copy of the walk finds exactly what `FileSearchUtils` finds for `.sptids` with the default exclusions. |
| CustomIds.SptIdsFileWatcher.LoadFileEntries | src/main/kotlin/com/madmanbeavis/sptidHighlighter/services/SptIdsFileWatcher.kt:175-192 | The loop over one file's entries adds exactly the accepted entries to the accumulated map, overwriting earlier values for the same IDs. |
| CustomIds.SptIdsFileWatcher.LoadFiles | src/main/kotlin/com/madmanbeavis/sptidHighlighter/services/SptIdsFileWatcher.kt:162-198 | The loop over the found files builds the merge of their contributions in order. |
| CustomIds.SptIdsFileWatcher.LoadAllCustomIds | src/main/kotlin/com/madmanbeavis/sptidHighlighter/services/SptIdsFileWatcher.kt:152-203 | One reload hands the data service, in one call, the layer computed freshly from the files in the project's current tree and the current language. An unknown base directory gives an empty layer. The static layers are untouched. |
| CustomIds.SptIdsFileWatcher.After | src/main/kotlin/com/madmanbeavis/sptidHighlighter/services/SptIdsFileWatcher.kt:127-142 | After a batch of events, the custom layer is the one computed from the project's current tree if any event triggers a reload. It is unchanged if none does. |
| FileSearch.Named | src/main/kotlin/com/madmanbeavis/sptidHighlighter/services/utils/FileSearchUtils.kt:34-35 | Selecting by name keeps only members of the input that carry that name. |
| FileSearch.SearchIsNamedReachable | src/main/kotlin/com/madmanbeavis/sptidHighlighter/services/utils/FileSearchUtils.kt:26-36 | The walk returns exactly the reachable files with the given name, in depth-first listing order. Reachable means not under a hidden or excluded directory. |
| FileSearch.ReachableAreFiles | src/main/kotlin/com/madmanbeavis/sptidHighlighter/services/utils/FileSearchUtils.kt:28-36 | The reference walk lists files only, never directories. |
| FileSearch.SearchSound | src/main/kotlin/com/madmanbeavis/sptidHighlighter/services/utils/FileSearchUtils.kt:34-35 | Every result is a file, not a directory, with exactly the requested name. |
| FileSearch.SearchComplete | src/main/kotlin/com/madmanbeavis/sptidHighlighter/services/utils/FileSearchUtils.kt:26-36 | Every reachable file with the requested name is among the results. |
| FileSearch.NonDirectoryRoot | src/main/kotlin/com/madmanbeavis/sptidHighlighter/services/utils/FileSearchUtils.kt:22 | A null root, or one that is not a directory, gives no results. |
| FileSearch.SkippedSubtreeIgnored | src/main/kotlin/com/madmanbeavis/sptidHighlighter/services/utils/FileSearchUtils.kt:29-33 | Whatever a hidden or excluded directory holds, the results are the same: the walk never looks inside it. |
| FileSearch.HiddenFileMatches | src/main/kotlin/com/madmanbeavis/sptidHighlighter/services/utils/FileSearchUtils.kt:30-35 | The hidden-name rule applies to directories only, so a file named `.sptids` is found. |
| FileSearch.ExcludedExample | src/main/kotlin/com/madmanbeavis/sptidHighlighter/services/utils/FileSearchUtils.kt:20-35 | With the default exclusions, files in `node_modules` and `.git` are not found; one in `src` is. |
| FileSearch.SearchRecursively | src/main/kotlin/com/madmanbeavis/sptidHighlighter/services/utils/FileSearchUtils.kt:26-41 | The nested recursive loop appends to the accumulated list exactly what a directory's children contribute. |
| FileSearch.FindAllFilesRecursively | src/main/kotlin/com/madmanbeavis/sptidHighlighter/services/utils/FileSearchUtils.kt:17-45 | The whole search returns the specified results: none for a null or non-directory root, otherwise the walk from the root. |
| FileSearch.SearchResults | src/main/kotlin/com/madmanbeavis/sptidHighlighter/services/utils/FileSearchUtils.kt:17-45 | Definition, no contract of its own: the walk's result. `SearchIsNamedReachable`, `SearchSound` and `SearchComplete` characterise it. |
| FileSearch.VisitChild | src/main/kotlin/com/madmanbeavis/sptidHighlighter/services/utils/FileSearchUtils.kt:29-36 | Definition, no contract of its own: one child's contribution, an entered subtree, a matching file, or nothing. |
| FileSearch.SearchChildren | src/main/kotlin/com/madmanbeavis/sptidHighlighter/services/utils/FileSearchUtils.kt:28-37 | Definition, no contract of its own: the children's contributions in listing order. `SearchRecursively` is proved equal to it. |
| Deserializers.DeserializeBoolean | src/main/kotlin/com/madmanbeavis/sptidHighlighter/services/deserializers/FlexibleBooleanDeserializer.kt:13-32 | True iff the JSON is boolean true or a string whose lower case is true, yes or 1. False iff it is boolean false or a string whose lower case is false, no or 0. Everything else is absent, and the function is total. |
| Deserializers.BooleanSpellings | src/test/kotlin/com/madmanbeavis/sptidHighlighter/services/DeserializersTest.kt:51-84 | Native booleans are returned unchanged. "true", "Yes" and "1" give true; "FALSE", "no" and "0" give false; "Unknown", "", "maybe" and null give absent. |
| Deserializers.BooleanIgnoresNumbers | src/main/kotlin/com/madmanbeavis/sptidHighlighter/services/deserializers/FlexibleBooleanDeserializer.kt:15-27 | JSON numbers, even 1 and 0, give absent. |
| Deserializers.BooleanCaseInsensitive | src/main/kotlin/com/madmanbeavis/sptidHighlighter/services/deserializers/FlexibleBooleanDeserializer.kt:18 | A string's reading does not change when it is lower-cased or upper-cased. |
| Deserializers.DeserializeInt | src/main/kotlin/com/madmanbeavis/sptidHighlighter/services/deserializers/FlexibleIntDeserializer.kt:13-31 | A number gives the 32-bit truncation of its value. A string gives absent for "unknown" in any case or "", and otherwise its `toIntOrNull`. Anything else is absent. Present results always fit an `Int`. |
| Deserializers.IntRoundTrip | src/main/kotlin/com/madmanbeavis/sptidHighlighter/services/deserializers/FlexibleIntDeserializer.kt:22 | The text `Int.toString` prints for any `Int` reads back as that `Int`. |
| Deserializers.IntSpellings | src/test/kotlin/com/madmanbeavis/sptidHighlighter/services/DeserializersTest.kt:87-114 | "unknown", "UNKNOWN", "" and null give absent; "42" gives 42; "not_a_number" gives absent. |
| Deserializers.DeserializeDouble | src/main/kotlin/com/madmanbeavis/sptidHighlighter/services/deserializers/FlexibleDoubleDeserializer.kt:13-31 | A number gives the parse of its literal. A string is absent for "unknown" in any case or "", and otherwise gives its parse. Anything else is absent. |
| Deserializers.DeserializeItemDetailType | src/main/kotlin/com/madmanbeavis/sptidHighlighter/services/deserializers/ItemDetailTypeDeserializer.kt:14-22 | A JSON value whose string form upper-cases to a constant's name gives that constant, in any casing. Any result other than ITEM comes from such a value. Every failure gives ITEM, never absent. |
| Deserializers.ItemDetailTypeRoundTrip | src/main/kotlin/com/madmanbeavis/sptidHighlighter/services/deserializers/ItemDetailTypeDeserializer.kt:16-17 | Every constant's name, as written or lower-cased, deserializes to that constant. |
| Deserializers.ItemDetailTypeExamples | src/test/kotlin/com/madmanbeavis/sptidHighlighter/services/DeserializersTest.kt:18-48 | "WEAPON" and "Weapon" give WEAPON, "ammo" gives AMMO, "invalid_type" gives ITEM. |
| Deserializers.ItemDetailTypeNonString | src/main/kotlin/com/madmanbeavis/sptidHighlighter/services/deserializers/ItemDetailTypeDeserializer.kt:14-21 | Non-string JSON gives ITEM: null, booleans, objects, arrays of other than one element, and numbers. |
| Deserializers.ValueOfNumberText | src/main/kotlin/com/madmanbeavis/sptidHighlighter/models/ItemDetails.kt:49-66 | No constant's name starts like a number literal, so a number's text never names a kind. |
| Models.ValueOf | src/main/kotlin/com/madmanbeavis/sptidHighlighter/models/ItemDetails.kt:49-66 | `valueOf` succeeds only on a constant's exact name, and then gives that constant. |
| Models.ValuesComplete | src/main/kotlin/com/madmanbeavis/sptidHighlighter/models/ItemDetails.kt:49-66 | `values()` has sixteen entries, ITEM first and QUEST last. Every constant appears exactly once, at the position of its ordinal. |
| Models.ValueOfName | src/main/kotlin/com/madmanbeavis/sptidHighlighter/models/ItemDetails.kt:49-66 | `valueOf(name)` gives back the constant, so no two constants share a name. |
| Models.NamesResolve | src/main/kotlin/com/madmanbeavis/sptidHighlighter/models/ItemDetails.kt:49-66 | `valueOf` accepts every constant's name and gives that constant. |
| Models.Name | src/main/kotlin/com/madmanbeavis/sptidHighlighter/models/ItemDetails.kt:49-66 | Definition, no contract of its own: each constant's `name`. `NamesResolve` and `NameShape` are about it. |
| Models.Ordinal | src/main/kotlin/com/madmanbeavis/sptidHighlighter/models/ItemDetails.kt:49-66 | Definition, no contract of its own: each constant's declaration position. `ValuesComplete` is stated with it. |
| Models.NameShape | src/main/kotlin/com/madmanbeavis/sptidHighlighter/models/ItemDetails.kt:49-66 | Every constant's name is upper case and non-empty. |
| Models.Minimal | src/main/kotlin/com/madmanbeavis/sptidHighlighter/models/ItemDetails.kt:5-47 | A record built from a name and a short name alone keeps both. Each of the 29 optional fields is absent, as its `= null` default says. |
| MongoId.Hex | src/main/kotlin/com/madmanbeavis/sptidHighlighter/utils/MongoIdGenerator.kt:38-46 | `%0<width>x` of a value that fits gives exactly `width` lower-case hex digits. |
| MongoId.HexRoundTrip | src/main/kotlin/com/madmanbeavis/sptidHighlighter/utils/MongoIdGenerator.kt:38-46 | Reading the printed digits back gives the value. |
| MongoId.HexValue | src/main/kotlin/com/madmanbeavis/sptidHighlighter/utils/MongoIdGenerator.kt:38-46 | Definition, no contract of its own: the value a string of hex digits denotes, most significant first. It is the inverse `HexRoundTrip` proves for `%0Nx`. |
| MongoId.HexInjective | src/main/kotlin/com/madmanbeavis/sptidHighlighter/utils/MongoIdGenerator.kt:46 | Two values printed at the same width give the same digits only if they are equal. |
| MongoId.Unsigned | src/main/kotlin/com/madmanbeavis/sptidHighlighter/utils/MongoIdGenerator.kt:42 | `b.toInt() and 0xFF` is below 256, and a non-negative byte keeps its value. |
| MongoId.BytesHex | src/main/kotlin/com/madmanbeavis/sptidHighlighter/utils/MongoIdGenerator.kt:41-43 | The random bytes print as two lower-case hex digits each. |
| MongoId.ObjectId | src/main/kotlin/com/madmanbeavis/sptidHighlighter/utils/MongoIdGenerator.kt:35-48 | The ID has 24 lower-case hex digits. It is the timestamp's unsigned 32-bit pattern in 8 digits, then the 5 random bytes in 10 digits, then the counter in 6 digits. |
| MongoId.ObjectIdIsValid | src/main/kotlin/com/madmanbeavis/sptidHighlighter/utils/MongoIdGenerator.kt:22-64 | Every generated ID passes `isValid`. |
| MongoId.CounterSeparates | src/main/kotlin/com/madmanbeavis/sptidHighlighter/utils/MongoIdGenerator.kt:46 | IDs with different counter values differ, whatever the clock and the random bytes. |
| MongoId.IsValidExamples | src/test/kotlin/com/madmanbeavis/sptidHighlighter/utils/MongoIdGeneratorTest.kt:36-55 | Lower- and upper-case IDs are valid. Wrong lengths, and strings with `g` or `x`, are not. |
| MongoId.IsValid | src/main/kotlin/com/madmanbeavis/sptidHighlighter/utils/MongoIdGenerator.kt:61-64 | Definition, no contract of its own: 24 characters, each a hex digit in either case. `ObjectIdIsValid` and `IsValidExamples` are about it. |
| MongoId.Advance | src/main/kotlin/com/madmanbeavis/sptidHighlighter/utils/MongoIdGenerator.kt:32 | The counter after a number of steps always stays below 2^24. |
| MongoId.AdvanceStep | src/main/kotlin/com/madmanbeavis/sptidHighlighter/utils/MongoIdGenerator.kt:32 | One more `(counter + 1) and 0xFFFFFF` step after k steps is k + 1 steps. |
| MongoId.AdvanceDistinct | src/main/kotlin/com/madmanbeavis/sptidHighlighter/utils/MongoIdGenerator.kt:32 | Fewer than 2^24 consecutive steps never revisit a counter value. |
| MongoId.MongoIdGenerator.constructor | src/main/kotlin/com/madmanbeavis/sptidHighlighter/utils/MongoIdGenerator.kt:17 | The counter starts at the given value of `nextInt(0xFFFFFF)`, inside the counter range. |
| MongoId.MongoIdGenerator.Generate | src/main/kotlin/com/madmanbeavis/sptidHighlighter/utils/MongoIdGenerator.kt:22-49 | `generate()` advances the counter by one modulo 2^24. It returns the ObjectId of the given seconds, random bytes and new counter, built by the byte loop. |
| MongoId.MongoIdGenerator.GenerateMany | src/main/kotlin/com/madmanbeavis/sptidHighlighter/utils/MongoIdGenerator.kt:54-56 | `generate(count)` returns exactly `count` IDs, or none for a count of zero or less. The k-th ID uses counter value start + k + 1, and the counter ends advanced by the number of IDs. |
| MongoId.BatchDistinct | src/test/kotlin/com/madmanbeavis/sptidHighlighter/utils/MongoIdGeneratorTest.kt:23-27 | A batch of at most 2^24 IDs has no repeats, so one hundred IDs are one hundred distinct IDs. |
| GenerateAction.LineCount | src/main/kotlin/com/madmanbeavis/sptidHighlighter/actions/GenerateMongoIdAction.kt:52-53 | `lines().size` is at least one. |
| GenerateAction.LineCountExamples | src/main/kotlin/com/madmanbeavis/sptidHighlighter/actions/GenerateMongoIdAction.kt:52-53 | Empty text is one line. `\n`, `\r\n` and `\r` each end a line, and a trailing terminator starts an empty last line. |
| GenerateAction.LineBreaks | src/main/kotlin/com/madmanbeavis/sptidHighlighter/actions/GenerateMongoIdAction.kt:52 | Definition, no contract of its own: the number of `\r\n`, `\n` and `\r` terminators. `LineCountExamples` checks it. |
| GenerateAction.JoinLength | src/main/kotlin/com/madmanbeavis/sptidHighlighter/actions/GenerateMongoIdAction.kt:67-68 | n IDs of 24 characters joined by newlines are 24 n + (n - 1) characters long. |
| GenerateAction.JoinLines | src/main/kotlin/com/madmanbeavis/sptidHighlighter/actions/GenerateMongoIdAction.kt:68 | Definition, no contract of its own: `joinToString("\n")`. `JoinLength` states its length. |
| GenerateAction.Batch | src/main/kotlin/com/madmanbeavis/sptidHighlighter/actions/GenerateMongoIdAction.kt:67 | The batch of `count` IDs has `count` entries of 24 characters, each the ObjectId of its own clock reading, random block and counter step. |
| GenerateAction.GenerateSingleId | src/main/kotlin/com/madmanbeavis/sptidHighlighter/actions/GenerateMongoIdAction.kt:35-45 | One fresh ID is inserted at the caret and the text around it is unchanged. The document grows by 24, the caret moves past the ID, and the selection and every other part stay. |
| GenerateAction.GenerateMultipleIds | src/main/kotlin/com/madmanbeavis/sptidHighlighter/actions/GenerateMongoIdAction.kt:47-78 | A refused confirmation for more than ten lines changes nothing. Otherwise the selection becomes one ID per selected line, joined by newlines, 25 n - 1 characters long. The text outside is unchanged, the caret goes after the replacement, the selection is removed and the counter is advanced by n. |
| GenerateAction.ActionPerformed | src/main/kotlin/com/madmanbeavis/sptidHighlighter/actions/GenerateMongoIdAction.kt:18-33 | Without an editor or a project, the counter and the document are unchanged. Without a selection, the counter advances once and the caret moves past one 24-character ID. |
| GenerateAction.IsEnabledAndVisible | src/main/kotlin/com/madmanbeavis/sptidHighlighter/actions/GenerateMongoIdAction.kt:80-84 | The action is enabled and visible exactly when there is an editor. |
| IdScan.Candidate | src/main/kotlin/com/madmanbeavis/sptidHighlighter/annotator/SptIdAnnotator.kt:24 | A match's value is 24 characters long. |
| IdScan.HexRunAt | src/main/kotlin/com/madmanbeavis/sptidHighlighter/annotator/SptIdAnnotator.kt:14 | Definition, no contract of its own: 24 hex characters, in either case, start at the position. The match lemmas are stated with it. |
| IdScan.Matches | src/main/kotlin/com/madmanbeavis/sptidHighlighter/annotator/SptIdAnnotator.kt:14-21 | `findAll` yields starts of 24-hex-digit runs, in either case. Each start is at least 24 after the previous one, so the matches are ascending and non-overlapping. |
| IdScan.MatchesValid | src/main/kotlin/com/madmanbeavis/sptidHighlighter/annotator/SptIdAnnotator.kt:21 | Every match lies inside the text. |
| IdScan.MatchesCover | src/main/kotlin/com/madmanbeavis/sptidHighlighter/annotator/SptIdAnnotator.kt:14-21 | Leftmost matching: every run of 24 hex digits lies inside the match that covers its start, so no run is passed over. |
| IdScan.LongRunExample | src/main/kotlin/com/madmanbeavis/sptidHighlighter/annotator/SptIdAnnotator.kt:14 | A run of 25 hex digits gives one match, its first 24 characters. |
| IdScan.CaseAndLengthExamples | src/main/kotlin/com/madmanbeavis/sptidHighlighter/annotator/SptIdAnnotator.kt:14 | Upper-case digits match; a run one short of an ID does not. |
| IdScan.FindAll | src/main/kotlin/com/madmanbeavis/sptidHighlighter/annotator/SptIdAnnotator.kt:21 | The scanning loop, trying each position and jumping past a match, yields exactly the specified matches. |
| Annotator.Known | src/main/kotlin/com/madmanbeavis/sptidHighlighter/annotator/SptIdAnnotator.kt:31 | The kept starts are exactly those of the given starts that the data service resolves. Order and spacing are preserved. |
| Annotator.RangesOf | src/main/kotlin/com/madmanbeavis/sptidHighlighter/annotator/SptIdAnnotator.kt:26-29 | One range per start, from element start plus match start to 24 characters later. |
| Annotator.HighlightsOfText | src/main/kotlin/com/madmanbeavis/sptidHighlighter/annotator/SptIdAnnotator.kt:21-37 | The highlights of a text are the ranges of its resolved matches. |
| Annotator.Highlights | src/main/kotlin/com/madmanbeavis/sptidHighlighter/annotator/SptIdAnnotator.kt:16-39 | Definition, no contract of its own: no element text gives nothing; otherwise the ranges of the known matches. `HighlightsOfText`, `HighlightsSound`, `HighlightsComplete` and `HighlightsOrdered` state its properties. |
| Annotator.HighlightsSound | src/main/kotlin/com/madmanbeavis/sptidHighlighter/annotator/SptIdAnnotator.kt:26-37 | Every range is 24 long and covers a match of the text that the service resolves. |
| Annotator.HighlightsComplete | src/main/kotlin/com/madmanbeavis/sptidHighlighter/annotator/SptIdAnnotator.kt:31-37 | A match is highlighted iff the service resolves it. |
| Annotator.HighlightsOrdered | src/main/kotlin/com/madmanbeavis/sptidHighlighter/annotator/SptIdAnnotator.kt:21-23 | The ranges are ascending and never overlap. |
| Annotator.NoTextNoHighlights | src/main/kotlin/com/madmanbeavis/sptidHighlighter/annotator/SptIdAnnotator.kt:17 | An element without text gets no annotation. |
| Annotator.Annotate | src/main/kotlin/com/madmanbeavis/sptidHighlighter/annotator/SptIdAnnotator.kt:16-39 | The loop over the matches creates exactly the specified ranges, in order. |
| Documentation.CleanText | src/main/kotlin/com/madmanbeavis/sptidHighlighter/documentation/SptIdDocumentationProvider.kt:21 | Stripping quotes, apostrophes, spaces, `\n`, `\r` and `\t` from both ends gives "" iff the text is made only of them. Otherwise the result starts and ends with another character. |
| Documentation.ValueLine | src/main/kotlin/com/madmanbeavis/sptidHighlighter/documentation/SptIdDocumentationProvider.kt:128-135 | A line appears exactly when the value is present and its text is not blank. |
| Documentation.PresentAlwaysShown | src/main/kotlin/com/madmanbeavis/sptidHighlighter/documentation/SptIdDocumentationProvider.kt:128-135 | A present number or boolean is never blank, so its `key value` line always appears. |
| Documentation.ParentLine | src/main/kotlin/com/madmanbeavis/sptidHighlighter/documentation/SptIdDocumentationProvider.kt:62-70 | The Parent line appears exactly when both the parent's name and its ID are present. |
| Documentation.TraderLine | src/main/kotlin/com/madmanbeavis/sptidHighlighter/documentation/SptIdDocumentationProvider.kt:96-106 | The trader part is empty exactly when there is no trader ID, or when there is no trader name and the ID is blank. |
| Documentation.TypeLines | src/main/kotlin/com/madmanbeavis/sptidHighlighter/documentation/SptIdDocumentationProvider.kt:73-110 | Kinds other than AMMO, CUSTOMIZATION, LOCATION and QUEST get no kind-specific lines. |
| Documentation.DetailBlock | src/main/kotlin/com/madmanbeavis/sptidHighlighter/documentation/SptIdDocumentationProvider.kt:119-123 | The "Full Details" block is present exactly when there is a detail link. |
| Documentation.DocHeader | src/main/kotlin/com/madmanbeavis/sptidHighlighter/documentation/SptIdDocumentationProvider.kt:51-58 | The tooltip opens with `<h3>` and the name. It adds ` [<em>short name</em>]` only when the short name differs, then `</h3><pre>`. |
| Documentation.Header | src/main/kotlin/com/madmanbeavis/sptidHighlighter/documentation/SptIdDocumentationProvider.kt:51-55 | Definition, no contract of its own: the `<h3>` header. `DocHeader` states how the tooltip starts. |
| Documentation.Doc | src/main/kotlin/com/madmanbeavis/sptidHighlighter/documentation/SptIdDocumentationProvider.kt:47-126 | Definition, no contract of its own: header, `<pre>` body and detail block. `DocHeader`, `DocEnding`, `TypeShownFirst` and the four `…OnlyFor…` lemmas state its properties, and `BuildDocumentation` is proved equal to it. |
| Documentation.DocEnding | src/main/kotlin/com/madmanbeavis/sptidHighlighter/documentation/SptIdDocumentationProvider.kt:116-123 | Without a detail link the tooltip ends with `</pre>`; with one it ends with the link's anchor. |
| Documentation.TypeShownFirst | src/main/kotlin/com/madmanbeavis/sptidHighlighter/documentation/SptIdDocumentationProvider.kt:60 | An item with a kind has its translated `Type:` line first in the body. |
| Documentation.SameTooltip | src/main/kotlin/com/madmanbeavis/sptidHighlighter/documentation/SptIdDocumentationProvider.kt:47-126 | The tooltip depends only on the shown fields: two items that agree on them, and on their kind-specific lines, get the same tooltip. |
| Documentation.AmmoFieldsOnlyForAmmo | src/main/kotlin/com/madmanbeavis/sptidHighlighter/documentation/SptIdDocumentationProvider.kt:73-79 | Changing the ballistic fields of an item that is not AMMO does not change its tooltip. |
| Documentation.CustomizationFieldsOnlyForCustomization | src/main/kotlin/com/madmanbeavis/sptidHighlighter/documentation/SptIdDocumentationProvider.kt:80-87 | Changing the customization fields of an item that is not CUSTOMIZATION does not change its tooltip. |
| Documentation.LocationFieldsOnlyForLocation | src/main/kotlin/com/madmanbeavis/sptidHighlighter/documentation/SptIdDocumentationProvider.kt:88-94 | Changing the location fields of an item that is not LOCATION does not change its tooltip. |
| Documentation.QuestFieldsOnlyForQuest | src/main/kotlin/com/madmanbeavis/sptidHighlighter/documentation/SptIdDocumentationProvider.kt:95-108 | Changing the quest fields of an item that is not QUEST does not change its tooltip. |
| Documentation.UnshownFields | src/main/kotlin/com/madmanbeavis/sptidHighlighter/documentation/SptIdDocumentationProvider.kt:47-126 | `questItem` and `currency` never affect the tooltip. |
| Documentation.AppendValueIfDefined | src/main/kotlin/com/madmanbeavis/sptidHighlighter/documentation/SptIdDocumentationProvider.kt:128-135 | The buffer gets exactly that value's line appended. |
| Documentation.AppendReferenceLine | src/main/kotlin/com/madmanbeavis/sptidHighlighter/documentation/SptIdDocumentationProvider.kt:63-69 | The head, then the ID as a link when there is one and as plain text otherwise, then the line end. |
| Documentation.AppendParent | src/main/kotlin/com/madmanbeavis/sptidHighlighter/documentation/SptIdDocumentationProvider.kt:62-70 | The buffer gets exactly the Parent line appended. |
| Documentation.AppendAmmo | src/main/kotlin/com/madmanbeavis/sptidHighlighter/documentation/SptIdDocumentationProvider.kt:74-79 | The buffer gets exactly the four ballistic lines appended. |
| Documentation.AppendCustomization | src/main/kotlin/com/madmanbeavis/sptidHighlighter/documentation/SptIdDocumentationProvider.kt:80-87 | The buffer gets exactly the six customization lines appended. |
| Documentation.AppendLocation | src/main/kotlin/com/madmanbeavis/sptidHighlighter/documentation/SptIdDocumentationProvider.kt:88-94 | The buffer gets exactly the five location lines appended. |
| Documentation.AppendQuest | src/main/kotlin/com/madmanbeavis/sptidHighlighter/documentation/SptIdDocumentationProvider.kt:95-108 | The buffer gets exactly the trader part and the quest-type line appended. |
| Documentation.AppendTypeLines | src/main/kotlin/com/madmanbeavis/sptidHighlighter/documentation/SptIdDocumentationProvider.kt:73-110 | The `when` appends exactly the kind-specific lines. |
| Documentation.AppendCommon | src/main/kotlin/com/madmanbeavis/sptidHighlighter/documentation/SptIdDocumentationProvider.kt:112-114 | The buffer gets exactly the weight, flea and unlock lines appended. |
| Documentation.AppendBody | src/main/kotlin/com/madmanbeavis/sptidHighlighter/documentation/SptIdDocumentationProvider.kt:58-116 | The buffer gets exactly the `<pre>` body appended. |
| Documentation.AppendHeader | src/main/kotlin/com/madmanbeavis/sptidHighlighter/documentation/SptIdDocumentationProvider.kt:51-55 | The buffer gets exactly the header appended. |
| Documentation.AppendDetailBlock | src/main/kotlin/com/madmanbeavis/sptidHighlighter/documentation/SptIdDocumentationProvider.kt:119-123 | The buffer gets exactly the detail block appended. |
| Documentation.BuildDocumentation | src/main/kotlin/com/madmanbeavis/sptidHighlighter/documentation/SptIdDocumentationProvider.kt:47-126 | The one-buffer `StringBuilder` build gives exactly the specified tooltip. |
| Documentation.FirstResolvedFrom | src/main/kotlin/com/madmanbeavis/sptidHighlighter/documentation/SptIdDocumentationProvider.kt:27-33 | The index of the first match at or after a position that resolves, with every match before it unresolved; or -1 when none resolves. |
| Documentation.ChosenItem | src/main/kotlin/com/madmanbeavis/sptidHighlighter/documentation/SptIdDocumentationProvider.kt:16-36 | Definition, no contract of its own: the exact lookup of the cleaned text, else the first resolving match. `ExactLookupFirst`, `FirstKnownMatchWins` and `NoDocIffNoKnownMatch` state its properties. |
| Documentation.GenerateDocSpec | src/main/kotlin/com/madmanbeavis/sptidHighlighter/documentation/SptIdDocumentationProvider.kt:16-36 | Definition, no contract of its own: the tooltip of the chosen item, or none. `GenerateDoc` is proved equal to it. |
| Documentation.ExactLookupFirst | src/main/kotlin/com/madmanbeavis/sptidHighlighter/documentation/SptIdDocumentationProvider.kt:20-24 | When the cleaned whole text resolves, its record is the one documented. |
| Documentation.NoDocIffNoKnownMatch | src/main/kotlin/com/madmanbeavis/sptidHighlighter/documentation/SptIdDocumentationProvider.kt:26-35 | Otherwise there is no tooltip exactly when no match in the text resolves. |
| Documentation.FirstKnownMatchWins | src/main/kotlin/com/madmanbeavis/sptidHighlighter/documentation/SptIdDocumentationProvider.kt:27-33 | Otherwise the documented record is that of a match whose every earlier match is unknown: the first resolved one. |
| Documentation.NoElementNoDoc | src/main/kotlin/com/madmanbeavis/sptidHighlighter/documentation/SptIdDocumentationProvider.kt:17 | A null element, or one without text, gets no tooltip. |
| Documentation.GenerateDoc | src/main/kotlin/com/madmanbeavis/sptidHighlighter/documentation/SptIdDocumentationProvider.kt:16-36 | The exact lookup, then the loop with an early return over the matches, gives exactly the specified tooltip. |
| SettingsState.FirstIndexFrom | src/main/kotlin/com/madmanbeavis/sptidHighlighter/settings/SptIdSettingsConfigurable.kt:72 | The first position at or after a start whose code matches, with none before it; -1 when none does. |
| SettingsState.IndexOfCode | src/main/kotlin/com/madmanbeavis/sptidHighlighter/settings/SptIdSettingsConfigurable.kt:72 | `indexOfFirst`: the first entry with the code, or -1 exactly when no entry has it. |
| SettingsState.SupportedLanguagesShape | src/main/kotlin/com/madmanbeavis/sptidHighlighter/settings/SptIdSettingsState.kt:21-39 | Seventeen languages, "en" (English) third, and no code listed twice. |
| SettingsState.DefaultSupported | src/main/kotlin/com/madmanbeavis/sptidHighlighter/settings/SptIdSettingsState.kt:14-39 | The default "en" is one of the supported languages, at index 2. |
| SettingsState.SptIdSettingsState.constructor | src/main/kotlin/com/madmanbeavis/sptidHighlighter/settings/SptIdSettingsState.kt:14 | A fresh settings bean holds "en". |
| SettingsState.SptIdSettingsState.GetState | src/main/kotlin/com/madmanbeavis/sptidHighlighter/settings/SptIdSettingsState.kt:42-44 | `getState` returns the bean itself. |
| SettingsState.SptIdSettingsState.LoadState | src/main/kotlin/com/madmanbeavis/sptidHighlighter/settings/SptIdSettingsState.kt:46-48 | `loadState` copies the given bean's language. |
| SettingsConfigurable.LanguageAt | src/main/kotlin/com/madmanbeavis/sptidHighlighter/settings/SptIdSettingsConfigurable.kt:62-69 | A selected index gives its entry's code; no selection gives "en". Either way the code is supported. |
| SettingsConfigurable.SelectThenGet | src/main/kotlin/com/madmanbeavis/sptidHighlighter/settings/SptIdSettingsConfigurable.kt:62-76 | Selecting a supported code and reading the selection back gives the code. |
| SettingsConfigurable.GetThenSelect | src/main/kotlin/com/madmanbeavis/sptidHighlighter/settings/SptIdSettingsConfigurable.kt:62-76 | Reading a selected entry's code and selecting it again lands on the same entry, because no code is listed twice. |
| SettingsConfigurable.SptIdSettingsComponent.constructor | src/main/kotlin/com/madmanbeavis/sptidHighlighter/settings/SptIdSettingsConfigurable.kt:52-54 | A combo box built over the non-empty language list selects its first entry. |
| SettingsConfigurable.SptIdSettingsComponent.GetSelectedLanguage | src/main/kotlin/com/madmanbeavis/sptidHighlighter/settings/SptIdSettingsConfigurable.kt:62-69 | The code the current selection stands for. |
| SettingsConfigurable.SptIdSettingsComponent.SetSelectedLanguage | src/main/kotlin/com/madmanbeavis/sptidHighlighter/settings/SptIdSettingsConfigurable.kt:71-76 | A supported code selects its first entry, and reading back then gives it. An unsupported code leaves the selection unchanged. |
| SettingsConfigurable.SptIdSettingsConfigurable.constructor | src/main/kotlin/com/madmanbeavis/sptidHighlighter/settings/SptIdSettingsConfigurable.kt:12 | A new settings page has no component, and edits the settings bean its data service reads. |
| SettingsConfigurable.SptIdSettingsConfigurable.CreateComponent | src/main/kotlin/com/madmanbeavis/sptidHighlighter/settings/SptIdSettingsConfigurable.kt:18-21 | `createComponent` installs a fresh component selecting the first entry. |
| SettingsConfigurable.SptIdSettingsConfigurable.IsModified | src/main/kotlin/com/madmanbeavis/sptidHighlighter/settings/SptIdSettingsConfigurable.kt:23-26 | With a component, a change is pending iff the selected code differs from the stored language. With no component, one always is, since null differs from every string. |
| SettingsConfigurable.SptIdSettingsConfigurable.NewLanguage | src/main/kotlin/com/madmanbeavis/sptidHighlighter/settings/SptIdSettingsConfigurable.kt:30 | The language `apply` would store is always a supported one. |
| SettingsConfigurable.SptIdSettingsConfigurable.Apply | src/main/kotlin/com/madmanbeavis/sptidHighlighter/settings/SptIdSettingsConfigurable.kt:28-37 | The selection, or "en" with no component, is stored. The static layers are reloaded for it only when it differs from the stored language, and the custom layer is kept. With a component, no change is pending afterwards. |
| SettingsConfigurable.SptIdSettingsConfigurable.Reset | src/main/kotlin/com/madmanbeavis/sptidHighlighter/settings/SptIdSettingsConfigurable.kt:39-42 | With a component and a supported stored language, the selection shows that language and no change is pending. An unsupported stored language leaves the selection unchanged, and so does a reset with nothing pending. |
| SettingsConfigurable.SptIdSettingsConfigurable.DisposeUIResources | src/main/kotlin/com/madmanbeavis/sptidHighlighter/settings/SptIdSettingsConfigurable.kt:44-46 | `disposeUIResources` drops the component. |
| KotlinText.Wrap32 | src/main/kotlin/com/madmanbeavis/sptidHighlighter/utils/MongoIdGenerator.kt:25 | `toInt()` keeps the low 32 bits: the result is always an `Int`, and a value that already is one is unchanged. |
| KotlinText.ParseInt | src/main/kotlin/com/madmanbeavis/sptidHighlighter/services/deserializers/FlexibleIntDeserializer.kt:22 | `toIntOrNull` succeeds only on an optionally signed run of ASCII digits, and only with a value that fits an `Int`. |
| KotlinText.ParseIntToString | src/main/kotlin/com/madmanbeavis/sptidHighlighter/services/deserializers/FlexibleIntDeserializer.kt:22 | `toIntOrNull` reads back what `Int.toString` prints. |
| KotlinText.UpperOfLower | src/main/kotlin/com/madmanbeavis/sptidHighlighter/services/deserializers/ItemDetailTypeDeserializer.kt:16 | Upper-casing text without lower-case letters, or its lower-cased form, gives the text back. |
| KotlinText.Lower | src/main/kotlin/com/madmanbeavis/sptidHighlighter/services/deserializers/FlexibleBooleanDeserializer.kt:18 | `lowercase()` on ASCII: the same length, each character mapped by itself. |
| KotlinText.Upper | src/main/kotlin/com/madmanbeavis/sptidHighlighter/services/deserializers/ItemDetailTypeDeserializer.kt:16 | `uppercase()` on ASCII: the same length, each character mapped by itself. |
| KotlinText.IntToString | src/main/kotlin/com/madmanbeavis/sptidHighlighter/services/deserializers/FlexibleIntDeserializer.kt:22 | `Int.toString()` is never empty; `ParseIntToString` proves it parses back. |

## Left out

- File and resource I/O is not modelled; file contents, directory listings, resources and the project's base directory are inputs. This covers reading files, `listFiles`, `mkdirs`, `writeText` and `getResourceAsStream`. It also covers `contentsToByteArray` and the text decoding, and a directory whose listing throws during the walk.
- JSON text parsing and Gson's reflective binding are not modelled: JSON arrives parsed, as a datatype. The lenient parser is the parameter `parseJson`, and binding a payload to `ItemDetails` is written out field by field in `CustomIds.ParseItemDetails`.
- `gson.toJson` is not modelled: a written locale table is the `Table` value, not its JSON text.
- Floating point is not modelled. A `Double` is opaque, identified by its printed text, and the JVM's decimal parser is the parameter `parseDouble`.
- The clock and `SecureRandom` are inputs: the seconds and the random bytes of each call. So are the initial counter value and the user's answer to the confirmation dialog. The timestamp-range test in `MongoIdGeneratorTest.kt:63-72` depends on the real clock and is not modelled.
- Concurrency is not modelled. `@Synchronized` on `generate`, and editor threads reading the data service while a reload replaces a layer, are treated sequentially; replacing a whole map is one step.
- Logging is not modelled, nor the `loadedCount` counter, which only feeds a log line.
- The IntelliJ platform plumbing is not modelled: `getInstance` lookups become object references, and the message-bus subscription becomes a method that receives the event batch. The Swing panel, its label and layout, `FormBuilder` and the annotation's text attributes are left out as well.
- `DiagnosticAction.kt`, `SptProjectListener.kt` and `ResourceLoader.kt` are not part of this model. They build a notification, register a project hook and wrap classpath reads, and have no logic of their own.
- The duplicate code in `SptIdsFileWatcher.kt` appears once. The private deserializers match the four public ones exactly, so `Deserializers` is used for both. `findAllSptIdsFiles` is `FileSearchUtils` with the default exclusions, so `FindAllSptIdsFiles` delegates to the one walk.
- `CustomIds.SptIdsFileWatcher.After`: the project's tree is taken to be fixed while one batch of events is handled. The IDE's changes to it between batches are assignments to `Project.baseDir`, which the model leaves to its caller.
- `getCustomDocumentationElement` returns its argument unchanged and has no model.
- `Annotator.Annotate`: the annotation holder is replaced by the returned sequence of ranges, in creation order. Severity and text attributes are not modelled.
- `Documentation.DocEnding`: states how the tooltip ends, not that the body holds exactly one `<pre>…</pre>`. Item values are inserted into the HTML unescaped, so a value holding `<pre>` would break that claim in the source too.
- Strings are sequences of Unicode scalar values (Dafny's `char`), where Kotlin's `length`, regex match ranges, `TextRange` offsets and caret offsets count UTF-16 code units. Text with characters outside the Basic Multilingual Plane therefore has different lengths and offsets in the model. The members concerned are:
  - `Annotator.RangesOf`, `Annotator.Highlights` and `Annotator.Annotate`: for the element text `"😀507f1f77bcfaa64afcaa6c5d"` the source's range starts at `startOffset + 2`, the model's at `startOffset + 1`. The IDs themselves are ASCII and unaffected.
  - `BuildData.ParseLocaleKey` and `BuildData.LocaleKeyAccepted`: a key whose ID part is `"😀"` followed by 22 characters has length 24 in Kotlin and is used; the model counts 23 and skips it.
  - `GenerateAction.GenerateSingleId` and `GenerateAction.GenerateMultipleIds`: the caret and selection are offsets in characters, not code units.
- `KotlinText.Lower` and `KotlinText.Upper`: case conversion is modelled on ASCII letters only. Kotlin's locale-independent Unicode case mapping is not modelled.
- `KotlinText.CapitalizeFirst`: ASCII only. Kotlin upper-cases any letter and may change the length: `'ſ'` becomes `"S"`, so a locale property `ſhortName` would be read as `ShortName`, and `'ß'` becomes `"SS"`. The model leaves non-ASCII first characters unchanged.
- `KotlinText.ParseInt`: ASCII digits only. Kotlin's `toIntOrNull` accepts any Unicode decimal digit (`"٤٢"` reads as 42), where the model gives absent.
- `CustomIds.ParseItemDetails`: its contract names the acceptance condition and the name, type, quest, damage and weight fields, not every one of the thirty-one fields. A missing `ShortName` is stored as the text `"null"`, which is what Gson's null in a non-null Kotlin field prints as. One consequence differs from the plugin: for a record named `null` with no `ShortName`, the plugin's header compares the name with a real null, finds them different and appends the short-name bracket, while the model compares `"null"` with `"null"` and shows no bracket.
- `GenerateAction.ActionPerformed`: states the counter and the caret, not the document text. The inserted text is `GenerateSingleId`'s contract, and the selection case is `GenerateMultipleIds`'s.
- `SettingsConfigurable.SptIdSettingsConfigurable.CreateComponent`: the component returned to the platform (`panel`) is not modelled, only its installation.
- The combo box's `selectedIndex` is modelled as an index into the language table. The Swing model behind it, and a user's clicks, are not modelled.
