/**
 * The runtime resolution service: a static layer of item records and a
 * translation table, both loaded for the configured language with a fallback
 * to English, and a custom layer of project overrides that lookups consult
 * first.
 */
module DataService {
  import opened Wrappers
  import opened Models
  import opened SettingsState

  /**
   * `loadItemsData` and `loadTranslations`.  `resources` maps each language to
   * the parsed content of its bundled file; a language is absent from it when
   * that file is missing or does not parse, which is where the source catches
   * an exception.  A failing language other than English retries with English;
   * a failing English gives the empty table.
   */
  function LoadWithFallback<T>(language: string, resources: map<string, T>, empty: T): (r: T)
    ensures language in resources ==> r == resources[language]
    ensures language !in resources && DEFAULT_LANGUAGE in resources ==> r == resources[DEFAULT_LANGUAGE]
    ensures language !in resources && DEFAULT_LANGUAGE !in resources ==> r == empty
    decreases if language == DEFAULT_LANGUAGE then 0 else 1
  {
    if language in resources then resources[language]
    else if language != DEFAULT_LANGUAGE then LoadWithFallback(DEFAULT_LANGUAGE, resources, empty)
    else empty
  }

  /** Whatever the language, the loaded table is that language's, English's, or the empty one. */
  lemma FallbackSources<T>(language: string, resources: map<string, T>, empty: T)
    ensures var r := LoadWithFallback(language, resources, empty);
            (language in resources && r == resources[language])
            || (DEFAULT_LANGUAGE in resources && r == resources[DEFAULT_LANGUAGE])
            || r == empty
  {
  }

  /** `SptDataService`: the three layers an ID is resolved against. */
  class SptDataService {
    /** The settings bean whose language `loadData` reads. */
    const settings: SptIdSettingsState
    /** The bundled `/database/<language>.json` files that load. */
    const databases: map<string, map<string, ItemDetails>>
    /** The bundled `/translations/<language>.json` files that load. */
    const translationFiles: map<string, map<string, string>>

    var itemsCache: map<string, ItemDetails>
    var translationsCache: map<string, string>
    var customItems: map<string, ItemDetails>

    /** The service loads its static layers as soon as it is created, with no custom items. */
    constructor(settings: SptIdSettingsState,
                databases: map<string, map<string, ItemDetails>>,
                translationFiles: map<string, map<string, string>>)
      ensures this.settings == settings
      ensures this.databases == databases && this.translationFiles == translationFiles
      ensures itemsCache == LoadWithFallback(settings.language, databases, map[])
      ensures translationsCache == LoadWithFallback(settings.language, translationFiles, map[])
      ensures customItems == map[]
    {
      this.settings := settings;
      this.databases := databases;
      this.translationFiles := translationFiles;
      itemsCache := map[];
      translationsCache := map[];
      customItems := map[];
      new;
      LoadData();
    }

    /** `loadData`: reload both static layers for the current language; the custom layer stays. */
    method LoadData()
      modifies this
      ensures itemsCache == LoadWithFallback(settings.language, databases, map[])
      ensures translationsCache == LoadWithFallback(settings.language, translationFiles, map[])
      ensures customItems == old(customItems)
    {
      var language := settings.language;
      itemsCache := LoadWithFallback(language, databases, map[]);
      translationsCache := LoadWithFallback(language, translationFiles, map[]);
    }

    /** `getItemDetails`: the custom record if there is one, else the static one, else none. */
    function GetItemDetails(id: string): (r: Option<ItemDetails>)
      reads this
      ensures id in customItems ==> r == Some(customItems[id])
      ensures id !in customItems && id in itemsCache ==> r == Some(itemsCache[id])
      ensures r.None? <==> id !in customItems && id !in itemsCache
    {
      if id in customItems then Some(customItems[id])
      else if id in itemsCache then Some(itemsCache[id])
      else None
    }

    /** `getAllItemIds`: both layers' IDs. */
    function GetAllItemIds(): (r: set<string>)
      reads this
      ensures r == itemsCache.Keys + customItems.Keys
    {
      itemsCache.Keys + customItems.Keys
    }

    /** `getTranslation`: the cached translation, or the key itself. */
    function GetTranslation(key: string): (r: string)
      reads this
      ensures key in translationsCache ==> r == translationsCache[key]
      ensures key !in translationsCache ==> r == key
    {
      if key in translationsCache then translationsCache[key] else key
    }

    /** An ID resolves exactly when it is one of the IDs the service reports. */
    lemma ResolvesIffListed(id: string)
      ensures GetItemDetails(id).Some? <==> id in GetAllItemIds()
    {
    }

    /** `setCustomItems`: replace the whole custom layer; the static layers are untouched. */
    method SetCustomItems(items: map<string, ItemDetails>)
      modifies this
      ensures customItems == items
      ensures itemsCache == old(itemsCache) && translationsCache == old(translationsCache)
      ensures forall id :: id in items ==> GetItemDetails(id) == Some(items[id])
    {
      customItems := items;
    }

    /** `clearCustomItems`: drop the custom layer, so lookups see only the static one. */
    method ClearCustomItems()
      modifies this
      ensures customItems == map[]
      ensures itemsCache == old(itemsCache) && translationsCache == old(translationsCache)
      ensures forall id :: GetItemDetails(id) == if id in itemsCache then Some(itemsCache[id]) else None
    {
      customItems := map[];
    }
  }
}
