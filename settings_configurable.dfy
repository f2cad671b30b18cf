/**
 * `SptIdSettingsConfigurable`: the settings page with its language combo box.
 * The combo box is reduced to its selected index into `SUPPORTED_LANGUAGES`
 * (-1 for no selection); applying a changed language reloads the data
 * service's static layers.
 */
module SettingsConfigurable {
  import opened SettingsState
  import opened DataService

  /** `getDisplayName`. */
  const DISPLAY_NAME: string := "SPT ID Highlighter"

  /** A combo box index is -1 (nothing selected) or a position in the language table. */
  predicate IsComboIndex(index: int) {
    -1 <= index < |SUPPORTED_LANGUAGES|
  }

  /** The language code a combo box index stands for: the entry's code, or "en" with nothing selected. */
  function LanguageAt(index: int): (code: string)
    requires IsComboIndex(index)
    ensures index >= 0 ==> code == SUPPORTED_LANGUAGES[index].0
    ensures index < 0 ==> code == DEFAULT_LANGUAGE
    ensures IsSupported(code)
  {
    DefaultSupported();
    if index >= 0 then SUPPORTED_LANGUAGES[index].0 else DEFAULT_LANGUAGE
  }

  /** Selecting a supported code and reading the selection back gives the code. */
  lemma SelectThenGet(code: string)
    requires IsSupported(code)
    ensures IndexOfCode(code) >= 0 && LanguageAt(IndexOfCode(code)) == code
  {
  }

  /** Reading a selected entry's code and selecting that code again lands on the same entry. */
  lemma {:induction false} GetThenSelect(index: int)
    requires 0 <= index < |SUPPORTED_LANGUAGES|
    ensures IndexOfCode(LanguageAt(index)) == index
  {
    var code := LanguageAt(index);
    var r := IndexOfCode(code);
    SupportedLanguagesShape();
    assert SUPPORTED_LANGUAGES[index].0 == code;
    assert r >= 0 && SUPPORTED_LANGUAGES[r].0 == code;
  }

  /** The private `SptIdSettingsComponent`: the combo box of display names. */
  class SptIdSettingsComponent {
    var selectedIndex: int

    ghost predicate Valid()
      reads this
    {
      IsComboIndex(selectedIndex)
    }

    /** A combo box built over a non-empty list selects its first entry. */
    constructor()
      ensures Valid() && selectedIndex == 0
    {
      selectedIndex := 0;
    }

    /** `getSelectedLanguage`. */
    function GetSelectedLanguage(): (code: string)
      requires Valid()
      reads this
      ensures code == LanguageAt(selectedIndex)
    {
      LanguageAt(selectedIndex)
    }

    /** `setSelectedLanguage`: select the first entry with the code; an unknown code changes nothing. */
    method SetSelectedLanguage(languageCode: string)
      requires Valid()
      modifies this
      ensures Valid()
      ensures IsSupported(languageCode) ==> selectedIndex == IndexOfCode(languageCode)
      ensures IsSupported(languageCode) ==> GetSelectedLanguage() == languageCode
      ensures !IsSupported(languageCode) ==> selectedIndex == old(selectedIndex)
    {
      var index := IndexOfCode(languageCode);
      if index >= 0 {
        selectedIndex := index;
      }
    }
  }

  /** The settings page: its component exists between `createComponent` and `disposeUIResources`. */
  class SptIdSettingsConfigurable {
    var settingsComponent: SptIdSettingsComponent?
    const settings: SptIdSettingsState
    const service: SptDataService

    /** The service reloads from the same settings bean the page edits. */
    ghost predicate Valid()
      reads this, settingsComponent
    {
      service.settings == settings && (settingsComponent != null ==> settingsComponent.Valid())
    }

    constructor(service: SptDataService)
      ensures Valid()
      ensures this.service == service && settings == service.settings && settingsComponent == null
    {
      this.service := service;
      settings := service.settings;
      settingsComponent := null;
    }

    /** `createComponent`. */
    method CreateComponent()
      requires Valid()
      modifies this
      ensures Valid()
      ensures settingsComponent != null && fresh(settingsComponent) && settingsComponent.selectedIndex == 0
    {
      settingsComponent := new SptIdSettingsComponent();
    }

    /** `isModified`: the selection differs from the stored language; with no component it always does. */
    function IsModified(): (r: bool)
      requires Valid()
      reads this, settingsComponent, settings
      ensures settingsComponent == null ==> r
      ensures settingsComponent != null ==> (r <==> settingsComponent.GetSelectedLanguage() != settings.language)
    {
      settingsComponent == null || settingsComponent.GetSelectedLanguage() != settings.language
    }

    /** The language `apply` stores: the selection, or "en" with no component. */
    function NewLanguage(): (code: string)
      requires Valid()
      reads this, settingsComponent
      ensures IsSupported(code)
    {
      DefaultSupported();
      if settingsComponent != null then settingsComponent.GetSelectedLanguage() else DEFAULT_LANGUAGE
    }

    /**
     * `apply`: store the new language, and reload the service's static layers
     * only when it differs from the stored one; afterwards the page shows no
     * pending change.
     */
    method Apply()
      requires Valid()
      modifies settings, service
      ensures Valid()
      ensures settings.language == NewLanguage()
      ensures old(settings.language) == NewLanguage() ==>
                service.itemsCache == old(service.itemsCache) && service.translationsCache == old(service.translationsCache)
      ensures old(settings.language) != NewLanguage() ==>
                service.itemsCache == LoadWithFallback(NewLanguage(), service.databases, map[]) &&
                service.translationsCache == LoadWithFallback(NewLanguage(), service.translationFiles, map[])
      ensures service.customItems == old(service.customItems)
      ensures settingsComponent != null ==> !IsModified()
    {
      var newLanguage := if settingsComponent != null then settingsComponent.GetSelectedLanguage() else DEFAULT_LANGUAGE;
      if settings.language != newLanguage {
        settings.language := newLanguage;
        service.LoadData();
      }
    }

    /**
     * `reset`: show the stored language.  Afterwards the page shows no pending
     * change, unless the stored code is not in the table, in which case the
     * selection stays as it was.
     */
    method Reset()
      requires Valid()
      modifies if settingsComponent != null then {settingsComponent} else {}
      ensures Valid()
      ensures settingsComponent != null && IsSupported(settings.language) ==>
                settingsComponent.selectedIndex == IndexOfCode(settings.language) && !IsModified()
      ensures settingsComponent != null && !IsSupported(settings.language) ==>
                settingsComponent.selectedIndex == old(settingsComponent.selectedIndex)
      ensures settingsComponent != null && old(settingsComponent.selectedIndex) >= 0 && old(!IsModified()) ==>
                settingsComponent.selectedIndex == old(settingsComponent.selectedIndex)
    {
      if settingsComponent != null {
        ghost var before := settingsComponent.selectedIndex;
        settingsComponent.SetSelectedLanguage(settings.language);
        if before >= 0 && LanguageAt(before) == settings.language {
          GetThenSelect(before);
        }
      }
    }

    /** `disposeUIResources`. */
    method DisposeUIResources()
      modifies this
      ensures settingsComponent == null
    {
      settingsComponent := null;
    }
  }
}
