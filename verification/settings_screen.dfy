/**
 * The handlers of app/settings.tsx. Each one computes, from the current
 * settings, the partial update it hands to `updateSettings` (or none, where
 * it returns early); the screen class applies it to the shared store and
 * keeps the screen's own picker flags.
 */
module SettingsScreen {
  import opened Types
  import opened AppContext
  import I18n

  /** `toggleSound`. */
  function ToggleSoundUpdate(s: UserSettings): (u: SettingsUpdate)
    ensures Merge(s, u) == s.(soundEnabled := !s.soundEnabled)
  {
    NoUpdates.(soundEnabled := Set(!s.soundEnabled))
  }

  /** `setVoiceStyle`: ignored while kiosk mode is on. */
  function SetVoiceStyleUpdate(s: UserSettings, style: VoiceStyle): (u: Option<SettingsUpdate>)
    ensures u.None? <==> s.kioskModeEnabled
    ensures u.Some? ==> Merge(s, u.value) == s.(voiceStyle := style)
  {
    if s.kioskModeEnabled then None else Some(NoUpdates.(voiceStyle := Set(style)))
  }

  /** `toggleKiosk`: flips kiosk mode and always forgets the kiosk category. */
  function ToggleKioskUpdate(s: UserSettings): (u: SettingsUpdate)
    ensures Merge(s, u) == s.(kioskModeEnabled := !s.kioskModeEnabled, kioskCategoryId := None)
  {
    NoUpdates.(kioskModeEnabled := Set(!s.kioskModeEnabled), kioskCategoryId := Set(None))
  }

  /** `ids.filter(x => x !== id)`. */
  function Without(ids: seq<string>, id: string): (r: seq<string>)
    ensures forall x :: x in r <==> x in ids && x != id
  {
    if ids == [] then []
    else if ids[0] == id then Without(ids[1..], id)
    else [ids[0]] + Without(ids[1..], id)
  }

  lemma {:induction false} WithoutAbsent(ids: seq<string>, id: string)
    requires id !in ids
    ensures Without(ids, id) == ids
  {
    if ids != [] {
      WithoutAbsent(ids[1..], id);
    }
  }

  lemma {:induction false} WithoutAppend(ids: seq<string>, x: string, id: string)
    ensures Without(ids + [x], id) == Without(ids, id) + (if x == id then [] else [x])
  {
    if ids == [] {
      assert ids + [x] == [x];
    } else {
      assert (ids + [x])[1..] == ids[1..] + [x];
      WithoutAppend(ids[1..], x, id);
    }
  }

  /** The next disabled list of `toggleCategory`: drop every copy of `id`, or append it. */
  function ToggledIds(disabled: seq<string>, id: string): (r: seq<string>)
    ensures id in r <==> id !in disabled
    ensures id !in disabled ==> r == disabled + [id]
    ensures forall x :: x != id ==> (x in r <==> x in disabled)
  {
    if id in disabled then Without(disabled, id) else disabled + [id]
  }

  /** Toggling an enabled category off and on again restores the list exactly. */
  lemma ToggleTwiceRestores(disabled: seq<string>, id: string)
    requires id !in disabled
    ensures ToggledIds(ToggledIds(disabled, id), id) == disabled
  {
    WithoutAppend(disabled, id, id);
    WithoutAbsent(disabled, id);
  }

  /** `toggleCategory`. */
  function ToggleCategoryUpdate(s: UserSettings, id: string): (u: SettingsUpdate)
    ensures Merge(s, u) == s.(disabledCategories := ToggledIds(s.disabledCategories, id))
  {
    NoUpdates.(disabledCategories := Set(ToggledIds(s.disabledCategories, id)))
  }

  /** The premium gate shared by both language pickers. */
  predicate LanguageLocked(s: UserSettings, code: LanguageCode) {
    var lang := I18n.FindLanguage(code);
    lang.Some? && !lang.value.isFree && !s.premiumUnlocked
  }

  /** English is always selectable; any language is once premium is unlocked. */
  lemma LanguageLockedOnlyForPaidLanguages(s: UserSettings, code: LanguageCode)
    ensures LanguageLocked(s, code) <==>
      !s.premiumUnlocked && code != "en"
      && exists i :: 0 <= i < |I18n.SupportedLanguages| && I18n.SupportedLanguages[i].code == code
  {
    I18n.SupportedLanguagesFacts();
    var lang := I18n.FindLanguage(code);
    if lang.Some? {
      var i :| 0 <= i < |I18n.SupportedLanguages| && I18n.SupportedLanguages[i] == lang.value;
    }
  }

  /** `selectLanguage`. */
  function SelectLanguageUpdate(s: UserSettings, code: LanguageCode): (u: Option<SettingsUpdate>)
    ensures u.None? <==> LanguageLocked(s, code)
    ensures u.Some? ==> Merge(s, u.value) == s.(language := code)
  {
    if LanguageLocked(s, code) then None else Some(NoUpdates.(language := Set(code)))
  }

  /** `selectVoiceLanguage`. */
  function SelectVoiceLanguageUpdate(s: UserSettings, code: LanguageCode): (u: Option<SettingsUpdate>)
    ensures u.None? <==> LanguageLocked(s, code)
    ensures u.Some? ==> Merge(s, u.value) == s.(voiceLanguage := code)
  {
    if LanguageLocked(s, code) then None else Some(NoUpdates.(voiceLanguage := Set(code)))
  }

  /** The settings screen, bound to the shared store. */
  class Screen {
    const store: AppStore
    var showLanguagePicker: bool
    var showVoiceLanguagePicker: bool

    /** At most one language list is open at a time. */
    predicate Valid()
      reads this
    {
      !(showLanguagePicker && showVoiceLanguagePicker)
    }

    constructor (store: AppStore)
      ensures this.store == store && Valid()
      ensures !showLanguagePicker && !showVoiceLanguagePicker
    {
      this.store := store;
      showLanguagePicker := false;
      showVoiceLanguagePicker := false;
    }

    method Dispatch(u: Option<SettingsUpdate>)
      modifies store
      ensures store.settings == (if u.Some? then Merge(old(store.settings), u.value) else old(store.settings))
      ensures store.customCategories == old(store.customCategories)
      ensures store.isLoaded == old(store.isLoaded)
    {
      if u.Some? {
        store.UpdateSettings(u.value);
      }
    }

    method ToggleSound()
      modifies store
      ensures store.settings == old(store.settings).(soundEnabled := !old(store.settings).soundEnabled)
      ensures store.customCategories == old(store.customCategories)
      ensures store.isLoaded == old(store.isLoaded)
    {
      Dispatch(Some(ToggleSoundUpdate(store.settings)));
    }

    method SetVoiceStyle(style: VoiceStyle)
      modifies store
      ensures old(store.settings).kioskModeEnabled ==> store.settings == old(store.settings)
      ensures !old(store.settings).kioskModeEnabled ==> store.settings == old(store.settings).(voiceStyle := style)
      ensures store.customCategories == old(store.customCategories)
      ensures store.isLoaded == old(store.isLoaded)
    {
      Dispatch(SetVoiceStyleUpdate(store.settings, style));
    }

    method ToggleKiosk()
      modifies store
      ensures store.settings ==
        old(store.settings).(kioskModeEnabled := !old(store.settings).kioskModeEnabled, kioskCategoryId := None)
      ensures store.customCategories == old(store.customCategories)
      ensures store.isLoaded == old(store.isLoaded)
    {
      Dispatch(Some(ToggleKioskUpdate(store.settings)));
    }

    method ToggleCategory(id: string)
      modifies store
      ensures store.settings ==
        old(store.settings).(disabledCategories := ToggledIds(old(store.settings).disabledCategories, id))
      ensures store.customCategories == old(store.customCategories)
      ensures store.isLoaded == old(store.isLoaded)
    {
      Dispatch(Some(ToggleCategoryUpdate(store.settings, id)));
    }

    /** The "text language" row opens its list and closes the other one. */
    method PressLanguageRow()
      requires Valid()
      modifies this
      ensures Valid()
      ensures showLanguagePicker == !old(showLanguagePicker) && !showVoiceLanguagePicker
    {
      showLanguagePicker := !showLanguagePicker;
      showVoiceLanguagePicker := false;
    }

    method PressVoiceLanguageRow()
      requires Valid()
      modifies this
      ensures Valid()
      ensures showVoiceLanguagePicker == !old(showVoiceLanguagePicker) && !showLanguagePicker
    {
      showVoiceLanguagePicker := !showVoiceLanguagePicker;
      showLanguagePicker := false;
    }

    /** A locked language changes nothing and leaves the list open. */
    method SelectLanguage(code: LanguageCode)
      requires Valid()
      modifies this, store
      ensures Valid()
      ensures LanguageLocked(old(store.settings), code) ==>
        store.settings == old(store.settings) && showLanguagePicker == old(showLanguagePicker)
      ensures !LanguageLocked(old(store.settings), code) ==>
        store.settings == old(store.settings).(language := code) && !showLanguagePicker
      ensures showVoiceLanguagePicker == old(showVoiceLanguagePicker)
      ensures store.customCategories == old(store.customCategories)
      ensures store.isLoaded == old(store.isLoaded)
    {
      var u := SelectLanguageUpdate(store.settings, code);
      if u.None? {
        return;
      }
      Dispatch(u);
      showLanguagePicker := false;
    }

    method SelectVoiceLanguage(code: LanguageCode)
      requires Valid()
      modifies this, store
      ensures Valid()
      ensures LanguageLocked(old(store.settings), code) ==>
        store.settings == old(store.settings) && showVoiceLanguagePicker == old(showVoiceLanguagePicker)
      ensures !LanguageLocked(old(store.settings), code) ==>
        store.settings == old(store.settings).(voiceLanguage := code) && !showVoiceLanguagePicker
      ensures showLanguagePicker == old(showLanguagePicker)
      ensures store.customCategories == old(store.customCategories)
      ensures store.isLoaded == old(store.isLoaded)
    {
      var u := SelectVoiceLanguageUpdate(store.settings, code);
      if u.None? {
        return;
      }
      Dispatch(u);
      showVoiceLanguagePicker := false;
    }
  }
}
