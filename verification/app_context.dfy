/**
 * The in-memory store of lib/app-context.tsx: the user's settings and the
 * custom categories, with the operations that replace them. Reading and
 * writing AsyncStorage is not modelled: what was read becomes a parameter.
 */
module AppContext {
  import opened Types

  /** One field of a `Partial<UserSettings>`: absent, or given a value. */
  datatype Update<T> = Keep | Set(value: T)

  function Apply<T>(u: Update<T>, current: T): T {
    match u
    case Keep => current
    case Set(v) => v
  }

  /**
   * `Partial<UserSettings>`. For the optional `kioskCategoryId`, `Set(None)`
   * is a key present with the value `undefined`, which clears the field.
   */
  datatype SettingsUpdate = SettingsUpdate(
    kioskModeEnabled: Update<bool>,
    premiumUnlocked: Update<bool>,
    soundEnabled: Update<bool>,
    voiceStyle: Update<VoiceStyle>,
    kioskCategoryId: Update<Option<string>>,
    language: Update<LanguageCode>,
    voiceLanguage: Update<LanguageCode>,
    disabledCategories: Update<seq<string>>)

  const NoUpdates := SettingsUpdate(Keep, Keep, Keep, Keep, Keep, Keep, Keep, Keep)

  const DefaultSettings := UserSettings(
    kioskModeEnabled := false,
    premiumUnlocked := false,
    soundEnabled := true,
    voiceStyle := Female,
    kioskCategoryId := None,
    language := "en",
    voiceLanguage := "en",
    disabledCategories := [])

  /** Every given field takes its new value; every absent field keeps the old one. */
  ghost predicate MergedFrom(prev: UserSettings, updates: SettingsUpdate, next: UserSettings) {
    && next.kioskModeEnabled == (if updates.kioskModeEnabled.Set? then updates.kioskModeEnabled.value else prev.kioskModeEnabled)
    && next.premiumUnlocked == (if updates.premiumUnlocked.Set? then updates.premiumUnlocked.value else prev.premiumUnlocked)
    && next.soundEnabled == (if updates.soundEnabled.Set? then updates.soundEnabled.value else prev.soundEnabled)
    && next.voiceStyle == (if updates.voiceStyle.Set? then updates.voiceStyle.value else prev.voiceStyle)
    && next.kioskCategoryId == (if updates.kioskCategoryId.Set? then updates.kioskCategoryId.value else prev.kioskCategoryId)
    && next.language == (if updates.language.Set? then updates.language.value else prev.language)
    && next.voiceLanguage == (if updates.voiceLanguage.Set? then updates.voiceLanguage.value else prev.voiceLanguage)
    && next.disabledCategories == (if updates.disabledCategories.Set? then updates.disabledCategories.value else prev.disabledCategories)
  }

  /** `{ ...prev, ...updates }`. */
  function Merge(prev: UserSettings, updates: SettingsUpdate): (next: UserSettings)
    ensures MergedFrom(prev, updates, next)
  {
    UserSettings(
      Apply(updates.kioskModeEnabled, prev.kioskModeEnabled),
      Apply(updates.premiumUnlocked, prev.premiumUnlocked),
      Apply(updates.soundEnabled, prev.soundEnabled),
      Apply(updates.voiceStyle, prev.voiceStyle),
      Apply(updates.kioskCategoryId, prev.kioskCategoryId),
      Apply(updates.language, prev.language),
      Apply(updates.voiceLanguage, prev.voiceLanguage),
      Apply(updates.disabledCategories, prev.disabledCategories))
  }

  /** The later of two updates wins field by field. */
  function Then<T>(first: Update<T>, second: Update<T>): Update<T> {
    if second.Set? then second else first
  }

  function ThenAll(first: SettingsUpdate, second: SettingsUpdate): SettingsUpdate {
    SettingsUpdate(
      Then(first.kioskModeEnabled, second.kioskModeEnabled),
      Then(first.premiumUnlocked, second.premiumUnlocked),
      Then(first.soundEnabled, second.soundEnabled),
      Then(first.voiceStyle, second.voiceStyle),
      Then(first.kioskCategoryId, second.kioskCategoryId),
      Then(first.language, second.language),
      Then(first.voiceLanguage, second.voiceLanguage),
      Then(first.disabledCategories, second.disabledCategories))
  }

  /** An empty update changes nothing, and applying an update twice is applying it once. */
  lemma MergeIdentityAndIdempotent(s: UserSettings, u: SettingsUpdate)
    ensures Merge(s, NoUpdates) == s
    ensures Merge(Merge(s, u), u) == Merge(s, u)
  {
  }

  /** Two successive `updateSettings` calls act as one combined update. */
  lemma MergeComposes(s: UserSettings, u1: SettingsUpdate, u2: SettingsUpdate)
    ensures Merge(Merge(s, u1), u2) == Merge(s, ThenAll(u1, u2))
  {
  }

  /**
   * `loadData`: when stored settings exist they are laid over the defaults,
   * so a field missing from storage takes its default; otherwise the current
   * settings stay.
   */
  function LoadedSettings(current: UserSettings, stored: Option<SettingsUpdate>): (s: UserSettings)
    ensures stored.None? ==> s == current
    ensures stored.Some? ==> MergedFrom(DefaultSettings, stored.value, s)
  {
    match stored
    case None => current
    case Some(u) => Merge(DefaultSettings, u)
  }

  /** `prev.findIndex(c => c.id === id)`: the first position holding `id`, or -1. */
  function FindIndex(cats: seq<UserCustomCategory>, id: string): (r: int)
    ensures -1 <= r < |cats|
    ensures r >= 0 ==> cats[r].id == id && forall k :: 0 <= k < r ==> cats[k].id != id
    ensures r == -1 <==> forall k :: 0 <= k < |cats| ==> cats[k].id != id
  {
    if cats == [] then -1
    else if cats[0].id == id then 0
    else
      var r := FindIndex(cats[1..], id);
      if r == -1 then -1 else r + 1
  }

  /** `prev.filter(c => c.id !== id)`. */
  function RemoveById(cats: seq<UserCustomCategory>, id: string): (r: seq<UserCustomCategory>)
    ensures forall c :: c in r <==> c in cats && c.id != id
    ensures |r| <= |cats|
  {
    if cats == [] then []
    else if cats[0].id == id then RemoveById(cats[1..], id)
    else [cats[0]] + RemoveById(cats[1..], id)
  }

  /** Removing keeps the survivors in their order: filtering distributes over concatenation. */
  lemma {:induction false} RemoveByIdDistributes(a: seq<UserCustomCategory>, b: seq<UserCustomCategory>, id: string)
    ensures RemoveById(a + b, id) == RemoveById(a, id) + RemoveById(b, id)
  {
    if a == [] {
      assert a + b == b;
    } else {
      assert (a + b)[1..] == a[1..] + b;
      RemoveByIdDistributes(a[1..], b, id);
    }
  }

  /** Removing an absent id changes nothing; so removing twice is removing once. */
  lemma {:induction false} RemoveAbsentIsIdentity(cats: seq<UserCustomCategory>, id: string)
    requires forall k :: 0 <= k < |cats| ==> cats[k].id != id
    ensures RemoveById(cats, id) == cats
  {
    if cats != [] {
      RemoveAbsentIsIdentity(cats[1..], id);
    }
  }

  lemma RemoveIdempotent(cats: seq<UserCustomCategory>, id: string)
    ensures RemoveById(RemoveById(cats, id), id) == RemoveById(cats, id)
  {
    var once := RemoveById(cats, id);
    forall k | 0 <= k < |once| ensures once[k].id != id {
      assert once[k] in once;
    }
    RemoveAbsentIsIdentity(once, id);
  }

  /**
   * `addCustomCategory`: an upsert by id. A new id is appended; an existing
   * one has its first occurrence replaced and nothing else moves.
   */
  function Upsert(prev: seq<UserCustomCategory>, cat: UserCustomCategory): (next: seq<UserCustomCategory>)
    ensures cat in next
    ensures FindIndex(prev, cat.id) == -1 ==> next == prev + [cat]
    ensures FindIndex(prev, cat.id) >= 0 ==>
      |next| == |prev| && forall k :: 0 <= k < |prev| ==>
        next[k] == (if k == FindIndex(prev, cat.id) then cat else prev[k])
  {
    var existing := FindIndex(prev, cat.id);
    if existing >= 0 then
      assert prev[existing := cat][existing] == cat;
      prev[existing := cat]
    else prev + [cat]
  }

  /** The custom-categories screen offers "add" only while this holds. */
  function CanAddMore(premiumUnlocked: bool, count: nat): bool
  {
    premiumUnlocked || count < 3
  }

  /** Adding through that screen never takes a free user past three categories. */
  lemma FreePlanLimit(prev: seq<UserCustomCategory>, cat: UserCustomCategory)
    requires CanAddMore(false, |prev|)
    ensures |Upsert(prev, cat)| <= 3
  {
  }

  /** The provider's state. */
  class AppStore {
    var settings: UserSettings
    var customCategories: seq<UserCustomCategory>
    var isLoaded: bool

    constructor ()
      ensures settings == DefaultSettings && customCategories == [] && !isLoaded
    {
      settings := DefaultSettings;
      customCategories := [];
      isLoaded := false;
    }

    /**
     * `loadData` with what storage returned (None where a key was absent).
     * Unreadable JSON is not modelled.
     */
    method LoadData(storedSettings: Option<SettingsUpdate>, storedCategories: Option<seq<UserCustomCategory>>)
      modifies this
      ensures settings == LoadedSettings(old(settings), storedSettings)
      ensures customCategories == (if storedCategories.Some? then storedCategories.value else old(customCategories))
      ensures isLoaded
    {
      settings := LoadedSettings(settings, storedSettings);
      if storedCategories.Some? {
        customCategories := storedCategories.value;
      }
      isLoaded := true;
    }

    method UpdateSettings(updates: SettingsUpdate)
      modifies this
      ensures settings == Merge(old(settings), updates)
      ensures customCategories == old(customCategories) && isLoaded == old(isLoaded)
    {
      settings := Merge(settings, updates);
    }

    /** Copies the list and, for a known id, overwrites the copy in place. */
    method AddCustomCategory(cat: UserCustomCategory)
      modifies this
      ensures customCategories == Upsert(old(customCategories), cat)
      ensures settings == old(settings) && isLoaded == old(isLoaded)
    {
      var prev := customCategories;
      var existing := FindIndex(prev, cat.id);
      if existing >= 0 {
        var next := new UserCustomCategory[|prev|](i requires 0 <= i < |prev| => prev[i]);
        next[existing] := cat;
        customCategories := next[..];
        assert customCategories == prev[existing := cat];
      } else {
        customCategories := prev + [cat];
      }
    }

    method RemoveCustomCategory(id: string)
      modifies this
      ensures customCategories == RemoveById(old(customCategories), id)
      ensures settings == old(settings) && isLoaded == old(isLoaded)
    {
      customCategories := RemoveById(customCategories, id);
    }

    /** The effect run when the purchase entitlement changes. */
    method SyncPremium(isPremium: bool)
      modifies this
      ensures isPremium && !old(settings).premiumUnlocked ==>
        settings == old(settings).(premiumUnlocked := true)
      ensures !(isPremium && !old(settings).premiumUnlocked) ==> settings == old(settings)
      ensures customCategories == old(customCategories) && isLoaded == old(isLoaded)
    {
      if isPremium && !settings.premiumUnlocked {
        UpdateSettings(NoUpdates.(premiumUnlocked := Set(true)));
      }
    }
  }
}
