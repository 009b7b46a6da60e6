/**
 * The custom-category wizard of app/add-custom.tsx: a four-step machine
 * that collects a category name, then items one at a time (a name, an
 * optional photo, an optional recording), and finally hands the finished
 * category to the store.
 *
 * The photo picker, camera and recorder are asynchronous native calls; the
 * model receives what they returned (a URI, or nothing). The ids made by
 * `Crypto.randomUUID` are inputs as well.
 */
module AddCustom {
  import opened Types
  import opened AppContext

  datatype Step = NameStep | ItemNameStep | ItemPhotoStep | ItemRecordStep

  /** An item saved by the wizard, waiting for the category to be finished. */
  datatype PendingItem = PendingItem(labelText: string, imageUri: Option<string>, audioUri: Option<string>, iconIndex: PaletteIndex)

  /** The palette a custom item's colour is taken from, by its position. */
  const IconColors: seq<string> :=
    ["#FF6B6B", "#FFD700", "#74B9FF", "#FF69B4", "#228B22", "#FF8C00", "#A29BFE", "#0984E3", "#DEB887", "#6C5CE7"]

  /** `ICON_COLORS.length`. */
  const PaletteSize: nat := 10

  /** A position in the palette. */
  type PaletteIndex = i: nat | i < PaletteSize

  // ---------------------------------------------------------------------
  // String.prototype.trim

  /** The characters `trim` removes: ECMAScript white space and line terminators. */
  const Spaces: set<char> := {
    '\t', '\n', '\U{000B}', '\U{000C}', '\r', ' ', '\U{00A0}', '\U{1680}',
    '\U{2000}', '\U{2001}', '\U{2002}', '\U{2003}', '\U{2004}', '\U{2005}',
    '\U{2006}', '\U{2007}', '\U{2008}', '\U{2009}', '\U{200A}',
    '\U{2028}', '\U{2029}', '\U{202F}', '\U{205F}', '\U{3000}', '\U{FEFF}'
  }

  predicate IsSpace(c: char) {
    c in Spaces
  }

  /** Nothing but white space: what `!s.trim()` tests. */
  predicate Blank(s: string) {
    s == [] || (IsSpace(s[0]) && Blank(s[1..]))
  }

  /** Drops the leading white space. */
  function TrimStart(s: string): (r: string)
    ensures |r| <= |s|
    ensures r == [] || !IsSpace(r[0])
    ensures r != [] ==> r[|r| - 1] == s[|s| - 1]
  {
    if s != [] && IsSpace(s[0]) then TrimStart(s[1..]) else s
  }

  /** Drops the trailing white space. */
  function TrimEnd(s: string): (r: string)
    ensures |r| <= |s|
    ensures r == [] || !IsSpace(r[|r| - 1])
    ensures r != [] ==> r[0] == s[0]
    ensures s != [] && !IsSpace(s[0]) ==> r != []
  {
    if s != [] && IsSpace(s[|s| - 1]) then TrimEnd(s[..|s| - 1]) else s
  }

  /** What `TrimStart` keeps is a suffix, and everything before it is white space. */
  lemma {:induction false} TrimStartSuffix(s: string)
    ensures TrimStart(s) == s[|s| - |TrimStart(s)|..]
    ensures forall k :: 0 <= k < |s| - |TrimStart(s)| ==> IsSpace(s[k])
  {
    if s != [] && IsSpace(s[0]) {
      TrimStartSuffix(s[1..]);
    }
  }

  /** What `TrimEnd` keeps is a prefix, and everything after it is white space. */
  lemma {:induction false} TrimEndPrefix(s: string)
    ensures TrimEnd(s) == s[..|TrimEnd(s)|]
    ensures forall k :: |TrimEnd(s)| <= k < |s| ==> IsSpace(s[k])
  {
    if s != [] && IsSpace(s[|s| - 1]) {
      TrimEndPrefix(s[..|s| - 1]);
    }
  }

  /**
   * `s.trim()`: `s` with the white space dropped from both ends, so that
   * what is left neither starts nor ends with white space.
   */
  function Trim(s: string): (r: string)
    ensures |r| <= |s| && Trimmed(r)
  {
    TrimEnd(TrimStart(s))
  }

  /** A string with nothing left to trim. */
  predicate Trimmed(s: string) {
    s == [] || (!IsSpace(s[0]) && !IsSpace(s[|s| - 1]))
  }

  /**
   * The trimmed string is the piece of the original between two positions,
   * and everything outside that piece is white space.
   */
  lemma TrimInfix(s: string)
    ensures exists a, b ::
      && 0 <= a <= b <= |s| && Trim(s) == s[a..b]
      && (forall k :: 0 <= k < a ==> IsSpace(s[k]))
      && (forall k :: b <= k < |s| ==> IsSpace(s[k]))
  {
    var t := TrimStart(s);
    TrimStartSuffix(s);
    TrimEndPrefix(t);
    var a := |s| - |t|;
    var b := a + |Trim(s)|;
    assert Trim(s) == s[a..b];
    forall k | b <= k < |s| ensures IsSpace(s[k]) {
      assert s[k] == t[k - a];
    }
  }

  lemma {:induction false} TrimStartBlank(s: string)
    ensures TrimStart(s) == "" <==> Blank(s)
  {
    if s != [] && IsSpace(s[0]) {
      TrimStartBlank(s[1..]);
    }
  }

  /** Trimming leaves nothing exactly when the string is all white space. */
  lemma TrimBlank(s: string)
    ensures Trim(s) == "" <==> Blank(s)
  {
    TrimStartBlank(s);
  }

  /** Trimming a trimmed string changes nothing, so trimming twice is trimming once. */
  lemma TrimIdempotent(s: string)
    ensures Trim(Trim(s)) == Trim(s)
  {
    var t := Trim(s);
    assert TrimStart(t) == t;
    assert TrimEnd(t) == t;
  }

  // ---------------------------------------------------------------------
  // Building the category

  /** `prev.filter((_, i) => i !== index)`. */
  function WithoutIndex(s: seq<PendingItem>, index: int): (r: seq<PendingItem>)
    ensures 0 <= index < |s| ==> r == s[..index] + s[index + 1..]
    ensures !(0 <= index < |s|) ==> r == s
  {
    if s == [] then []
    else if index == 0 then s[1..]
    else [s[0]] + WithoutIndex(s[1..], index - 1)
  }

  /** The `Item` made for one saved item: a starred card in its palette colour. */
  function ItemOf(p: PendingItem, id: string): Item
  {
    Item(id, p.labelText, "star", MaterialCommunityIcons, IconColors[p.iconIndex], true, p.imageUri, p.audioUri)
  }

  /** `savedItems.map(...)` with one fresh id per item. */
  function BuildItems(saved: seq<PendingItem>, ids: seq<string>): (items: seq<Item>)
    requires |ids| == |saved|
    ensures |items| == |saved|
    ensures forall i :: 0 <= i < |items| ==>
      && items[i].id == ids[i] && items[i].labelText == saved[i].labelText
      && items[i].isCustom && items[i].color == IconColors[saved[i].iconIndex]
      && items[i].icon == "star" && items[i].iconFamily == MaterialCommunityIcons
      && items[i].customImageUri == saved[i].imageUri && items[i].customAudioUri == saved[i].audioUri
  {
    if saved == [] then []
    else [ItemOf(saved[0], ids[0])] + BuildItems(saved[1..], ids[1..])
  }

  /** The category `handleFinish` hands to the store. */
  function NewCategory(categoryId: string, categoryName: string, saved: seq<PendingItem>, ids: seq<string>): (c: UserCustomCategory)
    requires |ids| == |saved|
    ensures c.id == categoryId && c.name == Trim(categoryName) && c.ownerUserId == "local"
    ensures |c.items| == |saved|
  {
    UserCustomCategory(categoryId, Trim(categoryName), BuildItems(saved, ids), "local")
  }

  /** What every saved item holds: a non-empty, trimmed label. */
  predicate Saveable(p: PendingItem) {
    p.labelText != "" && Trimmed(p.labelText)
  }

  predicate AllSaveable(items: seq<PendingItem>) {
    forall i :: 0 <= i < |items| ==> Saveable(items[i])
  }

  lemma AllSaveableAppend(items: seq<PendingItem>, p: PendingItem)
    requires AllSaveable(items) && Saveable(p)
    ensures AllSaveable(items + [p])
  {
    forall i | 0 <= i < |items + [p]| ensures Saveable((items + [p])[i]) {
      if i < |items| {
        assert (items + [p])[i] == items[i];
      }
    }
  }

  /**
   * The item `handleRecordNext` saves: the trimmed name, the media so far,
   * and the palette position that follows the items already saved.
   */
  function Pending(name: string, imageUri: Option<string>, audioUri: Option<string>, savedCount: nat): (p: PendingItem)
    ensures !Blank(name) ==> Saveable(p)
  {
    TrimBlank(name);
    PendingItem(Trim(name), imageUri, audioUri, savedCount % PaletteSize)
  }

  // ---------------------------------------------------------------------
  // The wizard

  class Wizard {
    var step: Step
    var categoryName: string
    var savedItems: seq<PendingItem>
    var currentItemName: string
    var currentImageUri: Option<string>
    var currentAudioUri: Option<string>
    var isRecording: bool
    /** The screen has navigated away (finished, or closed from the first step). */
    var left: bool

    /**
     * Past the first step the category name is not blank; on the photo and
     * recording steps the item name is not blank; every saved item has a
     * trimmed, non-empty label; and once an item is saved the first step is
     * not reached again.
     */
    predicate Valid()
      reads this
    {
      && (step != NameStep ==> !Blank(categoryName))
      && (step == ItemPhotoStep || step == ItemRecordStep ==> !Blank(currentItemName))
      && (savedItems != [] ==> step != NameStep)
      && AllSaveable(savedItems)
    }

    constructor ()
      ensures Valid()
      ensures step == NameStep && categoryName == "" && savedItems == []
      ensures currentItemName == "" && currentImageUri == None && currentAudioUri == None
      ensures !isRecording && !left
    {
      step := NameStep;
      categoryName := "";
      savedItems := [];
      currentItemName := "";
      currentImageUri := None;
      currentAudioUri := None;
      isRecording := false;
      left := false;
    }

    /** Typing in the category-name box, shown on the first step only. */
    method SetCategoryName(name: string)
      requires Valid() && step == NameStep
      modifies this
      ensures Valid()
      ensures categoryName == name
      ensures step == old(step) && savedItems == old(savedItems) && currentItemName == old(currentItemName)
      ensures currentImageUri == old(currentImageUri) && currentAudioUri == old(currentAudioUri)
      ensures isRecording == old(isRecording) && left == old(left)
    {
      categoryName := name;
    }

    /** Typing in the item-name box, shown on the item-name step only. */
    method SetItemName(name: string)
      requires Valid() && step == ItemNameStep
      modifies this
      ensures Valid()
      ensures currentItemName == name
      ensures step == old(step) && categoryName == old(categoryName) && savedItems == old(savedItems)
      ensures currentImageUri == old(currentImageUri) && currentAudioUri == old(currentAudioUri)
      ensures isRecording == old(isRecording) && left == old(left)
    {
      currentItemName := name;
    }

    /** `handleNameNext`: on only with a name that is not blank. */
    method HandleNameNext()
      requires Valid()
      modifies this
      ensures Valid()
      ensures Trim(old(categoryName)) == "" ==> step == old(step)
      ensures Trim(old(categoryName)) != "" ==> step == ItemNameStep
      ensures categoryName == old(categoryName) && savedItems == old(savedItems)
      ensures currentItemName == old(currentItemName) && currentImageUri == old(currentImageUri)
      ensures currentAudioUri == old(currentAudioUri) && isRecording == old(isRecording) && left == old(left)
    {
      TrimBlank(categoryName);
      if Trim(categoryName) == "" {
        return;
      }
      step := ItemNameStep;
    }

    /** `handleItemNameNext`: on to the photo only with an item name that is not blank. */
    method HandleItemNameNext()
      requires Valid() && step == ItemNameStep
      modifies this
      ensures Valid()
      ensures Trim(old(currentItemName)) == "" ==> step == old(step)
      ensures Trim(old(currentItemName)) != "" ==> step == ItemPhotoStep
      ensures categoryName == old(categoryName) && savedItems == old(savedItems)
      ensures currentItemName == old(currentItemName) && currentImageUri == old(currentImageUri)
      ensures currentAudioUri == old(currentAudioUri) && isRecording == old(isRecording) && left == old(left)
    {
      TrimBlank(currentItemName);
      if Trim(currentItemName) == "" {
        return;
      }
      step := ItemPhotoStep;
    }

    /** What the photo library or the camera returned; a cancelled pick changes nothing. */
    method PickPhoto(uri: Option<string>)
      requires Valid() && step == ItemPhotoStep
      modifies this
      ensures Valid()
      ensures currentImageUri == (if uri.Some? then uri else old(currentImageUri))
      ensures step == old(step) && categoryName == old(categoryName) && savedItems == old(savedItems)
      ensures currentItemName == old(currentItemName) && currentAudioUri == old(currentAudioUri)
      ensures isRecording == old(isRecording) && left == old(left)
    {
      if uri.Some? {
        currentImageUri := uri;
      }
    }

    /** `handlePhotoNext`: the photo is optional. */
    method HandlePhotoNext()
      requires Valid() && step == ItemPhotoStep
      modifies this
      ensures Valid()
      ensures step == ItemRecordStep
      ensures categoryName == old(categoryName) && savedItems == old(savedItems)
      ensures currentItemName == old(currentItemName) && currentImageUri == old(currentImageUri)
      ensures currentAudioUri == old(currentAudioUri) && isRecording == old(isRecording) && left == old(left)
    {
      step := ItemRecordStep;
    }

    /** `startRecording` once the microphone permission came back, granted or not. */
    method StartRecording(granted: bool)
      requires Valid() && step == ItemRecordStep
      modifies this
      ensures Valid()
      ensures isRecording == (granted || old(isRecording))
      ensures step == old(step) && categoryName == old(categoryName) && savedItems == old(savedItems)
      ensures currentItemName == old(currentItemName) && currentImageUri == old(currentImageUri)
      ensures currentAudioUri == old(currentAudioUri) && left == old(left)
    {
      if granted {
        isRecording := true;
      }
    }

    /** `stopRecording` with the recorder's file, if it produced one. */
    method StopRecording(recorded: Option<string>)
      requires Valid()
      modifies this
      ensures Valid()
      ensures !isRecording
      ensures currentAudioUri == (if recorded.Some? then recorded else old(currentAudioUri))
      ensures step == old(step) && categoryName == old(categoryName) && savedItems == old(savedItems)
      ensures currentItemName == old(currentItemName) && currentImageUri == old(currentImageUri)
      ensures left == old(left)
    {
      isRecording := false;
      if recorded.Some? {
        currentAudioUri := recorded;
      }
    }

    /**
     * `handleRecordNext`: saves exactly one item, named by the trimmed name
     * and coloured by the count of items saved before it, then clears the
     * current item and returns to the item-name step.
     */
    method HandleRecordNext()
      requires Valid() && step == ItemRecordStep
      modifies this
      ensures Valid()
      ensures savedItems == old(savedItems) + [Pending(old(currentItemName),
        old(currentImageUri), old(currentAudioUri), |old(savedItems)|)]
      ensures currentItemName == "" && currentImageUri == None && currentAudioUri == None
      ensures step == ItemNameStep
      ensures categoryName == old(categoryName) && isRecording == old(isRecording) && left == old(left)
    {
      var newItem := Pending(currentItemName, currentImageUri, currentAudioUri, |savedItems|);
      AllSaveableAppend(savedItems, newItem);
      savedItems := savedItems + [newItem];
      currentItemName := "";
      currentImageUri := None;
      currentAudioUri := None;
      step := ItemNameStep;
    }

    /** `handleRemoveItem`: drops the item at `index` and keeps the rest in order. */
    method HandleRemoveItem(index: int)
      requires Valid()
      modifies this
      ensures Valid()
      ensures savedItems == WithoutIndex(old(savedItems), index)
      ensures step == old(step) && categoryName == old(categoryName)
      ensures currentItemName == old(currentItemName) && currentImageUri == old(currentImageUri)
      ensures currentAudioUri == old(currentAudioUri) && isRecording == old(isRecording) && left == old(left)
    {
      savedItems := WithoutIndex(savedItems, index);
    }

    /**
     * `handleFinish`: refused without a saved item; otherwise the store
     * gains the category made from the saved items, in order, under the
     * trimmed name, and the screen is left.
     */
    method HandleFinish(store: AppStore, categoryId: string, itemIds: seq<string>)
      requires Valid() && |itemIds| == |savedItems|
      modifies this, store
      ensures Valid()
      ensures old(savedItems) == [] ==>
        && store.customCategories == old(store.customCategories) && left == old(left)
      ensures old(savedItems) != [] ==>
        && store.customCategories == Upsert(old(store.customCategories),
             NewCategory(categoryId, old(categoryName), old(savedItems), itemIds))
        && left
      ensures store.settings == old(store.settings)
      ensures store.isLoaded == old(store.isLoaded)
      ensures step == old(step) && categoryName == old(categoryName) && savedItems == old(savedItems)
      ensures currentItemName == old(currentItemName) && currentImageUri == old(currentImageUri)
      ensures currentAudioUri == old(currentAudioUri) && isRecording == old(isRecording)
    {
      if |savedItems| == 0 {
        return;
      }
      var items := BuildItems(savedItems, itemIds);
      store.AddCustomCategory(UserCustomCategory(categoryId, Trim(categoryName), items, "local"));
      left := true;
    }

    /**
     * `handleBack`: recording goes back to the photo (stopping the
     * recorder), the photo to the item name, the item name to the first
     * step, or to finishing once an item is saved; the first step leaves.
     */
    method HandleBack(store: AppStore, categoryId: string, itemIds: seq<string>, recorded: Option<string>)
      requires Valid() && |itemIds| == |savedItems|
      modifies this, store
      ensures Valid()
      ensures old(step) == ItemRecordStep ==> step == ItemPhotoStep && !isRecording
      ensures old(step) == ItemPhotoStep ==> step == ItemNameStep
      ensures old(step) == ItemNameStep && old(savedItems) == [] ==> step == NameStep
      ensures old(step) == ItemNameStep && old(savedItems) != [] ==>
        && step == ItemNameStep && left
        && store.customCategories == Upsert(old(store.customCategories),
             NewCategory(categoryId, old(categoryName), old(savedItems), itemIds))
      ensures old(step) == NameStep ==> step == NameStep && left
      ensures !(old(step) == ItemNameStep && old(savedItems) != []) ==>
        store.customCategories == old(store.customCategories)
      ensures store.settings == old(store.settings)
      ensures store.isLoaded == old(store.isLoaded)
      ensures savedItems == old(savedItems) && categoryName == old(categoryName)
      ensures currentItemName == old(currentItemName) && currentImageUri == old(currentImageUri)
      ensures currentAudioUri ==
        (if old(step) == ItemRecordStep && old(isRecording) && recorded.Some? then recorded else old(currentAudioUri))
      ensures isRecording == (old(isRecording) && old(step) != ItemRecordStep)
      ensures !(old(step) == NameStep || (old(step) == ItemNameStep && old(savedItems) != [])) ==> left == old(left)
    {
      match step
      case ItemRecordStep =>
        if isRecording {
          StopRecording(recorded);
        }
        step := ItemPhotoStep;
      case ItemPhotoStep =>
        step := ItemNameStep;
      case ItemNameStep =>
        if |savedItems| > 0 {
          HandleFinish(store, categoryId, itemIds);
        } else {
          step := NameStep;
        }
      case NameStep =>
        left := true;
    }
  }

  /** A finished category is named, non-empty, and each card is labelled. */
  lemma FinishedCategoryWellFormed(categoryId: string, categoryName: string, saved: seq<PendingItem>, ids: seq<string>)
    requires |ids| == |saved| && saved != [] && Trim(categoryName) != ""
    requires AllSaveable(saved)
    ensures var c := NewCategory(categoryId, categoryName, saved, ids);
      && c.name != "" && Trimmed(c.name) && |c.items| >= 1
      && forall i :: 0 <= i < |c.items| ==> c.items[i].labelText != "" && Trimmed(c.items[i].labelText)
  {
    TrimIdempotent(categoryName);
  }
}
