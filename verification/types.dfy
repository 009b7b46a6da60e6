/**
 * The records of lib/types.ts, shared by every other module, and the
 * Option wrapper that stands for TypeScript's optional fields and
 * `undefined` results.
 */
module Types {

  datatype Option<+T> = None | Some(value: T)

  datatype IconFamily = MaterialCommunityIcons | Ionicons | MaterialIcons | FontAwesome | Feather

  /** One flash card: a bundled word, or a word recorded by a parent. */
  datatype Item = Item(
    id: string,
    labelText: string,   // `label` in the source (a Dafny keyword)
    icon: string,
    iconFamily: IconFamily,
    color: string,
    isCustom: bool,
    customImageUri: Option<string>,
    customAudioUri: Option<string>)

  /** A page of the bundled catalogue: the cards shown on one slide. */
  datatype Page = Page(id: string, items: seq<Item>)

  /** A bundled category; `isPremium` is false where the literal omits it. */
  datatype Category = Category(
    id: string,
    name: string,
    icon: string,
    iconFamily: IconFamily,
    pages: seq<Page>,
    isPremium: bool)

  /** A category built by a parent with the creation wizard. */
  datatype UserCustomCategory = UserCustomCategory(
    id: string,
    name: string,
    items: seq<Item>,
    ownerUserId: string)

  datatype VoiceStyle = Female | Male

  /** Language codes are kept as strings: stored settings may hold any string. */
  type LanguageCode = string

  datatype UserSettings = UserSettings(
    kioskModeEnabled: bool,
    premiumUnlocked: bool,
    soundEnabled: bool,
    voiceStyle: VoiceStyle,
    kioskCategoryId: Option<string>,
    language: LanguageCode,
    voiceLanguage: LanguageCode,
    disabledCategories: seq<string>)
}
