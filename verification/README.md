# Whatsthat early words: a verified model of the app's core

Whatsthat is a flash-card app for toddlers. A carousel pages through word
cards of built-in and parent-made categories. A parental gate (a small sum,
difference or "which is bigger" question) guards the settings and the
upgrade screen. A wizard lets a parent make a custom category with photos
and recorded audio. This project models, in Dafny, the parts of that app
that decide what the child sees and what the parent may change:

- `math_questions.dfy`: the question generator of the parental gate. Random
  draws are a sequence of reals in [0, 1) given as input, and a run that
  needs more draws than it was given ends in `OutOfDraws`.
- `parent_lock.dfy`: the gate modal as a class. It holds the question, the
  tapped option, the "wrong" flag and the timers still pending.
- `app_context.dfy`: the shared store. It holds the settings, which are
  merged from partial updates, and the custom categories, with their
  upsert and remove operations.
- `settings_screen.dfy`: the settings screen's handlers, with the premium
  lock on the language pickers.
- `i18n.dfy`: the supported languages, string tables with their English
  fallback, and the dotted-key translation function `t`.
- `categories_seed.dfy`: the built-in catalogue of eight categories, as
  data, with facts proved about it.
- `learn.dfy`: the learn screen. It builds the slides (pages of at most six
  cards) and the category dots as the code does, and holds the scrolling
  state as a class. It proves that every dot starts on its own category's
  first slide while no enabled custom category is empty. An empty one
  breaks this (see Findings). For the corrected dots, which skip such a
  category, it holds always.
- `add_custom.dfy`: the four-step custom-category wizard as a class,
  including JavaScript's `trim()`.
- `types.dfy`: the shared records.

Two behaviours of the code are easy to miss:

- Closing the gate cancels neither pending timer. A success timer still
  calls `onSuccess`, and a retry timer still installs a new question.
- The options are shuffled by sorting with a random comparator, not by
  Fisher-Yates. The model only claims that the result is a permutation.

## Model

| member | source | states |
|---|---|---|
| MathQuestions.Scaled | lib/math-questions.ts:8 | `Math.floor(Math.random() * k)` lies in 0..k-1 |
| MathQuestions.ScaledReachesAll | lib/math-questions.ts:8 | every value 0..k-1 is produced by some draw |
| MathQuestions.CollectOptions | lib/math-questions.ts:42-47 | the loop ends with exactly three distinct options: the answer first, then two distractors, each the answer plus or minus an offset of 1..5 with the minus floored at zero; it uses up at least one draw |
| MathQuestions.Shuffle | lib/math-questions.ts:48 | the shuffled options are a permutation of the input, stay distinct, and never run out when there are as many draws as options |
| MathQuestions.ShuffleOptions | lib/math-questions.ts:41-49 | three distinct options; the answer is among them and every other one is a distractor of it |
| MathQuestions.SumQuestion | lib/math-questions.ts:10-18 | a sum question has both operands in 1..8, the sum as its answer, and three distinct non-negative options: the answer and two distractors of it |
| MathQuestions.DifferenceQuestion | lib/math-questions.ts:19-27 | a difference question has its answer in 2..9, a subtrahend from 1 to one below the answer, the minuend equal to their sum, and three distinct non-negative options: the answer and two distractors of it |
| MathQuestions.BiggerQuestion | lib/math-questions.ts:28-37 | a comparison question has two different numbers in 1..15, the larger as its answer, and exactly those two numbers, in some order, as its options |
| MathQuestions.ComparisonWellFormed | lib/math-questions.ts:32-36 | two different numbers in 1..15, in any order, make a well-formed comparison whose answer is one of its two options |
| MathQuestions.GenerateMathQuestion | lib/math-questions.ts:7-39 | every produced question is well formed: the question kind is the first draw scaled to three; the operands lie in the source's ranges; the answer is the sum, the difference or the larger of two different operands; the options are distinct and non-negative, hold the answer, and are three options around it for a sum or a difference and the two operands for a comparison |
| MathQuestions.DistractorNonNegative | lib/math-questions.ts:44-45 | a distractor of a non-negative answer is never negative |
| MathQuestions.NonNegativeOptions | lib/math-questions.ts:44-45 | every option of a non-negative answer is non-negative |
| MathQuestions.SumFacts | lib/math-questions.ts:10-18 | a sum question's answer is a + b and lies in 2..16 |
| MathQuestions.DifferenceFacts | lib/math-questions.ts:19-27 | a difference question has a > b >= 1 and answer a - b, so the answer is positive |
| MathQuestions.AnswerOnce | lib/math-questions.ts:36 | the correct answer appears exactly once among the options |
| ParentLock.OptionColor | components/ParentLockModal.tsx:66-72 | the success colour exactly when the tapped option is the answer; the error colour exactly when the tapped option is not the answer |
| ParentLock.AtMostOneHighlighted | components/ParentLockModal.tsx:66-72 | with distinct options, at most one button is coloured |
| ParentLock.ParentGate.constructor | components/ParentLockModal.tsx:15-25 | mounting visible regenerates the question; no selection, no timers, no success yet |
| ParentLock.ParentGate.SetVisible | components/ParentLockModal.tsx:19-25 | the gate is reset only when `visible` turns true; otherwise the question and selection stay |
| ParentLock.ParentGate.Render | components/ParentLockModal.tsx:51-92 | nothing is drawn while hidden; otherwise the prompt, one button per option with its colour and disabled flag, and "Try again!" exactly when the selection is wrong |
| ParentLock.ParentGate.PressOption | components/ParentLockModal.tsx:27-49 | a tap while hidden or already answered changes nothing; otherwise the option is selected, and a correct one schedules `onSuccess` while a wrong one sets the flag and schedules a new question |
| ParentLock.ParentGate.FireSuccess | components/ParentLockModal.tsx:35 | the success timer calls `onSuccess` once and changes nothing else |
| ParentLock.ParentGate.FireRetry | components/ParentLockModal.tsx:43-47 | the retry timer installs a new question and clears the selection and the flag |
| ParentLock.ParentGate.PressCancel | components/ParentLockModal.tsx:93 | cancelling hides the gate; pending timers stay pending |
| ParentLock.WrongThenRight | components/ParentLockModal.tsx:27-49 | a wrong tap, its retry and then a correct tap call `onSuccess` exactly once and leave no timer pending |
| AppContext.Merge | lib/app-context.tsx:61-67 | every field given in the update takes its new value and every other field keeps its old one |
| AppContext.MergeIdentityAndIdempotent | lib/app-context.tsx:61-67 | an empty update changes nothing; applying an update twice equals applying it once |
| AppContext.MergeComposes | lib/app-context.tsx:61-67 | two successive updates equal one combined update in which the later value of each field wins |
| AppContext.LoadedSettings | lib/app-context.tsx:52 | stored settings are laid over the defaults, so fields absent from storage take default values; with nothing stored the current settings stay |
| AppContext.FindIndex | lib/app-context.tsx:71 | the first position holding the id, or -1 exactly when no category has it |
| AppContext.RemoveById | lib/app-context.tsx:86 | the survivors are exactly the categories with another id |
| AppContext.RemoveByIdDistributes | lib/app-context.tsx:86 | removal keeps the survivors in order: it distributes over concatenation |
| AppContext.RemoveAbsentIsIdentity | lib/app-context.tsx:86 | removing an id nobody has changes nothing |
| AppContext.RemoveIdempotent | lib/app-context.tsx:84-90 | removing twice is removing once |
| AppContext.Upsert | lib/app-context.tsx:69-82 | a new id is appended; a known id has its first occurrence replaced in place and nothing else moves |
| AppContext.FreePlanLimit | app/custom-categories.tsx:33 | an add that the screen allows never takes a free user past three categories |
| AppContext.AppStore.constructor | lib/app-context.tsx:31-33 | default settings, no custom categories, not loaded |
| AppContext.AppStore.LoadData | lib/app-context.tsx:46-59 | settings as LoadedSettings; stored categories replace the list; the store is marked loaded |
| AppContext.AppStore.UpdateSettings | lib/app-context.tsx:61-67 | the settings become the merge and the categories are untouched |
| AppContext.AppStore.AddCustomCategory | lib/app-context.tsx:69-82 | the list becomes the upsert, computed by copying the list and overwriting one cell |
| AppContext.AppStore.RemoveCustomCategory | lib/app-context.tsx:84-90 | the list loses exactly the categories with that id |
| AppContext.AppStore.SyncPremium | lib/app-context.tsx:40-44 | a premium entitlement unlocks premium once; nothing else changes |
| SettingsScreen.ToggleSoundUpdate | app/settings.tsx:30-33 | the merged settings differ only in a flipped sound flag |
| SettingsScreen.SetVoiceStyleUpdate | app/settings.tsx:35-39 | ignored exactly in kiosk mode; otherwise only the voice style changes |
| SettingsScreen.ToggleKioskUpdate | app/settings.tsx:41-44 | kiosk mode flips and the kiosk category is always cleared |
| SettingsScreen.Without | app/settings.tsx:75 | the filtered list holds exactly the other ids |
| SettingsScreen.WithoutAbsent | app/settings.tsx:75 | filtering out an absent id changes nothing |
| SettingsScreen.ToggledIds | app/settings.tsx:72-76 | the id ends up disabled exactly when it was enabled; an enabled id is appended; other ids keep their membership |
| SettingsScreen.ToggleTwiceRestores | app/settings.tsx:70-78 | disabling and then enabling a category restores the list exactly |
| SettingsScreen.ToggleCategoryUpdate | app/settings.tsx:70-78 | only the disabled list changes, to the toggled list |
| SettingsScreen.LanguageLockedOnlyForPaidLanguages | app/settings.tsx:80-82 | a language is locked exactly when premium is off and the language is a supported one other than English |
| SettingsScreen.SelectLanguageUpdate | app/settings.tsx:80-86 | a locked language gives no update; otherwise only the text language changes |
| SettingsScreen.SelectVoiceLanguageUpdate | app/settings.tsx:88-94 | a locked language gives no update; otherwise only the voice language changes |
| SettingsScreen.Screen.constructor | app/settings.tsx:20-21 | both language lists start closed |
| SettingsScreen.Screen.ToggleSound | app/settings.tsx:30-33 | the store's sound flag flips and nothing else changes |
| SettingsScreen.Screen.SetVoiceStyle | app/settings.tsx:35-39 | the store is untouched in kiosk mode; otherwise only the voice style changes |
| SettingsScreen.Screen.ToggleKiosk | app/settings.tsx:41-44 | the store's kiosk flag flips and the kiosk category is cleared |
| SettingsScreen.Screen.ToggleCategory | app/settings.tsx:70-78 | the store's disabled list becomes the toggled list |
| SettingsScreen.Screen.PressLanguageRow | app/settings.tsx:154-157 | the text-language list toggles, the voice list closes, and at most one is open |
| SettingsScreen.Screen.PressVoiceLanguageRow | app/settings.tsx:176-179 | the voice-language list toggles, the text list closes, and at most one is open |
| SettingsScreen.Screen.SelectLanguage | app/settings.tsx:80-86 | a locked choice changes nothing and leaves the list open; a free one sets the language and closes the list |
| SettingsScreen.Screen.SelectVoiceLanguage | app/settings.tsx:88-94 | a locked choice changes nothing and leaves the list open; a free one sets the voice language and closes the list |
| I18n.SupportedLanguagesFacts | lib/i18n.ts:24-40 | fifteen languages with distinct codes; English comes first, and English is the only free one |
| I18n.FindLanguageIn | lib/i18n.ts:81 | an entry of the list with that code, or none exactly when no entry has it |
| I18n.FindLanguage | lib/i18n.ts:81 | a found language is a supported one with that code |
| I18n.GetLanguageMeta | lib/i18n.ts:80-82 | a supported code gives its own entry; any other code gives English |
| I18n.UnknownLanguageIsEnglish | lib/i18n.ts:76-78 | under a language code that has no table, every key translates exactly as it does in English |
| I18n.Split | lib/i18n.ts:85 | one more part than separators, and no part holds the separator |
| I18n.SplitThenJoin | lib/i18n.ts:85 | joining the parts of a split gives back the key |
| I18n.T | lib/i18n.ts:84-92 | a one-dot key is looked up as table and entry, and any other key in `ui`; each lookup tries the language, then English, then gives back the key; an empty string counts as missing; so a non-empty key never translates to "" |
| I18n.GetItemLabel | lib/i18n.ts:104-106 | the translated label when present and non-empty, else the fallback |
| I18n.GetCategoryName | lib/i18n.ts:108-110 | the translated name when present and non-empty, else the fallback |
| CategoriesSeed.CatalogueShape | lib/categories-seed.ts:4-282 | eight categories with distinct ids; each has at least one page, and every page holds six cards |
| CategoriesSeed.OnlyFamilyIsFree | lib/categories-seed.ts:198-217 | the family category is the only free one |
| CategoriesSeed.PageWordsOfFullPages | app/index.tsx:69-71 | full pages hold six words each |
| CategoriesSeed.TotalWordsOfFullPages | app/index.tsx:69-71 | a catalogue of full pages holds six words per page |
| CategoriesSeed.CatalogueTotalWords | app/index.tsx:69-71 | the home screen's word count of the built-in catalogue is 108 |
| CategoriesSeed.ShapesIdsListed | lib/categories-seed.ts:5-36 | the shapes cards have ids s1..s12, in order |
| CategoriesSeed.ColoursIdsListed | lib/categories-seed.ts:37-68 | the colours cards have ids c1..c12, in order |
| CategoriesSeed.AnimalsIdsListed | lib/categories-seed.ts:69-111 | the animals cards have ids a1..a18, in order |
| CategoriesSeed.FoodIdsListed | lib/categories-seed.ts:112-154 | the food cards have ids f1..f18, in order |
| CategoriesSeed.VehiclesIdsListed | lib/categories-seed.ts:155-197 | the vehicles cards have ids v1..v18, in order |
| CategoriesSeed.FamilyIdsListed | lib/categories-seed.ts:198-217 | the family cards have ids fm1..fm6, in order |
| CategoriesSeed.MyHouseIdsListed | lib/categories-seed.ts:218-249 | the house cards have ids h1..h12, in order |
| CategoriesSeed.NatureIdsListed | lib/categories-seed.ts:250-281 | the nature cards have ids n1..n12, in order |
| CategoriesSeed.CategoryIds | lib/categories-seed.ts:4-282 | each category's card ids are distinct and all carry the category's own prefix |
| CategoriesSeed.TaggedCategoriesDistinct | lib/categories-seed.ts:4-282 | categories whose ids carry distinct letter prefixes have no id in common |
| CategoriesSeed.CatalogueItemIdsDistinct | lib/categories-seed.ts:4-282 | no card id occurs twice in the whole catalogue |
| Learn.Chunks | app/learn.tsx:91-94 | every page holds one to six cards; there are no pages exactly when there are no cards |
| Learn.ChunksConcat | app/learn.tsx:91-94 | the pages, put back together, are the cards in order |
| Learn.ChunksCount | app/learn.tsx:91-94 | there are ceil(n/6) pages |
| Learn.ChunkItems | app/learn.tsx:91-94 | the loop that steps by six produces exactly the pages of Chunks |
| Learn.BuildSlides | app/learn.tsx:63-121 | the slides are the enabled seed categories' pages, then (with premium) the enabled custom categories' pages, then (without premium) one unlock slide |
| Learn.BuildSeedSlides | app/learn.tsx:67-86 | the seed loop produces the seed part of the slides |
| Learn.BuildCustomSlides | app/learn.tsx:88-111 | the custom loop produces the custom part of the slides |
| Learn.PushSeedPages | app/learn.tsx:69-85 | one built-in category adds all its pages with premium, and only its first page without |
| Learn.PushCustomPages | app/learn.tsx:91-109 | one custom category adds one slide per page of six, and nothing when it has no cards |
| Learn.SeedPartFacts | app/learn.tsx:67-86 | every seed slide is a card slide of an enabled built-in category, and without premium it is that category's first page |
| Learn.CustomPartFacts | app/learn.tsx:88-111 | every custom slide is a card slide of an enabled custom category |
| Learn.SlidesShape | app/learn.tsx:63-121 | without premium the last slide is the unlock slide and every other one is a first page of a built-in category; with premium every slide is a card slide; no slide belongs to a disabled category |
| Learn.CustomSlidesCount | app/learn.tsx:91-95 | a custom category gives ceil(n/6) slides, and none exactly when it has no cards |
| Learn.BuildSeedDots | app/learn.tsx:227-238 | the loop over the bundled categories yields one dot per enabled category, each at the running count of pages before it, and ends with the count of their pages |
| Learn.BuildCustomDots | app/learn.tsx:240-253 | the loop over the custom categories yields one dot per enabled category, each at the running count, and advances the count by max(1, ceil(n/6)) pages per category |
| Learn.BuildCategoryDots | app/learn.tsx:222-265 | the loops build exactly the memo as written: the bundled dots, then the custom dots when premium is unlocked, or the unlock dot at the end of the free pages otherwise |
| Learn.DotsAsWritten | app/learn.tsx:222-265 | every dot other than the unlock dot belongs to an enabled category; the unlock dot is present exactly when premium is off, and then it comes last, after the pages of the enabled built-in categories |
| Learn.SeedDotsAligned | app/learn.tsx:227-238 | the seed dots' running index counts exactly the seed slides, and each seed dot starts on its category's first slide |
| Learn.CustomDotsAligned | app/learn.tsx:240-253 | the same for the corrected custom dots, which skip an empty category |
| Learn.DotsAligned | app/learn.tsx:222-265 | every corrected dot starts on its own category's first slide, or on the unlock slide, so a tap on it shows that category |
| Learn.CatalogueHasPages | lib/categories-seed.ts:4-282 | every built-in category has a page |
| Learn.AsWrittenAgreesWhileNonEmpty | app/learn.tsx:240-253 | the dots as written equal the corrected dots whenever no enabled custom category is empty |
| Learn.AsWrittenAlignedWhileNonEmpty | app/learn.tsx:222-265 | while no enabled custom category is empty, every dot as written starts on its own category's first slide, or on the unlock slide |
| Learn.CustomAsWrittenAgrees | app/learn.tsx:243 | the same for the custom part and its span |
| Learn.EmptyThenOne | app/learn.tsx:240-253 | as written, an empty custom category followed by one with a single page of cards yields one slide but two dots, one page apart |
| Learn.EmptyCustomMisalignsDots | app/learn.tsx:243 | as written, an enabled empty custom category gets a dot on the next category's slide, and the next category's dot points past the last slide |
| Learn.CurrentSlide | app/learn.tsx:129 | the slide at the index, or the first slide when the index is out of range; none only when there are no slides |
| Learn.Carousel.constructor | app/learn.tsx:41 | the carousel starts on slide 0, holding the slides and the dots as written for the catalogue, the custom categories and the settings |
| Learn.Carousel.Rebuild | app/learn.tsx:123-127 | the slides and the dots as written are rebuilt; an index past the new end goes back to 0 |
| Learn.Carousel.OnScroll | app/learn.tsx:131-137 | an in-range new index becomes current; the slides and dots stay |
| Learn.Carousel.PressDot | app/learn.tsx:351-355 | a tap on a dot whose start is a slide scrolls there, and a tap on any other dot changes nothing; a dot that starts on its own category's first slide becomes the highlighted one (app/learn.tsx:338) |
| AddCustom.TrimStart | app/add-custom.tsx:76 | the result neither starts with white space nor is longer than the input, and it ends where the input ends |
| AddCustom.TrimEnd | app/add-custom.tsx:76 | the result neither ends with white space nor is longer than the input; it starts where the input starts, and is non-empty when the input starts with a visible character |
| AddCustom.TrimStartSuffix | app/add-custom.tsx:76 | what is kept is a suffix of the input, and everything dropped before it is white space |
| AddCustom.TrimEndPrefix | app/add-custom.tsx:76 | what is kept is a prefix of the input, and everything dropped after it is white space |
| AddCustom.Trim | app/add-custom.tsx:76 | the result neither starts nor ends with white space and is no longer than the input |
| AddCustom.TrimInfix | app/add-custom.tsx:76 | the trimmed string is the input between two positions, and everything outside them is white space |
| AddCustom.TrimBlank | app/add-custom.tsx:76 | the trimmed string is empty exactly when the input is all white space, which is what `!name.trim()` tests |
| AddCustom.TrimIdempotent | app/add-custom.tsx:192 | trimming a trimmed string changes nothing |
| AddCustom.WithoutIndex | app/add-custom.tsx:210 | an in-range index is removed and the rest keep their order; any other index changes nothing |
| AddCustom.BuildItems | app/add-custom.tsx:225-234 | one custom card per saved item, with its id and label, the palette colour at the item's index, the star icon of MaterialCommunityIcons, and its media |
| AddCustom.NewCategory | app/add-custom.tsx:236-241 | the category has the given id, the trimmed name, the local owner and one card per saved item |
| AddCustom.Pending | app/add-custom.tsx:191-196 | a name that is not all white space gives a non-empty label with nothing left to trim; the palette index is in range by its type |
| AddCustom.Wizard.constructor | app/add-custom.tsx:52-58 | the wizard starts on the name step with everything empty |
| AddCustom.Wizard.SetCategoryName | app/add-custom.tsx:308 | typing changes only the category name |
| AddCustom.Wizard.SetItemName | app/add-custom.tsx:335 | typing changes only the item name |
| AddCustom.Wizard.HandleNameNext | app/add-custom.tsx:74-81 | a blank name keeps the step; otherwise the wizard moves to the item-name step |
| AddCustom.Wizard.HandleItemNameNext | app/add-custom.tsx:83-90 | a blank item name keeps the step; otherwise the wizard moves to the photo step |
| AddCustom.Wizard.PickPhoto | app/add-custom.tsx:105-106 | a picked photo replaces the current one; a cancelled pick keeps it |
| AddCustom.Wizard.HandlePhotoNext | app/add-custom.tsx:133-135 | the wizard moves to the recording step |
| AddCustom.Wizard.StartRecording | app/add-custom.tsx:137-159 | recording starts only with the microphone permission |
| AddCustom.Wizard.StopRecording | app/add-custom.tsx:161-180 | recording stops, and a recorded file becomes the current audio |
| AddCustom.Wizard.HandleRecordNext | app/add-custom.tsx:190-207 | the current item is saved with its trimmed label, the draft is cleared, and the wizard goes back to the item-name step; saved labels are never blank |
| AddCustom.Wizard.HandleRemoveItem | app/add-custom.tsx:209-211 | the saved list loses the item at that index |
| AddCustom.Wizard.HandleFinish | app/add-custom.tsx:213-248 | with no saved items nothing happens; otherwise the new category is upserted into the store and the wizard leaves |
| AddCustom.Wizard.HandleBack | app/add-custom.tsx:250-270 | each step goes back one step, stopping a recording on the recording step; the item-name step with saved items finishes instead; the name step leaves. The typed item name and photo stay, and the screen stays on every step-back branch |
| AddCustom.FinishedCategoryWellFormed | app/add-custom.tsx:213-248 | a category the wizard finishes has a non-empty trimmed name and at least one card, and every card has a non-empty label |

## Left out

- Reading and writing AsyncStorage, JSON parsing and its failure path: what storage returned is a parameter of `LoadData`.
- Timer delays (300 ms, 800 ms): timers are events that the caller fires in any order.
- `Math.random()` is a sequence of draws given as input. `OutOfDraws` only means the given draws were too few: the source always has another draw.
- MathQuestions.Shuffle: the source sorts with a random comparator, whose order depends on the engine's sort. The model draws one position per step and claims only a permutation.
- Prompt text: the question is kept as a datatype (sum, difference or bigger) rather than its display string.
- Haptics, speech, audio playback, navigation (`router`), `Alert` and the keyboard: they produce no state the model keeps.
- Permissions, the image picker and the audio recorder: their outcomes (`granted`, the chosen URI, the recorded file) are parameters.
- The recording duration timer and the preview playback in the wizard.
- `randomUUID` ids of new categories and cards: they are parameters of `HandleFinish` and `HandleBack`.
- I18n.T: a key whose table is `meta`, and keys that reach JavaScript object prototype members, are not modelled. Only the `ui`, `categories` and `items` tables are looked up.
- `useTranslation` and the other `useMemo` wrappers: they only cache the functions modelled here.
- Category colours, slide keys, the page-number header text and the locked-category preview on the unlock slide: they are display data with no decision in them.
- The scroll offset's rounding to an index: `OnScroll` takes the index.
- The kiosk category picker and the category picker's open flag on the settings screen: they only show and hide lists.
- The `settings.disabledCategories || []` guard: the model's settings always hold a list.
- The upgrade screen, purchases and restoring them: `SyncPremium` takes the entitlement as a parameter.

## Findings

| source | as written | input that shows it | evidently intended | confidence | as-written member | corrected member |
|---|---|---|---|---|---|---|
| app/learn.tsx:243 | a custom category's dot advances the running slide index by max(1, ceil(n/6)), even when the category has no cards; the slide builder adds no slide for such a category (app/learn.tsx:95) | premium on, custom categories [A with no cards, B with one card], both enabled: A's dot starts on B's slide, and B's dot starts one past the last slide, so tapping it does not scroll | a category with no slides gets no dot, so every dot starts on its own category's first slide. The add wizard never saves an empty category, but the store's `addCustomCategory` and stored data accept one | not executed | Learn.EmptyCustomMisalignsDots | Learn.DotsAligned |
