# MindfulSpace wellness core in Dafny

This project models the logic behind a browser-only mental-wellness
companion and proves properties of it. The app has a supportive chat, a
daily mood check-in with a short history, and a journal for "venting". All
its state lives in the browser's persistent storage, under two keys:

- `mentalHealth_moods`: the mood history, a list of at most 30 slots, each a
  mood entry or `null`;
- `mentalHealth_journal`: the journal, newest first, at most 50 entries.

The model follows the two core source files.

- `src/lib/mental-health-utils.ts` is modelled in module `MentalHealthUtils`
  (`mental_health_utils.dfy`). It holds:
  - the entities: the mood, the mood entry, the journal entry and the
    suggestion;
  - the pure classifiers: crisis-keyword detection, mood-to-suggestion,
    mood-to-colour and affirmation choice;
  - the class `WellnessStore`. Its two fields are the two storage keys, and
    `None` means the key is absent. `saveMood`, `getMoods`,
    `saveJournalEntry`, `getJournalEntries`, the history reset of the mood
    page and that page's submit guard are its methods.
- `src/pages/Chat.tsx` is modelled in module `Chat` (`chat.dfy`):
  - the keyword cascade of `generateResponse` is a pure function from the
    lowercased input to a branch, plus a function from branch to reply;
  - the quick-prompt reply table is a pure function;
  - the class `ChatSession` holds the page's state: the message list, the
    text box, vent mode and its text, and the crisis-dialog flag. Its
    methods are `addMessage`, `handleSend`, `handleQuickPrompt`,
    `handleVentSave` and the small input handlers.
- The string operations the code relies on are in module `Text`
  (`text.dfy`): `toLowerCase` on ASCII letters, `includes` and `trim`.
- Module `Collections` (`collections.dfy`) has `slice(0, n)` and a
  reversal used in proofs.
- Module `Wrappers` (`wrappers.dfy`) has `Option` and `Result`.

The clock and the random source are parameters:

- every date the code would compute from `new Date()` is passed in. For the
  mood history this is the window of date strings (today first) that
  `getMoods(days)` would produce;
- the journal entry's id, date and timestamp are passed in;
- each `Math.floor(Math.random() * n)` is an index argument in `[0, n)`.

`getMoods` can throw, as explained under "Findings", so it returns a
`Result`. `saveMood` writes nothing when its internal `getMoods(30)` throws.

Three facts about the code shape the model:

- A missing key reads as empty (so would an empty-string value, which the
  code never writes). A corrupt stored value does not: on it `JSON.parse`
  would throw, and that path is not modelled.
- `saveMood` can throw, through its call of `getMoods(30)` (see
  "Findings").
- After saves with distinct dates, a saved entry reads back only with the
  null guard: `GuardedSaveThenRead` and `GuardedSaveKeepsOtherDays` prove it
  for the guarded search, and `HistoryFailsAfterFirstSave` proves that the
  search as written fails.

## Model

| member | source | states |
|---|---|---|
| `MentalHealthUtils.ParseMood` | src/lib/mental-health-utils.ts:1-4 | a string names a mood exactly when it is one of the five keys, and then names that mood |
| `MentalHealthUtils.MoodNameRoundTrip` | src/lib/mental-health-utils.ts:1-4 | each mood's key string parses back to that mood |
| `MentalHealthUtils.DetectCrisis` | src/lib/mental-health-utils.ts:86-89 | `detectCrisis`: some keyword occurs in the lowercased text; its properties are the lemmas `CrisisIgnoresCase`, `CrisisUnderCaseChange`, `EveryKeywordDetected` and `CrisisMonotone` below |
| `MentalHealthUtils.KeywordsAreLowercase` | src/lib/mental-health-utils.ts:19-22 | every crisis keyword is already lower case, so lowercasing the text never hides one |
| `MentalHealthUtils.EveryKeywordDetected` | src/lib/mental-health-utils.ts:86-89 | each keyword on its own is detected, in lower and in upper case |
| `MentalHealthUtils.CrisisIgnoresCase` | src/lib/mental-health-utils.ts:86-89 | two texts that differ only in the case of letters get the same verdict |
| `MentalHealthUtils.CrisisUnderCaseChange` | src/lib/mental-health-utils.ts:86-89 | the verdict on a text equals the verdict on its upper-case and its lower-case form |
| `MentalHealthUtils.CrisisMonotone` | src/lib/mental-health-utils.ts:86-89 | a detected text stays detected with any text added before and after it |
| `MentalHealthUtils.CrisisExampleHopeless` | src/lib/mental-health-utils.ts:86-89 | "I feel hopeless today" is detected |
| `MentalHealthUtils.CrisisExampleGreat` | src/lib/mental-health-utils.ts:86-89 | "I feel great today" is not detected: no keyword occurs in it |
| `MentalHealthUtils.SuggestForMood` | src/lib/mental-health-utils.ts:92-117 | the suggestion is a breathing exercise exactly when the resolved mood is neutral or worried, an affirmation exactly when it is happy, calm or sad; an unknown string gets the neutral record |
| `MentalHealthUtils.SuggestForKnownMood` | src/lib/mental-health-utils.ts:92-117 | each of the five keys yields its fixed record, and different moods yield different records |
| `MentalHealthUtils.SuggestForUnknownMood` | src/lib/mental-health-utils.ts:116 | any string that is not a mood key yields exactly what `"neutral"` yields |
| `MentalHealthUtils.MoodToColor` | src/lib/mental-health-utils.ts:73-83 | the fallback grey comes exactly for a null slot, the empty string or an unknown string; a mood key gets its mood's token |
| `MentalHealthUtils.MoodColorsDistinct` | src/lib/mental-health-utils.ts:73-83 | the five moods get five distinct tokens, none equal to the fallback |
| `MentalHealthUtils.GetRandomAffirmation` | src/lib/mental-health-utils.ts:126-128 | with an index in range, the result is one of the ten affirmations |
| `MentalHealthUtils.FindIndexByDate` | src/lib/mental-health-utils.ts:41 | the guarded `findIndex` gives -1 exactly when no non-null slot holds the date, and otherwise the first slot that does |
| `MentalHealthUtils.FindByDate` | src/lib/mental-health-utils.ts:65 | when the unguarded `find` succeeds with an entry, that entry is stored and carries the date |
| `MentalHealthUtils.FindByDateGuarded` | src/lib/mental-health-utils.ts:41 | the null-guarded search returns only a stored entry carrying the date |
| `MentalHealthUtils.FindByDateGuardedIsFirst` | src/lib/mental-health-utils.ts:41 | the guarded search returns the first entry with the date, or null when none has it |
| `MentalHealthUtils.FindByDateSpec` | src/lib/mental-health-utils.ts:65 | the unguarded search fails exactly when it meets a stored null before any entry with the date; otherwise it returns what the guarded search returns |
| `MentalHealthUtils.MoodsForWindow` | src/lib/mental-health-utils.ts:53-70 | on success, one slot per day, and every entry found for day `i` is a stored entry dated `window[i]`; `MoodsForWindowSpec` characterises failure and the slots exactly |
| `MentalHealthUtils.MoodsForWindowSpec` | src/lib/mental-health-utils.ts:53-70 | `getMoods` fails exactly when some day's search meets a null first; on success it has one slot per day, slot `i` being the first stored entry dated `window[i]`, or null |
| `MentalHealthUtils.EmptyHistory` | src/lib/mental-health-utils.ts:54-55 | an absent key reads as an empty list: `getMoods` succeeds with a null for every day |
| `MentalHealthUtils.UpsertMood` | src/lib/mental-health-utils.ts:41-49 | the persisted list has at most 30 slots, holds the new entry when at most 30 came in, and every other slot is one of the old slots; `UpsertOverwrites` and `UpsertPrepends` state both branches exactly |
| `MentalHealthUtils.UpsertKeepsThirty` | src/lib/mental-health-utils.ts:40-49 | thirty slots in give exactly thirty slots persisted, whichever branch is taken |
| `MentalHealthUtils.UpsertOverwrites` | src/lib/mental-health-utils.ts:41-44 | when a slot holds the entry's date, the first such slot becomes the entry and every other slot stays as it was |
| `MentalHealthUtils.UpsertPrepends` | src/lib/mental-health-utils.ts:45-49 | when no slot holds the date, the entry becomes slot 0, the old slots move up by one and the list is cut to 30 |
| `MentalHealthUtils.UpsertKeepsDatesUnique` | src/lib/mental-health-utils.ts:41-49 | a save keeps at most one entry per date: no two slots of the result share a date when no two old slots did |
| `MentalHealthUtils.WindowHistoryDatesUnique` | src/lib/mental-health-utils.ts:60-67 | a successful read over distinct dates holds at most one entry per date |
| `MentalHealthUtils.SavedHistoryDatesUnique` | src/lib/mental-health-utils.ts:39-50 | what a successful save over 30 distinct dates persists holds at most one entry per date |
| `MentalHealthUtils.FirstSaveStoresNulls` | src/lib/mental-health-utils.ts:39-50 | the first save on an empty store persists the entry followed by 29 null slots |
| `MentalHealthUtils.HistoryFailsAfterFirstSave` | src/lib/mental-health-utils.ts:39-69 | after that first save, reading any window that contains another day fails; in particular every later save fails |
| `MentalHealthUtils.MoodsForWindowGuarded` | src/lib/mental-health-utils.ts:60-67 | the corrected read with the :41 guard: one slot per day, each found entry a stored entry dated that day; `GuardedSaveThenRead` and `GuardedSaveKeepsOtherDays` state what it reads after a save |
| `MentalHealthUtils.GuardedSaveThenRead` | src/lib/mental-health-utils.ts:39-50 | with the guarded search, the date of a saved entry reads back that entry |
| `MentalHealthUtils.UpsertKeepsUniqueDate` | src/lib/mental-health-utils.ts:39-50 | with the guarded search, a date held only by slot `j` (not the last) reads the same slot after a save for another date |
| `MentalHealthUtils.GuardedSaveKeepsOtherDays` | src/lib/mental-health-utils.ts:39-69 | with the guarded search and 30 distinct dates, saving one day leaves each other day (but the oldest) reading what it read before |
| `MentalHealthUtils.PrependCapped` | src/lib/mental-health-utils.ts:131-142 | the new journal has length `min(old + 1, 50)`, the new entry first, then the old entries in their order |
| `MentalHealthUtils.FullJournalEvictsOldest` | src/lib/mental-health-utils.ts:140-141 | saving into a full journal drops exactly the oldest entry |
| `MentalHealthUtils.SaveAllJournal` | src/lib/mental-health-utils.ts:131-142 | repeated saves: with no entry saved the journal is as it was; after at least one it has between 1 and 50 entries, the last saved first; `SaveAllJournalIsNewestFirst` gives the whole result |
| `MentalHealthUtils.SaveAllJournalIsNewestFirst` | src/lib/mental-health-utils.ts:131-142 | saving entries one after another leaves the newest first, then the old journal, cut to 50; so 51 saves keep the last 50 |
| `MentalHealthUtils.WellnessStore.constructor` | src/lib/mental-health-utils.ts:54-55 | a fresh profile has neither storage key |
| `MentalHealthUtils.WellnessStore.GetMoods` | src/lib/mental-health-utils.ts:53-70 | the loop builds exactly the result of the day-by-day lookup, failing when a day's search fails |
| `MentalHealthUtils.WellnessStore.SaveMood` | src/lib/mental-health-utils.ts:39-50 | fails exactly when its read of 30 days fails, and then writes nothing; otherwise persists the upsert of the entry into those slots, which has 30 elements |
| `MentalHealthUtils.WellnessStore.ResetMoods` | src/pages/Mood.tsx:62-64 | the mood key is removed, so the stored history reads as empty |
| `MentalHealthUtils.WellnessStore.SubmitMood` | src/pages/Mood.tsx:39-48 | without a selected mood nothing happens; otherwise the result is that of saving today's entry |
| `MentalHealthUtils.WellnessStore.GetJournalEntries` | src/lib/mental-health-utils.ts:145-148 | returns the stored journal, empty when the key is absent |
| `MentalHealthUtils.WellnessStore.SaveJournalEntry` | src/lib/mental-health-utils.ts:131-142 | persists the new entry, with the content unchanged, in front of the old journal, cut to 50 |
| `Text.Trim` | src/pages/Chat.tsx:58 | the trimmed text is empty exactly when the text is made only of white space |
| `Chat.Classify` | src/pages/Chat.tsx:79-94 | the branch picked by the `if`/`else` cascade over the lowercased input; its properties are the lemmas `ClassifyIsFirstTriggered` and `ClassifyMonotone` below |
| `Chat.ClassifyIsFirstTriggered` | src/pages/Chat.tsx:79-94 | a message takes a branch exactly when that branch's words occur in it (or it is the general branch) and no earlier branch's words do: stress, then anxiety, sadness, positive, okay |
| `Chat.ClassifyMonotone` | src/pages/Chat.tsx:74-94 | adding text around a message can only move it to an earlier branch |
| `Chat.ReplyFor` | src/pages/Chat.tsx:78-103 | only the general branch has no suggestion, and it answers with the chosen general reply; each topic branch answers with its own fixed text whatever the random pick, and shows the fixed suggestion record of its mood (`suggestForMood` of the mood's key), a breathing exercise exactly for stress and anxiety |
| `Chat.GenerateResponse` | src/pages/Chat.tsx:73-108 | `generateResponse`: the reply of the branch the lowercased input takes; `ReplyFor` states each branch's text and suggestion, and `GenerateResponseIgnoresCase` and `StressedButHappy` state the properties of the whole |
| `Chat.GenerateResponseIgnoresCase` | src/pages/Chat.tsx:73-74 | messages that differ only in letter case get the same reply |
| `Chat.StressedButHappy` | src/pages/Chat.tsx:79-90 | "stressed but happy" takes the stress branch and shows the worried suggestion |
| `Chat.QuickReply` | src/pages/Chat.tsx:114-121 | the default reply comes exactly for a mood outside `worried`, `sad`, `happy`, `calm` |
| `Chat.QuickPromptsHaveReplies` | src/pages/Chat.tsx:35-41 | every built-in quick prompt's mood is in the reply table, so none gets the default |
| `Chat.ChatSession.constructor` | src/pages/Chat.tsx:22-32 | the page opens with the welcome message, empty fields, vent mode off and no crisis dialog |
| `Chat.ChatSession.AddMessage` | src/pages/Chat.tsx:47-55 | exactly one message is appended and every earlier message stays |
| `Chat.ChatSession.SetInput` | src/pages/Chat.tsx:249 | the text box holds what was typed |
| `Chat.ChatSession.SetVentText` | src/pages/Chat.tsx:236 | the vent box holds what was typed |
| `Chat.ChatSession.ToggleVentMode` | src/pages/Chat.tsx:220 | vent mode flips |
| `Chat.ChatSession.DismissCrisisModal` | src/pages/Chat.tsx:281 | the crisis dialog is hidden |
| `Chat.ChatSession.HandleSend` | src/pages/Chat.tsx:57-71 | a blank input changes nothing; otherwise the untrimmed input is appended as a user message, then the reply, the crisis dialog is raised exactly when the input holds a crisis phrase, and the text box is cleared |
| `Chat.ChatSession.HandleQuickPrompt` | src/pages/Chat.tsx:110-126 | appends the prompt text, then the table's reply with the suggestion of the prompt's mood |
| `Chat.ChatSession.HandleVentSave` | src/pages/Chat.tsx:128-144 | a blank vent changes nothing; otherwise the untrimmed text is saved to the journal once, the vent box is cleared, vent mode is left and one bot message without a suggestion is appended |

## Left out

- Rendering: the JSX of every page, `src/pages/Index.tsx`, `src/pages/Resources.tsx` and `src/components/Navbar.tsx` are layout and static text.
- `HELPLINES` is static contact data. The crisis dialog renders its first two entries and the resources page renders all of them, and `src/components/HelplineButton.tsx` joins them into `alert` text. Rendering and `alert` are not modelled.
- `formatDateLabel` depends on the locale's `toLocaleDateString`.
- The clock: the date window of `getMoods` and the today of the mood page are parameters. The local-time arithmetic and UTC formatting that produce them are not modelled, and neither is the relation between the window and today.
- Ids from `Date.now()`: journal ids and timestamps are parameters; chat messages carry no id. Uniqueness of ids is not claimed.
- Randomness: each random pick is an index argument.
- `setTimeout` delays, React state batching and `scrollIntoView`: a delayed bot reply is appended right after the user's message. Messages that could appear between the two on the page are not modelled.
- Serialization: `JSON.stringify` and `JSON.parse` are left out, so values read back are the values written. Corrupt stored data, on which `JSON.parse` would throw, is not modelled.
- JavaScript prototype keys (`"toString" in colors`, `suggestions["constructor"]`): the key domain is the five mood names and nothing else.
- Unicode case mapping: `toLowerCase` is modelled on ASCII letters only.
- Races between browser tabs writing the same key.
- The mood page after a save: it reloads the 7-day history, shows the suggestion for the saved mood and shows a toast. After a reset it reloads the history and shows a toast. Only the submit guard, the save and the removal of the key are modelled. The failure of the reload after the first save is covered by `HistoryFailsAfterFirstSave`.
- `MentalHealthUtils.WellnessStore.SubmitMood`: the selected mood is an `Option<Mood>` (`None` for the empty selection). The page's `selectedMood as any` cast of other strings cannot happen through its buttons.
- The `music` suggestion kind is declared, but nothing produces it.

## Findings

| source | as written | input that shows it | evidently intended | confidence | as-written member | corrected member |
|---|---|---|---|---|---|---|
| src/lib/mental-health-utils.ts:65 | `saveMood` (:40-49) persists the 30 slots of `getMoods(30)`, including their `null` placeholders. `getMoods` then searches with `m => m.dateISO === dateISO`, which reads `dateISO` of a `null` and throws | empty storage; save an entry for today D0 with the window D0..D29; reload the 7-day history. The search for D1 passes the saved entry, meets the `null` in slot 1 and throws. Every later save throws too, so the store stays stuck until reset | the null guard `m?.dateISO` that `saveMood` already uses at :41: then a saved entry reads back, and the other days keep their values | high; not executed | `MentalHealthUtils.HistoryFailsAfterFirstSave` | `MentalHealthUtils.GuardedSaveThenRead` |

`WellnessStore.GetMoods` and `WellnessStore.SaveMood` model the code as
written. The corrected search `FindByDateGuarded` and the lemmas
`GuardedSaveThenRead` and `GuardedSaveKeepsOtherDays` state the behaviour
the authors evidently intended.
