/**
 * The wellness utilities of `src/lib/mental-health-utils.ts`: the entities,
 * the pure classifiers (crisis keywords, mood suggestions, mood colours,
 * affirmations) and the two stores kept in the browser's persistent storage
 * (the mood history and the journal).
 */
module MentalHealthUtils {
  import opened Wrappers
  import opened Collections
  import opened Text

  // ---------------------------------------------------------------------------
  // Entities
  // ---------------------------------------------------------------------------

  /** The closed set of moods a mood entry carries. */
  datatype Mood = Happy | Calm | Neutral | Worried | Sad

  /** The string key of a mood, as stored and as passed around by the pages. */
  function MoodName(m: Mood): string {
    match m
    case Happy => "happy"
    case Calm => "calm"
    case Neutral => "neutral"
    case Worried => "worried"
    case Sad => "sad"
  }

  /** The mood a string names, if it is one of the five keys. */
  function ParseMood(s: string): (r: Option<Mood>)
    ensures r.Some? ==> MoodName(r.value) == s
    ensures r.None? ==> forall m: Mood :: MoodName(m) != s
  {
    if s == "happy" then Some(Happy)
    else if s == "calm" then Some(Calm)
    else if s == "neutral" then Some(Neutral)
    else if s == "worried" then Some(Worried)
    else if s == "sad" then Some(Sad)
    else None
  }

  /** Every mood's key names that mood and no other. */
  lemma MoodNameRoundTrip(m: Mood)
    ensures ParseMood(MoodName(m)) == Some(m)
  {
  }

  /** One day's self-reported mood. */
  datatype MoodEntry = MoodEntry(dateISO: string, mood: Mood)

  /** One journal note; `id`, `date` and `timestamp` come from the clock. */
  datatype JournalEntry = JournalEntry(id: string, date: string, content: string, timestamp: int)

  datatype SuggestionKind = Music | Breathing | Affirmation

  /** A recommendation shown beside a mood or a chat reply. */
  datatype MoodSuggestion = MoodSuggestion(kind: SuggestionKind, payload: string)

  // ---------------------------------------------------------------------------
  // Constant tables
  // ---------------------------------------------------------------------------

  /** The phrases whose presence in a message signals a crisis. */
  const CrisisKeywords: seq<string> := [
    "suicide", "kill myself", "hopeless", "end it", "can't go on",
    "worthless", "hate myself", "want to die", "no point", "give up"
  ]

  const Affirmations: seq<string> := [
    "You are stronger than you know.",
    "This feeling is temporary, you are permanent.",
    "Your mental health matters, and so do you.",
    "It's okay to not be okay. You're not alone.",
    "You have survived difficult days before, you can do it again.",
    "Your feelings are valid, and seeking help is brave.",
    "One step at a time is still progress.",
    "You deserve kindness, especially from yourself.",
    "Your story isn't over yet. Keep writing.",
    "You are worthy of love and support."
  ]

  /** The colour shown for a day without a (known) mood. */
  const FallbackColor := "#e5e5e5"

  /** The number of days `saveMood` reads back and the number of slots it keeps. */
  const MoodHistoryDays := 30

  /** The number of journal entries kept. */
  const JournalCapacity := 50

  // ---------------------------------------------------------------------------
  // Crisis detection
  // ---------------------------------------------------------------------------

  /** `detectCrisis`: some keyword occurs in the lowercased text. */
  predicate DetectCrisis(text: string) {
    var lowerText := ToLower(text);
    exists i | 0 <= i < |CrisisKeywords| :: Contains(lowerText, CrisisKeywords[i])
  }

  /** The keyword list is written in lower case, so every keyword can match. */
  lemma KeywordsAreLowercase()
    ensures forall i :: 0 <= i < |CrisisKeywords| ==> ToLower(CrisisKeywords[i]) == CrisisKeywords[i]
  {
    forall i | 0 <= i < |CrisisKeywords|
      ensures ToLower(CrisisKeywords[i]) == CrisisKeywords[i]
    {
      ToLowerOfLower(CrisisKeywords[i]);
    }
  }

  /** Changing the case of any letter of the text never changes the verdict. */
  lemma CrisisIgnoresCase(t1: string, t2: string)
    requires SameIgnoringCase(t1, t2)
    ensures DetectCrisis(t1) == DetectCrisis(t2)
  {
    ToLowerIgnoresCase(t1, t2);
  }

  /** In particular the verdict is the same for the text in upper and in lower case. */
  lemma CrisisUnderCaseChange(t: string)
    ensures DetectCrisis(ToUpper(t)) == DetectCrisis(t)
    ensures DetectCrisis(ToLower(t)) == DetectCrisis(t)
  {
    CaseChangesAgree(t);
    CrisisIgnoresCase(ToUpper(t), t);
    CrisisIgnoresCase(ToLower(t), t);
  }

  /** Each keyword on its own, in any case, is detected. */
  lemma EveryKeywordDetected(i: nat)
    requires i < |CrisisKeywords|
    ensures DetectCrisis(CrisisKeywords[i])
    ensures DetectCrisis(ToUpper(CrisisKeywords[i]))
  {
    var k := CrisisKeywords[i];
    KeywordsAreLowercase();
    ContainsSelf(k);
    CrisisUnderCaseChange(k);
  }

  /** A detected text stays detected whatever is written before or after it. */
  lemma CrisisMonotone(a: string, t: string, b: string)
    requires DetectCrisis(t)
    ensures DetectCrisis(a + t + b)
  {
    var i :| 0 <= i < |CrisisKeywords| && Contains(ToLower(t), CrisisKeywords[i]);
    ToLowerAppend(a + t, b);
    ToLowerAppend(a, t);
    ContainsInContext(ToLower(a), ToLower(t), ToLower(b), CrisisKeywords[i]);
  }

  /** Lowercases a text whose only upper-case letter is its first character. */
  lemma LowerInitial(head: char, rest: string)
    requires NoUpper(rest)
    ensures ToLower([head] + rest) == [LowerChar(head)] + rest
  {
    ToLowerAppend([head], rest);
    ToLowerOfLower(rest);
  }

  /** The lowercase form of the first example phrase holds the keyword "hopeless". */
  lemma HopelessOccurs(lower: string)
    requires lower == "i feel hopeless today"
    ensures Contains(lower, CrisisKeywords[2])
  {
    assert OccursAt(lower, CrisisKeywords[2], 7);
  }

  /** A crisis phrase is detected. */
  lemma CrisisExampleHopeless(text: string)
    requires text == "I feel hopeless today"
    ensures DetectCrisis(text)
  {
    var rest := " feel hopeless today";
    assert NoUpper(rest);
    assert text == ['I'] + rest;
    LowerInitial('I', rest);
    HopelessOccurs(ToLower(text));
  }

  /** The lowercase form of the second example phrase holds no keyword. */
  lemma GreatHoldsNoKeyword(lower: string)
    requires lower == "i feel great today"
    ensures forall i :: 0 <= i < |CrisisKeywords| ==> !Contains(lower, CrisisKeywords[i])
  {
    assert forall p :: 0 <= p < |lower| ==> lower[p] in "i feltgrayod";
    forall i | 0 <= i < |CrisisKeywords|
      ensures !Contains(lower, CrisisKeywords[i])
    {
      // each keyword holds a letter that the text lacks
      var j := if i == 3 then 1 else if i == 9 then 2 else 0;
      assert CrisisKeywords[i][j] in "skhncwv";
      MissingCharNotContained(lower, CrisisKeywords[i], j);
    }
  }

  /** A benign phrase is not. */
  lemma CrisisExampleGreat(text: string)
    requires text == "I feel great today"
    ensures !DetectCrisis(text)
  {
    var rest := " feel great today";
    assert NoUpper(rest);
    assert text == ['I'] + rest;
    LowerInitial('I', rest);
    GreatHoldsNoKeyword(ToLower(text));
  }

  // ---------------------------------------------------------------------------
  // Suggestions, colours, affirmations
  // ---------------------------------------------------------------------------

  /** The payloads of the five suggestion records. */
  const HappyPayload := "Keep that positive energy flowing! You're doing great."
  const CalmPayload := "Your sense of peace is a strength. Embrace this moment."
  const NeutralPayload := "Try a quick breathing exercise to center yourself."
  const WorriedPayload := "Let's calm those worries with some deep breathing."
  const SadPayload := "Your feelings are valid. Remember, you're not alone in this."

  /** The fixed suggestion record of each mood. */
  function SuggestionOf(m: Mood): MoodSuggestion {
    match m
    case Happy => MoodSuggestion(Affirmation, HappyPayload)
    case Calm => MoodSuggestion(Affirmation, CalmPayload)
    case Neutral => MoodSuggestion(Breathing, NeutralPayload)
    case Worried => MoodSuggestion(Breathing, WorriedPayload)
    case Sad => MoodSuggestion(Affirmation, SadPayload)
  }

  /** The mood whose record `suggestForMood` returns: the named one, else `neutral`. */
  function ResolveMood(mood: string): Mood {
    ParseMood(mood).GetOr(Neutral)
  }

  /**
   * `suggestForMood`: a breathing exercise for a neutral or worried mood,
   * an affirmation otherwise; unknown strings are treated as neutral.
   */
  function SuggestForMood(mood: string): (r: MoodSuggestion)
    ensures r.kind == Breathing <==> ResolveMood(mood) in {Neutral, Worried}
    ensures r.kind == Affirmation <==> ResolveMood(mood) in {Happy, Calm, Sad}
    ensures ParseMood(mood).None? ==> r == SuggestionOf(Neutral)
  {
    match ParseMood(mood)
    case Some(m) => SuggestionOf(m)
    case None => SuggestionOf(Neutral)
  }

  /** Each of the five keys yields its own record, and the five are distinct. */
  lemma SuggestForKnownMood(m: Mood, n: Mood)
    ensures SuggestForMood(MoodName(m)) == SuggestionOf(m)
    ensures m != n ==> SuggestForMood(MoodName(m)) != SuggestForMood(MoodName(n))
  {
    MoodNameRoundTrip(m);
    MoodNameRoundTrip(n);
  }

  /** Any string that is not a mood key yields exactly the `neutral` record. */
  lemma SuggestForUnknownMood(mood: string)
    requires forall m: Mood :: MoodName(m) != mood
    ensures SuggestForMood(mood) == SuggestForMood("neutral")
  {
  }

  /** The colour token of each mood. */
  function ColorOf(m: Mood): string {
    match m
    case Happy => "hsl(var(--happy))"
    case Calm => "hsl(var(--calm))"
    case Neutral => "hsl(var(--neutral))"
    case Worried => "hsl(var(--worried))"
    case Sad => "hsl(var(--sad))"
  }

  /**
   * `moodToColor`: the mood's colour token, or the fallback grey for a
   * missing slot, the empty string and any unknown string.
   */
  function MoodToColor(mood: Option<string>): (r: string)
    ensures r == FallbackColor <==> mood.None? || ParseMood(mood.value).None?
    ensures mood.Some? && ParseMood(mood.value).Some? ==> r == ColorOf(ParseMood(mood.value).value)
  {
    match mood
    case None => FallbackColor
    case Some(s) =>
      if s == "" then FallbackColor
      else match ParseMood(s)
        case Some(m) => ColorOf(m)
        case None => FallbackColor
  }

  /** Distinct moods get distinct colours, none of them the fallback. */
  lemma MoodColorsDistinct(m: Mood, n: Mood)
    ensures MoodToColor(Some(MoodName(m))) == ColorOf(m) != FallbackColor
    ensures m != n ==> MoodToColor(Some(MoodName(m))) != MoodToColor(Some(MoodName(n)))
  {
    MoodNameRoundTrip(m);
    MoodNameRoundTrip(n);
  }

  /**
   * `getRandomAffirmation`, with `Math.floor(Math.random() * 10)` passed in
   * as `index`.
   */
  function GetRandomAffirmation(index: nat): (r: string)
    requires index < |Affirmations|
    ensures r in Affirmations
  {
    Affirmations[index]
  }

  // ---------------------------------------------------------------------------
  // Mood history: looking up stored entries by date
  // ---------------------------------------------------------------------------

  /** The error `getMoods` throws: reading `dateISO` of a stored `null`. */
  datatype MoodError = NullEntryRead

  /** The guarded test `m?.dateISO === date`: a non-null slot holding that date. */
  predicate HasDate(slot: Option<MoodEntry>, date: string) {
    slot.Some? && slot.value.dateISO == date
  }

  /** `findIndex(m => m?.dateISO === date)`: the first slot holding `date`, or -1. */
  function FindIndexByDate(slots: seq<Option<MoodEntry>>, date: string): (r: int)
    ensures -1 <= r < |slots|
    ensures r == -1 <==> forall k :: 0 <= k < |slots| ==> !HasDate(slots[k], date)
    ensures r != -1 ==> HasDate(slots[r], date) && forall k :: 0 <= k < r ==> !HasDate(slots[k], date)
  {
    if slots == [] then -1
    else if HasDate(slots[0], date) then 0
    else
      var k := FindIndexByDate(slots[1..], date);
      if k == -1 then -1 else k + 1
  }

  /**
   * The search of `getMoods` AS WRITTEN: `find(m => m.dateISO === date)`
   * reads the date of every element it passes, so a `null` met before a
   * match throws.
   */
  function FindByDate(stored: seq<Option<MoodEntry>>, date: string): (r: Result<Option<MoodEntry>, MoodError>)
    ensures r.Success? && r.value.Some? ==> r.value.value.dateISO == date && r.value in stored
  {
    if stored == [] then Success(None)
    else match stored[0]
      case None => Failure(NullEntryRead)
      case Some(m) => if m.dateISO == date then Success(Some(m)) else FindByDate(stored[1..], date)
  }

  /** The search with the null guard `m?.dateISO` that `saveMood` itself uses. */
  function FindByDateGuarded(stored: seq<Option<MoodEntry>>, date: string): (r: Option<MoodEntry>)
    ensures r.Some? ==> r.value.dateISO == date && r in stored
  {
    var k := FindIndexByDate(stored, date);
    if k == -1 then None else stored[k]
  }

  /** Position `j` holds the first stored entry dated `date`. */
  predicate IsFirstWithDate(stored: seq<Option<MoodEntry>>, date: string, j: int) {
    0 <= j < |stored| && HasDate(stored[j], date)
    && forall k :: 0 <= k < j ==> !HasDate(stored[k], date)
  }

  /** The guarded search finds the first entry with the date, and `null` when none has it. */
  lemma FindByDateGuardedIsFirst(stored: seq<Option<MoodEntry>>, date: string)
    ensures (forall k :: 0 <= k < |stored| ==> !HasDate(stored[k], date)) ==> FindByDateGuarded(stored, date) == None
    ensures forall j :: IsFirstWithDate(stored, date, j) ==> FindByDateGuarded(stored, date) == stored[j]
  {
    var k := FindIndexByDate(stored, date);
    forall j | IsFirstWithDate(stored, date, j)
      ensures FindByDateGuarded(stored, date) == stored[j]
    {
      assert k != -1;
    }
  }

  /** The search meets a stored `null` before any entry dated `date`. */
  ghost predicate NullBefore(stored: seq<Option<MoodEntry>>, date: string) {
    exists j :: 0 <= j < |stored| && stored[j].None? && NoneDatedBefore(stored, date, j)
  }

  /** Every slot before `j` holds an entry, and none of them is dated `date`. */
  ghost predicate NoneDatedBefore(stored: seq<Option<MoodEntry>>, date: string, j: int) {
    0 <= j <= |stored| && forall k :: 0 <= k < j ==> stored[k].Some? && stored[k].value.dateISO != date
  }

  /**
   * The unguarded search fails exactly when it meets a `null` before a match,
   * and otherwise agrees with the guarded one.
   */
  lemma {:induction false} FindByDateSpec(stored: seq<Option<MoodEntry>>, date: string)
    ensures FindByDate(stored, date).Failure? <==> NullBefore(stored, date)
    ensures !NullBefore(stored, date) ==> FindByDate(stored, date) == Success(FindByDateGuarded(stored, date))
  {
    if stored != [] {
      var tail := stored[1..];
      match stored[0]
      case None =>
        assert NoneDatedBefore(stored, date, 0);
      case Some(m) =>
        if m.dateISO != date {
          FindByDateSpec(tail, date);
          if NullBefore(tail, date) {
            var j :| 0 <= j < |tail| && tail[j].None? && NoneDatedBefore(tail, date, j);
            assert stored[j + 1].None? && NoneDatedBefore(stored, date, j + 1);
          }
          if NullBefore(stored, date) {
            var j :| 0 <= j < |stored| && stored[j].None? && NoneDatedBefore(stored, date, j);
            assert j > 0;
            assert tail[j - 1].None? && NoneDatedBefore(tail, date, j - 1);
          }
        }
    }
  }

  /**
   * `getMoods(days)` over the stored list, with the window of dates (today
   * first) passed in: one slot per day, or the error of the first failing
   * day's search.
   */
  function MoodsForWindow(stored: seq<Option<MoodEntry>>, window: seq<string>): (r: Result<seq<Option<MoodEntry>>, MoodError>)
    ensures r.Success? ==> |r.value| == |window|
    ensures r.Success? ==> forall i :: 0 <= i < |window| && r.value[i].Some? ==>
      r.value[i].value.dateISO == window[i] && r.value[i] in stored
  {
    if exists i | 0 <= i < |window| :: FindByDate(stored, window[i]).Failure? then Failure(NullEntryRead)
    else Success(seq(|window|, i requires 0 <= i < |window| => FindByDate(stored, window[i]).value))
  }

  /**
   * `getMoods` fails exactly when some day's search meets a `null` first;
   * otherwise it yields one slot per day, slot `i` holding the first stored
   * entry dated `window[i]`, or `null`.
   */
  lemma MoodsForWindowSpec(stored: seq<Option<MoodEntry>>, window: seq<string>)
    ensures MoodsForWindow(stored, window).Failure? <==> exists i :: 0 <= i < |window| && NullBefore(stored, window[i])
    ensures MoodsForWindow(stored, window).Success? ==>
      var slots := MoodsForWindow(stored, window).value;
      |slots| == |window| && forall i :: 0 <= i < |window| ==> slots[i] == FindByDateGuarded(stored, window[i])
  {
    forall i | 0 <= i < |window| {
      FindByDateSpec(stored, window[i]);
    }
  }

  /** An absent key reads as the empty list: every day has an empty slot. */
  lemma EmptyHistory(window: seq<string>)
    ensures MoodsForWindow([], window).Success?
    ensures |MoodsForWindow([], window).value| == |window|
    ensures forall i :: 0 <= i < |window| ==> MoodsForWindow([], window).value[i] == None
  {
  }

  // ---------------------------------------------------------------------------
  // Mood history: saving
  // ---------------------------------------------------------------------------

  /**
   * The list `saveMood` persists, given the slots `getMoods(30)` returned:
   * the first slot holding the entry's date is overwritten, otherwise the
   * entry is put in front; then the first 30 are kept.
   */
  function UpsertMood(slots: seq<Option<MoodEntry>>, entry: MoodEntry): (r: seq<Option<MoodEntry>>)
    ensures |r| <= MoodHistoryDays
    ensures |slots| <= MoodHistoryDays ==> Some(entry) in r
    ensures forall k :: 0 <= k < |r| && r[k] != Some(entry) ==> r[k] in slots
  {
    var existingIndex := FindIndexByDate(slots, entry.dateISO);
    var moods := if existingIndex != -1 then slots[existingIndex := Some(entry)] else [Some(entry)] + slots;
    var saved := Take(moods, MoodHistoryDays);
    assert forall k :: 0 <= k < |moods| && moods[k] != Some(entry) ==> moods[k] in slots by {
      forall k | 0 <= k < |moods| && moods[k] != Some(entry)
        ensures moods[k] in slots
      {
        if existingIndex != -1 {
          assert moods[k] == slots[k];
        } else {
          assert moods[k] == slots[k - 1];
        }
      }
    }
    assert |slots| <= MoodHistoryDays ==> Some(entry) in saved by {
      if |slots| <= MoodHistoryDays {
        var p := if existingIndex != -1 then existingIndex else 0;
        assert saved[p] == moods[p] == Some(entry);
      }
    }
    assert forall k :: 0 <= k < |saved| ==> saved[k] == moods[k];
    saved
  }

  /** Thirty slots in, thirty slots persisted. */
  lemma UpsertKeepsThirty(slots: seq<Option<MoodEntry>>, entry: MoodEntry)
    requires |slots| == MoodHistoryDays
    ensures |UpsertMood(slots, entry)| == MoodHistoryDays
  {
  }

  /** With a slot already holding the date, the first such slot is overwritten and no other. */
  lemma UpsertOverwrites(slots: seq<Option<MoodEntry>>, entry: MoodEntry, j: int)
    requires |slots| <= MoodHistoryDays
    requires IsFirstWithDate(slots, entry.dateISO, j)
    ensures var r := UpsertMood(slots, entry);
      |r| == |slots| && r[j] == Some(entry)
      && forall k :: 0 <= k < |slots| && k != j ==> r[k] == slots[k]
  {
    var k := FindIndexByDate(slots, entry.dateISO);
    assert k == j;
  }

  /** With no slot holding the date, the entry goes in front and the last slot is dropped. */
  lemma UpsertPrepends(slots: seq<Option<MoodEntry>>, entry: MoodEntry)
    requires forall k :: 0 <= k < |slots| ==> !HasDate(slots[k], entry.dateISO)
    ensures var r := UpsertMood(slots, entry);
      |r| == Min(|slots| + 1, MoodHistoryDays) && r[0] == Some(entry)
      && forall k :: 1 <= k < |r| ==> r[k] == slots[k - 1]
  {
  }

  /** No two stored entries share a date. */
  predicate DatesUnique(slots: seq<Option<MoodEntry>>) {
    forall a, b :: 0 <= a < b < |slots| && slots[a].Some? && slots[b].Some? ==>
      slots[a].value.dateISO != slots[b].value.dateISO
  }

  /** Saving keeps at most one entry per date. */
  lemma UpsertKeepsDatesUnique(slots: seq<Option<MoodEntry>>, entry: MoodEntry)
    requires |slots| <= MoodHistoryDays && DatesUnique(slots)
    ensures DatesUnique(UpsertMood(slots, entry))
  {
    var r := UpsertMood(slots, entry);
    var k := FindIndexByDate(slots, entry.dateISO);
    if k != -1 {
      UpsertOverwrites(slots, entry, k);
      forall a, b | 0 <= a < b < |r| && r[a].Some? && r[b].Some?
        ensures r[a].value.dateISO != r[b].value.dateISO
      {
        if a == k {
          assert r[b] == slots[b];
        } else if b == k {
          assert r[a] == slots[a];
        } else {
          assert r[a] == slots[a] && r[b] == slots[b];
        }
      }
    } else {
      UpsertPrepends(slots, entry);
      forall a, b | 0 <= a < b < |r| && r[a].Some? && r[b].Some?
        ensures r[a].value.dateISO != r[b].value.dateISO
      {
        assert r[b] == slots[b - 1];
        if a > 0 {
          assert r[a] == slots[a - 1];
        }
      }
    }
  }

  /** A history read over distinct dates holds at most one entry per date. */
  lemma WindowHistoryDatesUnique(stored: seq<Option<MoodEntry>>, window: seq<string>)
    requires forall a, b :: 0 <= a < b < |window| ==> window[a] != window[b]
    requires MoodsForWindow(stored, window).Success?
    ensures DatesUnique(MoodsForWindow(stored, window).value)
  {
  }

  /**
   * What a successful save over 30 distinct dates persists holds at most
   * one entry per date.
   */
  lemma SavedHistoryDatesUnique(stored: seq<Option<MoodEntry>>, window: seq<string>, entry: MoodEntry)
    requires |window| == MoodHistoryDays
    requires forall a, b :: 0 <= a < b < |window| ==> window[a] != window[b]
    requires MoodsForWindow(stored, window).Success?
    ensures DatesUnique(UpsertMood(MoodsForWindow(stored, window).value, entry))
  {
    WindowHistoryDatesUnique(stored, window);
    UpsertKeepsDatesUnique(MoodsForWindow(stored, window).value, entry);
  }

  // ---------------------------------------------------------------------------
  // The unguarded search after a save (as written) and the guarded one
  // ---------------------------------------------------------------------------

  /** The first save on an empty store persists the entry followed by 29 `null` slots. */
  lemma FirstSaveStoresNulls(entry: MoodEntry, window: seq<string>)
    requires |window| == MoodHistoryDays
    ensures MoodsForWindow([], window).Success?
    ensures UpsertMood(MoodsForWindow([], window).value, entry) == [Some(entry)] + seq(MoodHistoryDays - 1, i => None)
  {
    EmptyHistory(window);
    var slots := MoodsForWindow([], window).value;
    UpsertPrepends(slots, entry);
  }

  /**
   * As written, once the first save has happened, reading any day other than
   * the saved one throws: the search passes the saved entry and then meets a
   * `null`. So the history view fails, and so does every later save whose
   * 30-day window holds another date (leaving the store as it is).
   */
  lemma HistoryFailsAfterFirstSave(entry: MoodEntry, window: seq<string>, view: seq<string>, i: int)
    requires |window| == MoodHistoryDays
    requires 0 <= i < |view| && view[i] != entry.dateISO
    ensures MoodsForWindow([], window).Success?
    ensures MoodsForWindow(UpsertMood(MoodsForWindow([], window).value, entry), view).Failure?
  {
    FirstSaveStoresNulls(entry, window);
    var stored := UpsertMood(MoodsForWindow([], window).value, entry);
    assert stored[1].None? && NoneDatedBefore(stored, view[i], 1);
    MoodsForWindowSpec(stored, view);
  }

  /** `getMoods` with the guarded search `m?.dateISO === date`. */
  function MoodsForWindowGuarded(stored: seq<Option<MoodEntry>>, window: seq<string>): (r: seq<Option<MoodEntry>>)
    ensures |r| == |window|
    ensures forall i :: 0 <= i < |window| && r[i].Some? ==> r[i].value.dateISO == window[i] && r[i] in stored
  {
    seq(|window|, i requires 0 <= i < |window| => FindByDateGuarded(stored, window[i]))
  }

  /** The only slot that can hold `date` decides what the guarded search finds. */
  lemma GuardedFindsOnlyCandidate(stored: seq<Option<MoodEntry>>, date: string, p: int)
    requires 0 <= p < |stored|
    requires stored[p].None? || HasDate(stored[p], date)
    requires forall q :: 0 <= q < |stored| && q != p ==> !HasDate(stored[q], date)
    ensures FindByDateGuarded(stored, date) == stored[p]
  {
    FindByDateGuardedIsFirst(stored, date);
    if HasDate(stored[p], date) {
      assert IsFirstWithDate(stored, date, p);
    }
  }

  /** With the guarded search, a saved entry is what its date reads back. */
  lemma GuardedSaveThenRead(slots: seq<Option<MoodEntry>>, entry: MoodEntry)
    requires |slots| <= MoodHistoryDays
    ensures FindByDateGuarded(UpsertMood(slots, entry), entry.dateISO) == Some(entry)
  {
    var r := UpsertMood(slots, entry);
    var k := FindIndexByDate(slots, entry.dateISO);
    FindByDateGuardedIsFirst(r, entry.dateISO);
    if k != -1 {
      UpsertOverwrites(slots, entry, k);
      assert IsFirstWithDate(r, entry.dateISO, k);
    } else {
      UpsertPrepends(slots, entry);
      assert IsFirstWithDate(r, entry.dateISO, 0);
    }
  }

  /**
   * A date held by at most one slot (slot `j`, not the last) still reads
   * that slot after a save for another date.
   */
  lemma UpsertKeepsUniqueDate(slots: seq<Option<MoodEntry>>, entry: MoodEntry, d: string, j: int)
    requires |slots| == MoodHistoryDays
    requires 0 <= j < MoodHistoryDays - 1 && d != entry.dateISO
    requires slots[j].None? || HasDate(slots[j], d)
    requires forall q :: 0 <= q < |slots| && q != j ==> !HasDate(slots[q], d)
    ensures FindByDateGuarded(UpsertMood(slots, entry), d) == slots[j]
  {
    var r := UpsertMood(slots, entry);
    var k := FindIndexByDate(slots, entry.dateISO);
    if k != -1 {
      UpsertOverwrites(slots, entry, k);
      GuardedFindsOnlyCandidate(r, d, j);
    } else {
      UpsertPrepends(slots, entry);
      forall q | 0 <= q < |r| && q != j + 1
        ensures !HasDate(r[q], d)
      {
        if q > 0 {
          assert r[q] == slots[q - 1];
        }
      }
      GuardedFindsOnlyCandidate(r, d, j + 1);
    }
  }

  /** In the guarded history of distinct dates, only slot `j` can hold `window[j]`. */
  lemma GuardedWindowSlotsDistinct(stored: seq<Option<MoodEntry>>, window: seq<string>, j: int)
    requires forall a, b :: 0 <= a < b < |window| ==> window[a] != window[b]
    requires 0 <= j < |window|
    ensures var slots := MoodsForWindowGuarded(stored, window);
      forall q :: 0 <= q < |slots| && q != j ==> !HasDate(slots[q], window[j])
  {
    var slots := MoodsForWindowGuarded(stored, window);
    forall q | 0 <= q < |slots| && q != j
      ensures !HasDate(slots[q], window[j])
    {
      assert slots[q] == FindByDateGuarded(stored, window[q]);
      assert window[q] != window[j];
    }
  }

  /**
   * With the guarded search, saving one day's entry leaves every other day
   * of the window reading what it read before (except the oldest day, which
   * a prepend pushes out).
   */
  lemma GuardedSaveKeepsOtherDays(stored: seq<Option<MoodEntry>>, window: seq<string>, entry: MoodEntry, j: int)
    requires |window| == MoodHistoryDays
    requires forall a, b :: 0 <= a < b < |window| ==> window[a] != window[b]
    requires 0 <= j < MoodHistoryDays - 1 && window[j] != entry.dateISO
    ensures FindByDateGuarded(UpsertMood(MoodsForWindowGuarded(stored, window), entry), window[j])
         == FindByDateGuarded(stored, window[j])
  {
    var slots := MoodsForWindowGuarded(stored, window);
    GuardedWindowSlotsDistinct(stored, window, j);
    assert slots[j] == FindByDateGuarded(stored, window[j]);
    UpsertKeepsUniqueDate(slots, entry, window[j], j);
  }

  // ---------------------------------------------------------------------------
  // The persistent store
  // ---------------------------------------------------------------------------

  /**
   * The two keys of the browser's persistent storage: `mentalHealth_moods`
   * and `mentalHealth_journal`. `None` is a key that is absent.
   */
  class WellnessStore {
    var moods: Option<seq<Option<MoodEntry>>>
    var journal: Option<seq<JournalEntry>>

    /** A browser profile where neither key has been written. */
    constructor ()
      ensures moods == None && journal == None
    {
      moods := None;
      journal := None;
    }

    /** The stored mood list; an absent key reads as empty. */
    function StoredMoods(): seq<Option<MoodEntry>>
      reads this
    {
      moods.GetOr([])
    }

    /** The stored journal; an absent key reads as empty. */
    function StoredJournal(): seq<JournalEntry>
      reads this
    {
      journal.GetOr([])
    }

    /**
     * `getMoods(days)` with the `days` dates of the window passed in, today
     * first: builds one slot per day, throwing where the search meets a
     * stored `null` first.
     */
    method GetMoods(window: seq<string>) returns (r: Result<seq<Option<MoodEntry>>, MoodError>)
      ensures r == MoodsForWindow(StoredMoods(), window)
    {
      var stored := StoredMoods();
      var result: seq<Option<MoodEntry>> := [];
      var i := 0;
      while i < |window|
        invariant 0 <= i <= |window| && |result| == i
        invariant forall j :: 0 <= j < i ==> FindByDate(stored, window[j]) == Success(result[j])
      {
        var mood := FindByDate(stored, window[i]);
        if mood.Failure? {
          return Failure(NullEntryRead);
        }
        result := result + [mood.value];
        i := i + 1;
      }
      assert result == seq(|window|, j requires 0 <= j < |window| => FindByDate(stored, window[j]).value);
      return Success(result);
    }

    /**
     * `saveMood(entry)`, with the 30 dates of `getMoods(30)` passed in.
     * When that read throws, nothing is written.
     */
    method SaveMood(entry: MoodEntry, window: seq<string>) returns (r: Result<(), MoodError>)
      requires |window| == MoodHistoryDays
      modifies this`moods
      ensures r.Failure? <==> MoodsForWindow(old(StoredMoods()), window).Failure?
      ensures r.Failure? ==> moods == old(moods)
      ensures r.Success? ==> moods == Some(UpsertMood(MoodsForWindow(old(StoredMoods()), window).value, entry))
      ensures r.Success? ==> |StoredMoods()| == MoodHistoryDays
    {
      var got := GetMoods(window);
      if got.Failure? {
        return Failure(NullEntryRead);
      }
      var slots := got.value;
      MoodsForWindowSpec(StoredMoods(), window);
      var existingIndex := FindIndexByDate(slots, entry.dateISO);
      if existingIndex != -1 {
        slots := slots[existingIndex := Some(entry)];
      } else {
        slots := [Some(entry)] + slots;
      }
      moods := Some(Take(slots, MoodHistoryDays));
      return Success(());
    }

    /** The history reset of the mood page: removes the mood key. */
    method ResetMoods()
      modifies this`moods
      ensures moods == None && StoredMoods() == []
    {
      moods := None;
    }

    /**
     * The mood page's submit: nothing without a selected mood (`None` stands
     * for the empty selection), otherwise `saveMood` of today's entry.
     */
    method SubmitMood(selected: Option<Mood>, today: string, window: seq<string>) returns (r: Option<Result<(), MoodError>>)
      requires |window| == MoodHistoryDays
      modifies this`moods
      ensures selected.None? ==> r.None? && moods == old(moods)
      ensures selected.Some? ==> r.Some? && (r.value.Failure? <==> MoodsForWindow(old(StoredMoods()), window).Failure?)
      ensures selected.Some? && r.value.Failure? ==> moods == old(moods)
      ensures selected.Some? && r.value.Success? ==>
        moods == Some(UpsertMood(MoodsForWindow(old(StoredMoods()), window).value, MoodEntry(today, selected.value)))
    {
      if selected.None? {
        return None;
      }
      var saved := SaveMood(MoodEntry(today, selected.value), window);
      return Some(saved);
    }

    /** `getJournalEntries`: the whole stored journal, empty when the key is absent. */
    method GetJournalEntries() returns (r: seq<JournalEntry>)
      ensures r == StoredJournal()
      ensures journal.None? ==> r == []
    {
      r := if journal.None? then [] else journal.value;
    }

    /**
     * `saveJournalEntry(content)`, with the clock's id, date and timestamp
     * passed in: the new entry in front, at most 50 kept.
     */
    method SaveJournalEntry(content: string, id: string, date: string, timestamp: int)
      modifies this`journal
      ensures journal == Some(PrependCapped(old(StoredJournal()), JournalEntry(id, date, content, timestamp)))
    {
      var entries := GetJournalEntries();
      var newEntry := JournalEntry(id, date, content, timestamp);
      entries := [newEntry] + entries;
      journal := Some(Take(entries, JournalCapacity));
    }
  }

  // ---------------------------------------------------------------------------
  // Journal
  // ---------------------------------------------------------------------------

  /**
   * The journal `saveJournalEntry` persists: the new entry, then the old ones
   * in their order, cut to 50.
   */
  function PrependCapped(entries: seq<JournalEntry>, entry: JournalEntry): (r: seq<JournalEntry>)
    ensures |r| == Min(|entries| + 1, JournalCapacity)
    ensures r[0] == entry
    ensures r[1..] == entries[..|r| - 1]
  {
    Take([entry] + entries, JournalCapacity)
  }

  /** A full journal loses exactly its oldest entry. */
  lemma FullJournalEvictsOldest(entries: seq<JournalEntry>, entry: JournalEntry)
    requires |entries| == JournalCapacity
    ensures PrependCapped(entries, entry) == [entry] + entries[..JournalCapacity - 1]
  {
    var r := PrependCapped(entries, entry);
    assert r == [r[0]] + r[1..];
  }

  /** The journal after saving each entry of `news` in turn. */
  function SaveAllJournal(entries: seq<JournalEntry>, news: seq<JournalEntry>): (r: seq<JournalEntry>)
    ensures news == [] ==> r == entries
    ensures news != [] ==> 0 < |r| <= JournalCapacity && r[0] == news[|news| - 1]
    decreases |news|
  {
    if news == [] then entries else SaveAllJournal(PrependCapped(entries, news[0]), news[1..])
  }

  /**
   * Saving entries one by one leaves the newest first, then the old journal,
   * cut to 50: saving 51 into an empty journal keeps the last 50, newest first.
   */
  lemma {:induction false} SaveAllJournalIsNewestFirst(entries: seq<JournalEntry>, news: seq<JournalEntry>)
    requires |entries| <= JournalCapacity
    ensures SaveAllJournal(entries, news) == Take(Reverse(news) + entries, JournalCapacity)
    ensures |SaveAllJournal(entries, news)| == Min(|news| + |entries|, JournalCapacity)
    decreases |news|
  {
    if news == [] {
      assert Reverse(news) + entries == entries;
    } else {
      var rest := news[1..];
      SaveAllJournalIsNewestFirst(PrependCapped(entries, news[0]), rest);
      TakeOfAppendTake(Reverse(rest), [news[0]] + entries, JournalCapacity);
      assert Reverse(rest) + ([news[0]] + entries) == Reverse(news) + entries;
    }
  }
}
