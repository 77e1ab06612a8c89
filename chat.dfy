/**
 * The decision logic of the chat page, `src/pages/Chat.tsx`: the message
 * list, the send and quick-prompt handlers, the keyword cascade that picks a
 * reply, and saving a vent to the journal.
 */
module Chat {
  import opened Wrappers
  import opened Text
  import opened MentalHealthUtils
  import opened Collections

  /** One chat bubble; its `Date.now()` id is left out. */
  datatype Message = Message(text: string, isUser: bool, suggestion: Option<MoodSuggestion>)

  /** A one-tap prompt: the text it sends and the mood it stands for. */
  datatype QuickPrompt = QuickPrompt(text: string, mood: string)

  const WelcomeText := "Hi \U{1F44B} Welcome to MindfulSpace! How are you feeling today? I'm here to listen and support you."

  const QuickPrompts: seq<QuickPrompt> := [
    QuickPrompt("I feel stressed", "worried"),
    QuickPrompt("I'm feeling anxious", "worried"),
    QuickPrompt("I'm okay today", "calm"),
    QuickPrompt("I feel really sad", "sad"),
    QuickPrompt("I'm happy!", "happy")
  ]

  // ---------------------------------------------------------------------------
  // generateResponse: which branch a message takes
  // ---------------------------------------------------------------------------

  /** The branches of the reply cascade, in the order they are tried. */
  datatype Branch = Stress | Anxiety | Sadness | Positive | Okay | General

  /** The position of a branch in the cascade (0 is tried first). */
  function Rank(b: Branch): nat {
    match b
    case Stress => 0
    case Anxiety => 1
    case Sadness => 2
    case Positive => 3
    case Okay => 4
    case General => 5
  }

  /** The words each branch listens for; the general branch listens for none. */
  function BranchKeywords(b: Branch): seq<string> {
    match b
    case Stress => ["stressed", "stress"]
    case Anxiety => ["anxious", "anxiety"]
    case Sadness => ["sad", "depressed"]
    case Positive => ["happy", "good", "great"]
    case Okay => ["okay", "fine"]
    case General => []
  }

  /** One of the branch's words occurs in the lowercased input. */
  predicate Triggers(lowerInput: string, b: Branch) {
    exists i | 0 <= i < |BranchKeywords(b)| :: Contains(lowerInput, BranchKeywords(b)[i])
  }

  /** The if/else cascade of `generateResponse` over the lowercased input. */
  function Classify(lowerInput: string): Branch {
    if Contains(lowerInput, "stressed") || Contains(lowerInput, "stress") then Stress
    else if Contains(lowerInput, "anxious") || Contains(lowerInput, "anxiety") then Anxiety
    else if Contains(lowerInput, "sad") || Contains(lowerInput, "depressed") then Sadness
    else if Contains(lowerInput, "happy") || Contains(lowerInput, "good") || Contains(lowerInput, "great") then Positive
    else if Contains(lowerInput, "okay") || Contains(lowerInput, "fine") then Okay
    else General
  }

  /**
   * The first branch wins: the input takes branch `b` exactly when `b`
   * listens for a word in it (or is the general branch) and no branch
   * tried earlier does.
   */
  lemma ClassifyIsFirstTriggered(lowerInput: string, b: Branch)
    ensures Classify(lowerInput) == b <==>
      (b == General || Triggers(lowerInput, b))
      && forall c: Branch :: Rank(c) < Rank(b) ==> !Triggers(lowerInput, c)
  {
    var t := Triggers(lowerInput, Stress);
    assert t <==> Contains(lowerInput, "stressed") || Contains(lowerInput, "stress") by {
      assert BranchKeywords(Stress)[0] == "stressed" && BranchKeywords(Stress)[1] == "stress";
    }
    assert Triggers(lowerInput, Anxiety) <==> Contains(lowerInput, "anxious") || Contains(lowerInput, "anxiety") by {
      assert BranchKeywords(Anxiety)[0] == "anxious" && BranchKeywords(Anxiety)[1] == "anxiety";
    }
    assert Triggers(lowerInput, Sadness) <==> Contains(lowerInput, "sad") || Contains(lowerInput, "depressed") by {
      assert BranchKeywords(Sadness)[0] == "sad" && BranchKeywords(Sadness)[1] == "depressed";
    }
    assert Triggers(lowerInput, Positive) <==>
      Contains(lowerInput, "happy") || Contains(lowerInput, "good") || Contains(lowerInput, "great") by {
      assert BranchKeywords(Positive)[0] == "happy" && BranchKeywords(Positive)[1] == "good";
      assert BranchKeywords(Positive)[2] == "great";
    }
    assert Triggers(lowerInput, Okay) <==> Contains(lowerInput, "okay") || Contains(lowerInput, "fine") by {
      assert BranchKeywords(Okay)[0] == "okay" && BranchKeywords(Okay)[1] == "fine";
    }
    assert !Triggers(lowerInput, General);
  }

  /** A word that triggers a branch in `t` still triggers it with text around `t`. */
  lemma TriggersInContext(a: string, t: string, b: string, branch: Branch)
    requires Triggers(t, branch)
    ensures Triggers(a + t + b, branch)
  {
    var i :| 0 <= i < |BranchKeywords(branch)| && Contains(t, BranchKeywords(branch)[i]);
    ContainsInContext(a, t, b, BranchKeywords(branch)[i]);
  }

  /**
   * Writing more around a message can only move it to an earlier branch:
   * a message that takes a topic branch never falls through to a later one.
   */
  lemma ClassifyMonotone(a: string, t: string, b: string)
    ensures Rank(Classify(ToLower(a + t + b))) <= Rank(Classify(ToLower(t)))
  {
    var lt := ToLower(t);
    var lw := ToLower(a + t + b);
    ToLowerAppend(a + t, b);
    ToLowerAppend(a, t);
    assert lw == ToLower(a) + lt + ToLower(b);
    var bt := Classify(lt);
    ClassifyIsFirstTriggered(lt, bt);
    if bt != General {
      TriggersInContext(ToLower(a), lt, ToLower(b), bt);
      var bw := Classify(lw);
      ClassifyIsFirstTriggered(lw, bw);
      assert !(Rank(bt) < Rank(bw));
    }
  }

  // ---------------------------------------------------------------------------
  // generateResponse: the reply of each branch
  // ---------------------------------------------------------------------------

  /** The general replies, one picked by `Math.floor(Math.random() * 4)`. */
  const GeneralReplies: seq<string> := [
    "Thank you for sharing that with me. How can I support you today?",
    "I appreciate you opening up. Your feelings matter.",
    "I'm here to listen. Would you like to tell me more about how you're feeling?",
    "That sounds important. I'm glad you felt comfortable sharing it with me."
  ]

  /** The fixed replies of the five topic branches. */
  const StressReply := "I hear that you're feeling stressed. That's completely normal, and I'm here to help you through it."
  const AnxietyReply := "Anxiety can be overwhelming. Let's take this one step at a time together."
  const SadnessReply := "I'm sorry you're feeling sad. Your feelings are valid, and you don't have to go through this alone."
  const PositiveReply := "I'm so glad to hear you're feeling positive! It's wonderful when we can appreciate these moments."
  const OkayReply := "Thank you for sharing. Sometimes feeling 'okay' is enough, and that's perfectly fine."

  /** The bot's answer: its text and the suggestion card shown under it, if any. */
  datatype Reply = Reply(text: string, suggestion: Option<MoodSuggestion>)

  /** The mood whose suggestion a branch shows: none for the general branch. */
  function SuggestedMood(b: Branch): Option<Mood> {
    match b
    case Stress => Some(Worried)
    case Anxiety => Some(Worried)
    case Sadness => Some(Sad)
    case Positive => Some(Happy)
    case Okay => Some(Calm)
    case General => None
  }

  /**
   * The reply of each branch: a fixed text, and the suggestion of the
   * branch's mood (breathing for stress and anxiety, an affirmation for the
   * others); the general branch answers with one of the general replies and
   * no suggestion.
   */
  function ReplyFor(b: Branch, generalIndex: nat): (r: Reply)
    requires generalIndex < |GeneralReplies|
    ensures r.suggestion.None? <==> b == General
    ensures b == General ==> r.text == GeneralReplies[generalIndex]
    ensures b != General ==> r.text == [StressReply, AnxietyReply, SadnessReply, PositiveReply, OkayReply][Rank(b)]
    ensures r.suggestion.Some? ==> r.suggestion.value == SuggestionOf(SuggestedMood(b).value)
    ensures r.suggestion.Some? ==> (r.suggestion.value.kind == Breathing <==> b in {Stress, Anxiety})
  {
    SuggestForKnownMood(SuggestedMood(b).GetOr(Neutral), Neutral);
    var text := match b
      case Stress => StressReply
      case Anxiety => AnxietyReply
      case Sadness => SadnessReply
      case Positive => PositiveReply
      case Okay => OkayReply
      case General => GeneralReplies[generalIndex];
    var suggestion := match SuggestedMood(b)
      case None => None
      case Some(m) => Some(SuggestForMood(MoodName(m)));
    Reply(text, suggestion)
  }

  /**
   * `generateResponse(userInput)`, with the random pick among the general
   * replies passed in as `generalIndex`: the reply of the branch the
   * lowercased input takes.
   */
  function GenerateResponse(userInput: string, generalIndex: nat): Reply
    requires generalIndex < |GeneralReplies|
  {
    ReplyFor(Classify(ToLower(userInput)), generalIndex)
  }

  /** The reply depends on the input only up to case. */
  lemma GenerateResponseIgnoresCase(s: string, t: string, generalIndex: nat)
    requires generalIndex < |GeneralReplies|
    requires SameIgnoringCase(s, t)
    ensures GenerateResponse(s, generalIndex) == GenerateResponse(t, generalIndex)
  {
    ToLowerIgnoresCase(s, t);
  }

  /** The example of the cascade: stress outranks happiness. */
  lemma StressedButHappy(input: string, generalIndex: nat)
    requires input == "stressed but happy" && generalIndex < |GeneralReplies|
    ensures Classify(ToLower(input)) == Stress
    ensures GenerateResponse(input, generalIndex).suggestion == Some(SuggestForMood("worried"))
  {
    assert NoUpper(input);
    ToLowerOfLower(input);
    assert OccursAt(input, "stressed", 0);
    assert Classify(ToLower(input)) == Stress;
  }

  // ---------------------------------------------------------------------------
  // handleQuickPrompt and handleVentSave: fixed reply tables
  // ---------------------------------------------------------------------------

  const QuickDefaultReply := "Thank you for sharing how you're feeling."

  /** The moods the quick-prompt reply table knows. */
  const QuickReplyMoods: set<string> := {"worried", "sad", "happy", "calm"}

  /** The reply to a quick prompt, by its mood, with the default for any other mood. */
  function QuickReply(mood: string): (r: string)
    ensures r == QuickDefaultReply <==> mood !in QuickReplyMoods
  {
    if mood == "worried" then "I understand you're feeling stressed. Let's work through this together."
    else if mood == "sad" then "I'm here with you. It's okay to feel sad sometimes."
    else if mood == "happy" then "That's wonderful to hear! I'm happy you're feeling good."
    else if mood == "calm" then "It sounds like you're in a peaceful place today. That's great."
    else QuickDefaultReply
  }

  /** The five built-in prompts all have a reply of their own. */
  lemma QuickPromptsHaveReplies(i: nat)
    requires i < |QuickPrompts|
    ensures QuickPrompts[i].mood in QuickReplyMoods
    ensures QuickReply(QuickPrompts[i].mood) != QuickDefaultReply
  {
  }

  /** The replies after saving a vent, one picked at random. */
  const EmpathyReplies: seq<string> := [
    "Thank you for trusting me with your thoughts. Writing can be very healing.",
    "I've saved your thoughts safely. You've taken a brave step by expressing yourself.",
    "Your feelings are heard and valid. I'm proud of you for sharing.",
    "That took courage to write. Your emotional honesty is a strength."
  ]

  // ---------------------------------------------------------------------------
  // The chat page's state
  // ---------------------------------------------------------------------------

  /**
   * The state of the chat page: the message list, the text box, vent mode
   * with its text, and whether the crisis dialog is shown. A bot reply that
   * the page appends after a delay is appended here right after the user's
   * message.
   */
  class ChatSession {
    var messages: seq<Message>
    var input: string
    var isVentMode: bool
    var ventText: string
    var showCrisisModal: bool

    /** The page as it opens: the welcome message and empty fields. */
    constructor ()
      ensures messages == [Message(WelcomeText, false, None)]
      ensures input == "" && !isVentMode && ventText == "" && !showCrisisModal
    {
      messages := [Message(WelcomeText, false, None)];
      input := "";
      isVentMode := false;
      ventText := "";
      showCrisisModal := false;
    }

    /** `addMessage`: exactly one message more, at the end; the earlier ones stay. */
    method AddMessage(text: string, isUser: bool, suggestion: Option<MoodSuggestion>)
      modifies this`messages
      ensures messages == old(messages) + [Message(text, isUser, suggestion)]
      ensures messages[..|old(messages)|] == old(messages)
    {
      messages := messages + [Message(text, isUser, suggestion)];
    }

    /** Typing in the text box. */
    method SetInput(text: string)
      modifies this`input
      ensures input == text
    {
      input := text;
    }

    /** Typing in the vent box. */
    method SetVentText(text: string)
      modifies this`ventText
      ensures ventText == text
    {
      ventText := text;
    }

    /** The vent-mode button. */
    method ToggleVentMode()
      modifies this`isVentMode
      ensures isVentMode == !old(isVentMode)
    {
      isVentMode := !isVentMode;
    }

    /** The "Continue Chat" button of the crisis dialog. */
    method DismissCrisisModal()
      modifies this`showCrisisModal
      ensures !showCrisisModal
    {
      showCrisisModal := false;
    }

    /**
     * `handleSend`, with the random pick of a general reply passed in: a
     * blank input does nothing; otherwise the untrimmed input is appended as
     * the user's message, then the reply, the crisis dialog is raised exactly
     * when the input holds a crisis phrase, and the text box is cleared.
     */
    method HandleSend(generalIndex: nat)
      requires generalIndex < |GeneralReplies|
      modifies this`messages, this`input, this`showCrisisModal
      ensures IsBlank(old(input)) ==> unchanged(this)
      ensures !IsBlank(old(input)) ==>
        var reply := GenerateResponse(old(input), generalIndex);
        && messages == old(messages) + [Message(old(input), true, None), Message(reply.text, false, reply.suggestion)]
        && showCrisisModal == (old(showCrisisModal) || DetectCrisis(old(input)))
        && input == ""
    {
      if Trim(input) == "" {
        return;
      }
      ghost var before := messages;
      var sent := input;
      var reply := GenerateResponse(sent, generalIndex);
      AddMessage(sent, true, None);
      showCrisisModal := showCrisisModal || DetectCrisis(sent);
      AddMessage(reply.text, false, reply.suggestion);
      AppendTwice(before, Message(sent, true, None), Message(reply.text, false, reply.suggestion));
      input := "";
    }

    /**
     * `handleQuickPrompt`: the prompt's text as the user's message, then the
     * table's reply for its mood with that mood's suggestion.
     */
    method HandleQuickPrompt(prompt: QuickPrompt)
      modifies this`messages
      ensures messages == old(messages) + [
        Message(prompt.text, true, None),
        Message(QuickReply(prompt.mood), false, Some(SuggestForMood(prompt.mood)))
      ]
    {
      ghost var before := messages;
      AddMessage(prompt.text, true, None);
      var suggestion := SuggestForMood(prompt.mood);
      var response := QuickReply(prompt.mood);
      AddMessage(response, false, Some(suggestion));
      AppendTwice(before, Message(prompt.text, true, None), Message(response, false, Some(suggestion)));
    }

    /**
     * `handleVentSave`, with the clock's id, date and timestamp and the
     * random pick of an empathy reply passed in: a blank vent does nothing;
     * otherwise the untrimmed text is saved to the journal once, the vent box
     * is cleared, vent mode is left and one bot message without a suggestion
     * is appended.
     */
    method HandleVentSave(store: WellnessStore, empathyIndex: nat, id: string, date: string, timestamp: int)
      requires empathyIndex < |EmpathyReplies|
      modifies this`messages, this`ventText, this`isVentMode, store`journal
      ensures IsBlank(old(ventText)) ==> unchanged(this) && unchanged(store)
      ensures !IsBlank(old(ventText)) ==>
        && store.journal == Some(PrependCapped(old(store.StoredJournal()), JournalEntry(id, date, old(ventText), timestamp)))
        && ventText == "" && !isVentMode
        && messages == old(messages) + [Message(EmpathyReplies[empathyIndex], false, None)]
    {
      if Trim(ventText) == "" {
        return;
      }
      store.SaveJournalEntry(ventText, id, date, timestamp);
      ventText := "";
      isVentMode := false;
      var response := EmpathyReplies[empathyIndex];
      AddMessage(response, false, None);
    }
  }
}
