/**
 * The conversation agent: an ordered keyword dispatch to teaching handlers,
 * an LLM conversation with a bounded prompt list, and a keyword fallback
 * when the LLM is unavailable. The LLM is a parameter (`None` when there is
 * no client or the call fails); random picks are parameters too.
 */
module Conversation {
  import opened Wrappers
  import opened Text
  import opened Seqs
  import opened Hiligaynon
  import opened Models

  datatype Topic = Pronunciation | Culture | Quiz | Numbers | Phrases | GreetingsTopic | General

  const PronunciationKeywords: seq<string> := ["pronounce", "pronunciation", "how to say", "sound like"]
  const CultureKeywords: seq<string> := ["culture", "cultural", "tradition", "festival", "custom"]
  const ExerciseKeywords: seq<string> := ["exercise", "quiz", "test me", "practice quiz"]
  const NumberKeywords: seq<string> := ["number", "count", "counting", "how many", "pila"]
  const PhraseKeywords: seq<string> := ["phrase", "phrases", "useful phrase", "common phrase", "expression"]
  const GreetingKeywords: seq<string> := ["greeting", "greetings", "hello", "hi ", "good morning", "maayong", "kumusta"]

  /** The keyword groups of `respond`, in the order they are tested. */
  const TopicKeywords: seq<seq<string>> :=
    [PronunciationKeywords, CultureKeywords, ExerciseKeywords, NumberKeywords, PhraseKeywords, GreetingKeywords]

  /** The handler each keyword group selects, position by position. */
  const TopicOrder: seq<Topic> := [Pronunciation, Culture, Quiz, Numbers, Phrases, GreetingsTopic]

  /** The dispatch of `respond`: the first keyword group the message mentions, else general conversation. */
  function TopicOf(message: string): Topic {
    var k := FirstMentioned(message, TopicKeywords);
    if k < |TopicOrder| then TopicOrder[k] else General
  }

  /** A handler is chosen exactly when its group is mentioned and no earlier group is. */
  lemma {:induction false} TopicDispatchOrder(message: string, k: nat)
    requires k < |TopicOrder|
    ensures TopicOf(message) == TopicOrder[k] <==>
      Mentions(message, TopicKeywords[k]) && forall j :: 0 <= j < k ==> !Mentions(message, TopicKeywords[j])
  {
    var f := FirstMentioned(message, TopicKeywords);
    if TopicOf(message) == TopicOrder[k] {
      assert f == k;
    }
  }

  /** General conversation is used exactly when no keyword group is mentioned. */
  lemma {:induction false} GeneralIffNoKeyword(message: string)
    ensures TopicOf(message) == General <==> forall j :: 0 <= j < |TopicKeywords| ==> !Mentions(message, TopicKeywords[j])
  {
    var f := FirstMentioned(message, TopicKeywords);
    assert f < |TopicOrder| ==> TopicOrder[f] != General;
  }

  // ---------------------------------------------------------------------
  // Context, difficulty and vocabulary

  /** The optional `user_context` passed to `respond`: each key may be missing. */
  datatype AgentContext = AgentContext(level: Option<string>, targetLanguage: Option<string>)

  /** `user_context.get("level", current)`: the given level, or the current one when the key is missing. */
  function ContextLevel(ctx: Option<AgentContext>, current: string): (level: string)
    ensures ctx.Some? && ctx.value.level.Some? ==> level == ctx.value.level.value
    ensures !(ctx.Some? && ctx.value.level.Some?) ==> level == current
  {
    if ctx.Some? && ctx.value.level.Some? then ctx.value.level.value else current
  }

  /** `user_context.get("target_language", current)`. */
  function ContextLanguage(ctx: Option<AgentContext>, current: string): (language: string)
    ensures ctx.Some? && ctx.value.targetLanguage.Some? ==> language == ctx.value.targetLanguage.value
    ensures !(ctx.Some? && ctx.value.targetLanguage.Some?) ==> language == current
  {
    if ctx.Some? && ctx.value.targetLanguage.Some? then ctx.value.targetLanguage.value else current
  }

  /** The difficulty map of `_give_exercise`; unknown levels are beginner. */
  function DifficultyFor(level: string): (d: Difficulty) {
    if level == "elementary" then Elementary
    else if level == "intermediate" then Intermediate
    else if level == "advanced" then Advanced
    else Beginner
  }

  /** `DifficultyLevel.value`. */
  function DifficultyValue(d: Difficulty): string {
    match d
    case Beginner => "beginner"
    case Elementary => "elementary"
    case Intermediate => "intermediate"
    case Advanced => "advanced"
  }

  /** Every difficulty is reached from its own name, and only the four names reach anything but beginner. */
  lemma DifficultyForRoundTrip(d: Difficulty, level: string)
    ensures DifficultyFor(DifficultyValue(d)) == d
    ensures DifficultyFor(level) != Beginner ==> level == DifficultyValue(DifficultyFor(level))
  {
  }

  function PhraseEntry(p: Phrase): VocabEntry {
    VocabEntry(p.hiligaynon, p.english)
  }

  function WordEntry(w: VocabularyWord): VocabEntry {
    VocabEntry(w.word, w.english)
  }

  /** `_teach_greetings` vocabulary: the first five of the eight main greetings. */
  function GreetingVocabulary(): (v: seq<VocabEntry>)
    ensures |v| == 5
    ensures forall i :: 0 <= i < 5 ==> v[i] == VocabEntry(Greetings[i].hiligaynon, Greetings[i].english)
  {
    Map(Greetings[..8][..5], PhraseEntry)
  }

  /** `_teach_numbers` vocabulary: every number word, in table order. */
  function NumberVocabulary(): (v: seq<VocabEntry>)
    ensures |v| == |Vocabulary["numbers"]|
    ensures forall i :: 0 <= i < |v| ==> v[i] == VocabEntry(Vocabulary["numbers"][i].word, Vocabulary["numbers"][i].english)
  {
    Map(Vocabulary["numbers"], WordEntry)
  }

  /**
   * What `random.sample(COMMON_PHRASES, min(6, len(COMMON_PHRASES)))` can
   * return: six phrases of the table at distinct positions.
   */
  predicate ValidSample(sample: seq<Phrase>) {
    |sample| == (if |CommonPhrases| < 6 then |CommonPhrases| else 6)
    && (forall i :: 0 <= i < |sample| ==> sample[i] in CommonPhrases)
    && (forall i, j :: 0 <= i < j < |sample| ==> sample[i] != sample[j])
  }

  /** The random picks one reply may use. */
  datatype Choices = Choices(notePick: nat, exercisePick: nat, phraseSample: seq<Phrase>)

  // ---------------------------------------------------------------------
  // The LLM prompt list

  datatype PromptMessage = PromptMessage(role: string, content: string)

  /**
   * The system prompt template around its `{user_level}` slot: the line
   * that holds the slot, and the line break after it. The tutoring text
   * before and after that line is abstract.
   */
  const PromptHead: string := "## Current User Level: "
  const PromptTail: string := "\n"

  function SystemPrompt(level: string): string {
    PromptHead + level + PromptTail
  }

  /** The formatted system prompt names the learner's level. */
  lemma SystemPromptNamesLevel(level: string)
    ensures Contains(SystemPrompt(level), level)
  {
    var s := SystemPrompt(level);
    assert s[|PromptHead|..|PromptHead| + |level|] == level;
    assert OccursAt(s, level, |PromptHead|);
    ContainsAt(s, level);
  }

  function ToPrompt(m: ChatMessage): PromptMessage {
    PromptMessage(RoleValue(m.role), m.content)
  }

  function SystemMessage(level: string): PromptMessage {
    PromptMessage("system", SystemPrompt(level))
  }

  function UserPrompt(message: string): PromptMessage {
    PromptMessage("user", message)
  }

  /** The messages `_general_conversation` sends: system prompt, the last ten history entries, the user message. */
  function PromptList(level: string, history: seq<ChatMessage>, message: string): seq<PromptMessage> {
    [SystemMessage(level)] + Map(LastN(history, 10), ToPrompt) + [UserPrompt(message)]
  }

  /** A sequence framed by one element on each side: its length and its two ends. */
  lemma Framed<T>(first: T, middle: seq<T>, last: T)
    ensures |[first] + middle + [last]| == |middle| + 2
    ensures ([first] + middle + [last])[0] == first
    ensures ([first] + middle + [last])[|middle| + 1] == last
  {
  }

  /**
   * The prompt list holds the system prompt first and the user message
   * last, with `min(10, |history|)` history entries between them.
   */
  lemma PromptListShape(level: string, history: seq<ChatMessage>, message: string)
    ensures var p := PromptList(level, history, message);
      && |p| == 2 + (if |history| < 10 then |history| else 10)
      && 2 <= |p| <= 12
      && p[0] == SystemMessage(level) && p[0].role == "system"
      && p[|p| - 1] == UserPrompt(message) && p[|p| - 1].role == "user"
  {
    Framed(SystemMessage(level), Map(LastN(history, 10), ToPrompt), UserPrompt(message));
  }

  /** Between its two ends, a framed map of the newest ten entries holds those entries, oldest first. */
  lemma FramedRecent<T, U>(first: U, history: seq<T>, f: T -> U, last: U, i: nat)
    requires 1 <= i <= |LastN(history, 10)|
    ensures ([first] + Map(LastN(history, 10), f) + [last])[i] == f(history[|history| - |LastN(history, 10)| + (i - 1)])
  {
    var tail := LastN(history, 10);
    var middle := Map(tail, f);
    assert ([first] + middle + [last])[i] == middle[i - 1];
    assert tail[i - 1] == history[|history| - |tail| + (i - 1)];
  }

  /** The entries between the ends are the newest history entries, oldest first. */
  lemma PromptListMiddle(level: string, history: seq<ChatMessage>, message: string, i: nat)
    requires 1 <= i < |PromptList(level, history, message)| - 1
    ensures var n := |PromptList(level, history, message)| - 2;
      PromptList(level, history, message)[i] == ToPrompt(history[|history| - n + (i - 1)])
  {
    Framed(SystemMessage(level), Map(LastN(history, 10), ToPrompt), UserPrompt(message));
    FramedRecent(SystemMessage(level), history, ToPrompt, UserPrompt(message), i);
  }

  /** The loop of `_general_conversation` that appends the history entries one by one. */
  method AppendHistory(start: seq<PromptMessage>, recent: seq<ChatMessage>) returns (messages: seq<PromptMessage>)
    ensures messages == start + Map(recent, ToPrompt)
  {
    messages := start;
    var i := 0;
    while i < |recent|
      invariant 0 <= i <= |recent|
      invariant messages == start + Map(recent[..i], ToPrompt)
    {
      MapSnoc(recent, i, ToPrompt);
      messages := messages + [ToPrompt(recent[i])];
      i := i + 1;
    }
    assert recent[..i] == recent;
  }

  /** `_general_conversation`'s message list: system prompt, the last ten history entries, the user message. */
  method BuildMessages(level: string, history: seq<ChatMessage>, message: string) returns (messages: seq<PromptMessage>)
    ensures messages == PromptList(level, history, message)
  {
    messages := AppendHistory([SystemMessage(level)], LastN(history, 10));
    messages := messages + [UserPrompt(message)];
  }

  // ---------------------------------------------------------------------
  // The fallback responder

  datatype FallbackKind = Welcome | YoureWelcome | Farewell | Help

  const FallbackGreetWords: seq<string> := ["hello", "hi", "hey", "kumusta", "maayong"]
  const FallbackThanksWords: seq<string> := ["thank", "salamat"]
  const FallbackByeWords: seq<string> := ["bye", "goodbye", "paalam"]

  const FallbackGroups: seq<seq<string>> := [FallbackGreetWords, FallbackThanksWords, FallbackByeWords]
  const FallbackOrder: seq<FallbackKind> := [Welcome, YoureWelcome, Farewell]

  /** Which canned reply `_fallback_response` picks: greeting words, then thanks, then goodbye, else help. */
  function FallbackKindOf(message: string): FallbackKind {
    var k := FirstMentioned(message, FallbackGroups);
    if k < |FallbackOrder| then FallbackOrder[k] else Help
  }

  /** The first line of each canned reply (the rest of the text is abstract). */
  function FallbackText(kind: FallbackKind): string {
    match kind
    case Welcome => "**Maayong aga!** (mah-AH-yong AH-gah) - Good morning!"
    case YoureWelcome => "**Wala sapayan!** (wah-LAH sah-PAH-yahn) - You're welcome!"
    case Farewell => "**Paalam na!** (pah-AH-lahm nah) - Goodbye!"
    case Help => "**Maayo gid!** Let's learn Hiligaynon together!"
  }

  /** `_fallback_response`: a canned reply at 0.7 marked as fallback mode. */
  function FallbackResponse(message: string): (r: ChatResponse)
    ensures r.confidence == 70 && r.feedback == FallbackFeedback && r.agentType == "conversation"
    ensures r.vocabulary == [] && r.sessionId == None && r.routedTo == None
  {
    ChatResponse(FallbackText(FallbackKindOf(message)), "conversation", None, None, 70, FallbackFeedback, [])
  }

  /** Greeting words win over thanks and goodbye; thanks win over goodbye. */
  lemma {:induction false} FallbackOrderLemma(message: string)
    ensures FallbackKindOf(message) == Welcome <==> Mentions(message, FallbackGreetWords)
    ensures FallbackKindOf(message) == YoureWelcome <==>
      !Mentions(message, FallbackGreetWords) && Mentions(message, FallbackThanksWords)
    ensures FallbackKindOf(message) == Farewell <==>
      !Mentions(message, FallbackGreetWords) && !Mentions(message, FallbackThanksWords) && Mentions(message, FallbackByeWords)
    ensures FallbackKindOf(message) == Help <==>
      !Mentions(message, FallbackGreetWords) && !Mentions(message, FallbackThanksWords) && !Mentions(message, FallbackByeWords)
  {
    var f := FirstMentioned(message, FallbackGroups);
    assert FallbackGroups[0] == FallbackGreetWords && FallbackGroups[1] == FallbackThanksWords
      && FallbackGroups[2] == FallbackByeWords;
  }

  // ---------------------------------------------------------------------
  // Handler replies

  /** `_general_conversation` after the prompt list is built: the LLM reply at 0.9, else the fallback. */
  function GeneralReply(message: string, prompts: seq<PromptMessage>, level: string,
                        llm: seq<PromptMessage> -> Option<string>): (r: ChatResponse)
    ensures r.agentType == "conversation" && r.sessionId == None && r.routedTo == None
    ensures llm(prompts).Some? ==> r.confidence == 90 && r.message == llm(prompts).value && r.vocabulary == []
    ensures llm(prompts).None? ==> r == FallbackResponse(message)
  {
    match llm(prompts)
    case Some(text) => ChatResponse(text, "conversation", None, None, 90, GeneralFeedback(level, "hiligaynon"), [])
    case None => FallbackResponse(message)
  }

  /** The heading each teaching reply opens with (the body text is abstract). */
  function CultureHeading(note: CulturalNote): string {
    "**Cultural Insight: " + note.title + "**"
  }

  /** The reply of the teaching handler for a non-general topic, at 0.95. */
  function TeachingReply(topic: Topic, level: string, choices: Choices): (r: ChatResponse)
    requires topic != General
    ensures r.confidence == 95 && r.agentType == "conversation" && r.sessionId == None && r.routedTo == None
  {
    match topic
    case Pronunciation =>
      ChatResponse("**Hiligaynon Pronunciation Guide**", "conversation", None, None, 95,
        TopicFeedback("pronunciation", level), [])
    case Culture =>
      var note := CulturalNotes[choices.notePick % |CulturalNotes|];
      ChatResponse(CultureHeading(note), "conversation", None, None, 95, CultureFeedback(note.title), [])
    case Quiz =>
      var e := GetRandomExercise(DifficultyFor(level), choices.exercisePick);
      ChatResponse("**Practice Time!**\n\n**Question:** " + e.question, "conversation", None, None, 95,
        ExerciseFeedback(e.exerciseType, e.correctAnswer, e.explanation), [])
    case Numbers =>
      ChatResponse("**Let's count in Hiligaynon!**", "conversation", None, None, 95,
        TopicFeedback("numbers", level), NumberVocabulary())
    case Phrases =>
      ChatResponse("**Useful Hiligaynon Phrases**", "conversation", None, None, 95,
        TopicFeedback("common_phrases", level), Map(choices.phraseSample, PhraseEntry))
    case GreetingsTopic =>
      ChatResponse("**Maayong aga! Let's learn Hiligaynon greetings!**", "conversation", None, None, 95,
        TopicFeedback("greetings", level), GreetingVocabulary())
  }

  /** `respond` once the context is applied: dispatch on the topic. */
  function ResponseFor(message: string, history: seq<ChatMessage>, level: string,
                       llm: seq<PromptMessage> -> Option<string>, choices: Choices): (r: ChatResponse)
    ensures r.agentType == "conversation" && r.sessionId == None && r.routedTo == None
    ensures r.confidence == 70 || r.confidence == 90 || r.confidence == 95
  {
    var topic := TopicOf(message);
    if topic == General then GeneralReply(message, PromptList(level, history, message), level, llm)
    else TeachingReply(topic, level, choices)
  }

  /** Confidence tells the three paths apart: 0.95 for a handler, 0.9 for the LLM, 0.7 for the fallback. */
  lemma ConfidenceByPath(message: string, history: seq<ChatMessage>, level: string,
                         llm: seq<PromptMessage> -> Option<string>, choices: Choices)
    ensures var r := ResponseFor(message, history, level, llm, choices);
      && (r.confidence == 95 <==> TopicOf(message) != General)
      && (r.confidence == 90 <==> TopicOf(message) == General && llm(PromptList(level, history, message)).Some?)
      && (r.confidence == 70 <==> TopicOf(message) == General && llm(PromptList(level, history, message)).None?)
      && (r.confidence == 70 ==> r == FallbackResponse(message))
  {
  }

  /** Vocabulary comes only from the greeting, number and phrase handlers. */
  lemma VocabularyByTopic(message: string, history: seq<ChatMessage>, level: string,
                          llm: seq<PromptMessage> -> Option<string>, choices: Choices)
    requires ValidSample(choices.phraseSample)
    ensures var r := ResponseFor(message, history, level, llm, choices);
      && (TopicOf(message) == GreetingsTopic ==> r.vocabulary == GreetingVocabulary())
      && (TopicOf(message) == Numbers ==> r.vocabulary == NumberVocabulary())
      && (TopicOf(message) == Phrases ==>
            |r.vocabulary| == 6
            && (forall i :: 0 <= i < 6 ==>
                  r.vocabulary[i] == PhraseEntry(choices.phraseSample[i]) && choices.phraseSample[i] in CommonPhrases))
      && (TopicOf(message) !in {GreetingsTopic, Numbers, Phrases} ==> r.vocabulary == [])
  {
  }

  /** An exercise reply carries the answer key of an exercise at the learner's difficulty (or the first exercise). */
  lemma ExerciseMatchesLevel(message: string, history: seq<ChatMessage>, level: string,
                             llm: seq<PromptMessage> -> Option<string>, choices: Choices)
    requires TopicOf(message) == Quiz
    ensures var r := ResponseFor(message, history, level, llm, choices);
      exists e :: e in Exercises && (e.difficulty == DifficultyFor(level) || e == Exercises[0])
        && r.feedback == ExerciseFeedback(e.exerciseType, e.correctAnswer, e.explanation)
  {
    var e := GetRandomExercise(DifficultyFor(level), choices.exercisePick);
    GetExercisesComplete(DifficultyFor(level));
    assert e in Exercises;
  }

  // ---------------------------------------------------------------------
  // The agent

  class ConversationAgent {
    var targetLanguage: string
    var userLevel: string

    constructor(targetLanguage: string, userLevel: string)
      ensures this.targetLanguage == targetLanguage && this.userLevel == userLevel
    {
      this.targetLanguage := targetLanguage;
      this.userLevel := userLevel;
    }

    /**
     * `respond`: a given context overwrites the language and level it names
     * (missing keys keep the current values), then the message is answered
     * at the new level.
     */
    method Respond(message: string, history: seq<ChatMessage>, ctx: Option<AgentContext>,
                   llm: seq<PromptMessage> -> Option<string>, choices: Choices) returns (r: ChatResponse)
      modifies this
      ensures targetLanguage == ContextLanguage(ctx, old(targetLanguage))
      ensures userLevel == ContextLevel(ctx, old(userLevel))
      ensures r == ResponseFor(message, history, userLevel, llm, choices)
    {
      if ctx.Some? {
        if ctx.value.targetLanguage.Some? {
          targetLanguage := ctx.value.targetLanguage.value;
        }
        if ctx.value.level.Some? {
          userLevel := ctx.value.level.value;
        }
      }
      var topic := TopicOf(message);
      if topic == General {
        var prompts := BuildMessages(userLevel, history, message);
        r := GeneralReply(message, prompts, userLevel, llm);
      } else {
        r := TeachingReply(topic, userLevel, choices);
      }
    }
  }
}
