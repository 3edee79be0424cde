/**
 * The director agent: routes a learner's message to the specialist agent
 * that should answer it, by case-insensitive keyword search.
 * Confidences are hundredths (0.85 is 85).
 */
module Director {
  import opened Text

  datatype RoutingDecision = RoutingDecision(targetAgent: string, confidence: int, reasoning: string)

  /** A keyword decision at or above this confidence is taken as is. */
  const Threshold: int := 70

  const LearningKeywords: seq<string> := [
    "teach", "learn", "how do you say", "what is", "translate",
    "greeting", "greetings", "hello", "number", "numbers", "count", "counting",
    "phrase", "phrases", "vocabulary", "word", "words", "mean", "meaning",
    "culture", "cultural", "exercise", "practice", "quiz", "lesson",
    "hiligaynon", "ilonggo", "kumusta", "maayong", "salamat"]

  const ProgressKeywords: seq<string> := [
    "my progress", "my stats", "my score", "my level", "my streak", "achievement", "how am i doing"]

  const PronunciationKeywords: seq<string> := ["pronounce", "pronunciation guide", "accent", "how to say"]

  /** `_keyword_routing`: the first keyword group that occurs decides; otherwise the default. */
  function KeywordRouting(message: string): (r: RoutingDecision)
    ensures r.confidence >= Threshold
    ensures r.targetAgent == "conversation" || r.targetAgent == "progress"
  {
    var m := Lower(message);
    if ContainsAny(m, LearningKeywords) then
      RoutingDecision("conversation", 85, "Keyword match: learning/teaching request")
    else if ContainsAny(m, ProgressKeywords) then
      RoutingDecision("progress", 70, "Keyword match: progress-related")
    else if ContainsAny(m, PronunciationKeywords) then
      RoutingDecision("conversation", 80, "Keyword match: pronunciation-related (handled by conversation)")
    else
      RoutingDecision("conversation", 70, "Default routing to conversation agent")
  }

  /**
   * `route_message`: take the keyword decision when it is confident enough,
   * otherwise route to the conversation agent at 0.7.
   */
  function RouteMessage(message: string): (r: RoutingDecision)
    ensures r.confidence >= Threshold
  {
    var k := KeywordRouting(message);
    if k.confidence >= Threshold then k
    else RoutingDecision("conversation", 70, "Default routing to conversation agent")
  }

  /** The fallback branch of `route_message` is never taken: every keyword decision is confident. */
  lemma RouteMessageIsKeywordRouting(message: string)
    ensures RouteMessage(message) == KeywordRouting(message)
  {
  }

  /** Routing only ever targets the conversation agent or the progress agent. */
  lemma RouteTargets(message: string)
    ensures RouteMessage(message).targetAgent in {"conversation", "progress"}
  {
  }

  /** A learning keyword anywhere wins, whatever else the message says. */
  lemma {:induction false} LearningWins(message: string)
    ensures Mentions(message, LearningKeywords) <==>
      RouteMessage(message) == RoutingDecision("conversation", 85, "Keyword match: learning/teaching request")
  {
    MentionsIff(message, LearningKeywords);
  }

  /** The progress agent is chosen exactly when a progress keyword occurs and no learning keyword does. */
  lemma {:induction false} RoutesToProgressIff(message: string)
    ensures RouteMessage(message).targetAgent == "progress" <==>
      !Mentions(message, LearningKeywords) && Mentions(message, ProgressKeywords)
  {
    MentionsIff(message, LearningKeywords);
    MentionsIff(message, ProgressKeywords);
  }

  /** The pronunciation decision (0.8) needs a pronunciation keyword and neither earlier group. */
  lemma {:induction false} PronunciationIff(message: string)
    ensures RouteMessage(message).confidence == 80 <==>
      !Mentions(message, LearningKeywords) && !Mentions(message, ProgressKeywords)
      && Mentions(message, PronunciationKeywords)
  {
    MentionsIff(message, LearningKeywords);
    MentionsIff(message, ProgressKeywords);
    MentionsIff(message, PronunciationKeywords);
  }

  /** A message with no keyword at all gets the default conversation routing. */
  lemma {:induction false} DefaultIff(message: string)
    ensures RouteMessage(message) == RoutingDecision("conversation", 70, "Default routing to conversation agent") <==>
      !Mentions(message, LearningKeywords) && !Mentions(message, ProgressKeywords)
      && !Mentions(message, PronunciationKeywords)
  {
    MentionsIff(message, LearningKeywords);
    MentionsIff(message, ProgressKeywords);
    MentionsIff(message, PronunciationKeywords);
  }

  /** Routing ignores letter case: a message and its lower-cased form route alike. */
  lemma {:induction false} RouteIgnoresCase(message: string)
    ensures RouteMessage(Lower(message)) == RouteMessage(message)
  {
    LowerIdempotent(message);
  }
}
