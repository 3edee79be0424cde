/**
 * Backend records: chat messages, requests and responses, user profiles and
 * sessions. Timestamps are opaque integers supplied by the caller.
 * Confidences are hundredths (0.9 is 90).
 */
module Models {
  import opened Wrappers

  datatype Role = User | Assistant | System

  /** The string value of a role (`MessageRole.value`). */
  function RoleValue(role: Role): string {
    match role
    case User => "user"
    case Assistant => "assistant"
    case System => "system"
  }

  datatype ChatMessage = ChatMessage(role: Role, content: string, timestamp: int)

  /** One `{"word": ..., "translation": ...}` entry of a response's vocabulary. */
  datatype VocabEntry = VocabEntry(word: string, translation: string)

  /** The `feedback` dictionary of a response, one shape per producer. */
  datatype Feedback =
    | NoFeedback
    | GeneralFeedback(level: string, language: string)
    | TopicFeedback(topic: string, level: string)
    | CultureFeedback(culturalNote: string)
    | ExerciseFeedback(exerciseType: string, correctAnswer: string, explanation: string)
    | FallbackFeedback
    | NotImplementedFeedback

  datatype ChatRequest = ChatRequest(
    message: string,
    userId: Option<string>,
    sessionId: Option<string>,
    language: string)

  datatype ChatResponse = ChatResponse(
    message: string,
    agentType: string,
    sessionId: Option<string>,
    routedTo: Option<string>,
    confidence: int,
    feedback: Feedback,
    vocabulary: seq<VocabEntry>)

  datatype LanguageLevel = BeginnerLevel | ElementaryLevel | IntermediateLevel | UpperIntermediateLevel | AdvancedLevel | NativeLevel

  /** The string value of a level (`LanguageLevel.value`). */
  function LevelValue(level: LanguageLevel): string {
    match level
    case BeginnerLevel => "beginner"
    case ElementaryLevel => "elementary"
    case IntermediateLevel => "intermediate"
    case UpperIntermediateLevel => "upper_intermediate"
    case AdvancedLevel => "advanced"
    case NativeLevel => "native"
  }

  datatype UserProfile = UserProfile(
    userId: string,
    email: string,
    name: string,
    nativeLanguage: string,
    targetLanguage: string,
    currentLevel: LanguageLevel,
    currentStreak: int,
    totalXp: int,
    energy: int,
    createdAt: int,
    updatedAt: int)

  /** One entry of a session's own `conversation_history` list. */
  datatype SessionEntry = SessionEntry(role: string, content: string, timestamp: int, agent: Option<string>)

  datatype UserSession = UserSession(
    sessionId: string,
    userId: Option<string>,
    conversationHistory: seq<SessionEntry>,
    currentAgent: string,
    isActive: bool,
    startedAt: int,
    endedAt: Option<int>)
}
