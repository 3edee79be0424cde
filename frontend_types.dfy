/**
 * The records the web client exchanges with the backend and shows: user
 * profile and preferences, chat messages, requests and responses,
 * vocabulary items, lessons, achievements and progress. Times are
 * milliseconds; their ISO 8601 rendering is abstracted by `Timestamp`.
 */
module Types {
  import opened Wrappers
  import opened Text

  datatype LearningLevel = Beginner | Elementary | Intermediate | UpperIntermediate | Advanced

  /** The string each level is written as. */
  function LevelName(level: LearningLevel): string {
    match level
    case Beginner => "beginner"
    case Elementary => "elementary"
    case Intermediate => "intermediate"
    case UpperIntermediate => "upper_intermediate"
    case Advanced => "advanced"
  }

  /** A non-empty text stamp for a time (decimal milliseconds). */
  function Timestamp(ms: int): (s: string)
    ensures s != []
  {
    if ms >= 0 then NatToString(ms) else "-" + NatToString(-ms)
  }

  datatype VoiceSpeed = Slow | Normal | Fast

  datatype UserPreferences = UserPreferences(
    dailyGoalMinutes: int,
    notificationEnabled: bool,
    soundEnabled: bool,
    darkMode: bool,
    voiceSpeed: VoiceSpeed)

  datatype UserProfile = UserProfile(
    userId: string,
    email: string,
    name: string,
    nativeLanguage: string,
    targetLanguage: string,
    currentLevel: LearningLevel,
    currentStreak: int,
    totalXp: int,
    energy: int,
    preferences: UserPreferences,
    createdAt: string,
    updatedAt: string)

  datatype Role = UserRole | AssistantRole | SystemRole

  datatype VocabularyItem = VocabularyItem(
    word: string,
    translation: string,
    pronunciation: Option<string>,
    partOfSpeech: Option<string>,
    example: Option<string>)

  datatype MessageMetadata = MessageMetadata(
    agentType: Option<string>,
    confidence: Option<int>,
    vocabulary: Option<seq<VocabularyItem>>,
    grammarNotes: Option<seq<string>>,
    audioUrl: Option<string>)

  datatype ChatMessage = ChatMessage(
    id: string,
    role: Role,
    content: string,
    timestamp: string,
    metadata: Option<MessageMetadata>)

  datatype ChatRequest = ChatRequest(
    message: string,
    userId: Option<string>,
    sessionId: Option<string>,
    language: Option<string>)

  /** A chat reply as the client receives it; a missing `session_id` is `None`. */
  datatype ChatResponse = ChatResponse(
    message: string,
    agentType: string,
    sessionId: Option<string>,
    confidence: int,
    vocabulary: Option<seq<VocabularyItem>>,
    grammarNotes: Option<seq<string>>,
    audioUrl: Option<string>)

  datatype Lesson = Lesson(
    id: string,
    title: string,
    description: string,
    level: LearningLevel,
    topic: string,
    durationMinutes: int,
    xpReward: int,
    vocabularyCount: int,
    isCompleted: bool,
    progressPercent: int,
    prerequisites: Option<seq<string>>)

  datatype Achievement = Achievement(
    id: string,
    title: string,
    description: string,
    icon: string,
    earnedAt: Option<string>,
    progress: Option<int>,
    target: Option<int>)

  datatype SkillBreakdown = SkillBreakdown(
    speaking: int, listening: int, reading: int, writing: int, vocabulary: int, grammar: int)

  datatype ActivityType = LessonActivity | PracticeActivity | ConversationActivity

  datatype ActivityItem = ActivityItem(
    date: string,
    activityType: ActivityType,
    title: string,
    xpEarned: int,
    durationMinutes: int)

  datatype UserProgress = UserProgress(
    userId: string,
    totalXp: int,
    currentStreak: int,
    longestStreak: int,
    lessonsCompleted: int,
    wordsLearned: int,
    practiceTimeMinutes: int,
    skillBreakdown: SkillBreakdown,
    recentActivity: seq<ActivityItem>,
    achievements: seq<Achievement>,
    weeklyXp: seq<int>)
}
