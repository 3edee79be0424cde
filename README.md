# LingoKa core in Dafny

LingoKa teaches Hiligaynon through chat. A React client talks to a FastAPI
backend. The backend routes each message, picks a teaching handler or asks
an LLM, and keeps the session transcripts in memory. This project models the
deterministic core of both halves and proves what it promises:

- **Routing and dispatch** (`Director`, `Conversation`). The director
  classifies messages by keyword with fixed priorities and confidences.
  The conversation agent dispatches to its topic handlers, builds the LLM
  prompt list from at most the last ten history entries, and falls back to a
  keyword responder when no LLM reply is available.
- **Language content** (`Hiligaynon`). The phrase, vocabulary, exercise and
  lesson tables, with their lookups, filters, phrase search and the display
  formatter. Search is a loop and the formatter appends line by line, as in
  the source.
- **Backend session store** (`Backend`). A class over the three in-memory
  maps. It covers the chat turn (session get-or-create, two entries per turn,
  routing overwrite), the specialist-agent table, user creation, lookups that
  fail with 404, and ending a session.
- **API client** (`Api`). How a failed request is turned into an error
  message, and the fall-back to mock lessons and mock progress. The mock
  lessons are proved well-ordered.
- **Chat session manager** (`ChatContext`). A class holding the transcript,
  the loading flag, the error, the accumulated vocabulary and the session
  id. `SendMessage` is split at the `await` into `BeginSend` and
  `FinishSend`.
- **Derived view state**. The lessons page filter and stats
  (`LessonsPage`). The lesson card button and badge (`LessonCard`). The
  chat input guard (`ChatInput`). The user preference merge and load
  decision (`UserContext`). The progress summaries (`ProgressPage`,
  `AchievementCard`).

`Wrappers`, `Text` and `Seqs` hold shared helpers: `Option`/`Result`, ASCII
case folding and trimming, substring search, filtering and sums. `Models`
and `Types` hold the record shapes of the backend and frontend.

Confidences are integer hundredths (0.85 is 85). The LLM, random picks,
fresh ids, the clock, the HTTP server and the JSON parser are parameters.

The chat session manager follows the code as written:
- a failed send keeps the optimistic user message; nothing is rolled back;
- `clearChat` resets local state only and makes no end-session request.

## Model

| member | source | states |
|---|---|---|
| Director.KeywordRouting | backend/agents/director.py:87-127 | every keyword decision has confidence at least 0.7 and targets the conversation or progress agent |
| Director.RouteMessage | backend/agents/director.py:60-85 | routing always meets the 0.7 threshold |
| Director.RouteMessageIsKeywordRouting | backend/agents/director.py:73-85 | route_message always returns the keyword decision; its default branch is unreachable |
| Director.RouteTargets | backend/agents/director.py:93-127 | the target is always conversation or progress |
| Director.LearningWins | backend/agents/director.py:93-104 | a learning keyword anywhere gives conversation at 0.85, and only a learning keyword does |
| Director.RoutesToProgressIff | backend/agents/director.py:107-112 | progress is chosen exactly when a progress keyword occurs and no learning keyword does |
| Director.PronunciationIff | backend/agents/director.py:115-120 | confidence 0.8 exactly when a pronunciation keyword occurs and neither earlier group does |
| Director.DefaultIff | backend/agents/director.py:123-127 | the default decision (conversation, 0.7) exactly when no keyword of any group occurs |
| Director.RouteIgnoresCase | backend/agents/director.py:89 | a message and its lower-cased form route alike |
| Text.MentionsIff | backend/agents/director.py:89 | a keyword test is a substring test on the lower-cased message |
| Text.FirstMentioned | backend/agents/conversation.py:154-178 | the first keyword group mentioned: no earlier group is mentioned and the chosen one is |
| Text.LowerIdempotent | backend/agents/director.py:89 | lower-casing twice equals lower-casing once |
| Conversation.TopicDispatchOrder | backend/agents/conversation.py:154-178 | a handler is chosen exactly when its keywords occur and no earlier group's do (pronunciation, culture, exercise, numbers, phrases, greetings) |
| Conversation.GeneralIffNoKeyword | backend/agents/conversation.py:176-178 | general conversation exactly when no topic keyword occurs |
| Conversation.ContextLevel | backend/agents/conversation.py:143-145 | a given user level overrides the current one; a missing one keeps it |
| Conversation.ContextLanguage | backend/agents/conversation.py:143-145 | a given target language overrides the current one; a missing one keeps it |
| Conversation.ConversationAgent.constructor | backend/agents/conversation.py:124-132 | the agent starts with the given language and level |
| Conversation.ConversationAgent.Respond | backend/agents/conversation.py:134-178 | the context updates language and level first, then the reply is the dispatched response at the new level |
| Conversation.DifficultyForRoundTrip | backend/agents/conversation.py:382-388 | each difficulty's name maps back to it, and any level not mapped to beginner is a difficulty name |
| Conversation.GreetingVocabulary | backend/agents/conversation.py:238-257 | five entries, the first five greetings as word and translation in table order |
| Conversation.NumberVocabulary | backend/agents/conversation.py:275-290 | all number words in table order, as word and translation |
| Conversation.SystemPromptNamesLevel | backend/agents/conversation.py:26-32 | the system prompt names the learner's level |
| Conversation.PromptListShape | backend/agents/conversation.py:189-205 | system prompt first, user message last, at most 12 entries, min(10, history) in between |
| Conversation.PromptListMiddle | backend/agents/conversation.py:197-202 | each middle entry is the matching entry of the last ten history items, in order |
| Conversation.AppendHistory | backend/agents/conversation.py:197-202 | the loop appends every history item, converted, after the given start |
| Conversation.BuildMessages | backend/agents/conversation.py:189-205 | the built list is exactly the specified prompt list |
| Conversation.FallbackResponse | backend/agents/conversation.py:456-504 | a fallback reply always has confidence 0.7, fallback feedback and no vocabulary |
| Conversation.FallbackOrderLemma | backend/agents/conversation.py:461-503 | greeting words, then thanks, then goodbye are tested in order; otherwise the help menu |
| Conversation.GeneralReply | backend/agents/conversation.py:180-228 | an LLM reply gives confidence 0.9 with the LLM text; no LLM reply gives the fallback response |
| Conversation.TeachingReply | backend/agents/conversation.py:230-454 | every teaching handler replies from the conversation agent at 0.95 |
| Conversation.ResponseFor | backend/agents/conversation.py:154-178 | every reply comes from the conversation agent at 0.7, 0.9 or 0.95 |
| Conversation.ConfidenceByPath | backend/agents/conversation.py:154-228 | the confidence identifies the path: handler 0.95, LLM 0.9, fallback 0.7 |
| Conversation.VocabularyByTopic | backend/agents/conversation.py:230-454 | only the greeting, number and phrase handlers return vocabulary; the phrase handler returns six common phrases |
| Conversation.ExerciseMatchesLevel | backend/agents/conversation.py:371-414 | an exercise reply carries the answer of an exercise at the learner's difficulty, or of the first exercise |
| Hiligaynon.FindPhrase | backend/languages/hiligaynon.py:665-678 | a found phrase is in the list with the target text; none means no phrase has it |
| Hiligaynon.GetGreeting | backend/languages/hiligaynon.py:665-678 | the greeting is always one of the greetings |
| Hiligaynon.GetGreetingByTime | backend/languages/hiligaynon.py:665-678 | morning, noon, afternoon, evening and night map to their greeting; anything else to the morning one |
| Hiligaynon.GetPhrasesByCategory | backend/languages/hiligaynon.py:680-687 | greetings and common select their table; any other category gives both tables |
| Hiligaynon.GetVocabulary | backend/languages/hiligaynon.py:689-693 | a known category gives a one-entry map; none or unknown gives the whole table |
| Hiligaynon.GetExercises | backend/languages/hiligaynon.py:699-703 | no difficulty gives every exercise; a difficulty gives only exercises at that difficulty |
| Hiligaynon.GetExercisesComplete | backend/languages/hiligaynon.py:699-703 | the filtered list is an order-preserving subsequence holding every exercise at that difficulty |
| Hiligaynon.GetRandomExercise | backend/languages/hiligaynon.py:723-727 | an empty selection gives the first exercise; otherwise a member of the selection |
| Hiligaynon.AdvancedFallsBackToFirst | backend/languages/hiligaynon.py:723-727 | no exercise is advanced, so the advanced pick is the first exercise |
| Hiligaynon.GetLesson | backend/languages/hiligaynon.py:709-711 | a known id gives its lesson; an unknown id gives lesson 1 |
| Hiligaynon.LessonExercisesInRange | backend/languages/hiligaynon.py:609-659 | every exercise index of every lesson is a valid position in the exercise table |
| Hiligaynon.SearchPhrase | backend/languages/hiligaynon.py:713-721 | the search loop returns the case-insensitive filter of all phrases |
| Hiligaynon.SearchPhrases | backend/languages/hiligaynon.py:716-721 | the loop over a phrase list keeps exactly the matching phrases in order |
| Hiligaynon.SearchPhraseSpec | backend/languages/hiligaynon.py:713-721 | the result is a subsequence, holding a phrase exactly when its text contains the query, ignoring case |
| Hiligaynon.SearchEmptyQuery | backend/languages/hiligaynon.py:713-721 | an empty query returns every phrase |
| Hiligaynon.FormatPhraseForDisplay | backend/languages/hiligaynon.py:729-738 | three fixed lines, then a Literal line only when set, then a Context line without newline only when set |
| Backend.SessionIdFor | backend/main.py:90 | the request's session id when given, else the fresh one |
| Backend.ContextFor | backend/main.py:106-114 | a user context exists exactly for a known user, with that user's level and languages |
| Backend.Placeholder | backend/main.py:184-193 | a specialist placeholder has confidence 0.5, not-implemented feedback and names its agent |
| Backend.GetAgentResponse | backend/main.py:166-198 | conversation and unknown names go to the conversation agent; the four specialists get the placeholder |
| Backend.Converse | backend/main.py:176-181 | a fresh conversation agent answers at the context's level, or at the level it was created with |
| Backend.AgentReplyTable | backend/main.py:176-198 | the four specialists answer with a 0.5 placeholder under their own name; every other name is answered by the conversation agent at 0.7, 0.9 or 0.95 |
| Backend.TranscriptTurn | backend/main.py:133-153 | adding one turn keeps session entries and chat history in step, user then assistant |
| Backend.StoreTurn | backend/main.py:92-153 | a turn keeps every session's entries matching its history |
| Backend.Store.constructor | backend/main.py:37-39 | the store starts with three empty maps |
| Backend.Store.Chat | backend/main.py:76-158 | a turn gets or creates the session, appends two entries and two messages, overwrites routing fields and leaves profiles alone |
| Backend.Store.RecordTurn | backend/main.py:133-153 | the session advances by one turn and its history gains the user and assistant messages |
| Backend.Store.CreateUser | backend/main.py:201-222 | a new beginner profile is stored under the fresh id; nothing else changes |
| Backend.Store.GetUser | backend/main.py:225-232 | 404 exactly when the user is absent, else the stored profile |
| Backend.Store.GetSession | backend/main.py:235-242 | 404 exactly when the session is absent, else the stored session |
| Backend.Store.GetSessionHistory | backend/main.py:245-262 | 404 exactly when the history is absent, else its messages with role and content |
| Backend.Store.EndSession | backend/main.py:265-276 | a stored session is marked inactive with an end time and kept; an absent one gives 404 and nothing changes |
| Api.Url | frontend/src/services/api.ts:11-27 | the URL is the API base followed by the endpoint |
| Api.HttpErrorMessageSpec | frontend/src/services/api.ts:35-41 | never empty: a non-empty string detail is the message; otherwise "HTTP error " and the status in decimal, which reads back as the status |
| Text.NatToStringRoundTrip | frontend/src/services/api.ts:39 | the decimal text of the status reads back as the status |
| Api.FetchApi | frontend/src/services/api.ts:23-44 | success exactly on an OK reply with its body; otherwise the status error or the transport error |
| Api.LessonsEndpoint | frontend/src/services/api.ts:102 | a level query is added only when a level is given |
| Api.GetLessons | frontend/src/services/api.ts:101-109 | the server's lessons on success, the whole mock list on any failure |
| Api.FindLesson | frontend/src/services/api.ts:116 | the first lesson with the id, or none when no lesson has it |
| Api.GetLesson | frontend/src/services/api.ts:111-120 | the server's lesson on success, else the mock lesson with the id, else "Lesson not found" |
| Api.GetUserProgress | frontend/src/services/api.ts:123-129 | the server's progress on success, the mock progress on any failure |
| Api.MockLessonsWellOrdered | frontend/src/services/api.ts:132-235 | mock lesson ids are unique and every prerequisite names an earlier lesson |
| ChatContext.ErrorMessage | frontend/src/contexts/ChatContext.tsx:86-89 | an Error's message, else "Failed to send message" |
| ChatContext.RequestFor | frontend/src/contexts/ChatContext.tsx:47-52 | the request carries the text, the demo user, Hiligaynon and the held session id only when one is held |
| ChatContext.AdoptSessionSpec | frontend/src/contexts/ChatContext.tsx:55-57 | a held session id is never replaced; a returned one is adopted only when none is held |
| ChatContext.MergeSpec | frontend/src/contexts/ChatContext.tsx:77-85 | the old list is a prefix; the rest is the response items with new words, in order, with every repeat kept and no other item |
| ChatContext.MergeWords | frontend/src/contexts/ChatContext.tsx:77-85 | the merged words are the old words plus the response's words |
| ChatContext.MergeIdempotent | frontend/src/contexts/ChatContext.tsx:77-85 | merging the same response twice adds nothing the second time |
| ChatContext.DuplicatesKept | frontend/src/contexts/ChatContext.tsx:77-85 | duplicates within one response are both appended |
| ChatContext.ChatProvider.constructor | frontend/src/contexts/ChatContext.tsx:25-29 | empty transcript and vocabulary, not loading, no error, no session |
| ChatContext.ChatProvider.BeginSend | frontend/src/contexts/ChatContext.tsx:31-52 | blank input changes nothing; otherwise the trimmed user message is appended, loading starts, the error clears and the request carries exactly the held session id |
| ChatContext.ChatProvider.StartTurn | frontend/src/contexts/ChatContext.tsx:35-44 | one message appended, loading on, error cleared, vocabulary and session kept |
| ChatContext.ChatProvider.FinishSend | frontend/src/contexts/ChatContext.tsx:55-92 | success appends the assistant message, adopts the session and merges vocabulary; failure sets the error and keeps the rest; loading ends either way |
| ChatContext.ChatProvider.SendMessage | frontend/src/contexts/ChatContext.tsx:31-93 | blank input changes nothing; success grows the transcript by two, failure by one with the error set; loading ends |
| ChatContext.ChatProvider.ClearChat | frontend/src/contexts/ChatContext.tsx:95-100 | messages, vocabulary, session and error reset; the loading flag is kept |
| ChatContext.ChatProvider.SetError | frontend/src/contexts/ChatContext.tsx:27 | the error is set and nothing else changes |
| Text.TrimEmptyIffBlank | frontend/src/contexts/ChatContext.tsx:32 | trimming gives empty text exactly for whitespace-only input |
| Text.TrimIdempotent | frontend/src/components/chat/ChatInput.tsx:34 | trimming trimmed text changes nothing |
| LessonsPage.LevelArgument | frontend/src/pages/LessonsPage.tsx:28-30 | "all" passes no level; any other level passes its name |
| LessonsPage.LevelArgumentEndpoint | frontend/src/pages/LessonsPage.tsx:28-30 | "all" fetches the plain lessons endpoint; a level adds its query |
| LessonsPage.FilteredLessonsSpec | frontend/src/pages/LessonsPage.tsx:41-47 | an order-preserving subsequence holding exactly the lessons whose title, description or topic contains the query, ignoring case |
| LessonsPage.EmptySearchKeepsAll | frontend/src/pages/LessonsPage.tsx:41-47 | an empty query keeps every lesson |
| LessonsPage.CountsBounded | frontend/src/pages/LessonsPage.tsx:49-86 | completed and in-progress lessons are disjoint, so their counts add up to at most the total |
| LessonsPage.TotalXpIsCompletedRewards | frontend/src/pages/LessonsPage.tsx:50-53 | total XP is the sum of the rewards of the completed lessons |
| LessonsPage.NothingCompletedNoXp | frontend/src/pages/LessonsPage.tsx:49-53 | with nothing completed, both the count and the XP are zero |
| LessonsPage.MockLessonsStats | frontend/src/pages/LessonsPage.tsx:49-86 | the mock lessons show no completed lessons, none in progress and zero XP |
| LessonCard.ButtonLabelPrecedence | frontend/src/components/lessons/LessonCard.tsx:114-120 | Locked, then Review, then Continue, then Start Lesson, each exactly in its case |
| LessonCard.OnClick | frontend/src/components/lessons/LessonCard.tsx:99 | the lesson id is started exactly when the card is not locked |
| LessonCard.DisabledIffNoStart | frontend/src/components/lessons/LessonCard.tsx:99-100 | the button is disabled exactly when a click starts nothing |
| LessonCard.NoProgressBarWhenCompleted | frontend/src/components/lessons/LessonCard.tsx:19-80 | no progress bar on a completed lesson; a shown bar has positive progress |
| LessonCard.ReplaceFirstOccurrence | frontend/src/components/lessons/LessonCard.tsx:50 | only the first occurrence is replaced; the rest is kept |
| LessonCard.ReplaceFirstAbsent | frontend/src/components/lessons/LessonCard.tsx:50 | text without the character is unchanged |
| LessonCard.BadgeIsName | frontend/src/components/lessons/LessonCard.tsx:50 | levels without an underscore show their own name |
| LessonCard.UpperIntermediateBadge | frontend/src/components/lessons/LessonCard.tsx:50 | upper_intermediate shows "upper intermediate" |
| LessonCard.LevelColorsTotal | frontend/src/components/lessons/LessonCard.tsx:10-16 | every level has a colour entry |
| ChatInput.Submitted | frontend/src/components/chat/ChatInput.tsx:31-37 | something is sent exactly when the guard holds, and it is the non-empty trimmed text |
| ChatInput.SubmitGuardIff | frontend/src/components/chat/ChatInput.tsx:33 | the guard holds exactly for non-blank text while not loading and not disabled |
| ChatInput.SendDisabledIffRejected | frontend/src/components/chat/ChatInput.tsx:33-123 | the send button is disabled exactly when a submit would send nothing |
| ChatInput.ChatInputState.constructor | frontend/src/components/chat/ChatInput.tsx:17-18 | empty text, not recording |
| ChatInput.ChatInputState.SetMessage | frontend/src/components/chat/ChatInput.tsx:111 | typing replaces the text only |
| ChatInput.ChatInputState.HandleSubmit | frontend/src/components/chat/ChatInput.tsx:31-37 | sends the guarded trimmed text and then clears the input; a rejected submit keeps the text |
| ChatInput.ChatInputState.HandleKeyDown | frontend/src/components/chat/ChatInput.tsx:39-44 | Enter without Shift submits; any other key sends nothing and keeps the text |
| ChatInput.ChatInputState.ToggleRecording | frontend/src/components/chat/ChatInput.tsx:46-80 | recording stops when on, starts when off and the recorder started; the text is kept |
| UserContext.MergeOverrides | frontend/src/contexts/UserContext.tsx:75 | each given preference overrides the old value; each missing one keeps it |
| UserContext.MergeIdentityAndIdempotence | frontend/src/contexts/UserContext.tsx:75 | an empty patch changes nothing; applying a patch twice equals once |
| UserContext.MergeComposes | frontend/src/contexts/UserContext.tsx:75 | two patches in turn equal one combined patch |
| UserContext.WithPreferencesKeepsProfile | frontend/src/contexts/UserContext.tsx:73-77 | only preferences and updated_at change |
| UserContext.DefaultUser | frontend/src/contexts/UserContext.tsx:14-33 | the demo user, a beginner with dark mode off |
| UserContext.LoadOutcomes | frontend/src/contexts/UserContext.tsx:40-53 | no saved value or a parse failure gives the default user; otherwise the parsed value |
| UserContext.DarkClassFollowsPatch | frontend/src/contexts/UserContext.tsx:62-78 | the dark flag follows a patched dark-mode value and is otherwise kept |
| UserContext.UserProvider.constructor | frontend/src/contexts/UserContext.tsx:36-38 | no user, loading, no error |
| UserContext.UserProvider.Load | frontend/src/contexts/UserContext.tsx:40-53 | the user is the load decision and loading ends |
| UserContext.UserProvider.SetUser | frontend/src/contexts/UserContext.tsx:36 | the user is replaced and nothing else changes |
| UserContext.UserProvider.UpdatePreferences | frontend/src/contexts/UserContext.tsx:71-78 | no user means no change; otherwise the patched profile with a new updated_at |
| ProgressPage.MaxOf | frontend/src/pages/ProgressPage.tsx:63 | the maximum is one of the weekly values and at least every value |
| ProgressPage.WeeklyTotalBounds | frontend/src/pages/ProgressPage.tsx:63-144 | for non-negative weeks the total lies between the best day and days times the best day |
| ProgressPage.WeeklyTotalNonNegative | frontend/src/pages/ProgressPage.tsx:144 | non-negative days give a non-negative total |
| ProgressPage.WeeklyTotalAppend | frontend/src/pages/ProgressPage.tsx:144 | adding a day adds its XP to the total |
| ProgressPage.Bars | frontend/src/pages/ProgressPage.tsx:114-136 | one bar per day, each computed from its XP against the week's maximum |
| ProgressPage.BarsHighlightAndMinimum | frontend/src/pages/ProgressPage.tsx:121-128 | only the last bar is highlighted; a minimum height exactly for positive XP |
| ProgressPage.HeightPercentRange | frontend/src/pages/ProgressPage.tsx:127 | zero when the maximum is zero; between 0 and 100; 100 at the maximum |
| ProgressPage.BarHeights | frontend/src/pages/ProgressPage.tsx:63-128 | all heights are zero when the week's maximum is zero; the best day is at 100 |
| ProgressPage.EarnedCount | frontend/src/pages/ProgressPage.tsx:180-181 | the earned count is at most the number of achievements |
| ProgressPage.EarnedCountAppend | frontend/src/pages/ProgressPage.tsx:180-181 | an added achievement counts exactly when it is earned |
| ProgressPage.PracticeHours | frontend/src/pages/ProgressPage.tsx:97 | the hours are the floor of minutes over 60 |
| ProgressPage.MockWeeklyTotal | frontend/src/pages/ProgressPage.tsx:144 | the mock week totals 1250 XP |
| ProgressPage.MockBestDay | frontend/src/pages/ProgressPage.tsx:63-136 | the mock week's best day is 340 XP, shown by the last bar at full height |
| ProgressPage.MockEarnedAndHours | frontend/src/pages/ProgressPage.tsx:97-181 | the mock progress shows 3 earned achievements and 7 hours |
| AchievementCard.IconFor | frontend/src/components/progress/AchievementCard.tsx:4-18 | a known key gives its icon; any other key gives the trophy |
| AchievementCard.TrophyIsDefault | frontend/src/components/progress/AchievementCard.tsx:18 | the trophy shows exactly for the trophy key or an unknown key |
| AchievementCard.ProgressBarOnlyUnearned | frontend/src/components/progress/AchievementCard.tsx:19-69 | a bar needs an unearned achievement with progress and target |
| AchievementCard.Percent | frontend/src/components/progress/AchievementCard.tsx:74 | the nearest integer to progress over target times 100, halves rounded up |
| AchievementCard.PercentComplete | frontend/src/components/progress/AchievementCard.tsx:74 | reaching the target shows 100 |
| AchievementCard.PercentRange | frontend/src/components/progress/AchievementCard.tsx:74 | progress between 0 and the target shows 0 to 100 |
| AchievementCard.ShownPercent | frontend/src/components/progress/AchievementCard.tsx:69-74 | the shown number is the rounded percentage of progress over target, shown only beside a progress bar, within 0..100 while progress is within a positive target, and 100 at the target |
| AchievementCard.PercentOfMock | frontend/src/components/progress/AchievementCard.tsx:74 | 23 of 50 shows 46 |

## Left out

- Case folding and trimming cover ASCII only. Python's `lower`, JavaScript's `toLowerCase` and `trim` also handle Unicode.
- Floating point is not modelled. Confidences are integer hundredths. Bar heights are exact reals. The rounded percentage is exact integer arithmetic.
- The LLM call, its client and its exceptions are one parameter: a reply, or none when there is no client or the call fails.
- Random choices are parameters. `random.choice` is an index taken modulo the list length. `random.sample` is any six distinct common phrases (`ValidSample`).
- Fresh ids (`uuid4`) and the clock are parameters. Timestamps are decimal milliseconds, not ISO text.
- Teaching, prompt and fallback texts are abstract constants. The system prompt keeps only the line that names the level. The related-phrase text of the culture handler is not modelled.
- HTTP transport, `fetch`, JSON decoding, localStorage writes and document class writes are left out. The server reply and the JSON parser are parameters.
- JSON `null` versus `undefined` is not distinguished: in the preference spread, or in an achievement's progress and target.
- An error body's `detail` is a string or missing. FastAPI's validation errors carry a list there, which `fetchApi` passes on as a non-string message; that case is not modelled.
- UserContext.DefaultUser: both timestamps are one clock reading taken per load. The source reads the clock twice, once per field, when its module is first evaluated, and reuses those values on every load.
- AchievementCard.ShownPercent: shows nothing for a zero target. The source divides by zero there.
- `Backend.Store.Chat` calls the agent before storing a new session, where the source stores the session first. The final state is the same.
- The 500 error path of `chat` is left out: the modelled agents cannot raise.
- `route_message`'s history and context arguments are unused by the source and left out.
- Overlapping sends and the stale session-id closure are left out. Sends are sequential.
- Media recording is reduced to the `isRecording` flag.
- JSX layout, styling, routing and the settings page are left out.
- AchievementCard.Percent: requires a non-zero target. The source divides by zero when the target is 0.
- ProgressPage.Bars: an empty week gives no bars. The source's maximum of an empty list would be minus infinity, but no bar is drawn then anyway.
- `iconMap` lookups on inherited object keys (such as `constructor`) are not modelled.
