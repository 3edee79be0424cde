/**
 * The web client's API layer: URL building, the error a failed call
 * raises, and the lesson and progress calls that fall back to built-in
 * mock data when the backend call fails. The transport is a parameter
 * mapping a URL to what came back.
 */
module Api {
  import opened Wrappers
  import opened Text
  import opened Types

  const ApiBaseUrl: string := "/api"

  /** The body of a non-OK answer: JSON with an optional `detail`, or something that does not parse. */
  datatype ErrorBody = Parsed(detail: Option<string>) | Unparsable

  /** What the transport returns for one request. */
  datatype HttpReply<T> = OkReply(body: T) | NotOk(status: nat, errorBody: ErrorBody) | NetworkFailure(reason: string)

  /** What a failed call throws: an `ApiError` with the status, or the transport's own error. */
  datatype ApiFailure = ApiError(status: nat, message: string) | TransportError(reason: string)

  /** The full URL of an endpoint. */
  function Url(endpoint: string): (url: string)
    ensures IsPrefix(ApiBaseUrl, url) && url[|ApiBaseUrl|..] == endpoint
  {
    ApiBaseUrl + endpoint
  }

  /** The message of an `ApiError`: the body's `detail` when it is a non-empty string, else `HTTP error <status>`. */
  function HttpErrorMessage(status: nat, body: ErrorBody): string {
    if body.Parsed? && body.detail.Some? && body.detail.value != "" then body.detail.value
    else "HTTP error " + NatToString(status)
  }

  /**
   * The message is never empty: a non-empty string detail is the message,
   * and without one the message names the status, which reads back exactly.
   */
  lemma HttpErrorMessageSpec(status: nat, body: ErrorBody)
    ensures HttpErrorMessage(status, body) != ""
    ensures body.Parsed? && body.detail.Some? && body.detail.value != "" ==>
      HttpErrorMessage(status, body) == body.detail.value
    ensures !(body.Parsed? && body.detail.Some? && body.detail.value != "") ==>
      var m := HttpErrorMessage(status, body);
      && IsPrefix("HTTP error ", m)
      && (forall i :: 11 <= i < |m| ==> '0' <= m[i] <= '9')
      && DigitsValue(m[11..]) == status
  {
    if !(body.Parsed? && body.detail.Some? && body.detail.value != "") {
      var m := HttpErrorMessage(status, body);
      assert m[11..] == NatToString(status);
      NatToStringRoundTrip(status);
    }
  }

  /** `fetchApi`: the body of an OK answer, otherwise the failure it throws. */
  method FetchApi<T>(endpoint: string, server: string -> HttpReply<T>) returns (r: Result<T, ApiFailure>)
    ensures r.Ok? <==> server(Url(endpoint)).OkReply?
    ensures r.Ok? ==> r.value == server(Url(endpoint)).body
    ensures server(Url(endpoint)).NotOk? ==>
      r == Err(ApiError(server(Url(endpoint)).status,
                        HttpErrorMessage(server(Url(endpoint)).status, server(Url(endpoint)).errorBody)))
    ensures server(Url(endpoint)).NetworkFailure? ==> r == Err(TransportError(server(Url(endpoint)).reason))
  {
    var url := Url(endpoint);
    var reply := server(url);
    match reply {
      case OkReply(body) => r := Ok(body);
      case NotOk(status, body) => r := Err(ApiError(status, HttpErrorMessage(status, body)));
      case NetworkFailure(reason) => r := Err(TransportError(reason));
    }
  }

  /** The lessons endpoint: `?level=<level>` is added only for a non-empty level. */
  function LessonsEndpoint(level: Option<string>): (e: string)
    ensures level.Some? && level.value != "" ==> e == "/lessons?level=" + level.value
    ensures !(level.Some? && level.value != "") ==> e == "/lessons"
  {
    if level.Some? && level.value != "" then "/lessons?level=" + level.value else "/lessons"
  }

  /** `getLessons`: the server's list, or the whole mock list (not filtered by level) on any failure. */
  method GetLessons(level: Option<string>, server: string -> HttpReply<seq<Lesson>>) returns (lessons: seq<Lesson>)
    ensures server(Url(LessonsEndpoint(level))).OkReply? ==> lessons == server(Url(LessonsEndpoint(level))).body
    ensures !server(Url(LessonsEndpoint(level))).OkReply? ==> lessons == MockLessons()
  {
    var r := FetchApi(LessonsEndpoint(level), server);
    if r.Ok? {
      lessons := r.value;
    } else {
      lessons := MockLessons();
    }
  }

  /** `lessons.find(l => l.id === id)`. */
  function FindLesson(lessons: seq<Lesson>, id: string): (r: Option<Lesson>)
    ensures r.Some? ==>
      exists i :: 0 <= i < |lessons| && lessons[i] == r.value && r.value.id == id
                  && (forall j :: 0 <= j < i ==> lessons[j].id != id)
    ensures r.None? ==> forall i :: 0 <= i < |lessons| ==> lessons[i].id != id
  {
    if lessons == [] then None
    else if lessons[0].id == id then Some(lessons[0])
    else
      var rest := FindLesson(lessons[1..], id);
      if rest.Some? then
        var i :| 0 <= i < |lessons[1..]| && lessons[1..][i] == rest.value && rest.value.id == id
                 && (forall j :: 0 <= j < i ==> lessons[1..][j].id != id);
        assert lessons[i + 1] == rest.value;
        rest
      else rest
  }

  /** `getLesson`: the server's lesson, else the mock lesson with that id, else "Lesson not found". */
  method GetLesson(lessonId: string, server: string -> HttpReply<Lesson>) returns (r: Result<Lesson, string>)
    ensures server(Url("/lessons/" + lessonId)).OkReply? ==> r == Ok(server(Url("/lessons/" + lessonId)).body)
    ensures !server(Url("/lessons/" + lessonId)).OkReply? ==>
      (FindLesson(MockLessons(), lessonId).Some? ==> r == Ok(FindLesson(MockLessons(), lessonId).value))
      && (FindLesson(MockLessons(), lessonId).None? ==> r == Err("Lesson not found"))
  {
    var fetched := FetchApi("/lessons/" + lessonId, server);
    if fetched.Ok? {
      r := Ok(fetched.value);
    } else {
      var lesson := FindLesson(MockLessons(), lessonId);
      if lesson.None? {
        r := Err("Lesson not found");
      } else {
        r := Ok(lesson.value);
      }
    }
  }

  /** `getUserProgress`: the server's progress, or the mock progress on any failure. */
  method GetUserProgress(userId: string, now: int, server: string -> HttpReply<UserProgress>) returns (progress: UserProgress)
    ensures server(Url("/users/" + userId + "/progress")).OkReply? ==>
      progress == server(Url("/users/" + userId + "/progress")).body
    ensures !server(Url("/users/" + userId + "/progress")).OkReply? ==> progress == MockProgress(now)
  {
    var r := FetchApi("/users/" + userId + "/progress", server);
    if r.Ok? {
      progress := r.value;
    } else {
      progress := MockProgress(now);
    }
  }

  // ---------------------------------------------------------------------
  // Mock data

  function MockLessons(): seq<Lesson> {
    [
      Lesson("1", "Greetings & Introductions", "Learn basic greetings and how to introduce yourself in Hiligaynon",
             Beginner, "Basics", 15, 50, 12, false, 0, None),
      Lesson("2", "Numbers 1-20", "Master counting from one to twenty in Hiligaynon",
             Beginner, "Numbers", 10, 40, 20, false, 0, None),
      Lesson("3", "Common Phrases", "Essential everyday phrases for basic communication",
             Beginner, "Phrases", 20, 60, 15, false, 0, None),
      Lesson("4", "Family Members", "Learn vocabulary for family relationships",
             Beginner, "Family", 15, 50, 18, false, 0, None),
      Lesson("5", "Food & Dining", "Vocabulary and phrases for ordering food and dining",
             Elementary, "Food", 25, 70, 25, false, 0, Some(["1", "3"])),
      Lesson("6", "Basic Verb Conjugation", "Understanding how verbs change in Hiligaynon",
             Elementary, "Grammar", 30, 80, 10, false, 0, Some(["1", "3"])),
      Lesson("7", "Directions & Places", "Ask for and give directions, learn place vocabulary",
             Intermediate, "Travel", 25, 75, 20, false, 0, Some(["5", "6"])),
      Lesson("8", "Past Tense", "Talk about events that happened in the past",
             Intermediate, "Grammar", 35, 90, 8, false, 0, Some(["6"]))
    ]
  }

  /** The prerequisites of a lesson (none when the field is missing). */
  function Prerequisites(l: Lesson): seq<string> {
    if l.prerequisites.Some? then l.prerequisites.value else []
  }

  /** Ids are unique and every prerequisite names a lesson earlier in the list. */
  predicate WellOrdered(lessons: seq<Lesson>) {
    (forall i, j :: 0 <= i < j < |lessons| ==> lessons[i].id != lessons[j].id)
    && (forall i, k :: 0 <= i < |lessons| && 0 <= k < |Prerequisites(lessons[i])| ==>
          exists j :: 0 <= j < i && lessons[j].id == Prerequisites(lessons[i])[k])
  }

  /** The mock lessons are well ordered: unique ids, prerequisites before the lessons that need them. */
  lemma MockLessonsWellOrdered()
    ensures WellOrdered(MockLessons())
  {
    var ls := MockLessons();
    assert |ls| == 8;
    forall i | 0 <= i < 8
      ensures ls[i].id == [(49 + i) as char]
    {
      if i == 0 {} else if i == 1 {} else if i == 2 {} else if i == 3 {}
      else if i == 4 {} else if i == 5 {} else if i == 6 {} else {}
    }
    forall i, j | 0 <= i < j < |ls|
      ensures ls[i].id != ls[j].id
    {
      assert ls[i].id[0] != ls[j].id[0];
    }
    forall i, k | 0 <= i < |ls| && 0 <= k < |Prerequisites(ls[i])|
      ensures exists j :: 0 <= j < i && ls[j].id == Prerequisites(ls[i])[k]
    {
      var p := Prerequisites(ls[i])[k];
      if i < 4 {
        assert false;
      } else if i == 4 || i == 5 {
        assert Prerequisites(ls[i]) == ["1", "3"];
        if k == 0 { assert ls[0].id == p; } else { assert ls[2].id == p; }
      } else if i == 6 {
        assert Prerequisites(ls[i]) == ["5", "6"];
        if k == 0 { assert ls[4].id == p; } else { assert ls[5].id == p; }
      } else {
        assert Prerequisites(ls[i]) == ["6"];
        assert ls[5].id == p;
      }
    }
  }

  function MockProgress(now: int): UserProgress {
    UserProgress("demo-user", 1250, 7, 14, 12, 156, 420,
      SkillBreakdown(45, 60, 75, 30, 65, 50),
      [ ActivityItem(Timestamp(now), ConversationActivity, "Practice Conversation", 25, 10),
        ActivityItem(Timestamp(now - 86400000), LessonActivity, "Common Phrases", 60, 18),
        ActivityItem(Timestamp(now - 172800000), PracticeActivity, "Vocabulary Review", 30, 8) ],
      [ Achievement("1", "First Steps", "Complete your first lesson", "trophy", Some(Timestamp(now - 604800000)), None, None),
        Achievement("2", "Week Warrior", "Maintain a 7-day streak", "flame", Some(Timestamp(now)), None, None),
        Achievement("3", "Word Collector", "Learn 100 words", "book", Some(Timestamp(now - 259200000)), None, None),
        Achievement("4", "Conversation Master", "Complete 50 conversations", "message-circle", None, Some(23), Some(50)) ],
      MockWeeklyXp)
  }

  /** The demo week's XP, Monday to Sunday. */
  const MockWeeklyXp: seq<int> := [120, 85, 150, 200, 175, 180, 340]
}
