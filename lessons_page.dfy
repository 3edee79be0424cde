/**
 * The lessons page: which level is requested, the search filter over the
 * fetched lessons, and the completed, in-progress and XP statistics.
 */
module LessonsPage {
  import opened Wrappers
  import opened Text
  import opened Seqs
  import opened Types
  import opened Api

  /** The level selector: every level, or one of them. */
  datatype LevelFilter = AllLevels | OnlyLevel(level: LearningLevel)

  /** The level passed to `getLessons`: none for "all", the level's name otherwise. */
  function LevelArgument(filter: LevelFilter): (r: Option<string>)
    ensures r.None? <==> filter.AllLevels?
    ensures r.Some? ==> r.value == LevelName(filter.level)
  {
    match filter
    case AllLevels => None
    case OnlyLevel(level) => Some(LevelName(level))
  }

  /** Choosing "all" requests the plain lessons endpoint; choosing a level always adds the query. */
  lemma LevelArgumentEndpoint(filter: LevelFilter)
    ensures filter.AllLevels? ==> LessonsEndpoint(LevelArgument(filter)) == "/lessons"
    ensures filter.OnlyLevel? ==> LessonsEndpoint(LevelArgument(filter)) == "/lessons?level=" + LevelName(filter.level)
  {
    if filter.OnlyLevel? {
      assert LevelName(filter.level) != "" by {
        match filter.level
        case Beginner => case Elementary => case Intermediate => case UpperIntermediate => case Advanced =>
      }
    }
  }

  /** A lesson matches when its title, description or topic contains the lower-cased query, ignoring case. */
  predicate LessonMatches(lesson: Lesson, queryLower: string) {
    Contains(Lower(lesson.title), queryLower)
    || Contains(Lower(lesson.description), queryLower)
    || Contains(Lower(lesson.topic), queryLower)
  }

  function SearchMatcher(queryLower: string): Lesson -> bool {
    (l: Lesson) => LessonMatches(l, queryLower)
  }

  /** `filteredLessons`. */
  function FilteredLessons(lessons: seq<Lesson>, query: string): seq<Lesson> {
    Filter(lessons, SearchMatcher(Lower(query)))
  }

  /** The search keeps, in order, exactly the lessons that match. */
  lemma FilteredLessonsSpec(lessons: seq<Lesson>, query: string)
    ensures Subsequence(FilteredLessons(lessons, query), lessons)
    ensures forall l :: l in FilteredLessons(lessons, query) <==> l in lessons && LessonMatches(l, Lower(query))
  {
    FilterSpec(lessons, SearchMatcher(Lower(query)));
  }

  /** An empty search keeps every lesson. */
  lemma EmptySearchKeepsAll(lessons: seq<Lesson>)
    ensures FilteredLessons(lessons, "") == lessons
  {
    forall i | 0 <= i < |lessons|
      ensures SearchMatcher(Lower(""))(lessons[i])
    {
      ContainsEmpty(Lower(lessons[i].title));
    }
    FilterAll(lessons, SearchMatcher(Lower("")));
  }

  function IsCompleted(l: Lesson): bool {
    l.isCompleted
  }

  /** In progress: some progress and not completed. */
  function IsInProgress(l: Lesson): bool {
    l.progressPercent > 0 && !l.isCompleted
  }

  function CompletedCount(lessons: seq<Lesson>): nat {
    |Filter(lessons, IsCompleted)|
  }

  function InProgressCount(lessons: seq<Lesson>): nat {
    |Filter(lessons, IsInProgress)|
  }

  /** The XP a lesson contributes: its reward when completed, nothing otherwise. */
  function EarnedXp(l: Lesson): int {
    if l.isCompleted then l.xpReward else 0
  }

  function Reward(l: Lesson): int {
    l.xpReward
  }

  /** `totalXp`. */
  function TotalXp(lessons: seq<Lesson>): int {
    SumOf(lessons, EarnedXp)
  }

  /** Completed and in-progress lessons are disjoint, so together they are at most all lessons. */
  lemma CountsBounded(lessons: seq<Lesson>)
    ensures CompletedCount(lessons) + InProgressCount(lessons) <= |lessons|
  {
    FilterDisjoint(lessons, IsCompleted, IsInProgress);
  }

  /** The total XP is the sum of the rewards of the completed lessons only. */
  lemma {:induction false} TotalXpIsCompletedRewards(lessons: seq<Lesson>)
    ensures TotalXp(lessons) == SumOf(Filter(lessons, IsCompleted), Reward)
  {
    if lessons != [] {
      TotalXpIsCompletedRewards(lessons[1..]);
    }
  }

  /** With no completed lesson there is nothing completed and no XP, as with the mock fallback list. */
  lemma {:induction false} NothingCompletedNoXp(lessons: seq<Lesson>)
    requires forall i :: 0 <= i < |lessons| ==> !lessons[i].isCompleted
    ensures CompletedCount(lessons) == 0 && TotalXp(lessons) == 0
  {
    FilterNone(lessons, IsCompleted);
    TotalXpIsCompletedRewards(lessons);
  }

  /** The mock lessons are all unstarted: no completed lesson, nothing in progress, no XP. */
  lemma MockLessonsStats()
    ensures CompletedCount(MockLessons()) == 0 && InProgressCount(MockLessons()) == 0 && TotalXp(MockLessons()) == 0
  {
    var ls := MockLessons();
    assert forall i :: 0 <= i < |ls| ==> !ls[i].isCompleted && ls[i].progressPercent == 0;
    NothingCompletedNoXp(ls);
    FilterNone(ls, IsInProgress);
  }
}
