/**
 * A lesson card: its progress state, the action button's label and
 * enablement, the level badge and the level colours.
 */
module LessonCard {
  import opened Wrappers
  import opened Types

  /** Started but not completed. */
  predicate HasProgress(lesson: Lesson) {
    lesson.progressPercent > 0 && !lesson.isCompleted
  }

  /** The action button's text. */
  function ButtonLabel(lesson: Lesson, isLocked: bool): string {
    if isLocked then "Locked"
    else if lesson.isCompleted then "Review"
    else if HasProgress(lesson) then "Continue"
    else "Start Lesson"
  }

  /** The label follows the precedence Locked, then Review, then Continue, then Start Lesson. */
  lemma ButtonLabelPrecedence(lesson: Lesson, isLocked: bool)
    ensures ButtonLabel(lesson, isLocked) == "Locked" <==> isLocked
    ensures ButtonLabel(lesson, isLocked) == "Review" <==> !isLocked && lesson.isCompleted
    ensures ButtonLabel(lesson, isLocked) == "Continue" <==> !isLocked && HasProgress(lesson)
    ensures ButtonLabel(lesson, isLocked) == "Start Lesson" <==>
      !isLocked && !lesson.isCompleted && lesson.progressPercent <= 0
  {
    assert "Locked"[0] == 'L' && "Review"[0] == 'R' && "Continue"[0] == 'C' && "Start Lesson"[0] == 'S';
  }

  /** What a click does: start the lesson with its id, unless the card is locked. */
  function OnClick(lesson: Lesson, isLocked: bool): (started: Option<string>)
    ensures started.Some? <==> !isLocked
    ensures started.Some? ==> started.value == lesson.id
  {
    if isLocked then None else Some(lesson.id)
  }

  predicate ButtonDisabled(isLocked: bool) {
    isLocked
  }

  /** The button is disabled exactly when a click would start nothing. */
  lemma DisabledIffNoStart(lesson: Lesson, isLocked: bool)
    ensures ButtonDisabled(isLocked) <==> OnClick(lesson, isLocked).None?
  {
  }

  /** The progress bar is shown only with progress, hence never on a completed lesson. */
  predicate ShowsProgressBar(lesson: Lesson) {
    HasProgress(lesson)
  }

  lemma NoProgressBarWhenCompleted(lesson: Lesson)
    ensures lesson.isCompleted ==> !ShowsProgressBar(lesson)
    ensures ShowsProgressBar(lesson) ==> lesson.progressPercent > 0
  {
  }

  /** `s.replace(from, to)` with a one-character pattern: only the first occurrence changes. */
  function ReplaceFirst(s: string, from: char, to: char): (r: string)
    ensures |r| == |s|
  {
    if s == [] then []
    else if s[0] == from then [to] + s[1..]
    else [s[0]] + ReplaceFirst(s[1..], from, to)
  }

  /** With no occurrence of `from`, the text is unchanged. */
  lemma {:induction false} ReplaceFirstAbsent(s: string, from: char, to: char)
    requires forall i :: 0 <= i < |s| ==> s[i] != from
    ensures ReplaceFirst(s, from, to) == s
  {
    if s != [] {
      ReplaceFirstAbsent(s[1..], from, to);
    }
  }

  /** A prefix free of `from` passes through unchanged. */
  lemma {:induction false} ReplaceFirstSkip(a: string, b: string, from: char, to: char)
    requires forall i :: 0 <= i < |a| ==> a[i] != from
    ensures ReplaceFirst(a + b, from, to) == a + ReplaceFirst(b, from, to)
  {
    if a != [] {
      ReplaceFirstSkip(a[1..], b, from, to);
      assert (a + b)[1..] == a[1..] + b;
      assert (a + b)[0] == a[0] != from;
      assert a == [a[0]] + a[1..];
    } else {
      assert a + b == b;
    }
  }

  /** Only the first occurrence is replaced: the text before it and everything after it are kept. */
  lemma ReplaceFirstOccurrence(a: string, b: string, from: char, to: char)
    requires forall i :: 0 <= i < |a| ==> a[i] != from
    ensures ReplaceFirst(a + [from] + b, from, to) == a + [to] + b
  {
    var rest := [from] + b;
    assert a + [from] + b == a + rest;
    ReplaceFirstSkip(a, rest, from, to);
    assert rest[0] == from && rest[1..] == b;
    assert ReplaceFirst(rest, from, to) == [to] + b;
    assert a + ([to] + b) == a + [to] + b;
  }

  /** The level badge text. */
  function BadgeText(level: LearningLevel): string {
    ReplaceFirst(LevelName(level), '_', ' ')
  }

  /** Every level name but upper intermediate is free of underscores, so its badge is the name itself. */
  lemma BadgeIsName(level: LearningLevel)
    requires level != UpperIntermediate
    ensures BadgeText(level) == LevelName(level)
  {
    var n := LevelName(level);
    forall i | 0 <= i < |n|
      ensures n[i] != '_'
    {
      match level
      case Beginner =>
      case Elementary =>
      case Intermediate =>
      case Advanced =>
    }
    ReplaceFirstAbsent(n, '_', ' ');
  }

  /** The upper intermediate badge reads "upper intermediate". */
  lemma UpperIntermediateBadge()
    ensures BadgeText(UpperIntermediate) == "upper intermediate"
  {
    ReplaceFirstOccurrence("upper", "intermediate", '_', ' ');
    assert "upper" + ['_'] + "intermediate" == LevelName(UpperIntermediate);
    assert "upper" + [' '] + "intermediate" == "upper intermediate";
  }

  const LevelColors: map<LearningLevel, string> := map[
    Beginner := "bg-emerald-100 text-emerald-700 dark:bg-emerald-900/30 dark:text-emerald-400",
    Elementary := "bg-blue-100 text-blue-700 dark:bg-blue-900/30 dark:text-blue-400",
    Intermediate := "bg-amber-100 text-amber-700 dark:bg-amber-900/30 dark:text-amber-400",
    UpperIntermediate := "bg-orange-100 text-orange-700 dark:bg-orange-900/30 dark:text-orange-400",
    Advanced := "bg-red-100 text-red-700 dark:bg-red-900/30 dark:text-red-400"
  ]

  /** Every level has a colour entry. */
  lemma LevelColorsTotal(level: LearningLevel)
    ensures level in LevelColors
  {
  }
}
