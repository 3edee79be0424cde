/**
 * An achievement card: the icon looked up by key, whether the achievement
 * is earned, whether it shows a progress bar, and the rounded percentage.
 */
module AchievementCard {
  import opened Wrappers
  import opened Types

  datatype Icon = Trophy | Flame | BookOpen | MessageCircle | Star | Award

  const IconMap: map<string, Icon> := map[
    "trophy" := Trophy,
    "flame" := Flame,
    "book" := BookOpen,
    "message-circle" := MessageCircle,
    "star" := Star,
    "award" := Award
  ]

  /** The icon for a key, with Trophy for keys the map does not know. */
  function IconFor(key: string): (icon: Icon)
    ensures key in IconMap ==> icon == IconMap[key]
    ensures key !in IconMap ==> icon == Trophy
  {
    if key in IconMap then IconMap[key] else Trophy
  }

  /** Trophy is shown for "trophy" and for every unknown key, and only for those. */
  lemma TrophyIsDefault(key: string)
    ensures IconFor(key) == Trophy <==> key == "trophy" || key !in IconMap
  {
    if key in IconMap && key != "trophy" {
      assert key in {"flame", "book", "message-circle", "star", "award"};
    }
  }

  /** `!!earned_at`: a present, non-empty earning date. */
  predicate IsEarned(a: Achievement) {
    a.earnedAt.Some? && a.earnedAt.value != ""
  }

  /** Both the progress and the target are defined. */
  predicate HasProgress(a: Achievement) {
    a.progress.Some? && a.target.Some?
  }

  /** The progress bar is shown only for an unearned achievement with progress. */
  predicate ShowsProgressBar(a: Achievement) {
    !IsEarned(a) && HasProgress(a)
  }

  lemma ProgressBarOnlyUnearned(a: Achievement)
    ensures ShowsProgressBar(a) ==> !IsEarned(a) && a.progress.Some? && a.target.Some?
    ensures IsEarned(a) ==> !ShowsProgressBar(a)
  {
  }

  /**
   * `Math.round(progress / target * 100)` computed exactly: the integer
   * nearest to 100 * progress / target, halves rounded up. A zero target
   * has no meaningful percentage and is excluded.
   */
  function Percent(progress: int, target: int): (r: int)
    requires target != 0
    ensures target > 0 ==> 2 * target * r <= 200 * progress + target < 2 * target * r + 2 * target
    ensures target < 0 ==> -2 * target * r <= -(200 * progress + target) < -2 * target * r - 2 * target
  {
    var n := 200 * progress + target;
    var d := 2 * target;
    if d > 0 then n / d else (-n) / (-d)
  }

  /** Multiplying by a non-negative factor keeps the order. */
  lemma {:induction false} MulMonotone(d: int, a: int, b: int)
    requires d >= 0 && a <= b
    ensures d * a <= d * b
    decreases b - a
  {
    if a < b {
      MulMonotone(d, a + 1, b);
      assert d * (a + 1) == d * a + d;
    }
  }

  /** Euclidean division by a positive divisor has exactly one possible quotient. */
  lemma DivIsUnique(n: int, d: int, q: int)
    requires d > 0 && d * q <= n < d * q + d
    ensures n / d == q
  {
    var r := n / d;
    assert d * r <= n < d * r + d;
    if r < q {
      MulMonotone(d, r + 1, q);
    } else if r > q {
      MulMonotone(d, q + 1, r);
    }
  }

  /** A complete achievement reads 100. */
  lemma PercentComplete(target: int)
    requires target > 0
    ensures Percent(target, target) == 100
  {
    DivIsUnique(201 * target, 2 * target, 100);
  }

  /** Progress within the target reads between 0 and 100. */
  lemma PercentRange(progress: int, target: int)
    requires target > 0 && 0 <= progress <= target
    ensures 0 <= Percent(progress, target) <= 100
  {
    var n := 200 * progress + target;
    var d := 2 * target;
    var r := n / d;
    assert d * r <= n < d * r + d;
    if r > 100 {
      MulMonotone(d, 101, r);
    } else if r < 0 {
      MulMonotone(d, r + 1, 0);
    }
  }

  /** The numbers the mock data shows: 23 of 50 reads 46. */
  lemma PercentOfMock()
    ensures Percent(23, 50) == 46
  {
  }

  /**
   * The percentage a card shows: the rounded percentage, only beside a
   * progress bar (and only for a non-zero target), and within 0..100 while
   * the progress has not passed a positive target.
   */
  function ShownPercent(a: Achievement): (shown: Option<int>)
    ensures shown.Some? <==> ShowsProgressBar(a) && a.target.value != 0
    ensures shown.Some? ==> shown.value == Percent(a.progress.value, a.target.value)
    ensures shown.Some? && a.target.value > 0 && 0 <= a.progress.value <= a.target.value ==> 0 <= shown.value <= 100
    ensures shown.Some? && a.target.value > 0 && a.progress.value == a.target.value ==> shown.value == 100
  {
    if ShowsProgressBar(a) && a.target.value != 0 then
      var p, t := a.progress.value, a.target.value;
      if t > 0 && 0 <= p <= t then
        PercentRange(p, t);
        PercentComplete(t);
        Some(Percent(p, t))
      else Some(Percent(p, t))
    else None
  }
}
