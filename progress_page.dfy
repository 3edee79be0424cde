/**
 * The progress page's summaries: the weekly XP total and bar chart, the
 * earned-achievement count and the practice time in whole hours.
 */
module ProgressPage {
  import opened Wrappers
  import opened Seqs
  import opened Types
  import opened AchievementCard
  import Api

  /** `weekly_xp.reduce((a, b) => a + b, 0)`. */
  function WeeklyTotal(weekly: seq<int>): int {
    if weekly == [] then 0 else WeeklyTotal(weekly[..|weekly| - 1]) + weekly[|weekly| - 1]
  }

  /** `Math.max(...weekly_xp)` on a non-empty week. */
  function MaxOf(weekly: seq<int>): (m: int)
    requires weekly != []
    ensures m in weekly
    ensures forall i :: 0 <= i < |weekly| ==> weekly[i] <= m
  {
    if |weekly| == 1 then weekly[0]
    else
      var rest := MaxOf(weekly[1..]);
      if weekly[0] >= rest then weekly[0] else rest
  }

  /** With no negative day the total is at least the best day and at most seven (days) times it. */
  lemma {:induction false} WeeklyTotalBounds(weekly: seq<int>)
    requires weekly != []
    requires forall i :: 0 <= i < |weekly| ==> weekly[i] >= 0
    ensures MaxOf(weekly) <= WeeklyTotal(weekly) <= |weekly| * MaxOf(weekly)
  {
    var m := MaxOf(weekly);
    WeeklyTotalAtMost(weekly, m);
    var k :| 0 <= k < |weekly| && weekly[k] == m;
    WeeklyTotalAtLeast(weekly, k);
  }

  lemma {:induction false} WeeklyTotalAtMost(weekly: seq<int>, m: int)
    requires forall i :: 0 <= i < |weekly| ==> weekly[i] <= m
    ensures WeeklyTotal(weekly) <= |weekly| * m
  {
    if weekly != [] {
      WeeklyTotalAtMost(weekly[..|weekly| - 1], m);
      assert (|weekly| - 1) * m + m == |weekly| * m;
    }
  }

  lemma {:induction false} WeeklyTotalAtLeast(weekly: seq<int>, k: nat)
    requires k < |weekly|
    requires forall i :: 0 <= i < |weekly| ==> weekly[i] >= 0
    ensures weekly[k] <= WeeklyTotal(weekly)
  {
    var init := weekly[..|weekly| - 1];
    if k < |weekly| - 1 {
      WeeklyTotalAtLeast(init, k);
    } else {
      WeeklyTotalNonNegative(init);
    }
  }

  lemma {:induction false} WeeklyTotalNonNegative(weekly: seq<int>)
    requires forall i :: 0 <= i < |weekly| ==> weekly[i] >= 0
    ensures WeeklyTotal(weekly) >= 0
  {
    if weekly != [] {
      WeeklyTotalNonNegative(weekly[..|weekly| - 1]);
    }
  }

  /** One bar of the week chart: its height in percent, its minimum height in pixels, and its colour. */
  datatype Bar = Bar(heightPercent: real, minHeightPx: nat, highlighted: bool)

  /** A day's height in percent of the chart: its share of the best day, flat when the best day is not positive. */
  function HeightPercent(xp: int, maxXp: int): real {
    if maxXp > 0 then (xp as real / maxXp as real) * 100.0 else 0.0
  }

  function BarFor(xp: int, maxXp: int, index: nat, count: nat): Bar {
    Bar(
      HeightPercent(xp, maxXp),
      if xp > 0 then 8 else 0,
      index == count - 1)
  }

  /** The bars of the week chart; an empty week draws none. */
  function Bars(weekly: seq<int>): (bars: seq<Bar>)
    ensures |bars| == |weekly|
    ensures forall i :: 0 <= i < |weekly| ==> bars[i] == BarFor(weekly[i], MaxOf(weekly), i, |weekly|)
  {
    if weekly == [] then []
    else
      var m := MaxOf(weekly);
      seq(|weekly|, i requires 0 <= i < |weekly| => BarFor(weekly[i], m, i, |weekly|))
  }

  /** Only the last bar is highlighted; the minimum height applies to days with XP only. */
  lemma BarsHighlightAndMinimum(weekly: seq<int>, i: nat)
    requires i < |weekly|
    ensures Bars(weekly)[i].highlighted <==> i == |weekly| - 1
    ensures Bars(weekly)[i].minHeightPx > 0 <==> weekly[i] > 0
  {
  }

  /** A day between nothing and the best day is drawn between 0 and 100, the best day at 100. */
  lemma HeightPercentRange(xp: int, maxXp: int)
    ensures maxXp <= 0 ==> HeightPercent(xp, maxXp) == 0.0
    ensures 0 <= xp <= maxXp && maxXp > 0 ==> 0.0 <= HeightPercent(xp, maxXp) <= 100.0
    ensures xp == maxXp > 0 ==> HeightPercent(xp, maxXp) == 100.0
  {
    if maxXp > 0 {
      var x := xp as real;
      var m := maxXp as real;
      var q := x / m;
      assert q * m == x;
      if 0 <= xp <= maxXp {
        assert 0.0 <= q <= 1.0;
      }
    }
  }

  /**
   * With a best day at or below zero every bar is flat; otherwise a day's
   * height is its share of the best day, the best day reaching 100.
   */
  lemma BarHeights(weekly: seq<int>, i: nat)
    requires i < |weekly|
    ensures MaxOf(weekly) <= 0 ==> Bars(weekly)[i].heightPercent == 0.0
    ensures MaxOf(weekly) > 0 && weekly[i] >= 0 ==> 0.0 <= Bars(weekly)[i].heightPercent <= 100.0
    ensures MaxOf(weekly) > 0 && weekly[i] == MaxOf(weekly) ==> Bars(weekly)[i].heightPercent == 100.0
  {
    HeightPercentRange(weekly[i], MaxOf(weekly));
  }

  /** `achievements.filter((a) => a.earned_at).length`. */
  function EarnedCount(achievements: seq<Achievement>): (n: nat)
    ensures n <= |achievements|
  {
    |Filter(achievements, (a: Achievement) => IsEarned(a))|
  }

  /** The count is the number of earned achievements: each earned one adds one, each other adds none. */
  lemma EarnedCountAppend(achievements: seq<Achievement>, a: Achievement)
    ensures EarnedCount(achievements + [a]) == EarnedCount(achievements) + (if IsEarned(a) then 1 else 0)
  {
    FilterAppend(achievements, [a], (a: Achievement) => IsEarned(a));
  }

  /** `Math.floor(practice_time_minutes / 60)`: whole hours, rounded down. */
  function PracticeHours(minutes: int): (h: int)
    ensures h * 60 <= minutes < h * 60 + 60
  {
    minutes / 60
  }

  /** The total grows by the day appended. */
  lemma WeeklyTotalAppend(weekly: seq<int>, xp: int)
    ensures WeeklyTotal(weekly + [xp]) == WeeklyTotal(weekly) + xp
  {
    assert (weekly + [xp])[..|weekly|] == weekly;
  }

  /** The demo week adds up to 1250 XP. */
  lemma MockWeeklyTotal()
    ensures WeeklyTotal(Api.MockWeeklyXp) == 1250
  {
    var w := Api.MockWeeklyXp;
    assert w[..0] == [];
    assert w[..1] == w[..0] + [w[0]];
    WeeklyTotalAppend(w[..0], w[0]);
    assert w[..2] == w[..1] + [w[1]];
    WeeklyTotalAppend(w[..1], w[1]);
    assert w[..3] == w[..2] + [w[2]];
    WeeklyTotalAppend(w[..2], w[2]);
    assert w[..4] == w[..3] + [w[3]];
    WeeklyTotalAppend(w[..3], w[3]);
    assert w[..5] == w[..4] + [w[4]];
    WeeklyTotalAppend(w[..4], w[4]);
    assert w[..6] == w[..5] + [w[5]];
    WeeklyTotalAppend(w[..5], w[5]);
    assert w[..7] == w[..6] + [w[6]];
    WeeklyTotalAppend(w[..6], w[6]);
    assert w[..7] == w;
  }

  /** The demo week's best day is its last, at 340 XP, drawn at full height. */
  lemma MockBestDay()
    ensures MaxOf(Api.MockWeeklyXp) == 340
    ensures Bars(Api.MockWeeklyXp)[6].heightPercent == 100.0
  {
    var w := Api.MockWeeklyXp;
    assert w[6] == 340;
    assert forall i :: 0 <= i < 7 ==> w[i] <= 340;
    BarHeights(w, 6);
  }

  /** Three of the four demo achievements are earned, and 420 minutes read 7 hours. */
  lemma MockEarnedAndHours(now: int)
    ensures EarnedCount(Api.MockProgress(now).achievements) == 3
    ensures PracticeHours(Api.MockProgress(now).practiceTimeMinutes) == 7
  {
    var achs := Api.MockProgress(now).achievements;
    var earned := (a: Achievement) => IsEarned(a);
    assert |achs| == 4;
    assert IsEarned(achs[0]) && IsEarned(achs[1]) && IsEarned(achs[2]) && !IsEarned(achs[3]);
    assert achs == achs[..3] + [achs[3]];
    assert achs[..3] == achs[..2] + [achs[2]];
    assert achs[..2] == achs[..1] + [achs[1]];
    EarnedCountAppend(achs[..3], achs[3]);
    EarnedCountAppend(achs[..2], achs[2]);
    EarnedCountAppend(achs[..1], achs[1]);
    assert EarnedCount(achs[..1]) == 1;
  }
}
