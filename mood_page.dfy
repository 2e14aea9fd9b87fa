/**
 * src/pages/Mood.tsx: the statistics panel of the mood page. `getMoodStats`
 * counts this month's entries per mood into a dictionary, adds up a score per
 * entry and picks the most frequent mood; `getMoodDescription` names a score.
 * The page's "is in the current month" test is given as the month's first
 * and last instant (`monthStart`, `monthEnd`), as timestamps.
 */
module MoodPage {
  import opened Wrappers
  import Types

  /** A mood row as the page reads it: the mood string and its timestamp. */
  datatype MoodRecord = MoodRecord(mood: string, date: int)

  /** What `getMoodStats` returns; `topMood` is `null` as `None`. */
  datatype MoodStats = MoodStats(totalEntries: nat, topMood: Option<string>, averageScore: real)

  const NoStats: MoodStats := MoodStats(0, None, 0.0)

  /** `moodScores[mood] || 3`: the page's five-step scale, 3 for any other string. */
  function Score(mood: string): (r: int)
    ensures 1 <= r <= 5
    ensures mood !in {"happy", "good", "neutral", "bad", "awful"} ==> r == 3
  {
    match mood
    case "happy" => 5
    case "good" => 4
    case "neutral" => 3
    case "bad" => 2
    case "awful" => 1
    case _ => 3
  }

  /** The shared `MoodType` names and the page's own scale share only "happy" and "neutral": the other three `MoodType` names score as neutral. */
  lemma FormMoodsScore(m: Types.MoodKind)
    ensures Score(Types.MoodName(m)) == if m == Types.Happy then 5 else 3
  {
  }

  /** `moods.filter(...)`: the entries dated within the month, in order. */
  function ThisMonth(moods: seq<MoodRecord>, monthStart: int, monthEnd: int): (r: seq<MoodRecord>)
    ensures |r| <= |moods|
  {
    if moods == [] then []
    else
      var last := moods[|moods| - 1];
      ThisMonth(moods[..|moods| - 1], monthStart, monthEnd) + (if monthStart <= last.date <= monthEnd then [last] else [])
  }

  /** Each entry dated within the month is kept as often as it occurs, and no other entry is kept. */
  lemma {:induction false} ThisMonthCounts(moods: seq<MoodRecord>, monthStart: int, monthEnd: int)
    ensures forall x :: multiset(ThisMonth(moods, monthStart, monthEnd))[x]
                        == if monthStart <= x.date <= monthEnd then multiset(moods)[x] else 0
    decreases |moods|
  {
    if moods != [] {
      var last := moods[|moods| - 1];
      var init := moods[..|moods| - 1];
      assert moods == init + [last];
      ThisMonthCounts(init, monthStart, monthEnd);
    }
  }

  /** The filter keeps the entries' order: filtering a concatenation concatenates the filtered parts. */
  lemma {:induction false} ThisMonthAppend(a: seq<MoodRecord>, b: seq<MoodRecord>, monthStart: int, monthEnd: int)
    ensures ThisMonth(a + b, monthStart, monthEnd) == ThisMonth(a, monthStart, monthEnd) + ThisMonth(b, monthStart, monthEnd)
    decreases |b|
  {
    if b == [] {
      assert a + b == a;
    } else {
      var last := b[|b| - 1];
      var init := b[..|b| - 1];
      var keep := if monthStart <= last.date <= monthEnd then [last] else [];
      assert (a + b)[..|a + b| - 1] == a + init;
      assert (a + b)[|a + b| - 1] == last;
      assert ThisMonth(a + b, monthStart, monthEnd) == ThisMonth(a + init, monthStart, monthEnd) + keep;
      ThisMonthAppend(a, init, monthStart, monthEnd);
      assert ThisMonth(b, monthStart, monthEnd) == ThisMonth(init, monthStart, monthEnd) + keep;
      var fa, fi := ThisMonth(a, monthStart, monthEnd), ThisMonth(init, monthStart, monthEnd);
      assert fa + fi + keep == fa + (fi + keep);
    }
  }

  /** How many entries of `s` carry mood `m`. */
  function Count(s: seq<MoodRecord>, m: string): nat {
    if s == [] then 0
    else Count(s[..|s| - 1], m) + (if s[|s| - 1].mood == m then 1 else 0)
  }

  /** The sum of the entries' scores. */
  function TotalScore(s: seq<MoodRecord>): int {
    if s == [] then 0 else TotalScore(s[..|s| - 1]) + Score(s[|s| - 1].mood)
  }

  /** The moods of `s` in order of first occurrence: the key order of the `moodCounts` object. */
  function Distinct(s: seq<MoodRecord>): seq<string> {
    if s == [] then []
    else
      var d := Distinct(s[..|s| - 1]);
      if s[|s| - 1].mood in d then d else d + [s[|s| - 1].mood]
  }

  predicate NoDuplicates(d: seq<string>) {
    forall i, j :: 0 <= i < j < |d| ==> d[i] != d[j]
  }

  /** A mood is a key exactly when it occurs, and no key is repeated. */
  lemma {:induction false} DistinctKeys(s: seq<MoodRecord>)
    ensures NoDuplicates(Distinct(s))
    ensures forall m :: m in Distinct(s) <==> Count(s, m) > 0
  {
    if s != [] {
      DistinctKeys(s[..|s| - 1]);
    }
  }

  /**
   * The mood `getMoodStats` reports, before the `|| null` on it: its count is
   * the largest, and every mood that first occurred before it has a smaller
   * count (the stable descending sort keeps the first of equal counts).
   */
  ghost predicate IsTopMood(s: seq<MoodRecord>, m: string) {
    var d := Distinct(s);
    && m in d
    && (forall x :: Count(s, x) <= Count(s, m))
    && (forall j, k :: 0 <= j < k < |d| && d[k] == m ==> Count(s, d[j]) < Count(s, m))
  }

  /** At most one mood is the top mood. */
  lemma TopMoodUnique(s: seq<MoodRecord>, m1: string, m2: string)
    requires IsTopMood(s, m1) && IsTopMood(s, m2)
    ensures m1 == m2
  {
    var d := Distinct(s);
    var i :| 0 <= i < |d| && d[i] == m1;
    var j :| 0 <= j < |d| && d[j] == m2;
    assert Count(s, m1) == Count(s, m2);
    assert i == j;
  }

  /**
   * The `forEach` of `getMoodStats`: `moodCounts[mood] = (moodCounts[mood] || 0) + 1`
   * and `totalScore += score` for each entry. `keys` is the insertion order of
   * the `moodCounts` object.
   */
  method CountMoods(month: seq<MoodRecord>) returns (moodCounts: map<string, nat>, keys: seq<string>, totalScore: int)
    ensures keys == Distinct(month)
    ensures forall k :: k in moodCounts <==> k in keys
    ensures forall k :: k in moodCounts ==> moodCounts[k] == Count(month, k)
    ensures totalScore == TotalScore(month)
  {
    moodCounts, keys, totalScore := map[], [], 0;
    for i := 0 to |month|
      invariant keys == Distinct(month[..i])
      invariant forall k :: k in moodCounts <==> k in keys
      invariant forall k :: k in moodCounts ==> moodCounts[k] == Count(month[..i], k)
      invariant totalScore == TotalScore(month[..i])
    {
      assert month[..i + 1][..i] == month[..i];
      DistinctKeys(month[..i]);
      var m := month[i].mood;
      var c := if m in moodCounts then moodCounts[m] else 0;
      if m !in moodCounts {
        keys := keys + [m];
      }
      moodCounts := moodCounts[m := c + 1];
      totalScore := totalScore + Score(m);
    }
    assert month[..|month|] == month;
  }

  /**
   * `Object.entries(moodCounts).sort(([, a], [, b]) => b - a).shift()`: the
   * sort is stable, so the entry left in front is the first key with the
   * largest count.
   */
  method FirstMostFrequent(keys: seq<string>, moodCounts: map<string, nat>) returns (top: nat)
    requires |keys| > 0
    requires forall k :: k in keys ==> k in moodCounts
    ensures top < |keys|
    ensures forall k :: 0 <= k < |keys| ==> moodCounts[keys[k]] <= moodCounts[keys[top]]
    ensures forall k :: 0 <= k < top ==> moodCounts[keys[k]] < moodCounts[keys[top]]
  {
    top := 0;
    for j := 1 to |keys|
      invariant top < j
      invariant forall k :: 0 <= k < j ==> moodCounts[keys[k]] <= moodCounts[keys[top]]
      invariant forall k :: 0 <= k < top ==> moodCounts[keys[k]] < moodCounts[keys[top]]
    {
      if moodCounts[keys[j]] > moodCounts[keys[top]] {
        top := j;
      }
    }
  }

  /** `getMoodStats`, with the month bounds as inputs. */
  method GetMoodStats(moods: seq<MoodRecord>, monthStart: int, monthEnd: int) returns (stats: MoodStats)
    ensures ThisMonth(moods, monthStart, monthEnd) == [] ==> stats == NoStats
    ensures var month := ThisMonth(moods, monthStart, monthEnd);
      month != [] ==>
        && stats.totalEntries == |month|
        && stats.averageScore == TotalScore(month) as real / |month| as real
        && 1.0 <= stats.averageScore <= 5.0
        && (stats.topMood.Some? ==> stats.topMood.value != "" && IsTopMood(month, stats.topMood.value))
        && (stats.topMood.None? ==> IsTopMood(month, ""))
  {
    if |moods| == 0 {
      return NoStats;
    }
    var month := ThisMonth(moods, monthStart, monthEnd);
    if |month| == 0 {
      return NoStats;
    }
    var moodCounts, keys, totalScore := CountMoods(month);
    DistinctKeys(month);
    assert Count(month, month[|month| - 1].mood) > 0;
    var top := FirstMostFrequent(keys, moodCounts);
    var topMood := keys[top];
    TopOfCounts(month, keys, moodCounts, top);
    ScoreBounds(month);
    AverageBounds(totalScore, |month|);
    stats := MoodStats(|month|, if topMood == "" then None else Some(topMood), totalScore as real / |month| as real);
  }

  /** The key `FirstMostFrequent` picks from the counted dictionary is the top mood. */
  lemma TopOfCounts(month: seq<MoodRecord>, keys: seq<string>, moodCounts: map<string, nat>, top: nat)
    requires keys == Distinct(month)
    requires forall k :: k in moodCounts <==> k in keys
    requires forall k :: k in moodCounts ==> moodCounts[k] == Count(month, k)
    requires top < |keys|
    requires forall k :: 0 <= k < |keys| ==> moodCounts[keys[k]] <= moodCounts[keys[top]]
    requires forall k :: 0 <= k < top ==> moodCounts[keys[k]] < moodCounts[keys[top]]
    ensures IsTopMood(month, keys[top])
  {
    DistinctKeys(month);
    var m := keys[top];
    forall x ensures Count(month, x) <= Count(month, m) {
      if x in keys {
        var k :| 0 <= k < |keys| && keys[k] == x;
        assert moodCounts[keys[k]] <= moodCounts[m];
      }
    }
  }

  /** Every entry scores between 1 and 5. */
  lemma {:induction false} ScoreBounds(s: seq<MoodRecord>)
    ensures |s| <= TotalScore(s) <= 5 * |s|
  {
    if s != [] {
      ScoreBounds(s[..|s| - 1]);
    }
  }

  lemma AverageBounds(total: int, n: int)
    requires 0 < n && n <= total <= 5 * n
    ensures 1.0 <= total as real / n as real <= 5.0
  {
    assert n as real <= total as real <= 5.0 * n as real;
  }

  /** The sum of the counts of the moods in `keys`. */
  function SumCounts(keys: seq<string>, s: seq<MoodRecord>): nat {
    if keys == [] then 0 else SumCounts(keys[..|keys| - 1], s) + Count(s, keys[|keys| - 1])
  }

  lemma {:induction false} SumCountsAppend(keys: seq<string>, s: seq<MoodRecord>, x: MoodRecord)
    requires NoDuplicates(keys)
    ensures SumCounts(keys, s + [x]) == SumCounts(keys, s) + (if x.mood in keys then 1 else 0)
  {
    assert (s + [x])[..|s|] == s;
    if keys != [] {
      var init := keys[..|keys| - 1];
      assert NoDuplicates(init);
      SumCountsAppend(init, s, x);
      assert x.mood in keys <==> x.mood in init || x.mood == keys[|keys| - 1];
    }
  }

  /** The per-mood counts add up to the number of entries: nothing is counted twice or lost. */
  lemma {:induction false} CountsSumToTotal(s: seq<MoodRecord>)
    ensures SumCounts(Distinct(s), s) == |s|
  {
    if s != [] {
      var init := s[..|s| - 1];
      var x := s[|s| - 1];
      assert s == init + [x];
      CountsSumToTotal(init);
      DistinctKeys(init);
      DistinctKeys(s);
      SumCountsAppend(Distinct(init), init, x);
      if x.mood !in Distinct(init) {
        assert Distinct(s) == Distinct(init) + [x.mood];
        assert Distinct(s)[..|Distinct(s)| - 1] == Distinct(init);
      }
    }
  }

  /** A month of only happy entries scores 5. */
  lemma {:induction false} AllHappyScoresFive(s: seq<MoodRecord>)
    requires forall i :: 0 <= i < |s| ==> s[i].mood == "happy"
    ensures TotalScore(s) == 5 * |s|
  {
    if s != [] {
      AllHappyScoresFive(s[..|s| - 1]);
    }
  }

  /** The five descriptions of an average score. */
  datatype MoodLabel = Poor | BelowAverage | Average | Good | Excellent

  function LabelText(l: MoodLabel): string {
    match l
    case Excellent => "Excellent"
    case Good => "Good"
    case Average => "Average"
    case BelowAverage => "Below average"
    case Poor => "Poor"
  }

  /** Position of a label on the scale, Poor = 0 to Excellent = 4. */
  function Rank(l: MoodLabel): nat {
    match l
    case Poor => 0
    case BelowAverage => 1
    case Average => 2
    case Good => 3
    case Excellent => 4
  }

  /**
   * `getMoodDescription`: the rank of the label is the number of thresholds
   * 1.5, 2.5, 3.5, 4.5 the score strictly exceeds.
   */
  function MoodDescription(score: real): (r: MoodLabel)
    ensures Rank(r) == 0 || score > Rank(r) as real + 0.5
    ensures Rank(r) == 4 || score <= Rank(r) as real + 1.5
  {
    if score > 4.5 then Excellent
    else if score > 3.5 then Good
    else if score > 2.5 then Average
    else if score > 1.5 then BelowAverage
    else Poor
  }

  /** A higher score never gets a lower description. */
  lemma MoodDescriptionMonotone(a: real, b: real)
    requires a <= b
    ensures Rank(MoodDescription(a)) <= Rank(MoodDescription(b))
  {
  }
}
