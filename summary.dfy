/** The end of a league run: each team's counters turned into percentages
    and means, the TOP5 figure, the rank-range column and the order the
    result table is shown in. */
module Summary {
  import opened Basics
  import opened Standings
  import opened League

  /** count / n * 100, Python's percentage of the trials: the share that,
      taken of N trials, gives back count hundredths. */
  function Pct(count: int, N: nat): (r: real)
    requires N > 0
    ensures r * N as real == count as real * 100.0
    ensures count >= 0 ==> r >= 0.0
  {
    count as real / N as real * 100.0
  }

  /** total / n, Python's mean over the trials: N times it is the total. */
  function Mean(total: int, N: nat): (r: real)
    requires N > 0
    ensures r * N as real == total as real
    ensures total >= 0 ==> r >= 0.0
  {
    total as real / N as real
  }

  /** Percentages add up like their counts. */
  lemma PctAdd(a: int, b: int, N: nat)
    requires N > 0
    ensures Pct(a, N) + Pct(b, N) == Pct(a + b, N)
  {
    var n := N as real;
    assert a as real / n + b as real / n == (a + b) as real / n;
  }

  /** A count between 0 and the number of trials is a percentage between 0
      and 100, and a mean of values between lo and hi lies between them. */
  lemma PctBounds(count: int, N: nat)
    requires N > 0 && 0 <= count <= N
    ensures 0.0 <= Pct(count, N) <= 100.0
    ensures count == N ==> Pct(count, N) == 100.0
  {
    var n := N as real;
    assert count as real / n <= 1.0;
    if count == N {
      assert count as real / n == 1.0;
    }
  }

  /** The summary row of one team. */
  datatype TeamSummary = TeamSummary(
    titlePct: real,        // "우승확률(%)"
    meanRank: real,        // "평균순위"
    meanPoints: real,      // "평균승점"
    rankPcts: seq<real>,   // "순위별확률(%)", one entry per place
    top5: real)            // "TOP5확률(%)"

  /** Every rank count as a percentage of the trials: one entry per place,
      each giving back its count when taken of N trials. */
  function RankPcts(h: seq<int>, N: nat): (r: seq<real>)
    requires N > 0
    ensures |r| == |h| && forall q :: 0 <= q < |h| ==> r[q] == Pct(h[q], N)
    ensures forall q :: 0 <= q < |h| ==> r[q] * N as real == h[q] as real * 100.0
  {
    seq(|h|, q requires 0 <= q < |h| => Pct(h[q], N))
  }

  /** The first five rank percentages added up (sum(rank_probs[:5])): the
      sum over the first five places, or over all of them when there are
      fewer than five. */
  function Top5(pcts: seq<real>): (r: real)
    ensures r == SumRealTo(pcts, if |pcts| < 5 then |pcts| else 5)
  {
    var k := if |pcts| < 5 then |pcts| else 5;
    assert PySlice(pcts, 0, 5) == pcts[..k];
    SumRealPrefix(pcts, k, k);
    SumReal(PySlice(pcts, 0, 5))
  }

  /** The summary row of one team: the championship percentage, the mean
      rank and mean points of its counters, one percentage per place, and
      TOP5, which is the percentage of the trials the team finished in one
      of the first five places. */
  function SummaryOf(c: Counter, N: nat): (s: TeamSummary)
    requires N > 0
    ensures s.titlePct == Pct(c.titles, N)
    ensures s.meanRank == Mean(c.rankSum, N) && s.meanPoints == Mean(c.pointsSum, N)
    ensures s.rankPcts == RankPcts(c.hist, N)
    ensures s.top5 == Pct(SumTo(c.hist, if |c.hist| < 5 then |c.hist| else 5), N)
  {
    var pcts := RankPcts(c.hist, N);
    var k := if |c.hist| < 5 then |c.hist| else 5;
    var top := SumTo(c.hist, k);
    RankPctsSumTo(c.hist, N, k);
    assert Top5(pcts) == Pct(top, N);
    TeamSummary(Pct(c.titles, N), Mean(c.rankSum, N), Mean(c.pointsSum, N), pcts, Top5(pcts))
  }

  /** Why the summary cannot be built: n_simulations is 0 and there is a
      team to divide for (ZeroDivisionError). */
  datatype SummaryError = DivisionByZero

  /** The summary dictionary in team order, or the division by zero it
      raises when no trial ran. */
  function Summaries(cs: seq<Counter>, N: nat): (r: Result<seq<TeamSummary>, SummaryError>)
    ensures r.Err? <==> N == 0 && |cs| > 0
    ensures r.Ok? ==> |r.value| == |cs|
  {
    if |cs| == 0 then Ok([])
    else if N == 0 then Err(DivisionByZero)
    else Ok(seq(|cs|, i requires 0 <= i < |cs| => SummaryOf(cs[i], N)))
  }

  /** The summary loop of run_simulation. */
  method Summarize(cs: seq<Counter>, N: nat) returns (r: Result<seq<TeamSummary>, SummaryError>)
    ensures r == Summaries(cs, N)
  {
    var rows: seq<TeamSummary> := [];
    var i := 0;
    while i < |cs|
      invariant 0 <= i <= |cs|
      invariant N > 0 ==> rows == seq(i, j requires 0 <= j < i => SummaryOf(cs[j], N))
      invariant N == 0 ==> i == 0 && rows == []
    {
      if N == 0 {
        return Err(DivisionByZero);
      }
      var c := cs[i];
      var pcts := RankPcts(c.hist, N);
      rows := rows + [TeamSummary(Pct(c.titles, N), Mean(c.rankSum, N), Mean(c.pointsSum, N), pcts, Top5(pcts))];
      i := i + 1;
    }
    return Ok(rows);
  }

  /** Rank percentages add up like the counts behind them. */
  lemma {:induction false} RankPctsSumTo(h: seq<int>, N: nat, k: nat)
    requires N > 0 && k <= |h|
    ensures SumRealTo(RankPcts(h, N), k) == Pct(SumTo(h, k), N)
  {
    if k == 0 {
    } else {
      RankPctsSumTo(h, N, k - 1);
      PctAdd(SumTo(h, k - 1), h[k - 1], N);
    }
  }

  /** A sum of non-negative reals grows with its length. */
  lemma {:induction false} SumRealToMonotone(s: seq<real>, j: nat, k: nat)
    requires j <= k <= |s| && forall q :: 0 <= q < |s| ==> s[q] >= 0.0
    ensures 0.0 <= SumRealTo(s, j) <= SumRealTo(s, k)
  {
    if j < k {
      SumRealToMonotone(s, j, k - 1);
    } else if j > 0 {
      SumRealToMonotone(s, j - 1, j - 1);
    }
  }

  /** A prefix sums to the prefix sum. */
  lemma {:induction false} SumRealPrefix(s: seq<real>, k: nat, j: nat)
    requires j <= k <= |s|
    ensures SumRealTo(s[..k], j) == SumRealTo(s, j)
  {
    if j > 0 {
      SumRealPrefix(s, k, j - 1);
    }
  }

  /** The sum of a slice s[a..b] is the difference of two prefix sums. */
  lemma {:induction false} SumRealSlice(s: seq<real>, a: nat, b: nat, j: nat)
    requires a <= b <= |s| && j <= b - a
    ensures SumRealTo(s[a..b], j) == SumRealTo(s, a + j) - SumRealTo(s, a)
  {
    if j > 0 {
      SumRealSlice(s, a, b, j - 1);
    }
  }

  /** After N trials of crediting every place a team's rank percentages add
      up to 100; with the merged loop they add up to at most 100. Each one
      and the championship percentage lie between 0 and 100. */
  lemma SummaryPercentages(c: Counter, n: nat, N: nat, full: bool)
    requires N > 0 && TeamTally(c, n, N, full)
    ensures var s := SummaryOf(c, N);
      |s.rankPcts| == n
      && 0.0 <= s.titlePct <= 100.0
      && (forall q :: 0 <= q < n ==> 0.0 <= s.rankPcts[q])
      && SumReal(s.rankPcts) <= 100.0
      && (full ==> SumReal(s.rankPcts) == 100.0)
  {
    PctBounds(c.titles, N);
    RankPctsSumTo(c.hist, N, n);
    PctBounds(Sum(c.hist), N);
    forall q | 0 <= q < n
      ensures 0.0 <= Pct(c.hist[q], N)
    {
      var x := c.hist[q] as real / N as real;
      assert x >= 0.0;
    }
  }

  /** TOP5 is the share of trials that ended in the first five places:
      between 0 and 100, and exactly 100 when every place is credited and
      there are at most five teams. */
  lemma Top5Bounds(c: Counter, n: nat, N: nat, full: bool)
    requires N > 0 && TeamTally(c, n, N, full)
    ensures var s := SummaryOf(c, N);
      0.0 <= s.top5 <= 100.0 && (full && n <= 5 ==> s.top5 == 100.0)
  {
    SummaryPercentages(c, n, N, full);
    var pcts := RankPcts(c.hist, N);
    var k := if n < 5 then n else 5;
    assert PySlice(pcts, 0, 5) == pcts[..k];
    SumRealPrefix(pcts, k, k);
    SumRealToMonotone(pcts, k, n);
  }

  /** The mean of m per trial over N trials is m. */
  lemma MeanOfMultiple(m: int, N: nat)
    requires N > 0
    ensures Mean(m * N, N) == m as real
  {
    assert (m * N) as real == m as real * N as real;
  }

  /** Mean rank is a place: with every place credited it lies between 1
      and the number of teams. */
  lemma MeanRankBounds(c: Counter, n: nat, N: nat)
    requires N > 0 && TeamTally(c, n, N, true)
    ensures 1.0 <= SummaryOf(c, N).meanRank <= n as real
  {
    WeightedBounds(c.hist, n);
    MeanMonotone(1 * N, c.rankSum, N);
    MeanMonotone(c.rankSum, n * N, N);
    MeanOfMultiple(1, N);
    MeanOfMultiple(n, N);
  }

  /** Each place counts once and at most k times toward the weighted sum of
      a non-negative histogram prefix. */
  lemma {:induction false} WeightedBounds(h: seq<int>, k: nat)
    requires k <= |h| && forall q :: 0 <= q < |h| ==> h[q] >= 0
    ensures SumTo(h, k) <= WeightedTo(h, k) <= k * SumTo(h, k)
  {
    if k > 0 {
      WeightedBounds(h, k - 1);
      SumToNonneg(h, k - 1);
      assert (k - 1) * SumTo(h, k - 1) <= k * SumTo(h, k - 1);
      assert k * SumTo(h, k) == k * SumTo(h, k - 1) + k * h[k - 1];
    }
  }

  /** Python's s.split(sep): the pieces between the separators, in order,
      one more piece than there are separators. */
  function SplitOn(s: string, sep: char): (parts: seq<string>)
    ensures |parts| >= 1
    ensures forall i :: 0 <= i < |parts| ==> sep !in parts[i]
    ensures JoinWith(parts, sep) == s
    ensures sep !in s ==> parts == [s]
    decreases |s|
  {
    if |s| == 0 then [""]
    else
      var rest := SplitOn(s[1..], sep);
      if s[0] == sep then
        assert s == [sep] + s[1..];
        [""] + rest
      else
        var first := [s[0]] + rest[0];
        assert sep !in first;
        JoinCons(s[0], rest, sep);
        assert s == [s[0]] + s[1..];
        [first] + rest[1..]
  }

  /** sep.join(parts). */
  function JoinWith(parts: seq<string>, sep: char): string
    requires |parts| >= 1
  {
    if |parts| == 1 then parts[0] else parts[0] + [sep] + JoinWith(parts[1..], sep)
  }

  /** Putting a character in front of the first piece puts it in front of
      the joined text. */
  lemma JoinCons(c: char, parts: seq<string>, sep: char)
    requires |parts| >= 1
    ensures JoinWith([[c] + parts[0]] + parts[1..], sep) == [c] + JoinWith(parts, sep)
  {
    var q := [[c] + parts[0]] + parts[1..];
    assert q[1..] == parts[1..];
  }

  /** Splitting a join gives the pieces back when no piece holds the
      separator. */
  lemma {:induction false} SplitJoin(parts: seq<string>, sep: char)
    requires |parts| >= 1 && forall i :: 0 <= i < |parts| ==> sep !in parts[i]
    ensures SplitOn(JoinWith(parts, sep), sep) == parts
    decreases |JoinWith(parts, sep)|
  {
    var s := JoinWith(parts, sep);
    if |parts| == 1 {
    } else if |parts[0]| == 0 {
      var tail := parts[1..];
      assert s == [sep] + JoinWith(tail, sep);
      assert s[1..] == JoinWith(tail, sep);
      SplitJoin(tail, sep);
      assert parts == [""] + tail;
    } else {
      var c := parts[0][0];
      var shorter := [parts[0][1..]] + parts[1..];
      assert shorter[1..] == parts[1..];
      assert parts[0] == [c] + parts[0][1..];
      assert [[c] + shorter[0]] + shorter[1..] == parts;
      JoinCons(c, shorter, sep);
      assert s == [c] + JoinWith(shorter, sep);
      assert s[1..] == JoinWith(shorter, sep);
      SplitJoin(shorter, sep);
    }
  }

  /** "n~m" split at "~" and read with int() (readInt stands for int(), None
      where it raises ValueError): exactly two pieces, both integers, else
      the range is rejected. An accepted text is the two integers' texts
      around a single "~"; a text without "~" is rejected. */
  function ParseRange(text: string, readInt: string -> Option<int>): (r: Option<(int, int)>)
    ensures r.Some? ==> var p := SplitOn(text, '~');
      |p| == 2 && text == p[0] + "~" + p[1] && readInt(p[0]) == Some(r.value.0) && readInt(p[1]) == Some(r.value.1)
    ensures '~' !in text ==> r.None?
  {
    var parts := SplitOn(text, '~');
    if |parts| == 2 && readInt(parts[0]).Some? && readInt(parts[1]).Some? then
      assert parts[1..] == [parts[1]];
      assert JoinWith(parts[1..], '~') == parts[1];
      assert text == parts[0] + "~" + parts[1];
      Some((readInt(parts[0]).value, readInt(parts[1]).value))
    else None
  }

  /** Two integer texts around one "~" are read back as that pair, and a
      piece that is not an integer rejects the range. */
  lemma RangeTextRoundTrip(x: string, y: string, readInt: string -> Option<int>)
    requires '~' !in x && '~' !in y
    ensures ParseRange(x + "~" + y, readInt)
      == if readInt(x).Some? && readInt(y).Some? then Some((readInt(x).value, readInt(y).value)) else None
  {
    SplitJoin([x, y], '~');
    assert JoinWith([x, y], '~') == x + "~" + y by {
      assert [x, y][1..] == [y];
    }
  }

  /** A text with two or more "~" is rejected. */
  lemma RangeTextTooManyParts(x: string, y: string, z: string, readInt: string -> Option<int>)
    requires '~' !in x && '~' !in y
    ensures ParseRange(x + "~" + y + "~" + z, readInt).None?
  {
    var text := x + "~" + y + "~" + z;
    var zs := SplitOn(z, '~');
    SplitJoin([x, y] + zs, '~');
    assert JoinWith([x, y] + zs, '~') == text by {
      var p := [x, y] + zs;
      assert p[1..] == [y] + zs && p[1..][1..] == zs;
    }
  }

  /** The range column as league.py, 2.py and leaguetest.py compute it:
      sum(probs[a-1:b]), with Python's slice rules and no bounds check. For
      1 <= a <= b <= n it adds exactly places a to b. */
  function RangeSum(pcts: seq<real>, a: int, b: int): (r: real)
    ensures 1 <= a <= b <= |pcts| ==> r == SumRealTo(pcts, b) - SumRealTo(pcts, a - 1)
  {
    if 1 <= a <= b <= |pcts| then
      assert PySlice(pcts, a - 1, b) == pcts[a - 1..b];
      SumRealSlice(pcts, a - 1, b, b - a + 1);
      SumReal(PySlice(pcts, a - 1, b))
    else SumReal(PySlice(pcts, a - 1, b))
  }

  /** real.py: the range is accepted only when 1 <= a <= b <= n, and is then
      the sum of the percentages of places a to b. */
  function CheckedRange(pcts: seq<real>, a: int, b: int): (r: Option<real>)
    ensures r.Some? <==> 1 <= a <= b <= |pcts|
    ensures r.Some? ==> r.value == SumRealTo(pcts, b) - SumRealTo(pcts, a - 1)
    ensures r.Some? ==> r.value == RangeSum(pcts, a, b)
  {
    if 1 <= a <= b <= |pcts| then Some(RangeSum(pcts, a, b)) else None
  }

  /** An accepted range adds exactly places a to b of a team's rank
      percentages (non-negative, adding up to at most 100, as
      SummaryPercentages shows): a percentage between 0 and 100. */
  lemma CheckedRangeMeaning(pcts: seq<real>, a: int, b: int)
    requires forall q :: 0 <= q < |pcts| ==> pcts[q] >= 0.0
    requires SumReal(pcts) <= 100.0 && 1 <= a <= b <= |pcts|
    ensures CheckedRange(pcts, a, b) == Some(SumRealTo(pcts, b) - SumRealTo(pcts, a - 1))
    ensures 0.0 <= CheckedRange(pcts, a, b).value <= 100.0
  {
    SumRealToMonotone(pcts, a - 1, b);
    SumRealToMonotone(pcts, b, |pcts|);
  }

  /** Over all places the range is 100 when every place is credited. */
  lemma FullRange(c: Counter, n: nat, N: nat)
    requires N > 0 && TeamTally(c, n, N, true) && 1 <= n
    ensures CheckedRange(SummaryOf(c, N).rankPcts, 1, n) == Some(100.0)
  {
    var pcts := SummaryOf(c, N).rankPcts;
    SummaryPercentages(c, n, N, true);
    assert PySlice(pcts, 0, n) == pcts;
  }

  /** A range typed from 0 ("0~m") is not rejected by the unchecked column:
      the slice starts at the last place, so with m below the number of
      teams it is empty and the column reads 0, even for a team that
      finished first in every trial. */
  lemma ZeroStartRange(pcts: seq<real>, m: int)
    requires 0 <= m < |pcts|
    ensures RangeSum(pcts, 0, m) == 0.0
    ensures CheckedRange(pcts, 0, m).None?
  {
  }

  /** The result table of real.py and leaguetest.py: every team once, by
      points sum (and so by mean points), highest first. leaguetest.py's
      sorted() is stable, so equal means keep team order there; real.py's
      pandas sort_values does not promise an order for ties, and the model
      keeps team order for them too. */
  function ByMeanPoints(cs: seq<Counter>): (o: seq<nat>)
    ensures IsPermutation(o, |cs|)
    ensures forall a, b :: 0 <= a < b < |cs| ==> cs[o[a]].pointsSum >= cs[o[b]].pointsSum
    ensures forall a, b :: 0 <= a < b < |cs| && cs[o[a]].pointsSum == cs[o[b]].pointsSum ==> o[a] < o[b]
  {
    var ps := seq(|cs|, i requires 0 <= i < |cs| => cs[i].pointsSum);
    RankingSorted(ps);
    Ranking(ps)
  }

  /** The result table of test.py: every team once, by rank sum (and so by
      mean rank), lowest first, computed as the descending ranking of the
      negated sums. pandas sort_values does not promise an order for ties;
      the model keeps team order for them. */
  function ByMeanRank(cs: seq<Counter>): (o: seq<nat>)
    ensures IsPermutation(o, |cs|)
    ensures forall a, b :: 0 <= a < b < |cs| ==> cs[o[a]].rankSum <= cs[o[b]].rankSum
    ensures forall a, b :: 0 <= a < b < |cs| && cs[o[a]].rankSum == cs[o[b]].rankSum ==> o[a] < o[b]
  {
    var rs := seq(|cs|, i requires 0 <= i < |cs| => -cs[i].rankSum);
    RankingSorted(rs);
    Ranking(rs)
  }

  /** Mean division keeps order. */
  lemma MeanMonotone(x: int, y: int, N: nat)
    requires N > 0 && x <= y
    ensures Mean(x, N) <= Mean(y, N)
  {
    var n := N as real;
    assert y as real / n - x as real / n == (y - x) as real / n;
  }

  /** Every team appears once in each result table; mean points never rise
      down the first, mean rank never falls down the second. */
  lemma OutputOrders(cs: seq<Counter>, N: nat)
    requires N > 0
    ensures IsPermutation(ByMeanPoints(cs), |cs|) && IsPermutation(ByMeanRank(cs), |cs|)
    ensures var o := ByMeanPoints(cs);
      forall a, b :: 0 <= a < b < |cs| ==> Mean(cs[o[a]].pointsSum, N) >= Mean(cs[o[b]].pointsSum, N)
    ensures var o := ByMeanRank(cs);
      forall a, b :: 0 <= a < b < |cs| ==> Mean(cs[o[a]].rankSum, N) <= Mean(cs[o[b]].rankSum, N)
  {
    var o := ByMeanPoints(cs);
    forall a, b | 0 <= a < b < |cs|
      ensures Mean(cs[o[a]].pointsSum, N) >= Mean(cs[o[b]].pointsSum, N)
    {
      MeanMonotone(cs[o[b]].pointsSum, cs[o[a]].pointsSum, N);
    }
    var u := ByMeanRank(cs);
    forall a, b | 0 <= a < b < |cs|
      ensures Mean(cs[u[a]].rankSum, N) <= Mean(cs[u[b]].rankSum, N)
    {
      MeanMonotone(cs[u[a]].rankSum, cs[u[b]].rankSum, N);
    }
  }
}
