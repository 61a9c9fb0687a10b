/** League mode: one trial plays every fixture from the teams' current
    points, ranks the table, and credits each team's counters; a run repeats
    the trial N times. The crediting loop comes in three variants:
    TwoLoops (league.py, 2.py, leaguegood.py, test.py), NoBreak (real.py) and
    Merged (leaguetest.py). */
module League {
  import opened Basics
  import opened Probability
  import opened Teams
  import opened Standings

  /** A fixture resolved to the table slots of its home and away teams. */
  datatype Pairing = Pairing(home: nat, away: nat)

  predicate ValidPairings(ps: seq<Pairing>, n: nat)
  {
    forall j :: 0 <= j < |ps| ==> ps[j].home < n && ps[j].away < n
  }

  /** Why a run stops with an exception: a fixture names a team the table
      does not have (KeyError in test.py, whose parser does not check names),
      or the table is empty (IndexError at sorted_teams[0]). */
  datatype RunError = UnknownTeam | NoTeams

  /** The table slots of every fixture, or None if some name is missing. */
  function Resolve(t: Table, fs: seq<Fixture>): (r: Option<seq<Pairing>>)
    ensures r.Some? <==> forall j :: 0 <= j < |fs| ==> Registered(t, fs[j].home) && Registered(t, fs[j].away)
    ensures r.Some? ==> |r.value| == |fs| && ValidPairings(r.value, |t|)
    ensures r.Some? ==> forall j :: 0 <= j < |fs| ==>
      t[r.value[j].home].name == fs[j].home && t[r.value[j].away].name == fs[j].away
  {
    if forall j :: 0 <= j < |fs| ==> Registered(t, fs[j].home) && Registered(t, fs[j].away) then
      Some(seq(|fs|, j requires 0 <= j < |fs| => Pairing(Find(t, fs[j].home).value, Find(t, fs[j].away).value)))
    else None
  }

  /** The parsers that check names never hand over an unresolvable fixture. */
  lemma CheckedFixturesResolve(lines: seq<Line>, t: Table)
    requires FixturesFrom(lines, t, true).Some?
    ensures Resolve(t, FixturesFrom(lines, t, true).value).Some?
  {
    FixturesFromMeaning(lines, t, true);
  }

  /** sim_points at the start of every trial: the points read from input. */
  function InitialPoints(t: Table): (pts: seq<int>)
    ensures |pts| == |t| && forall i :: 0 <= i < |t| ==> pts[i] == t[i].record.points
  {
    seq(|t|, i requires 0 <= i < |t| => t[i].record.points)
  }

  /** sim_points = {team: teams[team]["승점"] ...}: in a table with distinct
      names, the starting points of each slot are the points looked up by
      that slot's team name. */
  lemma InitialPointsByName(t: Table)
    requires DistinctNames(t)
    ensures forall i :: 0 <= i < |t| ==>
      Lookup(t, t[i].name).Some? && InitialPoints(t)[i] == Lookup(t, t[i].name).value.points
  {
    forall i | 0 <= i < |t|
      ensures Lookup(t, t[i].name).Some? && InitialPoints(t)[i] == Lookup(t, t[i].name).value.points
    {
      FindUnique(t, t[i].name, i);
    }
  }

  /** match_probabilities for a fixture: a win, draw and loss chance adding
      up to one, computed from the home side's base rating plus its bonus and
      the away side's base rating alone; the draw chance, too, uses the
      rating with the bonus. */
  function FixtureOdds(ten: PowerOfTen, t: Table, p: Pairing): (o: Triple)
    requires p.home < |t| && p.away < |t|
    ensures o.win + o.draw + o.loss == 1.0
    ensures 0.0 < o.win < 1.0 && 0.0 < o.loss < 1.0
    ensures var h := BaseRating(t[p.home].record.rating) + t[p.home].record.homeBonus;
      var a := BaseRating(t[p.away].record.rating);
      o.draw == DrawProbability(h, a) && o.win == WinProb(ten, h, a) * (1.0 - o.draw)
      && o.loss == (1.0 - WinProb(ten, h, a)) * (1.0 - o.draw)
  {
    var h := EffectiveRating(t[p.home].record, true);
    var a := EffectiveRating(t[p.away].record, false);
    assert h == BaseRating(t[p.home].record.rating) + t[p.home].record.homeBonus;
    assert a == BaseRating(t[p.away].record.rating);
    Probabilities(ten, h, a)
  }

  /** The triple of every fixture. match_probabilities depends on the table
      only, so every trial sees the same triples. */
  function FixtureOddsAll(ten: PowerOfTen, t: Table, ps: seq<Pairing>): (odds: seq<Triple>)
    requires ValidPairings(ps, |t|)
    ensures |odds| == |ps|
    ensures forall j :: 0 <= j < |ps| ==> odds[j] == FixtureOdds(ten, t, ps[j])
  {
    seq(|ps|, j requires 0 <= j < |ps| => FixtureOdds(ten, t, ps[j]))
  }

  /** The two points updates of one fixture, home first: the home team gains
      the first score and the away team the second, both of them when a
      team meets itself. */
  function Award(pts: seq<int>, p: Pairing, s: (int, int)): (r: seq<int>)
    requires p.home < |pts| && p.away < |pts|
    ensures |r| == |pts|
    ensures p.home != p.away ==> r[p.home] == pts[p.home] + s.0 && r[p.away] == pts[p.away] + s.1
    ensures p.home == p.away ==> r[p.home] == pts[p.home] + s.0 + s.1
  {
    var after := pts[p.home := pts[p.home] + s.0];
    after[p.away := after[p.away] + s.1]
  }

  /** What one fixture does to the rest of the table: every other team
      keeps its points, and the table total grows by the two scores. */
  lemma AwardEffect(pts: seq<int>, p: Pairing, s: (int, int))
    requires p.home < |pts| && p.away < |pts|
    ensures var r := Award(pts, p, s);
      (forall i :: 0 <= i < |pts| && i != p.home && i != p.away ==> r[i] == pts[i])
      && Sum(r) == Sum(pts) + s.0 + s.1
  {
    var after := pts[p.home := pts[p.home] + s.0];
    SumUpdate(pts, p.home, s.0);
    SumUpdate(after, p.away, s.1);
  }

  /** Points after the first k fixtures of a trial that starts from init and
      whose draws start at rng(base): fixture j uses rng(base + j). */
  function TrialPoints(init: seq<int>, ps: seq<Pairing>, odds: seq<Triple>, rng: nat -> real, base: nat, k: nat): (pts: seq<int>)
    requires k <= |ps| == |odds| && ValidPairings(ps, |init|)
    ensures |pts| == |init|
  {
    if k == 0 then init
    else
      var p := ps[k - 1];
      Award(TrialPoints(init, ps, odds, rng, base, k - 1), p, Score(odds[k - 1], rng(base + k - 1)))
  }

  /** The fixture loop of one trial. */
  method PlayTrial(init: seq<int>, ps: seq<Pairing>, odds: seq<Triple>, rng: nat -> real, base: nat) returns (pts: seq<int>)
    requires |ps| == |odds| && ValidPairings(ps, |init|)
    ensures pts == TrialPoints(init, ps, odds, rng, base, |ps|)
  {
    pts := init;
    var j := 0;
    while j < |ps|
      invariant 0 <= j <= |ps|
      invariant pts == TrialPoints(init, ps, odds, rng, base, j)
    {
      var p := ps[j];
      var s := Score(odds[j], rng(base + j));
      pts := pts[p.home := pts[p.home] + s.0];
      pts := pts[p.away := pts[p.away] + s.1];
      j := j + 1;
    }
  }

  /** Each fixture hands out 3 or 2 points, so after k fixtures the table
      holds between 2k and 3k more points than it started with. */
  lemma {:induction false} TrialPointsTotal(init: seq<int>, ps: seq<Pairing>, odds: seq<Triple>, rng: nat -> real, base: nat, k: nat)
    requires k <= |ps| == |odds| && ValidPairings(ps, |init|)
    ensures 2 * k <= Sum(TrialPoints(init, ps, odds, rng, base, k)) - Sum(init) <= 3 * k
  {
    if k > 0 {
      TrialPointsTotal(init, ps, odds, rng, base, k - 1);
      var prev := TrialPoints(init, ps, odds, rng, base, k - 1);
      var p := ps[k - 1];
      AwardEffect(prev, p, Score(odds[k - 1], rng(base + k - 1)));
    }
  }

  /** A team that plays none of the first k fixtures keeps its starting
      points, and no team ever loses points. */
  lemma {:induction false} TrialPointsLocal(init: seq<int>, ps: seq<Pairing>, odds: seq<Triple>, rng: nat -> real, base: nat, k: nat)
    requires k <= |ps| == |odds| && ValidPairings(ps, |init|)
    ensures forall i :: 0 <= i < |init| ==> TrialPoints(init, ps, odds, rng, base, k)[i] >= init[i]
    ensures forall i :: 0 <= i < |init| && (forall j :: 0 <= j < k ==> ps[j].home != i && ps[j].away != i) ==>
      TrialPoints(init, ps, odds, rng, base, k)[i] == init[i]
  {
    if k > 0 {
      TrialPointsLocal(init, ps, odds, rng, base, k - 1);
    }
  }

  /** One team's counters: rank sum, championships, points sum and the rank
      histogram ("순위합", "1위횟수", "총승점", "순위별횟수"). */
  datatype Counter = Counter(rankSum: int, titles: int, pointsSum: int, hist: seq<int>)

  /** Every team has a histogram with one slot per rank. */
  predicate WellShaped(cs: seq<Counter>, n: nat)
  {
    |cs| == n && forall i :: 0 <= i < n ==> |cs[i].hist| == n
  }

  function ZeroCounters(n: nat): (cs: seq<Counter>)
    ensures WellShaped(cs, n)
  {
    seq(n, i => Counter(0, 0, 0, seq(n, q => 0)))
  }

  /** One team's counters after a trial in which it finished at place a
      (0-based) with p points: ranks are credited to the places before reach,
      championships to the places before titled. */
  function CreditOne(c: Counter, a: nat, p: int, reach: nat, titled: nat): Counter
  {
    var ranked := a < reach && a < |c.hist|;
    Counter(
      c.rankSum + (if ranked then a + 1 else 0),
      c.titles + (if a < titled then 1 else 0),
      c.pointsSum + (if ranked then p else 0),
      if ranked then c.hist[a := c.hist[a] + 1] else c.hist)
  }

  /** Every team's counters after a trial ranked by order. */
  function Credited(cs: seq<Counter>, order: seq<nat>, pts: seq<int>, reach: nat, titled: nat): (r: seq<Counter>)
    requires |pts| == |cs|
    ensures |r| == |cs|
    ensures WellShaped(cs, |cs|) ==> WellShaped(r, |cs|)
  {
    seq(|cs|, i requires 0 <= i < |cs| => CreditOne(cs[i], Pos(order, i), pts[i], reach, titled))
  }

  /** Crediting one more place changes only the counters of the team there. */
  lemma CreditRankStep(cs: seq<Counter>, order: seq<nat>, pts: seq<int>, reach: nat, titled: nat, r: seq<Counter>)
    requires IsPermutation(order, |cs|) && |pts| == |cs| && WellShaped(cs, |cs|) && reach < |cs|
    requires r == Credited(cs, order, pts, reach, titled)
    ensures order[reach] < |r| && reach < |r[order[reach]].hist|
    ensures var i := order[reach];
      r[i := r[i].(rankSum := r[i].rankSum + (reach + 1), pointsSum := r[i].pointsSum + pts[i],
                   hist := r[i].hist[reach := r[i].hist[reach] + 1])] == Credited(cs, order, pts, reach + 1, titled)
  {
    PosInPermutation(order, |cs|);
  }

  /** Crediting the championship to one more place changes only the
      championship count of the team there. */
  lemma CreditTitleStep(cs: seq<Counter>, order: seq<nat>, pts: seq<int>, reach: nat, titled: nat, r: seq<Counter>)
    requires IsPermutation(order, |cs|) && |pts| == |cs| && titled < |cs|
    requires r == Credited(cs, order, pts, reach, titled)
    ensures order[titled] < |r|
    ensures var i := order[titled];
      r[i := r[i].(titles := r[i].titles + 1)] == Credited(cs, order, pts, reach, titled + 1)
  {
    PosInPermutation(order, |cs|);
  }

  /** How the three crediting loops differ. */
  datatype Variant = TwoLoops | NoBreak | Merged

  /** How many places receive rank credit: all of them, except in the merged
      loop, which stops right after the first place below the top. */
  function Reach(v: Variant, lead: nat, n: nat): (k: nat)
    requires lead <= n
    ensures k <= n
  {
    if v == Merged && lead < n then lead + 1 else n
  }

  /** What one trial does to the counters, given its final points. */
  function CreditTrialSpec(v: Variant, cs: seq<Counter>, pts: seq<int>): seq<Counter>
    requires |pts| == |cs| && |pts| > 0
  {
    Credited(cs, Ranking(pts), pts, Reach(v, Lead(pts), |pts|), Lead(pts))
  }

  /** The rank loop and then the championship loop with its break (league.py,
      2.py, leaguegood.py, test.py). */
  method CreditTwoLoops(cs: seq<Counter>, order: seq<nat>, pts: seq<int>, ghost lead: nat) returns (r: seq<Counter>)
    requires |pts| == |cs| > 0 && WellShaped(cs, |cs|)
    requires IsPermutation(order, |cs|) && LeadingRun(order, pts, lead)
    ensures r == Credited(cs, order, pts, Reach(TwoLoops, lead, |cs|), lead)
  {
    var n := |cs|;
    r := cs;
    assert r == Credited(cs, order, pts, 0, 0);
    var q := 0;
    while q < n
      invariant 0 <= q <= n
      invariant r == Credited(cs, order, pts, q, 0)
    {
      CreditRankStep(cs, order, pts, q, 0, r);
      var i := order[q];
      r := r[i := r[i].(rankSum := r[i].rankSum + (q + 1), pointsSum := r[i].pointsSum + pts[i],
                        hist := r[i].hist[q := r[i].hist[q] + 1])];
      q := q + 1;
    }
    var top := pts[order[0]];
    q := 0;
    while q < n
      invariant 0 <= q <= lead
      invariant r == Credited(cs, order, pts, n, q)
    {
      var i := order[q];
      if pts[i] == top {
        CreditTitleStep(cs, order, pts, n, q, r);
        r := r[i := r[i].(titles := r[i].titles + 1)];
        q := q + 1;
      } else {
        break;
      }
    }
  }

  /** real.py: one loop over the whole table, crediting the championship to
      every team level with the top, without a break. */
  method CreditNoBreak(cs: seq<Counter>, order: seq<nat>, pts: seq<int>, ghost lead: nat) returns (r: seq<Counter>)
    requires |pts| == |cs| > 0 && WellShaped(cs, |cs|)
    requires IsPermutation(order, |cs|) && LeadingRun(order, pts, lead)
    ensures r == Credited(cs, order, pts, Reach(NoBreak, lead, |cs|), lead)
  {
    var n := |cs|;
    var top := pts[order[0]];
    r := cs;
    assert r == Credited(cs, order, pts, 0, 0);
    var q := 0;
    while q < n
      invariant 0 <= q <= n
      invariant r == Credited(cs, order, pts, q, if q < lead then q else lead)
    {
      CreditRankStep(cs, order, pts, q, if q < lead then q else lead, r);
      var i := order[q];
      r := r[i := r[i].(rankSum := r[i].rankSum + (q + 1), pointsSum := r[i].pointsSum + pts[i],
                        hist := r[i].hist[q := r[i].hist[q] + 1])];
      if pts[i] == top {
        CreditTitleStep(cs, order, pts, q + 1, q, r);
        r := r[i := r[i].(titles := r[i].titles + 1)];
      }
      q := q + 1;
    }
  }

  /** leaguetest.py: rank and championship credit in one loop that breaks
      at the first team below the top, after crediting that team's rank. */
  method CreditMerged(cs: seq<Counter>, order: seq<nat>, pts: seq<int>, ghost lead: nat) returns (r: seq<Counter>)
    requires |pts| == |cs| > 0 && WellShaped(cs, |cs|)
    requires IsPermutation(order, |cs|) && LeadingRun(order, pts, lead)
    ensures r == Credited(cs, order, pts, Reach(Merged, lead, |cs|), lead)
  {
    var n := |cs|;
    var top := pts[order[0]];
    r := cs;
    assert r == Credited(cs, order, pts, 0, 0);
    var q := 0;
    while q < n
      invariant 0 <= q <= lead
      invariant r == Credited(cs, order, pts, q, q)
    {
      CreditRankStep(cs, order, pts, q, q, r);
      var i := order[q];
      r := r[i := r[i].(rankSum := r[i].rankSum + (q + 1), pointsSum := r[i].pointsSum + pts[i],
                        hist := r[i].hist[q := r[i].hist[q] + 1])];
      if pts[i] == top {
        CreditTitleStep(cs, order, pts, q + 1, q, r);
        r := r[i := r[i].(titles := r[i].titles + 1)];
        q := q + 1;
      } else {
        assert q == lead && lead < n;
        return;
      }
    }
    assert q == lead == n;
  }

  /** Where trial k's draws start when every trial plays m fixtures. */
  function TrialBase(k: nat, m: nat): nat
  {
    k * m
  }

  /** Counters after the first k trials; trial k' reads its draws from
      rng(k' * |ps|) on, one per fixture. */
  function TrialsSpec(v: Variant, init: seq<int>, ps: seq<Pairing>, odds: seq<Triple>, rng: nat -> real, k: nat): (cs: seq<Counter>)
    requires |init| > 0 && |ps| == |odds| && ValidPairings(ps, |init|)
    ensures WellShaped(cs, |init|)
  {
    if k == 0 then ZeroCounters(|init|)
    else CreditTrialSpec(v, TrialsSpec(v, init, ps, odds, rng, k - 1), TrialPoints(init, ps, odds, rng, TrialBase(k - 1, |ps|), |ps|))
  }

  lemma TrialsStep(v: Variant, init: seq<int>, ps: seq<Pairing>, odds: seq<Triple>, rng: nat -> real, k: nat)
    requires |init| > 0 && |ps| == |odds| && ValidPairings(ps, |init|)
    ensures TrialsSpec(v, init, ps, odds, rng, k + 1) ==
      CreditTrialSpec(v, TrialsSpec(v, init, ps, odds, rng, k), TrialPoints(init, ps, odds, rng, TrialBase(k, |ps|), |ps|))
  {
  }

  /** One pass of the trial loop: reset the points, play the fixtures, rank,
      credit. */
  method OneTrial(v: Variant, cs: seq<Counter>, init: seq<int>, ps: seq<Pairing>, odds: seq<Triple>, rng: nat -> real, base: nat)
    returns (r: seq<Counter>)
    requires |init| > 0 && |ps| == |odds| && ValidPairings(ps, |init|) && WellShaped(cs, |init|)
    ensures r == CreditTrialSpec(v, cs, TrialPoints(init, ps, odds, rng, base, |ps|))
  {
    var pts := PlayTrial(init, ps, odds, rng, base);
    var order := Ranking(pts);
    ghost var lead := Lead(pts);
    RankingFacts(pts);
    match v
    case TwoLoops => r := CreditTwoLoops(cs, order, pts, lead);
    case NoBreak => r := CreditNoBreak(cs, order, pts, lead);
    case Merged => r := CreditMerged(cs, order, pts, lead);
  }

  /** The trial loop of run_simulation. */
  method RunTrials(v: Variant, init: seq<int>, ps: seq<Pairing>, odds: seq<Triple>, N: nat, rng: nat -> real)
    returns (cs: seq<Counter>)
    requires |init| > 0 && |ps| == |odds| && ValidPairings(ps, |init|)
    ensures cs == TrialsSpec(v, init, ps, odds, rng, N)
  {
    cs := ZeroCounters(|init|);
    var k := 0;
    while k < N
      invariant 0 <= k <= N
      invariant cs == TrialsSpec(v, init, ps, odds, rng, k)
    {
      TrialsStep(v, init, ps, odds, rng, k);
      cs := OneTrial(v, cs, init, ps, odds, rng, TrialBase(k, |ps|));
      k := k + 1;
    }
  }

  /** A whole league run: the counters after N trials, or the exception the
      run stops with. Nothing is raised when no trial runs. */
  function LeagueRun(v: Variant, ten: PowerOfTen, t: Table, fs: seq<Fixture>, N: nat, rng: nat -> real)
    : Result<seq<Counter>, RunError>
  {
    if N == 0 then Ok(ZeroCounters(|t|))
    else match Resolve(t, fs)
      case None => Err(UnknownTeam)
      case Some(ps) =>
        if |t| == 0 then Err(NoTeams)
        else Ok(TrialsSpec(v, InitialPoints(t), ps, FixtureOddsAll(ten, t, ps), rng, N))
  }

  /** run_simulation (run_league_sim in test.py). */
  method RunLeague(v: Variant, ten: PowerOfTen, t: Table, fs: seq<Fixture>, N: nat, rng: nat -> real)
    returns (r: Result<seq<Counter>, RunError>)
    ensures r == LeagueRun(v, ten, t, fs, N, rng)
  {
    if N == 0 {
      return Ok(ZeroCounters(|t|));
    }
    var resolved := Resolve(t, fs);
    if resolved.None? {
      return Err(UnknownTeam);
    }
    if |t| == 0 {
      return Err(NoTeams);
    }
    var ps := resolved.value;
    var odds := FixtureOddsAll(ten, t, ps);
    var cs := RunTrials(v, InitialPoints(t), ps, odds, N, rng);
    return Ok(cs);
  }

  /** A run fails exactly when at least one trial runs and either a fixture
      names an unregistered team or the table is empty; with names checked
      by the parser only the empty table remains. */
  lemma LeagueRunFails(v: Variant, ten: PowerOfTen, t: Table, fs: seq<Fixture>, N: nat, rng: nat -> real)
    ensures LeagueRun(v, ten, t, fs, N, rng).Err? <==>
      N > 0 && (|t| == 0 || exists j :: 0 <= j < |fs| && !(Registered(t, fs[j].home) && Registered(t, fs[j].away)))
    ensures LeagueRun(v, ten, t, fs, N, rng).Ok? ==> WellShaped(LeagueRun(v, ten, t, fs, N, rng).value, |t|)
  {
    if N > 0 && |t| == 0 && |fs| > 0 {
      assert !Registered(t, fs[0].home);
    }
  }

  /** The sum of column q of the rank histograms: how often place q was
      handed out. */
  function ColumnSum(cs: seq<Counter>, q: nat): int
    requires WellShaped(cs, |cs|) && q < |cs|
  {
    Sum(seq(|cs|, i requires 0 <= i < |cs| => cs[i].hist[q]))
  }

  /** Sum of (rank * count) over a histogram's first k slots. */
  function WeightedTo(h: seq<int>, k: nat): int
    requires k <= |h|
  {
    if k == 0 then 0 else WeightedTo(h, k - 1) + k * h[k - 1]
  }

  lemma {:induction false} WeightedToUpdate(h: seq<int>, a: nat, k: nat)
    requires a < |h| && k <= |h|
    ensures WeightedTo(h[a := h[a] + 1], k) == WeightedTo(h, k) + (if a < k then a + 1 else 0)
  {
    if k > 0 {
      WeightedToUpdate(h, a, k - 1);
    }
  }

  /** The counters of team i after a trial are its old counters credited
      for its place. */
  lemma CreditedAt(cs: seq<Counter>, order: seq<nat>, pts: seq<int>, reach: nat, lead: nat, i: nat)
    requires |pts| == |cs| && WellShaped(cs, |cs|) && i < |cs|
    requires IsPermutation(order, |cs|)
    ensures Pos(order, i) < |cs| && order[Pos(order, i)] == i
    ensures Credited(cs, order, pts, reach, lead)[i] == CreditOne(cs[i], Pos(order, i), pts[i], reach, lead)
  {
    PosInPermutation(order, |cs|);
  }

  /** One team credited for place a: a + 1 rank points, one histogram
      entry at a and its trial points when a is below reach, and a
      championship when a is in the leading run. */
  lemma CreditOneEffect(c: Counter, a: nat, p: int, reach: nat, lead: nat)
    requires a < |c.hist|
    ensures var r := CreditOne(c, a, p, reach, lead);
      var ranked := a < reach;
      r.titles == c.titles + (if a < lead then 1 else 0)
      && r.rankSum == c.rankSum + (if ranked then a + 1 else 0)
      && r.pointsSum == c.pointsSum + (if ranked then p else 0)
      && Sum(r.hist) == Sum(c.hist) + (if ranked then 1 else 0)
      && WeightedTo(r.hist, |c.hist|) == WeightedTo(c.hist, |c.hist|) + (if ranked then a + 1 else 0)
  {
    if a < reach {
      SumUpdate(c.hist, a, 1);
      WeightedToUpdate(c.hist, a, |c.hist|);
    }
  }

  /** Crediting one trial, place by place: column q gains one entry exactly
      when q is below reach. */
  lemma CreditedColumn(cs: seq<Counter>, order: seq<nat>, pts: seq<int>, reach: nat, lead: nat, q: nat)
    requires |pts| == |cs| && WellShaped(cs, |cs|) && q < |cs|
    requires IsPermutation(order, |cs|) && reach <= |cs|
    ensures ColumnSum(Credited(cs, order, pts, reach, lead), q) == ColumnSum(cs, q) + (if q < reach then 1 else 0)
  {
    PosInPermutation(order, |cs|);
    var r := Credited(cs, order, pts, reach, lead);
    var before := seq(|cs|, i requires 0 <= i < |cs| => cs[i].hist[q]);
    var after := seq(|cs|, i requires 0 <= i < |cs| => r[i].hist[q]);
    var bumped := if q < reach then before[order[q] := before[order[q]] + 1] else before;
    forall i | 0 <= i < |cs|
      ensures after[i] == bumped[i]
    {
      CreditedAt(cs, order, pts, reach, lead, i);
    }
    assert after == bumped;
    if q < reach {
      SumUpdate(before, order[q], 1);
    }
  }

  /** In a trial's ranking the leading run is exactly the teams level with
      the maximum, and every variant but the merged loop credits every
      place. */
  lemma TrialRankingFacts(v: Variant, pts: seq<int>)
    requires |pts| > 0
    ensures IsPermutation(Ranking(pts), |pts|)
    ensures forall i :: 0 <= i < |pts| ==> (Pos(Ranking(pts), i) < Lead(pts) <==> pts[i] == Max(pts))
    ensures v != Merged ==> Reach(v, Lead(pts), |pts|) == |pts|
  {
    RankingFacts(pts);
    TopIsMax(pts);
    PosInPermutation(Ranking(pts), |pts|);
  }

  /** What one team's counters satisfy after k trials: at most k
      championships, a non-negative histogram whose weighted sum is the rank
      sum, and at most k ranks recorded (exactly k when every trial credits
      every place). */
  predicate TeamTally(c: Counter, n: nat, k: nat, full: bool)
  {
    |c.hist| == n
    && 0 <= c.titles <= k
    && (forall q :: 0 <= q < n ==> c.hist[q] >= 0)
    && c.rankSum == WeightedTo(c.hist, n)
    && 0 <= Sum(c.hist) <= k
    && (full ==> Sum(c.hist) == k)
  }

  /** The championship counts of all teams added up. */
  function TitleTotal(cs: seq<Counter>): int
  {
    Sum(seq(|cs|, i requires 0 <= i < |cs| => cs[i].titles))
  }

  /** What the counters of all n teams satisfy after k trials: every team's
      tally holds, first place was handed out k times, every place k times
      when every trial credits every place, and at least k championships
      were handed out. */
  predicate Tallies(cs: seq<Counter>, n: nat, k: nat, full: bool)
  {
    WellShaped(cs, n)
    && (forall i :: 0 <= i < n ==> TeamTally(cs[i], n, k, full))
    && (n > 0 ==> ColumnSum(cs, 0) == k)
    && (full ==> forall q :: 0 <= q < n ==> ColumnSum(cs, q) == k)
    && TitleTotal(cs) >= k
  }

  lemma ZeroTallies(n: nat, full: bool)
    ensures Tallies(ZeroCounters(n), n, 0, full)
  {
    var cs := ZeroCounters(n);
    forall i | 0 <= i < n
      ensures TeamTally(cs[i], n, 0, full)
    {
      ZeroSums(cs[i].hist, n);
    }
    forall q | 0 <= q < n
      ensures ColumnSum(cs, q) == 0
    {
      ZeroSums(seq(n, i requires 0 <= i < n => cs[i].hist[q]), n);
    }
    ZeroSums(seq(n, i requires 0 <= i < n => cs[i].titles), n);
  }

  lemma {:induction false} ZeroSums(h: seq<int>, k: nat)
    requires k <= |h| && forall q :: 0 <= q < |h| ==> h[q] == 0
    ensures SumTo(h, k) == 0 && WeightedTo(h, k) == 0
  {
    if k > 0 {
      ZeroSums(h, k - 1);
    }
  }

  /** One trial keeps the tallies: crediting a ranking whose leading run is
      not empty moves every tally from k trials to k + 1. */
  lemma CreditedTallies(cs: seq<Counter>, order: seq<nat>, pts: seq<int>, reach: nat, lead: nat, k: nat, full: bool)
    requires |pts| == |cs| > 0 && Tallies(cs, |cs|, k, full)
    requires IsPermutation(order, |cs|) && 1 <= reach <= |cs| && 1 <= lead <= |cs|
    requires full ==> reach == |cs|
    ensures Tallies(Credited(cs, order, pts, reach, lead), |cs|, k + 1, full)
  {
    var n := |cs|;
    var r := Credited(cs, order, pts, reach, lead);
    forall i | 0 <= i < n
      ensures TeamTally(r[i], n, k + 1, full)
    {
      CreditedAt(cs, order, pts, reach, lead, i);
      CreditOneEffect(cs[i], Pos(order, i), pts[i], reach, lead);
    }
    forall q | 0 <= q < n
      ensures ColumnSum(r, q) == ColumnSum(cs, q) + (if q < reach then 1 else 0)
    {
      CreditedColumn(cs, order, pts, reach, lead, q);
    }
    CreditedTitles(cs, order, pts, reach, lead);
  }

  /** A trial hands out at least one championship: the team in first place
      gets one. */
  lemma CreditedTitles(cs: seq<Counter>, order: seq<nat>, pts: seq<int>, reach: nat, lead: nat)
    requires |pts| == |cs| > 0 && WellShaped(cs, |cs|)
    requires IsPermutation(order, |cs|) && 1 <= lead
    ensures TitleTotal(Credited(cs, order, pts, reach, lead)) >= TitleTotal(cs) + 1
  {
    var n := |cs|;
    var r := Credited(cs, order, pts, reach, lead);
    var before := seq(n, i requires 0 <= i < n => cs[i].titles);
    var after := seq(n, i requires 0 <= i < n => r[i].titles);
    var gain := seq(n, i requires 0 <= i < n => after[i] - before[i]);
    forall i | 0 <= i < n
      ensures gain[i] == (if Pos(order, i) < lead then 1 else 0)
    {
      CreditedAt(cs, order, pts, reach, lead, i);
    }
    SumToAdd(before, gain, after, n);
    PosInPermutation(order, n);
    SumToAtLeastEntry(gain, n, order[0]);
  }

  /** After k trials: every team has at most k championships and at most k
      recorded ranks, its rank sum is its histogram's weighted sum, first
      place went out k times and at least k championships went out; unless
      the merged loop credits, every team has exactly k recorded ranks and
      every place went out k times. */
  lemma {:induction false} TrialsTallies(v: Variant, init: seq<int>, ps: seq<Pairing>, odds: seq<Triple>, rng: nat -> real, k: nat)
    requires |init| > 0 && |ps| == |odds| && ValidPairings(ps, |init|)
    ensures Tallies(TrialsSpec(v, init, ps, odds, rng, k), |init|, k, v != Merged)
  {
    if k == 0 {
      ZeroTallies(|init|, v != Merged);
    } else {
      var j := k - 1;
      TrialsTallies(v, init, ps, odds, rng, j);
      TrialsTalliesStep(v, init, ps, odds, rng, j);
    }
  }

  lemma TrialsTalliesStep(v: Variant, init: seq<int>, ps: seq<Pairing>, odds: seq<Triple>, rng: nat -> real, j: nat)
    requires |init| > 0 && |ps| == |odds| && ValidPairings(ps, |init|)
    requires Tallies(TrialsSpec(v, init, ps, odds, rng, j), |init|, j, v != Merged)
    ensures Tallies(TrialsSpec(v, init, ps, odds, rng, j + 1), |init|, j + 1, v != Merged)
  {
    var cs := TrialsSpec(v, init, ps, odds, rng, j);
    var pts := TrialPoints(init, ps, odds, rng, TrialBase(j, |ps|), |ps|);
    var r := TrialsSpec(v, init, ps, odds, rng, j + 1);
    assert r == CreditTrialSpec(v, cs, pts);
    TrialTallies(v, cs, pts, |init|, j, r);
  }

  /** One more trial adds one to every tally the crediting keeps. */
  lemma TrialTallies(v: Variant, cs: seq<Counter>, pts: seq<int>, n: nat, k: nat, r: seq<Counter>)
    requires |pts| == |cs| == n > 0 && Tallies(cs, n, k, v != Merged)
    requires r == CreditTrialSpec(v, cs, pts)
    ensures Tallies(r, n, k + 1, v != Merged)
  {
    RankingFacts(pts);
    CreditedTallies(cs, Ranking(pts), pts, Reach(v, Lead(pts), |pts|), Lead(pts), k, v != Merged);
  }

  /** The merged loop of leaguetest.py leaves a place without rank credit:
      with one leader on 3 points and two teams on 0, the team in third
      place records no rank and no points in that trial, so its rank
      percentages add up to less than 100, while the two-loop crediting
      records its third place. */
  lemma MergedSkipsRanks()
    ensures var cs := CreditTrialSpec(Merged, ZeroCounters(3), [3, 0, 0]);
      |cs| == 3 && |cs[2].hist| == 3 && Sum(cs[2].hist) == 0 && cs[2].pointsSum == 0
    ensures var cs := CreditTrialSpec(TwoLoops, ZeroCounters(3), [3, 0, 0]);
      |cs| == 3 && |cs[2].hist| == 3 && Sum(cs[2].hist) == 1 && cs[2].hist[2] == 1
  {
    var pts := [3, 0, 0];
    var zero := ZeroCounters(3);
    assert OrderDesc(pts, 1) == [0];
    assert OrderDesc(pts, 2) == [0, 1];
    assert Ranking(pts) == [0, 1, 2];
    assert Lead(pts) == 1;
    assert Pos(Ranking(pts), 2) == 2;
    RankingFacts(pts);
    CreditedAt(zero, Ranking(pts), pts, 2, 1, 2);
    CreditedAt(zero, Ranking(pts), pts, 3, 1, 2);
    ZeroSums(zero[2].hist, 3);
    CreditOneEffect(zero[2], 2, 0, 2, 1);
    CreditOneEffect(zero[2], 2, 0, 3, 1);
  }

  /** In every variant a trial hands a championship to exactly the teams
      level with the maximum, and, unless the merged loop credits, every
      team records its place: a + 1 rank points, one histogram entry and its
      trial points. */
  lemma CreditTrialEffect(v: Variant, cs: seq<Counter>, pts: seq<int>, i: nat)
    requires |pts| == |cs| > 0 && WellShaped(cs, |cs|) && i < |cs|
    ensures var r := CreditTrialSpec(v, cs, pts);
      var a := Pos(Ranking(pts), i);
      |r| == |cs| && a < |cs| && Ranking(pts)[a] == i
      && (r[i].titles == cs[i].titles + 1 <==> pts[i] == Max(pts))
      && (r[i].titles == cs[i].titles <==> pts[i] != Max(pts))
      && (v != Merged ==> r[i].rankSum == cs[i].rankSum + a + 1 && r[i].pointsSum == cs[i].pointsSum + pts[i]
                          && Sum(r[i].hist) == Sum(cs[i].hist) + 1)
  {
    TrialRankingFacts(v, pts);
    RankingFacts(pts);
    var order := Ranking(pts);
    CreditedAt(cs, order, pts, Reach(v, Lead(pts), |pts|), Lead(pts), i);
    CreditOneEffect(cs[i], Pos(order, i), pts[i], Reach(v, Lead(pts), |pts|), Lead(pts));
  }
}
