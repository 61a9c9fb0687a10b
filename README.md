# Football simulator model

A Dafny model of a Monte Carlo football simulator with two modes.

**League mode** is written six times, in `league.py`, `2.py`, `leaguetest.py`, `real.py`, `leaguegood.py` and `test.py`. It works as follows:

- It reads team lines and fixture lines.
- It rates each side of a fixture. The home side adds a bonus of 60, and some files blend a base and a recent rating as 0.9/0.1.
- It turns the two ratings into win, draw and loss probabilities.
- Each trial restarts from the input points, plays every fixture with one uniform draw, and ranks the table with a stable descending sort.
- It credits every team's counters: rank sum, championships, points sum and rank histogram.
- It summarises the counters as percentages and means. Some files add a TOP5 figure or a rank-range column, as listed below.

The six files differ in a few places:

- the team-line format: three or four tokens;
- whether fixture names are checked: `test.py` does not check them;
- the crediting loop: two loops; one loop without a break (`real.py`); or one merged loop with a break (`leaguetest.py`);
- whether the rank range is validated (`real.py`);
- the summary fields each file shows:
  - `league.py`: championship percentage, mean rank, mean points, place percentages, TOP5 and the range column;
  - `2.py`: the same without TOP5;
  - `leaguegood.py`: the same without TOP5 and without the range column;
  - `leaguetest.py`: mean points, place percentages and the range column;
  - `real.py`: mean points, place percentages, championship percentage and the checked range column;
  - `test.py`: mean rank, mean points, championship percentage and place percentages.

The model keeps each of these variants. `Summary.SummaryOf` computes every summary field; each file's table shows a subset of them. The range column is `Summary.RangeSum`, or `Summary.CheckedRange` for `real.py`.

**Knockout mode** is `tor.py`:

- It reads "slot name Elo" lines into numbered slots.
- It plays each slot's two teams against each other. A draw band of 0.24 is settled by a second draw.
- It pairs the winners of neighbouring sorted slots into the next round.
- Over N trials it counts one credit per team and round reached, plus one for the title.

**Modelling choices.**

- Randomness is an explicit source `rng: nat -> real` plus a cursor.
  - League trial k reads fixture j's draw at `rng(k * |fixtures| + j)`.
  - A knockout match consumes one draw, or two when drawn.
- `10 ** x` is an abstract function (`Probability.PowerOfTen`). It is positive and equal to 1 at 0. Lemmas that compare two ratings also require it to be increasing.
- The Python dict of teams is a sequence of entries in insertion order.
- A knockout round is a slot list kept sorted by key, which is the only order `simulate_round` reads it in.
- Loops of the source are methods with loop invariants, each proved equal to a recursive specification function. The properties are proved as lemmas about those functions.

Files:

- `basics.dfy`: Option, Result, tokens, sums, Python slices.
- `probability.dfy`: the win and draw curves, the fixture triple, the league sampler.
- `teams.dfy`: the team table, ratings, team and fixture parsing.
- `standings.dfy`: the stable descending ranking and its leading run.
- `league.dfy`: trials, the three crediting loops, runs and their tallies.
- `summary.dfy`: percentages, means, TOP5, rank ranges and output orders.
- `knockout.dfy`: all of `tor.py`.

## Model

| member | source | states |
|---|---|---|
| Basics.PySlice | league.py:171 | Python's `s[a:b]` is the ordinary slice when the bounds are in range. A negative bound counts from the end. A start before the beginning acts as 0, and an end past the end acts as the length. The slice is empty when the start is at or past the end. It is never longer than `s` and holds only elements of `s`. |
| Probability.Logistic | league.py:59 | `1 / (1 + x)` for a positive x lies strictly between 0 and 1. It is at least 1/2 when x <= 1, at most 1/2 when x >= 1, and exactly 1/2 at x = 1. |
| Probability.LogisticAntitone | league.py:59 | The curve `1 / (1 + x)` never rises as x grows. |
| Probability.Exponent | league.py:58 | The exponent `(e2 - e1) * 1.2 / 400` is not positive when the first side is the stronger, and not negative when it is the weaker. |
| Probability.WinProb | league.py:57-59 | `win_prob` always lies strictly between 0 and 1. |
| Probability.WinProbFavoursStronger | league.py:57-59 | When 10 ** x is increasing, the stronger side has at least an even chance and the weaker side at most one. |
| Probability.WinProbEven | league.py:57-59 | Equal ratings give probability exactly 1/2. |
| Probability.WinProbMonotone | league.py:57-59 | With 10 ** x increasing, raising a side's rating never lowers its win probability. |
| Probability.DrawProbability | league.py:62-69 | The draw probability is 0.15 exactly when the gap is >= 300, and 0.18 exactly when 100 <= gap < 300. Below a gap of 100 it lies in (0.23, 0.26], reaching 0.26 exactly at equal ratings. It always lies in [0.15, 0.26]. |
| Probability.DrawSymmetric | league.py:62-69 | The draw probability does not depend on which side is first. |
| Probability.DrawMonotone | league.py:62-69 | A wider rating gap never makes a draw more likely. |
| Probability.Renormalise | league.py:83-85 | With p = 1 the two adjusted shares already add up to one, so dividing by their total keeps each share. |
| Probability.Split | league.py:80-90 | The triple adds up to exactly 1. Both decisive outcomes lie in (0, 1). Win and loss are the base shares scaled by (1 - draw). |
| Probability.Probabilities | league.py:72-90 | `match_probabilities` at p = 1: win + draw + loss = 1. The draw is `draw_probability` of the two ratings. Win and loss are `win_prob` and `1 - win_prob`, each scaled by (1 - draw). |
| Probability.Score | league.py:93-100 | The sampler: a draw below `win` gives (3,0); one in [win, win+draw) gives (1,1); anything else gives (0,3). Each case holds in both directions. Every fixture awards 3 or 2 points. |
| Probability.ScoreMonotone | league.py:93-100 | A larger draw never gives the home side more points or the away side fewer. |
| Teams.Find | league.py:43 | The slot of a name, found exactly when the name is registered: the first entry carrying it. |
| Teams.FindUnique | league.py:24 | In a table with distinct names, the entry carrying a name is the one found. |
| Teams.Put | league.py:24-29 | `teams[name] = ...`: a known name keeps its position, a new one is appended, and the names of the old positions do not change. |
| Teams.PutLookup | league.py:24-29 | After the assignment the name maps to the new record and every other name keeps its record. The registered names grow by that name only, and names stay distinct. |
| Teams.BaseRating | league.py:51 | The base of `combined_elo`: the stored Elo, or a blend that moves one tenth of the way from the base Elo to the recent one and so lies between the two. |
| Teams.HomeAdvantage | league.py:50-54 | `combined_elo`: a team's home rating exceeds its away rating by exactly its home bonus. `real.py`'s conditional expression on line 45 parses as (base + bonus) if home else base, so the same holds there. |
| Teams.BlendOfEqual | league.py:51 | The 0.9/0.1 blend of two equal ratings is that rating. |
| Teams.ReadTeamLine | league.py:12-29 | A team line is accepted exactly when it has the format's token count (3 or 4) with float ratings and integer points. The record takes the name from the first token, the points from the last, and a home bonus of 60. Its rating is the Elo of the second token, or, with four tokens, the base and recent Elo of the second and third. |
| Teams.ParseTeams | league.py:8-30 | The parsing loop returns what the specification `TeamsFrom` gives for the lines. |
| Teams.NoneStaysNone | league.py:13-15 | Once a line is rejected, the whole parse returns None. |
| Teams.TeamsFromFails | league.py:8-30 | The team parse fails exactly when some line is malformed. |
| Teams.TeamsFromContents | league.py:8-30 | A parsed table has distinct names and registers exactly the names of its lines. Each name gets the record of the last line naming it, and the table has no more entries than lines. |
| Teams.ReadFixtureLine | leaguegood.py:29-34 | A fixture line is accepted exactly when it has two tokens and, where names are checked, both are registered. It yields those two names in order. |
| Teams.ParseFixtures | league.py:33-47 | The fixture loop returns the specification `FixturesFrom` of the lines. |
| Teams.FixturesFromMeaning | test.py:25-34 | The fixture parse fails exactly on a line without two tokens, or, when names are checked, on an unregistered name. Otherwise it keeps every line in input order; `test.py` checks no names. |
| Standings.InsertDesc | league.py:115 | Inserting a team into the order adds one entry and exactly that team. |
| Standings.OrderDesc | league.py:115 | The order of the first k teams has length k and holds exactly the indices below k. |
| Standings.InsertDescKeepsOrder | league.py:115 | Inserting a later team after its equals keeps an order duplicate-free, descending and stable. |
| Standings.InsertSorted | league.py:115 | Inserting team k-1 into a stable descending sort of k-1 teams gives one of k teams. |
| Standings.OrderDescSorted | league.py:115 | The order of the first k teams is a permutation, descending by points, with ties in input order. |
| Standings.RankingSorted | league.py:115 | `sorted(..., key=points, reverse=True)` is a permutation of all teams, descending, with ties in input order (Python's sort is stable). |
| Standings.Max | league.py:122 | The maximum is at least every entry and is one of them. |
| Standings.TopIsMax | league.py:122 | `sorted_teams[0][1]` is the maximum of the points. |
| Standings.LeadFromRun | league.py:123-127 | In a descending order, the run counted from the head is exactly the places level with the first place. |
| Standings.LeadIsMaxTies | league.py:122-127 | The leading run is non-empty and holds exactly the places whose team has the maximum points. |
| Standings.PosInPermutation | league.py:117 | In a permutation every team has a place, and the team at place a has place a. |
| Standings.RankingFacts | league.py:115-127 | The ranking is a permutation, and the places level with first place are exactly its leading run. |
| League.Resolve | test.py:49-51 | Fixtures resolve to table slots exactly when every named team is registered; otherwise `test.py` raises KeyError. Resolved slots carry the fixture's names. |
| League.CheckedFixturesResolve | league.py:43-46 | Fixtures from a parser that checks names always resolve. |
| League.InitialPointsByName | league.py:108 | In a table with distinct names, each team starts a trial with the points looked up under its name. |
| League.FixtureOdds | league.py:110 | A fixture's win, draw and loss chances add up to 1, and win and loss lie in (0, 1). They come from the home team's base rating plus its bonus against the away team's base rating. The draw chance also uses the rating with the bonus. |
| League.FixtureOddsAll | league.py:110 | Every fixture gets the odds of its own two teams, home side first, so all trials see the same odds. |
| League.Award | league.py:112-113 | After one fixture the home team has gained the first score and the away team the second; a team meeting itself gains both. |
| League.AwardEffect | league.py:112-113 | One fixture changes only its two teams' points, each by its own score. The table total grows by the two scores. |
| League.PlayTrial | league.py:109-113 | The fixture loop returns the specification points after all fixtures. |
| League.TrialPointsTotal | league.py:109-113 | After k fixtures the table holds between 2k and 3k more points than at the start. |
| League.TrialPointsLocal | leaguegood.py:84-89 | No team loses points in a trial, and a team that plays no fixture keeps its starting points. |
| League.ZeroCounters | league.py:105 | The counters start with one histogram slot per rank. |
| League.CreditRankStep | league.py:117-120 | Crediting place q adds q+1 to that team's rank sum, its points to its points sum, and one to its histogram slot q. This equals the specification credited one place further. |
| League.CreditTitleStep | league.py:123-125 | Crediting a championship to the next place of the leading run adds one to that team's championships only. |
| League.Reach | leaguetest.py:96-104 | Places receiving rank credit: all n, except in the merged loop, which stops one place after the leading run. |
| League.CreditTwoLoops | league.py:117-127 | The rank loop followed by the championship loop with its break credits every place, and the championship to exactly the leading run. |
| League.CreditNoBreak | real.py:98-103 | The single loop without a break credits every place, and the championship to exactly the places level with the top. |
| League.CreditMerged | leaguetest.py:96-104 | The merged loop credits the leading run plus the first place below it, and championships to the leading run only. |
| League.OneTrial | league.py:107-127 | One trial (reset, play, rank, credit) gives the specification counters of that trial. |
| League.RunTrials | league.py:107-127 | The trial loop gives the specification counters after N trials. |
| League.RunLeague | league.py:103-127 | `run_simulation` gives the specification run: counters after N trials, or the error it stops with. |
| League.LeagueRunFails | test.py:71-88 | A run fails exactly when a trial runs and either a fixture names an unregistered team or the table is empty. Otherwise every counter keeps a full histogram. |
| League.CreditedAt | league.py:117-127 | A team's counters after a trial are its old counters credited for its own place. |
| League.CreditOneEffect | league.py:117-125 | A team at place a gains a+1 rank points, its points and one histogram entry when ranked, and a championship when in the leading run. |
| League.CreditedColumn | league.py:117-120 | Each credited place q adds exactly one entry to column q of the histograms, and an uncredited place adds none. |
| League.TrialRankingFacts | league.py:115-127 | A team is in the leading run exactly when it has the maximum points. Every variant except the merged loop credits all places. |
| League.ZeroTallies | league.py:105 | Fresh counters satisfy the tallies for zero trials. |
| League.CreditedTallies | league.py:117-127 | Crediting one trial moves every tally from k trials to k+1. |
| League.CreditedTitles | league.py:122-125 | Every trial hands out at least one championship. |
| League.TrialsTallies | league.py:105-127 | After k trials every team has at most k championships and at most k ranks recorded. Its rank sum is its histogram's weighted sum. First place went out k times, and at least k championships went out. Except in the merged loop, every row and every column of the histograms sums to k. |
| League.TrialsTalliesStep | league.py:107-127 | The tallies hold from one trial count to the next. |
| League.TrialTallies | league.py:107-127 | One more credited trial adds one to every tally. |
| League.MergedSkipsRanks | leaguetest.py:96-104 | With points [3, 0, 0], the merged loop leaves the third team without rank, histogram or points credit. The two-loop crediting records its third place. |
| League.CreditTrialEffect | league.py:115-127 | In every variant, a team gains one championship exactly when it has the maximum points. Except in the merged loop, every team gains its place + 1 in rank sum, its points, and one histogram entry. |
| Summary.Pct | league.py:132 | `count / n * 100` is the percentage that gives back count when taken of the n trials. It is non-negative for a non-negative count. |
| Summary.Mean | league.py:136-138 | `total / n` is the mean: n times it gives back the total. It is non-negative for a non-negative total. |
| Summary.PctAdd | league.py:132 | `count / n * 100` adds up like the counts. |
| Summary.PctBounds | league.py:132-136 | A count between 0 and N is a percentage between 0 and 100, and N counts are 100. |
| Summary.RankPcts | league.py:132 | One percentage per place. Taken of the n trials, each gives back that place's count. |
| Summary.Top5 | league.py:133 | `sum(rank_probs[:5])` is the sum of the first five places' percentages, or of all of them when there are fewer than five. |
| Summary.SummaryOf | league.py:134-141 | A team's summary row: TOP5 is the percentage of the trials that the team finished in the first five places. The other fields are the percentage and means of its counters. |
| Summary.Summaries | league.py:129-142 | The summary has one row per team. With no trials and some team it is the division by zero Python raises. |
| Summary.Summarize | leaguegood.py:101-111 | The summary loop gives the specification summaries. |
| Summary.RankPctsSumTo | league.py:132 | Summed rank percentages are the percentage of the summed counts. |
| Summary.SummaryPercentages | league.py:129-141 | The championship and rank percentages lie in [0, 100] and there is one rank percentage per team. They add up to 100 when every place is credited, and to at most 100 otherwise. |
| Summary.Top5Bounds | league.py:133 | TOP5 lies in [0, 100], and is 100 when every place is credited and there are at most five teams. |
| Summary.MeanOfMultiple | league.py:138 | The mean of N trials of m each is m. |
| Summary.MeanRankBounds | league.py:137 | With every place credited, the mean rank lies between 1 and the number of teams. |
| Summary.SplitOn | leaguetest.py:127 | `str.split("~")`: the pieces hold no separator, and joining them with the separator gives back the text. A text without the separator is one piece. |
| Summary.SplitJoin | leaguetest.py:127 | Splitting pieces joined by the separator gives back the pieces when none holds it. |
| Summary.ParseRange | leaguetest.py:127-130 | An accepted range text is two integer texts around a single "~". A text without "~" is rejected. |
| Summary.RangeTextRoundTrip | leaguetest.py:127-130 | Two texts without "~" joined by "~" give back their two integers, or are rejected when one is not an integer. |
| Summary.RangeTextTooManyParts | leaguetest.py:127-130 | A text with two or more "~" is rejected (`map(int, ...)` cannot unpack into two names). |
| Summary.RangeSum | league.py:171 | `sum(probs[n-1:m])`, as also in `2.py` and `leaguetest.py`: for 1 <= n <= m <= team count it is exactly the sum over places n to m, the prefix sum to m minus the prefix sum to n-1. |
| Summary.CheckedRange | real.py:134-137 | A range is accepted exactly when 1 <= start <= end <= team count, and then sums exactly places start..end: the prefix sum to end minus the prefix sum before start. |
| Summary.CheckedRangeMeaning | real.py:134-137 | An accepted range is the sum of places start..end, and lies in [0, 100]. |
| Summary.FullRange | real.py:134-137 | The range 1~n is 100 when every place is credited. |
| Summary.ZeroStartRange | league.py:171 | The unchecked range "0~m" with m below the team count reads 0, and the checked range rejects it. |
| Summary.ByMeanPoints | real.py:113 | The `real.py` and `leaguetest.py` table lists every team once, points sums never rising down the table. Teams with equal sums stay in team order, as `leaguetest.py`'s stable `sorted` promises. |
| Summary.ByMeanRank | test.py:107 | The `test.py` table lists every team once, rank sums never falling down the table. Teams with equal sums stay in team order. |
| Summary.MeanMonotone | real.py:113 | Dividing by the trial count keeps the order of sums. |
| Summary.OutputOrders | real.py:113 | Each result table lists every team once. Mean points never rise down the `real.py` table, and mean rank never falls down the `test.py` table. |
| Knockout.AddEntry | tor.py:42 | Appending to a slot keeps the slots sorted by key and keeps every slot holding a team. |
| Knockout.AddEntryLookup | tor.py:42 | `matches[num].append(e)` adds e at the end of slot num and leaves every other slot as it was. |
| Knockout.ReadEntryLine | tor.py:31-41 | A line is accepted exactly when it has three tokens whose first and last are integers, and it yields (slot, name, Elo). |
| Knockout.ParseBracket | tor.py:28-43 | The parsing loop gives the specification `BracketFrom` of all lines. |
| Knockout.NoneStaysNone | tor.py:32-41 | Once a line is rejected, the parse returns None. |
| Knockout.BracketFromMeaning | tor.py:28-43 | The parse fails exactly when some line is malformed. Otherwise the slots are sorted, every slot holds at least one team, and every slot number holds the teams of its lines, in input order. So the slots are exactly the numbers some line names. |
| Knockout.EloWinProb | tor.py:8-9 | `elo_win_prob` lies strictly between 0 and 1. |
| Knockout.EloWinProbFavours | tor.py:8-9 | Equal ratings give 1/2. With 10 ** x increasing, the higher rating gets at least 1/2. |
| Knockout.Decide | tor.py:13-24 | A match uses one draw, or two when drawn. |
| Knockout.DecideMeaning | tor.py:13-24 | A wins below P - 0.12. The next 0.24 is a draw settled by a second draw below 0.5 for A. B wins above that. Two draws are used exactly in the draw band. |
| Knockout.DecideBands | tor.py:13-24 | Between equal ratings A wins outright below 0.38. With 10 ** x increasing, the stronger side wins outright on [0, 0.38) and the weaker side loses outright on [0.62, 1). |
| Knockout.PairsFrom | tor.py:61-73 | The pairs loop never moves the draw cursor back. |
| Knockout.PairsFromStep | tor.py:61-73 | An unplayable pair is skipped. A played pair puts slot i//2+1 with its two winners in front of the rest, and the rest starts at the cursor after both matches. |
| Knockout.SimulateRound | tor.py:47-75 | `simulate_round` returns the specification `Round`. |
| Knockout.PlayPairs | tor.py:61-73 | The loop over pairs of sorted keys returns the specification `PairsFrom`. |
| Knockout.PairsFromRel | tor.py:61-73 | The pairs loop makes slots related to its round pair by pair, whatever the draws. |
| Knockout.PickFed | tor.py:68-73 | The slot a played pair makes holds entry 0 or 1 of each of its two feeder slots. |
| Knockout.PairsRelShape | tor.py:61-73 | Related slots are sorted and numbered within (i/2, k/2], with at most one per remaining pair, each fed by its pair. There is one for every pair whose two slots hold two teams. |
| Knockout.PairsFromShape | tor.py:61-73 | The next round of a non-final round has that shape. |
| Knockout.ShapeSkip | tor.py:66-67 | A pair with a slot of fewer than two teams adds no slot. |
| Knockout.ShapeCons | tor.py:68-73 | A played pair adds its slot in front and keeps the shape. |
| Knockout.FinalRound | tor.py:53-58 | One slot is the final. There is a champion exactly when it holds two teams, the champion is one of them, and no next round remains. |
| Knockout.PairedRound | tor.py:61-75 | Any other round has no champion. Its next round has at most k/2 slots, sorted and numbered 1..k/2, with two teams each. |
| Knockout.FedNames | tor.py:68-73 | Slots fed from a round hold only teams of that round. |
| Knockout.RoundNames | tor.py:47-75 | Every team in the next round is a team of this round. |
| Knockout.StagesFrom | tor.py:80-83 | The rounds played are the suffix of the order from the start round: non-empty, ending at the final, and holding the final only at the end. |
| Knockout.SlotCredits | tor.py:95-96 | One credit per team of a slot, in slot order. |
| Knockout.CreditPair | tor.py:95-96 | The innermost loop adds exactly the slot's credits to the counts. |
| Knockout.CreditNextRound | tor.py:94-96 | The loop over the next round's slots adds one credit per team in it. |
| Knockout.CreditRound | tor.py:93-99 | A round adds its advance credits, or for the final the title when there is a champion with a non-empty name. |
| Knockout.CreditsOfNext | tor.py:94-96 | Every credit of a non-final round is that round's advance credit, given to a team of the next round. |
| Knockout.RoundCreditsMeaning | tor.py:93-99 | A non-final round hands out only its advance credit and no title. The final hands out one title exactly when it has a named champion, and nothing else. |
| Knockout.TrialTitles | tor.py:91-99 | A trial whose rounds hold the final only at the end hands out at most one title. |
| Knockout.TrialsTitles | tor.py:87-99 | k such trials hand out at most k titles. |
| Knockout.TrialCreditsStep | tor.py:91-99 | A trial's credits are its first round's credits plus the rest's. |
| Knockout.PlayTrial | tor.py:91-99 | The rounds loop adds the specification credits of the trial and returns the cursor after it. |
| Knockout.TrialsCreditsStep | tor.py:87-99 | The first k+1 trials are the first k plus one more, from the cursor they left. |
| Knockout.NextTrial | tor.py:88-99 | One trial-loop pass succeeds exactly when the input parses, and then advances the run by one trial. |
| Knockout.RunTrials | tor.py:87-99 | The trial loop returns the specification run. |
| Knockout.RunSimulations | tor.py:79-99 | `run_simulations` returns the counts of the specification run with `simulate_match` as the match. |
| Knockout.KnockoutRunFails | tor.py:87-90 | The run fails exactly when some trial is played and the input does not parse. |
| Knockout.SoFarRun | tor.py:87-99 | After N trials the counts are what the run reports. |

## Left out

- The Streamlit and pandas layer is not modelled: input widgets, `st.error`/`st.stop`, DataFrame building, styling and display rounding. Parser errors become `None`, and `2.py`'s raised ValueError is modelled as `None` too.
- `test.py` calls `float()` outside a `try` block. The model treats its bad numeric tokens like the other parsers do: the line is rejected.
- Numeric token parsing (`float()`, `int()`) is not modelled. A token carries what those calls yield, or nothing where they raise.
- `10 ** x` is abstract (`PowerOfTen`): positive and 1 at 0. Lemmas that compare ratings also require it to be increasing; real exponentiation is not modelled.
- The model does not capture Python raising OverflowError in `10 ** x`. That happens for rating gaps above about 102,750 Elo in the league files (exponent gap * 1.2 / 400) and above about 123,300 in `tor.py` (gap / 400), where the exponent passes about 308.
- `float()` accepts "nan" and "inf". The model's ratings are exact reals, so it does not capture such inputs.
- Summary.ByMeanPoints: teams with equal points sums stay in team order in the model. `leaguetest.py` sorts with Python's stable `sorted`, so this matches there. `real.py` uses pandas `sort_values`, whose default quicksort does not promise an order for ties.
- Summary.ByMeanRank: teams with equal rank sums stay in team order in the model. `test.py` uses pandas `sort_values`, which does not promise an order for ties.
- `pow(x, p)` is modelled only for p = 1, the value every caller passes.
- Floating-point rounding is not modelled: all arithmetic is over exact reals and integers.
- `random.random()` is not modelled. Draws come from a parameter `rng`, and a knockout round takes the match as a parameter (`Knockout.Match`). `Knockout.Simulate` instantiates it with `simulate_match`.
- League mode computes the fixture odds once per fixture rather than once per trial. `match_probabilities` depends only on the table, so every trial sees the same triples.
- Knockout results stop at the count of each credit. The percentage DataFrame built from them (`tor.py:101-106`) is not modelled.
- The Elo update tools `elocal.py`, `elocal2.py` and `4.py` are not part of this model. They are a separate rating tool built on floating-point square roots, powers and session state.

## Findings

| source | as written | input that shows it | evidently intended | confidence | as-written member | corrected member |
|---|---|---|---|---|---|---|
| leaguetest.py:96-104 | Rank, points and histogram credit share one loop with the championship, and the loop breaks at the first team below the top. Every team after it gets no credit in that trial. | Three teams finishing on 3, 0 and 0 points. The third team records no rank and no points, so its rank percentages add up to less than 100. | Break only the championship credit, as `league.py` does, so every team records its place in every trial (`League.TrialsTallies`: every row and column sums to N). | not executed | League.MergedSkipsRanks | League.CreditTwoLoops |
| league.py:171 | The range column sums `probs[n-1:m]` without checking the range. | The range "0~2" with three teams: the slice `[-1:2]` is empty, so the column reads 0 even for a team that finished first in every trial. | Accept only 1 <= n <= m <= team count, as `real.py` does, and then sum places n..m. | not executed | Summary.ZeroStartRange | Summary.CheckedRange |
