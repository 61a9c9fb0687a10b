/** League input: the team table (a Python dict keyed by team name, kept in
    insertion order), the rating each side plays with, and the parsing of
    team and fixture lines. */
module Teams {
  import opened Basics

  /** Team lines carry either "name elo points" (2.py, leaguetest.py,
      real.py, leaguegood.py) or "name base recent points" (league.py,
      test.py). */
  datatype TeamFormat = EloPoints | BaseRecentPoints

  datatype Rating = Current(elo: real) | Blended(base: real, recent: real)

  /** One team's record: its rating, its current league points and the home
      bonus every parser stores. */
  datatype Record = Record(rating: Rating, points: int, homeBonus: real)

  const HomeBonus: real := 60.0

  datatype TeamEntry = TeamEntry(name: string, record: Record)

  /** The teams dict: entries in insertion order. */
  type Table = seq<TeamEntry>

  predicate DistinctNames(t: Table)
  {
    forall i, j :: 0 <= i < j < |t| ==> t[i].name != t[j].name
  }

  predicate Registered(t: Table, name: string)
  {
    exists i :: 0 <= i < |t| && t[i].name == name
  }

  /** Position of name in the table, searching from index i on. */
  function FindFrom(t: Table, name: string, i: nat): (r: Option<nat>)
    requires i <= |t|
    ensures r.Some? ==> i <= r.value < |t| && t[r.value].name == name
    ensures r.Some? ==> forall j :: i <= j < r.value ==> t[j].name != name
    ensures r.None? ==> forall j :: i <= j < |t| ==> t[j].name != name
    decreases |t| - i
  {
    if i == |t| then None
    else if t[i].name == name then Some(i)
    else FindFrom(t, name, i + 1)
  }

  /** Position of name in the table (its dict slot), if registered. */
  function Find(t: Table, name: string): (r: Option<nat>)
    ensures r.Some? <==> Registered(t, name)
    ensures r.Some? ==> r.value < |t| && t[r.value].name == name
    ensures r.Some? ==> forall j :: 0 <= j < r.value ==> t[j].name != name
  {
    FindFrom(t, name, 0)
  }

  /** In a table with distinct names the slot found is the only one. */
  lemma FindUnique(t: Table, name: string, j: nat)
    requires DistinctNames(t) && j < |t| && t[j].name == name
    ensures Find(t, name) == Some(j)
  {
  }

  function Lookup(t: Table, name: string): Option<Record>
  {
    match Find(t, name)
    case Some(i) => Some(t[i].record)
    case None => None
  }

  /** teams[name] = record: an existing name keeps its position and gets the
      new record; a new name is appended. */
  function Put(t: Table, e: TeamEntry): (r: Table)
    ensures Registered(t, e.name) ==> |r| == |t|
    ensures !Registered(t, e.name) ==> |r| == |t| + 1 && r[|t|] == e
    ensures forall i :: 0 <= i < |t| ==> r[i].name == t[i].name
  {
    match Find(t, e.name)
    case Some(i) => t[i := e]
    case None => t + [e]
  }

  /** Two tables whose names agree position by position find every name in
      the same slot. */
  lemma {:induction false} FindFromSameNames(t: Table, u: Table, name: string, i: nat)
    requires |t| == |u| && i <= |t|
    requires forall j :: 0 <= j < |t| ==> t[j].name == u[j].name
    ensures FindFrom(t, name, i) == FindFrom(u, name, i)
    decreases |t| - i
  {
    if i < |t| {
      FindFromSameNames(t, u, name, i + 1);
    }
  }

  /** Appending a new entry leaves the slots of the old names alone. */
  lemma {:induction false} FindFromAppend(t: Table, e: TeamEntry, name: string, i: nat)
    requires i <= |t|
    ensures FindFrom(t + [e], name, i) ==
      if FindFrom(t, name, i).Some? then FindFrom(t, name, i)
      else if name == e.name then Some(|t|) else None
    decreases |t| - i
  {
    if i < |t| {
      assert (t + [e])[i] == t[i];
      FindFromAppend(t, e, name, i + 1);
    } else {
      assert (t + [e])[i] == e;
    }
  }

  /** After teams[name] = record, name maps to that record, every other name
      keeps its record, and the registered names grow by name only. */
  lemma PutLookup(t: Table, e: TeamEntry)
    ensures DistinctNames(t) ==> DistinctNames(Put(t, e))
    ensures Lookup(Put(t, e), e.name) == Some(e.record)
    ensures forall n :: n != e.name ==> Lookup(Put(t, e), n) == Lookup(t, n)
    ensures forall n :: Registered(Put(t, e), n) <==> Registered(t, n) || n == e.name
  {
    var r := Put(t, e);
    match Find(t, e.name)
    case Some(i) =>
      forall n ensures Find(r, n) == Find(t, n) {
        FindFromSameNames(r, t, n, 0);
      }
    case None =>
      forall n ensures Find(r, n) == (if Find(t, n).Some? then Find(t, n) else if n == e.name then Some(|t|) else None) {
        FindFromAppend(t, e, n, 0);
      }
      forall n | Find(t, n).Some? ensures Lookup(r, n) == Lookup(t, n) {
        assert r[Find(t, n).value] == t[Find(t, n).value];
      }
  }

  /** combined_elo's base: the stored Elo, or 0.9 * base + 0.1 * recent,
      which moves a tenth of the way from the base rating toward the recent
      one and so lies between the two. */
  function BaseRating(r: Rating): (e: real)
    ensures r.Current? ==> e == r.elo
    ensures r.Blended? ==> e - r.base == (r.recent - r.base) / 10.0
    ensures r.Blended? && r.base <= r.recent ==> r.base <= e <= r.recent
    ensures r.Blended? && r.recent <= r.base ==> r.recent <= e <= r.base
  {
    match r
    case Current(elo) => elo
    case Blended(base, recent) => base * 0.9 + recent * 0.1
  }

  /** combined_elo: the home side adds its home bonus, the away side does not. */
  function EffectiveRating(rec: Record, isHome: bool): (e: real)
    ensures isHome ==> e == BaseRating(rec.rating) + rec.homeBonus
    ensures !isHome ==> e == BaseRating(rec.rating)
  {
    if isHome then BaseRating(rec.rating) + rec.homeBonus else BaseRating(rec.rating)
  }

  /** Playing at home is worth exactly the stored bonus. */
  lemma HomeAdvantage(rec: Record)
    ensures EffectiveRating(rec, true) - EffectiveRating(rec, false) == rec.homeBonus
  {
  }

  /** With equal base and recent ratings the blend is that rating. */
  lemma BlendOfEqual(x: real)
    ensures BaseRating(Blended(x, x)) == x
  {
  }

  /** One team line: the right number of tokens, float ratings, an integer
      points value; anything else is rejected. */
  function ReadTeamLine(format: TeamFormat, line: Line): (r: Option<TeamEntry>)
    ensures format == EloPoints ==>
      (r.Some? <==> |line| == 3 && line[1].asFloat.Some? && line[2].asInt.Some?)
    ensures format == BaseRecentPoints ==>
      (r.Some? <==> |line| == 4 && line[1].asFloat.Some? && line[2].asFloat.Some? && line[3].asInt.Some?)
    ensures r.Some? ==> r.value.name == line[0].text && r.value.record.homeBonus == HomeBonus
    ensures r.Some? ==> r.value.record.points == line[|line| - 1].asInt.value
    ensures r.Some? && format == EloPoints ==> r.value.record.rating == Current(line[1].asFloat.value)
    ensures r.Some? && format == BaseRecentPoints ==>
      r.value.record.rating == Blended(line[1].asFloat.value, line[2].asFloat.value)
  {
    match format
    case EloPoints =>
      if |line| == 3 && line[1].asFloat.Some? && line[2].asInt.Some? then
        Some(TeamEntry(line[0].text, Record(Current(line[1].asFloat.value), line[2].asInt.value, HomeBonus)))
      else None
    case BaseRecentPoints =>
      if |line| == 4 && line[1].asFloat.Some? && line[2].asFloat.Some? && line[3].asInt.Some? then
        Some(TeamEntry(line[0].text,
          Record(Blended(line[1].asFloat.value, line[2].asFloat.value), line[3].asInt.value, HomeBonus)))
      else None
  }

  /** The table after the first k lines, or None once a line is rejected. */
  function TeamsFromPrefix(format: TeamFormat, lines: seq<Line>, k: nat): Option<Table>
    requires k <= |lines|
  {
    if k == 0 then Some([])
    else match TeamsFromPrefix(format, lines, k - 1)
      case None => None
      case Some(t) =>
        match ReadTeamLine(format, lines[k - 1])
        case None => None
        case Some(e) => Some(Put(t, e))
  }

  function TeamsFrom(format: TeamFormat, lines: seq<Line>): Option<Table>
  {
    TeamsFromPrefix(format, lines, |lines|)
  }

  /** The record the last line naming name gives it among the first k lines. */
  function LastRecord(format: TeamFormat, lines: seq<Line>, k: nat, name: string): Option<Record>
    requires k <= |lines|
  {
    if k == 0 then None
    else match ReadTeamLine(format, lines[k - 1])
      case Some(e) => if e.name == name then Some(e.record) else LastRecord(format, lines, k - 1, name)
      case None => LastRecord(format, lines, k - 1, name)
  }

  /** parse_teams: every line must be well formed; a repeated name keeps its
      first position and takes the last line's record. */
  method ParseTeams(format: TeamFormat, lines: seq<Line>) returns (r: Option<Table>)
    ensures r == TeamsFrom(format, lines)
  {
    var teams: Table := [];
    var i := 0;
    while i < |lines|
      invariant 0 <= i <= |lines|
      invariant TeamsFromPrefix(format, lines, i) == Some(teams)
    {
      var e := ReadTeamLine(format, lines[i]);
      PrefixStep(format, lines, i, teams);
      if e.None? {
        return None;
      }
      teams := Put(teams, e.value);
      i := i + 1;
    }
    return Some(teams);
  }

  /** One more line: a rejected line rejects the whole input; an accepted one
      is added to the table so far. */
  lemma PrefixStep(format: TeamFormat, lines: seq<Line>, j: nat, t: Table)
    requires j < |lines| && TeamsFromPrefix(format, lines, j) == Some(t)
    ensures ReadTeamLine(format, lines[j]).None? ==> TeamsFrom(format, lines).None?
    ensures ReadTeamLine(format, lines[j]).Some? ==>
      TeamsFromPrefix(format, lines, j + 1) == Some(Put(t, ReadTeamLine(format, lines[j]).value))
  {
    if ReadTeamLine(format, lines[j]).None? {
      NoneStaysNone(format, lines, j + 1);
    }
  }

  /** Once a line is rejected, no later line can bring the table back. */
  lemma {:induction false} NoneStaysNone(format: TeamFormat, lines: seq<Line>, k: nat)
    requires k <= |lines| && TeamsFromPrefix(format, lines, k).None?
    ensures TeamsFrom(format, lines).None?
    decreases |lines| - k
  {
    if k < |lines| {
      NoneStaysNone(format, lines, k + 1);
    }
  }

  /** The parse fails exactly when some line is malformed. */
  lemma {:induction false} TeamsFromFails(format: TeamFormat, lines: seq<Line>, k: nat)
    requires k <= |lines|
    ensures TeamsFromPrefix(format, lines, k).None? <==> exists i :: 0 <= i < k && ReadTeamLine(format, lines[i]).None?
  {
    if k > 0 {
      TeamsFromFails(format, lines, k - 1);
      if ReadTeamLine(format, lines[k - 1]).None? {
        assert exists i :: 0 <= i < k && ReadTeamLine(format, lines[i]).None? by {
          var i := k - 1;
          assert 0 <= i < k && ReadTeamLine(format, lines[i]).None?;
        }
      }
    }
  }

  /** A parsed table has distinct names, registers exactly the names of its
      lines, and gives each the record of the last line naming it. */
  lemma TeamsFromContents(format: TeamFormat, lines: seq<Line>, k: nat)
    requires k <= |lines| && TeamsFromPrefix(format, lines, k).Some?
    ensures DistinctNames(TeamsFromPrefix(format, lines, k).value)
    ensures forall name :: Lookup(TeamsFromPrefix(format, lines, k).value, name) == LastRecord(format, lines, k, name)
    ensures forall name :: Registered(TeamsFromPrefix(format, lines, k).value, name) <==>
      exists i :: 0 <= i < k && |lines[i]| > 0 && lines[i][0].text == name
    ensures |TeamsFromPrefix(format, lines, k).value| <= k
  {
    TeamsFromRecords(format, lines, k);
    TeamsFromNames(format, lines, k);
  }

  /** The records of a parsed table: distinct names, each with the record of
      the last line naming it, and no more entries than lines. */
  lemma {:induction false} TeamsFromRecords(format: TeamFormat, lines: seq<Line>, k: nat)
    requires k <= |lines| && TeamsFromPrefix(format, lines, k).Some?
    ensures DistinctNames(TeamsFromPrefix(format, lines, k).value)
    ensures forall name :: Lookup(TeamsFromPrefix(format, lines, k).value, name) == LastRecord(format, lines, k, name)
    ensures |TeamsFromPrefix(format, lines, k).value| <= k
  {
    if k > 0 {
      TeamsFromRecords(format, lines, k - 1);
      PutLookup(TeamsFromPrefix(format, lines, k - 1).value, ReadTeamLine(format, lines[k - 1]).value);
    }
  }

  /** The names of a parsed table: exactly the first tokens of its lines. */
  lemma {:induction false} TeamsFromNames(format: TeamFormat, lines: seq<Line>, k: nat)
    requires k <= |lines| && TeamsFromPrefix(format, lines, k).Some?
    ensures forall name :: Registered(TeamsFromPrefix(format, lines, k).value, name) <==>
      exists i :: 0 <= i < k && |lines[i]| > 0 && lines[i][0].text == name
  {
    if k > 0 {
      TeamsFromNames(format, lines, k - 1);
      var t := TeamsFromPrefix(format, lines, k - 1).value;
      var e := ReadTeamLine(format, lines[k - 1]).value;
      var r := Put(t, e);
      PutLookup(t, e);
      forall name
        ensures Registered(r, name) <==> exists i :: 0 <= i < k && |lines[i]| > 0 && lines[i][0].text == name
      {
        if name == e.name {
          assert 0 <= k - 1 < k && |lines[k - 1]| > 0 && lines[k - 1][0].text == name;
        } else if exists i :: 0 <= i < k && |lines[i]| > 0 && lines[i][0].text == name {
          var i :| 0 <= i < k && |lines[i]| > 0 && lines[i][0].text == name;
          assert i < k - 1;
        }
      }
    }
  }

  /** A fixture line: the home and the away team's names. */
  datatype Fixture = Fixture(home: string, away: string)

  /** One fixture line: exactly two tokens and, when checkNames holds, both
      names registered. test.py's parser does not check names. */
  function ReadFixtureLine(line: Line, t: Table, checkNames: bool): (r: Option<Fixture>)
    ensures r.Some? <==> |line| == 2 && (checkNames ==> Registered(t, line[0].text) && Registered(t, line[1].text))
    ensures r.Some? ==> r.value == Fixture(line[0].text, line[1].text)
  {
    if |line| != 2 then None
    else if checkNames && !(Registered(t, line[0].text) && Registered(t, line[1].text)) then None
    else Some(Fixture(line[0].text, line[1].text))
  }

  /** The fixture list: one fixture per line in input order, or None when a
      line is rejected. */
  function FixturesFrom(lines: seq<Line>, t: Table, checkNames: bool): (r: Option<seq<Fixture>>)
  {
    if forall i :: 0 <= i < |lines| ==> ReadFixtureLine(lines[i], t, checkNames).Some? then
      Some(seq(|lines|, i requires 0 <= i < |lines| => ReadFixtureLine(lines[i], t, checkNames).value))
    else None
  }

  /** parse_matches / parse_league_matches. */
  method ParseFixtures(lines: seq<Line>, t: Table, checkNames: bool) returns (r: Option<seq<Fixture>>)
    ensures r == FixturesFrom(lines, t, checkNames)
  {
    var fixtures: seq<Fixture> := [];
    var i := 0;
    while i < |lines|
      invariant 0 <= i <= |lines| && |fixtures| == i
      invariant forall j :: 0 <= j < i ==> ReadFixtureLine(lines[j], t, checkNames) == Some(fixtures[j])
    {
      var f := ReadFixtureLine(lines[i], t, checkNames);
      if f.None? {
        return None;
      }
      fixtures := fixtures + [f.value];
      i := i + 1;
    }
    assert fixtures == seq(|lines|, j requires 0 <= j < |lines| => ReadFixtureLine(lines[j], t, checkNames).value);
    return Some(fixtures);
  }

  /** What the fixture parser promises: it fails exactly on a line without
      two tokens or, when names are checked, with an unregistered name;
      otherwise it keeps every line, in order. */
  lemma FixturesFromMeaning(lines: seq<Line>, t: Table, checkNames: bool)
    ensures FixturesFrom(lines, t, checkNames).None? <==>
      exists i :: 0 <= i < |lines| && (|lines[i]| != 2 ||
        (checkNames && !(Registered(t, lines[i][0].text) && Registered(t, lines[i][1].text))))
    ensures FixturesFrom(lines, t, checkNames).Some? ==>
      var fs := FixturesFrom(lines, t, checkNames).value;
      |fs| == |lines| &&
      (forall i :: 0 <= i < |fs| ==> fs[i] == Fixture(lines[i][0].text, lines[i][1].text)) &&
      (checkNames ==> forall i :: 0 <= i < |fs| ==> Registered(t, fs[i].home) && Registered(t, fs[i].away))
  {
    if FixturesFrom(lines, t, checkNames).None? {
      var i :| 0 <= i < |lines| && ReadFixtureLine(lines[i], t, checkNames).None?;
    }
  }
}
