/** Knockout mode (tor.py): teams are read into numbered slots, each round
    plays the two entries of every slot against each other, the winners of
    neighbouring slots meet in one slot of the next round, and over N
    trials every team collects one credit per round it advances and one for
    the title. */
module Knockout {
  import opened Basics
  import opened Probability

  /** A team in a slot: its name and its integer Elo. */
  datatype Entry = Entry(name: string, elo: int)

  /** One numbered slot of a round and the teams in it, in the order they
      were added. */
  datatype Slot = Slot(key: int, entries: seq<Entry>)

  /** A round as a dictionary from slot number to teams. simulate_round only
      ever reads it through sorted(keys), so it is kept sorted by key. */
  type Bracket = seq<Slot>

  predicate KeysAscending(b: Bracket)
  {
    forall i, j :: 0 <= i < j < |b| ==> b[i].key < b[j].key
  }

  /** Every slot holds at least one team: a slot exists only because a line
      appended to it. */
  predicate NonEmptySlots(b: Bracket)
  {
    forall j :: 0 <= j < |b| ==> |b[j].entries| > 0
  }

  /** matches[key] on the defaultdict: the teams of the slot, or no team. */
  function EntriesAt(b: Bracket, key: int): seq<Entry>
  {
    if |b| == 0 then []
    else if b[0].key == key then b[0].entries
    else EntriesAt(b[1..], key)
  }

  /** matches[num].append(e): a new slot is created where the sorted order
      puts it. */
  function AddEntry(b: Bracket, num: int, e: Entry): (r: Bracket)
    ensures |r| > 0 && (r[0].key == num || (|b| > 0 && r[0].key == b[0].key))
    ensures KeysAscending(b) ==> KeysAscending(r)
    ensures NonEmptySlots(b) ==> NonEmptySlots(r)
  {
    if |b| == 0 then [Slot(num, [e])]
    else if b[0].key == num then [Slot(num, b[0].entries + [e])] + b[1..]
    else if num < b[0].key then [Slot(num, [e])] + b
    else
      [b[0]] + AddEntry(b[1..], num, e)
  }

  /** In a sorted bracket a key found in the tail is not the head's. */
  lemma EntriesAtTail(b: Bracket, key: int)
    requires KeysAscending(b) && |b| > 0 && key < b[0].key
    ensures EntriesAt(b, key) == []
    decreases |b|
  {
    if |b| > 1 && b[1].key != key {
      EntriesAtTail(b[1..], key);
    }
  }

  /** Appending to slot num adds e at the end of that slot and leaves every
      other slot as it was. */
  lemma {:induction false} AddEntryLookup(b: Bracket, num: int, e: Entry, key: int)
    requires KeysAscending(b)
    ensures EntriesAt(AddEntry(b, num, e), key) == EntriesAt(b, key) + (if key == num then [e] else [])
    decreases |b|
  {
    if |b| == 0 {
    } else if b[0].key == num {
      if key != num && |b| > 1 {
        assert AddEntry(b, num, e)[1..] == b[1..];
      }
    } else if num < b[0].key {
      if key == num {
        EntriesAtTail(b, num);
      } else {
        assert AddEntry(b, num, e)[1..] == b;
      }
    } else {
      AddEntryLookup(b[1..], num, e, key);
      assert AddEntry(b, num, e)[1..] == AddEntry(b[1..], num, e);
    }
  }

  /** What one input line adds: a team for slot num. */
  datatype Read = Read(num: int, entry: Entry)

  /** A line "number name Elo": exactly three tokens whose first and last are
      integers; otherwise the parser reports an error and returns None. */
  function ReadEntryLine(line: Line): (r: Option<Read>)
    ensures r.Some? <==> |line| == 3 && line[0].asInt.Some? && line[2].asInt.Some?
    ensures r.Some? ==> r.value == Read(line[0].asInt.value, Entry(line[1].text, line[2].asInt.value))
  {
    if |line| == 3 && line[0].asInt.Some? && line[2].asInt.Some? then
      Some(Read(line[0].asInt.value, Entry(line[1].text, line[2].asInt.value)))
    else None
  }

  /** parse_team_input over the first k lines. */
  function BracketFrom(lines: seq<Line>, k: nat): Option<Bracket>
    requires k <= |lines|
  {
    if k == 0 then Some([])
    else match BracketFrom(lines, k - 1)
      case None => None
      case Some(b) =>
        match ReadEntryLine(lines[k - 1])
        case None => None
        case Some(read) => Some(AddEntry(b, read.num, read.entry))
  }

  /** The teams the first k lines put in slot key, in input order. */
  function LinesAt(lines: seq<Line>, k: nat, key: int): seq<Entry>
    requires k <= |lines|
  {
    if k == 0 then []
    else
      var read := ReadEntryLine(lines[k - 1]);
      LinesAt(lines, k - 1, key) + (if read.Some? && read.value.num == key then [read.value.entry] else [])
  }

  /** parse_team_input. */
  method ParseBracket(lines: seq<Line>) returns (r: Option<Bracket>)
    ensures r == BracketFrom(lines, |lines|)
  {
    var b: Bracket := [];
    var k := 0;
    while k < |lines|
      invariant 0 <= k <= |lines|
      invariant BracketFrom(lines, k) == Some(b)
    {
      var read := ReadEntryLine(lines[k]);
      if read.None? {
        NoneStaysNone(lines, k + 1, |lines|);
        return None;
      }
      b := AddEntry(b, read.value.num, read.value.entry);
      k := k + 1;
    }
    return Some(b);
  }

  lemma {:induction false} NoneStaysNone(lines: seq<Line>, j: nat, k: nat)
    requires j <= k <= |lines| && BracketFrom(lines, j).None?
    ensures BracketFrom(lines, k).None?
    decreases k - j
  {
    if j < k {
      NoneStaysNone(lines, j + 1, k);
    }
  }

  /** The parser fails exactly when some line is malformed; otherwise the
      slots are sorted and each slot number holds the teams of its lines
      in input order. Every slot holds a team, so the slots are exactly the
      numbers some line names. */
  lemma {:induction false} BracketFromMeaning(lines: seq<Line>, k: nat)
    requires k <= |lines|
    ensures BracketFrom(lines, k).None? <==> exists i :: 0 <= i < k && ReadEntryLine(lines[i]).None?
    ensures BracketFrom(lines, k).Some? ==>
      var b := BracketFrom(lines, k).value;
      KeysAscending(b) && NonEmptySlots(b)
      && (forall key :: EntriesAt(b, key) == LinesAt(lines, k, key))
  {
    if k > 0 {
      BracketFromMeaning(lines, k - 1);
      var prev := BracketFrom(lines, k - 1);
      var read := ReadEntryLine(lines[k - 1]);
      if prev.Some? && read.Some? {
        var b := AddEntry(prev.value, read.value.num, read.value.entry);
        forall key
          ensures EntriesAt(b, key) == LinesAt(lines, k, key)
        {
          AddEntryLookup(prev.value, read.value.num, read.value.entry, key);
        }
      }
    }
  }

  /** The side a match goes to. */
  datatype Side = A | B

  /** elo_win_prob: 1 / (1 + 10 ** (-(a - b) / 400)). */
  function EloWinProb(ten: PowerOfTen, a: int, b: int): (p: real)
    ensures 0.0 < p < 1.0
  {
    Logistic(ten((b - a) as real / 400.0))
  }

  /** draw_rate's default. */
  const DrawRate: real := 0.24

  /** The winner of a match and the position of the next unused draw. */
  datatype Outcome = Outcome(winner: Side, cursor: nat)

  /** simulate_match with the draws rng(cur), rng(cur + 1), ...: A wins
      below P - 0.12, a drawn match (the next 0.24) is settled by a second
      draw below 0.5 for A, and B wins above. */
  function Decide(ten: PowerOfTen, a: int, b: int, rng: nat -> real, cur: nat): (o: Outcome)
    ensures o.cursor == cur + 1 || o.cursor == cur + 2
  {
    var pA := EloWinProb(ten, a, b) - DrawRate / 2.0;
    var r := rng(cur);
    if r < pA then Outcome(A, cur + 1)
    else if r < pA + DrawRate then Outcome(if rng(cur + 1) < 0.5 then A else B, cur + 2)
    else Outcome(B, cur + 1)
  }

  /** The three bands of simulate_match: A outright below P - 0.12, a
      draw settled by a second draw in the next 0.24, B outright above; only
      a draw uses two draws. */
  lemma DecideMeaning(ten: PowerOfTen, a: int, b: int, rng: nat -> real, cur: nat)
    ensures var pA := EloWinProb(ten, a, b) - DrawRate / 2.0;
      var r := rng(cur);
      var o := Decide(ten, a, b, rng, cur);
      (r < pA ==> o == Outcome(A, cur + 1))
      && (pA <= r < pA + DrawRate ==> o == Outcome(if rng(cur + 1) < 0.5 then A else B, cur + 2))
      && (pA + DrawRate <= r ==> o == Outcome(B, cur + 1))
      && (o.cursor == cur + 2 <==> pA <= r < pA + DrawRate)
  {
  }

  /** Level ratings give each side one half; with 10 ** x increasing the
      higher-rated side gets at least one half. */
  lemma EloWinProbFavours(ten: PowerOfTen, a: int, b: int)
    ensures a == b ==> EloWinProb(ten, a, b) == 0.5
    ensures Increasing(ten) && a >= b ==> EloWinProb(ten, a, b) >= 0.5
    ensures Increasing(ten) && a <= b ==> EloWinProb(ten, a, b) <= 0.5
  {
    var z := (b - a) as real / 400.0;
    var x := ten(z);
    assert EloWinProb(ten, a, b) == Logistic(x);
    if a == b {
      assert z == 0.0;
      assert x == 1.0;
    }
    if Increasing(ten) && a >= b {
      assert z <= 0.0;
      assert x <= 1.0;
    }
    if Increasing(ten) && a <= b {
      assert z >= 0.0;
      assert x >= 1.0;
    }
  }

  /** Between level ratings A wins outright below 0.38 and the draw band is
      [0.38, 0.62); with 10 ** x increasing the higher-rated side wins
      outright at least on [0, 0.38) and the lower-rated side loses outright
      at least on [0.62, 1). */
  lemma DecideBands(ten: PowerOfTen, a: int, b: int, rng: nat -> real, cur: nat)
    ensures a == b ==> EloWinProb(ten, a, b) - DrawRate / 2.0 == 0.38
    ensures Increasing(ten) && a >= b && rng(cur) < 0.38 ==> Decide(ten, a, b, rng, cur) == Outcome(A, cur + 1)
    ensures Increasing(ten) && a <= b && rng(cur) >= 0.62 ==> Decide(ten, a, b, rng, cur) == Outcome(B, cur + 1)
  {
    EloWinProbFavours(ten, a, b);
    DecideMeaning(ten, a, b, rng, cur);
  }

  /** A match as a round plays it: the two ratings and the next unused draw
      give the winner and the next unused draw; every match uses a draw. */
  type Match = m: (int, int, nat) -> Outcome | forall a, b, c :: m(a, b, c).cursor > c
    witness (a: int, b: int, c: nat) => Outcome(A, c + 1)

  /** simulate_match as the rounds use it. */
  function Simulate(ten: PowerOfTen, rng: nat -> real): Match
  {
    (a: int, b: int, c: nat) => Decide(ten, a, b, rng, c)
  }

  /** entry 0 when A wins, entry 1 when B wins. */
  function Pick(m: seq<Entry>, s: Side): Entry
    requires |m| >= 2
  {
    if s == A then m[0] else m[1]
  }

  /** The slots a loop makes and the position of the next unused draw. */
  datatype Played = Played(slots: Bracket, cursor: nat)

  /** The pairs loop of simulate_round from position i of the sorted keys:
      the next round's slots, and the next unused draw. */
  function PairsFrom(play: Match, b: Bracket, i: nat, cur: nat): (r: Played)
    requires i <= |b|
    ensures r.cursor >= cur
    decreases |b| - i
  {
    if i + 1 >= |b| then Played([], cur)
    else
      var m1 := b[i].entries;
      var m2 := b[i + 1].entries;
      if |m1| < 2 || |m2| < 2 then PairsFrom(play, b, i + 2, cur)
      else
        var o1 := play(m1[0].elo, m1[1].elo, cur);
        var o2 := play(m2[0].elo, m2[1].elo, o1.cursor);
        var rest := PairsFrom(play, b, i + 2, o2.cursor);
        Played([Slot(i / 2 + 1, [Pick(m1, o1.winner), Pick(m2, o2.winner)])] + rest.slots, rest.cursor)
  }

  /** One step of the pairs loop: a pair that cannot be played is
      skipped, a played pair puts its slot in front of the rest. */
  lemma PairsFromStep(play: Match, b: Bracket, i: nat, cur: nat)
    requires i + 1 < |b|
    ensures var m1 := b[i].entries;
      var m2 := b[i + 1].entries;
      if |m1| < 2 || |m2| < 2 then PairsFrom(play, b, i, cur) == PairsFrom(play, b, i + 2, cur)
      else
        var o1 := play(m1[0].elo, m1[1].elo, cur);
        var o2 := play(m2[0].elo, m2[1].elo, o1.cursor);
        var rest := PairsFrom(play, b, i + 2, o2.cursor);
        PairsFrom(play, b, i, cur).slots == [Slot(i / 2 + 1, [Pick(m1, o1.winner), Pick(m2, o2.winner)])] + rest.slots
        && PairsFrom(play, b, i, cur).cursor == rest.cursor
  {
  }

  /** What simulate_round returns, with the next unused draw. */
  datatype RoundResult = RoundResult(next: Bracket, champion: Option<string>, cursor: nat)

  function Round(play: Match, b: Bracket, cur: nat): RoundResult
  {
    if |b| == 1 then
      var m := b[0].entries;
      if |m| == 2 then
        var o := play(m[0].elo, m[1].elo, cur);
        RoundResult([], Some(Pick(m, o.winner).name), o.cursor)
      else RoundResult([], None, cur)
    else
      var pairs := PairsFrom(play, b, 0, cur);
      RoundResult(pairs.slots, None, pairs.cursor)
  }

  /** simulate_round. */
  method SimulateRound(play: Match, b: Bracket, cur: nat) returns (res: RoundResult)
    ensures res == Round(play, b, cur)
  {
    if |b| == 1 {
      var m := b[0].entries;
      if |m| == 2 {
        var o := play(m[0].elo, m[1].elo, cur);
        var winner := if o.winner == A then m[0] else m[1];
        return RoundResult([], Some(winner.name), o.cursor);
      }
      return RoundResult([], None, cur);
    }
    var pairs := PlayPairs(play, b, cur);
    return RoundResult(pairs.slots, None, pairs.cursor);
  }

  /** The pairs loop of simulate_round: walk the sorted keys two at a time
      and play both matches of every pair whose slots hold two teams. */
  method PlayPairs(play: Match, b: Bracket, cur: nat) returns (p: Played)
    ensures p == PairsFrom(play, b, 0, cur)
  {
    var next: Bracket := [];
    var c := cur;
    var i := 0;
    ghost var total := PairsFrom(play, b, 0, cur);
    while i < |b|
      invariant i <= |b|
      invariant next + PairsFrom(play, b, i, c).slots == total.slots
      invariant PairsFrom(play, b, i, c).cursor == total.cursor
      decreases |b| - i
    {
      if i + 1 >= |b| {
        break;
      }
      var m1 := b[i].entries;
      var m2 := b[i + 1].entries;
      if |m1| < 2 || |m2| < 2 {
        PairsFromStep(play, b, i, c);
        i := i + 2;
        continue;
      }
      PairsFromStep(play, b, i, c);
      var o1 := play(m1[0].elo, m1[1].elo, c);
      var winner1 := if o1.winner == A then m1[0] else m1[1];
      var o2 := play(m2[0].elo, m2[1].elo, o1.cursor);
      var winner2 := if o2.winner == A then m2[0] else m2[1];
      var slot := Slot(i / 2 + 1, [winner1, winner2]);
      assert slot == Slot(i / 2 + 1, [Pick(m1, o1.winner), Pick(m2, o2.winner)]);
      AppendStep(next, slot, PairsFrom(play, b, i + 2, o2.cursor).slots, total.slots);
      next := next + [slot];
      c := o2.cursor;
      i := i + 2;
    }
    return Played(next, c);
  }

  /** Moving the head of the remaining slots onto those made so far. */
  lemma AppendStep(done: Bracket, s: Slot, rest: Bracket, total: Bracket)
    requires done + ([s] + rest) == total
    ensures (done + [s]) + rest == total
  {
    assert (done + [s]) + rest == done + ([s] + rest);
  }

  /** The names of every team in a round. */
  function Names(b: Bracket): set<string>
  {
    set j, e | 0 <= j < |b| && e in b[j].entries :: e.name
  }

  /** The first of the two slots whose winners meet in next-round slot key. */
  function Feeder(key: int): int
  {
    2 * (key - 1)
  }

  /** Slot s of the next round holds the winners of its two feeder slots,
      both of which hold two teams; each winner is entry 0 or 1 of its
      slot. */
  predicate Fed(b: Bracket, s: Slot)
  {
    var p := Feeder(s.key);
    0 <= p && p + 1 < |b| && |b[p].entries| >= 2 && |b[p + 1].entries| >= 2 && |s.entries| == 2
    && s.entries[0] in b[p].entries[..2] && s.entries[1] in b[p + 1].entries[..2]
  }

  /** The next-round slots r made by the pairs loop from position i of b:
      sorted, numbered (i/2, |b|/2], at most one per remaining pair, each
      holding the winners of its feeder slots, and made for exactly the pairs
      whose slots both hold two teams. */
  ghost predicate PairsShape(b: Bracket, i: nat, r: Bracket)
  {
    KeysAscending(r)
    && |r| <= (|b| - i) / 2
    && (forall j :: 0 <= j < |r| ==> i / 2 < r[j].key <= |b| / 2 && Fed(b, r[j]))
    && (forall p :: i <= p && p % 2 == 0 && Playable(b, p) ==> exists j :: 0 <= j < |r| && Feeder(r[j].key) == p)
  }

  /** Slots p and p + 1 both exist and both hold two teams. */
  predicate Playable(b: Bracket, p: int)
  {
    0 <= p && p + 1 < |b| && |b[p].entries| >= 2 && |b[p + 1].entries| >= 2
  }

  /** r is what the pairs loop from position i of b makes, whatever the
      draws: nothing once no pair is left, a slot fed by pair (i, i + 1)
      when both hold two teams, and then the rest from i + 2. */
  predicate PairsRel(b: Bracket, i: nat, r: Bracket)
    requires i <= |b|
    decreases |b| - i
  {
    if i + 1 >= |b| then r == []
    else if Playable(b, i) then |r| > 0 && r[0].key == i / 2 + 1 && Fed(b, r[0]) && PairsRel(b, i + 2, r[1..])
    else PairsRel(b, i + 2, r)
  }

  /** The pairs loop makes slots related to its bracket by PairsRel, and
      every match uses up draws. */
  lemma {:induction false} PairsFromRel(play: Match, b: Bracket, i: nat, cur: nat)
    requires i <= |b| && i % 2 == 0
    ensures PairsRel(b, i, PairsFrom(play, b, i, cur).slots)
    decreases |b| - i
  {
    if i + 1 < |b| {
      var m1 := b[i].entries;
      var m2 := b[i + 1].entries;
      if |m1| >= 2 && |m2| >= 2 {
        var o1 := play(m1[0].elo, m1[1].elo, cur);
        var o2 := play(m2[0].elo, m2[1].elo, o1.cursor);
        PairsFromRel(play, b, i + 2, o2.cursor);
        var s := Slot(i / 2 + 1, [Pick(m1, o1.winner), Pick(m2, o2.winner)]);
        var rest := PairsFrom(play, b, i + 2, o2.cursor);
        PickFed(b, i, o1.winner, o2.winner);
        RelCons(b, i, s, rest.slots, PairsFrom(play, b, i, cur).slots);
      } else {
        PairsFromRel(play, b, i + 2, cur);
        assert PairsFrom(play, b, i, cur) == PairsFrom(play, b, i + 2, cur);
      }
    }
  }

  /** The slot a played pair makes is fed by that pair. */
  lemma PickFed(b: Bracket, i: nat, x: Side, y: Side)
    requires i % 2 == 0 && Playable(b, i)
    ensures Fed(b, Slot(i / 2 + 1, [Pick(b[i].entries, x), Pick(b[i + 1].entries, y)]))
  {
    var s := Slot(i / 2 + 1, [Pick(b[i].entries, x), Pick(b[i + 1].entries, y)]);
    assert Feeder(s.key) == i;
    assert s.entries[0] in b[i].entries[..2] && s.entries[1] in b[i + 1].entries[..2];
  }

  /** A played pair puts its slot in front of the rest. */
  lemma RelCons(b: Bracket, i: nat, s: Slot, rest: Bracket, r: Bracket)
    requires i + 1 < |b| && Playable(b, i) && s.key == i / 2 + 1 && Fed(b, s) && PairsRel(b, i + 2, rest)
    requires r == [s] + rest
    ensures PairsRel(b, i, r)
  {
    assert r[1..] == rest;
  }

  /** Slots related by PairsRel from an even position have the shape
      PairsShape describes. */
  lemma {:induction false} PairsRelShape(b: Bracket, i: nat, r: Bracket)
    requires i <= |b| && i % 2 == 0 && PairsRel(b, i, r)
    ensures PairsShape(b, i, r)
    decreases |b| - i
  {
    if i + 1 < |b| {
      if Playable(b, i) {
        PairsRelShape(b, i + 2, r[1..]);
        assert r == [r[0]] + r[1..];
        ShapeCons(b, i, r[0], r[1..]);
      } else {
        PairsRelShape(b, i + 2, r);
        ShapeSkip(b, i, r);
      }
    }
  }

  /** The pairs loop from the first key has the shape PairsShape describes. */
  lemma PairsFromShape(play: Match, b: Bracket, cur: nat)
    ensures PairsShape(b, 0, PairsFrom(play, b, 0, cur).slots)
  {
    PairsFromRel(play, b, 0, cur);
    PairsRelShape(b, 0, PairsFrom(play, b, 0, cur).slots);
  }

  /** A pair that cannot be played adds no slot and leaves the shape. */
  lemma ShapeSkip(b: Bracket, i: nat, r: Bracket)
    requires i + 2 <= |b| && i % 2 == 0 && !Playable(b, i) && PairsShape(b, i + 2, r)
    ensures PairsShape(b, i, r)
  {
  }

  /** A played pair adds its slot in front, keeping the shape. */
  lemma ShapeCons(b: Bracket, i: nat, s: Slot, rest: Bracket)
    requires i + 2 <= |b| && i % 2 == 0 && Playable(b, i) && PairsShape(b, i + 2, rest)
    requires s.key == i / 2 + 1 && Fed(b, s)
    ensures PairsShape(b, i, [s] + rest)
  {
    ConsSlots(b, i, s, rest);
    ConsCovers(b, i, s, rest);
  }

  /** The slot in front keeps the keys ascending, in range and fed. */
  lemma ConsSlots(b: Bracket, i: nat, s: Slot, rest: Bracket)
    requires i + 2 <= |b| && i % 2 == 0
    requires KeysAscending(rest) && |rest| <= (|b| - (i + 2)) / 2
    requires forall j :: 0 <= j < |rest| ==> (i + 2) / 2 < rest[j].key <= |b| / 2 && Fed(b, rest[j])
    requires s.key == i / 2 + 1 && Fed(b, s)
    ensures var r := [s] + rest;
      KeysAscending(r) && |r| <= (|b| - i) / 2
      && forall j :: 0 <= j < |r| ==> i / 2 < r[j].key <= |b| / 2 && Fed(b, r[j])
  {
    ConsKeys(b, i, s, rest);
    ConsFed(b, i, s, rest);
  }

  /** A slot numbered below every later one keeps the keys ascending. */
  lemma ConsKeys(b: Bracket, i: nat, s: Slot, rest: Bracket)
    requires i + 2 <= |b| && i % 2 == 0
    requires KeysAscending(rest) && |rest| <= (|b| - (i + 2)) / 2
    requires forall j :: 0 <= j < |rest| ==> (i + 2) / 2 < rest[j].key
    requires s.key == i / 2 + 1
    ensures KeysAscending([s] + rest) && |[s] + rest| <= (|b| - i) / 2
  {
    var r := [s] + rest;
    assert (i + 2) / 2 == s.key;
    forall j, k | 0 <= j < k < |r|
      ensures r[j].key < r[k].key
    {
      assert r[k] == rest[k - 1];
      if j > 0 {
        assert r[j] == rest[j - 1];
      }
    }
  }

  /** The slot in front and every later slot are in range and fed. */
  lemma ConsFed(b: Bracket, i: nat, s: Slot, rest: Bracket)
    requires i + 2 <= |b| && i % 2 == 0
    requires forall j :: 0 <= j < |rest| ==> (i + 2) / 2 < rest[j].key <= |b| / 2 && Fed(b, rest[j])
    requires s.key == i / 2 + 1 && Fed(b, s)
    ensures forall j :: 0 <= j < |[s] + rest| ==> i / 2 < ([s] + rest)[j].key <= |b| / 2 && Fed(b, ([s] + rest)[j])
  {
    var r := [s] + rest;
    forall j | 0 <= j < |r|
      ensures i / 2 < r[j].key <= |b| / 2 && Fed(b, r[j])
    {
      if j > 0 {
        assert r[j] == rest[j - 1];
      }
    }
  }

  /** Every playable pair from i on feeds some slot of the longer list. */
  lemma ConsCovers(b: Bracket, i: nat, s: Slot, rest: Bracket)
    requires i + 2 <= |b| && i % 2 == 0 && PairsShape(b, i + 2, rest)
    requires s.key == i / 2 + 1
    ensures var r := [s] + rest;
      forall p :: i <= p && p % 2 == 0 && Playable(b, p) ==> exists j :: 0 <= j < |r| && Feeder(r[j].key) == p
  {
    var r := [s] + rest;
    forall p | i <= p && p % 2 == 0 && Playable(b, p)
      ensures exists j :: 0 <= j < |r| && Feeder(r[j].key) == p
    {
      if p == i {
        assert Feeder(r[0].key) == p;
      } else {
        var j :| 0 <= j < |rest| && Feeder(rest[j].key) == p;
        assert r[j + 1] == rest[j];
        assert 0 <= j + 1 < |r| && Feeder(r[j + 1].key) == p;
      }
    }
  }

  /** A single slot is the final: its champion is one of its teams
      exactly when it holds two, and no next round is left. */
  lemma FinalRound(play: Match, b: Bracket, cur: nat)
    requires |b| == 1
    ensures var res := Round(play, b, cur);
      res.next == [] && res.cursor >= cur
      && (res.champion.Some? <==> |b[0].entries| == 2)
      && (res.champion.Some? ==> res.champion.value == b[0].entries[0].name || res.champion.value == b[0].entries[1].name)
  {
  }

  /** Any other round has no champion and a next round of at most half as
      many slots, numbered from 1 to half the slot count, two teams each,
      shaped as PairsShape says. */
  lemma PairedRound(play: Match, b: Bracket, cur: nat)
    requires |b| != 1
    ensures var res := Round(play, b, cur);
      res.champion.None? && res.cursor >= cur
      && res.next == PairsFrom(play, b, 0, cur).slots
      && PairsShape(b, 0, res.next)
      && KeysAscending(res.next)
      && |res.next| <= |b| / 2
      && (forall j :: 0 <= j < |res.next| ==> 1 <= res.next[j].key <= |b| / 2 && |res.next[j].entries| == 2)
  {
    PairsFromShape(play, b, cur);
  }

  /** Slots fed from b hold only teams of b. */
  lemma FedNames(b: Bracket, r: Bracket)
    requires forall j :: 0 <= j < |r| ==> Fed(b, r[j])
    ensures Names(r) <= Names(b)
  {
    forall x | x in Names(r)
      ensures x in Names(b)
    {
      var j, e :| 0 <= j < |r| && e in r[j].entries && e.name == x;
      var p := Feeder(r[j].key);
      assert Fed(b, r[j]);
      if e == r[j].entries[0] {
        assert e in b[p].entries;
      } else {
        assert e in b[p + 1].entries;
      }
    }
  }

  /** A round only moves teams forward: every team of the next round is a
      team of this one. */
  lemma RoundNames(play: Match, b: Bracket, cur: nat)
    ensures Names(Round(play, b, cur).next) <= Names(b)
  {
    if |b| != 1 {
      PairedRound(play, b, cur);
      FedNames(b, Round(play, b, cur).next);
    }
  }

  /** The rounds of a tournament, in order. */
  datatype Stage = Last16 | Last8 | Last4 | Final

  /** What a team is credited with: reaching the next round, or the title. */
  datatype Credit = ReachedLast8 | ReachedLast4 | ReachedFinal | Won

  /** The advance table: the credit for coming through each round. */
  function Advance(s: Stage): Credit
  {
    match s
    case Last16 => ReachedLast8
    case Last8 => ReachedLast4
    case Last4 => ReachedFinal
    case Final => Won
  }

  const Stages: seq<Stage> := [Last16, Last8, Last4, Final]

  /** order[order.index(start):]: the rounds played from start on. */
  function StagesFrom(start: Stage): (rs: seq<Stage>)
    ensures 1 <= |rs| <= 4 && rs[|rs| - 1] == Final
    ensures forall j :: 0 <= j < |rs| - 1 ==> rs[j] != Final
    ensures rs[0] == start
  {
    match start
    case Last16 => Stages
    case Last8 => Stages[1..]
    case Last4 => Stages[2..]
    case Final => Stages[3..]
  }

  /** One credit per team in the next round (for pair in matches.values():
      for team in pair). */
  function CreditsOf(next: Bracket, c: Credit): seq<(string, Credit)>
  {
    if |next| == 0 then [] else SlotCredits(next[0].entries, c) + CreditsOf(next[1..], c)
  }

  /** One credit per team of a slot, in slot order. */
  function SlotCredits(pair: seq<Entry>, c: Credit): (r: seq<(string, Credit)>)
    ensures |r| == |pair| && forall k :: 0 <= k < |pair| ==> r[k] == (pair[k].name, c)
  {
    seq(|pair|, k requires 0 <= k < |pair| => (pair[k].name, c))
  }

  /** The credits of one round: reaching the next round, or for the final
      the title, when there is a champion with a non-empty name. */
  function RoundCredits(s: Stage, res: RoundResult): seq<(string, Credit)>
  {
    if s != Final then CreditsOf(res.next, Advance(s))
    else if res.champion.Some? && |res.champion.value| > 0 then [(res.champion.value, Won)]
    else []
  }

  /** Credits in the order they were handed out, and the position of the
      next unused draw. */
  datatype Tally = Tally(credits: seq<(string, Credit)>, cursor: nat)

  /** The credits of one trial over the given rounds and the next unused
      draw. */
  function TrialCredits(play: Match, b: Bracket, rounds: seq<Stage>, cur: nat): Tally
    decreases |rounds|
  {
    if |rounds| == 0 then Tally([], cur)
    else
      var res := Round(play, b, cur);
      var rest := TrialCredits(play, res.next, rounds[1..], res.cursor);
      Tally(RoundCredits(rounds[0], res) + rest.credits, rest.cursor)
  }

  /** The credits of the first k trials, each replaying the parsed bracket
      from the draws the trials before it left. */
  function TrialsCredits(play: Match, b: Bracket, rounds: seq<Stage>, k: nat): Tally
  {
    if k == 0 then Tally([], 0)
    else
      var prev := TrialsCredits(play, b, rounds, k - 1);
      var t := TrialCredits(play, b, rounds, prev.cursor);
      Tally(prev.credits + t.credits, t.cursor)
  }

  /** run_simulations' counts: how often each team earned each credit, or
      None when the input does not parse. No trial, no parsing. */
  function KnockoutRun(play: Match, lines: seq<Line>, start: Stage, N: nat)
    : Option<multiset<(string, Credit)>>
  {
    if N == 0 then Some(multiset{})
    else match BracketFrom(lines, |lines|)
      case None => None
      case Some(b) => Some(multiset(TrialsCredits(play, b, StagesFrom(start), N).credits))
  }

  /** The innermost loop of one round: credit both teams of a slot. */
  method CreditPair(counts: multiset<(string, Credit)>, pair: seq<Entry>, c: Credit)
    returns (r: multiset<(string, Credit)>)
    ensures r == counts + multiset(SlotCredits(pair, c))
  {
    r := counts;
    var k := 0;
    while k < |pair|
      invariant 0 <= k <= |pair|
      invariant r == counts + multiset(SlotCredits(pair, c)[..k])
    {
      ghost var all := SlotCredits(pair, c);
      assert all[..k + 1] == all[..k] + [all[k]];
      r := r + multiset{(pair[k].name, c)};
      k := k + 1;
    }
    assert SlotCredits(pair, c)[..|pair|] == SlotCredits(pair, c);
  }

  /** The inner loops of one round: credit every team of the next round. */
  method CreditNextRound(counts: multiset<(string, Credit)>, next: Bracket, c: Credit)
    returns (r: multiset<(string, Credit)>)
    ensures r == counts + multiset(CreditsOf(next, c))
  {
    r := counts;
    var j := 0;
    while j < |next|
      invariant 0 <= j <= |next|
      invariant r + multiset(CreditsOf(next[j..], c)) == counts + multiset(CreditsOf(next, c))
    {
      assert next[j..][1..] == next[j + 1..];
      r := CreditPair(r, next[j].entries, c);
      j := j + 1;
    }
  }

  /** The credits a round hands out, added to the counts. */
  method CreditRound(counts: multiset<(string, Credit)>, s: Stage, res: RoundResult)
    returns (r: multiset<(string, Credit)>)
    ensures r == counts + multiset(RoundCredits(s, res))
  {
    r := counts;
    if s != Final {
      r := CreditNextRound(r, res.next, Advance(s));
    } else if res.champion.Some? && |res.champion.value| > 0 {
      r := r + multiset{(res.champion.value, Won)};
    }
  }

  /** A trial is its first round's credits followed by the rest. */
  lemma TrialCreditsStep(play: Match, b: Bracket, rounds: seq<Stage>, cur: nat)
    requires |rounds| > 0
    ensures var res := Round(play, b, cur);
      var rest := TrialCredits(play, res.next, rounds[1..], res.cursor);
      multiset(TrialCredits(play, b, rounds, cur).credits) == multiset(RoundCredits(rounds[0], res)) + multiset(rest.credits)
      && TrialCredits(play, b, rounds, cur).cursor == rest.cursor
  {
  }

  /** The rounds loop of one trial. */
  method PlayTrial(play: Match, b: Bracket, rounds: seq<Stage>, cur: nat,
                   counts: multiset<(string, Credit)>)
    returns (r: multiset<(string, Credit)>, cursor: nat)
    ensures r == counts + multiset(TrialCredits(play, b, rounds, cur).credits)
    ensures cursor == TrialCredits(play, b, rounds, cur).cursor
  {
    r := counts;
    cursor := cur;
    var matches := b;
    var j := 0;
    ghost var total := TrialCredits(play, b, rounds, cur);
    while j < |rounds|
      invariant 0 <= j <= |rounds|
      invariant r + multiset(TrialCredits(play, matches, rounds[j..], cursor).credits) == counts + multiset(total.credits)
      invariant TrialCredits(play, matches, rounds[j..], cursor).cursor == total.cursor
    {
      var res := SimulateRound(play, matches, cursor);
      TrialCreditsStep(play, matches, rounds[j..], cursor);
      assert rounds[j..][1..] == rounds[j + 1..];
      r := CreditRound(r, rounds[j], res);
      matches := res.next;
      cursor := res.cursor;
      j := j + 1;
    }
  }

  /** The first k + 1 trials are the first k followed by one more. */
  lemma TrialsCreditsStep(play: Match, b: Bracket, rounds: seq<Stage>, k: nat)
    ensures var prev := TrialsCredits(play, b, rounds, k);
      var t := TrialCredits(play, b, rounds, prev.cursor);
      multiset(TrialsCredits(play, b, rounds, k + 1).credits) == multiset(prev.credits) + multiset(t.credits)
      && TrialsCredits(play, b, rounds, k + 1).cursor == t.cursor
  {
  }

  /** How many title credits a list of credits holds. */
  function TitleCount(cs: seq<(string, Credit)>): nat
  {
    if |cs| == 0 then 0 else (if cs[0].1 == Won then 1 else 0) + TitleCount(cs[1..])
  }

  lemma {:induction false} TitleCountAppend(x: seq<(string, Credit)>, y: seq<(string, Credit)>)
    ensures TitleCount(x + y) == TitleCount(x) + TitleCount(y)
  {
    if |x| == 0 {
      assert x + y == y;
    } else {
      assert (x + y)[1..] == x[1..] + y;
      TitleCountAppend(x[1..], y);
    }
  }

  lemma {:induction false} NoTitles(cs: seq<(string, Credit)>)
    requires forall k :: 0 <= k < |cs| ==> cs[k].1 != Won
    ensures TitleCount(cs) == 0
  {
    if |cs| > 0 {
      NoTitles(cs[1..]);
    }
  }

  /** The teams of the later slots are teams of the round. */
  lemma NamesTail(b: Bracket)
    requires |b| > 0
    ensures Names(b[1..]) <= Names(b)
  {
    forall x | x in Names(b[1..])
      ensures x in Names(b)
    {
      var j, e :| 0 <= j < |b[1..]| && e in b[1..][j].entries && e.name == x;
      assert e in b[j + 1].entries;
    }
  }

  /** Crediting a next round hands out credit c, and only to its teams. */
  lemma {:induction false} CreditsOfNext(next: Bracket, c: Credit)
    ensures forall k :: 0 <= k < |CreditsOf(next, c)| ==>
      CreditsOf(next, c)[k].1 == c && CreditsOf(next, c)[k].0 in Names(next)
  {
    if |next| > 0 {
      CreditsOfNext(next[1..], c);
      NamesTail(next);
      var h: seq<(string, Credit)> := SlotCredits(next[0].entries, c);
      var t: seq<(string, Credit)> := CreditsOf(next[1..], c);
      forall k | 0 <= k < |h + t|
        ensures (h + t)[k].1 == c && (h + t)[k].0 in Names(next)
      {
        if k < |h| {
          assert next[0].entries[k] in next[0].entries;
        } else {
          assert (h + t)[k] == t[k - |h|];
        }
      }
    }
  }

  /** A round before the final credits only its advance, to teams of the
      next round, and no title; the final credits one title exactly when it
      has a champion with a name. */
  lemma RoundCreditsMeaning(s: Stage, res: RoundResult)
    ensures s != Final ==> forall k :: 0 <= k < |RoundCredits(s, res)| ==>
      RoundCredits(s, res)[k].1 == Advance(s) && RoundCredits(s, res)[k].0 in Names(res.next)
    ensures s != Final ==> TitleCount(RoundCredits(s, res)) == 0
    ensures s == Final ==> (TitleCount(RoundCredits(s, res)) == 1 <==> res.champion.Some? && |res.champion.value| > 0)
    ensures s == Final ==> TitleCount(RoundCredits(s, res)) == |RoundCredits(s, res)| <= 1
  {
    if s != Final {
      CreditsOfNext(res.next, Advance(s));
      NoTitles(RoundCredits(s, res));
    }
  }

  /** A trial whose rounds end at the final, and hold it only there, hands
      out at most one title. */
  lemma {:induction false} TrialTitles(play: Match, b: Bracket, rounds: seq<Stage>, cur: nat)
    requires forall j :: 0 <= j < |rounds| - 1 ==> rounds[j] != Final
    ensures TitleCount(TrialCredits(play, b, rounds, cur).credits) <= 1
    decreases |rounds|
  {
    if |rounds| > 0 {
      var res := Round(play, b, cur);
      var rest := TrialCredits(play, res.next, rounds[1..], res.cursor);
      RoundCreditsMeaning(rounds[0], res);
      TitleCountAppend(RoundCredits(rounds[0], res), rest.credits);
      TrialTitles(play, res.next, rounds[1..], res.cursor);
      if |rounds| > 1 {
        assert rounds[0] != Final;
      } else {
        assert rounds[1..] == [];
      }
    }
  }

  /** The titles of k + 1 trials are those of the first k plus those of the
      next trial. */
  lemma TitlesStep(play: Match, b: Bracket, rounds: seq<Stage>, k: nat)
    ensures var prev := TrialsCredits(play, b, rounds, k);
      TitleCount(TrialsCredits(play, b, rounds, k + 1).credits)
        == TitleCount(prev.credits) + TitleCount(TrialCredits(play, b, rounds, prev.cursor).credits)
  {
    var prev := TrialsCredits(play, b, rounds, k);
    TitleCountAppend(prev.credits, TrialCredits(play, b, rounds, prev.cursor).credits);
  }

  /** k trials hand out at most k titles: one per trial at most. */
  lemma {:induction false} TrialsTitles(play: Match, b: Bracket, rounds: seq<Stage>, k: nat)
    requires forall j :: 0 <= j < |rounds| - 1 ==> rounds[j] != Final
    ensures TitleCount(TrialsCredits(play, b, rounds, k).credits) <= k
  {
    if k > 0 {
      var j := k - 1;
      var prev := TrialsCredits(play, b, rounds, j);
      TitlesStep(play, b, rounds, j);
      TrialsTitles(play, b, rounds, j);
      TrialTitles(play, b, rounds, prev.cursor);
      assert j + 1 == k;
    }
  }

  /** run_simulations: re-parse the input at the start of every trial and
      play the rounds from start on. */
  method RunSimulations(ten: PowerOfTen, lines: seq<Line>, start: Stage, N: nat, rng: nat -> real)
    returns (r: Option<multiset<(string, Credit)>>)
    ensures r == KnockoutRun(Simulate(ten, rng), lines, start, N)
  {
    r := RunTrials(Simulate(ten, rng), lines, start, N);
  }

  /** The trial loop of run_simulations, for any match function. */
  method RunTrials(play: Match, lines: seq<Line>, start: Stage, N: nat)
    returns (r: Option<multiset<(string, Credit)>>)
    ensures r == KnockoutRun(play, lines, start, N)
  {
    var rounds := StagesFrom(start);
    var counts: multiset<(string, Credit)> := multiset{};
    var cursor := 0;
    var k := 0;
    while k < N
      invariant 0 <= k <= N
      invariant SoFar(play, lines, rounds, k) == Some(Progress(counts, cursor))
    {
      var ok;
      ok, counts, cursor := NextTrial(play, lines, rounds, k, counts, cursor);
      if !ok {
        KnockoutRunFails(play, lines, start, N);
        return None;
      }
      k := k + 1;
    }
    assert k == N;
    SoFarRun(play, lines, start, rounds, N, counts, cursor);
    return Some(counts);
  }

  /** run_simulations fails exactly when some trial is played and the input
      does not parse. */
  lemma KnockoutRunFails(play: Match, lines: seq<Line>, start: Stage, N: nat)
    ensures KnockoutRun(play, lines, start, N).None? <==> N > 0 && BracketFrom(lines, |lines|).None?
  {
  }

  /** After all N trials the counts are what run_simulations reports. */
  lemma SoFarRun(play: Match, lines: seq<Line>, start: Stage, rounds: seq<Stage>, N: nat,
                 counts: multiset<(string, Credit)>, cursor: nat)
    requires rounds == StagesFrom(start) && SoFar(play, lines, rounds, N) == Some(Progress(counts, cursor))
    ensures KnockoutRun(play, lines, start, N) == Some(counts)
  {
  }

  /** The counts and the next unused draw after some trials. */
  datatype Progress = Progress(counts: multiset<(string, Credit)>, cursor: nat)

  /** Where run_simulations stands after k trials: nothing and the first
      draw before any, None once the input fails to parse. */
  function SoFar(play: Match, lines: seq<Line>, rounds: seq<Stage>, k: nat): Option<Progress>
  {
    if k == 0 then Some(Progress(multiset{}, 0))
    else match BracketFrom(lines, |lines|)
      case None => None
      case Some(b) =>
        var t := TrialsCredits(play, b, rounds, k);
        Some(Progress(multiset(t.credits), t.cursor))
  }

  /** One pass of run_simulations' trial loop: parse, then play the rounds;
      false when the input does not parse. */
  method NextTrial(play: Match, lines: seq<Line>, rounds: seq<Stage>, k: nat,
                   counts: multiset<(string, Credit)>, cursor: nat)
    returns (ok: bool, counts': multiset<(string, Credit)>, cursor': nat)
    requires SoFar(play, lines, rounds, k) == Some(Progress(counts, cursor))
    ensures ok <==> BracketFrom(lines, |lines|).Some?
    ensures ok ==> SoFar(play, lines, rounds, k + 1) == Some(Progress(counts', cursor'))
  {
    var matches := ParseBracket(lines);
    if matches.None? {
      return false, counts, cursor;
    }
    TrialsCreditsStep(play, matches.value, rounds, k);
    counts', cursor' := PlayTrial(play, matches.value, rounds, cursor, counts);
    ok := true;
  }
}
