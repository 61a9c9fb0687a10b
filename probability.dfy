/** The league probability model: the Elo win curve, the piecewise draw
    probability, the win/draw/loss triple of one fixture, and the sampler that
    turns one uniform draw into league points. */
module Probability {

  /** Stands for x |-> 10 ** x. The transcendental itself is not modelled:
      every power of ten is positive and 10 ** 0 is 1. */
  type PowerOfTen = f: real -> real
    | (forall x :: 0.0 < f(x)) && f(0.0) == 1.0
    witness (x: real) => 1.0

  /** The third fact about 10 ** x the model uses: it grows with x. It is
      required only by the lemmas that compare two ratings. */
  ghost predicate Increasing(ten: PowerOfTen)
  {
    forall x, y :: x <= y ==> ten(x) <= ten(y)
  }

  function Abs(x: real): real
  {
    if x < 0.0 then -x else x
  }

  /** 1 / (1 + x): the shape of both Elo win curves once the power of ten is
      known. For a positive x it lies strictly between 0 and 1, is at least one
      half when x is at most 1, and at most one half when x is at least 1. */
  function Logistic(x: real): (p: real)
    requires 0.0 < x
    ensures 0.0 < p < 1.0
    ensures x <= 1.0 ==> p >= 0.5
    ensures x >= 1.0 ==> p <= 0.5
    ensures x == 1.0 ==> p == 0.5
  {
    var p := 1.0 / (1.0 + x);
    assert p * (1.0 + x) == 1.0;
    assert 0.0 < p;
    assert x <= 1.0 ==> p * 2.0 >= p * (1.0 + x);
    assert x >= 1.0 ==> p * 2.0 <= p * (1.0 + x);
    p
  }

  /** The curve falls as x grows. */
  lemma LogisticAntitone(x: real, y: real)
    requires 0.0 < x <= y
    ensures Logistic(y) <= Logistic(x)
  {
    var p := 1.0 / (1.0 + x);
    var q := 1.0 / (1.0 + y);
    assert p * (1.0 + x) == 1.0;
    assert q * (1.0 + y) == 1.0;
    assert 0.0 < p && 0.0 < q;
    assert p - q == (y - x) * p * q by {
      calc {
        (y - x) * p * q;
        ((1.0 + y) - (1.0 + x)) * p * q;
        (q * (1.0 + y)) * p - (p * (1.0 + x)) * q;
        p - q;
      }
    }
    assert 0.0 <= (y - x) * p;
    assert 0.0 <= ((y - x) * p) * q;
  }

  /** The power win_prob raises 10 to: the rating gap e2 - e1, stretched by
      1.2, over 400. It is not positive when e1 is the stronger side. */
  function Exponent(e1: real, e2: real): (z: real)
    ensures e1 >= e2 ==> z <= 0.0
    ensures e1 <= e2 ==> z >= 0.0
  {
    (e2 - e1) * 1.2 / 400.0
  }

  /** Probability that the side rated e1 beats the side rated e2 before the
      draw share is taken out (win_prob: 1 / (1 + 10 ** ((e2 - e1) * 1.2 / 400))). */
  function WinProb(ten: PowerOfTen, e1: real, e2: real): (p: real)
    ensures 0.0 < p < 1.0
  {
    Logistic(ten(Exponent(e1, e2)))
  }

  /** The stronger side is at least an even chance, the weaker at most. */
  lemma WinProbFavoursStronger(ten: PowerOfTen, e1: real, e2: real)
    requires Increasing(ten)
    ensures e1 >= e2 ==> WinProb(ten, e1, e2) >= 0.5
    ensures e1 <= e2 ==> WinProb(ten, e1, e2) <= 0.5
  {
    var z := Exponent(e1, e2);
    assert z <= 0.0 ==> ten(z) <= ten(0.0);
    assert 0.0 <= z ==> ten(0.0) <= ten(z);
  }

  /** Equal ratings give an even chance. */
  lemma WinProbEven(ten: PowerOfTen, e: real)
    ensures WinProb(ten, e, e) == 0.5
  {
  }

  /** A higher rating never lowers the win probability. */
  lemma WinProbMonotone(ten: PowerOfTen, e1: real, f1: real, e2: real)
    requires Increasing(ten) && e1 <= f1
    ensures WinProb(ten, e1, e2) <= WinProb(ten, f1, e2)
  {
    var zx := Exponent(e1, e2);
    var zy := Exponent(f1, e2);
    assert ten(zy) <= ten(zx);
    LogisticAntitone(ten(zy), ten(zx));
  }

  /** draw_probability: 0.15 at a rating gap of 300 or more, 0.18 from 100 to
      300, and below 100 a line from 0.26 at gap 0 towards 0.23 at gap 100. */
  function DrawProbability(e1: real, e2: real): (d: real)
    ensures 0.15 <= d <= 0.26
    ensures Abs(e1 - e2) >= 300.0 <==> d == 0.15
    ensures 100.0 <= Abs(e1 - e2) < 300.0 <==> d == 0.18
    ensures Abs(e1 - e2) < 100.0 ==> 0.23 < d <= 0.26
    ensures e1 == e2 <==> d == 0.26
  {
    var diff := Abs(e1 - e2);
    if diff >= 300.0 then 0.15
    else if diff >= 100.0 then 0.18
    else 0.26 - (diff / 100.0) * (0.26 - 0.23)
  }

  /** The draw probability depends on the gap only, not on who is at home. */
  lemma DrawSymmetric(e1: real, e2: real)
    ensures DrawProbability(e1, e2) == DrawProbability(e2, e1)
  {
    assert Abs(e1 - e2) == Abs(e2 - e1);
  }

  /** A wider rating gap never makes a draw more likely. */
  lemma DrawMonotone(e1: real, e2: real, f1: real, f2: real)
    requires Abs(e1 - e2) <= Abs(f1 - f2)
    ensures DrawProbability(f1, f2) <= DrawProbability(e1, e2)
  {
  }

  /** The win/draw/loss probabilities of one fixture. */
  datatype Triple = Triple(win: real, draw: real, loss: real)

  /** One side's share after the two adjusted sides are renormalised by
      their total; with p = 1 the total is already one, so the share is kept. */
  function Renormalise(a: real, b: real): (r: real)
    requires a + b == 1.0
    ensures r == a
  {
    a / (a + b)
  }

  /** The triple built from a pre-draw win probability w and a draw
      probability d: both sides renormalised, then scaled by (1 - d). It sums
      to one and both decisive outcomes lie strictly inside (0, 1). */
  function Split(w: real, d: real): (t: Triple)
    requires 0.0 < w < 1.0 && 0.15 <= d <= 0.26
    ensures t.win + t.draw + t.loss == 1.0
    ensures 0.0 < t.win < 1.0 && 0.0 < t.loss < 1.0
    ensures t.draw == d && t.win == w * (1.0 - d) && t.loss == (1.0 - w) * (1.0 - d)
  {
    var winFinal := Renormalise(w, 1.0 - w);
    var lossFinal := Renormalise(1.0 - w, w);
    var a, b := 1.0 - w, 1.0 - d;
    assert 0.0 < a * b && a * b < b;
    assert 0.0 < w * b && w * b < b;
    Triple(winFinal * b, d, lossFinal * b)
  }

  /** match_probabilities with the skew exponent p = 1 that every caller uses:
      pow(x, 1) and pow(x, 1/1) are the identity, the two sides are
      renormalised by their total, and both are scaled by (1 - draw). */
  function Probabilities(ten: PowerOfTen, e1: real, e2: real): (t: Triple)
    ensures t.win + t.draw + t.loss == 1.0
    ensures 0.0 < t.win < 1.0 && 0.0 < t.loss < 1.0
    ensures t.draw == DrawProbability(e1, e2)
    ensures t.win == WinProb(ten, e1, e2) * (1.0 - t.draw)
    ensures t.loss == (1.0 - WinProb(ten, e1, e2)) * (1.0 - t.draw)
  {
    Split(WinProb(ten, e1, e2), DrawProbability(e1, e2))
  }

  /** simulate_match in league mode: the draw r falls in [0, win) for a home
      win, in [win, win + draw) for a draw, and above that for an away win;
      boundaries belong to the later interval. The loss probability is unused. */
  function Score(t: Triple, r: real): (s: (int, int))
    ensures s == (3, 0) <==> r < t.win
    ensures s == (1, 1) <==> t.win <= r < t.win + t.draw
    ensures s == (0, 3) <==> t.win <= r && t.win + t.draw <= r
    ensures s.0 + s.1 == 3 || s.0 + s.1 == 2
  {
    if r < t.win then (3, 0)
    else if r < t.win + t.draw then (1, 1)
    else (0, 3)
  }

  /** A smaller draw never gives the home side fewer points. */
  lemma ScoreMonotone(t: Triple, r: real, r': real)
    requires r <= r'
    ensures Score(t, r').0 <= Score(t, r).0
    ensures Score(t, r).1 <= Score(t, r').1
  {
  }
}
