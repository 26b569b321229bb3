/**
 * `connectParticles` (js/modern.js): the nested loop over every unordered
 * pair of particles, and the line it draws for each pair closer than the
 * link distance. Lines are records of the two indices, the two end points
 * and the opacity; the stroke calls themselves are not modelled.
 */
module Links {
  import opened ParticlePhysics

  /** A drawn line: particle indices, end points and stroke opacity. */
  datatype Line = Line(a: nat, b: nat, from: Point, to: Point, opacity: real)

  /** The pairs the inner loop visits for outer index `a` once `b` has reached `b`: (a, a+1), ..., (a, b-1). */
  function Row(a: nat, b: nat): seq<(nat, nat)>
    decreases b
  {
    if b <= a + 1 then [] else Row(a, b - 1) + [(a, b - 1)]
  }

  /** Every pair the loop has visited once the outer index has reached `a`, on `n` particles. */
  function PairsBelow(a: nat, n: nat): seq<(nat, nat)> {
    if a == 0 then [] else PairsBelow(a - 1, n) + Row(a - 1, n)
  }

  /** One more turn of the outer loop appends the pairs of row `a`. */
  lemma PairsBelowNext(a: nat, n: nat)
    ensures PairsBelow(a + 1, n) == PairsBelow(a, n) + Row(a, n)
  {
  }

  /** Every pair the loop visits over `n` particles, in visiting order. */
  function Pairs(n: nat): seq<(nat, nat)> {
    PairsBelow(n, n)
  }

  /** Lexicographic order on pairs: the order in which the loop visits them. */
  predicate Before(p: (nat, nat), q: (nat, nat)) {
    p.0 < q.0 || (p.0 == q.0 && p.1 < q.1)
  }

  /** Membership in a concatenation. */
  lemma InConcat<T>(u: seq<T>, s: seq<T>, t: seq<T>, x: T)
    requires u == s + t
    ensures x in u <==> x in s || x in t
  {
  }

  lemma {:induction false} RowShape(a: nat, b: nat)
    ensures |Row(a, b)| == if b <= a + 1 then 0 else b - a - 1
    ensures forall j :: 0 <= j < |Row(a, b)| ==> Row(a, b)[j] == (a, a + 1 + j)
    decreases b
  {
    if b > a + 1 {
      RowShape(a, b - 1);
    }
  }

  lemma {:induction false} PairsBelowLength(a: nat, n: nat)
    requires a <= n
    ensures 2 * |PairsBelow(a, n)| == a * (2 * n - a - 1)
  {
    if a > 0 {
      PairsBelowLength(a - 1, n);
      RowShape(a - 1, n);
      assert |PairsBelow(a, n)| == |PairsBelow(a - 1, n)| + (n - a);
      TriangleStep(a - 1, 2 * n - a - 1);
    }
  }

  /** The arithmetic step of `PairsBelowLength`: with m = a - 1 and k = 2n - a - 1. */
  lemma TriangleStep(m: int, k: int)
    ensures m * (k + 1) + (k - m - 1) + 1 == (m + 1) * k
  {
    assert m * (k + 1) == m * k + m;
    assert (m + 1) * k == m * k + k;
  }

  /** The loop visits n(n-1)/2 pairs. */
  lemma PairsCount(n: nat)
    ensures |Pairs(n)| == n * (n - 1) / 2
  {
    PairsBelowLength(n, n);
    assert 2 * |Pairs(n)| == n * (n - 1);
  }

  lemma {:induction false} RowMembers(a: nat, b: nat, p: (nat, nat))
    ensures p in Row(a, b) <==> p.0 == a && a < p.1 < b
    decreases b
  {
    if b > a + 1 {
      RowMembers(a, b - 1, p);
      InConcat(Row(a, b), Row(a, b - 1), [(a, b - 1)], p);
    }
  }

  lemma {:induction false} PairsBelowMembers(a: nat, n: nat, p: (nat, nat))
    ensures p in PairsBelow(a, n) <==> p.0 < a && p.0 < p.1 < n
  {
    if a > 0 {
      PairsBelowMembers(a - 1, n, p);
      RowMembers(a - 1, n, p);
      InConcat(PairsBelow(a, n), PairsBelow(a - 1, n), Row(a - 1, n), p);
    }
  }

  /** `s` lists pairs in strictly increasing (visiting) order. */
  predicate Ordered(s: seq<(nat, nat)>) {
    forall i, j :: 0 <= i < j < |s| ==> Before(s[i], s[j])
  }

  /** Every pair of `s` comes before the pivot `k`. */
  predicate AllBefore(s: seq<(nat, nat)>, k: (nat, nat)) {
    forall p :: p in s ==> Before(p, k)
  }

  /** No pair of `t` comes before the pivot `k`. */
  predicate NoneBefore(t: seq<(nat, nat)>, k: (nat, nat)) {
    forall q :: q in t ==> !Before(q, k)
  }

  /** Two ordered runs of pairs, on either side of a pivot, make an ordered run. */
  lemma OrderedConcat(s: seq<(nat, nat)>, t: seq<(nat, nat)>, k: (nat, nat))
    requires Ordered(s) && Ordered(t) && AllBefore(s, k) && NoneBefore(t, k)
    ensures Ordered(s + t)
  {
    forall i, j | 0 <= i < j < |s + t|
      ensures Before((s + t)[i], (s + t)[j])
    {
      if j < |s| {
        assert (s + t)[i] == s[i] && (s + t)[j] == s[j];
      } else if i < |s| {
        assert s[i] in s && t[j - |s|] in t;
        assert (s + t)[i] == s[i] && (s + t)[j] == t[j - |s|];
      } else {
        assert (s + t)[i] == t[i - |s|] && (s + t)[j] == t[j - |s|];
      }
    }
  }

  lemma {:induction false} RowOrdered(a: nat, b: nat)
    ensures Ordered(Row(a, b))
    decreases b
  {
    if b > a + 1 {
      RowOrdered(a, b - 1);
      var last: (nat, nat) := (a, b - 1);
      forall p | p in Row(a, b - 1)
        ensures Before(p, last)
      {
        RowMembers(a, b - 1, p);
      }
      OrderedConcat(Row(a, b - 1), [last], last);
    }
  }

  lemma {:induction false} PairsBelowOrdered(a: nat, n: nat)
    ensures Ordered(PairsBelow(a, n))
  {
    if a > 0 {
      PairsBelowOrdered(a - 1, n);
      RowOrdered(a - 1, n);
      PairsSeparated(a - 1, n);
      OrderedConcat(PairsBelow(a - 1, n), Row(a - 1, n), (a - 1, 0));
    }
  }

  /** The pairs visited before row `a` all come before the pairs of row `a`. */
  lemma PairsSeparated(a: nat, n: nat)
    ensures AllBefore(PairsBelow(a, n), (a, 0)) && NoneBefore(Row(a, n), (a, 0))
  {
    forall p | p in PairsBelow(a, n)
      ensures Before(p, (a, 0))
    {
      PairsBelowMembers(a, n, p);
    }
    forall q | q in Row(a, n)
      ensures !Before(q, (a, 0))
    {
      RowMembers(a, n, q);
    }
  }

  /**
   * The loop visits exactly the unordered pairs `a < b` of particle
   * indices, each one once, in lexicographic order.
   */
  lemma PairsExactlyOnce(n: nat)
    ensures forall p :: p in Pairs(n) <==> p.0 < p.1 < n
    ensures forall i, j :: 0 <= i < j < |Pairs(n)| ==> Pairs(n)[i] != Pairs(n)[j]
    ensures |Pairs(n)| == n * (n - 1) / 2
  {
    forall p: (nat, nat)
      ensures p in Pairs(n) <==> p.0 < p.1 < n
    {
      PairsBelowMembers(n, n, p);
    }
    PairsBelowOrdered(n, n);
    PairsCount(n);
  }

  /**
   * The line drawn for one pair, if the two particles are closer than the
   * link distance (nothing for indices outside `pos`, which the loop never visits).
   */
  function LineFor(pos: seq<Point>, dist: (Point, Point) -> real, p: (nat, nat)): seq<Line> {
    if p.0 < |pos| && p.1 < |pos| then
      var d := dist(pos[p.0], pos[p.1]);
      if d < LinkDistance then [Line(p.0, p.1, pos[p.0], pos[p.1], Opacity(d))] else []
    else []
  }

  /** The lines the inner loop for outer index `a` has drawn once `b` has reached `b`. */
  function RowLines(pos: seq<Point>, dist: (Point, Point) -> real, a: nat, b: nat): seq<Line>
    decreases b
  {
    if b <= a + 1 then [] else RowLines(pos, dist, a, b - 1) + LineFor(pos, dist, (a, b - 1))
  }

  /** The lines drawn before the outer loop reaches `a`, on `n` particles. */
  function LinesBelow(pos: seq<Point>, dist: (Point, Point) -> real, a: nat, n: nat): seq<Line> {
    if a == 0 then [] else LinesBelow(pos, dist, a - 1, n) + RowLines(pos, dist, a - 1, n)
  }

  /** One more turn of the outer loop appends the lines of row `a`. */
  lemma LinesBelowNext(pos: seq<Point>, dist: (Point, Point) -> real, a: nat, n: nat)
    ensures LinesBelow(pos, dist, a + 1, n) == LinesBelow(pos, dist, a, n) + RowLines(pos, dist, a, n)
  {
  }

  /** Every line one call of `connectParticles` draws for particles at `pos`, in drawing order. */
  function Connections(pos: seq<Point>, dist: (Point, Point) -> real): seq<Line> {
    LinesBelow(pos, dist, |pos|, |pos|)
  }

  /** The line of one in-range pair, for a distance `d` already computed. */
  lemma LineForAt(pos: seq<Point>, dist: (Point, Point) -> real, a: nat, b: nat, d: real)
    requires a < |pos| && b < |pos|
    requires d == dist(pos[a], pos[b])
    ensures d < LinkDistance ==> LineFor(pos, dist, (a, b)) == [Line(a, b, pos[a], pos[b], (LinkDistance - d) / LinkDistance * LinkOpacity)]
    ensures LinkDistance <= d ==> LineFor(pos, dist, (a, b)) == []
  {
  }

  /** The line drawn for particles `a` and `b` at `pos`, when they are close enough. */
  predicate DrawnFor(pos: seq<Point>, dist: (Point, Point) -> real, l: Line)
  {
    l.a < l.b < |pos| &&
    var d := dist(pos[l.a], pos[l.b]);
    d < LinkDistance && l == Line(l.a, l.b, pos[l.a], pos[l.b], Opacity(d))
  }

  lemma {:induction false} RowLinesSound(pos: seq<Point>, dist: (Point, Point) -> real, a: nat, b: nat, l: Line)
    requires l in RowLines(pos, dist, a, b)
    ensures l.a == a && l.b < b && DrawnFor(pos, dist, l)
    decreases b
  {
    if b <= a + 1 {
      assert false;
    } else {
      InConcat(RowLines(pos, dist, a, b), RowLines(pos, dist, a, b - 1), LineFor(pos, dist, (a, b - 1)), l);
      if l in RowLines(pos, dist, a, b - 1) {
        RowLinesSound(pos, dist, a, b - 1, l);
      }
    }
  }

  lemma {:induction false} RowLinesComplete(pos: seq<Point>, dist: (Point, Point) -> real, a: nat, b: nat, l: Line)
    requires l.a == a && l.b < b && DrawnFor(pos, dist, l)
    ensures l in RowLines(pos, dist, a, b)
    decreases b
  {
    InConcat(RowLines(pos, dist, a, b), RowLines(pos, dist, a, b - 1), LineFor(pos, dist, (a, b - 1)), l);
    if l.b < b - 1 {
      RowLinesComplete(pos, dist, a, b - 1, l);
    } else {
      assert l in LineFor(pos, dist, (a, b - 1));
    }
  }

  /** The inner loop for `a` draws exactly the lines of the close pairs `(a, b')` with `b' < b`. */
  lemma RowLinesMembers(pos: seq<Point>, dist: (Point, Point) -> real, a: nat, b: nat, l: Line)
    ensures l in RowLines(pos, dist, a, b) <==> l.a == a && l.b < b && DrawnFor(pos, dist, l)
  {
    if l in RowLines(pos, dist, a, b) {
      RowLinesSound(pos, dist, a, b, l);
    }
    if l.a == a && l.b < b && DrawnFor(pos, dist, l) {
      RowLinesComplete(pos, dist, a, b, l);
    }
  }

  lemma {:induction false} LinesBelowSound(pos: seq<Point>, dist: (Point, Point) -> real, a: nat, n: nat, l: Line)
    requires l in LinesBelow(pos, dist, a, n)
    ensures l.a < a && l.b < n && DrawnFor(pos, dist, l)
  {
    if a == 0 {
      assert false;
    } else {
      InConcat(LinesBelow(pos, dist, a, n), LinesBelow(pos, dist, a - 1, n), RowLines(pos, dist, a - 1, n), l);
      if l in LinesBelow(pos, dist, a - 1, n) {
        LinesBelowSound(pos, dist, a - 1, n, l);
        assert l.a < a && l.b < n && DrawnFor(pos, dist, l);
      } else {
        RowLinesSound(pos, dist, a - 1, n, l);
        assert l.a < a && l.b < n && DrawnFor(pos, dist, l);
      }
    }
  }

  lemma {:induction false} LinesBelowComplete(pos: seq<Point>, dist: (Point, Point) -> real, a: nat, n: nat, l: Line)
    requires l.a < a && l.b < n && DrawnFor(pos, dist, l)
    ensures l in LinesBelow(pos, dist, a, n)
  {
    InConcat(LinesBelow(pos, dist, a, n), LinesBelow(pos, dist, a - 1, n), RowLines(pos, dist, a - 1, n), l);
    if l.a < a - 1 {
      LinesBelowComplete(pos, dist, a - 1, n, l);
    } else {
      RowLinesComplete(pos, dist, a - 1, n, l);
    }
  }

  /** Before the outer loop reaches `a`, exactly the lines of the close pairs with first index below `a` are drawn. */
  lemma LinesBelowMembers(pos: seq<Point>, dist: (Point, Point) -> real, a: nat, n: nat, l: Line)
    ensures l in LinesBelow(pos, dist, a, n) <==> l.a < a && l.b < n && DrawnFor(pos, dist, l)
  {
    if l in LinesBelow(pos, dist, a, n) {
      LinesBelowSound(pos, dist, a, n, l);
    }
    if l.a < a && l.b < n && DrawnFor(pos, dist, l) {
      LinesBelowComplete(pos, dist, a, n, l);
    }
  }

  /** The pair of particle indices a line joins. */
  function Ends(l: Line): (nat, nat) {
    (l.a, l.b)
  }

  /** Every line of the row for `a` starts at `a` and ends below `b`. */
  lemma RowLinesEnds(pos: seq<Point>, dist: (Point, Point) -> real, a: nat, b: nat, l: Line)
    requires l in RowLines(pos, dist, a, b)
    ensures l.a == a && l.b < b
  {
    RowLinesSound(pos, dist, a, b, l);
  }

  /** Every line drawn before the outer loop reaches `a` starts below `a`. */
  lemma LinesBelowEnds(pos: seq<Point>, dist: (Point, Point) -> real, a: nat, n: nat, l: Line)
    requires l in LinesBelow(pos, dist, a, n)
    ensures l.a < a
  {
    LinesBelowSound(pos, dist, a, n, l);
  }

  // The line versions of `Ordered`, `AllBefore`, `NoneBefore` and `OrderedConcat`,
  // keyed by `Ends`. They are spelled out for `Line` rather than shared through a
  // generic key function, which makes every proof over `LinesBelow` far costlier.

  /** `s` lists lines in strictly increasing order of the pairs they join. */
  predicate LinesOrdered(s: seq<Line>) {
    forall i, j :: 0 <= i < j < |s| ==> Before(Ends(s[i]), Ends(s[j]))
  }

  /** Every line of `s` joins a pair that comes before the pivot `k`. */
  predicate LinesBefore(s: seq<Line>, k: (nat, nat)) {
    forall x :: x in s ==> Before(Ends(x), k)
  }

  /** No line of `t` joins a pair that comes before the pivot `k`. */
  predicate LinesFrom(t: seq<Line>, k: (nat, nat)) {
    forall y :: y in t ==> !Before(Ends(y), k)
  }

  /** Two ordered runs of lines, on either side of a pivot, make an ordered run. */
  lemma LinesOrderedConcat(s: seq<Line>, t: seq<Line>, k: (nat, nat))
    requires LinesOrdered(s) && LinesOrdered(t) && LinesBefore(s, k) && LinesFrom(t, k)
    ensures LinesOrdered(s + t)
  {
    forall i, j | 0 <= i < j < |s + t|
      ensures Before(Ends((s + t)[i]), Ends((s + t)[j]))
    {
      if j < |s| {
        assert (s + t)[i] == s[i] && (s + t)[j] == s[j];
      } else if i < |s| {
        assert s[i] in s && t[j - |s|] in t;
        assert (s + t)[i] == s[i] && (s + t)[j] == t[j - |s|];
      } else {
        assert (s + t)[i] == t[i - |s|] && (s + t)[j] == t[j - |s|];
      }
    }
  }

  /** The inner loop for `a` draws its lines with strictly increasing second index. */
  lemma {:induction false} RowLinesOrdered(pos: seq<Point>, dist: (Point, Point) -> real, a: nat, b: nat)
    ensures LinesOrdered(RowLines(pos, dist, a, b))
    decreases b
  {
    if b > a + 1 {
      RowLinesOrdered(pos, dist, a, b - 1);
      var s, t := RowLines(pos, dist, a, b - 1), LineFor(pos, dist, (a, b - 1));
      forall x | x in s
        ensures Before(Ends(x), (a, b - 1))
      {
        RowLinesEnds(pos, dist, a, b - 1, x);
      }
      LinesOrderedConcat(s, t, (a, b - 1));
    }
  }

  /** Lines are drawn in the order the loops visit their pairs. */
  lemma {:induction false} LinesBelowOrdered(pos: seq<Point>, dist: (Point, Point) -> real, a: nat, n: nat)
    ensures LinesOrdered(LinesBelow(pos, dist, a, n))
  {
    if a > 0 {
      LinesBelowOrdered(pos, dist, a - 1, n);
      RowLinesOrdered(pos, dist, a - 1, n);
      RowsSeparated(pos, dist, a - 1, n);
      LinesOrderedConcat(LinesBelow(pos, dist, a - 1, n), RowLines(pos, dist, a - 1, n), (a - 1, 0));
    }
  }

  /** The lines drawn before row `a` all come before the lines of row `a`. */
  lemma RowsSeparated(pos: seq<Point>, dist: (Point, Point) -> real, a: nat, n: nat)
    ensures LinesBefore(LinesBelow(pos, dist, a, n), (a, 0)) && LinesFrom(RowLines(pos, dist, a, n), (a, 0))
  {
    forall x | x in LinesBelow(pos, dist, a, n)
      ensures Before(Ends(x), (a, 0))
    {
      LinesBelowEnds(pos, dist, a, n, x);
    }
    forall y | y in RowLines(pos, dist, a, n)
      ensures !Before(Ends(y), (a, 0))
    {
      RowLinesEnds(pos, dist, a, n, y);
    }
  }

  /**
   * The lines of a frame are exactly the lines between particles `a < b`
   * closer than the link distance, each from particle `a` to particle `b`
   * with the opacity `(120 - d) / 120 * 0.3` for their distance `d` in [0, 120).
   */
  lemma ConnectionsMembers(pos: seq<Point>, dist: (Point, Point) -> real, l: Line)
    requires IsDistance(dist)
    ensures l in Connections(pos, dist) <==>
              l.a < l.b < |pos| &&
              var d := dist(pos[l.a], pos[l.b]);
              0.0 <= d < LinkDistance && l == Line(l.a, l.b, pos[l.a], pos[l.b], Opacity(d))
  {
    LinesBelowMembers(pos, dist, |pos|, |pos|, l);
    if l.a < l.b < |pos| {
      assert Measures(pos[l.a], pos[l.b].x, pos[l.b].y, dist(pos[l.a], pos[l.b]));
    }
  }

  /** Each pair of particles is joined by at most one line in a frame. */
  lemma ConnectionsOncePerPair(pos: seq<Point>, dist: (Point, Point) -> real)
    ensures forall i, j :: 0 <= i < j < |Connections(pos, dist)| ==> Ends(Connections(pos, dist)[i]) != Ends(Connections(pos, dist)[j])
  {
    LinesBelowOrdered(pos, dist, |pos|, |pos|);
  }

  /** Every line joins a pair the loops visit. */
  lemma ConnectionsWithinPairs(pos: seq<Point>, dist: (Point, Point) -> real, l: Line)
    requires l in Connections(pos, dist)
    ensures Ends(l) in Pairs(|pos|)
  {
    LinesBelowSound(pos, dist, |pos|, |pos|, l);
    PairsBelowMembers(|pos|, |pos|, Ends(l));
  }

  /** A line joins `a` and `b` exactly when `a < b` and the two are closer than the link distance. */
  lemma LinkDrawnIff(pos: seq<Point>, dist: (Point, Point) -> real, a: nat, b: nat)
    requires IsDistance(dist)
    requires a < |pos| && b < |pos|
    ensures var d := dist(pos[a], pos[b]);
            (exists l :: l in Connections(pos, dist) && Ends(l) == (a, b))
              <==> a < b && d < LinkDistance
  {
    var d := dist(pos[a], pos[b]);
    if a < b && d < LinkDistance {
      var l := Line(a, b, pos[a], pos[b], Opacity(d));
      ConnectionsMembers(pos, dist, l);
    }
    forall l | l in Connections(pos, dist) && Ends(l) == (a, b)
      ensures a < b && d < LinkDistance
    {
      ConnectionsMembers(pos, dist, l);
    }
  }

  /** Every drawn line has an opacity in (0, 0.3]. */
  lemma LinkOpacityRange(pos: seq<Point>, dist: (Point, Point) -> real, l: Line)
    requires IsDistance(dist)
    requires l in Connections(pos, dist)
    ensures 0.0 < l.opacity <= LinkOpacity
  {
    ConnectionsMembers(pos, dist, l);
  }
}
