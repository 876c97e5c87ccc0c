/** The arithmetic of the backtest index repair: equity curve, drawdown and profit, with rounding to four places. */
module EquityRepair {
  import opened Seqs

  // _round: round half to even, at four decimals

  function RoundHalfEven(x: real): int {
    var f := x.Floor;
    var d := x - f as real;
    if d < 0.5 || (d == 0.5 && f % 2 == 0) then f else f + 1
  }

  function Round(x: real): real { RoundHalfEven(x * 10000.0) as real / 10000.0 }

  lemma RoundNear(x: real)
    ensures -0.00005 <= Round(x) - x <= 0.00005
  {}

  lemma HalfEvenMonotone(x: real, y: real)
    requires x <= y
    ensures RoundHalfEven(x) <= RoundHalfEven(y)
  {
    assert x.Floor <= y.Floor;
  }

  lemma RoundMonotone(x: real, y: real)
    requires x <= y
    ensures Round(x) <= Round(y)
  {
    HalfEvenMonotone(x * 10000.0, y * 10000.0);
  }

  lemma RoundIdempotent(x: real)
    ensures Round(Round(x)) == Round(x)
  {
    var n := RoundHalfEven(x * 10000.0);
    assert Round(x) * 10000.0 == n as real;
    assert (n as real).Floor == n;
  }

  /** Halves go to the even neighbour, everything else to the nearest whole number. */
  lemma RoundTies(x: real, n: int)
    ensures x == n as real + 0.5 ==> RoundHalfEven(x) == if n % 2 == 0 then n else n + 1
    ensures n as real - 0.5 < x < n as real + 0.5 ==> RoundHalfEven(x) == n
  {
    assert x == n as real + 0.5 ==> x.Floor == n;
    assert n as real - 0.5 < x < n as real + 0.5 ==> x.Floor == n || x.Floor == n - 1;
  }

  // The raw points

  /** A JSON value: absent, empty or false; a number; or any other truthy value, perhaps numeric text. */
  datatype Raw = Falsy | Num(value: real) | Other(parsed: Option<real>)

  datatype Point = Point(equity: Raw, value: Raw)

  /** Python's `a or b`. */
  function Or(a: Raw, b: Raw): Raw { if a == Falsy || a == Num(0.0) then b else a }

  /** _number */
  function Number(raw: Raw): Option<real> {
    match raw
    case Falsy => None
    case Num(v) => Some(v)
    case Other(parsed) => parsed
  }

  /** `_number(equity or value) or previous`: a missing or zero equity repeats the previous one. */
  function EquityOf(p: Point, previous: real): real {
    match Number(Or(p.equity, p.value))
    case Some(v) => if v != 0.0 then v else previous
    case None => previous
  }

  /**
   * A number other than zero in the equity stands, also as text; a missing or zero equity makes way for the value,
   * unreadable or zero text does not. Without such a number the previous equity is repeated.
   */
  lemma EquityCases(p: Point, previous: real, v: real)
    requires v != 0.0
    ensures p.equity in {Num(v), Other(Some(v))} ==> EquityOf(p, previous) == v
    ensures p.equity in {Falsy, Num(0.0)} && p.value in {Num(v), Other(Some(v))} ==> EquityOf(p, previous) == v
    ensures p.equity in {Falsy, Num(0.0)} && p.value in {Falsy, Num(0.0), Other(None), Other(Some(0.0))} ==>
              EquityOf(p, previous) == previous
    ensures p.equity in {Other(None), Other(Some(0.0))} ==> EquityOf(p, previous) == previous
  {}

  /** The equities of the points that are objects, in order. */
  function Equities(points: seq<Option<Point>>, initial: real): seq<real> {
    if points == [] then []
    else
      var before := Equities(points[..|points| - 1], initial);
      match points[|points| - 1]
      case None => before
      case Some(p) => before + [EquityOf(p, Last(initial, before))]
  }

  /** A curve goes on from its last equity; one point adds its own equity, and one that is no object adds nothing. */
  lemma {:induction false} EquitiesAppend(a: seq<Option<Point>>, b: seq<Option<Point>>, initial: real)
    ensures Equities(a + b, initial) == Equities(a, initial) + Equities(b, Last(initial, Equities(a, initial)))
    ensures |a| == 1 ==> Equities(a, initial) == if a[0].Some? then [EquityOf(a[0].value, initial)] else []
  {
    if b == [] {
      assert a + b == a;
    } else {
      var init, last := b[..|b| - 1], b[|b| - 1];
      assert (a + b)[..|a + b| - 1] == a + init && (a + b)[|a + b| - 1] == last;
      EquitiesAppend(a, init, initial);
      LastAppend(initial, Equities(a, initial), Equities(init, Last(initial, Equities(a, initial))));
    }
    assert |a| == 1 ==> a[..0] == [];
  }

  lemma LastAppend(initial: real, a: seq<real>, b: seq<real>)
    ensures Last(initial, a + b) == Last(Last(initial, a), b)
  {}

  function Last(initial: real, equities: seq<real>): real {
    if equities == [] then initial else equities[|equities| - 1]
  }

  /** The highest level so far, starting from the initial capital. */
  function Peak(initial: real, equities: seq<real>): real {
    if equities == [] then initial else Max(Peak(initial, equities[..|equities| - 1]), equities[|equities| - 1])
  }

  /** The fall from one level to another, in percent. */
  function Fall(level: real, equity: real): real { if level <= 0.0 then 0.0 else (level - equity) / level * 100.0 }

  datatype Normalized = Normalized(equity: real, pnl: real, drawdown: real)

  /** What the i-th point is normalised to. */
  function NormalizedAt(initial: real, equities: seq<real>, i: nat): Normalized
    requires i < |equities|
  {
    Normalized(equities[i], Round(equities[i] - Last(initial, equities[..i])),
               Round(Fall(Peak(initial, equities[..i + 1]), equities[i])))
  }

  ghost predicate Normalizes(normalized: seq<Normalized>, initial: real, equities: seq<real>) {
    |normalized| == |equities|
    && forall i :: 0 <= i < |equities| ==> normalized[i] == NormalizedAt(initial, equities, i)
  }

  /** One more point leaves the points before it as they are. */
  lemma NormalizesSnoc(normalized: seq<Normalized>, initial: real, equities: seq<real>, equity: real, n: Normalized)
    requires Normalizes(normalized, initial, equities)
    requires n == Normalized(equity, Round(equity - Last(initial, equities)),
                             Round(Fall(Max(Peak(initial, equities), equity), equity)))
    ensures Normalizes(normalized + [n], initial, equities + [equity])
    ensures Peak(initial, equities + [equity]) == Max(Peak(initial, equities), equity)
  {
    var now := equities + [equity];
    assert now[..|equities|] == equities && now[..|now|] == now;
    forall i | 0 <= i < |equities| ensures NormalizedAt(initial, now, i) == NormalizedAt(initial, equities, i) {
      assert now[..i] == equities[..i] && now[..i + 1] == equities[..i + 1];
    }
  }

  lemma EquitiesSnoc(points: seq<Option<Point>>, initial: real, index: nat)
    requires index < |points|
    ensures var before := Equities(points[..index], initial);
            Equities(points[..index + 1], initial)
            == if points[index].None? then before else before + [EquityOf(points[index].value, Last(initial, before))]
  {
    assert points[..index + 1][..index] == points[..index];
  }

  /** _normalize_equity */
  method NormalizeEquity(points: seq<Option<Point>>, initial: real) returns (normalized: seq<Normalized>)
    ensures Normalizes(normalized, initial, Equities(points, initial))
  {
    var previous, peak := initial, initial;
    normalized := [];
    ghost var e: seq<real> := [];
    for index := 0 to |points|
      invariant e == Equities(points[..index], initial) && (index == 0 ==> e == [])
      invariant previous == Last(initial, e) && peak == Peak(initial, e)
      invariant Normalizes(normalized, initial, e)
    {
      EquitiesSnoc(points, initial, index);
      if points[index].None? {
        continue;
      }
      var equity := EquityOf(points[index].value, previous);
      peak := Max(peak, equity);
      var n :=
          Normalized(equity, Round(equity - (if index == 0 then initial else previous)), Round(Fall(peak, equity)));
      NormalizesSnoc(normalized, initial, e, equity, n);
      normalized := normalized + [n];
      previous := equity;
      e := e + [equity];
    }
    assert points[..|points|] == points;
  }

  // Profit telescopes

  function PnlSum(normalized: seq<Normalized>): real {
    if normalized == [] then 0.0 else PnlSum(normalized[..|normalized| - 1]) + normalized[|normalized| - 1].pnl
  }

  /**
   * The rounded profits of the points add up to final minus initial, within half a unit of the fourth decimal per
   * point.
   */
  lemma {:induction false} ProfitTelescopes(normalized: seq<Normalized>, initial: real, equities: seq<real>)
    requires Normalizes(normalized, initial, equities)
    ensures var error := PnlSum(normalized) - (Last(initial, equities) - initial);
            -(|equities| as real * 0.00005) <= error <= |equities| as real * 0.00005
  {
    if equities != [] {
      var n := |equities| - 1;
      var before := equities[..n];
      forall i | 0 <= i < n ensures NormalizedAt(initial, before, i) == NormalizedAt(initial, equities, i) {
        assert before[..i] == equities[..i] && before[..i + 1] == equities[..i + 1];
      }
      ProfitTelescopes(normalized[..n], initial, before);
      RoundNear(equities[n] - Last(initial, before));
    }
  }

  // One-pass drawdown and all-pairs drawdown

  /** The levels an equity can have fallen from: the initial capital and the equities up to its own. */
  function Levels(initial: real, equities: seq<real>): seq<real> { [initial] + equities }

  lemma {:induction false} PeakIsMaximum(initial: real, equities: seq<real>)
    ensures Peak(initial, equities) in Levels(initial, equities)
    ensures forall l :: l in Levels(initial, equities) ==> l <= Peak(initial, equities)
  {
    if equities != [] {
      var init, last := equities[..|equities| - 1], equities[|equities| - 1];
      PeakIsMaximum(initial, init);
      assert equities == init + [last];
      assert Levels(initial, equities) == Levels(initial, init) + [last];
    }
  }

  /** An equity that is not negative falls more from a higher level; a negative one falls less. */
  lemma HigherLevelFallsMore(a: real, p: real, e: real)
    requires 0.0 < a <= p
    ensures e >= 0.0 ==> Fall(a, e) <= Fall(p, e)
    ensures e < 0.0 && a < p ==> Fall(a, e) > Fall(p, e)
  {
    var x, y := (a - e) / a, (p - e) / p;
    assert x * a == a - e && y * p == p - e;
    if e >= 0.0 {
      Ordered(1.0 - y, 1.0 - x, a, p, e);
    } else if a < p {
      Ordered(y - 1.0, x - 1.0, a, p, -e);
      Cancel(x - 1.0, y - 1.0, a, p, -e);
    }
  }

  lemma Ordered(v: real, u: real, a: real, p: real, e: real)
    requires 0.0 < a <= p && e >= 0.0 && u * a == e && v * p == e
    ensures v <= u
  {
    assert v >= 0.0 by { if v < 0.0 { NegativeTimes(v, p); assert false; } }
    assert v * (p - a) >= 0.0;
    assert (u - v) * a == u * a - v * p + v * (p - a);
    if u < v { NegativeTimes(u - v, a); assert false; }
  }

  lemma NegativeTimes(v: real, p: real)
    requires v < 0.0 < p
    ensures v * p < 0.0
  {}

  lemma Cancel(u: real, v: real, a: real, p: real, e: real)
    requires 0.0 < a < p && e > 0.0 && u * a == e && v * p == e
    ensures u != v
  {
    assert u != 0.0;
    assert u * (p - a) != 0.0;
    assert u * p - u * a == u * (p - a);
  }

  /** The one-pass drawdown of a point bounds its falls from all its levels. */
  ghost predicate PeakIsWorst(initial: real, equities: seq<real>) {
    equities != [] ==>
      forall l :: l in Levels(initial, equities) && l > 0.0 ==>
                    Fall(l, Last(initial, equities)) <= Fall(Peak(initial, equities), Last(initial, equities))
  }

  /**
   * The one-pass value of the last point is its largest fall exactly when its equity is not negative, or all
   * its positive levels are equally high.
   */
  lemma OnePassIff(initial: real, equities: seq<real>)
    requires initial > 0.0 && equities != []
    ensures PeakIsWorst(initial, equities)
            <==> Last(initial, equities) >= 0.0
                 || forall l :: l in Levels(initial, equities) && l > 0.0 ==> l == Peak(initial, equities)
  {
    var e, p, levels := Last(initial, equities), Peak(initial, equities), Levels(initial, equities);
    PeakIsMaximum(initial, equities);
    assert initial in levels;
    forall l | l in levels && l > 0.0
      ensures e >= 0.0 ==> Fall(l, e) <= Fall(p, e)
      ensures e < 0.0 && l < p ==> Fall(l, e) > Fall(p, e)
    {
      HigherLevelFallsMore(l, p, e);
    }
  }

  // The whole curve

  function FallFrom(initial: real, equities: seq<real>, j: nat, i: nat): real
    requires i < |equities| && j <= |equities|
  {
    Fall(Levels(initial, equities)[j], equities[i])
  }

  /** x is the largest fall from an earlier-or-equal level over the whole curve. */
  ghost predicate LargestFall(initial: real, equities: seq<real>, x: real) {
    && (forall i, j :: 0 <= i < |equities| && 0 <= j <= i + 1 ==> FallFrom(initial, equities, j, i) <= x)
    && (exists i, j :: 0 <= i < |equities| && 0 <= j <= i + 1 && FallFrom(initial, equities, j, i) == x)
  }

  function MaxOf(values: seq<real>): (m: real)
    requires values != []
    ensures m in values && forall v :: v in values ==> v <= m
  {
    if |values| == 1 then values[0]
    else
      assert values == [values[0]] + values[1..];
      Max(values[0], MaxOf(values[1..]))
  }

  function FallsAt(initial: real, equities: seq<real>, i: nat): (r: seq<real>)
    requires i < |equities|
    ensures |r| == i + 2 && forall j :: 0 <= j < i + 2 ==> r[j] == FallFrom(initial, equities, j, i)
  {
    seq(i + 2, j requires 0 <= j < i + 2 => FallFrom(initial, equities, j, i))
  }

  /** The all-pairs maximum: over all points, over all levels up to the point. */
  function AllPairsDrawdown(initial: real, equities: seq<real>): real
    requires equities != []
  {
    MaxOf(seq(|equities|, i requires 0 <= i < |equities| => MaxOf(FallsAt(initial, equities, i))))
  }

  /** The all-pairs maximum is the largest fall, so a largest fall exists. */
  lemma AllPairsIsLargest(initial: real, equities: seq<real>)
    requires equities != []
    ensures LargestFall(initial, equities, AllPairsDrawdown(initial, equities))
  {
    var tops := seq(|equities|, i requires 0 <= i < |equities| => MaxOf(FallsAt(initial, equities, i)));
    forall i, j | 0 <= i < |equities| && 0 <= j <= i + 1 ensures FallFrom(initial, equities, j, i) <= MaxOf(tops) {
      assert FallsAt(initial, equities, i)[j] in FallsAt(initial, equities, i);
      assert tops[i] in tops;
    }
    var i :| 0 <= i < |tops| && tops[i] == MaxOf(tops);
    var falls := FallsAt(initial, equities, i);
    var j :| 0 <= j < |falls| && falls[j] == tops[i];
    assert FallFrom(initial, equities, j, i) == MaxOf(tops);
  }

  lemma LargestFallUnique(initial: real, equities: seq<real>, x: real, y: real)
    requires LargestFall(initial, equities, x) && LargestFall(initial, equities, y)
    ensures x == y
  {}

  /** What the one pass computes at each point, before rounding. */
  function OnePass(initial: real, equities: seq<real>): (r: seq<real>)
    ensures |r| == |equities|
    ensures forall i :: 0 <= i < |r| ==> r[i] == Fall(Peak(initial, equities[..i + 1]), equities[i])
  {
    seq(|equities|, i requires 0 <= i < |equities| => Fall(Peak(initial, equities[..i + 1]), equities[i]))
  }

  function Drawdowns(initial: real, equities: seq<real>): (r: seq<real>)
    ensures |r| == |equities|
    ensures forall i :: 0 <= i < |r| ==> r[i] == NormalizedAt(initial, equities, i).drawdown
  {
    seq(|equities|, i requires 0 <= i < |equities| => NormalizedAt(initial, equities, i).drawdown)
  }

  /** Rounding the points first makes no difference to the reported maximum. */
  lemma ReportedIsRounded(initial: real, equities: seq<real>)
    requires equities != []
    ensures Round(MaxOf(Drawdowns(initial, equities))) == Round(MaxOf(OnePass(initial, equities)))
  {
    var d, exact := Drawdowns(initial, equities), OnePass(initial, equities);
    forall i | 0 <= i < |d| ensures d[i] <= Round(MaxOf(exact)) {
      assert exact[i] in exact;
      RoundMonotone(exact[i], MaxOf(exact));
    }
    var i :| 0 <= i < |exact| && exact[i] == MaxOf(exact);
    assert d[i] in d;
    assert MaxOf(d) == Round(MaxOf(exact));
    RoundIdempotent(MaxOf(exact));
  }

  lemma PeakAt(initial: real, equities: seq<real>, i: nat) returns (j: nat)
    requires i < |equities|
    ensures j <= i + 1 && Levels(initial, equities)[j] == Peak(initial, equities[..i + 1])
    ensures forall k :: 0 <= k <= i + 1 ==> Levels(initial, equities)[k] <= Peak(initial, equities[..i + 1])
  {
    var cut, levels := equities[..i + 1], Levels(initial, equities);
    PeakIsMaximum(initial, cut);
    assert Levels(initial, cut) == levels[..i + 2];
    forall k | 0 <= k <= i + 1 ensures levels[k] <= Peak(initial, cut) {
      assert levels[..i + 2][k] in levels[..i + 2];
    }
    j :| 0 <= j < i + 2 && levels[..i + 2][j] == Peak(initial, cut);
  }

  /** A point below zero that follows, or is, a positive level. */
  ghost predicate Underwater(initial: real, equities: seq<real>, i: nat)
    requires i < |equities|
  {
    equities[i] < 0.0 && exists j :: 0 <= j <= i + 1 && Levels(initial, equities)[j] > 0.0
  }

  /** At such a point the fall is more than 100 percent, and only there. */
  lemma DeepFall(level: real, e: real)
    ensures Fall(level, e) > 100.0 <==> level > 0.0 && e < 0.0
    ensures level > 0.0 && e <= level ==> Fall(level, e) >= 0.0
  {
    if level > 0.0 {
      Cross(level, 1.0, e, 0.0);
    }
  }

  /** Falls compared without dividing. */
  lemma Cross(l: real, p: real, e: real, f: real)
    requires l > 0.0 && p > 0.0
    ensures Fall(l, e) <= Fall(p, f) <==> NoFurther(e, l, f, p)
  {
    var x, y := (l - e) / l, (p - f) / p;
    assert x * l == l - e && y * p == p - f;
    var d := y - x;
    assert d * (l * p) == (y * p) * l - (x * l) * p;
    assert d * (l * p) == (p - f) * l - (l - e) * p == e * p - f * l;
    SignOf(d, l * p);
  }

  lemma SignOf(d: real, q: real)
    requires q > 0.0
    ensures d >= 0.0 <==> d * q >= 0.0
  {}

  /** Where no point is under water the one pass takes the largest fall of the point. */
  lemma PointFall(initial: real, equities: seq<real>, i: nat)
    requires i < |equities| && !Underwater(initial, equities, i)
    ensures forall j :: 0 <= j <= i + 1 ==> FallFrom(initial, equities, j, i) <= OnePass(initial, equities)[i]
  {
    var levels, peak := Levels(initial, equities), Peak(initial, equities[..i + 1]);
    var top := PeakAt(initial, equities, i);
    assert levels[i + 1] == equities[i];
    DeepFall(peak, equities[i]);
    forall j | 0 <= j <= i + 1 ensures FallFrom(initial, equities, j, i) <= Fall(peak, equities[i]) {
      if levels[j] > 0.0 {
        HigherLevelFallsMore(levels[j], peak, equities[i]);
      }
    }
  }

  /** The one pass never exceeds the all-pairs maximum. */
  lemma OnePassAtMost(initial: real, equities: seq<real>)
    requires equities != []
    ensures MaxOf(OnePass(initial, equities)) <= AllPairsDrawdown(initial, equities)
  {
    AllPairsIsLargest(initial, equities);
    var exact := OnePass(initial, equities);
    var i :| 0 <= i < |exact| && exact[i] == MaxOf(exact);
    var j := PeakAt(initial, equities, i);
    assert FallFrom(initial, equities, j, i) == exact[i];
  }

  /**
   * A point k below zero before which all positive levels are equally high, and from which no other point falls
   * further: equities[k] / level is at most equities[i] / level' for every positive level' up to i.
   */
  ghost predicate WorstFromFlat(initial: real, equities: seq<real>, k: nat, level: real)
    requires k < |equities|
  {
    var levels := Levels(initial, equities);
    && equities[k] < 0.0 && level > 0.0
    && (exists j :: 0 <= j <= k + 1 && levels[j] == level)
    && (forall j :: 0 <= j <= k + 1 && levels[j] > 0.0 ==> levels[j] == level)
    && (forall i, j :: 0 <= i < |equities| && 0 <= j <= i + 1 && levels[j] > 0.0 ==>
                         NoFurther(equities[i], levels[j], equities[k], level))
  }

  /** e is no further below l than f is below p, in proportion. */
  predicate NoFurther(e: real, l: real, f: real, p: real) { f * l <= e * p }

  ghost predicate OnePassExact(initial: real, equities: seq<real>) {
    (forall i :: 0 <= i < |equities| ==> !Underwater(initial, equities, i))
    || exists k, level :: 0 <= k < |equities| && WorstFromFlat(initial, equities, k, level)
  }

  lemma FlatIsExact(initial: real, equities: seq<real>, k: nat, level: real)
    requires k < |equities| && WorstFromFlat(initial, equities, k, level)
    ensures MaxOf(OnePass(initial, equities)) == AllPairsDrawdown(initial, equities)
  {
    var exact := OnePass(initial, equities);
    FlatPeak(initial, equities, k, level);
    AllPairsIsLargest(initial, equities);
    var i, j :| 0 <= i < |equities| && 0 <= j <= i + 1
                && FallFrom(initial, equities, j, i) == AllPairsDrawdown(initial, equities);
    FlatBounds(initial, equities, k, level, i, j);
    assert exact[k] in exact;
    OnePassAtMost(initial, equities);
  }

  lemma FlatPeak(initial: real, equities: seq<real>, k: nat, level: real)
    requires k < |equities| && WorstFromFlat(initial, equities, k, level)
    ensures OnePass(initial, equities)[k] == Fall(level, equities[k])
  {
    var top := PeakAt(initial, equities, k);
    assert Levels(initial, equities)[top] == level;
  }

  lemma FlatBounds(initial: real, equities: seq<real>, k: nat, level: real, i: nat, j: nat)
    requires k < |equities| && WorstFromFlat(initial, equities, k, level) && i < |equities| && j <= i + 1
    ensures FallFrom(initial, equities, j, i) <= Fall(level, equities[k])
  {
    var l := Levels(initial, equities)[j];
    DeepFall(level, equities[k]);
    if l > 0.0 {
      assert NoFurther(equities[i], l, equities[k], level);
      Cross(l, level, equities[i], equities[k]);
    }
  }

  lemma DryIsExact(initial: real, equities: seq<real>)
    requires equities != [] && forall i :: 0 <= i < |equities| ==> !Underwater(initial, equities, i)
    ensures MaxOf(OnePass(initial, equities)) == AllPairsDrawdown(initial, equities)
  {
    AllPairsIsLargest(initial, equities);
    var i, j :| 0 <= i < |equities| && 0 <= j <= i + 1
                && FallFrom(initial, equities, j, i) == AllPairsDrawdown(initial, equities);
    PointFall(initial, equities, i);
    assert OnePass(initial, equities)[i] in OnePass(initial, equities);
    OnePassAtMost(initial, equities);
  }

  lemma ExactIsFlat(initial: real, equities: seq<real>, u: nat) returns (k: nat, level: real)
    requires u < |equities| && Underwater(initial, equities, u)
    requires MaxOf(OnePass(initial, equities)) == AllPairsDrawdown(initial, equities)
    ensures k < |equities| && WorstFromFlat(initial, equities, k, level)
  {
    var levels, exact, x := Levels(initial, equities), OnePass(initial, equities), AllPairsDrawdown(initial, equities);
    AllPairsIsLargest(initial, equities);
    var v :| 0 <= v <= u + 1 && levels[v] > 0.0;
    DeepFall(levels[v], equities[u]);
    assert FallFrom(initial, equities, v, u) <= x;
    k :| 0 <= k < |exact| && exact[k] == x;
    level := Peak(initial, equities[..k + 1]);
    DeepFall(level, equities[k]);
    DeepestIsFlat(initial, equities, k, level);
    forall i, j | 0 <= i < |equities| && 0 <= j <= i + 1 && levels[j] > 0.0
      ensures NoFurther(equities[i], levels[j], equities[k], level)
    {
      assert FallFrom(initial, equities, j, i) <= x;
      Cross(levels[j], level, equities[i], equities[k]);
    }
  }

  /** A fall of more than 100 percent from the peak that no other level exceeds starts at the only positive level. */
  lemma DeepestIsFlat(initial: real, equities: seq<real>, k: nat, level: real)
    requires k < |equities| && level == Peak(initial, equities[..k + 1]) && level > 0.0 && equities[k] < 0.0
    requires forall j :: 0 <= j <= k + 1 ==> FallFrom(initial, equities, j, k) <= Fall(level, equities[k])
    ensures exists j :: 0 <= j <= k + 1 && Levels(initial, equities)[j] == level
    ensures forall j :: 0 <= j <= k + 1 && Levels(initial, equities)[j] > 0.0 ==> Levels(initial, equities)[j] == level
  {
    var top := PeakAt(initial, equities, k);
    forall j | 0 <= j <= k + 1 && Levels(initial, equities)[j] > 0.0 ensures Levels(initial, equities)[j] == level {
      assert FallFrom(initial, equities, j, k) <= Fall(level, equities[k]);
      HigherLevelFallsMore(Levels(initial, equities)[j], level, equities[k]);
    }
  }

  /**
   * For every curve and capital, the maximum of the one pass is the all-pairs maximum if and only if no point is
   * under water, or the worst such point falls from the only positive level there was.
   */
  lemma OnePassDrawdownIff(initial: real, equities: seq<real>)
    requires equities != []
    ensures MaxOf(OnePass(initial, equities)) == AllPairsDrawdown(initial, equities) <==>
              OnePassExact(initial, equities)
  {
    if MaxOf(OnePass(initial, equities)) == AllPairsDrawdown(initial, equities) {
      if u :| 0 <= u < |equities| && Underwater(initial, equities, u) {
        var k, level := ExactIsFlat(initial, equities, u);
      }
    }
    if OnePassExact(initial, equities) {
      if k, level :| 0 <= k < |equities| && WorstFromFlat(initial, equities, k, level) {
        FlatIsExact(initial, equities, k, level);
      } else {
        DryIsExact(initial, equities);
      }
    }
  }

  /** With positive capital, points under water are the negative equities. */
  lemma UnderwaterIsNegative(initial: real, equities: seq<real>, i: nat)
    requires initial > 0.0 && i < |equities|
    ensures Underwater(initial, equities, i) <==> equities[i] < 0.0
  {
    assert Levels(initial, equities)[0] == initial;
  }

  /**
   * So with positive capital: no equity is negative, or the worst negative one follows no positive level but the
   * capital.
   */
  lemma PositiveCapital(initial: real, equities: seq<real>)
    requires initial > 0.0
    ensures OnePassExact(initial, equities)
            <==> (forall i :: 0 <= i < |equities| ==> equities[i] >= 0.0)
                 || exists k :: 0 <= k < |equities| && WorstFromFlat(initial, equities, k, initial)
  {
    assert Levels(initial, equities)[0] == initial;
    forall i | 0 <= i < |equities| ensures Underwater(initial, equities, i) <==> equities[i] < 0.0 {
      UnderwaterIsNegative(initial, equities, i);
    }
  }

  /** On such curves, in particular without negative equities, the reported maximum is the rounded all-pairs maximum. */
  lemma OnePassDrawdownIsAllPairs(initial: real, equities: seq<real>)
    requires equities != [] && OnePassExact(initial, equities)
    ensures Round(MaxOf(Drawdowns(initial, equities))) == Round(AllPairsDrawdown(initial, equities))
  {
    ReportedIsRounded(initial, equities);
    OnePassDrawdownIff(initial, equities);
  }

  /** From 100 over 200 to -100 the reported maximum is 150 percent, the rounded largest fall is 200. */
  lemma NegativeEquityUnderstated(equities: seq<real>)
    requires equities == [200.0, -100.0]
    ensures Round(MaxOf(Drawdowns(100.0, equities))) == 150.0
    ensures Round(AllPairsDrawdown(100.0, equities)) == 200.0
  {
    assert equities[..1] == [200.0] && [200.0][..0] == [] && equities[..2] == equities;
    assert Peak(100.0, [200.0]) == 200.0 && Peak(100.0, equities) == 200.0;
    var exact := OnePass(100.0, equities);
    assert exact[0] == 0.0 && exact[1] == 150.0;
    assert exact[1] in exact && MaxOf(exact) == 150.0;
    ReportedIsRounded(100.0, equities);
    RoundWhole(150);
    AllPairsIsLargest(100.0, equities);
    TwoPointFalls(equities);
    LargestFallUnique(100.0, equities, AllPairsDrawdown(100.0, equities), 200.0);
    RoundWhole(200);
  }

  lemma TwoPointFalls(equities: seq<real>)
    requires equities == [200.0, -100.0]
    ensures LargestFall(100.0, equities, 200.0)
  {
    assert Levels(100.0, equities) == [100.0, 200.0, -100.0];
    assert FallFrom(100.0, equities, 0, 1) == 200.0;
  }

  lemma RoundWhole(n: int)
    ensures Round(n as real) == n as real
  {
    assert (n as real * 10000.0) == (n * 10000) as real;
    assert ((n * 10000) as real).Floor == n * 10000;
  }

  /** Points whose own numbers are not negative never give a negative equity, whatever is missing or zero. */
  lemma {:induction false} EquitiesNonNegative(points: seq<Option<Point>>, initial: real)
    requires initial >= 0.0
    requires forall p :: p in points && p.Some? && Number(Or(p.value.equity, p.value.value)).Some? ==>
                           Number(Or(p.value.equity, p.value.value)).value >= 0.0
    ensures forall e :: e in Equities(points, initial) ==> e >= 0.0
  {
    if points != [] {
      EquitiesNonNegative(points[..|points| - 1], initial);
      assert points[|points| - 1] in points;
      var before := Equities(points[..|points| - 1], initial);
      assert before != [] ==> before[|before| - 1] in before;
    }
  }

  function Percentage(gain: real, initial: real): real { if initial == 0.0 then 0.0 else gain / initial * 100.0 }

  /** The percentage of the initial capital that makes up the gain. */
  lemma PercentageMeans(gain: real, initial: real)
    ensures initial != 0.0 ==> Percentage(gain, initial) * initial / 100.0 == gain
    ensures initial == 0.0 ==> Percentage(gain, initial) == 0.0
  {
    if initial != 0.0 {
      var ratio := gain / initial;
      assert ratio * initial == gain;
      Hundredfold(ratio, initial);
    }
  }

  lemma Hundredfold(ratio: real, initial: real)
    ensures ratio * 100.0 * initial / 100.0 == ratio * initial
  {}

  datatype Metrics = Metrics(pnlAbsolute: real, pnlPercentage: real, maxDrawdown: real)

  function Report(initial: real, final: real, drawdowns: seq<real>): Metrics
    requires drawdowns != []
  {
    Metrics(Round(final - initial), Round(Percentage(final - initial, initial)), Round(MaxOf(drawdowns)))
  }

  /**
   * The reported profit is final minus initial, and the reported percentage that of the initial capital, both
   * rounded.
   */
  lemma ReportMeans(initial: real, final: real, drawdowns: seq<real>)
    requires drawdowns != []
    ensures var m := Report(initial, final, drawdowns);
            && final - initial - 0.00005 <= m.pnlAbsolute <= final - initial + 0.00005
            && (initial == 0.0 ==> m.pnlPercentage == 0.0)
            && (initial != 0.0 ==> exists x :: x * initial / 100.0 == final - initial && m.pnlPercentage == Round(x))
            && exists d :: d in drawdowns && m.maxDrawdown == Round(d)
                           && forall other :: other in drawdowns ==> other <= d
  {
    RoundNear(final - initial);
    PercentageMeans(final - initial, initial);
    RoundWhole(0);
    var d := MaxOf(drawdowns);
    assert d in drawdowns;
  }

  /** The metric step of repair_run, for a curve with at least one point. */
  method CurveMetrics(points: seq<Option<Point>>, initial: real) returns (m: Metrics)
    requires Equities(points, initial) != []
    ensures var e := Equities(points, initial); m == Report(initial, Last(initial, e), Drawdowns(initial, e))
  {
    var normalized := NormalizeEquity(points, initial);
    NormalizedParts(normalized, initial, Equities(points, initial));
    m := Report(initial, normalized[|normalized| - 1].equity, Map(DrawdownOf, normalized));
  }

  function DrawdownOf(n: Normalized): real { n.drawdown }

  lemma NormalizedParts(normalized: seq<Normalized>, initial: real, e: seq<real>)
    requires Normalizes(normalized, initial, e) && e != []
    ensures normalized != [] && normalized[|normalized| - 1].equity == Last(initial, e)
    ensures Map(DrawdownOf, normalized) == Drawdowns(initial, e)
  {}
}
