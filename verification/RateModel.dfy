/** The contemplant's online estimate of proving time: five running sums per kind of proof,
    against the full list of samples they summarise.  Reals stand for doubles. */
module RateModel {
  import opened Network

  datatype Sample = Sample(cycles: nat, secs: real)

  datatype Fit = Fit(n: nat, sumX: real, sumY: real, sumXX: real, sumXY: real)
  {
    function Record(cycles: real, secs: real): Fit {
      Fit(n + 1, sumX + cycles, sumY + secs, sumXX + cycles * cycles, sumXY + cycles * secs)
    }

    function Denominator(): real {
      n as real * sumXX - sumX * sumX
    }

    // The full affine fit is used from two samples on, if their counts vary.
    predicate Affine() {
      n >= 2 && (Denominator() > EPSILON || -Denominator() > EPSILON)
    }

    function Slope(): real
      requires Affine()
    {
      (n as real * sumXY - sumX * sumY) / Denominator()
    }

    function Intercept(): real
      requires Affine()
    {
      (sumY - Slope() * sumX) / n as real
    }

    function Estimate(cycles: real): Option<real> {
      if n == 0 || cycles < 0.0 then None
      else if Affine() then Some(Clamp(LineAt(Intercept(), Slope(), cycles)))
      else if sumX <= 0.0 then None
      else Some(Clamp(Proportional(cycles)))
    }

    function Proportional(cycles: real): real
      requires sumX > 0.0
    {
      sumY / sumX * cycles
    }

  }

  const EPSILON: real := 0.000001
  const EMPTY := Fit(0, 0.0, 0.0, 0.0, 0.0)
  const U64_MAX: nat := 0xFFFF_FFFF_FFFF_FFFF

  function Clamp(x: real): real {
    if x < 0.0 then 0.0 else x
  }

  // Rounding half up and the saturating cast, for the non-negative estimates.
  function ToWholeSeconds(x: real): nat
    requires x >= 0.0
  {
    var r := (x + 0.5).Floor;
    if r > U64_MAX then U64_MAX else r
  }

  /** The sums after a history of samples. */
  function FitOf(samples: seq<Sample>): Fit {
    if samples == [] then EMPTY
    else
      var x := samples[|samples| - 1];
      FitOf(samples[..|samples| - 1]).Record(x.cycles as real, x.secs)
  }

  // ---------- the denominator ----------

  function X(s: Sample): real {
    s.cycles as real
  }

  function Square(x: real): real {
    x * x
  }

  lemma SquareSign(d: real)
    ensures Square(d) >= 0.0 && (Square(d) == 0.0 <==> d == 0.0)
  {
    if d > 0.0 {
      PositiveProduct(d, d, Square(d));
    } else if d < 0.0 {
      assert Square(d) == (-d) * (-d);
      PositiveProduct(-d, -d, Square(d));
    }
  }

  /** Sum of squared distances of all counts to `c`. */
  ghost function Spread(samples: seq<Sample>, c: real): real {
    if samples == [] then 0.0
    else Spread(samples[..|samples| - 1], c) + Square(X(samples[|samples| - 1]) - c)
  }

  /** The sum of squared differences over all pairs of counts. */
  ghost function PairSpread(samples: seq<Sample>): real {
    if samples == [] then 0.0
    else PairSpread(samples[..|samples| - 1]) + Spread(samples[..|samples| - 1], X(samples[|samples| - 1]))
  }

  ghost predicate CountsDiffer(samples: seq<Sample>) {
    exists i, j :: 0 <= i < j < |samples| && samples[i].cycles != samples[j].cycles
  }

  lemma {:induction false} SampleCount(samples: seq<Sample>)
    ensures FitOf(samples).n == |samples|
  {
    if samples != [] {
      SampleCount(samples[..|samples| - 1]);
    }
  }

  // The same spread, read off the sums.
  ghost function SpreadOf(f: Fit, c: real): real {
    f.sumXX - 2.0 * c * f.sumX + f.n as real * (c * c)
  }

  lemma SpreadStep(f: Fit, x: real, y: real, c: real)
    ensures SpreadOf(f.Record(x, y), c) == SpreadOf(f, c) + Square(x - c)
  {
    assert 2.0 * c * (f.sumX + x) == 2.0 * c * f.sumX + 2.0 * c * x;
    assert (f.n as real + 1.0) * (c * c) == f.n as real * (c * c) + c * c;
    assert (x - c) * (x - c) == x * x - 2.0 * c * x + c * c;
  }

  lemma {:induction false} SpreadInSums(samples: seq<Sample>, c: real)
    ensures Spread(samples, c) == SpreadOf(FitOf(samples), c)
  {
    if samples != [] {
      var init, s := samples[..|samples| - 1], samples[|samples| - 1];
      SpreadInSums(init, c);
      SpreadStep(FitOf(init), X(s), s.secs, c);
    }
  }

  lemma DenominatorStep(f: Fit, x: real, y: real)
    ensures f.Record(x, y).Denominator() == f.Denominator() + SpreadOf(f, x)
  {
    var n, sx, sxx := f.n as real, f.sumX, f.sumXX;
    assert (f.n + 1) as real == n + 1.0;
    assert (n + 1.0) * (sxx + x * x) == n * sxx + sxx + n * (x * x) + x * x;
    assert (sx + x) * (sx + x) == sx * sx + 2.0 * x * sx + x * x;
  }

  /** n times the sum of squares minus the square of the sum is the sum of squared pairwise
      differences of the counts. */
  lemma {:induction false} DenominatorIsPairSpread(samples: seq<Sample>)
    ensures FitOf(samples).Denominator() == PairSpread(samples)
  {
    if samples != [] {
      var init, s := samples[..|samples| - 1], samples[|samples| - 1];
      DenominatorIsPairSpread(init);
      SpreadInSums(init, X(s));
      DenominatorStep(FitOf(init), X(s), s.secs);
    }
  }

  // Different whole numbers are at least one apart.
  lemma CountGap(x: nat, c: nat)
    ensures x == c ==> Square(x as real - c as real) == 0.0
    ensures x != c ==> Square(x as real - c as real) >= 1.0
  {
    var d := x as real - c as real;
    if x > c {
      assert d >= 1.0 && d * d >= d;
    } else if x < c {
      assert -d >= 1.0 && (-d) * (-d) >= -d;
      assert (-d) * (-d) == d * d;
    }
  }

  lemma {:induction false} SpreadSteps(samples: seq<Sample>, c: nat)
    ensures (forall i :: 0 <= i < |samples| ==> samples[i].cycles == c) ==> Spread(samples, c as real) == 0.0
    ensures Spread(samples, c as real) >= 0.0
    ensures (exists i :: 0 <= i < |samples| && samples[i].cycles != c) ==> Spread(samples, c as real) >= 1.0
  {
    if samples != [] {
      var init, s := samples[..|samples| - 1], samples[|samples| - 1];
      SpreadSteps(init, c);
      CountGap(s.cycles, c);
      assert forall i :: 0 <= i < |init| ==> init[i] == samples[i];
      if i :| 0 <= i < |samples| && samples[i].cycles != c {
        assert i < |init| ==> init[i].cycles != c;
      }
    }
  }

  lemma {:induction false} PairSpreadSteps(samples: seq<Sample>)
    ensures if CountsDiffer(samples) then PairSpread(samples) >= 1.0 else PairSpread(samples) == 0.0
  {
    if samples != [] {
      var init, s := samples[..|samples| - 1], samples[|samples| - 1];
      PairSpreadSteps(init);
      SpreadSteps(init, s.cycles);
      assert forall i :: 0 <= i < |init| ==> init[i] == samples[i];
      if CountsDiffer(samples) {
        var i, j :| 0 <= i < j < |samples| && samples[i].cycles != samples[j].cycles;
        if j < |init| {
          assert init[i].cycles != init[j].cycles;
        } else {
          assert init[i].cycles != s.cycles;
        }
      } else {
        assert !CountsDiffer(init);
        assert forall i :: 0 <= i < |init| ==> init[i].cycles == s.cycles;
      }
    }
  }

  /** The numerical test for the affine branch is exact: the denominator is zero or at least
      one, and the branch is taken if and only if two recorded cycle counts differ. */
  lemma AffineIffCountsDiffer(samples: seq<Sample>)
    ensures FitOf(samples).Affine() <==> CountsDiffer(samples)
    ensures FitOf(samples).Denominator() == 0.0 || FitOf(samples).Denominator() >= 1.0
  {
    SampleCount(samples);
    DenominatorIsPairSpread(samples);
    PairSpreadSteps(samples);
  }

  // ---------- least squares ----------

  ghost function Residual(s: Sample, a: real, b: real): real {
    s.secs - LineAt(a, b, X(s))
  }

  ghost function Weighted(s: Sample, a: real, b: real): real {
    X(s) * Residual(s, a, b)
  }

  /** The sum of squared residuals of the line `a + b x` over the whole history. */
  ghost function SquaredError(samples: seq<Sample>, a: real, b: real): real {
    if samples == [] then 0.0
    else SquaredError(samples[..|samples| - 1], a, b) + Square(Residual(samples[|samples| - 1], a, b))
  }

  ghost function ResidualSum(samples: seq<Sample>, a: real, b: real): real {
    if samples == [] then 0.0
    else ResidualSum(samples[..|samples| - 1], a, b) + Residual(samples[|samples| - 1], a, b)
  }

  ghost function WeightedSum(samples: seq<Sample>, a: real, b: real): real {
    if samples == [] then 0.0
    else WeightedSum(samples[..|samples| - 1], a, b) + Weighted(samples[|samples| - 1], a, b)
  }

  ghost function Offset(s: Sample, da: real, db: real): real {
    da + db * X(s)
  }

  /** The squared distance between two lines that differ by `da` and `db`, over the counts. */
  ghost function Gap(samples: seq<Sample>, da: real, db: real): real {
    if samples == [] then 0.0
    else Gap(samples[..|samples| - 1], da, db) + Square(Offset(samples[|samples| - 1], da, db))
  }

  ghost function Tilt(da: real, db: real, r: real, w: real): real {
    2.0 * (da * r + db * w)
  }

  lemma TiltAdds(da: real, db: real, r: real, w: real, e: real, v: real)
    ensures Tilt(da, db, r + e, w + v) == Tilt(da, db, r, w) + Tilt(da, db, e, v)
  {
    assert da * (r + e) == da * r + da * e;
    assert db * (w + v) == db * w + db * v;
  }

  lemma ErrorStep(s: Sample, a: real, b: real, da: real, db: real)
    ensures Square(Residual(s, a + da, b + db))
         == Square(Residual(s, a, b)) + Square(Offset(s, da, db)) - Tilt(da, db, Residual(s, a, b), Weighted(s, a, b))
  {
    var e, d := Residual(s, a, b), Offset(s, da, db);
    assert (b + db) * X(s) == b * X(s) + db * X(s);
    assert Residual(s, a + da, b + db) == e - d;
    assert (e - d) * (e - d) == e * e + d * d - 2.0 * (e * d);
    assert e * d == da * e + db * (X(s) * e);
  }

  /** How the error of a line changes when the line is moved. */
  lemma {:induction false} ErrorOfMovedLine(samples: seq<Sample>, a: real, b: real, da: real, db: real)
    ensures SquaredError(samples, a + da, b + db)
         == SquaredError(samples, a, b) + Gap(samples, da, db)
            - Tilt(da, db, ResidualSum(samples, a, b), WeightedSum(samples, a, b))
  {
    if samples != [] {
      var init, s := samples[..|samples| - 1], samples[|samples| - 1];
      ErrorOfMovedLine(init, a, b, da, db);
      ErrorStep(s, a, b, da, db);
      TiltAdds(da, db, ResidualSum(init, a, b), WeightedSum(init, a, b), Residual(s, a, b), Weighted(s, a, b));
    }
  }

  // The two residual sums, read off the running sums.
  ghost function ResidualOf(f: Fit, a: real, b: real): real {
    f.sumY - a * f.n as real - b * f.sumX
  }

  ghost function WeightedOf(f: Fit, a: real, b: real): real {
    f.sumXY - a * f.sumX - b * f.sumXX
  }

  lemma ResidualStep(f: Fit, s: Sample, a: real, b: real)
    ensures ResidualOf(f.Record(X(s), s.secs), a, b) == ResidualOf(f, a, b) + Residual(s, a, b)
  {
    assert a * (f.n as real + 1.0) == a * f.n as real + a;
    assert b * (f.sumX + X(s)) == b * f.sumX + b * X(s);
  }

  lemma WeightedStep(f: Fit, s: Sample, a: real, b: real)
    ensures WeightedOf(f.Record(X(s), s.secs), a, b) == WeightedOf(f, a, b) + Weighted(s, a, b)
  {
    var x, y := X(s), s.secs;
    assert a * (f.sumX + x) == a * f.sumX + a * x;
    assert b * (f.sumXX + x * x) == b * f.sumXX + b * (x * x);
    assert x * (y - a - b * x) == x * y - a * x - b * (x * x);
  }

  lemma {:induction false} ResidualsInSums(samples: seq<Sample>, a: real, b: real)
    ensures ResidualSum(samples, a, b) == ResidualOf(FitOf(samples), a, b)
    ensures WeightedSum(samples, a, b) == WeightedOf(FitOf(samples), a, b)
  {
    if samples != [] {
      var init, s := samples[..|samples| - 1], samples[|samples| - 1];
      ResidualsInSums(init, a, b);
      ResidualStep(FitOf(init), s, a, b);
      WeightedStep(FitOf(init), s, a, b);
    }
  }

  lemma DivTimes(p: real, q: real)
    requires q != 0.0
    ensures p / q * q == p
  {
  }

  lemma ZeroFactor(d: real, z: real)
    requires d * z == 0.0 && z != 0.0
    ensures d == 0.0
  {
    assert d == d * z / z;
  }

  /** The fitted line satisfies the normal equations. */
  lemma NormalEquations(f: Fit)
    requires f.Affine()
    ensures ResidualOf(f, f.Intercept(), f.Slope()) == 0.0
    ensures WeightedOf(f, f.Intercept(), f.Slope()) == 0.0
  {
    LineSolves(f.n as real, f.sumX, f.sumY, f.sumXX, f.sumXY, f.Intercept(), f.Slope());
  }

  lemma LineSolves(n: real, sx: real, sy: real, sxx: real, sxy: real, a: real, b: real)
    requires n > 0.0 && n * sxx - sx * sx != 0.0
    requires b == (n * sxy - sx * sy) / (n * sxx - sx * sx) && a == (sy - b * sx) / n
    ensures sy - a * n - b * sx == 0.0
    ensures sxy - a * sx - b * sxx == 0.0
  {
    DivTimes(n * sxy - sx * sy, n * sxx - sx * sx);
    DivTimes(sy - b * sx, n);
    var r := sxy - a * sx - b * sxx;
    assert r * n == n * sxy - (a * n) * sx - b * (n * sxx);
    assert (sy - b * sx) * sx == sx * sy - b * (sx * sx);
    assert b * (n * sxx - sx * sx) == b * (n * sxx) - b * (sx * sx);
    ZeroFactor(r, n);
  }

  lemma {:induction false} GapZero(samples: seq<Sample>, da: real, db: real)
    ensures Gap(samples, da, db) >= 0.0
    ensures Gap(samples, da, db) == 0.0 ==> forall i :: 0 <= i < |samples| ==> Offset(samples[i], da, db) == 0.0
  {
    if samples != [] {
      var init, s := samples[..|samples| - 1], samples[|samples| - 1];
      GapZero(init, da, db);
      SquareSign(Offset(s, da, db));
      assert forall i :: 0 <= i < |init| ==> init[i] == samples[i];
    }
  }

  lemma GapPositive(samples: seq<Sample>, da: real, db: real)
    requires CountsDiffer(samples) && (da != 0.0 || db != 0.0)
    ensures Gap(samples, da, db) > 0.0
  {
    GapZero(samples, da, db);
    if Gap(samples, da, db) == 0.0 {
      var i, j :| 0 <= i < j < |samples| && samples[i].cycles != samples[j].cycles;
      OnlyZeroVanishesTwice(samples[i], samples[j], da, db);
    }
  }

  // Only the zero line vanishes at two different counts.
  lemma OnlyZeroVanishesTwice(s: Sample, t: Sample, da: real, db: real)
    requires s.cycles != t.cycles && Offset(s, da, db) == 0.0 && Offset(t, da, db) == 0.0
    ensures da == 0.0 && db == 0.0
  {
    TwoZeros(da, db, X(s), X(t));
  }

  lemma TwoZeros(da: real, db: real, x: real, y: real)
    requires da + db * x == 0.0 && da + db * y == 0.0 && x != y
    ensures da == 0.0 && db == 0.0
  {
    assert db * (x - y) == db * x - db * y;
    ZeroFactor(db, x - y);
  }

  /** Least squares: for every history with two different counts, the line read off the five
      sums has the smallest squared error of all lines, and is the only one that does. */
  lemma FitMinimisesError(samples: seq<Sample>, a: real, b: real)
    requires CountsDiffer(samples)
    ensures var f := FitOf(samples);
            && f.Affine()
            && SquaredError(samples, f.Intercept(), f.Slope()) <= SquaredError(samples, a, b)
            && (SquaredError(samples, f.Intercept(), f.Slope()) == SquaredError(samples, a, b)
                ==> a == f.Intercept() && b == f.Slope())
  {
    AffineIffCountsDiffer(samples);
    var f := FitOf(samples);
    MovingAwayCosts(samples, f.Intercept(), f.Slope(), a, b);
  }

  lemma MovingAwayCosts(samples: seq<Sample>, a0: real, b0: real, a: real, b: real)
    requires CountsDiffer(samples) && FitOf(samples).Affine()
    requires a0 == FitOf(samples).Intercept() && b0 == FitOf(samples).Slope()
    ensures SquaredError(samples, a0, b0) <= SquaredError(samples, a, b)
    ensures SquaredError(samples, a0, b0) == SquaredError(samples, a, b) ==> a == a0 && b == b0
  {
    var da, db := a - a0, b - b0;
    NormalEquations(FitOf(samples));
    ResidualsInSums(samples, a0, b0);
    ErrorOfMovedLine(samples, a0, b0, da, db);
    assert a0 + da == a && b0 + db == b;
    assert Tilt(da, db, 0.0, 0.0) == 0.0;
    GapZero(samples, da, db);
    if da != 0.0 || db != 0.0 {
      GapPositive(samples, da, db);
    }
  }

  /** No line has a smaller squared error. */
  ghost predicate IsLeastSquares(samples: seq<Sample>, a: real, b: real) {
    forall c, d :: SquaredError(samples, a, b) <= SquaredError(samples, c, d)
  }

  /** There is exactly one line of least squares, and the estimate for any number of cycles is
      its value there, cut off at zero. */
  lemma EstimateIsLeastSquares(samples: seq<Sample>, cycles: nat)
    requires CountsDiffer(samples)
    ensures exists a, b :: IsLeastSquares(samples, a, b)
    ensures forall a, b :: IsLeastSquares(samples, a, b) ==>
              var line := LineAt(a, b, cycles as real);
              FitOf(samples).Estimate(cycles as real) == Some(if line < 0.0 then 0.0 else line)
  {
    AffineIffCountsDiffer(samples);
    var a0, b0 := FitOf(samples).Intercept(), FitOf(samples).Slope();
    forall c, d ensures SquaredError(samples, a0, b0) <= SquaredError(samples, c, d) {
      MovingAwayCosts(samples, a0, b0, c, d);
    }
    assert IsLeastSquares(samples, a0, b0);
    AffineEstimate(FitOf(samples), a0, b0, cycles as real);
    forall a, b | IsLeastSquares(samples, a, b) ensures a == a0 && b == b0 {
      MovingAwayCosts(samples, a0, b0, a, b);
    }
  }

  lemma {:induction false} ErrorSign(samples: seq<Sample>, a: real, b: real)
    ensures SquaredError(samples, a, b) >= 0.0
    ensures (forall i :: 0 <= i < |samples| ==> Residual(samples[i], a, b) == 0.0) ==> SquaredError(samples, a, b) == 0.0
  {
    if samples != [] {
      var init := samples[..|samples| - 1];
      ErrorSign(init, a, b);
      assert forall i :: 0 <= i < |init| ==> init[i] == samples[i];
      SquareSign(Residual(samples[|samples| - 1], a, b));
    }
  }

  lemma ExactLine(samples: seq<Sample>, fixed: real, rate: real)
    requires CountsDiffer(samples)
    requires forall i :: 0 <= i < |samples| ==> Residual(samples[i], fixed, rate) == 0.0
    ensures FitOf(samples).Affine() && FitOf(samples).Intercept() == fixed && FitOf(samples).Slope() == rate
  {
    FitMinimisesError(samples, fixed, rate);
    ErrorSign(samples, fixed, rate);
    ErrorSign(samples, FitOf(samples).Intercept(), FitOf(samples).Slope());
  }

  /** A fixed cost plus a rate per cycle is recovered exactly. */
  lemma RecoversAffineData(samples: seq<Sample>, fixed: real, rate: real, cycles: nat)
    requires CountsDiffer(samples)
    requires forall i :: 0 <= i < |samples| ==> samples[i].secs == fixed + rate * X(samples[i])
    ensures var line := fixed + rate * cycles as real;
            FitOf(samples).Estimate(cycles as real) == Some(if line < 0.0 then 0.0 else line)
  {
    forall i | 0 <= i < |samples| ensures Residual(samples[i], fixed, rate) == 0.0 {
    }
    ExactLine(samples, fixed, rate);
    AffineEstimate(FitOf(samples), fixed, rate, cycles as real);
  }

  function LineAt(a: real, b: real, x: real): real {
    a + b * x
  }

  lemma AffineEstimate(f: Fit, a: real, b: real, q: real)
    requires f.Affine() && f.Intercept() == a && f.Slope() == b && q >= 0.0
    ensures f.Estimate(q) == Some(Clamp(LineAt(a, b, q)))
  {
  }

  // ---------- the order of samples ----------

  lemma RecordCommutes(f: Fit, x: Sample, y: Sample)
    ensures f.Record(X(x), x.secs).Record(X(y), y.secs) == f.Record(X(y), y.secs).Record(X(x), x.secs)
  {
  }

  lemma {:induction false} FitWithout(samples: seq<Sample>, i: nat)
    requires i < |samples|
    ensures FitOf(samples) == FitOf(samples[..i] + samples[i + 1..]).Record(X(samples[i]), samples[i].secs)
  {
    var last := |samples| - 1;
    if i == last {
      assert samples[..i] + samples[i + 1..] == samples[..last];
    } else {
      var init := samples[..last];
      FitWithout(init, i);
      var rest := samples[..i] + samples[i + 1..];
      assert rest[..|rest| - 1] == init[..i] + init[i + 1..];
      assert rest[|rest| - 1] == samples[last];
      RecordCommutes(FitOf(init[..i] + init[i + 1..]), samples[i], samples[last]);
    }
  }

  lemma CancelOne<T>(a: multiset<T>, b: multiset<T>, x: T)
    requires a + multiset{x} == b + multiset{x}
    ensures a == b
  {
    forall y ensures a[y] == b[y] {
      assert (a + multiset{x})[y] == (b + multiset{x})[y];
    }
  }

  /** The estimate does not depend on the order in which the samples arrived. */
  lemma {:induction false} OrderDoesNotMatter(samples: seq<Sample>, others: seq<Sample>)
    requires multiset(samples) == multiset(others)
    ensures FitOf(samples) == FitOf(others)
  {
    if samples == [] {
      assert |multiset(others)| == 0;
    } else {
      var last := |samples| - 1;
      var x := samples[last];
      assert samples == samples[..last] + [x];
      assert x in multiset(others);
      var i :| 0 <= i < |others| && others[i] == x;
      var rest := others[..i] + others[i + 1..];
      assert others == others[..i] + [x] + others[i + 1..];
      assert multiset(others) == multiset(rest) + multiset{x};
      assert multiset(samples) == multiset(samples[..last]) + multiset{x};
      CancelOne(multiset(samples[..last]), multiset(rest), x);
      OrderDoesNotMatter(samples[..last], rest);
      FitWithout(others, i);
    }
  }

  // ---------- the fallback ----------

  lemma {:induction false} SumsOfEqualCounts(samples: seq<Sample>, c: nat)
    requires forall i :: 0 <= i < |samples| ==> samples[i].cycles == c
    ensures FitOf(samples).sumX == FitOf(samples).n as real * c as real
  {
    if samples != [] {
      var init := samples[..|samples| - 1];
      SumsOfEqualCounts(init, c);
      assert (FitOf(init).n as real + 1.0) * c as real == FitOf(init).n as real * c as real + c as real;
    }
  }

  function MeanSecs(f: Fit): real
    requires f.n > 0
  {
    f.sumY / f.n as real
  }

  // A fit of samples that all have the count `c`.
  lemma ProportionalEstimate(f: Fit, c: real, q: real)
    requires f.n > 0 && !f.Affine() && c >= 0.0 && f.sumX == f.n as real * c && q >= 0.0
    ensures f.Estimate(q).None? <==> c == 0.0
  {
    if c > 0.0 {
      PositiveProduct(f.n as real, c, f.sumX);
    }
  }

  ghost predicate EstimatesMeanAt(f: Fit, c: real) {
    f.n > 0 && f.Estimate(c) == Some(Clamp(MeanSecs(f)))
  }

  ghost predicate AllAt(f: Fit, c: real) {
    f.n > 0 && !f.Affine() && f.sumX == f.n as real * c
  }

  lemma MeanEstimate(f: Fit, c: real)
    requires AllAt(f, c) && c > 0.0
    ensures EstimatesMeanAt(f, c)
  {
    PositiveProduct(f.n as real, c, f.sumX);
    MeanTimes(f.sumY, f.n as real, c, f.sumX);
    assert f.Proportional(c) == MeanSecs(f);
  }

  lemma EqualCounts(samples: seq<Sample>, c: nat)
    requires !CountsDiffer(samples) && samples != [] && samples[0].cycles == c
    ensures forall i :: 0 <= i < |samples| ==> samples[i].cycles == c
    ensures FitOf(samples).n == |samples| && AllAt(FitOf(samples), c as real)
  {
    AffineIffCountsDiffer(samples);
    SampleCount(samples);
    assert forall i :: 0 <= i < |samples| ==> samples[i].cycles == c;
    SumsOfEqualCounts(samples, c);
  }

  /** With no two different counts the estimate is missing exactly when there are no samples
      or all counts are zero. */
  lemma NoEstimateIff(samples: seq<Sample>, cycles: nat)
    requires !CountsDiffer(samples)
    ensures FitOf(samples).Estimate(cycles as real).None?
       <==> forall i :: 0 <= i < |samples| ==> samples[i].cycles == 0
  {
    if samples != [] {
      var c := samples[0].cycles;
      EqualCounts(samples, c);
      ProportionalEstimate(FitOf(samples), c as real, cycles as real);
    }
  }

  /** And at the common count it is the mean of the recorded times. */
  lemma MeanAtCommonCount(samples: seq<Sample>)
    requires !CountsDiffer(samples) && samples != [] && samples[0].cycles > 0
    ensures FitOf(samples).n == |samples| && EstimatesMeanAt(FitOf(samples), samples[0].cycles as real)
  {
    var c := samples[0].cycles;
    EqualCounts(samples, c);
    assert c as real > 0.0;
    MeanEstimate(FitOf(samples), c as real);
  }

  ghost function TotalSecs(samples: seq<Sample>): real {
    if samples == [] then 0.0 else TotalSecs(samples[..|samples| - 1]) + samples[|samples| - 1].secs
  }

  ghost function MeanOf(samples: seq<Sample>): real
    requires samples != []
  {
    TotalSecs(samples) / |samples| as real
  }

  lemma {:induction false} SumOfTimes(samples: seq<Sample>)
    ensures FitOf(samples).sumY == TotalSecs(samples)
  {
    if samples != [] {
      SumOfTimes(samples[..|samples| - 1]);
    }
  }

  // The proportional guess from sums over samples of one count, multiplied out.
  lemma ProportionalGuess(y: real, n: real, c: real, s: real, q: real)
    requires n > 0.0 && c > 0.0 && s > 0.0 && s == n * c && q >= 0.0
    ensures y / s * q * c == q * (y / n)
    ensures y >= 0.0 ==> y / s * q >= 0.0
    ensures y <= 0.0 ==> y / s * q <= 0.0
  {
    MeanTimes(y, n, c, s);
    assert y / s * q * c == y / s * c * q;
    QuotientSign(y, s);
    ProductSign(y / s, q);
  }

  lemma QuotientSign(y: real, s: real)
    requires s > 0.0
    ensures (y >= 0.0 ==> y / s >= 0.0) && (y <= 0.0 ==> y / s <= 0.0) && (y < 0.0 ==> y / s < 0.0)
  {
  }

  lemma ProductSign(r: real, q: real)
    requires q >= 0.0
    ensures (r >= 0.0 ==> r * q >= 0.0) && (r <= 0.0 ==> r * q <= 0.0)
  {
  }

  // The estimate `e` for `q` cycles is to the mean as `q` is to `c`, and never negative.
  ghost predicate InProportion(e: real, c: real, q: real, mean: real) {
    if mean >= 0.0 then e * c == q * mean else e == 0.0
  }

  lemma FitInProportion(f: Fit, c: real, q: real)
    requires AllAt(f, c) && c > 0.0 && q >= 0.0
    ensures f.Estimate(q).Some? && InProportion(f.Estimate(q).value, c, q, f.sumY / f.n as real)
  {
    PositiveProduct(f.n as real, c, f.sumX);
    ProportionalGuess(f.sumY, f.n as real, c, f.sumX, q);
    QuotientSign(f.sumY, f.n as real);
  }

  /** From one common count the estimate is in proportion: for any number of cycles it is to the
      mean of the recorded times as that number is to the common count. */
  lemma ProportionalToCycles(samples: seq<Sample>, q: nat)
    requires !CountsDiffer(samples) && samples != [] && samples[0].cycles > 0
    ensures var e := FitOf(samples).Estimate(q as real);
            e.Some? && InProportion(e.value, samples[0].cycles as real, q as real, MeanOf(samples))
  {
    var c := samples[0].cycles;
    EqualCounts(samples, c);
    assert c as real > 0.0;
    SumOfTimes(samples);
    FitInProportion(FitOf(samples), c as real, q as real);
  }

  lemma PositiveProduct(n: real, c: real, p: real)
    requires n > 0.0 && c > 0.0 && p == n * c
    ensures p > 0.0
  {
  }

  lemma MeanTimes(y: real, n: real, c: real, s: real)
    requires n > 0.0 && c > 0.0 && s > 0.0 && s == n * c
    ensures y / s * c == y / n
  {
    var q := y / s;
    DivTimes(y, s);
    assert q * c * n == y;
    DivTimes(y, n);
    assert (q * c - y / n) * n == q * c * n - y / n * n;
    ZeroFactor(q * c - y / n, n);
  }

  // ---------- the keyed model ----------

  datatype Key = Key(vm: VmKind, mode: string)

  class KeyedModel {
    var fits: map<Key, Fit>
    ghost var history: map<Key, seq<Sample>>

    /** Each fit summarises exactly the samples recorded under its key. */
    ghost predicate Valid()
      reads this
    {
      && fits.Keys == history.Keys
      && forall k :: k in fits ==> fits[k] == FitOf(history[k]) && history[k] != []
    }

    ghost function Samples(k: Key): seq<Sample>
      reads this
    {
      if k in history then history[k] else []
    }

    constructor ()
      ensures Valid() && forall k :: Samples(k) == []
    {
      fits, history := map[], map[];
    }

    method Record(vm: VmKind, mode: string, cycles: nat, secs: real)
      requires Valid()
      modifies this
      ensures Valid()
      ensures forall k :: Samples(k) == old(Samples(k)) + (if k == Key(vm, mode) then [Sample(cycles, secs)] else [])
    {
      var k := Key(vm, mode);
      var fit := if k in fits then fits[k] else EMPTY;
      ghost var before := Samples(k);
      fits := fits[k := fit.Record(cycles as real, secs)];
      history := history[k := before + [Sample(cycles, secs)]];
      assert (before + [Sample(cycles, secs)])[..|before|] == before;
    }

    method EstimateSecs(vm: VmKind, mode: string, cycles: nat) returns (secs: Option<nat>)
      requires Valid()
      ensures var e := FitOf(Samples(Key(vm, mode))).Estimate(cycles as real);
              && (secs.Some? <==> e.Some?)
              && (secs.Some? ==>
                    if e.value <= 18446744073709551615.0
                    then secs.value as real - 0.5 <= e.value < secs.value as real + 0.5
                    else secs.value == 18446744073709551615)
    {
      var k := Key(vm, mode);
      if k !in fits {
        return None;
      }
      var e := fits[k].Estimate(cycles as real);
      return if e.Some? then Some(ToWholeSeconds(e.value)) else None;
    }

    method HasHistory(vm: VmKind, mode: string) returns (known: bool)
      requires Valid()
      ensures known <==> Samples(Key(vm, mode)) != []
    {
      var k := Key(vm, mode);
      if k in fits {
        SampleCount(history[k]);
      }
      return k in fits && fits[k].n > 0;
    }
  }
}
