/** The backtest's maximum drawdown: one pass with a running peak, against all pairs of points. */
module Drawdown {
  import opened Common
  import opened Aggregation
  import opened Backtest
  import opened BacktestProofs

  /** The percentage lost from point `i` to point `j`. */
  function Loss(high: real, low: real): real
    requires high != 0.0
  {
    (high - low) / high * 100.0
  }

  predicate NonNegativeCurve(eq: seq<real>) {
    forall e :: e in eq ==> e >= 0.0
  }

  /** The largest loss between a positive point and one at or after it. */
  ghost predicate IsMaxDrawdown(eq: seq<real>, mdd: real) {
    && (forall i, j :: 0 <= i <= j < |eq| && eq[i] > 0.0 ==> Loss(eq[i], eq[j]) <= mdd)
    && (exists i, j :: 0 <= i <= j < |eq| && eq[i] > 0.0 && Loss(eq[i], eq[j]) == mdd)
  }

  lemma LossByShare(high: real, low: real)
    requires high > 0.0
    ensures Loss(high, low) == (1.0 - low / high) * 100.0
  {
    var kept := low / high;
    assert kept * high == low;
    Quotient(high - low, high, 1.0 - kept);
  }

  lemma Quotient(x: real, y: real, z: real)
    requires y != 0.0 && z * y == x
    ensures x / y == z
  {
  }

  lemma SignOf(x: real, y: real)
    requires y > 0.0 && x * y >= 0.0
    ensures x >= 0.0
  {
  }

  lemma Quotients(x: real, y: real, z: real)
    requires 0.0 <= x && 0.0 < y <= z
    ensures x / z <= x / y
  {
    var a, b := x / z, x / y;
    assert a * z == x && b * y == x && a >= 0.0;
    ProductMonotone(y, z, a);
    SignOf(b - a, y);
  }

  lemma LossRises(low: real, high: real, higher: real)
    requires 0.0 < high <= higher && 0.0 <= low
    ensures Loss(high, low) <= Loss(higher, low)
  {
    LossByShare(high, low);
    LossByShare(higher, low);
    Quotients(low, high, higher);
  }

  lemma LossRange(high: real, low: real)
    requires 0.0 < high && 0.0 <= low
    ensures Loss(high, low) <= 100.0
    ensures low <= high ==> 0.0 <= Loss(high, low)
  {
    LossByShare(high, low);
    assert low / high >= 0.0;
    if low <= high {
      SignOf(1.0 - low / high, high);
    }
  }

  // ---- the pass ----

  /** The largest of the points up to `k`. */
  function Top(eq: seq<real>, k: nat): real
    requires k < |eq|
  {
    if k == 0 then eq[0] else Max(Top(eq, k - 1), eq[k])
  }

  lemma {:induction false} TopIsMax(eq: seq<real>, k: nat)
    requires k < |eq|
    ensures forall i :: 0 <= i <= k ==> eq[i] <= Top(eq, k)
    ensures exists i :: 0 <= i <= k && eq[i] == Top(eq, k)
  {
    if k == 0 {
      assert eq[0] == Top(eq, 0);
    } else {
      TopIsMax(eq, k - 1);
      var i :| 0 <= i <= k - 1 && eq[i] == Top(eq, k - 1);
      assert Top(eq, k) == if eq[k] > eq[i] then eq[k] else eq[i];
    }
  }

  /** The largest loss of the first n points against the peak before them; it starts at zero. */
  ghost predicate IsPeakDrawdown(eq: seq<real>, n: nat, mdd: real)
    requires n <= |eq|
  {
    && mdd >= 0.0
    && (forall k :: 0 <= k < n ==> Top(eq, k) != 0.0 && Loss(Top(eq, k), eq[k]) <= mdd)
    && (mdd > 0.0 ==> exists k :: 0 <= k < n && Top(eq, k) != 0.0 && Loss(Top(eq, k), eq[k]) == mdd)
  }

  /** None where the source divides by zero: when some running peak is zero. */
  method MaxDrawdown(eq: seq<real>) returns (r: Option<real>)
    ensures r == None <==> exists k :: 0 <= k < |eq| && Top(eq, k) == 0.0
    ensures r.Some? ==> IsPeakDrawdown(eq, |eq|, r.value)
  {
    var mdd := 0.0;
    if eq != [] {
      var peak := eq[0];
      for k := 0 to |eq|
        invariant peak == if k == 0 then eq[0] else Top(eq, k - 1)
        invariant IsPeakDrawdown(eq, k, mdd)
      {
        if eq[k] > peak {
          peak := eq[k];
        }
        assert peak == Top(eq, k);
        if peak == 0.0 {
          return None;
        }
        var dd := Loss(peak, eq[k]);
        if dd > mdd {
          mdd := dd;
        }
      }
    }
    return Some(mdd);
  }

  /** On a curve that starts positive and is never negative, it is the largest loss between any two points. */
  lemma PassIsMaximum(eq: seq<real>, mdd: real)
    requires NonNegativeCurve(eq) && eq != [] && eq[0] > 0.0 && IsPeakDrawdown(eq, |eq|, mdd)
    ensures IsMaxDrawdown(eq, mdd)
  {
    forall i, j | 0 <= i <= j < |eq| && eq[i] > 0.0
      ensures Loss(eq[i], eq[j]) <= mdd
    {
      TopIsMax(eq, j);
      assert eq[j] in eq;
      LossRises(eq[j], eq[i], Top(eq, j));
    }
    if mdd > 0.0 {
      var k :| 0 <= k < |eq| && Top(eq, k) != 0.0 && Loss(Top(eq, k), eq[k]) == mdd;
      TopIsMax(eq, k);
      var i :| 0 <= i <= k && eq[i] == Top(eq, k);
      assert eq[0] <= Top(eq, k);
    } else {
      LossRange(eq[0], eq[0]);
      LossByShare(eq[0], eq[0]);
    }
  }

  /** The pass never fails on a curve that starts positive. */
  lemma PeakPositive(eq: seq<real>)
    requires eq != [] && eq[0] > 0.0
    ensures forall k :: 0 <= k < |eq| ==> Top(eq, k) > 0.0
  {
    forall k | 0 <= k < |eq|
      ensures Top(eq, k) > 0.0
    {
      TopIsMax(eq, k);
    }
  }

  /** With a negative point it can be less than the largest loss: from 1 to -1 is a loss of 200 percent, from
      the peak 2 to -1 only one of 150. */
  lemma NegativePoint()
    ensures IsPeakDrawdown([1.0, 2.0, -1.0], 3, 150.0) && !IsMaxDrawdown([1.0, 2.0, -1.0], 150.0)
  {
    var eq := [1.0, 2.0, -1.0];
    assert Top(eq, 0) == 1.0 && Top(eq, 1) == 2.0 && Top(eq, 2) == 2.0;
    assert Loss(1.0, 1.0) == 0.0 && Loss(2.0, 2.0) == 0.0 && Loss(2.0, -1.0) == 150.0;
    assert eq[0] > 0.0 && Loss(eq[0], eq[2]) == 200.0;
  }

  lemma DrawdownRange(eq: seq<real>, mdd: real)
    requires NonNegativeCurve(eq) && IsMaxDrawdown(eq, mdd)
    ensures 0.0 <= mdd <= 100.0
  {
    var i, j :| 0 <= i <= j < |eq| && eq[i] > 0.0 && Loss(eq[i], eq[j]) == mdd;
    assert eq[j] in eq;
    LossRange(eq[i], eq[j]);
    LossRange(eq[i], eq[i]);
  }

  /** The maximum is unique, so the two ways of finding it give the same number. */
  lemma DrawdownUnique(eq: seq<real>, mdd: real, other: real)
    requires IsMaxDrawdown(eq, mdd) && IsMaxDrawdown(eq, other)
    ensures mdd == other
  {
  }

  /** A solvent backtest's equity curve is one the drawdown loop can handle: its first point is the initial
      cash, and no point is negative. */
  lemma CurveSuitable<I, S>(cfg: Config, st: Strategy<I, S>, eval: S, bars: seq<Candle>)
    requires Sane(cfg) && NonNegativeCloses(bars) && cfg.initialCash > 0.0
    ensures var eq := Run(cfg, st, eval, bars).equity;
            NonNegativeCurve(eq) && (eq != [] ==> eq[0] == cfg.initialCash > 0.0)
  {
    RunSolvent(cfg, st, eval, bars);
    if bars != [] {
      NoLookAhead(cfg, st, eval, bars, 1);
      BarGrows(cfg, st, Start(cfg, eval), bars[..1]);
      assert bars[..1][..0] == [];
    }
  }
}
