/** What holds of every backtest: no look-ahead, cash accounting, solvency, trades one after another. */
module BacktestProofs {
  import opened Common
  import opened Aggregation
  import opened Backtest

  // ---- one bar ----

  /** Position, cash and trades stay as they are. */
  predicate Stays<S>(s: Sim<S>, s': Sim<S>) {
    s'.position == s.position && s'.cash == s.cash && s'.trades == s.trades
  }

  /** A position opens at the bar: the shares BuyQty gives, at the close with slippage. */
  predicate Opens<S>(cfg: Config, s: Sim<S>, s': Sim<S>, bar: Candle, i: nat)
    requires cfg.Priced() && bar.close > 0.0
  {
    && s.position == None && s'.position.Some? && s'.trades == s.trades
    && s'.position.value.entryIdx == i && s'.position.value.entryAt == bar.at
    && s'.position.value.qty == BuyQty(cfg, s.cash, bar.close) > 0
    && s'.position.value.entryPrice == cfg.BuyPrice(bar.close)
    && s'.cash == s.cash - s'.position.value.Cost()
  }

  /** The position is left: one more trade. */
  predicate Closes<S>(s: Sim<S>, s': Sim<S>, bar: Candle) {
    && s.position.Some? && s'.position == None
    && |s'.trades| == |s.trades| + 1 && s.trades <= s'.trades
    && s'.trades[|s.trades|].exitAt == bar.at && s'.trades[|s.trades|].qty == s.position.value.qty
  }

  /** What a bar does: nothing before the sixtieth bar and where the strategy raises; then a buy verdict opens
      a position if there is none, the close is positive and a share can be bought, and a sell verdict closes
      the one there is. Its equity point is the cash and what the position is worth at the close. The
      strategy's memory is kept even where it raises. */
  lemma BarExactly<I, S>(cfg: Config, st: Strategy<I, S>, eval: S, bars: seq<Candle>, n: nat)
    requires cfg.Priced() && n < |bars|
    ensures var s, s' := Run(cfg, st, eval, bars[..n]), Run(cfg, st, eval, bars[..n + 1]);
            var bar, seen := bars[n], bars[..n + 1];
            && |s'.equity| == n + 1
            && (s.position == None ==> s'.equity[n] == s.cash)
            && (s.position.Some? ==> s'.equity[n] == s.cash + bar.close * s.position.value.qty as real)
            && s'.eval == (if n + 1 < 60 then s.eval else st.Signal(seen, st.Calc(seen), s.position, s.eval).1)
            && if n + 1 < 60 then Stays(s, s')
               else
                 var v := st.Signal(seen, st.Calc(seen), s.position, s.eval).0;
                 if v == Raised then Stays(s, s')
                 else if s.position == None then
                   if v.buy && bar.close > 0.0 && BuyQty(cfg, s.cash, bar.close) > 0 then Opens(cfg, s, s', bar, n)
                   else Stays(s, s')
                 else if v.sell then Closes(s, s', bar) else Stays(s, s')
  {
    assert bars[..n + 1][..n] == bars[..n];
  }

  /** The rates: slippage raises the buying and lowers the selling price, commission and tax come off what a
      sale brings. */
  lemma RatesExactly(cfg: Config, x: real)
    ensures cfg.BuyPrice(x) == x * (1.0 + cfg.slippageRate) && cfg.SellPrice(x) == x * (1.0 - cfg.slippageRate)
    ensures cfg.Commission(x) == x * cfg.commissionRate && cfg.Tax(x) == x * cfg.taxRate
    ensures cfg.Net(x) == x * (1.0 - cfg.commissionRate - cfg.taxRate) && cfg.Invest(x) == x * cfg.maxPct
  {
  }

  /** Rounding gives the nearest whole number, of two equally near ones the even one. */
  lemma RoundExactly(x: real) returns (n: int)
    ensures Round(x) == n as real && -0.5 <= n as real - x <= 0.5
    ensures n as real - x == 0.5 || n as real - x == -0.5 ==> n % 2 == 0
  {
    n := if Round(x) == x.Floor as real then x.Floor else x.Floor + 1;
  }

  /** A position still open at the end is reported as a trade at the last close, without costs. */
  lemma ForcedTrade<S>(s: Sim<S>, bars: seq<Candle>)
    requires Ordinary(s.position) && bars != []
    ensures s.position == None ==> Report(s, bars) == s.trades
    ensures s.position.Some? ==>
              |Report(s, bars)| == |s.trades| + 1 && s.trades <= Report(s, bars) &&
              var h, t, close := s.position.value, Report(s, bars)[|s.trades|], bars[|bars| - 1].close;
              && t.entryAt == h.entryAt && t.entryPrice == h.entryPrice && t.qty == h.qty
              && t.exitAt == bars[|bars| - 1].at && t.exitPrice == close && t.holdBars == |bars| - 1 - h.entryIdx
              && -0.5 <= t.pnl - (close - h.entryPrice) * h.qty as real <= 0.5
              && t.commission == t.tax == t.slippage == 0.0
  {
    if s.position.Some? {
      var h, close := s.position.value, bars[|bars| - 1].close;
      var _ := RoundExactly(Times(close, h.qty) - Times(h.entryPrice, h.qty));
    }
  }

  // ---- no look-ahead ----

  /** One bar adds one equity point, and at most one trade, closed at that bar. */
  lemma BarGrows<I, S>(cfg: Config, st: Strategy<I, S>, s: Sim<S>, seen: seq<Candle>)
    requires cfg.Priced() && Ordinary(s.position) && seen != []
    ensures var s' := OnBar(cfg, st, s, seen);
            && s'.equity == s.equity + [Equity(s, seen[|seen| - 1].close)]
            && (s'.trades == s.trades ||
                (s.position.Some? &&
                 s'.trades == s.trades + [Closed(cfg, s.position.value, seen[|seen| - 1], |seen| - 1)]))
  {
  }

  /** The number of trades closed within the first `k` bars. */
  function ClosedBy<I, S>(cfg: Config, st: Strategy<I, S>, eval: S, bars: seq<Candle>, k: nat): nat
    requires cfg.Priced() && k <= |bars|
  {
    |Run(cfg, st, eval, bars[..k]).trades|
  }

  /** Simulating a prefix gives the full simulation's first equity points, and its first trades. */
  lemma {:induction false} NoLookAhead<I, S>(cfg: Config, st: Strategy<I, S>, eval: S, bars: seq<Candle>, k: nat)
    requires cfg.Priced() && k <= |bars|
    ensures Run(cfg, st, eval, bars[..k]).equity == Run(cfg, st, eval, bars).equity[..k]
    ensures Run(cfg, st, eval, bars[..k]).trades <= Run(cfg, st, eval, bars).trades
    decreases |bars|
  {
    if k == |bars| {
      assert bars[..k] == bars;
    } else {
      var init := bars[..|bars| - 1];
      NoLookAhead(cfg, st, eval, init, k);
      assert init[..k] == bars[..k];
      BarGrows(cfg, st, Run(cfg, st, eval, init), bars);
    }
  }

  /** The remaining trades of the full simulation are exactly those closed at later bars. */
  lemma {:induction false} LaterTrades<I, S>(
      cfg: Config, st: Strategy<I, S>, eval: S, bars: seq<Candle>, k: nat, m: nat) returns (j: nat)
    requires cfg.Priced() && k <= |bars|
    requires ClosedBy(cfg, st, eval, bars, k) <= m < |Run(cfg, st, eval, bars).trades|
    ensures k <= j < |bars| && Run(cfg, st, eval, bars).trades[m].exitAt == bars[j].at
    ensures ClosedBy(cfg, st, eval, bars, j) == m && ClosedBy(cfg, st, eval, bars, j + 1) == m + 1
    decreases |bars|
  {
    assert bars[..|bars|] == bars;
    assert k < |bars|;
    var init := bars[..|bars| - 1];
    assert init[..k] == bars[..k];
    BarGrows(cfg, st, Run(cfg, st, eval, init), bars);
    if m < |Run(cfg, st, eval, init).trades| {
      j := LaterTrades(cfg, st, eval, init, k, m);
      assert init[..j] == bars[..j] && init[..j + 1] == bars[..j + 1];
    } else {
      j := |bars| - 1;
    }
  }

  /** Bars to come cannot change what has been reported: runs that share `k` bars share it. */
  lemma FutureIrrelevant<I, S>(
      cfg: Config, st: Strategy<I, S>, eval: S, bars: seq<Candle>, other: seq<Candle>, k: nat)
    requires cfg.Priced() && k <= |bars| && k <= |other| && bars[..k] == other[..k]
    ensures Run(cfg, st, eval, bars).equity[..k] == Run(cfg, st, eval, other).equity[..k]
    ensures var n := ClosedBy(cfg, st, eval, bars, k);
            n <= |Run(cfg, st, eval, bars).trades| && n <= |Run(cfg, st, eval, other).trades| &&
            Run(cfg, st, eval, bars).trades[..n] == Run(cfg, st, eval, other).trades[..n]
  {
    NoLookAhead(cfg, st, eval, bars, k);
    NoLookAhead(cfg, st, eval, other, k);
  }

  // ---- accounting ----

  /** The profit of a closed trade before rounding, from the unrounded fields of the trade. */
  function ExactPnl(cfg: Config, t: Trade): real {
    cfg.Net(Times(t.exitPrice, t.qty)) - Times(t.entryPrice, t.qty) - cfg.Commission(Times(t.entryPrice, t.qty))
  }

  function ExactTotal(cfg: Config, ts: seq<Trade>): real {
    if ts == [] then 0.0 else ExactTotal(cfg, ts[..|ts| - 1]) + ExactPnl(cfg, ts[|ts| - 1])
  }

  function RoundedTotal(ts: seq<Trade>): real {
    if ts == [] then 0.0 else RoundedTotal(ts[..|ts| - 1]) + ts[|ts| - 1].pnl
  }

  /** What the open position has cost. */
  function TiedUp(position: Option<Holding>): real {
    if position.Some? then position.value.Cost() else 0.0
  }

  /** The books balance, and the open position's commission is that of its entry. */
  predicate Balanced<S>(cfg: Config, s: Sim<S>) {
    && s.cash == cfg.initialCash + ExactTotal(cfg, s.trades) - TiedUp(s.position)
    && (s.position.Some? ==>
          s.position.value.commissionBuy == cfg.Commission(Times(s.position.value.entryPrice, s.position.value.qty)))
  }

  lemma ExactAppend(cfg: Config, ts: seq<Trade>, t: Trade)
    ensures ExactTotal(cfg, ts + [t]) == ExactTotal(cfg, ts) + ExactPnl(cfg, t)
  {
    assert (ts + [t])[..|ts|] == ts;
  }

  lemma ActBalanced<S>(cfg: Config, s: Sim<S>, v: Verdict, bar: Candle, i: nat)
    requires cfg.Priced() && Ordinary(s.position) && Balanced(cfg, s)
    ensures Balanced(cfg, Act(cfg, s, v, bar, i))
  {
    if s.position.Some? {
      ExactAppend(cfg, s.trades, Closed(cfg, s.position.value, bar, i));
    }
  }

  /** In every state of every run, cash is the initial cash plus the exact profit of the closed trades
      minus what the open position cost. */
  lemma {:induction false} CashIdentity<I, S>(cfg: Config, st: Strategy<I, S>, eval: S, bars: seq<Candle>)
    requires cfg.Priced()
    ensures Balanced(cfg, Run(cfg, st, eval, bars))
  {
    if bars != [] {
      var s := Run(cfg, st, eval, bars[..|bars| - 1]);
      CashIdentity(cfg, st, eval, bars[..|bars| - 1]);
      BarBalanced(cfg, st, s, bars);
    }
  }

  lemma BarBalanced<I, S>(cfg: Config, st: Strategy<I, S>, s: Sim<S>, seen: seq<Candle>)
    requires cfg.Priced() && Ordinary(s.position) && seen != [] && Balanced(cfg, s)
    ensures Balanced(cfg, OnBar(cfg, st, s, seen))
  {
    var i, bar := |seen| - 1, seen[|seen| - 1];
    var s1 := s.(equity := s.equity + [Equity(s, bar.close)]);
    var ind := Indicators(st, seen);
    if ind.Some? {
      var (v, eval) := st.Signal(seen, ind.value, s.position, s.eval);
      ActBalanced(cfg, s1.(eval := eval), v, bar, i);
    }
  }

  lemma RoundError(x: real)
    ensures x - 0.5 <= Round(x) <= x + 0.5
  {
  }

  /** Every closed trade reports its exact profit, rounded. */
  predicate PnlsRounded(cfg: Config, ts: seq<Trade>) {
    forall t :: t in ts ==> t.pnl == Round(ExactPnl(cfg, t))
  }

  lemma {:induction false} ReportedPnls<I, S>(cfg: Config, st: Strategy<I, S>, eval: S, bars: seq<Candle>)
    requires cfg.Priced()
    ensures PnlsRounded(cfg, Run(cfg, st, eval, bars).trades)
  {
    if bars != [] {
      var init := bars[..|bars| - 1];
      ReportedPnls(cfg, st, eval, init);
      CashIdentity(cfg, st, eval, init);
      BarGrows(cfg, st, Run(cfg, st, eval, init), bars);
    }
  }

  /** Profit, commission and tax of a trade account for its price difference, up to their rounding. */
  predicate AddsUp(t: Trade) {
    var difference := Times(t.exitPrice, t.qty) - Times(t.entryPrice, t.qty);
    difference - 1.5 <= t.pnl + t.commission + t.tax <= difference + 1.5
  }

  lemma ClosedAddsUp(cfg: Config, h: Holding, bar: Candle, i: nat)
    requires h.entryPrice != 0.0
    ensures AddsUp(Closed(cfg, h, bar, i))
  {
    var gross := Times(cfg.SellPrice(bar.close), h.qty);
    RoundError(cfg.Net(gross) - Times(h.entryPrice, h.qty) - h.commissionBuy);
    RoundError(h.commissionBuy + cfg.Commission(gross));
    RoundError(cfg.Tax(gross));
  }

  lemma {:induction false} ReportedCosts<I, S>(cfg: Config, st: Strategy<I, S>, eval: S, bars: seq<Candle>)
    requires cfg.Priced()
    ensures forall t :: t in Run(cfg, st, eval, bars).trades ==> AddsUp(t)
  {
    if bars != [] {
      var s, bar := Run(cfg, st, eval, bars[..|bars| - 1]), bars[|bars| - 1];
      ReportedCosts(cfg, st, eval, bars[..|bars| - 1]);
      BarGrows(cfg, st, s, bars);
      if s.position.Some? { ClosedAddsUp(cfg, s.position.value, bar, |bars| - 1); }
    }
  }

  lemma {:induction false} RoundingError(cfg: Config, ts: seq<Trade>)
    requires PnlsRounded(cfg, ts)
    ensures -0.5 * |ts| as real <= RoundedTotal(ts) - ExactTotal(cfg, ts) <= 0.5 * |ts| as real
  {
    if ts != [] {
      var t := ts[|ts| - 1];
      RoundingError(cfg, ts[..|ts| - 1]);
      assert t in ts;
      RoundError(ExactPnl(cfg, t));
    }
  }

  /** Without an open position, cash differs from initial cash plus reported profits by at most half a
      unit per trade. */
  lemma CashMatchesReport<I, S>(cfg: Config, st: Strategy<I, S>, eval: S, bars: seq<Candle>)
    requires cfg.Priced() && Run(cfg, st, eval, bars).position == None
    ensures var s := Run(cfg, st, eval, bars);
            -0.5 * |s.trades| as real <= cfg.initialCash + RoundedTotal(s.trades) - s.cash <= 0.5 * |s.trades| as real
  {
    CashIdentity(cfg, st, eval, bars);
    ReportedPnls(cfg, st, eval, bars);
    RoundingError(cfg, Run(cfg, st, eval, bars).trades);
  }

  // ---- solvency ----

  /** Rates under which a buy cannot cost more than the cash and a sale cannot cost money. */
  predicate Sane(cfg: Config) {
    && cfg.initialCash >= 0.0
    && 0.0 <= cfg.commissionRate && cfg.maxPct * (1.0 + cfg.commissionRate) <= 1.0
    && cfg.commissionRate + cfg.taxRate <= 1.0
    && -1.0 < cfg.slippageRate <= 1.0
  }

  predicate NonNegativeCloses(bars: seq<Candle>) {
    forall b :: b in bars ==> b.close >= 0.0
  }

  predicate Solvent<S>(s: Sim<S>) {
    s.cash >= 0.0 && (s.position.Some? ==> s.position.value.qty > 0)
  }

  lemma Product(x: real, y: real)
    requires x >= 0.0 && y >= 0.0
    ensures x * y >= 0.0
  {
  }

  lemma ProductMonotone(x: real, y: real, z: real)
    requires x <= y && z >= 0.0
    ensures x * z <= y * z
  {
    Product(y - x, z);
  }

  /** The shares bought cost at most the share of cash meant for them. */
  lemma BuyWithin(cfg: Config, cash: real, price: real)
    requires Sane(cfg) && price > 0.0 && BuyQty(cfg, cash, price) > 0
    ensures 0.0 <= Times(cfg.BuyPrice(price), BuyQty(cfg, cash, price)) <= cfg.Invest(cash)
  {
    var p, invest, qty := cfg.BuyPrice(price), cfg.Invest(cash), BuyQty(cfg, cash, price);
    assert p > 0.0 by {
      Product(1.0 + cfg.slippageRate, price);
      Affordable(cfg, price);
      assert p == price * (1.0 + cfg.slippageRate);
    }
    assert qty as real <= invest / p;
    ProductMonotone(qty as real, invest / p, p);
    assert invest / p * p == invest;
    Product(p, qty as real);
  }

  /** One share more would cost more than that. */
  lemma BuyMaximal(cfg: Config, cash: real, price: real)
    requires -1.0 < cfg.slippageRate && price > 0.0 && cfg.Invest(cash) >= 0.0
    ensures Times(cfg.BuyPrice(price), BuyQty(cfg, cash, price) + 1) > cfg.Invest(cash)
  {
    var p, invest, qty := cfg.BuyPrice(price), cfg.Invest(cash), BuyQty(cfg, cash, price);
    assert p > 0.0 by {
      Product(1.0 + cfg.slippageRate, price);
      Affordable(cfg, price);
      assert p == price * (1.0 + cfg.slippageRate);
    }
    assert invest / p >= 0.0;
    assert qty as real + 1.0 > invest / p;
    ProductStrict(invest / p, qty as real + 1.0, p);
    assert invest / p * p == invest;
    assert Times(p, qty + 1) == (qty as real + 1.0) * p;
  }

  lemma BuySolvent(cfg: Config, cash: real, cost: real)
    requires Sane(cfg) && cash >= 0.0 && 0.0 <= cost <= cfg.Invest(cash)
    ensures cost + cfg.Commission(cost) <= cash
  {
    var rate := 1.0 + cfg.commissionRate;
    ProductMonotone(cost, cfg.Invest(cash), rate);
    ProductMonotone(cfg.maxPct * rate, 1.0, cash);
    assert cost + cfg.Commission(cost) == cost * rate;
    assert cfg.Invest(cash) * rate == cfg.maxPct * rate * cash;
  }

  lemma SaleSolvent(cfg: Config, price: real, qty: int)
    requires Sane(cfg) && price >= 0.0 && qty >= 0
    ensures cfg.Net(Times(cfg.SellPrice(price), qty)) >= 0.0
  {
    Product(price, 1.0 - cfg.slippageRate);
    assert cfg.SellPrice(price) == price * (1.0 - cfg.slippageRate);
    var gross := Times(cfg.SellPrice(price), qty);
    Product(cfg.SellPrice(price), qty as real);
    Product(gross, 1.0 - cfg.commissionRate - cfg.taxRate);
    assert cfg.Net(gross) == gross * (1.0 - cfg.commissionRate - cfg.taxRate);
  }

  lemma ActSolvent<S>(cfg: Config, s: Sim<S>, v: Verdict, bar: Candle, i: nat)
    requires Sane(cfg) && Ordinary(s.position) && Solvent(s) && bar.close >= 0.0
    ensures Solvent(Act(cfg, s, v, bar, i))
  {
    if s.position.Some? {
      SaleSolvent(cfg, bar.close, s.position.value.qty);
    } else if bar.close > 0.0 && BuyQty(cfg, s.cash, bar.close) > 0 {
      BuyWithin(cfg, s.cash, bar.close);
      BuySolvent(cfg, s.cash, Times(cfg.BuyPrice(bar.close), BuyQty(cfg, s.cash, bar.close)));
    }
  }

  lemma PriceFor(cfg: Config, invest: real) returns (price: real)
    requires -1.0 < cfg.slippageRate && invest > 0.0
    ensures price > 0.0 && cfg.BuyPrice(price) == invest
  {
    var slip := 1.0 + cfg.slippageRate;
    price := invest / slip;
    assert price > 0.0 && price * slip == invest;
  }

  lemma CostsMore(cfg: Config, cash: real)
    requires cash > 0.0 && 0.0 <= cfg.commissionRate && cfg.maxPct * (1.0 + cfg.commissionRate) > 1.0
    ensures var invest := cfg.Invest(cash); invest > 0.0 && invest + cfg.Commission(invest) > cash
  {
    var rate, invest := 1.0 + cfg.commissionRate, cfg.Invest(cash);
    if cfg.maxPct <= 0.0 {
      ProductMonotone(cfg.maxPct, 0.0, rate);
      assert false;
    }
    assert invest > 0.0;
    assert invest + cfg.Commission(invest) == cfg.maxPct * rate * cash;
    ProductStrict(1.0, cfg.maxPct * rate, cash);
  }

  lemma ProductStrict(x: real, y: real, z: real)
    requires x < y && z > 0.0
    ensures x * z < y * z
  {
  }

  lemma OneShare(cfg: Config, cash: real, price: real)
    requires cfg.Priced() && price > 0.0 && cfg.BuyPrice(price) == cfg.Invest(cash)
    ensures BuyQty(cfg, cash, price) == 1
  {
    Affordable(cfg, price);
    SharesOne(cfg.BuyPrice(price));
  }

  lemma SharesOne(x: real)
    requires x != 0.0
    ensures Shares(x, x) == 1
  {
    assert x / x == 1.0;
  }

  /** The bound on the invested share is the exact one: above it, some price makes a buy overdraw any cash. */
  lemma Overdraws<S>(cfg: Config, s: Sim<S>, i: nat) returns (bar: Candle)
    requires s.position == None && s.cash > 0.0 && 0.0 <= cfg.commissionRate && -1.0 < cfg.slippageRate
    requires cfg.maxPct * (1.0 + cfg.commissionRate) > 1.0
    ensures bar.close > 0.0 && Act(cfg, s, Signals(true, false), bar, i).cash < 0.0
  {
    CostsMore(cfg, s.cash);
    var price := PriceFor(cfg, cfg.Invest(s.cash));
    bar := Candle(0, price, price, price, price, 0);
    OneShare(cfg, s.cash, price);
    assert Times(cfg.BuyPrice(price), 1) == cfg.BuyPrice(price);
  }

  lemma EquityNonNegative<S>(s: Sim<S>, price: real)
    requires Solvent(s) && price >= 0.0
    ensures Equity(s, price) >= 0.0
  {
    if s.position.Some? {
      Product(price, s.position.value.qty as real);
    }
  }

  lemma BarSolvent<I, S>(cfg: Config, st: Strategy<I, S>, s: Sim<S>, seen: seq<Candle>)
    requires Sane(cfg) && Ordinary(s.position) && seen != [] && Solvent(s) && seen[|seen| - 1].close >= 0.0
    ensures Solvent(OnBar(cfg, st, s, seen))
  {
    var i, bar := |seen| - 1, seen[|seen| - 1];
    var s1 := s.(equity := s.equity + [Equity(s, bar.close)]);
    var ind := Indicators(st, seen);
    if ind.Some? {
      var (v, eval) := st.Signal(seen, ind.value, s.position, s.eval);
      ActSolvent(cfg, s1.(eval := eval), v, bar, i);
    }
  }

  /** Cash never goes below zero, nor does any point of the equity curve. */
  lemma {:induction false} RunSolvent<I, S>(cfg: Config, st: Strategy<I, S>, eval: S, bars: seq<Candle>)
    requires Sane(cfg) && NonNegativeCloses(bars)
    ensures var s := Run(cfg, st, eval, bars); Solvent(s) && forall e :: e in s.equity ==> e >= 0.0
  {
    if bars != [] {
      var s, last := Run(cfg, st, eval, bars[..|bars| - 1]), bars[|bars| - 1];
      RunSolvent(cfg, st, eval, bars[..|bars| - 1]);
      assert last in bars;
      BarSolvent(cfg, st, s, bars);
      BarGrows(cfg, st, s, bars);
      EquityNonNegative(s, last.close);
    }
  }

  // ---- one trade after another ----

  predicate Increasing(bars: seq<Candle>) {
    forall i, j :: 0 <= i < j < |bars| ==> bars[i].at < bars[j].at
  }

  /** A trade entered at one bar and left at a later one, at prices with slippage. */
  predicate Traded(cfg: Config, bars: seq<Candle>, t: Trade, i: nat, j: nat) {
    && i < j < |bars|
    && t.entryAt == bars[i].at && t.entryPrice == cfg.BuyPrice(bars[i].close)
    && t.exitAt == bars[j].at && t.exitPrice == cfg.SellPrice(bars[j].close)
    && t.holdBars == j - i
  }

  predicate Held(cfg: Config, bars: seq<Candle>, h: Holding) {
    h.entryIdx < |bars| && h.entryAt == bars[h.entryIdx].at && h.entryPrice == cfg.BuyPrice(bars[h.entryIdx].close)
  }

  predicate Apart(ts: seq<Trade>) {
    forall m, n :: 0 <= m < n < |ts| ==> ts[m].exitAt < ts[n].entryAt
  }

  ghost predicate Sequential<S>(cfg: Config, bars: seq<Candle>, s: Sim<S>) {
    && Apart(s.trades)
    && (forall t :: t in s.trades ==> exists i: nat, j: nat :: Traded(cfg, bars, t, i, j))
    && (s.position.Some? ==>
          Held(cfg, bars, s.position.value) && forall t :: t in s.trades ==> t.exitAt < s.position.value.entryAt)
  }

  lemma SequentialMore<S>(cfg: Config, bars: seq<Candle>, bar: Candle, s: Sim<S>)
    requires Sequential(cfg, bars, s) && Increasing(bars + [bar])
    ensures Sequential(cfg, bars + [bar], s)
    ensures forall t :: t in s.trades ==> t.exitAt < bar.at
    ensures s.position.Some? ==> s.position.value.entryAt < bar.at
  {
    var all := bars + [bar];
    assert all[|bars|] == bar;
    forall t | t in s.trades
      ensures (exists i: nat, j: nat :: Traded(cfg, all, t, i, j)) && t.exitAt < bar.at
    {
      var i: nat, j: nat :| Traded(cfg, bars, t, i, j);
      assert all[i] == bars[i] && all[j] == bars[j];
      assert Traded(cfg, all, t, i, j);
    }
    if s.position.Some? {
      var i := s.position.value.entryIdx;
      assert all[i] == bars[i];
    }
  }

  lemma ActSequential<S>(cfg: Config, s: Sim<S>, v: Verdict, bars: seq<Candle>, bar: Candle)
    requires cfg.Priced() && Ordinary(s.position)
    requires Sequential(cfg, bars, s) && Increasing(bars + [bar])
    ensures Sequential(cfg, bars + [bar], Act(cfg, s, v, bar, |bars|))
  {
    SequentialMore(cfg, bars, bar, s);
    var all, i := bars + [bar], |bars|;
    assert all[i] == bar;
    if s.position.Some? {
      var h := s.position.value;
      assert Traded(cfg, all, Closed(cfg, h, bar, i), h.entryIdx, i);
    }
  }

  /** Trades never overlap: each is left before the next is entered, and held for at least one bar. */
  lemma {:induction false} TradesApart<I, S>(cfg: Config, st: Strategy<I, S>, eval: S, bars: seq<Candle>)
    requires cfg.Priced() && Increasing(bars)
    ensures Sequential(cfg, bars, Run(cfg, st, eval, bars))
  {
    if bars != [] {
      var init, bar := bars[..|bars| - 1], bars[|bars| - 1];
      TradesApart(cfg, st, eval, init);
      assert bars == init + [bar];
      BarSequential(cfg, st, Run(cfg, st, eval, init), init, bar);
    }
  }

  lemma BarSequential<I, S>(cfg: Config, st: Strategy<I, S>, s: Sim<S>, bars: seq<Candle>, bar: Candle)
    requires cfg.Priced() && Ordinary(s.position) && Sequential(cfg, bars, s) && Increasing(bars + [bar])
    ensures Sequential(cfg, bars + [bar], OnBar(cfg, st, s, bars + [bar]))
  {
    var seen := bars + [bar];
    var s1 := s.(equity := s.equity + [Equity(s, bar.close)]);
    var ind := Indicators(st, seen);
    if ind == None {
      SequentialMore(cfg, bars, bar, s1);
    } else {
      var (v, eval) := st.Signal(seen, ind.value, s.position, s.eval);
      ActSequential(cfg, s1.(eval := eval), v, bars, bar);
    }
  }
}
