/** The backtest's bar loop over exact numbers, with the strategy as an arbitrary function of what it sees. */
module Backtest {
  import opened Common
  import opened Aggregation

  datatype Config = Config(
    initialCash: real, commissionRate: real, taxRate: real, slippageRate: real, maxPct: real)
  {
    /** Prices are never bought at zero: the loop would divide by zero. */
    predicate Priced() {
      slippageRate != -1.0
    }

    function Invest(cash: real): real {
      cash * maxPct
    }

    function Slippage(price: real): real {
      price * slippageRate
    }

    function BuyPrice(price: real): real {
      price + Slippage(price)
    }

    function SellPrice(price: real): real {
      price - Slippage(price)
    }

    function Commission(amount: real): real {
      amount * commissionRate
    }

    function Tax(amount: real): real {
      amount * taxRate
    }

    function Net(gross: real): real {
      gross - Commission(gross) - Tax(gross)
    }
  }

  function Times(price: real, qty: int): real {
    price * qty as real
  }

  datatype Holding = Holding(
    entryPrice: real, qty: int, entryIdx: nat, entryAt: int, commissionBuy: real, slippageBuy: real)
  {
    function Cost(): real {
      Times(entryPrice, qty) + commissionBuy
    }
  }

  /** Money fields from `pnl` on are rounded. */
  datatype Trade = Trade(
    entryAt: int, entryPrice: real, exitAt: int, exitPrice: real, qty: int, pnl: real, pnlPct: real,
    commission: real, tax: real, slippage: real, holdBars: int)

  /** What evaluating the strategy gives; it may raise. */
  datatype Verdict = Signals(buy: bool, sell: bool) | Raised

  /** `Calc` computes the indicators of the bars so far; `Signal` sees those bars, the indicators, the
      position and the evaluator's own state, which it may change. */
  datatype Strategy<!I, !S> = Strategy(
    Calc: seq<Candle> -> I,
    Signal: (seq<Candle>, I, Option<Holding>, S) -> (Verdict, S))

  datatype Sim<S> = Sim(
    cash: real, position: Option<Holding>, trades: seq<Trade>, equity: seq<real>, eval: S)

  const LOOKBACK := 60

  /** Rounding to the nearest integer, a tie to the even one. */
  function Round(x: real): real {
    var f := x.Floor;
    var d := x - f as real;
    if d < 0.5 || (d == 0.5 && f % 2 == 0) then f as real else f as real + 1.0
  }

  function Round2(x: real): real {
    Round(x * 100.0) / 100.0
  }

  function Equity<S>(s: Sim<S>, price: real): real {
    if s.position.Some? then s.cash + Times(price, s.position.value.qty) else s.cash
  }

  /** The shares bought for the share of cash to be invested; a buy of no shares does not happen. */
  function BuyQty(cfg: Config, cash: real, price: real): int
    requires cfg.Priced() && price > 0.0
  {
    Affordable(cfg, price);
    Shares(cfg.Invest(cash), cfg.BuyPrice(price))
  }

  function Shares(invest: real, price: real): int
    requires price != 0.0
  {
    Truncate(invest / price)
  }

  lemma Affordable(cfg: Config, price: real)
    requires cfg.Priced() && price > 0.0
    ensures cfg.BuyPrice(price) != 0.0
  {
    assert cfg.BuyPrice(price) == price * (1.0 + cfg.slippageRate);
  }

  function Buy<S>(cfg: Config, s: Sim<S>, bar: Candle, i: nat): (s': Sim<S>)
    requires cfg.Priced() && bar.close > 0.0 && Ordinary(s.position)
    ensures Ordinary(s'.position)
  {
    Affordable(cfg, bar.close);
    var buyPrice, qty := cfg.BuyPrice(bar.close), BuyQty(cfg, s.cash, bar.close);
    if qty <= 0 then s
    else
      var commission := cfg.Commission(Times(buyPrice, qty));
      s.(cash := s.cash - (Times(buyPrice, qty) + commission),
         position := Some(Holding(buyPrice, qty, i, bar.at, commission,
                                  Times(cfg.Slippage(bar.close), qty))))
  }

  predicate Ordinary(s: Option<Holding>) {
    s.Some? ==> s.value.entryPrice != 0.0
  }

  function Closed(cfg: Config, h: Holding, bar: Candle, i: nat): Trade
    requires h.entryPrice != 0.0
  {
    var exitPrice := cfg.SellPrice(bar.close);
    var gross := Times(exitPrice, h.qty);
    Trade(h.entryAt, h.entryPrice, bar.at, exitPrice, h.qty,
          Round(cfg.Net(gross) - Times(h.entryPrice, h.qty) - h.commissionBuy),
          Round2((exitPrice / h.entryPrice - 1.0) * 100.0),
          Round(h.commissionBuy + cfg.Commission(gross)), Round(cfg.Tax(gross)),
          Round(h.slippageBuy + Times(cfg.Slippage(bar.close), h.qty)), i - h.entryIdx)
  }

  function Sell<S>(cfg: Config, s: Sim<S>, bar: Candle, i: nat): Sim<S>
    requires s.position.Some? && Ordinary(s.position)
  {
    var h := s.position.value;
    s.(cash := s.cash + cfg.Net(Times(cfg.SellPrice(bar.close), h.qty)), position := None,
       trades := s.trades + [Closed(cfg, h, bar, i)])
  }

  function Indicators<I, S>(st: Strategy<I, S>, seen: seq<Candle>): Option<I> {
    if |seen| < LOOKBACK then None else Some(st.Calc(seen))
  }

  /** What a verdict does to the account. */
  function Act<S>(cfg: Config, s: Sim<S>, v: Verdict, bar: Candle, i: nat): (s': Sim<S>)
    requires cfg.Priced() && Ordinary(s.position)
    ensures Ordinary(s'.position)
  {
    if v == Raised then s
    else if v.buy && s.position == None && bar.close > 0.0 then Buy(cfg, s, bar, i)
    else if v.sell && s.position.Some? then Sell(cfg, s, bar, i)
    else s
  }

  /** One bar, the last of those seen. */
  function OnBar<I, S>(cfg: Config, st: Strategy<I, S>, s: Sim<S>, seen: seq<Candle>): (s': Sim<S>)
    requires cfg.Priced() && Ordinary(s.position) && seen != []
    ensures Ordinary(s'.position)
  {
    var i, bar := |seen| - 1, seen[|seen| - 1];
    var s1 := s.(equity := s.equity + [Equity(s, bar.close)]);
    var ind := Indicators(st, seen);
    if ind == None then s1
    else
      var (v, eval) := st.Signal(seen, ind.value, s.position, s.eval);
      Act(cfg, s1.(eval := eval), v, bar, i)
  }

  function Start<S>(cfg: Config, eval: S): Sim<S> {
    Sim(cfg.initialCash, None, [], [], eval)
  }

  function Run<I, S>(cfg: Config, st: Strategy<I, S>, eval: S, bars: seq<Candle>): (s: Sim<S>)
    requires cfg.Priced()
    ensures Ordinary(s.position) && |s.equity| == |bars|
  {
    if bars == [] then Start(cfg, eval) else OnBar(cfg, st, Run(cfg, st, eval, bars[..|bars| - 1]), bars)
  }

  /** A position still open at the end is reported as a trade at the last close; no cash moves. */
  function Report<S>(s: Sim<S>, bars: seq<Candle>): seq<Trade>
    requires Ordinary(s.position)
  {
    if s.position == None || bars == [] then s.trades
    else
      var h, last := s.position.value, bars[|bars| - 1];
      s.trades +
      [Trade(h.entryAt, h.entryPrice, last.at, last.close, h.qty,
             Round(Times(last.close, h.qty) - Times(h.entryPrice, h.qty)),
             Round2((last.close / h.entryPrice - 1.0) * 100.0), 0.0, 0.0, 0.0, |bars| - 1 - h.entryIdx)]
  }

  // ---- the loops ----

  method PrecomputeIndicators<I, S>(st: Strategy<I, S>, bars: seq<Candle>) returns (results: seq<Option<I>>)
    ensures |results| == |bars| && forall i :: 0 <= i < |bars| ==> results[i] == Indicators(st, bars[..i + 1])
  {
    results := [];
    for i := 0 to |bars|
      invariant |results| == i && forall j :: 0 <= j < i ==> results[j] == Indicators(st, bars[..j + 1])
    {
      if i < LOOKBACK - 1 {
        results := results + [None];
        continue;
      }
      results := results + [Some(st.Calc(bars[..i + 1]))];
    }
  }

  method Simulate<I, S>(cfg: Config, st: Strategy<I, S>, eval: S, bars: seq<Candle>, indicators: seq<Option<I>>)
      returns (equityCurve: seq<real>, report: seq<Trade>)
    requires cfg.Priced() && |indicators| == |bars|
    requires forall i :: 0 <= i < |bars| ==> indicators[i] == Indicators(st, bars[..i + 1])
    ensures equityCurve == Run(cfg, st, eval, bars).equity
    ensures report == Report(Run(cfg, st, eval, bars), bars)
  {
    var cash, position: Option<Holding>, trades: seq<Trade>, state := cfg.initialCash, None, [], eval;
    equityCurve := [];
    for i := 0 to |bars|
      invariant Sim(cash, position, trades, equityCurve, state) == Run(cfg, st, eval, bars[..i])
    {
      var bar := bars[i];
      ghost var before := Run(cfg, st, eval, bars[..i]);
      assert bars[..i + 1][..i] == bars[..i];
      assert Run(cfg, st, eval, bars[..i + 1]) == OnBar(cfg, st, before, bars[..i + 1]);
      equityCurve := equityCurve + [if position.Some? then cash + Times(bar.close, position.value.qty) else cash];
      if indicators[i] == None {
        continue;
      }
      var (verdict, next) := st.Signal(bars[..i + 1], indicators[i].value, position, state);
      state := next;
      if verdict == Raised {
        continue;
      }
      if verdict.buy && position == None && bar.close > 0.0 {
        var buyPrice := cfg.BuyPrice(bar.close);
        var qty := BuyQty(cfg, cash, bar.close);
        if qty > 0 {
          var commission := cfg.Commission(Times(buyPrice, qty));
          cash := cash - (Times(buyPrice, qty) + commission);
          position := Some(Holding(buyPrice, qty, i, bar.at, commission, Times(cfg.Slippage(bar.close), qty)));
        }
      } else if verdict.sell && position.Some? {
        var h := position.value;
        cash := cash + cfg.Net(Times(cfg.SellPrice(bar.close), h.qty));
        trades := trades + [Closed(cfg, h, bar, i)];
        position := None;
      }
    }
    assert bars[..|bars|] == bars;
    report := Report(Sim(cash, position, trades, equityCurve, state), bars);
  }
}
