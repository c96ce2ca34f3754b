/** Minute bars from ticks: bars built in memory and saved when complete, and a table updated per tick. */
module Bars {
  import opened Common

  datatype Tick = Tick(symbol: string, price: real, volume: int, at: int)

  datatype Bar = Bar(open: real, high: real, low: real, close: real, volume: int)

  datatype Stamped = Stamped(minute: int, bar: Bar)

  /** A table row; the columns are nullable. */
  datatype Row = Row(
    open: Option<int>, high: Option<int>, low: Option<int>, close: Option<int>, volume: Option<int>)

  function FloorMinute(at: int): int {
    at / MINUTE * MINUTE
  }

  function Min(x: real, y: real): real {
    if y < x then y else x
  }

  // ---- the streaming builder ----

  /** `store` is the table completed bars are saved to. */
  datatype Builder = Builder(
    current: map<string, Stamped>, completed: map<string, Stamped>, latest: map<string, Tick>,
    store: map<(string, int), Bar>)

  function NewBar(t: Tick): Stamped {
    Stamped(FloorMinute(t.at), Bar(t.price, t.price, t.price, t.price, t.volume))
  }

  function Extend(b: Bar, t: Tick): Bar {
    Bar(b.open, Max(b.high, t.price), Min(b.low, t.price), t.price, b.volume + t.volume)
  }

  /** One tick; `saved` says whether saving a bar works at that time. */
  function OnQuote(b: Builder, t: Tick, saved: bool): Builder {
    var b1 := b.(latest := b.latest[t.symbol := t]);
    if t.symbol !in b.current then b1.(current := b.current[t.symbol := NewBar(t)])
    else
      var c := b.current[t.symbol];
      if c.minute == FloorMinute(t.at) then b1.(current := b.current[t.symbol := c.(bar := Extend(c.bar, t))])
      else
        Builder(b.current[t.symbol := NewBar(t)], b.completed[t.symbol := c], b1.latest,
                if saved then b.store[(t.symbol, c.minute) := c.bar] else b.store)
  }

  const EMPTY := Builder(map[], map[], map[], map[])

  function Build(ts: seq<Tick>): Builder {
    if ts == [] then EMPTY else OnQuote(Build(ts[..|ts| - 1]), ts[|ts| - 1], true)
  }

  /** The bar of a minute: the one being built, otherwise the saved one. */
  function BarAt(b: Builder, symbol: string, minute: int): Option<Bar> {
    if symbol in b.current && b.current[symbol].minute == minute then Some(b.current[symbol].bar)
    else if (symbol, minute) in b.store then Some(b.store[(symbol, minute)]) else None
  }

  // ---- the table updated per tick ----

  function Raised(high: Option<int>, price: int): Option<int> {
    if high == None || price > high.value then Some(price) else high
  }

  function Lowered(low: Option<int>, price: int): Option<int> {
    if low == None || price < low.value then Some(price) else low
  }

  /** The row a tick leaves; prices are cut to integers. */
  function Touch(row: Option<Row>, t: Tick): Row {
    var price := Truncate(t.price);
    if row == None then Row(Some(price), Some(price), Some(price), Some(price), Some(t.volume))
    else
      var r := row.value;
      Row(r.open, Raised(r.high, price), Lowered(r.low, price), Some(price),
          Some(if r.volume.Some? then r.volume.value + t.volume else t.volume))
  }

  function RowAt(table: map<(string, int), Row>, symbol: string, minute: int): Option<Row> {
    if (symbol, minute) in table then Some(table[(symbol, minute)]) else None
  }

  function Upsert(table: map<(string, int), Row>, t: Tick): map<(string, int), Row> {
    var key := (t.symbol, FloorMinute(t.at));
    table[key := Touch(RowAt(table, t.symbol, FloorMinute(t.at)), t)]
  }

  function UpsertAll(ts: seq<Tick>): map<(string, int), Row> {
    if ts == [] then map[] else Upsert(UpsertAll(ts[..|ts| - 1]), ts[|ts| - 1])
  }

  // ---- what a bar means ----

  predicate In(t: Tick, symbol: string, minute: int) {
    t.symbol == symbol && FloorMinute(t.at) == minute
  }

  /** The ticks of one symbol in one minute. */
  function TicksOf(ts: seq<Tick>, symbol: string, minute: int): seq<Tick> {
    if ts == [] then []
    else
      var init, t := TicksOf(ts[..|ts| - 1], symbol, minute), ts[|ts| - 1];
      if In(t, symbol, minute) then init + [t] else init
  }

  /** The minute of the last tick of a symbol. */
  function Current(ts: seq<Tick>, symbol: string): Option<int> {
    if ts == [] then None
    else if ts[|ts| - 1].symbol == symbol then Some(FloorMinute(ts[|ts| - 1].at))
    else Current(ts[..|ts| - 1], symbol)
  }

  /** Of these ticks, those since the symbol last came to that minute from another. */
  function LastStay(ts: seq<Tick>, symbol: string, minute: int): seq<Tick> {
    if ts == [] then []
    else
      var init, t := ts[..|ts| - 1], ts[|ts| - 1];
      if !In(t, symbol, minute) then LastStay(init, symbol, minute)
      else if Current(init, symbol) == Some(minute) then LastStay(init, symbol, minute) + [t]
      else [t]
  }

  function TotalVolume(ts: seq<Tick>): int {
    if ts == [] then 0 else TotalVolume(ts[..|ts| - 1]) + ts[|ts| - 1].volume
  }

  /** The bar of some ticks: first and last price, extremes, total volume. */
  predicate Summarizes(b: Bar, ts: seq<Tick>) {
    && ts != []
    && b.open == ts[0].price
    && b.close == ts[|ts| - 1].price
    && b.volume == TotalVolume(ts)
    && (forall t :: t in ts ==> b.low <= t.price <= b.high)
    && (exists t :: t in ts && t.price == b.high)
    && (exists t :: t in ts && t.price == b.low)
  }

  /** A bar is there exactly if ticks are, and it is theirs. */
  predicate Reports(b: Option<Bar>, ts: seq<Tick>) {
    if ts == [] then b == None else b.Some? && Summarizes(b.value, ts)
  }

  lemma SummaryUnique(b: Bar, c: Bar, ts: seq<Tick>)
    requires Summarizes(b, ts) && Summarizes(c, ts)
    ensures b == c
  {
    var high :| high in ts && high.price == b.high;
    var low :| low in ts && low.price == b.low;
    var high' :| high' in ts && high'.price == c.high;
    var low' :| low' in ts && low'.price == c.low;
    assert c.high >= b.high >= high'.price;
    assert c.low <= b.low <= low'.price;
  }

  lemma VolumeAppend(ts: seq<Tick>, t: Tick)
    ensures TotalVolume(ts + [t]) == TotalVolume(ts) + t.volume
  {
    assert (ts + [t])[..|ts|] == ts;
  }

  lemma ExtendSummary(b: Bar, ts: seq<Tick>, t: Tick)
    requires Summarizes(b, ts)
    ensures Summarizes(Extend(b, t), ts + [t])
  {
    VolumeAppend(ts, t);
    var high :| high in ts && high.price == b.high;
    var low :| low in ts && low.price == b.low;
    assert t in ts + [t] && high in ts + [t] && low in ts + [t];
  }

  lemma NewSummary(t: Tick)
    ensures Summarizes(NewBar(t).bar, [t])
  {
    VolumeAppend([], t);
    assert [] + [t] == [t];
    assert t in [t];
  }

  /** A tick changes the bar of its own minute only, which it extends or starts afresh. */
  lemma OnQuoteBarAt(b: Builder, t: Tick, symbol: string, minute: int)
    ensures !In(t, symbol, minute) ==> BarAt(OnQuote(b, t, true), symbol, minute) == BarAt(b, symbol, minute)
    ensures In(t, symbol, minute) ==>
              BarAt(OnQuote(b, t, true), symbol, minute) ==
              Some(if symbol in b.current && b.current[symbol].minute == minute
                   then Extend(b.current[symbol].bar, t) else NewBar(t).bar)
  {
  }

  lemma {:induction false} CurrentMinute(ts: seq<Tick>, symbol: string)
    ensures symbol in Build(ts).current <==> Current(ts, symbol).Some?
    ensures Current(ts, symbol).Some? ==> Build(ts).current[symbol].minute == Current(ts, symbol).value
  {
    if ts != [] {
      CurrentMinute(ts[..|ts| - 1], symbol);
    }
  }

  /** In every run the bar kept for a minute summarizes exactly the ticks of the symbol's last stay in it. */
  lemma {:induction false} BuilderKeepsLastStay(ts: seq<Tick>, symbol: string, minute: int)
    ensures Reports(BarAt(Build(ts), symbol, minute), LastStay(ts, symbol, minute))
  {
    if ts != [] {
      var init, t := ts[..|ts| - 1], ts[|ts| - 1];
      BuilderKeepsLastStay(init, symbol, minute);
      OnQuoteBarAt(Build(init), t, symbol, minute);
      if In(t, symbol, minute) {
        CurrentMinute(init, symbol);
        NewSummary(t);
        if Current(init, symbol) == Some(minute) {
          StayNonempty(init, symbol);
          ExtendSummary(BarAt(Build(init), symbol, minute).value, LastStay(init, symbol, minute), t);
        }
      }
    }
  }

  lemma {:induction false} StayNonempty(ts: seq<Tick>, symbol: string)
    requires Current(ts, symbol).Some?
    ensures LastStay(ts, symbol, Current(ts, symbol).value) != []
  {
    if ts[|ts| - 1].symbol != symbol {
      StayNonempty(ts[..|ts| - 1], symbol);
    }
  }

  /** The minute of a tick is the whole minute it falls in. */
  lemma MinuteOfTick(at: int)
    ensures FloorMinute(at) <= at < FloorMinute(at) + 60_000_000 && FloorMinute(at) % 60_000_000 == 0
  {
  }

  /** The minute the symbol was in before its current one. */
  function Previous(ts: seq<Tick>, symbol: string): Option<int> {
    if ts == [] then None
    else
      var init, t := ts[..|ts| - 1], ts[|ts| - 1];
      var now := Current(init, symbol);
      if t.symbol == symbol && now.Some? && now.value != FloorMinute(t.at) then now else Previous(init, symbol)
  }

  lemma {:induction false} PreviousElsewhere(ts: seq<Tick>, symbol: string)
    ensures Previous(ts, symbol).Some? ==> Current(ts, symbol).Some? && Previous(ts, symbol) != Current(ts, symbol)
  {
    if ts != [] {
      PreviousElsewhere(ts[..|ts| - 1], symbol);
    }
  }

  /** The completed bar of a symbol is the one of its last stay in the minute before the current one, and the
      latest tick is its last. */
  lemma {:induction false} CompletedBar(ts: seq<Tick>, symbol: string)
    ensures symbol in Build(ts).completed <==> Previous(ts, symbol).Some?
    ensures Previous(ts, symbol).Some? ==>
              Build(ts).completed[symbol].minute == Previous(ts, symbol).value &&
              Summarizes(Build(ts).completed[symbol].bar, LastStay(ts, symbol, Previous(ts, symbol).value))
    decreases |ts|
  {
    if ts != [] {
      var init, t := ts[..|ts| - 1], ts[|ts| - 1];
      CompletedBar(init, symbol);
      CurrentMinute(init, symbol);
      PreviousElsewhere(init, symbol);
      if t.symbol == symbol && Current(init, symbol).Some? {
        BuilderKeepsLastStay(init, symbol, Current(init, symbol).value);
        StayNonempty(init, symbol);
      }
    }
  }

  lemma {:induction false} LatestTick(ts: seq<Tick>, i: nat)
    requires i < |ts| && forall j :: i < j < |ts| ==> ts[j].symbol != ts[i].symbol
    ensures ts[i].symbol in Build(ts).latest && Build(ts).latest[ts[i].symbol] == ts[i]
  {
    if i < |ts| - 1 {
      LatestTick(ts[..|ts| - 1], i);
    }
  }

  /** A bar that could not be saved is missing from the table; nothing else differs. */
  lemma UnsavedBar(b: Builder, t: Tick)
    ensures OnQuote(b, t, false) == OnQuote(b, t, true).(store := b.store)
    ensures OnQuote(b, t, true).store != b.store ==>
              t.symbol in b.current && b.current[t.symbol].minute != FloorMinute(t.at) &&
              OnQuote(b, t, true).store == b.store[(t.symbol, b.current[t.symbol].minute) := b.current[t.symbol].bar]
  {
  }

  // ---- the table ----

  /** A bar as a row: prices cut to integers. */
  function Cut(b: Option<Bar>): Option<Row> {
    if b == None then None
    else
      Some(Row(Some(Truncate(b.value.open)), Some(Truncate(b.value.high)), Some(Truncate(b.value.low)),
               Some(Truncate(b.value.close)), Some(b.value.volume)))
  }

  lemma TruncateMonotone(x: real, y: real)
    ensures x <= y ==> Truncate(x) <= Truncate(y)
  {
  }

  lemma TouchIsExtend(b: Bar, t: Tick)
    ensures Touch(Cut(Some(b)), t) == Cut(Some(Extend(b, t))).value
  {
    TruncateMonotone(b.high, t.price);
    TruncateMonotone(t.price, b.high);
    TruncateMonotone(b.low, t.price);
    TruncateMonotone(t.price, b.low);
  }

  /** In every run the row of a minute is the cut of the bar of all the symbol's ticks in that minute. */
  lemma {:induction false} TableKeepsAll(ts: seq<Tick>, symbol: string, minute: int) returns (b: Option<Bar>)
    ensures RowAt(UpsertAll(ts), symbol, minute) == Cut(b) && Reports(b, TicksOf(ts, symbol, minute))
  {
    b := None;
    if ts != [] {
      var init, t := ts[..|ts| - 1], ts[|ts| - 1];
      b := TableKeepsAll(init, symbol, minute);
      if In(t, symbol, minute) {
        if b == None {
          NewSummary(t);
          b := Some(NewBar(t).bar);
        } else {
          TouchIsExtend(b.value, t);
          ExtendSummary(b.value, TicksOf(init, symbol, minute), t);
          b := Some(Extend(b.value, t));
        }
      }
    }
  }

  // ---- agreement ----

  /** Tick `k` comes back to the minute of tick `i`, which its symbol had left with tick `j`. */
  predicate ComesBack(i: Tick, j: Tick, k: Tick) {
    i.symbol == j.symbol == k.symbol && FloorMinute(i.at) == FloorMinute(k.at) != FloorMinute(j.at)
  }

  /** Once a symbol has left a minute it has no further tick in it. */
  predicate Contiguous(ts: seq<Tick>) {
    forall i, j, k :: 0 <= i < j < k < |ts| ==> !ComesBack(ts[i], ts[j], ts[k])
  }

  /** The saved bars and the current ones together are the table, row by row. */
  ghost predicate Agree(ts: seq<Tick>) {
    forall symbol, minute :: RowAt(UpsertAll(ts), symbol, minute) == Cut(BarAt(Build(ts), symbol, minute))
  }

  lemma OrderedContiguous(ts: seq<Tick>)
    requires forall i, j :: 0 <= i < j < |ts| && ts[i].symbol == ts[j].symbol ==> ts[i].at <= ts[j].at
    ensures Contiguous(ts)
  {
  }

  lemma {:induction false} TickIndex(ts: seq<Tick>, symbol: string, minute: int) returns (i: nat)
    requires TicksOf(ts, symbol, minute) != []
    ensures i < |ts| && In(ts[i], symbol, minute)
  {
    i := |ts| - 1;
    if !In(ts[i], symbol, minute) {
      i := TickIndex(ts[..i], symbol, minute);
    }
  }

  lemma {:induction false} CurrentIndex(ts: seq<Tick>, symbol: string) returns (j: nat)
    requires Current(ts, symbol).Some?
    ensures j < |ts| && In(ts[j], symbol, Current(ts, symbol).value)
    ensures forall k :: j < k < |ts| ==> ts[k].symbol != symbol
  {
    j := |ts| - 1;
    if ts[j].symbol != symbol {
      j := CurrentIndex(ts[..j], symbol);
    }
  }

  lemma {:induction false} NoTicks(ts: seq<Tick>, symbol: string, minute: int)
    requires Current(ts, symbol) == None
    ensures TicksOf(ts, symbol, minute) == []
  {
    if ts != [] {
      NoTicks(ts[..|ts| - 1], symbol, minute);
    }
  }

  /** A new stay in a minute that already has ticks breaks contiguity. */
  lemma SecondStay(ts: seq<Tick>, symbol: string, minute: int)
    requires ts != [] && In(ts[|ts| - 1], symbol, minute)
    requires var init := ts[..|ts| - 1]; Current(init, symbol) != Some(minute) && TicksOf(init, symbol, minute) != []
    ensures !Contiguous(ts)
  {
    var init, t := ts[..|ts| - 1], ts[|ts| - 1];
    var i := TickIndex(init, symbol, minute);
    if Current(init, symbol) == None {
      NoTicks(init, symbol, minute);
    } else {
      var j := CurrentIndex(init, symbol);
      assert i < j < |ts| - 1 && ComesBack(ts[i], ts[j], t);
    }
  }

  lemma {:induction false} StayIsAll(ts: seq<Tick>, symbol: string, minute: int)
    requires Contiguous(ts)
    ensures LastStay(ts, symbol, minute) == TicksOf(ts, symbol, minute)
  {
    if ts != [] {
      var init, t := ts[..|ts| - 1], ts[|ts| - 1];
      assert forall k :: 0 <= k < |init| ==> init[k] == ts[k];
      StayIsAll(init, symbol, minute);
      if In(t, symbol, minute) && Current(init, symbol) != Some(minute) && TicksOf(init, symbol, minute) != [] {
        SecondStay(ts, symbol, minute);
      }
    }
  }

  /** The two ways of building minute bars agree on every contiguous run of ticks. */
  lemma ContiguousAgree(ts: seq<Tick>)
    requires Contiguous(ts)
    ensures Agree(ts)
  {
    forall symbol, minute
      ensures RowAt(UpsertAll(ts), symbol, minute) == Cut(BarAt(Build(ts), symbol, minute))
    {
      BuilderKeepsLastStay(ts, symbol, minute);
      StayIsAll(ts, symbol, minute);
      var b := TableKeepsAll(ts, symbol, minute);
      if b.Some? {
        SummaryUnique(b.value, BarAt(Build(ts), symbol, minute).value, TicksOf(ts, symbol, minute));
      }
    }
  }

  predicate NonNegative(ts: seq<Tick>) {
    forall t :: t in ts ==> t.volume >= 0
  }

  lemma {:induction false} TicksVolume(ts: seq<Tick>, symbol: string, minute: int)
    requires NonNegative(ts)
    ensures TotalVolume(TicksOf(ts, symbol, minute)) >= 0
    ensures forall t :: t in ts && In(t, symbol, minute) ==> t.volume <= TotalVolume(TicksOf(ts, symbol, minute))
  {
    if ts != [] {
      var init, t := ts[..|ts| - 1], ts[|ts| - 1];
      TicksVolume(init, symbol, minute);
      VolumeAppend(TicksOf(init, symbol, minute), t);
    }
  }

  lemma {:induction false} TicksConcat(a: seq<Tick>, b: seq<Tick>, symbol: string, minute: int)
    ensures TotalVolume(TicksOf(a + b, symbol, minute)) ==
            TotalVolume(TicksOf(a, symbol, minute)) + TotalVolume(TicksOf(b, symbol, minute))
  {
    if b == [] {
      assert a + b == a;
    } else {
      var init, t := b[..|b| - 1], b[|b| - 1];
      assert (a + b)[..|a + b| - 1] == a + init;
      TicksConcat(a, init, symbol, minute);
      VolumeAppend(TicksOf(a + init, symbol, minute), t);
      VolumeAppend(TicksOf(init, symbol, minute), t);
    }
  }

  /** After a symbol has left a minute, the bar of the minute counts later ticks only, once there are any. */
  lemma {:induction false} AfterLeaving(a: seq<Tick>, b: seq<Tick>, symbol: string, minute: int)
    requires Current(a, symbol).Some? && Current(a, symbol) != Some(minute) && NonNegative(b)
    ensures TicksOf(b, symbol, minute) == [] ==> Current(a + b, symbol) != Some(minute)
    ensures TicksOf(b, symbol, minute) != [] ==>
              TotalVolume(LastStay(a + b, symbol, minute)) <= TotalVolume(TicksOf(b, symbol, minute))
  {
    if b == [] {
      assert a + b == a;
    } else {
      var init, t := b[..|b| - 1], b[|b| - 1];
      assert (a + b)[..|a + b| - 1] == a + init;
      AfterLeaving(a, init, symbol, minute);
      if In(t, symbol, minute) {
        VolumeAppend(TicksOf(init, symbol, minute), t);
        VolumeAppend(LastStay(a + init, symbol, minute), t);
        VolumeAppend([], t);
        assert [] + [t] == [t];
        TicksVolume(init, symbol, minute);
      }
    }
  }

  lemma {:induction false} TicksPresent(ts: seq<Tick>, i: nat, symbol: string, minute: int)
    requires i < |ts| && In(ts[i], symbol, minute)
    ensures TicksOf(ts, symbol, minute) != []
  {
    if i < |ts| - 1 {
      TicksPresent(ts[..|ts| - 1], i, symbol, minute);
    }
  }

  lemma LeavingLosesVolume(a: seq<Tick>, b: seq<Tick>, first: Tick, symbol: string, minute: int)
    requires Current(a, symbol).Some? && Current(a, symbol) != Some(minute) && NonNegative(a) && NonNegative(b)
    requires first in a && In(first, symbol, minute) && first.volume > 0 && TicksOf(b, symbol, minute) != []
    ensures TotalVolume(LastStay(a + b, symbol, minute)) < TotalVolume(TicksOf(a + b, symbol, minute))
  {
    TicksConcat(a, b, symbol, minute);
    TicksVolume(a, symbol, minute);
    AfterLeaving(a, b, symbol, minute);
  }

  /** Cutting the ticks behind the one with which the symbol left the minute. */
  lemma CutBehind(ts: seq<Tick>, i: nat, j: nat, k: nat)
    requires i < j < k < |ts| && ComesBack(ts[i], ts[j], ts[k])
    ensures var s, m := ts[i].symbol, FloorMinute(ts[i].at);
            Current(ts[..j + 1], s).Some? && Current(ts[..j + 1], s) != Some(m) && ts[i] in ts[..j + 1] &&
            TicksOf(ts[j + 1..], s, m) != []
  {
    var a, b := ts[..j + 1], ts[j + 1..];
    assert a[|a| - 1] == ts[j] && a[i] == ts[i] && b[k - j - 1] == ts[k];
    TicksPresent(b, k - j - 1, ts[i].symbol, FloorMinute(ts[i].at));
  }

  lemma NonNegativeParts(a: seq<Tick>, b: seq<Tick>)
    requires NonNegative(a + b)
    ensures NonNegative(a) && NonNegative(b)
  {
    assert forall t :: t in a || t in b ==> t in a + b;
  }

  /** A tick that comes back to a minute its symbol had left makes the builder forget earlier volume. */
  lemma ReturnLosesVolume(ts: seq<Tick>, i: nat, j: nat, k: nat)
    requires NonNegative(ts) && i < j < k < |ts| && ComesBack(ts[i], ts[j], ts[k]) && ts[i].volume > 0
    ensures var s, m := ts[i].symbol, FloorMinute(ts[i].at);
            TotalVolume(LastStay(ts, s, m)) < TotalVolume(TicksOf(ts, s, m))
  {
    var a, b := ts[..j + 1], ts[j + 1..];
    assert ts == a + b;
    NonNegativeParts(a, b);
    CutBehind(ts, i, j, k);
    LeavingLosesVolume(a, b, ts[i], ts[i].symbol, FloorMinute(ts[i].at));
  }

  // ---- agreement on all ticks ----

  /** The ticks of a minute before the symbol's last stay in it. */
  function Earlier(ts: seq<Tick>, symbol: string, minute: int): seq<Tick> {
    var all, stay := TicksOf(ts, symbol, minute), LastStay(ts, symbol, minute);
    if |stay| <= |all| then all[..|all| - |stay|] else []
  }

  lemma {:induction false} StayIsSuffix(ts: seq<Tick>, symbol: string, minute: int)
    ensures TicksOf(ts, symbol, minute) == Earlier(ts, symbol, minute) + LastStay(ts, symbol, minute)
    ensures TicksOf(ts, symbol, minute) != [] ==> LastStay(ts, symbol, minute) != []
  {
    if ts != [] {
      StayIsSuffix(ts[..|ts| - 1], symbol, minute);
    }
  }

  /** A tick with this cut price or a larger one, and one with this or a smaller one. */
  predicate Spans(ts: seq<Tick>, price: int) {
    (exists t :: t in ts && price <= Truncate(t.price)) && (exists t :: t in ts && Truncate(t.price) <= price)
  }

  /** Ticks that change nothing in the row of a minute: no volume in all, the same first price, no price
      outside the others' range. */
  predicate AddsNothing(earlier: seq<Tick>, stay: seq<Tick>)
    requires stay != []
  {
    earlier == [] ||
    (TotalVolume(earlier) == 0 && Truncate(earlier[0].price) == Truncate(stay[0].price) &&
     forall t :: t in earlier ==> Spans(stay, Truncate(t.price)))
  }

  lemma {:induction false} VolumeConcat(a: seq<Tick>, b: seq<Tick>)
    ensures TotalVolume(a + b) == TotalVolume(a) + TotalVolume(b)
  {
    if b == [] {
      assert a + b == a;
    } else {
      var init, t := b[..|b| - 1], b[|b| - 1];
      assert a + b == a + init + [t];
      VolumeConcat(a, init);
      VolumeAppend(a + init, t);
    }
  }

  /** The cut extremes are the extremes of the cut prices. */
  lemma CutRange(b: Bar, ts: seq<Tick>, price: int)
    requires Summarizes(b, ts)
    ensures Spans(ts, price) <==> Truncate(b.low) <= price <= Truncate(b.high)
    ensures forall t :: t in ts ==> Truncate(b.low) <= Truncate(t.price) <= Truncate(b.high)
  {
    forall t | t in ts
      ensures Truncate(b.low) <= Truncate(t.price) <= Truncate(b.high)
    {
      TruncateMonotone(b.low, t.price);
      TruncateMonotone(t.price, b.high);
    }
    var high :| high in ts && high.price == b.high;
    var low :| low in ts && low.price == b.low;
    assert Truncate(high.price) == Truncate(b.high) && Truncate(low.price) == Truncate(b.low);
  }

  /** Rows of all ticks and of the last stay have the same extremes exactly if no earlier price is outside. */
  lemma SameExtremes(all: Bar, last: Bar, earlier: seq<Tick>, stay: seq<Tick>)
    requires Summarizes(all, earlier + stay) && Summarizes(last, stay)
    ensures Truncate(all.high) == Truncate(last.high) && Truncate(all.low) == Truncate(last.low) <==>
            forall t :: t in earlier ==> Spans(stay, Truncate(t.price))
  {
    CutRange(all, earlier + stay, 0);
    forall t | t in earlier
      ensures Spans(stay, Truncate(t.price)) <==> Truncate(last.low) <= Truncate(t.price) <= Truncate(last.high)
      ensures Truncate(all.low) <= Truncate(t.price) <= Truncate(all.high)
    {
      CutRange(last, stay, Truncate(t.price));
      assert t in earlier + stay;
    }
    CutRange(last, stay, 0);
    forall t | t in stay
      ensures Truncate(all.low) <= Truncate(t.price) <= Truncate(all.high)
    {
      assert t in earlier + stay;
    }
    var high :| high in earlier + stay && high.price == all.high;
    var low :| low in earlier + stay && low.price == all.low;
    var high' :| high' in stay && high'.price == last.high;
    var low' :| low' in stay && low'.price == last.low;
  }

  lemma SameRow(all: Bar, last: Bar, earlier: seq<Tick>, stay: seq<Tick>)
    requires Summarizes(all, earlier + stay) && Summarizes(last, stay)
    ensures Cut(Some(all)) == Cut(Some(last)) <==> AddsNothing(earlier, stay)
  {
    SameExtremes(all, last, earlier, stay);
    VolumeConcat(earlier, stay);
    assert (earlier + stay)[|earlier + stay| - 1] == stay[|stay| - 1];
    if earlier == [] {
      assert earlier + stay == stay;
      SummaryUnique(all, last, stay);
    } else {
      assert (earlier + stay)[0] == earlier[0];
    }
  }

  /** The two ways agree on a minute exactly if the ticks before the symbol's last stay in it add nothing. */
  lemma AgreeAt(ts: seq<Tick>, symbol: string, minute: int)
    ensures RowAt(UpsertAll(ts), symbol, minute) == Cut(BarAt(Build(ts), symbol, minute)) <==>
            TicksOf(ts, symbol, minute) == [] ||
            (LastStay(ts, symbol, minute) != [] &&
             AddsNothing(Earlier(ts, symbol, minute), LastStay(ts, symbol, minute)))
  {
    StayIsSuffix(ts, symbol, minute);
    BuilderKeepsLastStay(ts, symbol, minute);
    var b := TableKeepsAll(ts, symbol, minute);
    if b.Some? {
      var last := BarAt(Build(ts), symbol, minute).value;
      SameRow(b.value, last, Earlier(ts, symbol, minute), LastStay(ts, symbol, minute));
    }
  }

  /** For all ticks: builder and table agree exactly if in no minute the ticks before the last stay add
      anything. */
  lemma AgreeExactly(ts: seq<Tick>)
    ensures Agree(ts) <==>
            forall symbol, minute :: LastStay(ts, symbol, minute) != [] ==>
              AddsNothing(Earlier(ts, symbol, minute), LastStay(ts, symbol, minute))
  {
    forall symbol, minute
      ensures RowAt(UpsertAll(ts), symbol, minute) == Cut(BarAt(Build(ts), symbol, minute)) <==>
              (LastStay(ts, symbol, minute) != [] ==>
                 AddsNothing(Earlier(ts, symbol, minute), LastStay(ts, symbol, minute)))
    {
      AgreeAt(ts, symbol, minute);
      StayIsSuffix(ts, symbol, minute);
    }
  }

  /** With positive volumes the two agree exactly on the contiguous runs of ticks. */
  lemma AgreeIfPositive(ts: seq<Tick>)
    requires forall t :: t in ts ==> t.volume > 0
    ensures Agree(ts) <==> Contiguous(ts)
  {
    if Contiguous(ts) {
      ContiguousAgree(ts);
    } else {
      var i, j, k :| 0 <= i < j < k < |ts| && ComesBack(ts[i], ts[j], ts[k]);
      var s, m := ts[i].symbol, FloorMinute(ts[i].at);
      assert ts[i] in ts;
      ReturnLosesVolume(ts, i, j, k);
      StayIsSuffix(ts, s, m);
      VolumeConcat(Earlier(ts, s, m), LastStay(ts, s, m));
      AgreeExactly(ts);
      assert !AddsNothing(Earlier(ts, s, m), LastStay(ts, s, m));
    }
  }

  // ---- conservation ----

  function TableVolume(table: map<(string, int), Row>, keys: seq<(string, int)>): int
    requires forall k :: k in keys ==> k in table && table[k].volume.Some?
  {
    if keys == [] then 0
    else TableVolume(table, keys[..|keys| - 1]) + table[keys[|keys| - 1]].volume.value
  }

  function TicksVolumes(ts: seq<Tick>, keys: seq<(string, int)>): int {
    if keys == [] then 0
    else
      var k := keys[|keys| - 1];
      TicksVolumes(ts, keys[..|keys| - 1]) + TotalVolume(TicksOf(ts, k.0, k.1))
  }

  predicate Distinct(keys: seq<(string, int)>) {
    forall i, j :: 0 <= i < j < |keys| ==> keys[i] != keys[j]
  }

  lemma {:induction false} VolumesAppend(ts: seq<Tick>, t: Tick, keys: seq<(string, int)>)
    requires Distinct(keys)
    ensures TicksVolumes(ts + [t], keys) ==
            TicksVolumes(ts, keys) + if (t.symbol, FloorMinute(t.at)) in keys then t.volume else 0
  {
    if keys != [] {
      var init, k := keys[..|keys| - 1], keys[|keys| - 1];
      VolumesAppend(ts, t, init);
      assert (ts + [t])[..|ts|] == ts;
      VolumeAppend(TicksOf(ts, k.0, k.1), t);
      assert keys == init + [k];
      assert k !in init;
    }
  }

  lemma {:induction false} VolumesTotal(ts: seq<Tick>, keys: seq<(string, int)>)
    requires Distinct(keys) && forall t :: t in ts ==> (t.symbol, FloorMinute(t.at)) in keys
    ensures TicksVolumes(ts, keys) == TotalVolume(ts)
  {
    if ts == [] {
      NoVolume(keys);
    } else {
      var init, t := ts[..|ts| - 1], ts[|ts| - 1];
      assert ts == init + [t];
      VolumesTotal(init, keys);
      VolumesAppend(init, t, keys);
      VolumeAppend(init, t);
    }
  }

  lemma {:induction false} NoVolume(keys: seq<(string, int)>)
    ensures TicksVolumes([], keys) == 0
  {
    if keys != [] {
      NoVolume(keys[..|keys| - 1]);
    }
  }

  lemma {:induction false} TableVolumes(ts: seq<Tick>, keys: seq<(string, int)>)
    requires forall k :: k in keys ==> k in UpsertAll(ts)
    ensures forall k :: k in keys ==> UpsertAll(ts)[k].volume.Some?
    ensures TableVolume(UpsertAll(ts), keys) == TicksVolumes(ts, keys)
  {
    if keys != [] {
      var k := keys[|keys| - 1];
      assert k in keys;
      TableVolumes(ts, keys[..|keys| - 1]);
      var b := TableKeepsAll(ts, k.0, k.1);
      assert keys == keys[..|keys| - 1] + [k];
    }
  }

  /** No volume is lost or invented: the table's rows add up to the ticks. */
  lemma VolumeConserved(ts: seq<Tick>, keys: seq<(string, int)>)
    requires Distinct(keys) && forall k :: k in keys <==> k in UpsertAll(ts)
    ensures forall k :: k in keys ==> UpsertAll(ts)[k].volume.Some?
    ensures TableVolume(UpsertAll(ts), keys) == TotalVolume(ts)
  {
    forall t | t in ts
      ensures (t.symbol, FloorMinute(t.at)) in keys
    {
      var i :| 0 <= i < |ts| && ts[i] == t;
      TicksPresent(ts, i, t.symbol, FloorMinute(t.at));
      var b := TableKeepsAll(ts, t.symbol, FloorMinute(t.at));
    }
    VolumesTotal(ts, keys);
    TableVolumes(ts, keys);
  }

  // ---- the objects ----

  function SaveAll(rows: map<(string, int), Bar>, symbol: string, bars: seq<Stamped>): map<(string, int), Bar> {
    if bars == [] then rows
    else
      var b := bars[|bars| - 1];
      SaveAll(rows, symbol, bars[..|bars| - 1])[(symbol, b.minute) := b.bar]
  }

  class MinuteBarStore {
    var rows: map<(string, int), Bar>

    constructor ()
      ensures rows == map[]
    {
      rows := map[];
    }

    /** Saving a bar replaces the row it has the key of. */
    method SaveBars(symbol: string, bars: seq<Stamped>) returns (n: nat)
      modifies this
      ensures rows == SaveAll(old(rows), symbol, bars) && n == |bars|
    {
      for i := 0 to |bars|
        invariant rows == SaveAll(old(rows), symbol, bars[..i])
      {
        assert bars[..i + 1][..i] == bars[..i];
        rows := rows[(symbol, bars[i].minute) := bars[i].bar];
      }
      assert bars[..|bars|] == bars;
      return |bars|;
    }
  }

  class BarBuilder {
    var current: map<string, Stamped>
    var completed: map<string, Stamped>
    var latest: map<string, Tick>
    const barStore: MinuteBarStore

    constructor (barStore: MinuteBarStore)
      ensures View() == EMPTY.(store := barStore.rows) && this.barStore == barStore
    {
      current, completed, latest := map[], map[], map[];
      this.barStore := barStore;
    }

    function View(): Builder
      reads this, barStore
    {
      Builder(current, completed, latest, barStore.rows)
    }

    /** `works` tells whether saving succeeds; a failure to save is only logged. */
    method OnTick(t: Tick, works: bool)
      modifies this, barStore
      ensures View() == OnQuote(old(View()), t, works)
    {
      var minute := FloorMinute(t.at);
      latest := latest[t.symbol := t];
      if t.symbol !in current {
        current := current[t.symbol := NewBar(t)];
        return;
      }
      var bar := current[t.symbol];
      if bar.minute == minute {
        var high := Max(bar.bar.high, t.price);
        var low := Min(bar.bar.low, t.price);
        var grown := Bar(bar.bar.open, high, low, t.price, bar.bar.volume + t.volume);
        current := current[t.symbol := Stamped(minute, grown)];
      } else {
        completed := completed[t.symbol := bar];
        if works {
          var _ := barStore.SaveBars(t.symbol, [bar]);
        }
        current := current[t.symbol := NewBar(t)];
      }
    }

    method GetCurrentBar(symbol: string) returns (bar: Option<Stamped>)
      ensures bar.Some? <==> symbol in current
      ensures bar.Some? ==> BarAt(View(), symbol, bar.value.minute) == Some(bar.value.bar)
    {
      return if symbol in current then Some(current[symbol]) else None;
    }
  }

  class MarketRepository {
    var minuteBars: map<(string, int), Row>

    constructor ()
      ensures minuteBars == map[]
    {
      minuteBars := map[];
    }

    method SaveMinuteBar(t: Tick) returns (bar: Row)
      modifies this
      ensures minuteBars == Upsert(old(minuteBars), t)
      ensures RowAt(minuteBars, t.symbol, FloorMinute(t.at)) == Some(bar)
    {
      var key, price := (t.symbol, FloorMinute(t.at)), Truncate(t.price);
      if key in minuteBars {
        bar := minuteBars[key];
        if bar.high == None || price > bar.high.value {
          bar := bar.(high := Some(price));
        }
        if bar.low == None || price < bar.low.value {
          bar := bar.(low := Some(price));
        }
        bar := bar.(close := Some(price));
        if bar.volume.Some? {
          bar := bar.(volume := Some(bar.volume.value + t.volume));
        } else {
          bar := bar.(volume := Some(t.volume));
        }
      } else {
        bar := Row(Some(price), Some(price), Some(price), Some(price), Some(t.volume));
      }
      minuteBars := minuteBars[key := bar];
    }
  }
}
