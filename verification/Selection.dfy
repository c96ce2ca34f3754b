/** Portfolio-level selection: which of a cycle's candidate signals are executed. */
module Selection {
  import opened Common
  import opened OrderModel

  // ---- candidates ----

  /** The settings of a trading rule that an execution reads. */
  datatype RuleSpec = RuleSpec(id: int, symbol: string, priority: int, execQty: Option<int>, qty: Option<int>) {
    /** The execution block's quantity, else the rule's own, else one. */
    function Qty(): int {
      if execQty.Some? then execQty.value else if qty.Some? then qty.value else 1
    }
  }

  datatype Candidate = Candidate(rule: RuleSpec, side: OrderSide, qty: int, price: real) {
    function Amount(): real {
      price * qty as real
    }

    /** The order the executor derives from the candidate's rule and market data. */
    function Executed(): Order {
      Order(rule.id, rule.symbol, side, rule.Qty(), price)
    }
  }

  function CandidatesV1(rule: RuleSpec, price: real, buy: bool, sell: bool): seq<Candidate> {
    (if buy then [Candidate(rule, BUY, rule.Qty(), price)] else []) +
    (if sell then [Candidate(rule, SELL, rule.Qty(), price)] else [])
  }

  datatype Portion = Percent(value: real) | All

  function AtLeastOne(n: int): int {
    if n < 1 then 1 else n
  }

  /** So many percent of the shares held. */
  function Portioned(held: int, v: real): int {
    Truncate(held as real * v / 100.0)
  }

  /** The share count a version 2 action asks for, given the shares held. */
  function PortionQty(side: OrderSide, portion: Portion, held: int, rule: RuleSpec): int {
    match portion
    case Percent(v) =>
      if side == BUY then AtLeastOne(Truncate(v / 100.0))
      else if held > 0 then AtLeastOne(Portioned(held, v)) else 0
    case All => if side == BUY then rule.Qty() else held
  }

  /** A version 2 candidate carries a copy of the rule with the computed quantity written into it. */
  function CandidateV2(rule: RuleSpec, price: real, side: OrderSide, portion: Portion, held: int): Option<Candidate> {
    var n := PortionQty(side, portion, held, rule);
    if n <= 0 then None else Some(Candidate(rule.(execQty := Some(n)), side, n, price))
  }

  /** The quantity the portfolio limits are checked with is the quantity that is ordered. */
  predicate Faithful(c: Candidate) {
    c.qty == c.rule.Qty()
  }

  lemma CandidatesFaithful(
    rule: RuleSpec, price: real, buy: bool, sell: bool, side: OrderSide, portion: Portion, held: int)
    ensures forall c :: c in CandidatesV1(rule, price, buy, sell) ==> Faithful(c) && c.Executed().Amount() == c.Amount()
    ensures var c := CandidateV2(rule, price, side, portion, held);
            c.Some? ==> Faithful(c.value) && c.value.qty > 0 && c.value.Executed().Amount() == c.value.Amount()
    ensures portion == All && side == SELL && held > 0 ==>
              CandidateV2(rule, price, side, portion, held).Some? &&
              CandidateV2(rule, price, side, portion, held).value.Executed().qty == held
  {
  }

  /** The decisions of version 1 become candidates of their side, the buy before the sell. */
  lemma CandidatesV1Exactly(rule: RuleSpec, price: real, buy: bool, sell: bool)
    ensures var cs := CandidatesV1(rule, price, buy, sell);
            && (forall c :: c in cs ==> c.rule == rule && c.price == price && c.qty == rule.Qty())
            && |cs| == (if buy then 1 else 0) + (if sell then 1 else 0)
            && (buy ==> cs[0].side == BUY) && (sell ==> cs[|cs| - 1].side == SELL)
    ensures rule.execQty.Some? ==> rule.Qty() == rule.execQty.value
    ensures rule.execQty == None && rule.qty.Some? ==> rule.Qty() == rule.qty.value
    ensures rule.execQty == None && rule.qty == None ==> rule.Qty() == 1
  {
  }

  /** A percent sell is the largest whole number of shares within the percentage of those held, but at least
      one; with nothing held there is no candidate. A percent buy is one share for every full hundred percent,
      at least one, and all others are limited elsewhere. */
  lemma PercentQty(rule: RuleSpec, price: real, v: real, held: int)
    requires v >= 0.0
    ensures var c := CandidateV2(rule, price, SELL, Percent(v), held);
            if held <= 0 then c == None
            else c.Some? && c.value.side == SELL && c.value.price == price &&
                 var n := c.value.qty as real;
                 if held as real * v < 100.0 then n == 1.0 else n * 100.0 <= held as real * v < (n + 1.0) * 100.0
    ensures var c := CandidateV2(rule, price, BUY, Percent(v), held);
            c.Some? && c.value.side == BUY && c.value.price == price &&
            var n := c.value.qty as real; if v < 100.0 then n == 1.0 else n * 100.0 <= v < (n + 1.0) * 100.0
  {
    if held > 0 {
      SellQty(held, v);
    }
    ShareQty(v);
  }

  lemma SellQty(held: int, v: real)
    requires held > 0 && v >= 0.0
    ensures var x, n := held as real * v, Portioned(held, v) as real; n * 100.0 <= x < (n + 1.0) * 100.0
  {
    assert held as real * v >= 0.0;
    ShareQty(held as real * v);
  }

  lemma ShareQty(x: real)
    requires x >= 0.0
    ensures var n := Truncate(x / 100.0) as real; n * 100.0 <= x < (n + 1.0) * 100.0
  {
  }

  // ---- sorting ----

  function InsertStable(sorted: seq<Candidate>, c: Candidate): seq<Candidate> {
    if sorted == [] then [c]
    else
      var n := |sorted| - 1;
      if sorted[n].rule.priority >= c.rule.priority then sorted + [c] else InsertStable(sorted[..n], c) + [sorted[n]]
  }

  /** Highest priority first, equal priorities in their given order. */
  function SortDesc(cs: seq<Candidate>): seq<Candidate> {
    if cs == [] then [] else InsertStable(SortDesc(cs[..|cs| - 1]), cs[|cs| - 1])
  }

  predicate Descending(cs: seq<Candidate>) {
    forall i, j :: 0 <= i < j < |cs| ==> cs[i].rule.priority >= cs[j].rule.priority
  }

  function OfPriority(cs: seq<Candidate>, p: int): seq<Candidate> {
    if cs == [] then []
    else OfPriority(cs[..|cs| - 1], p) + if cs[|cs| - 1].rule.priority == p then [cs[|cs| - 1]] else []
  }

  lemma {:induction false} InsertPermutes(sorted: seq<Candidate>, c: Candidate)
    ensures multiset(InsertStable(sorted, c)) == multiset(sorted) + multiset{c}
  {
    if sorted != [] {
      var n := |sorted| - 1;
      assert sorted == sorted[..n] + [sorted[n]];
      if sorted[n].rule.priority < c.rule.priority { InsertPermutes(sorted[..n], c); }
    }
  }

  lemma {:induction false} SortPermutes(cs: seq<Candidate>)
    ensures multiset(SortDesc(cs)) == multiset(cs)
  {
    if cs != [] {
      var n := |cs| - 1;
      assert cs == cs[..n] + [cs[n]];
      SortPermutes(cs[..n]);
      InsertPermutes(SortDesc(cs[..n]), cs[n]);
    }
  }

  lemma SortMembers(cs: seq<Candidate>, c: Candidate)
    ensures c in SortDesc(cs) <==> c in cs
  {
    SortPermutes(cs);
    assert c in SortDesc(cs) <==> c in multiset(SortDesc(cs));
    assert c in cs <==> c in multiset(cs);
  }

  lemma {:induction false} InsertOrdered(sorted: seq<Candidate>, c: Candidate)
    requires Descending(sorted)
    ensures Descending(InsertStable(sorted, c))
  {
    if sorted != [] && sorted[|sorted| - 1].rule.priority < c.rule.priority {
      var n := |sorted| - 1;
      var rest := InsertStable(sorted[..n], c);
      InsertOrdered(sorted[..n], c);
      InsertPermutes(sorted[..n], c);
      forall i | 0 <= i < |rest|
        ensures rest[i].rule.priority >= sorted[n].rule.priority
      {
        assert rest[i] in multiset(rest);
        assert rest[i] in sorted[..n] || rest[i] == c;
      }
    }
  }

  lemma PriorityAppend(cs: seq<Candidate>, c: Candidate, p: int)
    ensures OfPriority(cs + [c], p) == OfPriority(cs, p) + if c.rule.priority == p then [c] else []
  {
    assert (cs + [c])[..|cs|] == cs;
  }

  lemma {:induction false} InsertKeepsOrder(sorted: seq<Candidate>, c: Candidate, p: int)
    ensures OfPriority(InsertStable(sorted, c), p) == OfPriority(sorted, p) + if c.rule.priority == p then [c] else []
  {
    if sorted == [] {
      PriorityAppend([], c, p);
      assert [] + [c] == [c];
    } else {
      var n := |sorted| - 1;
      assert sorted == sorted[..n] + [sorted[n]];
      PriorityAppend(sorted, c, p);
      PriorityAppend(InsertStable(sorted[..n], c), sorted[n], p);
      if sorted[n].rule.priority < c.rule.priority { InsertKeepsOrder(sorted[..n], c, p); }
    }
  }

  /** Sorting orders by priority and keeps the order of candidates of equal priority. */
  lemma {:induction false} SortStable(cs: seq<Candidate>)
    ensures Descending(SortDesc(cs))
    ensures forall p :: OfPriority(SortDesc(cs), p) == OfPriority(cs, p)
  {
    if cs != [] {
      var n := |cs| - 1;
      SortStable(cs[..n]);
      InsertOrdered(SortDesc(cs[..n]), cs[n]);
      forall p
        ensures OfPriority(SortDesc(cs), p) == OfPriority(cs, p)
      {
        InsertKeepsOrder(SortDesc(cs[..n]), cs[n], p);
      }
    }
  }

  lemma {:induction false} InsertBelow(above: seq<Candidate>, below: seq<Candidate>, c: Candidate)
    requires forall x :: x in above ==> x.rule.priority >= c.rule.priority
    ensures InsertStable(above + below, c) == above + InsertStable(below, c)
  {
    var all := above + below;
    if below == [] {
      assert all == above;
    } else {
      var n := |below| - 1;
      assert all[..|all| - 1] == above + below[..n];
      if below[n].rule.priority < c.rule.priority { InsertBelow(above, below[..n], c); }
      else { assert all + [c] == above + (below + [c]); }
    }
  }

  lemma SortStep(cs: seq<Candidate>, c: Candidate)
    ensures SortDesc(cs + [c]) == InsertStable(SortDesc(cs), c)
  {
    assert (cs + [c])[..|cs|] == cs;
  }

  /** Candidates of no higher priority, appended, are sorted behind all earlier ones. */
  lemma {:induction false} SortAppend(a: seq<Candidate>, b: seq<Candidate>)
    requires forall x, y :: x in a && y in b ==> x.rule.priority >= y.rule.priority
    ensures SortDesc(a + b) == SortDesc(a) + SortDesc(b)
  {
    if b == [] {
      assert a + b == a;
    } else {
      var n := |b| - 1;
      assert a + b == (a + b[..n]) + [b[n]] && b == b[..n] + [b[n]];
      SortStep(a + b[..n], b[n]);
      SortStep(b[..n], b[n]);
      SortAppend(a, b[..n]);
      forall x | x in SortDesc(a) ensures x.rule.priority >= b[n].rule.priority { SortMembers(a, x); }
      InsertBelow(SortDesc(a), SortDesc(b[..n]), b[n]);
    }
  }

  // ---- selection ----

  datatype BlockReason = DUPLICATE_SYMBOL | MAX_POSITIONS | DAILY_BUDGET_EXCEEDED | SELL_NO_HOLDING

  /** What a selection works within: held symbols, position limit, daily budget. */
  datatype Bounds = Bounds(held: set<string>, maxPositions: int, maxDaily: real)

  datatype Tally = Tally(
    selected: seq<Candidate>, dropped: seq<(Candidate, BlockReason)>, symbols: set<string>, added: nat, budget: real)

  /** What may be spent in a day. */
  function DailyCap(cash: real, ratio: real): real {
    cash * ratio
  }

  function CheckBuy(b: Bounds, t: Tally, c: Candidate): Option<BlockReason> {
    if c.rule.symbol in b.held || c.rule.symbol in t.symbols then Some(DUPLICATE_SYMBOL)
    else if |b.held| + t.added >= b.maxPositions then Some(MAX_POSITIONS)
    else if t.budget + c.Amount() > b.maxDaily then Some(DAILY_BUDGET_EXCEEDED)
    else None
  }

  function Take(t: Tally, c: Candidate): Tally {
    Tally(t.selected + [c], t.dropped, t.symbols + {c.rule.symbol}, t.added + 1, t.budget + c.Amount())
  }

  function Consider(b: Bounds, t: Tally, c: Candidate): Tally {
    if c.side == BUY then
      var reason := CheckBuy(b, t, c);
      if reason.Some? then t.(dropped := t.dropped + [(c, reason.value)]) else Take(t, c)
    else if c.rule.symbol !in b.held then t.(dropped := t.dropped + [(c, SELL_NO_HOLDING)])
    else t.(selected := t.selected + [c])
  }

  /** The candidates in order, each considered against what is already selected. */
  function Select(b: Bounds, executed: real, cs: seq<Candidate>): Tally {
    if cs == [] then Tally([], [], {}, 0, executed)
    else Consider(b, Select(b, executed, cs[..|cs| - 1]), cs[|cs| - 1])
  }

  function Buys(cs: seq<Candidate>): seq<Candidate> {
    if cs == [] then []
    else Buys(cs[..|cs| - 1]) + if cs[|cs| - 1].side == BUY then [cs[|cs| - 1]] else []
  }

  function Total(cs: seq<Candidate>): real {
    if cs == [] then 0.0 else Total(cs[..|cs| - 1]) + cs[|cs| - 1].Amount()
  }

  function Firsts(ds: seq<(Candidate, BlockReason)>): (r: seq<Candidate>)
    ensures |r| == |ds|
  {
    seq(|ds|, i requires 0 <= i < |ds| => ds[i].0)
  }

  /** Every candidate is either selected or dropped. */
  lemma {:induction false} SelectPartitions(b: Bounds, executed: real, cs: seq<Candidate>)
    ensures var t := Select(b, executed, cs);
            multiset(t.selected) + multiset(Firsts(t.dropped)) == multiset(cs)
  {
    if cs != [] {
      var n := |cs| - 1;
      SelectPartitions(b, executed, cs[..n]);
      var t, t' := Select(b, executed, cs[..n]), Select(b, executed, cs);
      assert cs == cs[..n] + [cs[n]];
      if t'.dropped != t.dropped {
        assert Firsts(t'.dropped) == Firsts(t.dropped) + [cs[n]];
      }
    }
  }

  lemma BuysAppend(cs: seq<Candidate>, c: Candidate)
    ensures Buys(cs + [c]) == Buys(cs) + if c.side == BUY then [c] else []
    ensures Total(cs + [c]) == Total(cs) + c.Amount()
  {
    assert (cs + [c])[..|cs|] == cs;
  }

  predicate DistinctSymbols(cs: seq<Candidate>) {
    forall i, j :: 0 <= i < j < |cs| ==> cs[i].rule.symbol != cs[j].rule.symbol
  }

  function Symbols(cs: seq<Candidate>): set<string> {
    set c | c in cs :: c.rule.symbol
  }

  lemma SymbolsAppend(cs: seq<Candidate>, c: Candidate)
    ensures Symbols(cs + [c]) == Symbols(cs) + {c.rule.symbol}
    ensures DistinctSymbols(cs) && c.rule.symbol !in Symbols(cs) ==> DistinctSymbols(cs + [c])
  {
    assert forall x :: x in cs + [c] <==> x in cs || x == c;
    forall i | 0 <= i < |cs| ensures cs[i].rule.symbol in Symbols(cs) { assert cs[i] in cs; }
  }

  /** The tally's books are those of the selected buys, which are distinct, unheld and within the limits. */
  predicate Tallies(b: Bounds, executed: real, t: Tally, buys: seq<Candidate>) {
    && t.symbols == Symbols(buys) && t.added == |buys| && t.budget == executed + Total(buys)
    && DistinctSymbols(buys) && t.symbols !! b.held
    && (buys != [] ==> |b.held| + |buys| <= b.maxPositions && executed + Total(buys) <= b.maxDaily)
  }

  predicate SellsHeld(b: Bounds, cs: seq<Candidate>) {
    forall c :: c in cs && c.side == SELL ==> c.rule.symbol in b.held
  }

  /** What the tally records about the buys selected so far. */
  predicate Recorded(b: Bounds, executed: real, t: Tally) {
    Tallies(b, executed, t, Buys(t.selected)) && SellsHeld(b, t.selected)
  }

  lemma ConsiderSafe(b: Bounds, executed: real, t: Tally, c: Candidate)
    requires Recorded(b, executed, t)
    ensures Recorded(b, executed, Consider(b, t, c))
  {
    BuysAppend(t.selected, c);
    assert Buys(t.selected) + [] == Buys(t.selected);
    if c.side == BUY && CheckBuy(b, t, c) == None {
      TakeSafe(b, executed, t, c);
    }
  }

  lemma TallyMore(b: Bounds, executed: real, t: Tally, buys: seq<Candidate>, c: Candidate)
    requires Tallies(b, executed, t, buys) && CheckBuy(b, t, c) == None
    ensures Tallies(b, executed, Take(t, c), buys + [c])
  {
    SymbolsAppend(buys, c);
    BuysAppend(buys, c);
  }

  lemma TakeSafe(b: Bounds, executed: real, t: Tally, c: Candidate)
    requires Recorded(b, executed, t) && c.side == BUY && CheckBuy(b, t, c) == None
    ensures Recorded(b, executed, Take(t, c))
  {
    TallyMore(b, executed, t, Buys(t.selected), c);
    BuysAppend(t.selected, c);
  }

  /** The selected buys have distinct unheld symbols and stay within the position count and the budget; the
      selected sells are held. */
  lemma {:induction false} SelectSafe(b: Bounds, executed: real, cs: seq<Candidate>)
    ensures Recorded(b, executed, Select(b, executed, cs))
  {
    if cs == [] {
      assert Symbols([]) == {};
    } else {
      SelectSafe(b, executed, cs[..|cs| - 1]);
      ConsiderSafe(b, executed, Select(b, executed, cs[..|cs| - 1]), cs[|cs| - 1]);
    }
  }

  /** Every buy has a nonnegative amount. */
  predicate NonNegative(cs: seq<Candidate>) {
    forall c :: c in cs ==> c.Amount() >= 0.0
  }

  // ---- why a candidate is dropped ----

  /** The three things that speak against one more buy, given the buys selected so far. */
  predicate Repeats(b: Bounds, buys: seq<Candidate>, c: Candidate) {
    c.rule.symbol in b.held || exists d :: d in buys && d.rule.symbol == c.rule.symbol
  }

  predicate Fills(b: Bounds, buys: seq<Candidate>) {
    |b.held| + |buys| >= b.maxPositions
  }

  predicate Exceeds(b: Bounds, executed: real, buys: seq<Candidate>, c: Candidate) {
    executed + Total(buys) + c.Amount() > b.maxDaily
  }

  lemma CheckBuyExactly(b: Bounds, executed: real, t: Tally, c: Candidate)
    requires Recorded(b, executed, t)
    ensures var buys, reason := Buys(t.selected), CheckBuy(b, t, c);
            && (reason == Some(DUPLICATE_SYMBOL) <==> Repeats(b, buys, c))
            && (reason == Some(MAX_POSITIONS) <==> !Repeats(b, buys, c) && Fills(b, buys))
            && (reason == Some(DAILY_BUDGET_EXCEEDED) <==>
                  !Repeats(b, buys, c) && !Fills(b, buys) && Exceeds(b, executed, buys, c))
            && (reason == None <==> !Repeats(b, buys, c) && !Fills(b, buys) && !Exceeds(b, executed, buys, c))
  {
  }

  predicate Drops(t: Tally, t': Tally, c: Candidate, reason: BlockReason) {
    t'.dropped == t.dropped + [(c, reason)] && t'.selected == t.selected
  }

  predicate Takes(t: Tally, t': Tally, c: Candidate) {
    t'.selected == t.selected + [c] && t'.dropped == t.dropped
  }

  /** The decision about a candidate: a buy is dropped for the first thing that speaks against it, given the
      buys selected before it, and selected if nothing does; a sell exactly if its symbol is held. */
  lemma DecisionExactly(b: Bounds, executed: real, cs: seq<Candidate>, n: nat)
    requires n < |cs|
    ensures var c, t, t' := cs[n], Select(b, executed, cs[..n]), Select(b, executed, cs[..n + 1]);
            var buys := Buys(t.selected);
            if c.side == BUY then
              if Repeats(b, buys, c) then Drops(t, t', c, DUPLICATE_SYMBOL)
              else if Fills(b, buys) then Drops(t, t', c, MAX_POSITIONS)
              else if Exceeds(b, executed, buys, c) then Drops(t, t', c, DAILY_BUDGET_EXCEEDED)
              else Takes(t, t', c)
            else if c.rule.symbol in b.held then Takes(t, t', c) else Drops(t, t', c, SELL_NO_HOLDING)
  {
    assert cs[..n + 1][..n] == cs[..n];
    SelectSafe(b, executed, cs[..n]);
    CheckBuyExactly(b, executed, Select(b, executed, cs[..n]), cs[n]);
  }

  /** What speaks against a buy goes on doing so as buys are added. */
  lemma {:induction false} BlockedStays(
    b: Bounds, executed: real, cs: seq<Candidate>, c: Candidate, reason: BlockReason)
    requires NonNegative(cs)
    requires (c, reason) in Select(b, executed, cs).dropped
    ensures var buys := Buys(Select(b, executed, cs).selected);
            if c.side == BUY then Repeats(b, buys, c) || Fills(b, buys) || Exceeds(b, executed, buys, c)
            else c.rule.symbol !in b.held
  {
    var n := |cs| - 1;
    var t, t' := Select(b, executed, cs[..n]), Select(b, executed, cs);
    assert cs[..n + 1] == cs && cs[n] in cs;
    DecisionExactly(b, executed, cs, n);
    BuysAppend(t.selected, cs[n]);
    if (c, reason) in t.dropped {
      BlockedStays(b, executed, cs[..n], c, reason);
      MoreBlocked(b, executed, Buys(t.selected), cs[n], c);
      assert Buys(t.selected) + [] == Buys(t.selected);
    }
  }

  lemma MoreBlocked(b: Bounds, executed: real, buys: seq<Candidate>, d: Candidate, c: Candidate)
    requires d.Amount() >= 0.0
    ensures Repeats(b, buys, c) ==> Repeats(b, buys + [d], c)
    ensures Fills(b, buys) ==> Fills(b, buys + [d])
    ensures Exceeds(b, executed, buys, c) ==> Exceeds(b, executed, buys + [d], c)
  {
    BuysAppend(buys, d);
    if e :| e in buys && e.rule.symbol == c.rule.symbol {
      assert e in buys + [d];
    }
  }

  /** Maximality: a dropped buy has the symbol of a held position or of a selected buy, or the positions are
      full, or the budget does not reach for it and all selected buys; a dropped sell is unheld. */
  lemma SelectMaximal(b: Bounds, executed: real, cs: seq<Candidate>)
    requires NonNegative(cs)
    ensures forall i :: 0 <= i < |Select(b, executed, cs).dropped| ==>
              var c, buys := Select(b, executed, cs).dropped[i].0, Buys(Select(b, executed, cs).selected);
              if c.side == BUY then
                || c.rule.symbol in b.held || (exists d :: d in buys && d.rule.symbol == c.rule.symbol)
                || |b.held| + |buys| >= b.maxPositions
                || executed + Total(buys) + c.Amount() > b.maxDaily
              else c.rule.symbol !in b.held
  {
    var t := Select(b, executed, cs);
    forall i | 0 <= i < |t.dropped|
      ensures var c, buys := t.dropped[i].0, Buys(t.selected);
              if c.side == BUY then Repeats(b, buys, c) || Fills(b, buys) || Exceeds(b, executed, buys, c)
              else c.rule.symbol !in b.held
    {
      BlockedStays(b, executed, cs, t.dropped[i].0, t.dropped[i].1);
    }
  }

  /** Later candidates change nothing decided before them. */
  lemma {:induction false} SelectPrefixStable(b: Bounds, executed: real, cs: seq<Candidate>, more: seq<Candidate>)
    ensures var t, t' := Select(b, executed, cs), Select(b, executed, cs + more);
            t.selected <= t'.selected && t.dropped <= t'.dropped
  {
    if more == [] {
      assert cs + more == cs;
    } else {
      var n := |more| - 1;
      assert (cs + more)[..|cs| + n] == cs + more[..n];
      SelectPrefixStable(b, executed, cs, more[..n]);
    }
  }

  /** Appending candidates of no higher priority to a cycle's list keeps every earlier decision. */
  lemma CyclePrefixStable(b: Bounds, executed: real, cs: seq<Candidate>, more: seq<Candidate>)
    requires forall x, y :: x in cs && y in more ==> x.rule.priority >= y.rule.priority
    ensures var t, t' := Select(b, executed, SortDesc(cs)), Select(b, executed, SortDesc(cs + more));
            t.selected <= t'.selected && t.dropped <= t'.dropped
  {
    SortAppend(cs, more);
    SelectPrefixStable(b, executed, SortDesc(cs), SortDesc(more));
  }

  /** Two tallies that agree on everything a buy is checked against. */
  predicate SameBuys(t: Tally, u: Tally) {
    Buys(t.selected) == u.selected && t.symbols == u.symbols && t.added == u.added && t.budget == u.budget
  }

  lemma TakeSame(t: Tally, u: Tally, c: Candidate)
    requires SameBuys(t, u) && c.side == BUY
    ensures SameBuys(Take(t, c), Take(u, c))
  {
    BuysAppend(t.selected, c);
  }

  lemma SellSame(t: Tally, u: Tally, c: Candidate)
    requires SameBuys(t, u) && c.side == SELL
    ensures SameBuys(t.(selected := t.selected + [c]), u)
  {
    BuysAppend(t.selected, c);
    assert Buys(t.selected) + [] == Buys(t.selected);
  }

  lemma ConsiderSame(b: Bounds, t: Tally, u: Tally, c: Candidate)
    requires SameBuys(t, u)
    ensures SameBuys(Consider(b, t, c), if c.side == BUY then Consider(b, u, c) else u)
  {
    if c.side == BUY {
      assert CheckBuy(b, t, c) == CheckBuy(b, u, c);
      TakeSame(t, u, c);
    } else {
      SellSame(t, u, c);
    }
  }

  /** Sells do not influence which buys are selected. */
  lemma {:induction false} SellsIrrelevant(b: Bounds, executed: real, cs: seq<Candidate>)
    ensures SameBuys(Select(b, executed, cs), Select(b, executed, Buys(cs)))
  {
    if cs != [] {
      var n := |cs| - 1;
      SellsIrrelevant(b, executed, cs[..n]);
      ConsiderSame(b, Select(b, executed, cs[..n]), Select(b, executed, Buys(cs[..n])), cs[n]);
      SelectAppend(b, executed, Buys(cs[..n]), cs[n]);
      assert Buys(cs[..n]) + [] == Buys(cs[..n]);
    }
  }

  lemma SelectAppend(b: Bounds, executed: real, cs: seq<Candidate>, c: Candidate)
    ensures Select(b, executed, cs + [c]) == Consider(b, Select(b, executed, cs), c)
  {
    assert (cs + [c])[..|cs|] == cs;
  }
}
