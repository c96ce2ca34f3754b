/** Which entries of the per-rule memory an evaluation can read or write, and that it touches no others. */
module Memory {
  import opened Common
  import opened Syntax
  import opened Semantics

  // ---- entries ----

  /** A key of the memory: of crossover and divergence calls, of counters, of streaks. */
  datatype Slot = CallOf(key: Key) | CounterOf(printed: Printed) | StreakOf(printed: Printed)

  datatype Entry = Entry(
    pair: Option<(Value, Value)>, points: Option<seq<(real, real)>>, outcomes: Option<seq<bool>>, length: Option<nat>)

  function Find<K, V>(m: map<K, V>, k: K): Option<V> {
    if k in m then Some(m[k]) else None
  }

  function Look(st: State, s: Slot): Entry {
    match s
    case CallOf(k) => Entry(Find(st.cross, k), Find(st.history, k), None, None)
    case CounterOf(k) => Entry(None, None, Find(st.counts, k), None)
    case StreakOf(k) => Entry(None, None, None, Find(st.streaks, k))
  }

  /** A memory is determined by its entries. */
  lemma SameEntries(a: State, b: State)
    requires forall s :: Look(a, s) == Look(b, s)
    ensures a == b
  {
    forall k: Key
      ensures Find(a.cross, k) == Find(b.cross, k) && Find(a.history, k) == Find(b.history, k)
    {
      assert Look(a, CallOf(k)) == Look(b, CallOf(k));
    }
    forall k: Printed
      ensures Find(a.counts, k) == Find(b.counts, k) && Find(a.streaks, k) == Find(b.streaks, k)
    {
      assert Look(a, CounterOf(k)) == Look(b, CounterOf(k)) && Look(a, StreakOf(k)) == Look(b, StreakOf(k));
    }
    SameMaps(a.cross, b.cross);
    SameMaps(a.history, b.history);
    SameMaps(a.counts, b.counts);
    SameMaps(a.streaks, b.streaks);
  }

  lemma SameMaps<K, V>(a: map<K, V>, b: map<K, V>)
    requires forall k :: Find(a, k) == Find(b, k)
    ensures a == b
  {
    forall k
      ensures k in a <==> k in b
      ensures k in a ==> a[k] == b[k]
    {
      assert Find(a, k) == Find(b, k);
    }
  }

  // ---- the places that update the memory ----

  predicate Remembers(r: Role) {
    r == CrossAbove || r == CrossBelow || r == BullishDivergence || r == BearishDivergence
  }

  /** The calls that can update the memory when `e` is evaluated with the functions `names` cached, by the
      entry they update: through patterns, and as often as they are reached. */
  function Sites(reg: Registry, names: set<string>, e: Expr, top: bool): (r: multiset<Slot>)
    ensures forall s :: s in r ==> s.CallOf?
    decreases top, e, 1
  {
    match e
    case FuncCall(fn, args, _) =>
      if fn in names then multiset{}
      else if fn in reg.patterns then if top then Sites(reg, names, reg.patterns[fn], false) else multiset{}
      else
        ArgSites(reg, names, args, top) +
        if Remembers(RoleOf(reg, fn)) then multiset{CallOf(Key(fn, args))} else multiset{}
    case Compare(_, l, r, _) => Sites(reg, names, l, top) + Sites(reg, names, r, top)
    case Binary(_, l, r, _) => Sites(reg, names, l, top) + Sites(reg, names, r, top)
    case Unary(_, o, _) => Sites(reg, names, o, top)
    case _ => multiset{}
  }

  function ArgSites(reg: Registry, names: set<string>, args: seq<Expr>, top: bool): (r: multiset<Slot>)
    ensures forall s :: s in r ==> s.CallOf?
    decreases top, args, 0
  {
    if args == [] then multiset{} else Sites(reg, names, args[0], top) + ArgSites(reg, names, args[1..], top)
  }

  lemma CallSites(reg: Registry, names: set<string>, e: Expr, top: bool, slot: Slot)
    requires e.FuncCall? && e.fn !in names && e.fn !in reg.patterns
    ensures Sites(reg, names, e, top)[slot] ==
            ArgSites(reg, names, e.args, top)[slot] +
            if Remembers(RoleOf(reg, e.fn)) && slot == CallOf(Key(e.fn, e.args)) then 1 else 0
  {
  }

  /** The same for a rule's condition: counters and streaks where the walker looks, and once more
      everything under an arithmetic operator, which it evaluates twice. */
  function WalkSites(reg: Registry, names: set<string>, e: Expr): multiset<Slot> {
    match e
    case FuncCall(fn, args, _) =>
      (match RoleOf(reg, fn)
       case Count =>
         if |args| == 2
         then
           Sites(reg, names, args[1], true) + Sites(reg, names, args[0], true) +
           multiset{CounterOf(NodeRepr(args[0]))}
         else multiset{}
       case Consecutive =>
         if |args| == 1 then Sites(reg, names, args[0], true) + multiset{StreakOf(NodeRepr(args[0]))} else multiset{}
       case _ => Sites(reg, names, e, true))
    case Compare(_, l, r, _) => WalkSites(reg, names, l) + WalkSites(reg, names, r)
    case Binary(op, l, r, _) =>
      WalkSites(reg, names, l) + WalkSites(reg, names, r) +
      if op == And || op == Or then multiset{} else Sites(reg, names, e, true)
    case Unary(_, o, _) => WalkSites(reg, names, o)
    case _ => multiset{}
  }

  function RuleSites(reg: Registry, names: set<string>, rules: seq<Rule>): multiset<Slot> {
    if rules == [] then multiset{}
    else WalkSites(reg, names, rules[0].condition) + RuleSites(reg, names, rules[1..])
  }

  function DefSites(reg: Registry, names: set<string>, funcs: seq<FuncDef>): (r: multiset<Slot>)
    ensures forall s :: s in r ==> s.CallOf?
    decreases |funcs|
  {
    if funcs == [] then multiset{}
    else Sites(reg, names, funcs[0].body, true) + DefSites(reg, names + {funcs[0].name}, funcs[1..])
  }

  function FuncNames(funcs: seq<FuncDef>): set<string> {
    set f | f in funcs :: f.name
  }

  lemma {:induction false} DefsCached(m: Machine, funcs: seq<FuncDef>, st: State)
    ensures var r := EvalDefs(m, funcs, st);
            r.Ret? ==> r.v.reg == m.reg && r.v.ctx == m.ctx && r.v.cache.Keys == m.cache.Keys + FuncNames(funcs)
    decreases |funcs|
  {
    if funcs != [] {
      var p := Eval(m, funcs[0].body, st, true);
      if p.Ret? { DefsCached(m.(cache := m.cache[funcs[0].name := p.v]), funcs[1..], p.st); }
      assert funcs == [funcs[0]] + funcs[1..];
    }
  }

  /** Everything one cycle of a version 2 script can update. */
  function ScriptSites(reg: Registry, s: ScriptV2): multiset<Slot> {
    DefSites(reg, {}, s.funcs) + RuleSites(reg, FuncNames(s.funcs), s.rules)
  }

  /** No crossover or divergence call is reached. */
  predicate Pure(reg: Registry, names: set<string>, e: Expr, top: bool) {
    Sites(reg, names, e, top) == multiset{}
  }

  lemma {:induction false} PureArgs(reg: Registry, names: set<string>, args: seq<Expr>, top: bool)
    requires forall a :: a in args ==> Pure(reg, names, a, top)
    ensures ArgSites(reg, names, args, top) == multiset{}
  {
    if args != [] {
      assert args[0] in args && Pure(reg, names, args[0], top);
      PureArgs(reg, names, args[1..], top);
    }
  }

  // ---- evaluation reads nothing else ----

  predicate AgreeOn(a: State, b: State, ks: set<Slot>) {
    forall s :: s in ks ==> Look(a, s) == Look(b, s)
  }

  predicate Covers(ks: set<Slot>, sites: multiset<Slot>) {
    forall s :: s in sites ==> s in ks
  }

  /** The same outcome, and memories that still agree. */
  predicate Alike<T(==)>(a: Out<T>, b: Out<T>, ks: set<Slot>) {
    a.Ret? == b.Ret? && (a.Ret? ==> a.v == b.v) && AgreeOn(a.st, b.st, ks)
  }

  lemma CrossFrame(st: State, tt: State, key: Key, above: bool, a: Value, b: Value, ks: set<Slot>)
    requires AgreeOn(st, tt, ks) && CallOf(key) in ks
    ensures Alike(CrossStep(st, key, above, a, b), CrossStep(tt, key, above, a, b), ks)
  {
    assert Look(st, CallOf(key)) == Look(tt, CallOf(key));
    var st', tt' := st.(cross := st.cross[key := (a, b)]), tt.(cross := tt.cross[key := (a, b)]);
    forall s | s in ks
      ensures Look(st', s) == Look(tt', s)
    {
      assert Look(st, s) == Look(tt, s);
    }
  }

  lemma DivergenceFrame(
    st: State, tt: State, key: Key, bullish: bool, lookback: int, price: real, indicator: real, ks: set<Slot>)
    requires AgreeOn(st, tt, ks) && CallOf(key) in ks
    ensures Alike(DivergenceStep(st, key, bullish, lookback, price, indicator),
                  DivergenceStep(tt, key, bullish, lookback, price, indicator), ks)
  {
    assert Look(st, CallOf(key)) == Look(tt, CallOf(key));
    var st' := DivergenceStep(st, key, bullish, lookback, price, indicator).st;
    var tt' := DivergenceStep(tt, key, bullish, lookback, price, indicator).st;
    assert st'.history[key] == tt'.history[key];
    forall s | s in ks
      ensures Look(st', s) == Look(tt', s)
    {
      assert Look(st, s) == Look(tt, s);
    }
  }

  lemma OperandCovers(reg: Registry, names: set<string>, e: Expr, top: bool, ks: set<Slot>)
    requires (e.Compare? || e.Binary?) && Covers(ks, Sites(reg, names, e, top))
    ensures Covers(ks, Sites(reg, names, e.left, top)) && Covers(ks, Sites(reg, names, e.right, top))
  {
    assert Sites(reg, names, e, top) == Sites(reg, names, e.left, top) + Sites(reg, names, e.right, top);
  }

  lemma OperandsFrame(m: Machine, e: Expr, st: State, tt: State, top: bool, ks: set<Slot>)
    requires e.Compare? || e.Binary?
    requires Alike(Eval(m, e.left, st, top), Eval(m, e.left, tt, top), ks)
    requires Alike(Eval(m, e.right, Eval(m, e.left, st, top).st, top),
                   Eval(m, e.right, Eval(m, e.left, tt, top).st, top), ks)
    ensures Alike(Eval(m, e, st, top), Eval(m, e, tt, top), ks)
  {
  }

  /** Memories that agree on all entries that `e` can update give the same value. */
  lemma {:induction false} EvalFrame(m: Machine, e: Expr, st: State, tt: State, top: bool, ks: set<Slot>)
    requires AgreeOn(st, tt, ks) && Covers(ks, Sites(m.reg, m.cache.Keys, e, top))
    ensures Alike(Eval(m, e, st, top), Eval(m, e, tt, top), ks)
    decreases top, e, 1
  {
    if e.FuncCall? {
      CallFrame(m, e, st, tt, top, ks);
    } else if e.Compare? || e.Binary? {
      OperandCovers(m.reg, m.cache.Keys, e, top, ks);
      EvalFrame(m, e.left, st, tt, top, ks);
      EvalFrame(m, e.right, Eval(m, e.left, st, top).st, Eval(m, e.left, tt, top).st, top, ks);
      OperandsFrame(m, e, st, tt, top, ks);
    } else if e.Unary? {
      EvalFrame(m, e.operand, st, tt, top, ks);
    }
  }

  lemma BuiltinCall(m: Machine, e: Expr, st: State, top: bool)
    requires e.FuncCall? && e.fn !in m.cache && e.fn !in m.reg.patterns && Remembers(RoleOf(m.reg, e.fn))
    ensures var role := RoleOf(m.reg, e.fn);
            EvalCall(m, e, st, top) ==
            if role == CrossAbove || role == CrossBelow then EvalCross(m, e, st, top, role == CrossAbove)
            else EvalDivergence(m, e, st, top, role == BullishDivergence)
  {
  }

  lemma PlainFrame(m: Machine, e: Expr, st: State, tt: State, top: bool, ks: set<Slot>)
    requires e.FuncCall? && e.fn !in m.cache && e.fn !in m.reg.patterns && !Remembers(RoleOf(m.reg, e.fn))
    requires AgreeOn(st, tt, ks) && Alike(EvalArgs(m, e.args, st, top), EvalArgs(m, e.args, tt, top), ks)
    ensures Alike(EvalCall(m, e, st, top), EvalCall(m, e, tt, top), ks)
  {
  }

  lemma {:induction false} CallFrame(m: Machine, e: Expr, st: State, tt: State, top: bool, ks: set<Slot>)
    requires e.FuncCall? && AgreeOn(st, tt, ks) && Covers(ks, Sites(m.reg, m.cache.Keys, e, top))
    ensures Alike(EvalCall(m, e, st, top), EvalCall(m, e, tt, top), ks)
    decreases top, e, 0
  {
    if e.fn !in m.cache {
      if e.fn in m.reg.patterns {
        if top { EvalFrame(m, m.reg.patterns[e.fn], st, tt, false, ks); }
      } else {
        var role := RoleOf(m.reg, e.fn);
        CallCovers(m, e, top, ks);
        if Remembers(role) {
          BuiltinCall(m, e, st, top);
          BuiltinCall(m, e, tt, top);
          if role == CrossAbove || role == CrossBelow {
            CrossCallFrame(m, e, st, tt, top, role == CrossAbove, ks);
          } else {
            DivergenceCallFrame(m, e, st, tt, top, role == BullishDivergence, ks);
          }
        } else {
          ArgsFrame(m, e.args, st, tt, top, ks);
          PlainFrame(m, e, st, tt, top, ks);
        }
      }
    }
  }

  lemma CallCovers(m: Machine, e: Expr, top: bool, ks: set<Slot>)
    requires e.FuncCall? && e.fn !in m.cache && e.fn !in m.reg.patterns
    requires Covers(ks, Sites(m.reg, m.cache.Keys, e, top))
    ensures Covers(ks, ArgSites(m.reg, m.cache.Keys, e.args, top))
    ensures Remembers(RoleOf(m.reg, e.fn)) ==> CallOf(Key(e.fn, e.args)) in ks
  {
    forall s
      ensures s in ArgSites(m.reg, m.cache.Keys, e.args, top) ==> s in Sites(m.reg, m.cache.Keys, e, top)
    {
      CallSites(m.reg, m.cache.Keys, e, top, s);
    }
    CallSites(m.reg, m.cache.Keys, e, top, CallOf(Key(e.fn, e.args)));
  }

  lemma {:induction false} ArgCovers(m: Machine, args: seq<Expr>, i: nat, top: bool, ks: set<Slot>)
    requires i < |args| && Covers(ks, ArgSites(m.reg, m.cache.Keys, args, top))
    ensures Covers(ks, Sites(m.reg, m.cache.Keys, args[i], top))
  {
    if i > 0 {
      ArgCovers(m, args[1..], i - 1, top, ks);
    }
  }

  lemma {:induction false} ArgsFrame(m: Machine, args: seq<Expr>, st: State, tt: State, top: bool, ks: set<Slot>)
    requires AgreeOn(st, tt, ks) && Covers(ks, ArgSites(m.reg, m.cache.Keys, args, top))
    ensures Alike(EvalArgs(m, args, st, top), EvalArgs(m, args, tt, top), ks)
    decreases top, args, 0
  {
    if args != [] {
      ArgCovers(m, args, 0, top, ks);
      EvalFrame(m, args[0], st, tt, top, ks);
      var p, q := Eval(m, args[0], st, top), Eval(m, args[0], tt, top);
      if p.Ret? && p.v != Null {
        ArgsFrame(m, args[1..], p.st, q.st, top, ks);
      }
    }
  }

  lemma {:induction false} CrossCallFrame(
    m: Machine, e: Expr, st: State, tt: State, top: bool, above: bool, ks: set<Slot>)
    requires e.FuncCall? && AgreeOn(st, tt, ks) && Covers(ks, ArgSites(m.reg, m.cache.Keys, e.args, top))
    requires CallOf(Key(e.fn, e.args)) in ks
    ensures Alike(EvalCross(m, e, st, top, above), EvalCross(m, e, tt, top, above), ks)
    decreases top, e, 0, 0
  {
    if |e.args| == 2 {
      var a, a' := Eval(m, e.args[0], st, top), Eval(m, e.args[0], tt, top);
      ArgCovers(m, e.args, 0, top, ks);
      ArgCovers(m, e.args, 1, top, ks);
      EvalFrame(m, e.args[0], st, tt, top, ks);
      EvalFrame(m, e.args[1], a.st, a'.st, top, ks);
      var s, s' := EvalSides(m, e, st, top), EvalSides(m, e, tt, top);
      assert Alike(s, s', ks);
      if s.Ret? && s.v.Some? {
        CrossFrame(s.st, s'.st, Key(e.fn, e.args), above, s.v.value.0, s.v.value.1, ks);
      }
    }
  }

  lemma TakeFrame(m: Machine, e: Expr, st: State, tt: State, top: bool, ks: set<Slot>)
    requires e.FuncCall? && |e.args| >= 1
    requires Alike(Eval(m, e.args[0], st, top), Eval(m, e.args[0], tt, top), ks)
    requires Alike(EvalLookback(m, e, Eval(m, e.args[0], st, top).st, top),
                   EvalLookback(m, e, Eval(m, e.args[0], tt, top).st, top), ks)
    ensures Alike(EvalReading(m, e, st, top), EvalReading(m, e, tt, top), ks)
  {
  }

  lemma {:induction false} ReadingFrame(m: Machine, e: Expr, st: State, tt: State, top: bool, ks: set<Slot>)
    requires e.FuncCall? && |e.args| >= 1 && AgreeOn(st, tt, ks)
    requires Covers(ks, ArgSites(m.reg, m.cache.Keys, e.args, top))
    ensures Alike(EvalReading(m, e, st, top), EvalReading(m, e, tt, top), ks)
    decreases top, e, 0, 0, 0
  {
    ArgCovers(m, e.args, 0, top, ks);
    EvalFrame(m, e.args[0], st, tt, top, ks);
    if |e.args| >= 2 {
      ArgCovers(m, e.args, 1, top, ks);
      EvalFrame(m, e.args[1], Eval(m, e.args[0], st, top).st, Eval(m, e.args[0], tt, top).st, top, ks);
    }
    TakeFrame(m, e, st, tt, top, ks);
  }

  lemma {:induction false} DivergenceCallFrame(
    m: Machine, e: Expr, st: State, tt: State, top: bool, bullish: bool, ks: set<Slot>)
    requires e.FuncCall? && AgreeOn(st, tt, ks) && Covers(ks, ArgSites(m.reg, m.cache.Keys, e.args, top))
    requires CallOf(Key(e.fn, e.args)) in ks
    ensures Alike(EvalDivergence(m, e, st, top, bullish), EvalDivergence(m, e, tt, top, bullish), ks)
    decreases top, e, 0, 0
  {
    if |e.args| >= 1 {
      ReadingFrame(m, e, st, tt, top, ks);
      var r, r' := EvalReading(m, e, st, top), EvalReading(m, e, tt, top);
      if r.Ret? && r.v.Some? {
        var x := r.v.value;
        DivergenceFrame(r.st, r'.st, Key(e.fn, e.args), bullish, x.lookback, x.price, x.indicator, ks);
      }
    }
  }
}
