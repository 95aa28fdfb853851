/** One strategy cycle, the body of `main` in `scripts/run_strategy.py`: the
    fresh-start or regular opening, covered calls for every stock holding,
    then puts on the allowed symbols within the buying power, the completion
    notice and the save, and the abort path that reports an escaping
    exception and re-raises it. The cycle is proved against `CycleEffects`,
    which gives its broker calls, notifications and logger calls. */
module Cycle {
  import opened Common
  import opened Text
  import opened Broker
  import opened Notifications
  import opened StrategyLog
  import opened BrokerErrors
  import opened Execution

  /** `calculate_risk` and `update_state`, which are not part of this model. */
  datatype StateManager = StateManager(
    calculateRisk: seq<Position> -> real,
    updateState: seq<Position> -> seq<StateEntry>)

  /** The command-line flags the cycle reads. */
  datatype Args = Args(testDiscord: bool, stratLog: bool, freshStart: bool)

  /** What a cycle starts from: the flag, the symbol universe read from the
      symbol file, and `MAX_RISK`. */
  datatype Inputs = Inputs(freshStart: bool, universe: seq<string>, maxRisk: real)

  /** The symbols and the budget the put phase runs with. */
  datatype Plan = Plan(allowed: seq<string>, budget: real)

  const LongShares: string := "long_shares"
  const CycleContext: string := "Strategy execution"

  // ---------------------------------------------------------------------
  // The allowed symbols
  // ---------------------------------------------------------------------

  function Keys(states: seq<StateEntry>): set<string> {
    set e | e in states :: e.symbol
  }

  /** The symbols of `u` not in `excluded`, each once, in order of first occurrence. */
  function Unseen(u: seq<string>, excluded: set<string>): seq<string>
    decreases |u|
  {
    if u == [] then []
    else if u[0] in excluded then Unseen(u[1..], excluded)
    else [u[0]] + Unseen(u[1..], excluded + {u[0]})
  }

  /** `list(set(SYMBOLS).difference(states.keys()))`. Python's set order is
      not modelled: the symbols come in order of first occurrence. */
  function AllowedSymbols(universe: seq<string>, states: seq<StateEntry>): seq<string> {
    Unseen(universe, Keys(states))
  }

  predicate Distinct(s: seq<string>) {
    forall i, j :: 0 <= i < j < |s| ==> s[i] != s[j]
  }

  lemma {:induction false} UnseenSpec(u: seq<string>, excluded: set<string>)
    ensures forall x :: x in Unseen(u, excluded) <==> x in u && x !in excluded
    ensures Distinct(Unseen(u, excluded))
    decreases |u|
  {
    if u != [] {
      if u[0] in excluded {
        UnseenSpec(u[1..], excluded);
        assert forall x :: x in u <==> x == u[0] || x in u[1..];
      } else {
        var rest := Unseen(u[1..], excluded + {u[0]});
        UnseenSpec(u[1..], excluded + {u[0]});
        assert forall x :: x in u <==> x == u[0] || x in u[1..];
        assert Unseen(u, excluded) == [u[0]] + rest;
        forall i, j | 0 <= i < j < |[u[0]] + rest|
          ensures ([u[0]] + rest)[i] != ([u[0]] + rest)[j]
        {
          if i == 0 {
            assert rest[j - 1] in rest;
          } else {
            assert ([u[0]] + rest)[i] == rest[i - 1] && ([u[0]] + rest)[j] == rest[j - 1];
          }
        }
      }
    }
  }

  /** The allowed symbols are exactly the universe's symbols that have no
      state entry, each once. */
  lemma AllowedSymbolsSpec(universe: seq<string>, states: seq<StateEntry>)
    ensures forall x :: x in AllowedSymbols(universe, states) <==>
                          x in universe && forall e :: e in states ==> e.symbol != x
    ensures Distinct(AllowedSymbols(universe, states))
  {
    UnseenSpec(universe, Keys(states));
  }

  // ---------------------------------------------------------------------
  // The effects of one cycle
  // ---------------------------------------------------------------------

  /** A line of the positions summary (`side.title().lower()` is `side.lower()`). */
  function Line(p: Position): PositionLine {
    PositionLine(p.symbol, Lower(p.side), p.qty, p.avgEntryPrice, p.currentPrice, p.unrealizedPl)
  }

  function Lines(ps: seq<Position>): seq<PositionLine> {
    seq(|ps|, i requires 0 <= i < |ps| => Line(ps[i]))
  }

  /** The regular opening up to the covered calls: read the positions, log
      them, report them when there are any, and log the state entries. */
  function ReviewEffects(sm: StateManager, o: Oracle): Effects {
    var ps := o.positions;
    Effects([BrokerCall.GetPositions], if ps == [] then [] else [PositionUpdate(Lines(ps))],
            [LogEvent.AddCurrentPositions(ps), LogEvent.AddStateDict(sm.updateState(ps))], 0, 0.0, None)
  }

  /** The `for symbol, state in states.items()` loop after `acc`, its first
      broker call being number n: `sell_calls` for each stock holding, until
      one raises. */
  function CallsFrom(acc: Effects, sel: Selector, json: JsonOracle, o: Oracle, n: nat,
                     states: seq<StateEntry>): Effects
    decreases |states|
  {
    if states == [] || acc.raised.Some? then acc
    else if states[0].kind != LongShares then CallsFrom(acc, sel, json, o, n, states[1..])
    else
      var s := states[0];
      var e := CallEffects(sel, json, o, n, s.symbol, s.price, s.qty);
      CallsFrom(Extend(acc, e), sel, json, o, n + |e.calls|, states[1..])
  }

  /** The covered calls of the regular opening, from broker call n + 1 on. */
  function CallsPhase(sel: Selector, json: JsonOracle, sm: StateManager, o: Oracle, n: nat): Effects {
    CallsFrom(NoEffects, sel, json, o, n + 1, sm.updateState(o.positions))
  }

  /** The budget and the symbols of the put phase. */
  function PlanOf(c: Inputs, sm: StateManager, o: Oracle): Plan {
    if c.freshStart then Plan(c.universe, c.maxRisk)
    else
      var ps := o.positions;
      Plan(AllowedSymbols(c.universe, sm.updateState(ps)), c.maxRisk - sm.calculateRisk(ps))
  }

  /** The cycle up to the put phase, the covered calls having had effects `calls`. */
  function OpeningWith(c: Inputs, sm: StateManager, o: Oracle, calls: Effects): Effects {
    if c.freshStart then
      Effects([BrokerCall.LiquidateAllPositions], [StartupMessage(true, c.maxRisk, c.universe)], [], 0, 0.0, None)
    else
      var pre := Extend(ReviewEffects(sm, o), calls);
      if pre.raised.Some? then pre
      else
        var p := PlanOf(c, sm, o);
        Extend(pre, NoEffects.(notes := [StartupMessage(false, p.budget, p.allowed)]))
  }

  /** The put phase on plan `p`, `sell_puts` having had effects `puts`:
      record the plan, then the completion notice and the save unless
      `sell_puts` raised. The summary `sell_puts` fills starts at zeros. */
  function PutsPhaseWith(p: Plan, puts: Effects): Effects {
    var record := NoEffects.(logged := [LogEvent.SetBuyingPower(p.budget), LogEvent.SetAllowedSymbols(p.allowed)]);
    var done := Extend(record, puts);
    if puts.raised.Some? then done
    else Extend(done, NoEffects.(notes := [CompletionMessage(Summary(puts.putsSold, 0, puts.premium))],
                                 logged := [LogEvent.Save]))
  }

  /** The `except` clause: an escaping exception is reported and re-raised. */
  function Reported(b: Effects): Effects {
    if b.raised.Some? then b.(notes := b.notes + [ErrorNotification(b.raised.value.message, CycleContext)])
    else b
  }

  /** The cycle from the effects of its covered calls and of `sell_puts`. */
  function Assemble(c: Inputs, sm: StateManager, o: Oracle, calls: Effects, puts: Effects): Effects {
    var op := OpeningWith(c, sm, o, calls);
    Reported(if op.raised.Some? then op else Extend(op, PutsPhaseWith(PlanOf(c, sm, o), puts)))
  }

  function Opening(c: Inputs, sel: Selector, json: JsonOracle, sm: StateManager, o: Oracle, n: nat): Effects {
    OpeningWith(c, sm, o, CallsPhase(sel, json, sm, o, n))
  }

  function PutsPhase(sel: Selector, json: JsonOracle, o: Oracle, n: nat, p: Plan): Effects {
    PutsPhaseWith(p, PutsEffects(sel, json, o, n, p.allowed, p.budget))
  }

  /** The whole cycle when its first broker call is number n. */
  function CycleEffects(c: Inputs, sel: Selector, json: JsonOracle, sm: StateManager, o: Oracle, n: nat): Effects {
    var p := PlanOf(c, sm, o);
    var m := n + |Opening(c, sel, json, sm, o, n).calls|;
    Assemble(c, sm, o, CallsPhase(sel, json, sm, o, n), PutsEffects(sel, json, o, m, p.allowed, p.budget))
  }

  // ---------------------------------------------------------------------
  // Facts about the phases
  // ---------------------------------------------------------------------

  /** A broker request listing the options of the given right. */
  predicate Lists(b: BrokerCall, r: Right) {
    b.GetOptionsContracts? && b.right == r
  }

  /** The listings of options of right `r` among `calls`, in order. */
  function Listings(calls: seq<BrokerCall>, r: Right): seq<BrokerCall> {
    if calls == [] then []
    else (if Lists(calls[0], r) then [calls[0]] else []) + Listings(calls[1..], r)
  }

  lemma {:induction false} ListingsAppend(a: seq<BrokerCall>, b: seq<BrokerCall>, r: Right)
    ensures Listings(a + b, r) == Listings(a, r) + Listings(b, r)
    decreases |a|
  {
    if a == [] {
      assert a + b == b;
    } else {
      assert (a + b)[0] == a[0] && (a + b)[1..] == a[1..] + b;
      ListingsAppend(a[1..], b, r);
    }
  }

  lemma {:induction false} ListingsNone(calls: seq<BrokerCall>, r: Right)
    requires Listings(calls, r) == []
    ensures forall i :: 0 <= i < |calls| ==> !Lists(calls[i], r)
    decreases |calls|
  {
    if calls != [] {
      ListingsNone(calls[1..], r);
      assert forall i :: 1 <= i < |calls| ==> calls[i] == calls[1..][i - 1];
    }
  }

  /** When `front` lists no puts and `back` no calls, every call listing of
      `front + back` comes before every put listing. */
  lemma ListingsOrdered(front: seq<BrokerCall>, back: seq<BrokerCall>)
    requires Listings(front, Put) == [] && Listings(back, Call) == []
    ensures var s := front + back;
      forall i, j :: 0 <= i < |s| && 0 <= j < |s| && Lists(s[i], Call) && Lists(s[j], Put) ==> i < j
  {
    var s := front + back;
    ListingsNone(front, Put);
    ListingsNone(back, Call);
    forall i | |front| <= i < |s|
      ensures !Lists(s[i], Call)
    {
      assert s[i] == back[i - |front|];
    }
    forall j | 0 <= j < |front|
      ensures !Lists(s[j], Put)
    {
      assert s[j] == front[j];
    }
  }

  /** The listings one covered call per stock holding makes, in order. */
  function HoldingListings(states: seq<StateEntry>): seq<BrokerCall> {
    if states == [] then []
    else (if states[0].kind == LongShares then [BrokerCall.GetOptionsContracts([states[0].symbol], Call)] else [])
         + HoldingListings(states[1..])
  }

  /** The number of saves among the logger calls. */
  function Saves(logged: seq<LogEvent>): nat {
    if logged == [] then 0 else (if logged[0].Save? then 1 else 0) + Saves(logged[1..])
  }

  /** The number of completion notices among the notifications. */
  function Completions(notes: seq<Notification>): nat {
    if notes == [] then 0 else (if notes[0].CompletionMessage? then 1 else 0) + Completions(notes[1..])
  }

  lemma {:induction false} SavesAppend(a: seq<LogEvent>, b: seq<LogEvent>)
    ensures Saves(a + b) == Saves(a) + Saves(b)
    decreases |a|
  {
    if a == [] {
      assert a + b == b;
    } else {
      assert (a + b)[0] == a[0] && (a + b)[1..] == a[1..] + b;
      SavesAppend(a[1..], b);
    }
  }

  lemma {:induction false} CompletionsAppend(a: seq<Notification>, b: seq<Notification>)
    ensures Completions(a + b) == Completions(a) + Completions(b)
    decreases |a|
  {
    if a == [] {
      assert a + b == b;
    } else {
      assert (a + b)[0] == a[0] && (a + b)[1..] == a[1..] + b;
      CompletionsAppend(a[1..], b);
    }
  }

  lemma ListingsOne(b: BrokerCall, r: Right)
    ensures Listings([b], r) == if Lists(b, r) then [b] else []
  {
    assert [b][1..] == [];
  }

  lemma SavesOne(x: LogEvent)
    ensures Saves([x]) == if x.Save? then 1 else 0
  {
    assert [x][1..] == [];
  }

  lemma CompletionsOne(x: Notification)
    ensures Completions([x]) == if x.CompletionMessage? then 1 else 0
  {
    assert [x][1..] == [];
  }

  /** No save and no completion notice. */
  predicate Quiet(e: Effects) {
    Saves(e.logged) == 0 && Completions(e.notes) == 0
  }

  lemma QuietExtend(a: Effects, b: Effects)
    requires Quiet(a) && Quiet(b)
    ensures Quiet(Extend(a, b))
  {
    SavesAppend(a.logged, b.logged);
    CompletionsAppend(a.notes, b.notes);
  }

  /** The effects of a phase that lists no calls, saves nothing and sends no
      completion notice. */
  predicate PutSide(e: Effects) {
    Listings(e.calls, Call) == [] && Quiet(e)
  }

  /** The effects of a phase that lists no puts, sells no put, saves nothing
      and sends no completion notice. */
  predicate CallSide(e: Effects) {
    Listings(e.calls, Put) == [] && Quiet(e) && e.putsSold == 0 && e.premium == 0.0
  }

  lemma PutSideExtend(a: Effects, b: Effects)
    requires PutSide(a) && PutSide(b)
    ensures PutSide(Extend(a, b))
  {
    ListingsAppend(a.calls, b.calls, Call);
    QuietExtend(a, b);
  }

  lemma CallSideExtend(a: Effects, b: Effects)
    requires CallSide(a) && CallSide(b)
    ensures CallSide(Extend(a, b))
  {
    ListingsAppend(a.calls, b.calls, Put);
    QuietExtend(a, b);
  }

  lemma PutAttemptSide(o: Oracle, json: JsonOracle, n: nat, p: Contract)
    ensures PutSide(PutAttempt(o, json, n, p))
  {
    var a := PutAttempt(o, json, n, p);
    ListingsOne(BrokerCall.MarketSell(p.symbol), Call);
    if a.logged != [] {
      assert a.logged == [LogEvent.LogSoldPuts([p])];
      SavesOne(a.logged[0]);
    }
    if a.notes != [] {
      assert a.notes == [a.notes[0]] && !a.notes[0].CompletionMessage?;
      CompletionsOne(a.notes[0]);
    }
  }

  lemma CallAttemptSide(o: Oracle, json: JsonOracle, n: nat, symbol: string, c: Contract)
    ensures CallSide(CallAttempt(o, json, n, symbol, c))
    ensures Listings(CallAttempt(o, json, n, symbol, c).calls, Call) == []
  {
    var a := CallAttempt(o, json, n, symbol, c);
    assert a.calls == [BrokerCall.MarketSell(c.symbol)];
    ListingsOne(BrokerCall.MarketSell(c.symbol), Call);
    ListingsOne(BrokerCall.MarketSell(c.symbol), Put);
    if a.logged != [] {
      assert a.logged == [LogEvent.LogSoldCall(c)];
      SavesOne(a.logged[0]);
    }
    if a.notes != [] {
      assert a.notes == [a.notes[0]] && !a.notes[0].CompletionMessage?;
      CompletionsOne(a.notes[0]);
    }
  }

  lemma {:induction false} PutLoopSide(o: Oracle, json: JsonOracle, n: nat, bp: real, ps: seq<Contract>)
    ensures PutSide(PutLoop(o, json, n, bp, ps))
    decreases |ps|
  {
    if ps != [] && bp - 100.0 * ps[0].strike >= 0.0 {
      var a := PutAttempt(o, json, n, ps[0]);
      PutLoopSide(o, json, n + 1, bp - 100.0 * ps[0].strike, ps[1..]);
      PutAttemptSide(o, json, n, ps[0]);
      if a.raised.None? {
        PutSideExtend(a, PutLoop(o, json, n + 1, bp - 100.0 * ps[0].strike, ps[1..]));
      }
    }
  }

  /** `sell_puts` lists no calls, saves nothing and sends no completion notice. */
  lemma PutsPhaseFacts(sel: Selector, json: JsonOracle, o: Oracle, n: nat, allowed: seq<string>, bp: real)
    ensures PutSide(PutsEffects(sel, json, o, n, allowed, bp))
  {
    if allowed != [] && bp > 0.0 {
      var filtered := sel.filterUnderlying(allowed, bp);
      var lf := NoEffects.(logged := [LogEvent.SetFilteredSymbols(filtered)]);
      SavesOne(LogEvent.SetFilteredSymbols(filtered));
      if filtered != [] {
        var puts := PutCandidates(sel, o, filtered);
        var f := FetchEffects(sel, o, filtered);
        assert PutSide(f) by {
          ListingsOne(f.calls[0], Call);
          ListingsOne(f.calls[1], Call);
          ListingsAppend([f.calls[0]], [f.calls[1]], Call);
          assert f.calls == [f.calls[0]] + [f.calls[1]];
          SavesOne(f.logged[0]);
        }
        if puts != [] {
          var chosen := sel.selectOptions(puts, sel.scoreOptions(puts));
          PutLoopSide(o, json, n + 2, bp, chosen);
          PutSideExtend(f, PutLoop(o, json, n + 2, bp, chosen));
        }
        PutSideExtend(lf, CandidatesEffects(sel, json, o, n, filtered, bp));
      }
    }
  }

  /** `sell_calls` is on the call side; when it raises nothing it has listed
      the calls of its symbol exactly once. */
  lemma CallEffectsFacts(sel: Selector, json: JsonOracle, o: Oracle, n: nat, symbol: string, price: real, qty: int)
    ensures CallSide(CallEffects(sel, json, o, n, symbol, price, qty))
    ensures var e := CallEffects(sel, json, o, n, symbol, price, qty);
      e.raised.None? ==> Listings(e.calls, Call) == [BrokerCall.GetOptionsContracts([symbol], Call)]
  {
    var e := CallEffects(sel, json, o, n, symbol, price, qty);
    if qty < 100 {
      CompletionsOne(e.notes[0]);
    } else {
      var l := BrokerCall.GetOptionsContracts([symbol], Call);
      var cands := CallCandidates(sel, o, symbol, price);
      var head := Effects([l], [], [LogEvent.LogCallOptions(cands)], 0, 0.0, None);
      ListingsOne(l, Put);
      ListingsOne(l, Call);
      SavesOne(LogEvent.LogCallOptions(cands));
      var tail: Effects;
      if cands == [] {
        tail := NoEffects;
      } else {
        var scores := sel.scoreOptions(cands);
        if scores == [] {
          tail := Raise(Exception(ValueError, EmptyArgmaxMessage));
        } else if Argmax(scores) >= |cands| {
          tail := Raise(Exception(IndexError, IndexErrorMessage));
        } else {
          var k := Argmax(scores);
          tail := CallAttempt(o, json, n + 1, symbol, cands[k]);
          CallAttemptSide(o, json, n + 1, symbol, cands[k]);
        }
      }
      assert e == Extend(head, tail);
      CallSideExtend(head, tail);
      ListingsAppend(head.calls, tail.calls, Call);
    }
  }

  /** Once raised, the exception stays. */
  lemma {:induction false} CallsFromKeepsRaise(acc: Effects, sel: Selector, json: JsonOracle, o: Oracle, n: nat,
                                               states: seq<StateEntry>)
    ensures acc.raised.Some? ==> CallsFrom(acc, sel, json, o, n, states) == acc
    ensures CallsFrom(acc, sel, json, o, n, states).raised.None? ==> acc.raised.None?
    decreases |states|
  {
    if states != [] && acc.raised.None? {
      var s := states[0];
      if s.kind != LongShares {
        CallsFromKeepsRaise(acc, sel, json, o, n, states[1..]);
      } else {
        var e := CallEffects(sel, json, o, n, s.symbol, s.price, s.qty);
        CallsFromKeepsRaise(Extend(acc, e), sel, json, o, n + |e.calls|, states[1..]);
      }
    }
  }

  /** The covered-calls loop stays on the call side. */
  lemma {:induction false} CallsFromSide(acc: Effects, sel: Selector, json: JsonOracle, o: Oracle, n: nat,
                                         states: seq<StateEntry>)
    requires CallSide(acc)
    ensures CallSide(CallsFrom(acc, sel, json, o, n, states))
    decreases |states|
  {
    if states != [] && acc.raised.None? {
      var s := states[0];
      var rest := states[1..];
      if s.kind != LongShares {
        CallsFromSide(acc, sel, json, o, n, rest);
      } else {
        var e := CallEffects(sel, json, o, n, s.symbol, s.price, s.qty);
        var acc' := Extend(acc, e);
        var m := n + |e.calls|;
        assert CallsFrom(acc, sel, json, o, n, states) == CallsFrom(acc', sel, json, o, m, rest);
        CallEffectsFacts(sel, json, o, n, s.symbol, s.price, s.qty);
        CallSideExtend(acc, e);
        CallsFromSide(acc', sel, json, o, m, rest);
      }
    }
  }

  /** When the covered-calls loop raises nothing, it has run `sell_calls`
      once for each stock holding, in order, and for no other state. */
  lemma {:induction false} CallsFromListings(acc: Effects, sel: Selector, json: JsonOracle, o: Oracle, n: nat,
                                             states: seq<StateEntry>)
    ensures var e := CallsFrom(acc, sel, json, o, n, states);
      e.raised.None? ==> Listings(e.calls, Call) == Listings(acc.calls, Call) + HoldingListings(states)
    decreases |states|
  {
    var r := CallsFrom(acc, sel, json, o, n, states);
    if states == [] {
      assert Listings(acc.calls, Call) + [] == Listings(acc.calls, Call);
    } else if acc.raised.None? {
      var s := states[0];
      var rest := states[1..];
      if s.kind != LongShares {
        assert HoldingListings(states) == HoldingListings(rest);
        CallsFromListings(acc, sel, json, o, n, rest);
      } else {
        var l := BrokerCall.GetOptionsContracts([s.symbol], Call);
        var e := CallEffects(sel, json, o, n, s.symbol, s.price, s.qty);
        var acc' := Extend(acc, e);
        var m := n + |e.calls|;
        var r' := CallsFrom(acc', sel, json, o, m, rest);
        assert r == r';
        assert HoldingListings(states) == [l] + HoldingListings(rest);
        CallsFromListings(acc', sel, json, o, m, rest);
        CallsFromKeepsRaise(acc', sel, json, o, m, rest);
        CallEffectsFacts(sel, json, o, n, s.symbol, s.price, s.qty);
        ListingsAppend(acc.calls, e.calls, Call);
        ListingsTail(Listings(acc.calls, Call), l, HoldingListings(rest));
      }
    }
  }

  lemma ListingsTail(a: seq<BrokerCall>, l: BrokerCall, b: seq<BrokerCall>)
    ensures (a + [l]) + b == a + ([l] + b)
  {
  }

  /** The covered calls of a regular opening are on the call side and, when
      they raise nothing, list the calls of each stock holding once, in order. */
  lemma CallsPhaseFacts(sel: Selector, json: JsonOracle, sm: StateManager, o: Oracle, n: nat)
    ensures CallSide(CallsPhase(sel, json, sm, o, n))
    ensures CallsPhase(sel, json, sm, o, n).raised.None? ==>
              Listings(CallsPhase(sel, json, sm, o, n).calls, Call) == HoldingListings(sm.updateState(o.positions))
  {
    CallsFromSide(NoEffects, sel, json, o, n + 1, sm.updateState(o.positions));
    CallsFromListings(NoEffects, sel, json, o, n + 1, sm.updateState(o.positions));
  }

  // ---------------------------------------------------------------------
  // The cycle from its phases
  // ---------------------------------------------------------------------

  /** The opening is on the call side when its covered calls are. */
  lemma OpeningFacts(c: Inputs, sm: StateManager, o: Oracle, calls: Effects)
    requires CallSide(calls)
    ensures CallSide(OpeningWith(c, sm, o, calls))
  {
    var op := OpeningWith(c, sm, o, calls);
    if c.freshStart {
      ListingsOne(BrokerCall.LiquidateAllPositions, Put);
      CompletionsOne(StartupMessage(true, c.maxRisk, c.universe));
    } else {
      var r := ReviewEffects(sm, o);
      assert CallSide(r) by {
        ListingsOne(BrokerCall.GetPositions, Put);
        SavesOne(r.logged[0]);
        SavesOne(r.logged[1]);
        SavesAppend([r.logged[0]], [r.logged[1]]);
        assert r.logged == [r.logged[0]] + [r.logged[1]];
        if r.notes != [] {
          CompletionsOne(r.notes[0]);
        }
      }
      CallSideExtend(r, calls);
      var pre := Extend(r, calls);
      if pre.raised.None? {
        var p := PlanOf(c, sm, o);
        var note := NoEffects.(notes := [StartupMessage(false, p.budget, p.allowed)]);
        CompletionsOne(note.notes[0]);
        CallSideExtend(pre, note);
      }
    }
  }

  /** Exactly one completion notice, whose summary counts the puts sold and
      no call, is the last notification, and exactly one save is the last
      logger call. */
  predicate Completed(e: Effects) {
    && |e.notes| > 0 && e.notes[|e.notes| - 1] == CompletionMessage(Summary(e.putsSold, 0, e.premium))
    && Completions(e.notes) == 1
    && |e.logged| > 0 && e.logged[|e.logged| - 1] == LogEvent.Save && Saves(e.logged) == 1
  }

  /** How a cycle ends: a raised exception is reported last, in the strategy
      context, with neither a save nor a completion notice; otherwise the
      cycle has completed. */
  predicate Concluded(e: Effects) {
    && (e.raised.Some? ==>
          && |e.notes| > 0 && e.notes[|e.notes| - 1] == ErrorNotification(e.raised.value.message, CycleContext)
          && Quiet(e))
    && (e.raised.None? ==> Completed(e))
  }

  /** The put phase completes unless `sell_puts` raises, and is quiet then. */
  lemma PutsPhaseOutcome(p: Plan, puts: Effects)
    requires Quiet(puts)
    ensures var ph := PutsPhaseWith(p, puts);
      && ph.calls == puts.calls && ph.raised == puts.raised
      && (puts.raised.Some? ==> Quiet(ph))
      && (puts.raised.None? ==> Completed(ph))
  {
    var record := NoEffects.(logged := [LogEvent.SetBuyingPower(p.budget), LogEvent.SetAllowedSymbols(p.allowed)]);
    assert Quiet(record) by {
      SavesOne(record.logged[0]);
      SavesOne(record.logged[1]);
      SavesAppend([record.logged[0]], [record.logged[1]]);
      assert record.logged == [record.logged[0]] + [record.logged[1]];
    }
    QuietExtend(record, puts);
    var done := Extend(record, puts);
    if puts.raised.None? {
      var tail := NoEffects.(notes := [CompletionMessage(Summary(puts.putsSold, 0, puts.premium))],
                             logged := [LogEvent.Save]);
      SavesOne(LogEvent.Save);
      CompletionsOne(tail.notes[0]);
      SavesAppend(done.logged, tail.logged);
      CompletionsAppend(done.notes, tail.notes);
    }
  }

  lemma ExtendCompleted(a: Effects, b: Effects)
    requires CallSide(a) && Completed(b)
    ensures Completed(Extend(a, b))
  {
    SavesAppend(a.logged, b.logged);
    CompletionsAppend(a.notes, b.notes);
  }

  lemma ReportedConcluded(b: Effects)
    requires b.raised.Some? ==> Quiet(b)
    requires b.raised.None? ==> Completed(b)
    ensures Concluded(Reported(b))
  {
    if b.raised.Some? {
      var err := ErrorNotification(b.raised.value.message, CycleContext);
      CompletionsOne(err);
      CompletionsAppend(b.notes, [err]);
    }
  }

  lemma AssembleOutcome(c: Inputs, sm: StateManager, o: Oracle, calls: Effects, puts: Effects)
    requires CallSide(calls) && Quiet(puts)
    ensures Concluded(Assemble(c, sm, o, calls, puts))
  {
    var op := OpeningWith(c, sm, o, calls);
    OpeningFacts(c, sm, o, calls);
    if op.raised.Some? {
      ReportedConcluded(op);
    } else {
      var ph := PutsPhaseWith(PlanOf(c, sm, o), puts);
      PutsPhaseOutcome(PlanOf(c, sm, o), puts);
      if puts.raised.None? {
        ExtendCompleted(op, ph);
      } else {
        QuietExtend(op, ph);
      }
      ReportedConcluded(Extend(op, ph));
    }
  }

  /** The broker calls of a cycle: those of its opening, then those of
      `sell_puts` unless the opening raised. */
  lemma AssembleCalls(c: Inputs, sm: StateManager, o: Oracle, calls: Effects, puts: Effects)
    ensures var op := OpeningWith(c, sm, o, calls);
      Assemble(c, sm, o, calls, puts).calls == op.calls + (if op.raised.Some? then [] else puts.calls)
  {
    var op := OpeningWith(c, sm, o, calls);
    if op.raised.Some? {
      assert op.calls + [] == op.calls;
    }
  }

  /** The broker calls of a cycle are a part that lists no puts followed by
      a part that lists no calls. */
  lemma AssembleOrder(c: Inputs, sm: StateManager, o: Oracle, calls: Effects, puts: Effects)
    returns (front: seq<BrokerCall>, back: seq<BrokerCall>)
    requires CallSide(calls) && Listings(puts.calls, Call) == []
    ensures Assemble(c, sm, o, calls, puts).calls == front + back
    ensures Listings(front, Put) == [] && Listings(back, Call) == []
  {
    var op := OpeningWith(c, sm, o, calls);
    OpeningFacts(c, sm, o, calls);
    AssembleCalls(c, sm, o, calls, puts);
    front := op.calls;
    back := if op.raised.Some? then [] else puts.calls;
  }

  lemma AssembleListings(c: Inputs, sm: StateManager, o: Oracle, calls: Effects, puts: Effects)
    requires !c.freshStart && calls.raised.None? && Listings(puts.calls, Call) == []
    ensures Listings(Assemble(c, sm, o, calls, puts).calls, Call) == Listings(calls.calls, Call)
  {
    var r := ReviewEffects(sm, o);
    var op := OpeningWith(c, sm, o, calls);
    OpeningCalls(c, sm, o, calls);
    ListingsAppend(r.calls, calls.calls, Call);
    ListingsOne(BrokerCall.GetPositions, Call);
    ListingsAppend(op.calls, puts.calls, Call);
    assert Assemble(c, sm, o, calls, puts).calls == op.calls + puts.calls;
  }

  lemma OpeningCalls(c: Inputs, sm: StateManager, o: Oracle, calls: Effects)
    requires !c.freshStart
    ensures OpeningWith(c, sm, o, calls).calls == ReviewEffects(sm, o).calls + calls.calls
  {
    var pre := Extend(ReviewEffects(sm, o), calls);
    assert pre.calls + [] == pre.calls;
  }

  /** The fresh-start plan: liquidate first, announce the whole budget and
      universe, and record them as the put phase's plan. */
  predicate FreshPlanned(e: Effects, c: Inputs, puts: Effects) {
    && e.calls == [BrokerCall.LiquidateAllPositions] + puts.calls
    && |e.notes| > 0 && e.notes[0] == StartupMessage(true, c.maxRisk, c.universe)
    && |e.logged| >= 2 && e.logged[..2] == [LogEvent.SetBuyingPower(c.maxRisk), LogEvent.SetAllowedSymbols(c.universe)]
  }

  /** The regular plan after the opening `pre` that raised nothing: the
      startup notice follows its notices with plan `p`, `p` is recorded right
      after its logger calls, and its broker calls are followed by those of
      the put phase `puts` and no others. */
  predicate RegularPlanned(e: Effects, pre: Effects, p: Plan, puts: Effects) {
    && |e.notes| > |pre.notes| && e.notes[|pre.notes|] == StartupMessage(false, p.budget, p.allowed)
    && |e.logged| >= |pre.logged| + 2
    && e.logged[|pre.logged|..|pre.logged| + 2] == [LogEvent.SetBuyingPower(p.budget), LogEvent.SetAllowedSymbols(p.allowed)]
    && e.calls == pre.calls + puts.calls
  }

  lemma AssembleFresh(c: Inputs, sm: StateManager, o: Oracle, calls: Effects, puts: Effects)
    requires c.freshStart
    ensures FreshPlanned(Assemble(c, sm, o, calls, puts), c, puts)
  {
    var p := PlanOf(c, sm, o);
    var op := OpeningWith(c, sm, o, calls);
    var ph := PutsPhaseWith(p, puts);
    var e := Assemble(c, sm, o, calls, puts);
    assert ph.calls == puts.calls && ph.logged[..2] == [LogEvent.SetBuyingPower(p.budget), LogEvent.SetAllowedSymbols(p.allowed)];
    assert e.calls == op.calls + ph.calls && e.logged == op.logged + ph.logged && e.notes[..|op.notes|] == op.notes;
  }

  lemma AssembleRegular(c: Inputs, sm: StateManager, o: Oracle, calls: Effects, puts: Effects)
    requires !c.freshStart && calls.raised.None?
    ensures RegularPlanned(Assemble(c, sm, o, calls, puts), Extend(ReviewEffects(sm, o), calls), PlanOf(c, sm, o), puts)
  {
    var p := PlanOf(c, sm, o);
    var pre := Extend(ReviewEffects(sm, o), calls);
    var op := OpeningWith(c, sm, o, calls);
    var ph := PutsPhaseWith(p, puts);
    var e := Assemble(c, sm, o, calls, puts);
    assert ph.calls == puts.calls && ph.logged[..2] == [LogEvent.SetBuyingPower(p.budget), LogEvent.SetAllowedSymbols(p.allowed)];
    assert op.logged == pre.logged && op.calls == pre.calls && op.notes == pre.notes + [StartupMessage(false, p.budget, p.allowed)];
    assert e.calls == op.calls + ph.calls && e.logged == op.logged + ph.logged && e.notes[..|op.notes|] == op.notes;
    assert e.logged[|op.logged|..|op.logged| + 2] == ph.logged[..2];
  }

  /** A regular opening raising before the put phase begins with reading the positions. */
  lemma AssembleRegularStart(c: Inputs, sm: StateManager, o: Oracle, calls: Effects, puts: Effects)
    requires !c.freshStart
    ensures Assemble(c, sm, o, calls, puts).calls[0] == BrokerCall.GetPositions
  {
    var op := OpeningWith(c, sm, o, calls);
    assert op.calls[0] == BrokerCall.GetPositions;
    var b := if op.raised.Some? then op else Extend(op, PutsPhaseWith(PlanOf(c, sm, o), puts));
    assert b.calls[0] == BrokerCall.GetPositions;
  }

  /** `CycleEffects` is `Assemble` on the covered calls and on a `sell_puts`
      on the put side. */
  lemma CyclePuts(c: Inputs, sel: Selector, json: JsonOracle, sm: StateManager, o: Oracle, n: nat)
    returns (puts: Effects)
    ensures CycleEffects(c, sel, json, sm, o, n) == Assemble(c, sm, o, CallsPhase(sel, json, sm, o, n), puts)
    ensures PutSide(puts)
  {
    var calls;
    calls, puts := CycleAssembled(c, sel, json, sm, o, n);
    PutsPhaseFacts(sel, json, o, n + |Opening(c, sel, json, sm, o, n).calls|,
                   PlanOf(c, sm, o).allowed, PlanOf(c, sm, o).budget);
  }

  /** `CycleEffects` is `Assemble` on the covered calls and `sell_puts`,
      with what is known of each. */
  lemma CycleParts(c: Inputs, sel: Selector, json: JsonOracle, sm: StateManager, o: Oracle, n: nat)
    returns (calls: Effects, puts: Effects)
    ensures CycleEffects(c, sel, json, sm, o, n) == Assemble(c, sm, o, calls, puts)
    ensures calls == CallsPhase(sel, json, sm, o, n)
    ensures CallSide(calls) && PutSide(puts)
    ensures calls.raised.None? ==> Listings(calls.calls, Call) == HoldingListings(sm.updateState(o.positions))
  {
    calls := CallsPhase(sel, json, sm, o, n);
    puts := CyclePuts(c, sel, json, sm, o, n);
    CallsPhaseFacts(sel, json, sm, o, n);
  }

  /** `CycleEffects` is `Assemble` on the two phases it runs. */
  lemma CycleAssembled(c: Inputs, sel: Selector, json: JsonOracle, sm: StateManager, o: Oracle, n: nat)
    returns (calls: Effects, puts: Effects)
    ensures calls == CallsPhase(sel, json, sm, o, n)
    ensures puts == PutsEffects(sel, json, o, n + |Opening(c, sel, json, sm, o, n).calls|,
                                PlanOf(c, sm, o).allowed, PlanOf(c, sm, o).budget)
    ensures CycleEffects(c, sel, json, sm, o, n) == Assemble(c, sm, o, calls, puts)
  {
    calls := CallsPhase(sel, json, sm, o, n);
    puts := PutsEffects(sel, json, o, n + |Opening(c, sel, json, sm, o, n).calls|,
                        PlanOf(c, sm, o).allowed, PlanOf(c, sm, o).budget);
  }

  // ---------------------------------------------------------------------
  // Properties of the cycle
  // ---------------------------------------------------------------------

  /** In fresh-start mode the positions are liquidated first, the startup
      notice reports the whole budget and universe, and the put phase runs on
      exactly those. */
  lemma FreshStartPlan(c: Inputs, sel: Selector, json: JsonOracle, sm: StateManager, o: Oracle, n: nat)
    requires c.freshStart
    ensures FreshPlanned(CycleEffects(c, sel, json, sm, o, n), c, PutsEffects(sel, json, o, n + 1, c.universe, c.maxRisk))
  {
    var calls, puts := CycleAssembled(c, sel, json, sm, o, n);
    AssembleFresh(c, sm, o, CallsPhase(sel, json, sm, o, n), PutsEffects(sel, json, o, n + 1, c.universe, c.maxRisk));
  }

  /** In regular mode the positions are read first. */
  lemma RegularStart(c: Inputs, sel: Selector, json: JsonOracle, sm: StateManager, o: Oracle, n: nat)
    requires !c.freshStart
    ensures CycleEffects(c, sel, json, sm, o, n).calls[0] == BrokerCall.GetPositions
  {
    var calls, puts := CycleParts(c, sel, json, sm, o, n);
    AssembleRegularStart(c, sm, o, calls, puts);
  }

  /** In regular mode, when the covered calls raise nothing, the startup
      notice follows their notices with the budget
      `MAX_RISK - calculate_risk(positions)` and the allowed symbols, the
      plan is logged right after the calls phase's logger calls, and the put
      phase runs on exactly that plan. */
  lemma RegularPlan(c: Inputs, sel: Selector, json: JsonOracle, sm: StateManager, o: Oracle, n: nat)
    requires !c.freshStart
    ensures var pre := Extend(ReviewEffects(sm, o), CallsPhase(sel, json, sm, o, n));
      var p := Plan(AllowedSymbols(c.universe, sm.updateState(o.positions)), c.maxRisk - sm.calculateRisk(o.positions));
      pre.raised.None? ==>
        RegularPlanned(CycleEffects(c, sel, json, sm, o, n), pre, p,
                       PutsEffects(sel, json, o, n + |pre.calls|, p.allowed, p.budget))
  {
    var calls, puts := RegularParts(c, sel, json, sm, o, n);
    if calls.raised.None? {
      AssembleRegular(c, sm, o, calls, puts);
    }
  }

  /** `CycleEffects` in regular mode is `Assemble` on the covered calls and
      on `sell_puts` starting right after them. */
  lemma RegularParts(c: Inputs, sel: Selector, json: JsonOracle, sm: StateManager, o: Oracle, n: nat)
    returns (calls: Effects, puts: Effects)
    requires !c.freshStart
    ensures calls == CallsPhase(sel, json, sm, o, n)
    ensures CycleEffects(c, sel, json, sm, o, n) == Assemble(c, sm, o, calls, puts)
    ensures puts == PutsEffects(sel, json, o, n + |Extend(ReviewEffects(sm, o), calls).calls|,
                                PlanOf(c, sm, o).allowed, PlanOf(c, sm, o).budget)
  {
    calls, puts := CycleAssembled(c, sel, json, sm, o, n);
    OpeningCalls(c, sm, o, calls);
  }

  /** Every call listing of a cycle precedes every put listing: the covered
      calls are all handled before `sell_puts`. */
  lemma CallsBeforePuts(c: Inputs, sel: Selector, json: JsonOracle, sm: StateManager, o: Oracle, n: nat)
    ensures var e := CycleEffects(c, sel, json, sm, o, n);
      forall i, j :: 0 <= i < |e.calls| && 0 <= j < |e.calls| && Lists(e.calls[i], Call) && Lists(e.calls[j], Put)
                     ==> i < j
  {
    var calls, puts := CycleParts(c, sel, json, sm, o, n);
    var front, back := AssembleOrder(c, sm, o, calls, puts);
    ListingsOrdered(front, back);
  }

  /** When the covered calls raise nothing, the cycle's call listings are
      exactly one per stock holding, in the order of the state entries. */
  lemma OneCallListingPerHolding(c: Inputs, sel: Selector, json: JsonOracle, sm: StateManager, o: Oracle, n: nat)
    requires !c.freshStart && CallsPhase(sel, json, sm, o, n).raised.None?
    ensures Listings(CycleEffects(c, sel, json, sm, o, n).calls, Call) == HoldingListings(sm.updateState(o.positions))
  {
    var calls, puts := CycleParts(c, sel, json, sm, o, n);
    AssembleListings(c, sm, o, calls, puts);
  }

  /** A cycle that raises reports the exception once, last, in the strategy
      context; it neither sends the completion notice nor saves. One that
      does not raise ends with the completion notice, whose summary counts
      every put the cycle sold and no call, and with the save. */
  lemma CycleOutcome(c: Inputs, sel: Selector, json: JsonOracle, sm: StateManager, o: Oracle, n: nat)
    ensures Concluded(CycleEffects(c, sel, json, sm, o, n))
  {
    var calls, puts := CycleParts(c, sel, json, sm, o, n);
    AssembleOutcome(c, sm, o, calls, puts);
  }

  // ---------------------------------------------------------------------
  // The cycle as it runs
  // ---------------------------------------------------------------------

  /** Reading, logging and reporting the positions and logging the state entries. */
  method ReviewPositions(client: BrokerClient, notifier: Notifier, logger: StrategyLogger, sm: StateManager)
    returns (positions: seq<Position>, states: seq<StateEntry>)
    requires logger.Valid()
    modifies client, notifier, logger
    ensures logger.Valid()
    ensures positions == client.oracle.positions && states == sm.updateState(positions)
    ensures Recorded(ReviewEffects(sm, client.oracle), old(client.log), client.log, old(notifier.sent), notifier.sent,
                     old(logger.State()), logger.State())
  {
    positions := client.GetPositions();
    logger.AddCurrentPositions(positions);
    if positions != [] {
      notifier.Send(PositionUpdate(Lines(positions)));
    }
    states := sm.updateState(positions);
    ghost var st1 := logger.State();
    logger.AddStateDict(states);
    ApplyAllOne(old(logger.State()), LogEvent.AddCurrentPositions(positions));
    ApplyAllSnoc(old(logger.State()), [LogEvent.AddCurrentPositions(positions)], LogEvent.AddStateDict(states));
  }

  /** One turn of the loop over the state entries: `sell_calls` when the
      entry is a stock holding. */
  method CallTurn(client: BrokerClient, notifier: Notifier, logger: StrategyLogger,
                  sel: Selector, json: JsonOracle, s: StateEntry, ghost states: seq<StateEntry>,
                  ghost total: Effects, ghost done: Effects,
                  ghost log0: seq<BrokerCall>, ghost sent0: seq<Notification>, ghost st0: LogState)
    returns (raised: Option<Exception>, ghost done': Effects)
    requires states != [] && states[0] == s && done.raised.None?
    requires CallsFrom(done, sel, json, client.oracle, |client.log|, states) == total
    requires logger.Valid() && Recorded(done, log0, client.log, sent0, notifier.sent, st0, logger.State())
    modifies client, notifier, logger
    ensures logger.Valid() && Recorded(done', log0, client.log, sent0, notifier.sent, st0, logger.State())
    ensures raised == done'.raised && (raised.Some? ==> done' == total)
    ensures CallsFrom(done', sel, json, client.oracle, |client.log|, states[1..]) == total
  {
    if s.kind != LongShares {
      return None, done;
    }
    ghost var o, logBefore, sentBefore, stBefore := client.oracle, client.log, notifier.sent, logger.State();
    raised := SellCalls(client, s.symbol, s.price, s.qty, sel, json, logger, notifier);
    ghost var e := CallEffects(sel, json, o, |logBefore|, s.symbol, s.price, s.qty);
    RecordedThen(done, e, log0, logBefore, client.log, sent0, sentBefore, notifier.sent, st0, stBefore, logger.State());
    done' := Extend(done, e);
    CallsFromKeepsRaise(done', sel, json, o, |client.log|, states[1..]);
  }

  /** The loop over the state entries: `sell_calls` for each stock holding,
      until one raises. */
  method SellCoveredCalls(client: BrokerClient, notifier: Notifier, logger: StrategyLogger,
                          sel: Selector, json: JsonOracle, states: seq<StateEntry>)
    returns (raised: Option<Exception>)
    requires logger.Valid()
    modifies client, notifier, logger
    ensures logger.Valid()
    ensures var e := CallsFrom(NoEffects, sel, json, client.oracle, |old(client.log)|, states);
      Recorded(e, old(client.log), client.log, old(notifier.sent), notifier.sent, old(logger.State()), logger.State())
      && raised == e.raised
  {
    ghost var total := CallsFrom(NoEffects, sel, json, client.oracle, |client.log|, states);
    ghost var done := NoEffects;
    raised := None;
    var i := 0;
    while i < |states| && raised.None?
      invariant 0 <= i <= |states| && logger.Valid()
      invariant raised == done.raised
      invariant Recorded(done, old(client.log), client.log, old(notifier.sent), notifier.sent,
                         old(logger.State()), logger.State())
      invariant CallsFrom(done, sel, json, client.oracle, |client.log|, states[i..]) == total
      invariant raised.Some? ==> done == total
    {
      raised, done := CallTurn(client, notifier, logger, sel, json, states[i], states[i..], total, done,
                               old(client.log), old(notifier.sent), old(logger.State()));
      assert states[i..][1..] == states[i + 1..];
      i := i + 1;
    }
    if raised.None? {
      assert states[i..] == [];
    }
  }

  /** The put phase: the plan in the log, `sell_puts`, then the completion
      notice and the save unless `sell_puts` raised. */
  method TradePuts(client: BrokerClient, notifier: Notifier, logger: StrategyLogger,
                   sel: Selector, json: JsonOracle, plan: Plan) returns (raised: Option<Exception>)
    requires logger.Valid()
    modifies client, notifier, logger
    ensures logger.Valid()
    ensures var e := PutsPhase(sel, json, client.oracle, |old(client.log)|, plan);
      Recorded(e, old(client.log), client.log, old(notifier.sent), notifier.sent, old(logger.State()), logger.State())
      && raised == e.raised
  {
    logger.SetBuyingPower(plan.budget);
    logger.SetAllowedSymbols(plan.allowed);
    ApplyAllOne(old(logger.State()), LogEvent.SetBuyingPower(plan.budget));
    ApplyAllSnoc(old(logger.State()), [LogEvent.SetBuyingPower(plan.budget)], LogEvent.SetAllowedSymbols(plan.allowed));
    ghost var record := NoEffects.(logged := [LogEvent.SetBuyingPower(plan.budget), LogEvent.SetAllowedSymbols(plan.allowed)]);
    ghost var log1, sent1, st1 := client.log, notifier.sent, logger.State();
    var summary := new TradesSummary();
    raised := SellPuts(client, plan.allowed, plan.budget, sel, json, logger, notifier, summary);
    ghost var puts := PutsEffects(sel, json, client.oracle, |log1|, plan.allowed, plan.budget);
    RecordedThen(record, puts, old(client.log), log1, client.log, old(notifier.sent), sent1, notifier.sent,
                 old(logger.State()), st1, logger.State());
    if raised.Some? {
      return;
    }
    ghost var log2, sent2, st2 := client.log, notifier.sent, logger.State();
    notifier.Send(CompletionMessage(summary.Value()));
    logger.Save();
    ApplyAllOne(st2, LogEvent.Save);
    ghost var tail := NoEffects.(notes := [CompletionMessage(Summary(puts.putsSold, 0, puts.premium))],
                                 logged := [LogEvent.Save]);
    RecordedThen(Extend(record, puts), tail, old(client.log), log2, client.log, old(notifier.sent), sent2, notifier.sent,
                 old(logger.State()), st2, logger.State());
  }

  /** Reading the positions and selling the covered calls of a regular opening. */
  method ReviewAndSellCalls(client: BrokerClient, notifier: Notifier, logger: StrategyLogger,
                            sel: Selector, json: JsonOracle, sm: StateManager)
    returns (positions: seq<Position>, states: seq<StateEntry>, raised: Option<Exception>)
    requires logger.Valid()
    modifies client, notifier, logger
    ensures logger.Valid()
    ensures positions == client.oracle.positions && states == sm.updateState(positions)
    ensures var e := Extend(ReviewEffects(sm, client.oracle), CallsPhase(sel, json, sm, client.oracle, |old(client.log)|));
      Recorded(e, old(client.log), client.log, old(notifier.sent), notifier.sent, old(logger.State()), logger.State())
      && raised == e.raised
  {
    ghost var o := client.oracle;
    positions, states := ReviewPositions(client, notifier, logger, sm);
    ghost var log1, sent1, st1 := client.log, notifier.sent, logger.State();
    assert |log1| == |old(client.log)| + 1;
    raised := SellCoveredCalls(client, notifier, logger, sel, json, states);
    RecordedThen(ReviewEffects(sm, o), CallsPhase(sel, json, sm, o, |old(client.log)|),
                 old(client.log), log1, client.log, old(notifier.sent), sent1, notifier.sent,
                 old(logger.State()), st1, logger.State());
  }

  /** The regular opening: the positions, the covered calls, and the startup
      notice unless the covered calls raised; returns the plan it reached. */
  method OpenRegular(client: BrokerClient, notifier: Notifier, logger: StrategyLogger, c: Inputs,
                     sel: Selector, json: JsonOracle, sm: StateManager)
    returns (plan: Plan, raised: Option<Exception>)
    requires logger.Valid() && !c.freshStart
    modifies client, notifier, logger
    ensures logger.Valid()
    ensures var e := Opening(c, sel, json, sm, client.oracle, |old(client.log)|);
      Recorded(e, old(client.log), client.log, old(notifier.sent), notifier.sent, old(logger.State()), logger.State())
      && raised == e.raised && plan == PlanOf(c, sm, client.oracle)
  {
    ghost var o := client.oracle;
    var positions, states;
    positions, states, raised := ReviewAndSellCalls(client, notifier, logger, sel, json, sm);
    plan := Plan(AllowedSymbols(c.universe, states), c.maxRisk - sm.calculateRisk(positions));
    if raised.Some? {
      return;
    }
    ghost var pre := Extend(ReviewEffects(sm, o), CallsPhase(sel, json, sm, o, |old(client.log)|));
    ghost var log2, sent2, st2 := client.log, notifier.sent, logger.State();
    notifier.Send(StartupMessage(false, plan.budget, plan.allowed));
    RecordedThen(pre, NoEffects.(notes := [StartupMessage(false, plan.budget, plan.allowed)]),
                 old(client.log), log2, client.log, old(notifier.sent), sent2, notifier.sent,
                 old(logger.State()), st2, logger.State());
  }

  /** The cycle up to the put phase; returns the plan it reached. */
  method Open(client: BrokerClient, notifier: Notifier, logger: StrategyLogger, c: Inputs,
              sel: Selector, json: JsonOracle, sm: StateManager)
    returns (plan: Plan, raised: Option<Exception>)
    requires logger.Valid()
    modifies client, notifier, logger
    ensures logger.Valid()
    ensures var e := Opening(c, sel, json, sm, client.oracle, |old(client.log)|);
      Recorded(e, old(client.log), client.log, old(notifier.sent), notifier.sent, old(logger.State()), logger.State())
      && raised == e.raised && plan == PlanOf(c, sm, client.oracle)
  {
    if c.freshStart {
      notifier.Send(StartupMessage(true, c.maxRisk, c.universe));
      client.LiquidateAllPositions();
      return Plan(c.universe, c.maxRisk), None;
    }
    plan, raised := OpenRegular(client, notifier, logger, c, sel, json, sm);
  }

  /** The cycle is its opening, then the put phase unless the opening
      raised, with an escaping exception reported. */
  lemma CycleSplit(c: Inputs, sel: Selector, json: JsonOracle, sm: StateManager, o: Oracle, n: nat)
    ensures var op := Opening(c, sel, json, sm, o, n);
      CycleEffects(c, sel, json, sm, o, n) == Reported(Then(op, PutsPhase(sel, json, o, n + |op.calls|, PlanOf(c, sm, o))))
  {
  }

  /** Reporting the exception `b` raised is one more notification. */
  lemma RecordedReported(b: Effects, log0: seq<BrokerCall>, log1: seq<BrokerCall>,
                         sent0: seq<Notification>, sent1: seq<Notification>, st0: LogState, st1: LogState)
    requires Recorded(b, log0, log1, sent0, sent1, st0, st1) && b.raised.Some?
    ensures Recorded(Reported(b), log0, log1, sent0,
                     sent1 + [ErrorNotification(b.raised.value.message, CycleContext)], st0, st1)
  {
    assert sent0 + b.notes + [ErrorNotification(b.raised.value.message, CycleContext)]
        == sent0 + (b.notes + [ErrorNotification(b.raised.value.message, CycleContext)]);
  }

  /** The `try` statement of `main`. */
  method RunCycle(client: BrokerClient, notifier: Notifier, logger: StrategyLogger, c: Inputs,
                  sel: Selector, json: JsonOracle, sm: StateManager) returns (raised: Option<Exception>)
    requires logger.Valid()
    modifies client, notifier, logger
    ensures logger.Valid()
    ensures var e := CycleEffects(c, sel, json, sm, client.oracle, |old(client.log)|);
      Recorded(e, old(client.log), client.log, old(notifier.sent), notifier.sent, old(logger.State()), logger.State())
      && raised == e.raised
  {
    ghost var o, n := client.oracle, |client.log|;
    var plan;
    plan, raised := Open(client, notifier, logger, c, sel, json, sm);
    ghost var op := Opening(c, sel, json, sm, o, n);
    ghost var log1, sent1, st1 := client.log, notifier.sent, logger.State();
    assert |log1| == n + |op.calls|;
    ghost var ph := PutsPhase(sel, json, o, |log1|, plan);
    CycleSplit(c, sel, json, sm, o, n);
    if raised.None? {
      raised := TradePuts(client, notifier, logger, sel, json, plan);
      RecordedThen(op, ph, old(client.log), log1, client.log,
                   old(notifier.sent), sent1, notifier.sent, old(logger.State()), st1, logger.State());
    }
    ghost var b := Then(op, ph);
    assert CycleEffects(c, sel, json, sm, o, n) == Reported(b);
    if raised.Some? {
      ghost var sent2 := notifier.sent;
      notifier.Send(ErrorNotification(raised.value.message, CycleContext));
      RecordedReported(b, old(client.log), client.log, old(notifier.sent), sent2, old(logger.State()), logger.State());
    } else {
      assert Reported(b) == b;
    }
  }

  /** `main`: with `--test-discord` it runs `test_discord_webhook` (not
      modelled: it makes its own notifier and sends its test messages to it)
      and returns before creating its own broker client, logger and
      notifier; otherwise it creates them, records the fresh-start flag and
      runs one cycle. */
  method Launch(args: Args, universe: seq<string>, maxRisk: real, oracle: Oracle,
              sel: Selector, json: JsonOracle, sm: StateManager)
    returns (client: BrokerClient?, notifier: Notifier?, logger: StrategyLogger?, raised: Option<Exception>)
    ensures args.testDiscord ==> client == null && notifier == null && logger == null && raised.None?
    ensures !args.testDiscord ==>
              && client != null && notifier != null && logger != null
              && fresh(client) && fresh(notifier) && fresh(logger)
              && var e := CycleEffects(Inputs(args.freshStart, universe, maxRisk), sel, json, sm, oracle, 0);
              && client.log == e.calls && notifier.sent == e.notes && raised == e.raised
              && logger.State() == ApplyAll(InitialState(args.stratLog), [LogEvent.SetFreshStart(args.freshStart)] + e.logged)
  {
    if args.testDiscord {
      return null, null, null, None;
    }
    logger := new StrategyLogger(args.stratLog);
    notifier := new Notifier();
    logger.SetFreshStart(args.freshStart);
    ApplyAllOne(InitialState(args.stratLog), LogEvent.SetFreshStart(args.freshStart));
    client := new BrokerClient(oracle);
    ghost var st1 := logger.State();
    raised := RunCycle(client, notifier, logger, Inputs(args.freshStart, universe, maxRisk), sel, json, sm);
    ghost var e := CycleEffects(Inputs(args.freshStart, universe, maxRisk), sel, json, sm, oracle, 0);
    ApplyAllAppend(InitialState(args.stratLog), [LogEvent.SetFreshStart(args.freshStart)], e.logged);
  }
}
