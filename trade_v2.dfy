/** The second trading script (tradev2.py): a set of symbols with an open
    order, the buy routine with its minimum-notional and minimum-quantity
    fix-ups, the start-up scan that seeds the set, and one pass of the
    strategy loop with its entry gate (balance, open order, ATR, trend,
    backtest). */
module TradeV2 {
  import opened Exchange
  import opened Indicators
  import opened Backtest

  /** Below this free USDT balance the cycle evaluates no symbol. */
  const MinBalance: real := 10.0
  /** Minimum order value assumed when the market lists no cost limit. */
  const DefaultMinCost: real := 5.0
  /** The order value the quantity is re-derived from when the order is too small. */
  const FallbackNotional: real := 5.0
  const AtrPeriod: nat := 14
  /** ATR is computed over the most recent 100 bars only. */
  const AtrLookback: nat := 100
  const TpPct: real := 0.01
  const SlPct: real := 0.005

  // ---------------------------------------------------------------- sizing

  /** `limits['cost']['min']` as looked up with defaults: no entry (5.0 is
      used), an entry holding None (the comparison with it raises), or a value. */
  datatype CostFloor = NoCostEntry | NullCost | CostOf(amount: real)

  /** The market limits the buy routine consults. */
  datatype MarketLimits = MarketLimits(minAmount: Option<real>, minCost: CostFloor)

  /** The minimum order value in force; undefined for NullCost. */
  function MinCostOf(floor: CostFloor): real
    requires !floor.NullCost?
  {
    if floor.NoCostEntry? then DefaultMinCost else floor.amount
  }

  /** The quantity after the two fix-ups: an order worth less than `minCost`
      is re-sized to 5 USDT, then a quantity below a (truthy) minimum amount
      is raised to it. Decimal rounding is not modelled. */
  function AdjustQty(qty: real, price: real, minCost: real, minAmount: Option<real>): (q: real)
    requires price != 0.0
    ensures Truthy(minAmount) ==> q >= minAmount.value
  {
    var sized := if qty * price < minCost then FallbackNotional / price else qty;
    if Truthy(minAmount) && sized < minAmount.value then minAmount.value else sized
  }

  /** An order that already satisfies both limits keeps its quantity. */
  lemma AdjustKeepsCompliant(qty: real, price: real, minCost: real, minAmount: Option<real>)
    requires price != 0.0
    requires qty * price >= minCost
    requires Truthy(minAmount) ==> qty >= minAmount.value
    ensures AdjustQty(qty, price, minCost, minAmount) == qty
  {
  }

  lemma ScaleUp(q: real, m: real, price: real)
    requires price > 0.0 && m >= q
    ensures m * price >= q * price
  {
  }

  /** With a positive price and a cost floor of at most 5 USDT, the adjusted
      order meets the floor. */
  lemma AdjustMeetsCostFloor(qty: real, price: real, minCost: real, minAmount: Option<real>)
    requires price > 0.0 && minCost <= FallbackNotional
    ensures AdjustQty(qty, price, minCost, minAmount) * price >= minCost
  {
    var sized := if qty * price < minCost then FallbackNotional / price else qty;
    assert FallbackNotional / price * price == FallbackNotional;
    assert sized * price >= minCost;
    var q := AdjustQty(qty, price, minCost, minAmount);
    ScaleUp(sized, q, price);
  }

  /** The fix-up re-sizes to 5 USDT, not to the market's floor: for a floor of
      10 USDT an order worth 6 USDT comes out worth 5. */
  lemma AdjustMissesHigherFloor()
    ensures AdjustQty(1.0, 6.0, 10.0, None) * 6.0 == 5.0
    ensures AdjustQty(1.0, 6.0, 10.0, None) * 6.0 < 10.0
  {
    assert AdjustQty(1.0, 6.0, 10.0, None) == 5.0 / 6.0;
  }

  /** Adjusting an already adjusted quantity changes nothing. */
  lemma AdjustIdempotent(qty: real, price: real, minCost: real, minAmount: Option<real>)
    requires price > 0.0
    ensures var q := AdjustQty(qty, price, minCost, minAmount);
            AdjustQty(q, price, minCost, minAmount) == q
  {
    var sized := if qty * price < minCost then FallbackNotional / price else qty;
    var q := AdjustQty(qty, price, minCost, minAmount);
    assert FallbackNotional / price * price == FallbackNotional;
    if q != sized && q * price < minCost {
      // q is the minimum amount, above `sized`; so `sized` was re-sized
      if sized == qty {
        ScaleUp(qty, q, price);
      }
    }
  }

  // ---------------------------------------------------------------- buying

  datatype LimitOrder = LimitOrder(symbol: Symbol, qty: real, price: real)

  /** The set after a buy attempt, and the limit order requested, if any. */
  datatype BuyResult = BuyResult(openOrders: set<Symbol>, requested: Option<LimitOrder>)

  /** `executar_ordem_compra`: every failure inside it is caught, so a failed
      step leaves the set as it was. */
  function BuyEffect(openOrders: set<Symbol>, symbol: Symbol, qty: real, price: real,
                     limits: MarketLimits, outcome: OrderOutcome): BuyResult
  {
    if symbol == [] || qty == 0.0 || price == 0.0 then BuyResult(openOrders, None)
    else if symbol in openOrders then BuyResult(openOrders, None)
    else if limits.minCost.NullCost? then BuyResult(openOrders, None)
    else
      var order := LimitOrder(symbol, AdjustQty(qty, price, MinCostOf(limits.minCost), limits.minAmount), price);
      if outcome.Raised? then BuyResult(openOrders, Some(order))
      else BuyResult(openOrders + {symbol}, Some(order))
  }

  /** A buy for a symbol already in the set requests nothing and changes nothing. */
  lemma BuyAlreadyOpen(openOrders: set<Symbol>, symbol: Symbol, qty: real, price: real,
                       limits: MarketLimits, outcome: OrderOutcome)
    requires symbol in openOrders
    ensures BuyEffect(openOrders, symbol, qty, price, limits, outcome) == BuyResult(openOrders, None)
  {
  }

  /** The set changes only by gaining the bought symbol, and it gains it
      exactly when the arguments are valid, the symbol had no open order, the
      cost limit could be read and the order call returned. */
  lemma BuyUpdatesSet(openOrders: set<Symbol>, symbol: Symbol, qty: real, price: real,
                      limits: MarketLimits, outcome: OrderOutcome)
    ensures var r := BuyEffect(openOrders, symbol, qty, price, limits, outcome);
            openOrders <= r.openOrders <= openOrders + {symbol}
            && (symbol in r.openOrders - openOrders <==>
                  symbol != [] && qty != 0.0 && price != 0.0 && symbol !in openOrders
                  && !limits.minCost.NullCost? && outcome.Returned?)
  {
  }

  /** A buy whose order call raised leaves the set unchanged. */
  lemma BuyRaisedKeepsSet(openOrders: set<Symbol>, symbol: Symbol, qty: real, price: real, limits: MarketLimits)
    ensures BuyEffect(openOrders, symbol, qty, price, limits, Raised).openOrders == openOrders
  {
  }

  /** A requested order is for the symbol and price given, with the adjusted
      quantity, which is at least the market's minimum amount (all before
      the rounding to the market's precision). */
  lemma BuyRequestSize(openOrders: set<Symbol>, symbol: Symbol, qty: real, price: real,
                       limits: MarketLimits, outcome: OrderOutcome)
    ensures var r := BuyEffect(openOrders, symbol, qty, price, limits, outcome);
            r.requested.Some? ==>
              r.requested.value.symbol == symbol && r.requested.value.price == price
              && (Truthy(limits.minAmount) ==> r.requested.value.qty >= limits.minAmount.value)
  {
  }

  // ---------------------------------------------------------------- seeding

  /** How many leading symbols of the start-up scan were answered before the
      first failed lookup. */
  function Answered(openCounts: seq<Option<nat>>): (n: nat)
    ensures n <= |openCounts|
    ensures forall j :: 0 <= j < n ==> openCounts[j].Some?
    ensures n < |openCounts| ==> openCounts[n].None?
    decreases |openCounts|
  {
    if |openCounts| == 0 || openCounts[0].None? then 0
    else 1 + Answered(openCounts[1..])
  }

  /** `verificar_ordens_abertas`: each symbol whose open-order list is
      non-empty joins the set; one failed lookup (None) ends the scan. */
  function SeedFrom(openOrders: set<Symbol>, symbols: seq<Symbol>, openCounts: seq<Option<nat>>): set<Symbol>
    requires |openCounts| == |symbols|
    decreases |symbols|
  {
    if |symbols| == 0 || openCounts[0].None? then openOrders
    else SeedFrom(if openCounts[0].value > 0 then openOrders + {symbols[0]} else openOrders,
                  symbols[1..], openCounts[1..])
  }

  /** After the scan the set holds what it held before plus exactly the
      symbols answered before the first failure with at least one open order. */
  lemma {:induction false} SeedMembership(openOrders: set<Symbol>, symbols: seq<Symbol>, openCounts: seq<Option<nat>>, x: Symbol)
    requires |openCounts| == |symbols|
    ensures x in SeedFrom(openOrders, symbols, openCounts) <==>
              (x in openOrders
               || exists i :: 0 <= i < Answered(openCounts) && symbols[i] == x && openCounts[i].value > 0)
    decreases |symbols|
  {
    if |symbols| > 0 && openCounts[0].Some? {
      var next := if openCounts[0].value > 0 then openOrders + {symbols[0]} else openOrders;
      var rest, restCounts := symbols[1..], openCounts[1..];
      SeedMembership(next, rest, restCounts, x);
      var n := Answered(openCounts);
      assert n == 1 + Answered(restCounts);
      if x in SeedFrom(openOrders, symbols, openCounts) && x !in openOrders {
        if x in next {
          assert symbols[0] == x && openCounts[0].value > 0;
        } else {
          var i :| 0 <= i < Answered(restCounts) && rest[i] == x && restCounts[i].value > 0;
          assert symbols[i + 1] == x && openCounts[i + 1].value > 0;
        }
      }
      if exists i :: 0 <= i < n && symbols[i] == x && openCounts[i].value > 0 {
        var i :| 0 <= i < n && symbols[i] == x && openCounts[i].value > 0;
        if i > 0 {
          assert rest[i - 1] == x && restCounts[i - 1].value > 0;
        }
      }
    }
  }

  // ---------------------------------------------------------------- one cycle

  /** The inputs one pass of the loop reads for one symbol: whether the
      exchange lists it, its OHLCV rows (empty when the fetch failed), its
      limits and what the buy order call did. */
  datatype Feed = Feed(listed: bool, bars: seq<Bar>, limits: MarketLimits, outcome: OrderOutcome)

  /** The arguments passed to `executar_ordem_compra`. */
  datatype Signal = Signal(symbol: Symbol, qty: real, price: real, ema50: real, ema200: real,
                           atr: real, sl: real, tp: real)

  /** What the indicator block decides for one symbol: no entry, an entry, or
      a division by a zero price that escapes the loop body. */
  datatype Verdict = NoTrade | Crash | Enter(signal: Signal)

  /** The last close, the last EMA50 and EMA200, and the ATR of the last 100 bars. */
  datatype Reading = Reading(price: real, ema50: real, ema200: real, atr: Option<real>)

  function Read(bars: seq<Bar>): Reading
    requires |bars| > 0
  {
    var closes := Closes(bars);
    var fast, slow := Ema(closes, EmaFast), Ema(closes, EmaSlow);
    Reading(Last(closes), Last(fast), Last(slow), Atr(LastN(bars, AtrLookback), AtrPeriod))
  }

  /** The return of `backtest_simples` replayed on the same bars. */
  function BacktestProfit(bars: seq<Bar>): real
  {
    var closes := Closes(bars);
    Backtest.Backtest(bars, Ema(closes, EmaFast), Ema(closes, EmaSlow), DefaultSlPct, DefaultTpPct).profitPct
  }

  /** The entry gate: ATR available, EMA50 above EMA200, and a backtest that
      does not lose money. */
  predicate GateOpen(r: Reading, profit: real)
  {
    r.atr.Some? && r.ema50 > r.ema200 && profit >= 0.0
  }

  /** The checks of the loop body, in the order of tradev2.py, on the readings. */
  function Decide(usdt: real, symbol: Symbol, r: Reading, profit: real): Verdict
  {
    if r.atr.None? then NoTrade
    else if r.ema50 <= r.ema200 then NoTrade
    else if profit < 0.0 then NoTrade
    else if r.price == 0.0 then Crash
    else Enter(Signal(symbol, Stake(usdt, r.price), r.price, r.ema50, r.ema200,
                      r.atr.value, r.price * (1.0 - SlPct), r.price * (1.0 + TpPct)))
  }

  /** The decision for one symbol whose bars were fetched. */
  function Assess(usdt: real, symbol: Symbol, bars: seq<Bar>): Verdict
    requires |bars| > 0
  {
    Decide(usdt, symbol, Read(bars), BacktestProfit(bars))
  }

  /** A buy is signalled only through the gate; the signal carries the
      readings, sizes the order at 5% of the balance and brackets the price
      between the stop and the target. */
  lemma DecideGate(usdt: real, symbol: Symbol, r: Reading, profit: real)
    ensures var v := Decide(usdt, symbol, r, profit);
            (v.Enter? || v.Crash?) == GateOpen(r, profit)
            && (v.Crash? <==> GateOpen(r, profit) && r.price == 0.0)
            && (v.Enter? ==>
                  v.signal.symbol == symbol && v.signal.price == r.price && r.price != 0.0
                  && v.signal.ema50 == r.ema50 && v.signal.ema200 == r.ema200 && r.atr == Some(v.signal.atr)
                  && v.signal.qty * r.price == usdt * RiskPerTrade
                  && (r.price > 0.0 ==> v.signal.sl < r.price < v.signal.tp))
  {
  }

  /** The readings are those of the fetched bars: the price the signal
      carries is the last close. */
  lemma ReadIsLastClose(bars: seq<Bar>)
    requires |bars| > 0
    ensures Read(bars).price == bars[|bars| - 1].close
    ensures Read(bars).atr.None? <==> |bars| < AtrPeriod
  {
  }

  /** What one pass has done so far: the open-order set, the symbols whose
      bars were fetched, the signals that reached the buy routine, the limit
      orders requested, and whether an exception ended the pass. */
  datatype CycleState = CycleState(openOrders: set<Symbol>, fetched: seq<Symbol>, signals: seq<Signal>,
                                   orders: seq<LimitOrder>, aborted: bool)

  /** One symbol of the `for symbol in symbols` body. */
  function Step(s: CycleState, usdt: real, symbol: Symbol, feed: Feed): CycleState
  {
    if symbol in s.openOrders || !feed.listed then s
    else
      var fetched := s.(fetched := s.fetched + [symbol]);
      if |feed.bars| == 0 then fetched
      else match Assess(usdt, symbol, feed.bars)
        case NoTrade => fetched
        case Crash => fetched.(aborted := true)
        case Enter(sig) =>
          var r := BuyEffect(fetched.openOrders, symbol, sig.qty, sig.price, feed.limits, feed.outcome);
          fetched.(openOrders := r.openOrders, signals := fetched.signals + [sig],
                   orders := fetched.orders + OptionToSeq(r.requested))
  }

  /** The remaining symbols of a pass; an exception ends it. */
  function RunFrom(s: CycleState, usdt: real, symbols: seq<Symbol>, feeds: seq<Feed>): CycleState
    requires |feeds| == |symbols|
    decreases |symbols|
  {
    if |symbols| == 0 || s.aborted then s
    else RunFrom(Step(s, usdt, symbols[0], feeds[0]), usdt, symbols[1..], feeds[1..])
  }

  /** `obter_saldo_usdt`: the free USDT balance, 0 when the fetch failed. */
  function UsdtBalance(freeBalance: Option<map<string, real>>): real
  {
    if freeBalance.None? then 0.0 else FreeAmount(freeBalance.value, "USDT")
  }

  function Idle(openOrders: set<Symbol>): CycleState
  {
    CycleState(openOrders, [], [], [], false)
  }

  /** One pass of `estrategia_scalping_com_backtest`. */
  function Cycle(openOrders: set<Symbol>, freeBalance: Option<map<string, real>>,
                 symbols: seq<Symbol>, feeds: seq<Feed>): CycleState
    requires |feeds| == |symbols|
  {
    var usdt := UsdtBalance(freeBalance);
    if usdt < MinBalance then Idle(openOrders) else RunFrom(Idle(openOrders), usdt, symbols, feeds)
  }

  /** With less than 10 USDT free no symbol is looked at. */
  lemma LowBalanceIdle(openOrders: set<Symbol>, freeBalance: Option<map<string, real>>,
                       symbols: seq<Symbol>, feeds: seq<Feed>)
    requires |feeds| == |symbols| && UsdtBalance(freeBalance) < MinBalance
    ensures Cycle(openOrders, freeBalance, symbols, feeds) == Idle(openOrders)
  {
  }

  /** The pass only adds to the set (there is no sell path) and only appends
      to its logs. */
  lemma {:induction false} RunFromGrows(s: CycleState, usdt: real, symbols: seq<Symbol>, feeds: seq<Feed>)
    requires |feeds| == |symbols|
    ensures var t := RunFrom(s, usdt, symbols, feeds);
            s.openOrders <= t.openOrders && s.fetched <= t.fetched
            && s.signals <= t.signals && s.orders <= t.orders
    decreases |symbols|
  {
    if |symbols| > 0 && !s.aborted {
      var s1 := Step(s, usdt, symbols[0], feeds[0]);
      if symbols[0] !in s.openOrders && feeds[0].listed && |feeds[0].bars| > 0 {
        match Assess(usdt, symbols[0], feeds[0].bars)
        case Enter(sig) =>
          BuyUpdatesSet(s.openOrders, symbols[0], sig.qty, sig.price, feeds[0].limits, feeds[0].outcome);
        case _ =>
      }
      RunFromGrows(s1, usdt, symbols[1..], feeds[1..]);
    }
  }

  /** A symbol that already has an open order is never fetched and gets no
      order, however often it appears in the list. */
  lemma {:induction false} OpenSymbolSkipped(s: CycleState, usdt: real, symbols: seq<Symbol>, feeds: seq<Feed>, x: Symbol)
    requires |feeds| == |symbols|
    requires x in s.openOrders && x !in s.fetched
    requires forall k :: 0 <= k < |s.orders| ==> s.orders[k].symbol != x
    ensures var t := RunFrom(s, usdt, symbols, feeds);
            x !in t.fetched && forall k :: 0 <= k < |t.orders| ==> t.orders[k].symbol != x
    decreases |symbols|
  {
    if |symbols| > 0 && !s.aborted {
      StepSkipsOpenSymbol(s, usdt, symbols[0], feeds[0], x);
      OpenSymbolSkipped(Step(s, usdt, symbols[0], feeds[0]), usdt, symbols[1..], feeds[1..], x);
    }
  }

  /** One step keeps a symbol of the set in the set, unfetched and unordered. */
  lemma StepSkipsOpenSymbol(s: CycleState, usdt: real, symbol: Symbol, feed: Feed, x: Symbol)
    requires x in s.openOrders && x !in s.fetched
    requires forall k :: 0 <= k < |s.orders| ==> s.orders[k].symbol != x
    ensures var t := Step(s, usdt, symbol, feed);
            x in t.openOrders && x !in t.fetched && forall k :: 0 <= k < |t.orders| ==> t.orders[k].symbol != x
  {
    if symbol !in s.openOrders && feed.listed {
      var fetched := s.(fetched := s.fetched + [symbol]);
      if |feed.bars| == 0 {
        assert Step(s, usdt, symbol, feed) == fetched;
      } else {
        var v := Assess(usdt, symbol, feed.bars);
        if v.Enter? {
          var sig := v.signal;
          var r := BuyEffect(s.openOrders, symbol, sig.qty, sig.price, feed.limits, feed.outcome);
          BuyUpdatesSet(s.openOrders, symbol, sig.qty, sig.price, feed.limits, feed.outcome);
          BuyRequestSize(s.openOrders, symbol, sig.qty, sig.price, feed.limits, feed.outcome);
          assert Step(s, usdt, symbol, feed) == fetched.(openOrders := r.openOrders, signals := s.signals + [sig],
                                                         orders := s.orders + OptionToSeq(r.requested));
        } else if v.Crash? {
          assert Step(s, usdt, symbol, feed) == fetched.(aborted := true);
        } else {
          assert Step(s, usdt, symbol, feed) == fetched;
        }
      }
    } else {
      assert Step(s, usdt, symbol, feed) == s;
    }
  }

  /** The signals the gate would issue for the listed symbols on their bars. */
  function Offers(usdt: real, symbols: seq<Symbol>, feeds: seq<Feed>): set<Signal>
    requires |feeds| == |symbols|
    decreases |symbols|
  {
    if |symbols| == 0 then {}
    else
      var rest := Offers(usdt, symbols[1..], feeds[1..]);
      if |feeds[0].bars| > 0 && Assess(usdt, symbols[0], feeds[0].bars).Enter?
      then {Assess(usdt, symbols[0], feeds[0].bars).signal} + rest
      else rest
  }

  /** Each offer is the gate's decision for one of the symbols. */
  lemma {:induction false} OfferSource(usdt: real, symbols: seq<Symbol>, feeds: seq<Feed>, sig: Signal)
    requires |feeds| == |symbols|
    ensures sig in Offers(usdt, symbols, feeds) ==>
              exists i :: 0 <= i < |symbols| && |feeds[i].bars| > 0 && Assess(usdt, symbols[i], feeds[i].bars) == Enter(sig)
    decreases |symbols|
  {
    if sig !in Offers(usdt, symbols, feeds) {
    } else if sig !in Offers(usdt, symbols[1..], feeds[1..]) {
      assert |feeds[0].bars| > 0 && Assess(usdt, symbols[0], feeds[0].bars) == Enter(sig);
    } else {
      OfferSource(usdt, symbols[1..], feeds[1..], sig);
      var i :| 0 <= i < |symbols| - 1 && |feeds[1..][i].bars| > 0 && Assess(usdt, symbols[1..][i], feeds[1..][i].bars) == Enter(sig);
      assert feeds[i + 1] == feeds[1..][i] && symbols[i + 1] == symbols[1..][i];
    }
  }

  /** One symbol adds at most one signal, the gate's decision for it. */
  lemma StepSignals(s: CycleState, usdt: real, symbol: Symbol, feed: Feed)
    ensures var t := Step(s, usdt, symbol, feed);
            t.signals == s.signals
            || (|feed.bars| > 0 && Assess(usdt, symbol, feed.bars).Enter?
                && t.signals == s.signals + [Assess(usdt, symbol, feed.bars).signal])
  {
  }

  /** Every signal of the pass is one of the gate's offers. */
  lemma {:induction false} SignalsFromGate(s: CycleState, usdt: real, symbols: seq<Symbol>, feeds: seq<Feed>)
    requires |feeds| == |symbols|
    ensures var t := RunFrom(s, usdt, symbols, feeds);
            |s.signals| <= |t.signals|
            && forall k :: |s.signals| <= k < |t.signals| ==> t.signals[k] in Offers(usdt, symbols, feeds)
    decreases |symbols|
  {
    if |symbols| > 0 && !s.aborted {
      var s1 := Step(s, usdt, symbols[0], feeds[0]);
      var t := RunFrom(s1, usdt, symbols[1..], feeds[1..]);
      assert t == RunFrom(s, usdt, symbols, feeds);
      SignalsFromGate(s1, usdt, symbols[1..], feeds[1..]);
      var offers := Offers(usdt, symbols, feeds);
      assert Offers(usdt, symbols[1..], feeds[1..]) <= offers;
      StepSignals(s, usdt, symbols[0], feeds[0]);
      RunFromGrows(s1, usdt, symbols[1..], feeds[1..]);
      forall k | |s.signals| <= k < |t.signals|
        ensures t.signals[k] in offers
      {
        if k < |s1.signals| {
          assert t.signals[k] == s1.signals[k];
        }
      }
    }
  }

  /** A symbol with an open order at the start of a pass is not fetched and
      gets no new order during it. */
  lemma CycleSkipsOpenSymbols(openOrders: set<Symbol>, freeBalance: Option<map<string, real>>,
                              symbols: seq<Symbol>, feeds: seq<Feed>, x: Symbol)
    requires |feeds| == |symbols| && x in openOrders
    ensures var t := Cycle(openOrders, freeBalance, symbols, feeds);
            x !in t.fetched && x in t.openOrders
            && forall k :: 0 <= k < |t.orders| ==> t.orders[k].symbol != x
  {
    var usdt := UsdtBalance(freeBalance);
    if usdt >= MinBalance {
      OpenSymbolSkipped(Idle(openOrders), usdt, symbols, feeds, x);
      RunFromGrows(Idle(openOrders), usdt, symbols, feeds);
    }
  }

  // ---------------------------------------------------------------- the program state

  /** The script's global state: `ordens_abertas_por_simbolo`. */
  class Trader {
    var openOrders: set<Symbol>

    constructor()
      ensures openOrders == {}
    {
      openOrders := {};
    }

    /** `verificar_ordens_abertas`, given each symbol's open-order count (or
        None where the lookup raised). */
    method SeedOpenOrders(symbols: seq<Symbol>, openCounts: seq<Option<nat>>)
      requires |openCounts| == |symbols|
      modifies this
      ensures openOrders == SeedFrom(old(openOrders), symbols, openCounts)
    {
      var i := 0;
      while i < |symbols|
        invariant 0 <= i <= |symbols|
        invariant SeedFrom(old(openOrders), symbols, openCounts) == SeedFrom(openOrders, symbols[i..], openCounts[i..])
      {
        assert symbols[i..][1..] == symbols[i + 1..] && openCounts[i..][1..] == openCounts[i + 1..];
        if openCounts[i].None? {
          break;  // the exception leaves the whole scan
        }
        if openCounts[i].value > 0 {
          openOrders := openOrders + {symbols[i]};
        }
        i := i + 1;
      }
    }

    /** `executar_ordem_compra`: returns the limit order it requested, if any. */
    method Buy(symbol: Symbol, qty: real, price: real, limits: MarketLimits, outcome: OrderOutcome)
      returns (requested: Option<LimitOrder>)
      modifies this
      ensures BuyResult(openOrders, requested) == BuyEffect(old(openOrders), symbol, qty, price, limits, outcome)
    {
      requested := None;
      if symbol == [] || qty == 0.0 || price == 0.0 {
        return;  // ValueError, caught
      }
      if symbol in openOrders {
        return;
      }
      if limits.minCost.NullCost? {
        return;  // comparing with None raises, caught
      }
      var minCost := if limits.minCost.NoCostEntry? then DefaultMinCost else limits.minCost.amount;
      var q := qty;
      if q * price < minCost {
        q := FallbackNotional / price;
      }
      if Truthy(limits.minAmount) && q < limits.minAmount.value {
        q := limits.minAmount.value;
      }
      requested := Some(LimitOrder(symbol, q, price));
      if outcome.Raised? {
        return;
      }
      openOrders := openOrders + {symbol};
    }

    /** The indicator block and the gate for one fetched symbol. */
    method Evaluate(usdt: real, symbol: Symbol, bars: seq<Bar>) returns (verdict: Verdict)
      requires |bars| > 0
      ensures verdict == Assess(usdt, symbol, bars)
    {
      var closes := Closes(bars);
      var fast := Ema(closes, EmaFast);
      var slow := Ema(closes, EmaSlow);
      var price := Last(closes);
      var ema50 := Last(fast);
      var ema200 := Last(slow);
      var atr := Atr(LastN(bars, AtrLookback), AtrPeriod);
      assert Read(bars) == Reading(price, ema50, ema200, atr);
      ghost var reading := Reading(price, ema50, ema200, atr);
      assert Assess(usdt, symbol, bars) == Decide(usdt, symbol, reading, BacktestProfit(bars));
      if atr.None? {
        return NoTrade;
      }
      if ema50 <= ema200 {
        return NoTrade;
      }
      var count, winRate, profitPct := BacktestSimple(bars, fast, slow);
      assert profitPct == BacktestProfit(bars);
      if profitPct < 0.0 {
        return NoTrade;
      }
      var tp := price * (1.0 + TpPct);
      var sl := price * (1.0 - SlPct);
      if price == 0.0 {
        return Crash;  // ZeroDivisionError
      }
      var qty := Stake(usdt, price);
      verdict := Enter(Signal(symbol, qty, price, ema50, ema200, atr.value, sl, tp));
    }

    /** One pass of the strategy loop. */
    method RunCycle(freeBalance: Option<map<string, real>>, symbols: seq<Symbol>, feeds: seq<Feed>)
      returns (fetched: seq<Symbol>, signals: seq<Signal>, orders: seq<LimitOrder>, aborted: bool)
      requires |feeds| == |symbols|
      modifies this
      ensures CycleState(openOrders, fetched, signals, orders, aborted)
              == Cycle(old(openOrders), freeBalance, symbols, feeds)
    {
      fetched, signals, orders, aborted := [], [], [], false;
      var usdt := UsdtBalance(freeBalance);
      if usdt < MinBalance {
        return;
      }
      ghost var goal := Cycle(old(openOrders), freeBalance, symbols, feeds);
      var i := 0;
      while i < |symbols|
        invariant 0 <= i <= |symbols| && !aborted
        invariant goal == RunFrom(CycleState(openOrders, fetched, signals, orders, false), usdt, symbols[i..], feeds[i..])
      {
        ghost var before := CycleState(openOrders, fetched, signals, orders, false);
        var symbol, feed := symbols[i], feeds[i];
        assert symbols[i..][1..] == symbols[i + 1..] && feeds[i..][1..] == feeds[i + 1..];
        assert goal == RunFrom(Step(before, usdt, symbol, feed), usdt, symbols[i + 1..], feeds[i + 1..]);
        i := i + 1;
        if symbol in openOrders || !feed.listed {
          continue;
        }
        fetched := fetched + [symbol];
        if |feed.bars| == 0 {
          continue;
        }
        var verdict := Evaluate(usdt, symbol, feed.bars);
        if verdict.Crash? {
          aborted := true;
          break;
        }
        if verdict.Enter? {
          var sig := verdict.signal;
          signals := signals + [sig];
          var requested := Buy(symbol, sig.qty, sig.price, feed.limits, feed.outcome);
          orders := orders + OptionToSeq(requested);
        }
      }
    }
  }
}
