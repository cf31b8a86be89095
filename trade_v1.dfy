/** The first trading script (tradev1.py): a set of symbols with an open buy
    and a map from symbol to the position bought, a sell signal (profit of
    more than 0.5% while EMA50 is below EMA200), market buy and sell routines
    that update both together, and one pass of the strategy loop that checks
    the sell signal before it considers a buy. */
module TradeV1 {
  import opened Exchange
  import opened Indicators

  /** The sell signal needs the price above the entry price times this. */
  const MinProfitFactor: real := 1.005

  /** A buy quantity: None stands for the non-finite quotient (inf, or nan for
      a zero balance) that numpy gives when the price divided by is 0. */
  type Quantity = Option<real>

  /** One entry of `posicoes_abertas`: the quantity bought and the fill price. */
  datatype Position = Position(qty: Quantity, entryPrice: real)

  /** The script's two global structures. */
  datatype Book = Book(openOrders: set<Symbol>, positions: map<Symbol, Position>)

  /** The two structures describe the same symbols. */
  predicate Consistent(b: Book)
  {
    b.openOrders == b.positions.Keys
  }

  datatype MarketOrder = BuyOrder(symbol: Symbol, amount: Quantity) | SellOrder(symbol: Symbol, qty: real)

  /** The book after a buy or sell attempt, and the market order requested, if any. */
  datatype BookResult = BookResult(book: Book, requested: Option<MarketOrder>)

  // ---------------------------------------------------------------- sell signal

  /** `verificar_sinal_venda`: a recorded position, a price above 1.005 times
      its entry price, and EMA50 below EMA200. */
  predicate SellSignal(positions: map<Symbol, Position>, symbol: Symbol, price: real, ema50: real, ema200: real)
  {
    symbol in positions && price > positions[symbol].entryPrice * MinProfitFactor && ema50 < ema200
  }

  /** Without a recorded position there is never a sell signal. */
  lemma NoPositionNoSell(positions: map<Symbol, Position>, symbol: Symbol, price: real, ema50: real, ema200: real)
    requires symbol !in positions
    ensures !SellSignal(positions, symbol, price, ema50, ema200)
  {
  }

  /** Profit alone, or a downtrend alone, does not fire the signal; the
      profit threshold is strict. */
  lemma SellNeedsBoth(positions: map<Symbol, Position>, symbol: Symbol, price: real, ema50: real, ema200: real)
    requires symbol in positions
    ensures ema50 >= ema200 ==> !SellSignal(positions, symbol, price, ema50, ema200)
    ensures price <= positions[symbol].entryPrice * MinProfitFactor ==> !SellSignal(positions, symbol, price, ema50, ema200)
    ensures price > positions[symbol].entryPrice * MinProfitFactor && ema50 < ema200 ==> SellSignal(positions, symbol, price, ema50, ema200)
  {
  }

  /** Bought at 100: at 102 in a downtrend the signal fires; at 100.5 (the
      threshold itself) or in an uptrend it does not. */
  lemma SellSignalScenarios()
    ensures SellSignal(map["BTC/USDT" := Position(Some(1.0), 100.0)], "BTC/USDT", 102.0, 1.0, 2.0)
    ensures !SellSignal(map["BTC/USDT" := Position(Some(1.0), 100.0)], "BTC/USDT", 100.5, 1.0, 2.0)
    ensures !SellSignal(map["BTC/USDT" := Position(Some(1.0), 100.0)], "BTC/USDT", 102.0, 2.0, 1.0)
    ensures !SellSignal(map["BTC/USDT" := Position(Some(1.0), 100.0)], "ETH/USDT", 102.0, 1.0, 2.0)
  {
  }

  // ---------------------------------------------------------------- fills and symbols

  /** `order.get('average') or order.get('price') or ref`. */
  function FillPrice(average: Option<real>, price: Option<real>, ref: real): real
  {
    if Truthy(average) then average.value else if Truthy(price) then price.value else ref
  }

  /** The recorded entry price is 0 only if the reference price is. */
  lemma FillPriceNonZero(average: Option<real>, price: Option<real>, ref: real)
    requires ref != 0.0
    ensures FillPrice(average, price, ref) != 0.0
  {
  }

  /** `symbol.split("/")[0]`: the text before the first '/'. */
  function BaseAsset(symbol: string): (base: string)
    ensures base <= symbol && '/' !in base
    ensures |base| < |symbol| ==> symbol[|base|] == '/'
  {
    if |symbol| == 0 || symbol[0] == '/' then ""
    else [symbol[0]] + BaseAsset(symbol[1..])
  }

  lemma BaseAssetOfPairs()
    ensures BaseAsset("BTC/USDT") == "BTC"
    ensures BaseAsset("ETH/USDT") == "ETH"
  {
    assert BaseAsset("BTC/USDT") == "BTC" by {
      assert "BTC/USDT"[3] == '/';
    }
    assert BaseAsset("ETH/USDT") == "ETH" by {
      assert "ETH/USDT"[3] == '/';
    }
  }

  // ---------------------------------------------------------------- buying and selling

  /** `executar_ordem_compra`: every failure inside it is caught. A missing
      `id` in the returned order raises after the order was placed, so the
      book is not updated. */
  function AfterBuy(book: Book, symbol: Symbol, qty: Quantity, price: real, outcome: OrderOutcome): BookResult
  {
    if symbol in book.openOrders then BookResult(book, None)
    else if outcome.Raised? || !outcome.hasId then BookResult(book, Some(BuyOrder(symbol, qty)))
    else BookResult(Book(book.openOrders + {symbol},
                         book.positions[symbol := Position(qty, FillPrice(outcome.average, outcome.price, price))]),
                    Some(BuyOrder(symbol, qty)))
  }

  /** A buy for a symbol in the set requests nothing and changes nothing. */
  lemma BuyAlreadyOpen(book: Book, symbol: Symbol, qty: Quantity, price: real, outcome: OrderOutcome)
    requires symbol in book.openOrders
    ensures AfterBuy(book, symbol, qty, price, outcome) == BookResult(book, None)
  {
  }

  /** A buy whose order returned with an id records the symbol in both
      structures, with the quantity and the fill price, and leaves every other
      symbol as it was; a buy whose order failed changes nothing. */
  lemma BuyRecordsPosition(book: Book, symbol: Symbol, qty: Quantity, price: real, outcome: OrderOutcome)
    requires symbol !in book.openOrders
    ensures var b := AfterBuy(book, symbol, qty, price, outcome).book;
            (outcome.Returned? && outcome.hasId ==>
               symbol in b.openOrders && symbol in b.positions
               && b.positions[symbol].qty == qty
               && b.positions[symbol].entryPrice == FillPrice(outcome.average, outcome.price, price)
               && (forall x :: x != symbol ==> (x in b.openOrders <==> x in book.openOrders))
               && (forall x :: x != symbol && x in book.positions ==> x in b.positions && b.positions[x] == book.positions[x]))
            && (outcome.Raised? || !outcome.hasId ==> b == book)
  {
  }

  /** `executar_ordem_venda`: sells the whole free balance of the base asset.
      A failed balance fetch, a zero balance, a failed order or a missing `id`
      leave the book as it was; the removals are guarded. */
  function AfterSell(book: Book, symbol: Symbol, freeBalance: Option<map<string, real>>, outcome: OrderOutcome): BookResult
  {
    if freeBalance.None? then BookResult(book, None)
    else
      var qty := FreeAmount(freeBalance.value, BaseAsset(symbol));
      if qty == 0.0 then BookResult(book, None)
      else if outcome.Raised? || !outcome.hasId then BookResult(book, Some(SellOrder(symbol, qty)))
      else BookResult(Book(book.openOrders - {symbol}, book.positions - {symbol}), Some(SellOrder(symbol, qty)))
  }

  /** With no free balance of the base asset nothing is requested and nothing changes. */
  lemma SellWithoutBalance(book: Book, symbol: Symbol, free: map<string, real>, outcome: OrderOutcome)
    requires FreeAmount(free, BaseAsset(symbol)) == 0.0
    ensures AfterSell(book, symbol, Some(free), outcome) == BookResult(book, None)
  {
  }

  /** A completed sell (a free balance, an order that returned an `id`)
      requests the whole free amount and removes the symbol from both
      structures; every other symbol is kept, and a raised order changes
      nothing. */
  lemma SellClosesPosition(book: Book, symbol: Symbol, freeBalance: Option<map<string, real>>, outcome: OrderOutcome)
    ensures var r := AfterSell(book, symbol, freeBalance, outcome);
            (r.book == book || (symbol !in r.book.openOrders && symbol !in r.book.positions))
            && (forall x :: x != symbol ==> (x in r.book.openOrders <==> x in book.openOrders))
            && (forall x :: x != symbol && x in book.positions ==> x in r.book.positions && r.book.positions[x] == book.positions[x])
            && (outcome.Raised? ==> r.book == book)
            && (freeBalance.Some? && FreeAmount(freeBalance.value, BaseAsset(symbol)) != 0.0
                && outcome.Returned? && outcome.hasId ==>
                  symbol !in r.book.openOrders && symbol !in r.book.positions
                  && r.requested == Some(SellOrder(symbol, FreeAmount(freeBalance.value, BaseAsset(symbol)))))
  {
  }

  /** Selling a symbol that was never bought is harmless. */
  lemma SellAbsentHarmless(book: Book, symbol: Symbol, freeBalance: Option<map<string, real>>, outcome: OrderOutcome)
    requires symbol !in book.openOrders && symbol !in book.positions
    ensures AfterSell(book, symbol, freeBalance, outcome).book == book
  {
    assert book.positions - {symbol} == book.positions;
  }

  lemma BuyKeepsConsistent(book: Book, symbol: Symbol, qty: Quantity, price: real, outcome: OrderOutcome)
    requires Consistent(book)
    ensures Consistent(AfterBuy(book, symbol, qty, price, outcome).book)
  {
  }

  lemma SellKeepsConsistent(book: Book, symbol: Symbol, freeBalance: Option<map<string, real>>, outcome: OrderOutcome)
    requires Consistent(book)
    ensures Consistent(AfterSell(book, symbol, freeBalance, outcome).book)
  {
  }

  // ---------------------------------------------------------------- one cycle

  /** The inputs one pass reads for one symbol: its OHLCV rows (None when the
      fetch raised), the balance the sell routine fetches, and what the sell
      and buy order calls did. */
  datatype Feed = Feed(ohlcv: Option<seq<Bar>>, sellBalance: Option<map<string, real>>,
                       sellOutcome: OrderOutcome, buyOutcome: OrderOutcome)

  /** The last close, EMA50 and EMA200 of the fetched rows. */
  datatype Quote = Quote(price: real, ema50: real, ema200: real)

  function QuoteOf(bars: seq<Bar>): (q: Quote)
    requires |bars| > 0
    ensures q.price == bars[|bars| - 1].close
  {
    var closes := Closes(bars);
    var fast, slow := Ema(closes, EmaFast), Ema(closes, EmaSlow);
    Quote(Last(closes), Last(fast), Last(slow))
  }

  /** The book so far, the market orders requested, and whether an exception
      ended the pass. */
  datatype CycleState = CycleState(book: Book, requests: seq<MarketOrder>, aborted: bool)

  /** The buy quantity of tradev1.py:181, 5% of the balance over the last
      close. The close is a numpy float, so a zero price does not raise: the
      quotient is non-finite, recorded as None, and the buy still goes out. */
  function BuyQty(usdt: real, price: real): (qty: Quantity)
    ensures qty.None? <==> price == 0.0
    ensures qty.Some? ==> qty.value * price == usdt * RiskPerTrade
  {
    if price == 0.0 then None else Some(Stake(usdt, price))
  }

  /** One symbol of the `for symbol in symbols` body. A failed fetch and an
      empty row list raise out of the body and end the pass. */
  function Step(s: CycleState, usdt: real, symbol: Symbol, feed: Feed): CycleState
  {
    if feed.ohlcv.None? || |feed.ohlcv.value| == 0 then s.(aborted := true)
    else
      var q := QuoteOf(feed.ohlcv.value);
      if SellSignal(s.book.positions, symbol, q.price, q.ema50, q.ema200) then
        var r := AfterSell(s.book, symbol, feed.sellBalance, feed.sellOutcome);
        s.(book := r.book, requests := s.requests + OptionToSeq(r.requested))
      else if q.ema50 > q.ema200 && symbol !in s.book.positions then
        var r := AfterBuy(s.book, symbol, BuyQty(usdt, q.price), q.price, feed.buyOutcome);
        s.(book := r.book, requests := s.requests + OptionToSeq(r.requested))
      else s
  }

  /** The remaining symbols of a pass; an exception ends it. */
  function RunFrom(s: CycleState, usdt: real, symbols: seq<Symbol>, feeds: seq<Feed>): CycleState
    requires |feeds| == |symbols|
    decreases |symbols|
  {
    if |symbols| == 0 || s.aborted then s
    else RunFrom(Step(s, usdt, symbols[0], feeds[0]), usdt, symbols[1..], feeds[1..])
  }

  /** One pass of `estrategia_scalping_com_backtest`; a failed balance fetch
      ends it before any symbol. */
  function Cycle(book: Book, freeBalance: Option<map<string, real>>, symbols: seq<Symbol>, feeds: seq<Feed>): CycleState
    requires |feeds| == |symbols|
  {
    if freeBalance.None? then CycleState(book, [], true)
    else RunFrom(CycleState(book, [], false), FreeAmount(freeBalance.value, "USDT"), symbols, feeds)
  }

  /** Within one step the sell check comes first: when it fires no buy is
      requested; a buy is requested only with EMA50 above EMA200, no position
      for the symbol, and a quantity of 5% of the balance over the price
      (non-finite, None, when the price is 0). */
  lemma StepOrderRules(s: CycleState, usdt: real, symbol: Symbol, feed: Feed)
    ensures var t := Step(s, usdt, symbol, feed);
            s.requests <= t.requests && |t.requests| <= |s.requests| + 1
            && (|t.requests| > |s.requests| ==> t.requests[|s.requests|].symbol == symbol)
            && (|t.requests| > |s.requests| && t.requests[|s.requests|].BuyOrder? ==>
                  feed.ohlcv.Some? && |feed.ohlcv.value| > 0
                  && var q := QuoteOf(feed.ohlcv.value);
                     !SellSignal(s.book.positions, symbol, q.price, q.ema50, q.ema200)
                     && q.ema50 > q.ema200 && symbol !in s.book.positions
                     && var amount := t.requests[|s.requests|].amount;
                        (q.price != 0.0 ==> amount.Some? && amount.value * q.price == usdt * RiskPerTrade)
                        && (q.price == 0.0 ==> amount.None?))
            && (|t.requests| > |s.requests| && t.requests[|s.requests|].SellOrder? ==>
                  feed.ohlcv.Some? && |feed.ohlcv.value| > 0
                  && var q := QuoteOf(feed.ohlcv.value);
                     SellSignal(s.book.positions, symbol, q.price, q.ema50, q.ema200))
  {
  }

  lemma StepKeepsConsistent(s: CycleState, usdt: real, symbol: Symbol, feed: Feed)
    requires Consistent(s.book)
    ensures Consistent(Step(s, usdt, symbol, feed).book)
  {
    if feed.ohlcv.Some? && |feed.ohlcv.value| > 0 {
      var q := QuoteOf(feed.ohlcv.value);
      if SellSignal(s.book.positions, symbol, q.price, q.ema50, q.ema200) {
        SellKeepsConsistent(s.book, symbol, feed.sellBalance, feed.sellOutcome);
      } else if q.ema50 > q.ema200 && symbol !in s.book.positions {
        BuyKeepsConsistent(s.book, symbol, BuyQty(usdt, q.price), q.price, feed.buyOutcome);
      }
    }
  }

  lemma {:induction false} RunFromKeepsConsistent(s: CycleState, usdt: real, symbols: seq<Symbol>, feeds: seq<Feed>)
    requires |feeds| == |symbols| && Consistent(s.book)
    ensures Consistent(RunFrom(s, usdt, symbols, feeds).book)
    decreases |symbols|
  {
    if |symbols| > 0 && !s.aborted {
      StepKeepsConsistent(s, usdt, symbols[0], feeds[0]);
      RunFromKeepsConsistent(Step(s, usdt, symbols[0], feeds[0]), usdt, symbols[1..], feeds[1..]);
    }
  }

  /** The set of symbols with an open buy and the keys of the position map
      stay equal across a whole pass; the map holds one position per symbol. */
  lemma CycleKeepsConsistent(book: Book, freeBalance: Option<map<string, real>>, symbols: seq<Symbol>, feeds: seq<Feed>)
    requires |feeds| == |symbols| && Consistent(book)
    ensures Consistent(Cycle(book, freeBalance, symbols, feeds).book)
  {
    if freeBalance.Some? {
      RunFromKeepsConsistent(CycleState(book, [], false), FreeAmount(freeBalance.value, "USDT"), symbols, feeds);
    }
  }

  // ---------------------------------------------------------------- the program state

  /** The script's globals `ordens_abertas_por_simbolo` and `posicoes_abertas`. */
  class Trader {
    var openOrders: set<Symbol>
    var positions: map<Symbol, Position>

    function State(): Book
      reads this
    {
      Book(openOrders, positions)
    }

    constructor()
      ensures State() == Book({}, map[]) && Consistent(State())
    {
      openOrders := {};
      positions := map[];
    }

    /** `executar_ordem_compra`: returns the market order it requested, if any. */
    method Buy(symbol: Symbol, qty: Quantity, price: real, outcome: OrderOutcome) returns (requested: Option<MarketOrder>)
      modifies this
      ensures BookResult(State(), requested) == AfterBuy(old(State()), symbol, qty, price, outcome)
    {
      requested := None;
      if symbol in openOrders {
        return;
      }
      requested := Some(BuyOrder(symbol, qty));
      if outcome.Raised? {
        return;
      }
      var paid := FillPrice(outcome.average, outcome.price, price);
      if !outcome.hasId {
        return;  // `order['id']` raises KeyError, caught
      }
      openOrders := openOrders + {symbol};
      positions := positions[symbol := Position(qty, paid)];
    }

    /** `executar_ordem_venda`: returns the market order it requested, if any. */
    method Sell(symbol: Symbol, freeBalance: Option<map<string, real>>, outcome: OrderOutcome)
      returns (requested: Option<MarketOrder>)
      modifies this
      ensures BookResult(State(), requested) == AfterSell(old(State()), symbol, freeBalance, outcome)
    {
      requested := None;
      var base := BaseAsset(symbol);
      if freeBalance.None? {
        return;  // the balance fetch raised, caught
      }
      var qty := FreeAmount(freeBalance.value, base);
      if qty == 0.0 {
        return;
      }
      requested := Some(SellOrder(symbol, qty));
      if outcome.Raised? || !outcome.hasId {
        return;
      }
      if symbol in openOrders {
        openOrders := openOrders - {symbol};
      }
      if symbol in positions {
        positions := positions - {symbol};
      } else {
        assert positions - {symbol} == positions;
      }
    }

    /** One pass of the strategy loop. */
    method RunCycle(freeBalance: Option<map<string, real>>, symbols: seq<Symbol>, feeds: seq<Feed>)
      returns (requests: seq<MarketOrder>, aborted: bool)
      requires |feeds| == |symbols|
      modifies this
      ensures CycleState(State(), requests, aborted) == Cycle(old(State()), freeBalance, symbols, feeds)
    {
      requests, aborted := [], false;
      if freeBalance.None? {
        aborted := true;
        return;
      }
      var usdt := FreeAmount(freeBalance.value, "USDT");
      ghost var goal := Cycle(old(State()), freeBalance, symbols, feeds);
      var i := 0;
      while i < |symbols|
        invariant 0 <= i <= |symbols| && !aborted
        invariant goal == RunFrom(CycleState(State(), requests, false), usdt, symbols[i..], feeds[i..])
      {
        ghost var before := CycleState(State(), requests, false);
        var symbol, feed := symbols[i], feeds[i];
        assert symbols[i..][1..] == symbols[i + 1..] && feeds[i..][1..] == feeds[i + 1..];
        assert goal == RunFrom(Step(before, usdt, symbol, feed), usdt, symbols[i + 1..], feeds[i + 1..]);
        i := i + 1;
        if feed.ohlcv.None? || |feed.ohlcv.value| == 0 {
          aborted := true;  // the fetch raised, or `iloc[-1]` of an empty frame
          break;
        }
        var bars := feed.ohlcv.value;
        var closes := Closes(bars);
        var fast := Ema(closes, EmaFast);
        var slow := Ema(closes, EmaSlow);
        var price := Last(closes);
        var ema50 := Last(fast);
        var ema200 := Last(slow);
        assert QuoteOf(bars) == Quote(price, ema50, ema200);
        if SellSignal(positions, symbol, price, ema50, ema200) {
          var requested := Sell(symbol, feed.sellBalance, feed.sellOutcome);
          requests := requests + OptionToSeq(requested);
          assert Step(before, usdt, symbol, feed) == CycleState(State(), requests, false);
          continue;
        }
        if ema50 > ema200 && symbol !in positions {
          var qty := BuyQty(usdt, price);  // a zero close gives inf or nan in numpy, not an exception
          var requested := Buy(symbol, qty, price, feed.buyOutcome);
          requests := requests + OptionToSeq(requested);
          assert Step(before, usdt, symbol, feed) == CycleState(State(), requests, false);
        } else {
          assert Step(before, usdt, symbol, feed) == before;
        }
      }
    }
  }
}
