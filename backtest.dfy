/** `backtest_simples` of tradev2.py: replays a bar sequence annotated with
    EMA50 and EMA200, opens a hypothetical long at the close of every bar where
    EMA50 > EMA200 (after a warm-up of 200 bars and before the last 50), looks
    at most 50 bars ahead for the stop or the target, and compounds a notional
    capital of 1000 by the outcome of each trade that hit one of them. */
module Backtest {
  import opened Exchange
  import opened Indicators

  /** Index of the first bar that may be an entry. */
  const Warmup: nat := 200
  /** How many bars after an entry are scanned for the stop or the target. */
  const Horizon: nat := 50
  const StartCapital: real := 1000.0
  /** The default `sl_pct` and `tp_pct`. */
  const DefaultSlPct: real := 0.005
  const DefaultTpPct: real := 0.01

  datatype Trade = Win | Loss

  datatype Report = Report(trades: nat, winRate: real, profitPct: real)

  /** Bar b reaches the stop price or the target price. */
  predicate Hits(b: Bar, sl: real, tp: real)
  {
    b.low <= sl || b.high >= tp
  }

  /** The outcome at the first bar in [from, to) that reaches the stop or the
      target; the stop is tested first, so a bar reaching both is a loss. */
  function FirstHit(bars: seq<Bar>, from: nat, to: nat, sl: real, tp: real): Option<Trade>
    requires to <= |bars|
    decreases (to as int) - from
  {
    if from >= to then None
    else if bars[from].low <= sl then Some(Loss)
    else if bars[from].high >= tp then Some(Win)
    else FirstHit(bars, from + 1, to, sl, tp)
  }

  /** FirstHit is None exactly when no bar of the window reaches either price,
      and otherwise reports the first bar that does: a loss if its low reaches
      the stop, else a win. */
  lemma {:induction false} FirstHitIsFirst(bars: seq<Bar>, from: nat, to: nat, sl: real, tp: real)
    requires from <= to <= |bars|
    ensures FirstHit(bars, from, to, sl, tp).None? <==> forall k :: from <= k < to ==> !Hits(bars[k], sl, tp)
    ensures FirstHit(bars, from, to, sl, tp).Some? ==>
              (exists k :: from <= k < to && Hits(bars[k], sl, tp)
                         && (forall j :: from <= j < k ==> !Hits(bars[j], sl, tp))
                         && FirstHit(bars, from, to, sl, tp).value == (if bars[k].low <= sl then Loss else Win))
    decreases (to as int) - from
  {
    if from < to && !Hits(bars[from], sl, tp) {
      FirstHitIsFirst(bars, from + 1, to, sl, tp);
      var r := FirstHit(bars, from, to, sl, tp);
      if r.Some? {
        var k :| from + 1 <= k < to && Hits(bars[k], sl, tp)
                 && (forall j :: from + 1 <= j < k ==> !Hits(bars[j], sl, tp))
                 && r.value == (if bars[k].low <= sl then Loss else Win);
        assert forall j :: from <= j < k ==> !Hits(bars[j], sl, tp);
      }
    }
  }

  /** One past the last entry index: `range(200, len(df) - 50)`. */
  function ScanEnd(n: nat): nat
  {
    if n - Horizon > Warmup then n - Horizon else Warmup
  }

  /** The hypothetical trade opened at the close of bar i: stop 1 - sl_pct and
      target 1 + tp_pct times that close, scanned over bars i+1 .. i+50. */
  function EntryOutcome(bars: seq<Bar>, i: nat, slPct: real, tpPct: real): Option<Trade>
    requires i + 1 + Horizon <= |bars|
  {
    var entry := bars[i].close;
    FirstHit(bars, i + 1, i + 1 + Horizon, entry * (1.0 - slPct), entry * (1.0 + tpPct))
  }

  /** The `trades` list after the entries at indices Warmup .. n-1. */
  function TradesUpTo(bars: seq<Bar>, fast: seq<real>, slow: seq<real>, slPct: real, tpPct: real, n: nat): seq<Trade>
    requires |fast| == |bars| && |slow| == |bars|
    requires n <= ScanEnd(|bars|)
  {
    if n <= Warmup then []
    else
      var prev := TradesUpTo(bars, fast, slow, slPct, tpPct, n - 1);
      if fast[n - 1] > slow[n - 1] then
        match EntryOutcome(bars, n - 1, slPct, tpPct)
        case Some(t) => prev + [t]
        case None => prev
      else prev
  }

  /** The `entrou` counter after the entries at indices Warmup .. n-1. */
  function EntriesUpTo(fast: seq<real>, slow: seq<real>, n: nat): nat
    requires |slow| == |fast| && n <= ScanEnd(|fast|)
  {
    if n <= Warmup then 0
    else EntriesUpTo(fast, slow, n - 1) + (if fast[n - 1] > slow[n - 1] then 1 else 0)
  }

  function Factor(t: Trade, slPct: real, tpPct: real): real
  {
    match t
    case Win => 1.0 + tpPct
    case Loss => 1.0 - slPct
  }

  /** The capital after compounding the trades in order, starting from 1000. */
  function Compound(trades: seq<Trade>, slPct: real, tpPct: real): real
  {
    if trades == [] then StartCapital
    else Compound(trades[..|trades| - 1], slPct, tpPct) * Factor(trades[|trades| - 1], slPct, tpPct)
  }

  function Count(trades: seq<Trade>, t: Trade): nat
  {
    if trades == [] then 0
    else Count(trades[..|trades| - 1], t) + (if trades[|trades| - 1] == t then 1 else 0)
  }

  /** What `backtest_simples` returns for a list of trades and the final capital. */
  function Summarize(trades: seq<Trade>, capital: real): Report
  {
    if |trades| == 0 then Report(0, 0.0, 0.0)
    else Report(|trades|, Count(trades, Win) as real / |trades| as real * 100.0,
                (capital - StartCapital) / StartCapital * 100.0)
  }

  /** The result of `backtest_simples(df, sl_pct, tp_pct)`. */
  function Backtest(bars: seq<Bar>, fast: seq<real>, slow: seq<real>, slPct: real, tpPct: real): Report
    requires |fast| == |bars| && |slow| == |bars|
  {
    var trades := TradesUpTo(bars, fast, slow, slPct, tpPct, ScanEnd(|bars|));
    Summarize(trades, Compound(trades, slPct, tpPct))
  }

  /** The inner block of `backtest_simples` for an entry at bar i: the stop
      and target around its close, then the scan of bars i+1 .. i+50 for the
      first bar whose low reaches the stop (a loss) or, failing that, whose
      high reaches the target (a win). */
  method ScanEntry(bars: seq<Bar>, i: nat, slPct: real, tpPct: real) returns (hit: Option<Trade>)
    requires i + 1 + Horizon <= |bars|
    ensures hit == EntryOutcome(bars, i, slPct, tpPct)
  {
    var entry := bars[i].close;
    var sl := entry * (1.0 - slPct);
    var tp := entry * (1.0 + tpPct);
    assert EntryOutcome(bars, i, slPct, tpPct) == FirstHit(bars, i + 1, i + 1 + Horizon, sl, tp);
    var k := i + 1;
    while k < i + 1 + Horizon
      invariant i + 1 <= k <= i + 1 + Horizon
      invariant EntryOutcome(bars, i, slPct, tpPct) == FirstHit(bars, k, i + 1 + Horizon, sl, tp)
    {
      if bars[k].low <= sl {
        return Some(Loss);
      } else if bars[k].high >= tp {
        return Some(Win);
      }
      k := k + 1;
    }
    return None;
  }

  /** The simulator loop itself: the outer loop over candidate entries
      compounds the capital by the outcome of each scan that reached a price. */
  method BacktestSimple(bars: seq<Bar>, fast: seq<real>, slow: seq<real>)
    returns (count: nat, winRate: real, profitPct: real)
    requires |fast| == |bars| && |slow| == |bars|
    ensures Report(count, winRate, profitPct) == Backtest(bars, fast, slow, DefaultSlPct, DefaultTpPct)
  {
    var capital := StartCapital;
    var trades: seq<Trade> := [];
    var entered := 0;  // only logged by tradev2.py
    var i := Warmup;
    while i < |bars| - Horizon
      invariant Warmup <= i <= ScanEnd(|bars|)
      invariant trades == TradesUpTo(bars, fast, slow, DefaultSlPct, DefaultTpPct, i)
      invariant capital == Compound(trades, DefaultSlPct, DefaultTpPct)
      invariant entered == EntriesUpTo(fast, slow, i)
    {
      if fast[i] > slow[i] {
        entered := entered + 1;
        var hit := ScanEntry(bars, i, DefaultSlPct, DefaultTpPct);
        TradesAfterEntry(bars, fast, slow, DefaultSlPct, DefaultTpPct, i);
        ghost var before := trades;
        match hit {
          case Some(Loss) =>
            CompoundSnoc(trades, Loss, DefaultSlPct, DefaultTpPct);
            capital := capital * (1.0 - DefaultSlPct);
            trades := trades + [Loss];
          case Some(Win) =>
            CompoundSnoc(trades, Win, DefaultSlPct, DefaultTpPct);
            capital := capital * (1.0 + DefaultTpPct);
            trades := trades + [Win];
          case None =>
        }
        assert trades == before + OptionToSeq(hit);
      } else {
        TradesAfterNonEntry(bars, fast, slow, DefaultSlPct, DefaultTpPct, i);
      }
      i := i + 1;
    }
    var report := Summarize(trades, capital);
    count, winRate, profitPct := report.trades, report.winRate, report.profitPct;
  }

  /** Passing an entry index appends that entry's outcome, if any. */
  lemma TradesAfterEntry(bars: seq<Bar>, fast: seq<real>, slow: seq<real>, slPct: real, tpPct: real, i: nat)
    requires |fast| == |bars| && |slow| == |bars|
    requires Warmup <= i < ScanEnd(|bars|) && fast[i] > slow[i]
    ensures TradesUpTo(bars, fast, slow, slPct, tpPct, i + 1)
            == TradesUpTo(bars, fast, slow, slPct, tpPct, i) + OptionToSeq(EntryOutcome(bars, i, slPct, tpPct))
  {
  }

  /** Passing an index that is not an entry records nothing. */
  lemma TradesAfterNonEntry(bars: seq<Bar>, fast: seq<real>, slow: seq<real>, slPct: real, tpPct: real, i: nat)
    requires |fast| == |bars| && |slow| == |bars|
    requires Warmup <= i < ScanEnd(|bars|) && !(fast[i] > slow[i])
    ensures TradesUpTo(bars, fast, slow, slPct, tpPct, i + 1) == TradesUpTo(bars, fast, slow, slPct, tpPct, i)
  {
  }

  /** Recording one more trade multiplies the capital by its factor. */
  lemma CompoundSnoc(trades: seq<Trade>, t: Trade, slPct: real, tpPct: real)
    ensures Compound(trades + [t], slPct, tpPct) == Compound(trades, slPct, tpPct) * Factor(t, slPct, tpPct)
  {
    assert (trades + [t])[..|trades|] == trades;
  }

  // ---------------------------------------------------------------- counts

  /** Every recorded trade comes from an entry, and there is at most one entry
      per scanned index. */
  lemma {:induction false} TradesAtMostEntries(bars: seq<Bar>, fast: seq<real>, slow: seq<real>, slPct: real, tpPct: real, n: nat)
    requires |fast| == |bars| && |slow| == |bars|
    requires n <= ScanEnd(|bars|)
    ensures |TradesUpTo(bars, fast, slow, slPct, tpPct, n)| <= EntriesUpTo(fast, slow, n)
    ensures EntriesUpTo(fast, slow, n) <= if n > Warmup then n - Warmup else 0
  {
    if n > Warmup {
      TradesAtMostEntries(bars, fast, slow, slPct, tpPct, n - 1);
    }
  }

  /** The indices the simulator enters at. */
  function EntrySet(fast: seq<real>, slow: seq<real>, n: nat): set<nat>
    requires |slow| == |fast| && n <= ScanEnd(|fast|)
  {
    set i: nat | Warmup <= i < n && fast[i] > slow[i]
  }

  /** `entrou` counts exactly the indices 200 <= i < n with EMA50 > EMA200. */
  lemma {:induction false} EntriesCountEntrySet(fast: seq<real>, slow: seq<real>, n: nat)
    requires |slow| == |fast| && n <= ScanEnd(|fast|)
    ensures EntriesUpTo(fast, slow, n) == |EntrySet(fast, slow, n)|
  {
    if n <= Warmup {
      assert EntrySet(fast, slow, n) == {};
    } else {
      EntriesCountEntrySet(fast, slow, n - 1);
      var prev := EntrySet(fast, slow, n - 1);
      assert n - 1 !in prev;
      if fast[n - 1] > slow[n - 1] {
        assert EntrySet(fast, slow, n) == prev + {n - 1};
      } else {
        assert EntrySet(fast, slow, n) == prev;
      }
    }
  }

  /** Recorded trades <= opportunities <= max(0, len - 250). */
  lemma BacktestCounts(bars: seq<Bar>, fast: seq<real>, slow: seq<real>, slPct: real, tpPct: real)
    requires |fast| == |bars| && |slow| == |bars|
    ensures Backtest(bars, fast, slow, slPct, tpPct).trades <= |EntrySet(fast, slow, ScanEnd(|bars|))|
    ensures |EntrySet(fast, slow, ScanEnd(|bars|))| <= if |bars| > Warmup + Horizon then |bars| - Warmup - Horizon else 0
  {
    TradesAtMostEntries(bars, fast, slow, slPct, tpPct, ScanEnd(|bars|));
    EntriesCountEntrySet(fast, slow, ScanEnd(|bars|));
  }

  lemma {:induction false} CountsAddUp(trades: seq<Trade>)
    ensures Count(trades, Win) + Count(trades, Loss) == |trades|
  {
    if trades != [] {
      CountsAddUp(trades[..|trades| - 1]);
    }
  }

  /** The count of a trade kind is its multiplicity in the list. */
  lemma {:induction false} CountIsMultiplicity(trades: seq<Trade>, t: Trade)
    ensures Count(trades, t) == multiset(trades)[t]
  {
    if trades != [] {
      var init := trades[..|trades| - 1];
      CountIsMultiplicity(init, t);
      assert trades == init + [trades[|trades| - 1]];
      assert multiset(trades) == multiset(init) + multiset{trades[|trades| - 1]};
    }
  }

  /** With no recorded trade the result is (0, 0, 0); otherwise the win rate
      is a percentage. */
  lemma BacktestReportBounds(bars: seq<Bar>, fast: seq<real>, slow: seq<real>, slPct: real, tpPct: real)
    requires |fast| == |bars| && |slow| == |bars|
    ensures var r := Backtest(bars, fast, slow, slPct, tpPct);
            (r.trades == 0 ==> r == Report(0, 0.0, 0.0))
            && (r.trades > 0 ==> 0.0 <= r.winRate <= 100.0)
  {
    var trades := TradesUpTo(bars, fast, slow, slPct, tpPct, ScanEnd(|bars|));
    CountsAddUp(trades);
    if |trades| > 0 {
      RatioIsPercentage(Count(trades, Win), |trades|);
    }
  }

  lemma RatioIsPercentage(part: nat, whole: nat)
    requires part <= whole && whole > 0
    ensures 0.0 <= part as real / whole as real * 100.0 <= 100.0
    ensures part == whole ==> part as real / whole as real * 100.0 == 100.0
  {
    assert part as real / whole as real <= 1.0;
  }

  // ---------------------------------------------------------------- capital

  /** Closed form of the compounded capital. */
  predicate CompoundClosed(trades: seq<Trade>, slPct: real, tpPct: real)
  {
    Compound(trades, slPct, tpPct)
      == StartCapital * Pow(1.0 + tpPct, Count(trades, Win)) * Pow(1.0 - slPct, Count(trades, Loss))
  }

  lemma ScaleFirst(c0: real, c: real, f: real, a: real, a1: real, b: real)
    requires c0 == StartCapital * a * b && c == c0 * f && a1 == f * a
    ensures c == StartCapital * a1 * b
  {
  }

  lemma ScaleSecond(c0: real, c: real, f: real, a: real, b: real, b1: real)
    requires c0 == StartCapital * a * b && c == c0 * f && b1 == f * b
    ensures c == StartCapital * a * b1
  {
  }

  lemma CompoundClosedWin(trades: seq<Trade>, slPct: real, tpPct: real)
    requires trades != [] && trades[|trades| - 1] == Win
    requires CompoundClosed(trades[..|trades| - 1], slPct, tpPct)
    ensures CompoundClosed(trades, slPct, tpPct)
  {
    var init := trades[..|trades| - 1];
    var w, l := Count(init, Win), Count(init, Loss);
    assert Count(trades, Win) == w + 1 && Count(trades, Loss) == l;
    var a1 := Pow(1.0 + tpPct, w + 1);
    ScaleFirst(Compound(init, slPct, tpPct), Compound(trades, slPct, tpPct), 1.0 + tpPct,
               Pow(1.0 + tpPct, w), a1, Pow(1.0 - slPct, l));
  }

  lemma CompoundClosedLoss(trades: seq<Trade>, slPct: real, tpPct: real)
    requires trades != [] && trades[|trades| - 1] == Loss
    requires CompoundClosed(trades[..|trades| - 1], slPct, tpPct)
    ensures CompoundClosed(trades, slPct, tpPct)
  {
    var init := trades[..|trades| - 1];
    var w, l := Count(init, Win), Count(init, Loss);
    assert Count(trades, Win) == w && Count(trades, Loss) == l + 1;
    var b1 := Pow(1.0 - slPct, l + 1);
    ScaleSecond(Compound(init, slPct, tpPct), Compound(trades, slPct, tpPct), 1.0 - slPct,
                Pow(1.0 + tpPct, w), Pow(1.0 - slPct, l), b1);
  }

  /** Final capital = 1000 * (1 + tp)^wins * (1 - sl)^losses. */
  lemma {:induction false} CompoundClosedForm(trades: seq<Trade>, slPct: real, tpPct: real)
    ensures CompoundClosed(trades, slPct, tpPct)
  {
    if trades != [] {
      CompoundClosedForm(trades[..|trades| - 1], slPct, tpPct);
      if trades[|trades| - 1] == Win {
        CompoundClosedWin(trades, slPct, tpPct);
      } else {
        CompoundClosedLoss(trades, slPct, tpPct);
      }
    }
  }

  /** The final capital, and so the whole report, depends only on how many
      wins and losses there were, not on their order. */
  lemma SummaryIgnoresOrder(t1: seq<Trade>, t2: seq<Trade>, slPct: real, tpPct: real)
    requires multiset(t1) == multiset(t2)
    ensures Compound(t1, slPct, tpPct) == Compound(t2, slPct, tpPct)
    ensures Summarize(t1, Compound(t1, slPct, tpPct)) == Summarize(t2, Compound(t2, slPct, tpPct))
  {
    CountIsMultiplicity(t1, Win);
    CountIsMultiplicity(t2, Win);
    CountIsMultiplicity(t1, Loss);
    CountIsMultiplicity(t2, Loss);
    assert Count(t1, Win) == Count(t2, Win) && Count(t1, Loss) == Count(t2, Loss);
    CompoundByCounts(t1, t2, slPct, tpPct);
    assert |t1| == |multiset(t1)| == |t2|;
  }

  /** Two trade lists with as many wins and as many losses end with the same capital. */
  lemma CompoundByCounts(t1: seq<Trade>, t2: seq<Trade>, slPct: real, tpPct: real)
    requires Count(t1, Win) == Count(t2, Win) && Count(t1, Loss) == Count(t2, Loss)
    ensures Compound(t1, slPct, tpPct) == Compound(t2, slPct, tpPct)
  {
    CompoundClosedForm(t1, slPct, tpPct);
    CompoundClosedForm(t2, slPct, tpPct);
  }

  lemma {:induction false} PowAboveOne(x: real, n: nat)
    requires x > 1.0 && n >= 1
    ensures Pow(x, n) > 1.0
  {
    if n > 1 {
      PowAboveOne(x, n - 1);
      MulMonotone(x, 1.0, Pow(x, n - 1));
    }
  }

  lemma {:induction false} AllWinsCount(trades: seq<Trade>)
    requires forall k :: 0 <= k < |trades| ==> trades[k] == Win
    ensures Count(trades, Win) == |trades| && Count(trades, Loss) == 0
  {
    if trades != [] {
      AllWinsCount(trades[..|trades| - 1]);
    }
  }

  /** A list of trades that are all wins has win rate 100 and, with a positive
      take-profit, a positive return. */
  lemma AllWinsSummary(trades: seq<Trade>, slPct: real, tpPct: real)
    requires |trades| > 0 && tpPct > 0.0
    requires forall k :: 0 <= k < |trades| ==> trades[k] == Win
    ensures Summarize(trades, Compound(trades, slPct, tpPct)).winRate == 100.0
    ensures Summarize(trades, Compound(trades, slPct, tpPct)).profitPct > 0.0
  {
    AllWinsCount(trades);
    RatioIsPercentage(Count(trades, Win), |trades|);
    CompoundClosedForm(trades, slPct, tpPct);
    PowAboveOne(1.0 + tpPct, |trades|);
    assert Compound(trades, slPct, tpPct) == StartCapital * Pow(1.0 + tpPct, |trades|);
  }

  /** If no entry of the scan ends at the stop, every recorded trade is a win. */
  lemma {:induction false} NoStopAllWins(bars: seq<Bar>, fast: seq<real>, slow: seq<real>, slPct: real, tpPct: real, n: nat)
    requires |fast| == |bars| && |slow| == |bars|
    requires n <= ScanEnd(|bars|)
    requires forall i :: Warmup <= i < n && fast[i] > slow[i] ==> EntryOutcome(bars, i, slPct, tpPct) != Some(Loss)
    ensures forall k :: 0 <= k < |TradesUpTo(bars, fast, slow, slPct, tpPct, n)| ==>
              TradesUpTo(bars, fast, slow, slPct, tpPct, n)[k] == Win
  {
    if n > Warmup {
      NoStopAllWins(bars, fast, slow, slPct, tpPct, n - 1);
    }
  }

  /** A bar sequence on which some entry reaches the target and none reaches
      the stop backtests to a win rate of 100 and a positive return. */
  lemma WinningSeriesReport(bars: seq<Bar>, fast: seq<real>, slow: seq<real>, slPct: real, tpPct: real, first: nat)
    requires |fast| == |bars| && |slow| == |bars| && tpPct > 0.0
    requires Warmup <= first < ScanEnd(|bars|) && fast[first] > slow[first]
    requires EntryOutcome(bars, first, slPct, tpPct) == Some(Win)
    requires forall i :: Warmup <= i < ScanEnd(|bars|) && fast[i] > slow[i] ==> EntryOutcome(bars, i, slPct, tpPct) != Some(Loss)
    ensures Backtest(bars, fast, slow, slPct, tpPct).winRate == 100.0
    ensures Backtest(bars, fast, slow, slPct, tpPct).profitPct > 0.0
  {
    var trades := TradesUpTo(bars, fast, slow, slPct, tpPct, ScanEnd(|bars|));
    NoStopAllWins(bars, fast, slow, slPct, tpPct, ScanEnd(|bars|));
    TradesGrow(bars, fast, slow, slPct, tpPct, first + 1, ScanEnd(|bars|));
    AllWinsSummary(trades, slPct, tpPct);
  }

  /** The trade list only grows as the scan advances, and is non-empty once an
      entry that reached a price has been passed. */
  lemma {:induction false} TradesGrow(bars: seq<Bar>, fast: seq<real>, slow: seq<real>, slPct: real, tpPct: real, m: nat, n: nat)
    requires |fast| == |bars| && |slow| == |bars|
    requires Warmup < m <= n <= ScanEnd(|bars|)
    requires fast[m - 1] > slow[m - 1] && EntryOutcome(bars, m - 1, slPct, tpPct).Some?
    ensures |TradesUpTo(bars, fast, slow, slPct, tpPct, n)| > 0
  {
    if n > m {
      TradesGrow(bars, fast, slow, slPct, tpPct, m, n - 1);
    }
  }
}
