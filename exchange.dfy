/** Result shapes of the exchange calls made by the two trading scripts, and
    the position-sizing rule they share. The exchange itself is not modelled:
    every call is replaced by the value (or the failure) it produced, passed
    in as a parameter. */
module Exchange {

  datatype Option<+T> = None | Some(value: T)

  /** A market symbol such as "BTC/USDT". */
  type Symbol = string

  /** One OHLCV row as returned by `fetch_ohlcv`: timestamp, open, high, low, close, volume. */
  datatype Bar = Bar(timestamp: int, open: real, high: real, low: real, close: real, volume: real)

  /** What an order-placing call did: it raised, or it returned an order record
      whose `average` and `price` entries may be missing (None) and whose `id`
      key may be absent. */
  datatype OrderOutcome =
    | Raised
    | Returned(average: Option<real>, price: Option<real>, hasId: bool)

  /** The value of an Option as a list of zero or one elements. */
  function OptionToSeq<T>(o: Option<T>): (s: seq<T>)
    ensures |s| <= 1 && (o.Some? <==> |s| == 1) && (o.Some? ==> s[0] == o.value)
  {
    if o.Some? then [o.value] else []
  }

  /** Python truthiness of an optional number: None and 0 are both false. */
  predicate Truthy(x: Option<real>)
  {
    x.Some? && x.value != 0.0
  }

  /** `balance['free'].get(asset, 0)` */
  function FreeAmount(free: map<string, real>, asset: string): real
  {
    if asset in free then free[asset] else 0.0
  }

  /** The closing prices of a bar sequence, oldest first (`df['close']`). */
  function Closes(bars: seq<Bar>): seq<real>
  {
    seq(|bars|, i requires 0 <= i < |bars| => bars[i].close)
  }

  /** Python's `s[-n:]`: the last n elements, or all of them when there are fewer. */
  function LastN<T>(s: seq<T>, n: nat): (r: seq<T>)
    ensures |r| == if |s| <= n then |s| else n
    ensures forall k :: 0 <= k < |r| ==> r[k] == s[|s| - |r| + k]
  {
    if |s| <= n then s else s[|s| - n..]
  }

  /** `s.iloc[-1]` */
  function Last<T>(s: seq<T>): T
    requires |s| > 0
  {
    s[|s| - 1]
  }

  /** `risk_per_trade`: the fraction of the free USDT balance committed to one entry. */
  const RiskPerTrade: real := 0.05

  /** The buy quantity `usdt * risk_per_trade / price` (before rounding): an
      order whose notional value is 5% of the free USDT balance. */
  function Stake(usdt: real, price: real): (qty: real)
    requires price != 0.0
    ensures qty * price == usdt * RiskPerTrade
  {
    usdt * RiskPerTrade / price
  }
}
