/**
 * The older single-pair monitor: one Gate.io spot price and one Gate.io
 * futures price for a single symbol, one threshold and one cooldown.
 */
module SinglePairMonitor {
  import opened Wrappers
  import opened Divergence

  /** One element of the result list of a `futures.tickers` update. */
  datatype FuturesTicker = FuturesTicker(contract: string, last: real, extra: Extra)

  datatype Settings = Settings(
    symbol: string,          // MONITOR_SYMBOL
    threshold: real,         // PRICE_DIFF_THRESHOLD
    usePercentage: bool,     // USE_PERCENTAGE
    cooldown: real)          // COOLDOWN_SECONDS

  /** The result of one pass of the monitor loop. */
  datatype Outcome =
    | NotReady     // a price is still missing: the pass is skipped
    | Calm         // below the threshold
    | Cooling      // at or above the threshold, but inside the cooldown
    | Attempted    // an alert was handed to the notifier

  /** The pass divides by the spot price only in percentage mode, and the source does not guard it. */
  predicate PricesReady(cfg: Settings, spot: Option<real>, future: Option<real>)
  {
    cfg.usePercentage && spot.Some? && future.Some? ==> spot.value != 0.0
  }

  /** price_monitor.py:180-206: the None guard, the breach test and the single cooldown gate. */
  function Assess(cfg: Settings, spot: Option<real>, future: Option<real>, lastAlert: real, now: real): (o: Outcome)
    requires PricesReady(cfg, spot, future)
    ensures o == NotReady <==> spot.None? || future.None?
    ensures o == Attempted || o == Cooling <==>
      spot.Some? && future.Some? && Breaches(cfg.usePercentage, cfg.threshold, future.value, spot.value)
    ensures o == Attempted ==> now - lastAlert >= cfg.cooldown
    ensures o == Cooling ==> now - lastAlert < cfg.cooldown
  {
    if spot.None? || future.None? then NotReady
    else if Breaches(cfg.usePercentage, cfg.threshold, future.value, spot.value) then
      if now - lastAlert >= cfg.cooldown then Attempted else Cooling
    else Calm
  }

  /**
   * One pass exactly as written: in absolute mode the alert branch formats
   * `price_diff_pct`, which only percentage mode assigns, so the pass raises
   * instead of reaching the notifier.
   */
  datatype PassAsWritten = Completed(outcome: Outcome) | Raised

  function AssessAsWritten(cfg: Settings, spot: Option<real>, future: Option<real>, lastAlert: real, now: real): PassAsWritten
    requires PricesReady(cfg, spot, future)
  {
    if spot.None? || future.None? then Completed(NotReady)
    else if Breaches(cfg.usePercentage, cfg.threshold, future.value, spot.value) then
      if now - lastAlert >= cfg.cooldown then
        if cfg.usePercentage then Completed(Attempted) else Raised
      else Completed(Cooling)
    else Completed(Calm)
  }

  /**
   * As written, absolute mode never hands an alert to the notifier: exactly the
   * passes the intended logic would alert on raise, and every other pass agrees.
   */
  lemma AbsoluteModeRaisesInsteadOfAlerting(cfg: Settings, spot: Option<real>, future: Option<real>,
                                            lastAlert: real, now: real)
    requires PricesReady(cfg, spot, future)
    ensures AssessAsWritten(cfg, spot, future, lastAlert, now) == Raised <==>
      !cfg.usePercentage && Assess(cfg, spot, future, lastAlert, now) == Attempted
    ensures AssessAsWritten(cfg, spot, future, lastAlert, now) != Raised ==>
      AssessAsWritten(cfg, spot, future, lastAlert, now) == Completed(Assess(cfg, spot, future, lastAlert, now))
    ensures !cfg.usePercentage ==> AssessAsWritten(cfg, spot, future, lastAlert, now) != Completed(Attempted)
  {
  }

  /** A 2.0 gap against a 1.0 absolute threshold, never alerted before: the pass raises. */
  lemma AbsoluteModeCounterexample()
    ensures AssessAsWritten(Settings("TSLAX_USDT", 1.0, false, 300.0), Some(400.0), Some(402.0), 0.0, 1000.0) == Raised
    ensures Assess(Settings("TSLAX_USDT", 1.0, false, 300.0), Some(400.0), Some(402.0), 0.0, 1000.0) == Attempted
  {
  }

  /** The last ticker of the list whose contract is the symbol: in a forward loop it is the one that sticks. */
  function LatestQuote(tickers: seq<FuturesTicker>, symbol: string): Option<FuturesTicker>
  {
    if tickers == [] then None
    else if tickers[|tickers| - 1].contract == symbol then Some(tickers[|tickers| - 1])
    else LatestQuote(tickers[..|tickers| - 1], symbol)
  }

  /**
   * No quote when no ticker names the symbol; otherwise the quote is a
   * ticker for the symbol with no later ticker for it.
   */
  lemma {:induction false} LatestQuoteIsLast(tickers: seq<FuturesTicker>, symbol: string)
    ensures LatestQuote(tickers, symbol).None? <==> forall k :: 0 <= k < |tickers| ==> tickers[k].contract != symbol
    ensures LatestQuote(tickers, symbol).Some? ==>
      exists k :: 0 <= k < |tickers| && tickers[k] == LatestQuote(tickers, symbol).value
                  && tickers[k].contract == symbol
                  && forall j :: k < j < |tickers| ==> tickers[j].contract != symbol
  {
    if tickers != [] {
      var n := |tickers| - 1;
      LatestQuoteIsLast(tickers[..n], symbol);
      assert forall k :: 0 <= k < n ==> tickers[..n][k] == tickers[k];
      if tickers[n].contract != symbol {
        if LatestQuote(tickers[..n], symbol).Some? {
          var k :| 0 <= k < n && tickers[..n][k] == LatestQuote(tickers[..n], symbol).value
                   && tickers[..n][k].contract == symbol
                   && forall j :: k < j < n ==> tickers[..n][j].contract != symbol;
          assert tickers[k] == LatestQuote(tickers, symbol).value;
        }
      }
    }
  }

  /** After a successful alert at `t0`, no alert is attempted again before `t0 + cooldown`. */
  lemma AlertsAreSpaced(cfg: Settings, spot: Option<real>, future: Option<real>, t0: real, t: real)
    requires PricesReady(cfg, spot, future)
    requires t < t0 + cfg.cooldown
    ensures Assess(cfg, spot, future, t0, t) != Attempted
  {
  }

  /**
   * The default configuration (0.5%, 300 s): a 1% premium with both prices
   * present is attempted at t=1000 and held back at t=1100 once the first
   * went out; with the futures price missing nothing happens.
   */
  lemma DefaultsScenario()
    ensures Assess(Settings("TSLAX_USDT", 0.5, true, 300.0), Some(400.0), Some(404.0), 0.0, 1000.0) == Attempted
    ensures Assess(Settings("TSLAX_USDT", 0.5, true, 300.0), Some(400.0), Some(404.0), 1000.0, 1100.0) == Cooling
    ensures Assess(Settings("TSLAX_USDT", 0.5, true, 300.0), Some(400.0), None, 0.0, 1000.0) == NotReady
  {
  }

  /** The module globals `spot_price`, `future_price`, their data and `last_alert_time`. */
  class PairMonitor {
    const cfg: Settings
    var spotPrice: Option<real>
    var futurePrice: Option<real>
    var spotData: Extra
    var futureData: Extra
    var lastAlertTime: real

    constructor (cfg: Settings)
      ensures this.cfg == cfg
      ensures spotPrice == None && futurePrice == None && spotData == map[] && futureData == map[]
      ensures lastAlertTime == 0.0
    {
      this.cfg := cfg;
      spotPrice, futurePrice := None, None;
      spotData, futureData := map[], map[];
      lastAlertTime := 0.0;
    }

    /** The body of `spot_listener`'s receive loop: every spot update overwrites the spot price. */
    method OnSpotMessage(event: string, channel: string, last: real, extra: Extra)
      modifies this`spotPrice, this`spotData
      ensures event == "update" && channel == "spot.tickers" ==> spotPrice == Some(last) && spotData == extra
      ensures !(event == "update" && channel == "spot.tickers") ==>
        spotPrice == old(spotPrice) && spotData == old(spotData)
    {
      if event == "update" && channel == "spot.tickers" {
        spotPrice := Some(last);
        spotData := extra;
      }
    }

    /** The body of `future_listener`'s receive loop: only tickers of the monitored contract are taken. */
    method OnFuturesMessage(event: string, channel: string, tickers: seq<FuturesTicker>)
      modifies this`futurePrice, this`futureData
      ensures event == "update" && channel == "futures.tickers" && LatestQuote(tickers, cfg.symbol).Some? ==>
        var q := LatestQuote(tickers, cfg.symbol).value;
        futurePrice == Some(q.last) && futureData == q.extra
      ensures !(event == "update" && channel == "futures.tickers" && LatestQuote(tickers, cfg.symbol).Some?) ==>
        futurePrice == old(futurePrice) && futureData == old(futureData)
    {
      if event == "update" && channel == "futures.tickers" {
        var i := 0;
        while i < |tickers|
          invariant 0 <= i <= |tickers|
          invariant LatestQuote(tickers[..i], cfg.symbol).Some? ==>
            futurePrice == Some(LatestQuote(tickers[..i], cfg.symbol).value.last)
            && futureData == LatestQuote(tickers[..i], cfg.symbol).value.extra
          invariant LatestQuote(tickers[..i], cfg.symbol).None? ==>
            futurePrice == old(futurePrice) && futureData == old(futureData)
        {
          assert tickers[..i + 1][..i] == tickers[..i];
          var ticker := tickers[i];
          if ticker.contract == cfg.symbol {
            futurePrice := Some(ticker.last);
            futureData := ticker.extra;
          }
          i := i + 1;
        }
        assert tickers[..i] == tickers;
      }
    }

    /** One pass of `price_monitor`; `delivered` is what the notifier reports if it is called. */
    method Check(now: real, delivered: bool) returns (o: Outcome)
      requires PricesReady(cfg, spotPrice, futurePrice)
      modifies this`lastAlertTime
      ensures o == Assess(cfg, spotPrice, futurePrice, old(lastAlertTime), now)
      ensures lastAlertTime == if o == Attempted && delivered then now else old(lastAlertTime)
    {
      if spotPrice.None? || futurePrice.None? {
        return NotReady;
      }
      var spot, future := spotPrice.value, futurePrice.value;
      var diff := future - spot;
      var current;
      if cfg.usePercentage {
        current := Abs(diff / spot * 100.0);
      } else {
        current := Abs(diff);
      }
      if current >= cfg.threshold {
        if now - lastAlertTime >= cfg.cooldown {
          o := Attempted;
          if delivered {
            lastAlertTime := now;
          }
        } else {
          o := Cooling;
        }
      } else {
        o := Calm;
      }
    }
  }
}
