/**
 * The multi-exchange tiered divergence monitor: Gate.io futures is the
 * reference price of every tracked symbol; every enabled exchange's spot
 * price is compared with it; one breach entry raises a WARN, two or more
 * an EMERGENCY, each level with its own cooldown, and an EMERGENCY that
 * follows a recent WARN is sent at once (escalation). Entries are counted per
 * position in the exchange list, so an exchange listed twice counts twice.
 */
module PriceMonitor {
  import opened Wrappers
  import opened Divergence

  datatype Level = Warn | Emergency

  /** One breaching spot venue of one cycle (`exceeded_exchanges` item). */
  datatype Entry = Entry(exchange: string, spotPrice: real, diff: real, diffPct: real)

  /** The configuration resolved once at startup; cooldowns are in seconds. */
  datatype Config = Config(
    exchanges: seq<string>,     // ENABLED_EXCHANGES, in this order
    symbols: seq<string>,       // SYMBOLS
    threshold: real,            // PRICE_DIFF_THRESHOLD, one global value
    usePercentage: bool,        // USE_PERCENTAGE
    warnCooldown: real,         // WARN_COOLDOWN
    emergencyCooldown: real)    // EMERGENCY_COOLDOWN

  /** `{exchange: {symbol: price}}` */
  type SpotBoard = map<string, map<string, real>>

  /** `(last WARN, last EMERGENCY)` dispatch times of one symbol. */
  type Stamps = (real, real)

  /** The result of evaluating one symbol in one cycle. */
  datatype Verdict =
    | Cold                 // no futures price yet: the symbol is skipped
    | Calm                 // no exchange breaches
    | Alert(level: Level, entries: seq<Entry>, upgrade: bool, dispatch: bool)

  // ---------------------------------------------------------------- breaches

  /** Every spot price the cycle divides by for this symbol is non-zero. */
  predicate SpotReady(spot: SpotBoard, exchanges: seq<string>, symbol: string)
  {
    forall e :: e in exchanges && e in spot && symbol in spot[e] ==> spot[e][symbol] != 0.0
  }

  function EntryFor(exchange: string, futuresPrice: real, spotPrice: real): Entry
    requires spotPrice != 0.0
  {
    Entry(exchange, spotPrice, Diff(futuresPrice, spotPrice), DiffPct(futuresPrice, spotPrice))
  }

  /** The exchange `e` has a spot sample for `symbol` and that sample breaches. */
  predicate BreachesAt(spot: SpotBoard, e: string, symbol: string, futuresPrice: real,
                       usePercentage: bool, threshold: real)
    requires e in spot && symbol in spot[e] ==> spot[e][symbol] != 0.0
  {
    e in spot && symbol in spot[e] && Breaches(usePercentage, threshold, futuresPrice, spot[e][symbol])
  }

  /**
   * The entries one cycle records for `symbol`: the exchanges in configured
   * order that have a spot sample and breach, exchanges without a sample
   * skipped.
   */
  function Exceeded(exchanges: seq<string>, spot: SpotBoard, symbol: string, futuresPrice: real,
                    usePercentage: bool, threshold: real): seq<Entry>
    requires SpotReady(spot, exchanges, symbol)
    decreases |exchanges|
  {
    if exchanges == [] then []
    else
      var init := exchanges[..|exchanges| - 1];
      var e := exchanges[|exchanges| - 1];
      assert forall x :: x in init ==> x in exchanges;
      var prior := Exceeded(init, spot, symbol, futuresPrice, usePercentage, threshold);
      if BreachesAt(spot, e, symbol, futuresPrice, usePercentage, threshold)
      then prior + [EntryFor(e, futuresPrice, spot[e][symbol])]
      else prior
  }

  /** The exchanges named by the entries, in entry order. */
  function Venues(entries: seq<Entry>): seq<string>
  {
    seq(|entries|, k requires 0 <= k < |entries| => entries[k].exchange)
  }

  lemma SpotReadySplit(a: seq<string>, b: seq<string>, spot: SpotBoard, symbol: string)
    requires SpotReady(spot, a + b, symbol)
    ensures SpotReady(spot, a, symbol) && SpotReady(spot, b, symbol)
  {
  }

  /**
   * The entries come in configured exchange order: the entries of a split
   * exchange list are those of the front followed by those of the back.
   */
  lemma {:induction false} ExceededAppend(a: seq<string>, b: seq<string>, spot: SpotBoard, symbol: string,
                                          futuresPrice: real, usePercentage: bool, threshold: real)
    requires SpotReady(spot, a + b, symbol)
    ensures SpotReady(spot, a, symbol) && SpotReady(spot, b, symbol)
    ensures Exceeded(a + b, spot, symbol, futuresPrice, usePercentage, threshold)
         == Exceeded(a, spot, symbol, futuresPrice, usePercentage, threshold)
          + Exceeded(b, spot, symbol, futuresPrice, usePercentage, threshold)
    decreases |b|
  {
    SpotReadySplit(a, b, spot, symbol);
    if b == [] {
      assert a + b == a;
    } else {
      var binit := b[..|b| - 1];
      assert (a + b)[..|a + b| - 1] == a + binit;
      assert (a + b)[|a + b| - 1] == b[|b| - 1];
      assert b == binit + [b[|b| - 1]];
      SpotReadySplit(a, binit + [b[|b| - 1]], spot, symbol);
      SpotReadySplit(binit, [b[|b| - 1]], spot, symbol);
      ExceededAppend(a, binit, spot, symbol, futuresPrice, usePercentage, threshold);
    }
  }

  /**
   * Soundness and completeness of the entry list: every entry is the exact
   * difference of a breaching configured exchange, and every configured
   * exchange with a breaching sample has an entry.
   */
  lemma {:induction false} ExceededExact(exchanges: seq<string>, spot: SpotBoard, symbol: string,
                                         futuresPrice: real, usePercentage: bool, threshold: real)
    requires SpotReady(spot, exchanges, symbol)
    ensures var r := Exceeded(exchanges, spot, symbol, futuresPrice, usePercentage, threshold);
      |r| <= |exchanges| &&
      (forall k :: 0 <= k < |r| ==>
         r[k].exchange in exchanges && r[k].exchange in spot && symbol in spot[r[k].exchange]
         && r[k] == EntryFor(r[k].exchange, futuresPrice, spot[r[k].exchange][symbol])
         && Breaches(usePercentage, threshold, futuresPrice, r[k].spotPrice)
         && (if usePercentage then Abs(r[k].diffPct) else Abs(r[k].diff)) >= threshold)
    ensures forall e :: e in exchanges ==>
      (e in Venues(Exceeded(exchanges, spot, symbol, futuresPrice, usePercentage, threshold))
       <==> BreachesAt(spot, e, symbol, futuresPrice, usePercentage, threshold))
    decreases |exchanges|
  {
    if exchanges != [] {
      var init := exchanges[..|exchanges| - 1];
      var last := exchanges[|exchanges| - 1];
      assert exchanges == init + [last];
      assert forall x :: x in exchanges <==> x in init || x == last;
      SpotReadySplit(init, [last], spot, symbol);
      ExceededExact(init, spot, symbol, futuresPrice, usePercentage, threshold);
      var prior := Exceeded(init, spot, symbol, futuresPrice, usePercentage, threshold);
      var r := Exceeded(exchanges, spot, symbol, futuresPrice, usePercentage, threshold);
      if BreachesAt(spot, last, symbol, futuresPrice, usePercentage, threshold) {
        assert r == prior + [EntryFor(last, futuresPrice, spot[last][symbol])];
        assert Venues(r) == Venues(prior) + [last];
      } else {
        assert r == prior;
      }
    }
  }

  /** Writing the quote of another symbol leaves this symbol's entries as they were. */
  lemma {:induction false} ExceededIgnoresOtherSymbol(exchanges: seq<string>, spot: SpotBoard, exchange: string,
                                                      written: string, price: real, symbol: string,
                                                      futuresPrice: real, usePercentage: bool, threshold: real)
    requires exchange in spot && written != symbol
    requires SpotReady(spot, exchanges, symbol)
    ensures SpotReady(spot[exchange := spot[exchange][written := price]], exchanges, symbol)
    ensures Exceeded(exchanges, spot[exchange := spot[exchange][written := price]], symbol,
                     futuresPrice, usePercentage, threshold)
         == Exceeded(exchanges, spot, symbol, futuresPrice, usePercentage, threshold)
    decreases |exchanges|
  {
    var spot' := spot[exchange := spot[exchange][written := price]];
    assert forall e :: e in spot' <==> e in spot;
    assert forall e :: e in spot ==> (symbol in spot'[e] <==> symbol in spot[e]);
    assert forall e :: e in spot && symbol in spot[e] ==> spot'[e][symbol] == spot[e][symbol];
    if exchanges != [] {
      var init := exchanges[..|exchanges| - 1];
      assert exchanges == init + [exchanges[|exchanges| - 1]];
      SpotReadySplit(init, [exchanges[|exchanges| - 1]], spot, symbol);
      ExceededIgnoresOtherSymbol(init, spot, exchange, written, price, symbol, futuresPrice, usePercentage, threshold);
    }
  }

  /** The loop of monitors/price_monitor.py:243-277: builds `exceeded_exchanges` by appending in exchange order. */
  method CollectExceeded(exchanges: seq<string>, spot: SpotBoard, symbol: string, futuresPrice: real,
                         usePercentage: bool, threshold: real) returns (entries: seq<Entry>)
    requires SpotReady(spot, exchanges, symbol)
    ensures entries == Exceeded(exchanges, spot, symbol, futuresPrice, usePercentage, threshold)
  {
    entries := [];
    var i := 0;
    while i < |exchanges|
      invariant 0 <= i <= |exchanges|
      invariant SpotReady(spot, exchanges[..i], symbol)
      invariant entries == Exceeded(exchanges[..i], spot, symbol, futuresPrice, usePercentage, threshold)
    {
      var e := exchanges[i];
      assert exchanges[..i + 1] == exchanges[..i] + [e];
      assert exchanges[..i + 1][..i] == exchanges[..i];
      assert SpotReady(spot, exchanges[..i + 1], symbol) by {
        assert forall x :: x in exchanges[..i + 1] ==> x in exchanges;
      }
      if e in spot && symbol in spot[e] {
        var spotPrice := spot[e][symbol];
        if Breaches(usePercentage, threshold, futuresPrice, spotPrice) {
          entries := entries + [EntryFor(e, futuresPrice, spotPrice)];
        }
      }
      i := i + 1;
    }
    assert exchanges[..i] == exchanges;
  }

  // ---------------------------------------------------------------- severity and cooldown

  /** 0 breaches: no alert; 1: WARN; 2 or more: EMERGENCY. */
  function LevelFor(count: nat): Option<Level>
  {
    if count == 0 then None else if count == 1 then Some(Warn) else Some(Emergency)
  }

  function Cooldown(cfg: Config, level: Level): real
  {
    match level
    case Warn => cfg.warnCooldown
    case Emergency => cfg.emergencyCooldown
  }

  function LastOf(stamps: Stamps, level: Level): real
  {
    match level
    case Warn => stamps.0
    case Emergency => stamps.1
  }

  /** Escalation: an EMERGENCY while a WARN newer than the last EMERGENCY is still inside its window. */
  predicate IsUpgrade(cfg: Config, level: Level, stamps: Stamps, now: real)
  {
    level == Emergency && stamps.0 > stamps.1 && now - stamps.0 < cfg.warnCooldown
  }

  predicate ShouldDispatch(cfg: Config, level: Level, stamps: Stamps, now: real)
  {
    IsUpgrade(cfg, level, stamps, now) || now - LastOf(stamps, level) >= Cooldown(cfg, level)
  }

  /** `last_alert_times[symbol][level] = now`, the other level kept. */
  function Record(stamps: Stamps, level: Level, now: real): (r: Stamps)
    ensures LastOf(r, level) == now
    ensures forall other :: other != level ==> LastOf(r, other) == LastOf(stamps, other)
  {
    match level
    case Warn => (now, stamps.1)
    case Emergency => (stamps.0, now)
  }

  /** The decision of monitors/price_monitor.py:236-303 for one symbol, against the given board and stamps. */
  function Assess(cfg: Config, futures: map<string, real>, spot: SpotBoard, stamps: Stamps,
                  symbol: string, now: real): (v: Verdict)
    requires symbol in futures ==> SpotReady(spot, cfg.exchanges, symbol)
    ensures v == Cold <==> symbol !in futures
    ensures symbol in futures ==>
      (v == Calm <==> Exceeded(cfg.exchanges, spot, symbol, futures[symbol], cfg.usePercentage, cfg.threshold) == [])
    ensures v.Alert? ==> v.entries == Exceeded(cfg.exchanges, spot, symbol, futures[symbol], cfg.usePercentage, cfg.threshold)
    ensures v.Alert? ==> |v.entries| >= 1 && (v.level == Warn <==> |v.entries| == 1)
    ensures v.Alert? ==> (v.dispatch <==> v.upgrade || now - LastOf(stamps, v.level) >= Cooldown(cfg, v.level))
    ensures v.Alert? ==>
      (v.upgrade <==> v.level == Emergency && stamps.0 > stamps.1 && now - stamps.0 < cfg.warnCooldown)
  {
    if symbol !in futures then Cold
    else
      var entries := Exceeded(cfg.exchanges, spot, symbol, futures[symbol], cfg.usePercentage, cfg.threshold);
      match LevelFor(|entries|)
      case None => Calm
      case Some(level) =>
        Alert(level, entries, IsUpgrade(cfg, level, stamps, now), ShouldDispatch(cfg, level, stamps, now))
  }

  /** The alert state after one symbol's evaluation, given whether the notifier reported success. */
  function Step(cfg: Config, futures: map<string, real>, spot: SpotBoard, last: map<string, Stamps>,
                symbol: string, now: real, delivered: bool): (r: map<string, Stamps>)
    requires symbol in last
    requires symbol in futures ==> SpotReady(spot, cfg.exchanges, symbol)
    ensures r.Keys == last.Keys
  {
    var v := Assess(cfg, futures, spot, last[symbol], symbol, now);
    if v.Alert? && v.dispatch && delivered then last[symbol := Record(last[symbol], v.level, now)] else last
  }

  /** Every tracked symbol with a futures price has non-zero spot prices. */
  predicate BoardReady(cfg: Config, futures: map<string, real>, spot: SpotBoard, symbols: seq<string>)
  {
    forall s :: s in symbols && s in futures ==> SpotReady(spot, cfg.exchanges, s)
  }

  /** One polling cycle: the symbols in order, each with its clock reading and notifier outcome. */
  function Steps(cfg: Config, futures: map<string, real>, spot: SpotBoard, last: map<string, Stamps>,
                 symbols: seq<string>, nows: seq<real>, delivered: seq<bool>): (r: map<string, Stamps>)
    requires |nows| == |symbols| == |delivered|
    requires forall s :: s in symbols ==> s in last
    requires BoardReady(cfg, futures, spot, symbols)
    ensures r.Keys == last.Keys
    decreases |symbols|
  {
    if symbols == [] then last
    else
      var n := |symbols| - 1;
      assert forall s :: s in symbols[..n] ==> s in symbols;
      var prior := Steps(cfg, futures, spot, last, symbols[..n], nows[..n], delivered[..n]);
      Step(cfg, futures, spot, prior, symbols[n], nows[n], delivered[n])
  }

  /** A cycle over the first `i + 1` symbols is the cycle over the first `i` followed by symbol `i`'s step. */
  lemma StepsPrefix(cfg: Config, futures: map<string, real>, spot: SpotBoard, last: map<string, Stamps>,
                    symbols: seq<string>, nows: seq<real>, delivered: seq<bool>, i: nat)
    requires |nows| == |symbols| == |delivered| && i < |symbols|
    requires forall s :: s in symbols ==> s in last
    requires BoardReady(cfg, futures, spot, symbols)
    ensures forall s :: s in symbols[..i] ==> s in last
    ensures forall s :: s in symbols[..i + 1] ==> s in last
    ensures BoardReady(cfg, futures, spot, symbols[..i]) && BoardReady(cfg, futures, spot, symbols[..i + 1])
    ensures var prior := Steps(cfg, futures, spot, last, symbols[..i], nows[..i], delivered[..i]);
      symbols[i] in prior
      && (symbols[i] in futures ==> SpotReady(spot, cfg.exchanges, symbols[i]))
      && Steps(cfg, futures, spot, last, symbols[..i + 1], nows[..i + 1], delivered[..i + 1])
         == Step(cfg, futures, spot, prior, symbols[i], nows[i], delivered[i])
  {
    assert forall s :: s in symbols[..i + 1] ==> s in symbols;
    assert forall s :: s in symbols[..i] ==> s in symbols;
    assert symbols[i] in symbols;
    assert symbols[..i + 1][..i] == symbols[..i];
    assert nows[..i + 1][..i] == nows[..i];
    assert delivered[..i + 1][..i] == delivered[..i];
  }

  // ---------------------------------------------------------------- summary statistics

  /** `total_diff_pct`: the sum of |diff %| over the entries. */
  function SumAbs(entries: seq<Entry>): real
  {
    if entries == [] then 0.0 else SumAbs(entries[..|entries| - 1]) + Abs(entries[|entries| - 1].diffPct)
  }

  /**
   * `(max_diff_pct, max_diff_exchange)`: starting from (0, ""), an entry
   * replaces the current maximum only when its magnitude is strictly larger.
   */
  function Largest(entries: seq<Entry>): (real, string)
  {
    if entries == [] then (0.0, "")
    else
      var prior := Largest(entries[..|entries| - 1]);
      var e := entries[|entries| - 1];
      if Abs(e.diffPct) > Abs(prior.0) then (e.diffPct, e.exchange) else prior
  }

  /** The mean absolute percentage of an EMERGENCY message. */
  function Average(entries: seq<Entry>): real
    requires |entries| > 0
  {
    SumAbs(entries) / (|entries| as real)
  }

  /** The accumulation loop of monitors/price_monitor.py:176-189. */
  method Summarize(entries: seq<Entry>) returns (total: real, maxPct: real, maxExchange: string)
    ensures total == SumAbs(entries)
    ensures (maxPct, maxExchange) == Largest(entries)
  {
    total, maxPct, maxExchange := 0.0, 0.0, "";
    var i := 0;
    while i < |entries|
      invariant 0 <= i <= |entries|
      invariant total == SumAbs(entries[..i])
      invariant (maxPct, maxExchange) == Largest(entries[..i])
    {
      var item := entries[i];
      assert entries[..i + 1][..i] == entries[..i];
      total := total + Abs(item.diffPct);
      if Abs(item.diffPct) > Abs(maxPct) {
        maxPct, maxExchange := item.diffPct, item.exchange;
      }
      i := i + 1;
    }
    assert entries[..i] == entries;
  }

  /** The reported maximum magnitude bounds every entry's magnitude. */
  lemma {:induction false} LargestBoundsAll(entries: seq<Entry>)
    ensures forall j :: 0 <= j < |entries| ==> Abs(entries[j].diffPct) <= Abs(Largest(entries).0)
  {
    if entries != [] {
      var n := |entries| - 1;
      LargestBoundsAll(entries[..n]);
      assert forall j :: 0 <= j < n ==> entries[..n][j] == entries[j];
    }
  }

  /**
   * The reported maximum is either the initial (0, "") with every entry at 0,
   * or the first entry of largest magnitude: positive, strictly larger than
   * every earlier entry, and at least as large as every entry.
   */
  lemma {:induction false} LargestIsFirstMaximum(entries: seq<Entry>)
    ensures (Largest(entries) == (0.0, "") && (forall j :: 0 <= j < |entries| ==> entries[j].diffPct == 0.0))
         || exists k :: 0 <= k < |entries| && Largest(entries) == (entries[k].diffPct, entries[k].exchange)
                        && Abs(entries[k].diffPct) > 0.0
                        && (forall j :: 0 <= j < k ==> Abs(entries[j].diffPct) < Abs(entries[k].diffPct))
                        && (forall j :: 0 <= j < |entries| ==> Abs(entries[j].diffPct) <= Abs(entries[k].diffPct))
  {
    if entries != [] {
      var n := |entries| - 1;
      var init := entries[..n];
      LargestIsFirstMaximum(init);
      LargestBoundsAll(init);
      LargestBoundsAll(entries);
      assert forall j :: 0 <= j < n ==> init[j] == entries[j];
      var prior := Largest(init);
      var e := entries[n];
      if Abs(e.diffPct) > Abs(prior.0) {
        assert Largest(entries) == (e.diffPct, e.exchange);
        assert forall j :: 0 <= j < n ==> Abs(entries[j].diffPct) < Abs(e.diffPct);
      } else {
        assert Largest(entries) == prior;
        if prior == (0.0, "") && (forall j :: 0 <= j < n ==> init[j].diffPct == 0.0) {
          assert Abs(e.diffPct) <= 0.0;
        } else {
          var k :| 0 <= k < n && prior == (init[k].diffPct, init[k].exchange)
                   && Abs(init[k].diffPct) > 0.0
                   && (forall j :: 0 <= j < k ==> Abs(init[j].diffPct) < Abs(init[k].diffPct))
                   && (forall j :: 0 <= j < n ==> Abs(init[j].diffPct) <= Abs(init[k].diffPct));
          assert Largest(entries) == (entries[k].diffPct, entries[k].exchange);
        }
      }
    }
  }

  /** `n * b` written as repeated addition, so the sum lemmas below stay linear. */
  function Repeat(n: nat, b: real): real
  {
    if n == 0 then 0.0 else Repeat(n - 1, b) + b
  }

  lemma {:induction false} RepeatIsProduct(n: nat, b: real)
    ensures Repeat(n, b) == (n as real) * b
  {
    if n > 0 {
      RepeatIsProduct(n - 1, b);
      assert (n as real) * b == ((n - 1) as real) * b + b;
    }
  }

  /** Summing magnitudes that are each at most `hi` gives at most `|entries| * hi`. */
  lemma {:induction false} SumAbsAtMost(entries: seq<Entry>, hi: real)
    requires forall j :: 0 <= j < |entries| ==> Abs(entries[j].diffPct) <= hi
    ensures SumAbs(entries) <= Repeat(|entries|, hi)
  {
    if entries != [] {
      var n := |entries| - 1;
      var init := entries[..n];
      assert forall j :: 0 <= j < |init| ==> Abs(init[j].diffPct) <= hi by {
        assert forall j :: 0 <= j < n ==> init[j] == entries[j];
      }
      SumAbsAtMost(init, hi);
    }
  }

  /** Summing magnitudes that are each at least `lo` gives at least `|entries| * lo`. */
  lemma {:induction false} SumAbsAtLeast(entries: seq<Entry>, lo: real)
    requires forall j :: 0 <= j < |entries| ==> Abs(entries[j].diffPct) >= lo
    ensures SumAbs(entries) >= Repeat(|entries|, lo)
  {
    if entries != [] {
      var n := |entries| - 1;
      var init := entries[..n];
      assert forall j :: 0 <= j < |init| ==> Abs(init[j].diffPct) >= lo by {
        assert forall j :: 0 <= j < n ==> init[j] == entries[j];
      }
      SumAbsAtLeast(init, lo);
    }
  }

  /** An average of `n` magnitudes summing to at most `n * hi` is at most `hi`. */
  lemma QuotientAtMost(sum: real, n: nat, hi: real)
    requires n > 0
    requires sum <= Repeat(n, hi)
    ensures sum / (n as real) <= hi
  {
    RepeatIsProduct(n, hi);
    var d := n as real;
    assert sum <= d * hi;
    assert sum / d <= (d * hi) / d;
    assert (d * hi) / d == hi;
  }

  /** An average of `n` magnitudes summing to at least `n * lo` is at least `lo`. */
  lemma QuotientAtLeast(sum: real, n: nat, lo: real)
    requires n > 0
    requires sum >= Repeat(n, lo)
    ensures sum / (n as real) >= lo
  {
    RepeatIsProduct(n, lo);
    var d := n as real;
    assert sum >= d * lo;
    assert sum / d >= (d * lo) / d;
    assert (d * lo) / d == lo;
  }

  /** The reported maximum magnitude is at least the reported average. */
  lemma MaxAtLeastAverage(entries: seq<Entry>)
    requires |entries| > 0
    ensures Abs(Largest(entries).0) >= Average(entries)
  {
    var hi := Abs(Largest(entries).0);
    LargestBoundsAll(entries);
    SumAbsAtMost(entries, hi);
    QuotientAtMost(SumAbs(entries), |entries|, hi);
  }

  /** When every entry's |diff %| reaches the threshold, so does their average. */
  lemma AverageAtLeastThreshold(entries: seq<Entry>, threshold: real)
    requires |entries| > 0
    requires forall j :: 0 <= j < |entries| ==> Abs(entries[j].diffPct) >= threshold
    ensures Average(entries) >= threshold
  {
    SumAbsAtLeast(entries, threshold);
    QuotientAtLeast(SumAbs(entries), |entries|, threshold);
  }

  /**
   * In percentage mode every entry of an alert breaches, so the average an
   * EMERGENCY message reports is at least the threshold, and the maximum at
   * least the average.
   */
  lemma EmergencyStatistics(cfg: Config, futures: map<string, real>, spot: SpotBoard, stamps: Stamps,
                            symbol: string, now: real)
    requires symbol in futures ==> SpotReady(spot, cfg.exchanges, symbol)
    requires cfg.usePercentage
    requires Assess(cfg, futures, spot, stamps, symbol, now).Alert?
    ensures var v := Assess(cfg, futures, spot, stamps, symbol, now);
      Average(v.entries) >= cfg.threshold && Abs(Largest(v.entries).0) >= Average(v.entries)
  {
    var entries := Assess(cfg, futures, spot, stamps, symbol, now).entries;
    ExceededExact(cfg.exchanges, spot, symbol, futures[symbol], cfg.usePercentage, cfg.threshold);
    AverageAtLeastThreshold(entries, cfg.threshold);
    MaxAtLeastAverage(entries);
  }

  // ---------------------------------------------------------------- properties of the decision

  /** Never having fired either level, an EMERGENCY is never an escalation. */
  lemma NoEscalationFromNever(cfg: Config, now: real)
    ensures !IsUpgrade(cfg, Emergency, (0.0, 0.0), now)
  {
  }

  /**
   * A level just dispatched at `t0` is not dispatched again inside its
   * cooldown, unless (for EMERGENCY) a WARN was dispatched after `t0`.
   */
  lemma NoRepeatWithinCooldown(cfg: Config, level: Level, stamps: Stamps, t0: real, t: real)
    requires t0 <= t < t0 + Cooldown(cfg, level)
    requires stamps.0 <= t0
    ensures !ShouldDispatch(cfg, level, Record(stamps, level, t0), t)
  {
  }

  /** A failed send leaves every timestamp as it was, so the same dispatch is retried next cycle. */
  lemma FailedSendRetries(cfg: Config, futures: map<string, real>, spot: SpotBoard, last: map<string, Stamps>,
                          symbol: string, now: real, later: real)
    requires symbol in last
    requires symbol in futures ==> SpotReady(spot, cfg.exchanges, symbol)
    requires later >= now
    ensures Step(cfg, futures, spot, last, symbol, now, false) == last
    ensures var v := Assess(cfg, futures, spot, last[symbol], symbol, now);
      v.Alert? && v.dispatch && !v.upgrade ==> Assess(cfg, futures, spot, last[symbol], symbol, later).dispatch
  {
  }

  /** A successful dispatch writes only `[symbol][level]`; other symbols and the other level keep theirs. */
  lemma StepTouchesOneCell(cfg: Config, futures: map<string, real>, spot: SpotBoard, last: map<string, Stamps>,
                           symbol: string, now: real, delivered: bool)
    requires symbol in last
    requires symbol in futures ==> SpotReady(spot, cfg.exchanges, symbol)
    ensures var r := Step(cfg, futures, spot, last, symbol, now, delivered);
      var v := Assess(cfg, futures, spot, last[symbol], symbol, now);
      (forall s :: s in last && s != symbol ==> r[s] == last[s])
      && (v.Alert? && v.dispatch && delivered ==>
            LastOf(r[symbol], v.level) == now
            && forall other :: other != v.level ==> LastOf(r[symbol], other) == LastOf(last[symbol], other))
      && (!(v.Alert? && v.dispatch && delivered) ==> r == last)
  {
  }

  /** Stamps are componentwise at most `bound`. */
  predicate AllAtMost(last: map<string, Stamps>, bound: real)
  {
    forall s :: s in last ==> last[s].0 <= bound && last[s].1 <= bound
  }

  /** Componentwise `before <= after` on every symbol. */
  predicate NoneDecreased(before: map<string, Stamps>, after: map<string, Stamps>)
  {
    forall s :: s in before && s in after ==> before[s].0 <= after[s].0 && before[s].1 <= after[s].1
  }

  predicate Nondecreasing(nows: seq<real>)
  {
    forall i, j :: 0 <= i < j < |nows| ==> nows[i] <= nows[j]
  }

  /** One step at a reading no earlier than every timestamp moves none back and none beyond it. */
  lemma StepMonotone(cfg: Config, futures: map<string, real>, spot: SpotBoard, last: map<string, Stamps>,
                     symbol: string, now: real, delivered: bool, bound: real)
    requires symbol in last
    requires symbol in futures ==> SpotReady(spot, cfg.exchanges, symbol)
    requires AllAtMost(last, bound) && bound <= now
    ensures var r := Step(cfg, futures, spot, last, symbol, now, delivered);
      NoneDecreased(last, r) && AllAtMost(r, now)
  {
  }

  lemma NoneDecreasedTransitive(a: map<string, Stamps>, b: map<string, Stamps>, c: map<string, Stamps>)
    requires a.Keys == b.Keys
    requires NoneDecreased(a, b) && NoneDecreased(b, c)
    ensures NoneDecreased(a, c)
  {
  }

  /**
   * With a monotone clock that starts no earlier than every timestamp, a
   * cycle never moves a timestamp backwards and never beyond its last reading.
   */
  lemma {:induction false} StepsMonotone(cfg: Config, futures: map<string, real>, spot: SpotBoard,
                                         last: map<string, Stamps>, symbols: seq<string>,
                                         nows: seq<real>, delivered: seq<bool>)
    requires |nows| == |symbols| == |delivered| > 0
    requires forall s :: s in symbols ==> s in last
    requires BoardReady(cfg, futures, spot, symbols)
    requires Nondecreasing(nows) && AllAtMost(last, nows[0])
    ensures var r := Steps(cfg, futures, spot, last, symbols, nows, delivered);
      NoneDecreased(last, r) && AllAtMost(r, nows[|nows| - 1])
    decreases |symbols|
  {
    var n := |symbols| - 1;
    assert forall s :: s in symbols[..n] ==> s in symbols;
    var prior := Steps(cfg, futures, spot, last, symbols[..n], nows[..n], delivered[..n]);
    var bound := nows[0];
    if n == 0 {
      assert prior == last;
    } else {
      assert Nondecreasing(nows[..n]) by {
        assert forall i :: 0 <= i < n ==> nows[..n][i] == nows[i];
      }
      StepsMonotone(cfg, futures, spot, last, symbols[..n], nows[..n], delivered[..n]);
      bound := nows[n - 1];
    }
    assert symbols[n] in symbols;
    StepMonotone(cfg, futures, spot, prior, symbols[n], nows[n], delivered[n], bound);
    NoneDecreasedTransitive(last, prior, Steps(cfg, futures, spot, last, symbols, nows, delivered));
  }

  /**
   * Cold start over a whole cycle: a symbol without a futures price keeps its
   * timestamps, however often it is listed and whatever the notifier reports.
   */
  lemma {:induction false} ColdSymbolUntouched(cfg: Config, futures: map<string, real>, spot: SpotBoard,
                                               last: map<string, Stamps>, symbols: seq<string>,
                                               nows: seq<real>, delivered: seq<bool>, symbol: string)
    requires |nows| == |symbols| == |delivered|
    requires forall s :: s in symbols ==> s in last
    requires BoardReady(cfg, futures, spot, symbols)
    requires symbol in last && symbol !in futures
    ensures Steps(cfg, futures, spot, last, symbols, nows, delivered)[symbol] == last[symbol]
    decreases |symbols|
  {
    if symbols != [] {
      var n := |symbols| - 1;
      assert forall s :: s in symbols[..n] ==> s in symbols;
      ColdSymbolUntouched(cfg, futures, spot, last, symbols[..n], nows[..n], delivered[..n], symbol);
    }
  }

  /** A futures price written for another symbol does not change this symbol's verdict. */
  lemma FuturesUpdateIsLocal(cfg: Config, futures: map<string, real>, spot: SpotBoard, stamps: Stamps,
                             written: string, price: real, symbol: string, now: real)
    requires written != symbol
    requires symbol in futures ==> SpotReady(spot, cfg.exchanges, symbol)
    ensures Assess(cfg, futures[written := price], spot, stamps, symbol, now)
         == Assess(cfg, futures, spot, stamps, symbol, now)
  {
  }

  /** A spot price written for another symbol does not change this symbol's verdict. */
  lemma SpotUpdateIsLocal(cfg: Config, futures: map<string, real>, spot: SpotBoard, stamps: Stamps,
                          exchange: string, written: string, price: real, symbol: string, now: real)
    requires exchange in spot && written != symbol
    requires symbol in futures ==> SpotReady(spot, cfg.exchanges, symbol)
    ensures symbol in futures ==> SpotReady(spot[exchange := spot[exchange][written := price]], cfg.exchanges, symbol)
    ensures Assess(cfg, futures, spot[exchange := spot[exchange][written := price]], stamps, symbol, now)
         == Assess(cfg, futures, spot, stamps, symbol, now)
  {
    if symbol in futures {
      ExceededIgnoresOtherSymbol(cfg.exchanges, spot, exchange, written, price, symbol,
                                 futures[symbol], cfg.usePercentage, cfg.threshold);
    }
  }

  // ---------------------------------------------------------------- scenarios

  /**
   * An exchange listed twice is visited twice and counted twice, so its
   * breach alone yields two entries and an EMERGENCY.
   */
  lemma DuplicateExchangeCountsTwice(cfg: Config, futures: map<string, real>, spot: SpotBoard,
                                     stamps: Stamps, symbol: string, e: string, now: real)
    requires cfg.exchanges == [e, e]
    requires symbol in futures && SpotReady(spot, cfg.exchanges, symbol)
    requires BreachesAt(spot, e, symbol, futures[symbol], cfg.usePercentage, cfg.threshold)
    ensures var v := Assess(cfg, futures, spot, stamps, symbol, now);
      v.Alert? && v.level == Emergency && |v.entries| == 2
      && v.entries[0].exchange == e && v.entries[1].exchange == e
  {
    var f := futures[symbol];
    var entry := EntryFor(e, f, spot[e][symbol]);
    assert SpotReady(spot, [e], symbol) && SpotReady(spot, [], symbol);
    assert [e, e][..1] == [e] && [e][..0] == [];
    assert Exceeded([], spot, symbol, f, cfg.usePercentage, cfg.threshold) == [];
    assert Exceeded([e], spot, symbol, f, cfg.usePercentage, cfg.threshold) == [entry];
    assert Exceeded([e, e], spot, symbol, f, cfg.usePercentage, cfg.threshold) == [entry, entry];
  }


  const Demo := Config(["gateio", "bybit"], ["TSLAX_USDT"], 0.5, true, 300.0, 180.0)

  /**
   * Futures 440.42 against bybit 437.00 (0.78%) and gateio 438.50 (0.44%) at
   * a 0.5% threshold: exactly one entry, for bybit, so a WARN.
   */
  lemma EndToEndExample()
    ensures Assess(Demo, map["TSLAX_USDT" := 440.42],
                   map["gateio" := map["TSLAX_USDT" := 438.50], "bybit" := map["TSLAX_USDT" := 437.00]],
                   (0.0, 0.0), "TSLAX_USDT", 1000.0)
         == Alert(Warn, [Entry("bybit", 437.00, 3.42, 3.42 / 437.00 * 100.0)], false, true)
  {
    var spot := map["gateio" := map["TSLAX_USDT" := 438.50], "bybit" := map["TSLAX_USDT" := 437.00]];
    assert Demo.exchanges[..1] == ["gateio"];
    assert ["gateio"][..0] == [];
    assert !BreachesAt(spot, "gateio", "TSLAX_USDT", 440.42, true, 0.5);
    assert BreachesAt(spot, "bybit", "TSLAX_USDT", 440.42, true, 0.5);
  }

  /** WARN at t=1000, the same single breach 100 s later: the second is held back (cooldown 300 s). */
  lemma WarnCooldownScenario()
    ensures ShouldDispatch(Demo, Warn, (0.0, 0.0), 1000.0)
    ensures !ShouldDispatch(Demo, Warn, Record((0.0, 0.0), Warn, 1000.0), 1100.0)
  {
  }

  /**
   * WARN at t=1000, a second exchange breaching at t=1060: the EMERGENCY is an
   * escalation and goes out at once, although 180 s have not passed since any
   * EMERGENCY; once it went out, the next EMERGENCY waits for its own cooldown.
   */
  lemma EscalationScenario()
    ensures var afterWarn := Record((0.0, 0.0), Warn, 1000.0);
      IsUpgrade(Demo, Emergency, afterWarn, 1060.0) && ShouldDispatch(Demo, Emergency, afterWarn, 1060.0)
      && var afterEmergency := Record(afterWarn, Emergency, 1060.0);
      !ShouldDispatch(Demo, Emergency, afterEmergency, 1100.0)
      && ShouldDispatch(Demo, Emergency, afterEmergency, 1240.0)
  {
  }

  // ---------------------------------------------------------------- the shared state

  /**
   * The module globals of the monitor as one object: the price board written
   * by the feed callbacks and the alert timestamps written by the monitor.
   */
  class Monitor {
    const cfg: Config
    var futures: map<string, real>              // gateio_futures
    var futuresData: map<string, Extra>         // futures_data
    var spot: SpotBoard                         // all_spot_prices
    var spotData: map<string, map<string, Extra>>  // spot_data
    var lastAlert: map<string, Stamps>          // last_alert_times

    ghost predicate Valid()
      reads this
    {
      && spot.Keys == spotData.Keys == (set e | e in cfg.exchanges)
      && (forall e :: e in spot ==> spot[e].Keys == spotData[e].Keys)
      && futures.Keys == futuresData.Keys
      && lastAlert.Keys == (set s | s in cfg.symbols)
    }

    /** The startup state: empty boards per enabled exchange, both timestamps 0 for every symbol. */
    constructor (cfg: Config)
      ensures Valid() && this.cfg == cfg
      ensures futures == map[] && futuresData == map[]
      ensures spot == (map e | e in cfg.exchanges :: map[])
      ensures lastAlert == (map s | s in cfg.symbols :: (0.0, 0.0))
    {
      this.cfg := cfg;
      futures, futuresData := map[], map[];
      spot := map e | e in cfg.exchanges :: map[];
      spotData := map e | e in cfg.exchanges :: map[];
      lastAlert := map s | s in cfg.symbols :: (0.0, 0.0);
    }

    /**
     * `on_price_update`: a Gate.io futures sample overwrites that symbol's
     * reference price; a spot sample of an enabled exchange overwrites that
     * one cell; anything else is ignored.
     */
    method OnPriceUpdate(exchange: string, symbol: string, priceType: string, price: real, extra: Extra)
      requires Valid()
      modifies this
      ensures Valid() && lastAlert == old(lastAlert)
      ensures exchange == "gateio" && priceType == "futures" ==>
        futures == old(futures)[symbol := price] && futuresData == old(futuresData)[symbol := extra]
        && spot == old(spot) && spotData == old(spotData)
      ensures !(exchange == "gateio" && priceType == "futures") && priceType == "spot" && exchange in old(spot) ==>
        spot == old(spot)[exchange := old(spot)[exchange][symbol := price]]
        && spotData == old(spotData)[exchange := old(spotData)[exchange][symbol := extra]]
        && futures == old(futures) && futuresData == old(futuresData)
      ensures !(exchange == "gateio" && priceType == "futures")
              && !(priceType == "spot" && exchange in old(spot)) ==>
        spot == old(spot) && spotData == old(spotData)
        && futures == old(futures) && futuresData == old(futuresData)
    {
      if exchange == "gateio" && priceType == "futures" {
        futures := futures[symbol := price];
        futuresData := futuresData[symbol := extra];
      } else if priceType == "spot" {
        if exchange in spot {
          spot := spot[exchange := spot[exchange][symbol := price]];
          spotData := spotData[exchange := spotData[exchange][symbol := extra]];
        }
      }
    }

    /**
     * The per-symbol body of the polling loop. `now` is the clock reading and
     * `delivered` what the notifier reports if a message is sent.
     */
    method CheckSymbol(symbol: string, now: real, delivered: bool) returns (v: Verdict)
      requires Valid() && symbol in cfg.symbols
      requires symbol in futures ==> SpotReady(spot, cfg.exchanges, symbol)
      modifies this`lastAlert
      ensures Valid()
      ensures v == Assess(cfg, futures, spot, old(lastAlert)[symbol], symbol, now)
      ensures symbol !in futures ==> v == Cold && lastAlert == old(lastAlert)
      ensures lastAlert == Step(cfg, futures, spot, old(lastAlert), symbol, now, delivered)
    {
      if symbol !in futures {
        return Cold;
      }
      var futuresPrice := futures[symbol];
      var entries := CollectExceeded(cfg.exchanges, spot, symbol, futuresPrice, cfg.usePercentage, cfg.threshold);
      var count := |entries|;
      var level, cooldown;
      if count == 0 {
        return Calm;
      } else if count == 1 {
        level, cooldown := Warn, cfg.warnCooldown;
      } else {
        level, cooldown := Emergency, cfg.emergencyCooldown;
      }
      var lastTime := LastOf(lastAlert[symbol], level);
      var upgrade := false;
      if level == Emergency {
        var lastWarn := lastAlert[symbol].0;
        if lastWarn > lastTime && now - lastWarn < cfg.warnCooldown {
          upgrade := true;
        }
      }
      var dispatch := upgrade || now - lastTime >= cooldown;
      if dispatch && delivered {
        lastAlert := lastAlert[symbol := Record(lastAlert[symbol], level, now)];
      }
      v := Alert(level, entries, upgrade, dispatch);
    }

    /** One pass of `for symbol in SYMBOLS`, with a clock reading and notifier outcome per symbol. */
    method Cycle(nows: seq<real>, delivered: seq<bool>)
      requires Valid()
      requires |nows| == |cfg.symbols| == |delivered|
      requires BoardReady(cfg, futures, spot, cfg.symbols)
      modifies this`lastAlert
      ensures Valid()
      ensures lastAlert == Steps(cfg, futures, spot, old(lastAlert), cfg.symbols, nows, delivered)
    {
      var i := 0;
      while i < |cfg.symbols|
        invariant 0 <= i <= |cfg.symbols|
        invariant Valid()
        invariant lastAlert == Steps(cfg, futures, spot, old(lastAlert), cfg.symbols[..i], nows[..i], delivered[..i])
      {
        var symbol := cfg.symbols[i];
        StepsPrefix(cfg, futures, spot, old(lastAlert), cfg.symbols, nows, delivered, i);
        ghost var prior := lastAlert;
        var _ := CheckSymbol(symbol, nows[i], delivered[i]);
        assert lastAlert == Step(cfg, futures, spot, prior, symbol, nows[i], delivered[i]);
        i := i + 1;
      }
      assert cfg.symbols[..i] == cfg.symbols;
      assert nows[..i] == nows;
      assert delivered[..i] == delivered;
    }
  }
}
