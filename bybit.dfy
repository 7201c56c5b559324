/**
 * The Bybit spot feed: tracked symbols are written `BASE_QUOTE`, Bybit's
 * wire format drops the separator, and every incoming ticker is mapped back
 * to the tracked symbol it came from before it is emitted.
 */
module Bybit {
  import opened Wrappers
  import opened Divergence

  const TopicPrefix := "tickers."

  /** A normalised price sample, as handed to the price board's update callback. */
  datatype PriceUpdate = PriceUpdate(exchange: string, symbol: string, priceType: string, price: real, extra: Extra)

  /**
   * The fields of one Bybit message the listener reads. A missing `topic` or
   * `symbol` reads as "", a missing `lastPrice` as None.
   */
  datatype TickerMessage = TickerMessage(topic: string, symbol: string, lastPrice: Option<real>, extra: Extra)

  /** `_convert_symbol_format`: every `_` removed, all other characters kept in order. */
  function ConvertSymbol(symbol: string): (r: string)
    ensures '_' !in r
    ensures |r| <= |symbol|
  {
    if symbol == [] then []
    else (if symbol[0] == '_' then [] else [symbol[0]]) + ConvertSymbol(symbol[1..])
  }

  /** Exactly the characters other than `_` survive the conversion. */
  lemma {:induction false} ConvertKeepsCharacters(symbol: string)
    ensures forall c :: c in ConvertSymbol(symbol) <==> c in symbol && c != '_'
  {
    if symbol != [] {
      ConvertKeepsCharacters(symbol[1..]);
      assert symbol == [symbol[0]] + symbol[1..];
    }
  }

  /** A symbol with no separator is already in Bybit's format. */
  lemma {:induction false} ConvertKeepsPlain(symbol: string)
    requires '_' !in symbol
    ensures ConvertSymbol(symbol) == symbol
  {
    if symbol != [] {
      assert '_' !in symbol[1..] by {
        assert forall c :: c in symbol[1..] ==> c in symbol;
      }
      ConvertKeepsPlain(symbol[1..]);
      assert symbol == [symbol[0]] + symbol[1..];
    }
  }

  lemma ConvertIdempotent(symbol: string)
    ensures ConvertSymbol(ConvertSymbol(symbol)) == ConvertSymbol(symbol)
  {
    ConvertKeepsPlain(ConvertSymbol(symbol));
  }

  /** The conversion works character by character: it distributes over concatenation. */
  lemma {:induction false} ConvertConcat(a: string, b: string)
    ensures ConvertSymbol(a + b) == ConvertSymbol(a) + ConvertSymbol(b)
  {
    if a != [] {
      assert (a + b)[0] == a[0];
      assert (a + b)[1..] == a[1..] + b;
      ConvertConcat(a[1..], b);
    } else {
      assert a + b == b;
    }
  }

  /** `BASE_QUOTE` becomes `BASEQUOTE` (so `TSLAX_USDT` becomes `TSLAXUSDT`). */
  lemma ConvertJoin(base: string, quote: string)
    requires '_' !in base && '_' !in quote
    ensures ConvertSymbol(base + "_" + quote) == base + quote
  {
    var sep := "_";
    assert ConvertSymbol(sep) == [] by {
      assert sep[1..] == [];
    }
    assert ConvertSymbol(base + sep) == base by {
      ConvertConcat(base, sep);
      ConvertKeepsPlain(base);
    }
    assert ConvertSymbol(base + sep + quote) == base + quote by {
      ConvertConcat(base + sep, quote);
      ConvertKeepsPlain(quote);
    }
  }

  /**
   * Different tracked symbols can share a wire form (`AB_C` and `ABC`), which
   * is why the reverse lookup keeps the first match.
   */
  lemma ConvertMerges(base: string, quote: string)
    requires '_' !in base && '_' !in quote
    ensures base + "_" + quote != base + quote
    ensures ConvertSymbol(base + "_" + quote) == ConvertSymbol(base + quote)
  {
    ConvertJoin(base, quote);
    assert '_' !in base + quote;
    ConvertKeepsPlain(base + quote);
    assert |base + "_" + quote| != |base + quote|;
  }

  /**
   * `bybit_symbols`: the tracked symbols in wire format, in the same order.
   * No wire symbol has a separator, and the wire symbols are exactly the
   * conversions of the tracked ones.
   */
  function ConvertAll(symbols: seq<string>): (r: seq<string>)
    ensures |r| == |symbols|
    ensures forall i :: 0 <= i < |symbols| ==> r[i] == ConvertSymbol(symbols[i])
    ensures forall i :: 0 <= i < |r| ==> '_' !in r[i]
    ensures forall w :: w in r <==> exists s :: s in symbols && ConvertSymbol(s) == w
  {
    var r := seq(|symbols|, i requires 0 <= i < |symbols| => ConvertSymbol(symbols[i]));
    assert forall w :: w in r ==> exists s :: s in symbols && ConvertSymbol(s) == w by {
      forall w | w in r
        ensures exists s :: s in symbols && ConvertSymbol(s) == w
      {
        var i :| 0 <= i < |r| && r[i] == w;
        assert symbols[i] in symbols;
      }
    }
    assert forall w :: (exists s :: s in symbols && ConvertSymbol(s) == w) ==> w in r by {
      forall w | exists s :: s in symbols && ConvertSymbol(s) == w
        ensures w in r
      {
        var s :| s in symbols && ConvertSymbol(s) == w;
        var i :| 0 <= i < |symbols| && symbols[i] == s;
        assert r[i] == w;
      }
    }
    r
  }

  /** The subscription arguments `tickers.<wire symbol>`. */
  function SubscribeArgs(bybitSymbols: seq<string>): (r: seq<string>)
    ensures |r| == |bybitSymbols|
    ensures forall i :: 0 <= i < |r| ==> TopicPrefix <= r[i] && r[i][|TopicPrefix|..] == bybitSymbols[i]
  {
    seq(|bybitSymbols|, i requires 0 <= i < |bybitSymbols| => TopicPrefix + bybitSymbols[i])
  }

  /** The `for orig, bybit in zip(...)` search: the first pair whose wire form is the message's symbol. */
  function FirstMatch(symbols: seq<string>, bybitSymbols: seq<string>, wire: string): Option<string>
    decreases |symbols|
  {
    if symbols == [] || bybitSymbols == [] then None
    else if bybitSymbols[0] == wire then Some(symbols[0])
    else FirstMatch(symbols[1..], bybitSymbols[1..], wire)
  }

  /**
   * The search over any wire list that lines up with the tracked symbols:
   * nothing is found exactly when no tracked symbol converts to the wire
   * symbol, and otherwise the first one that does is found.
   */
  lemma {:induction false} FirstMatchOver(symbols: seq<string>, wires: seq<string>, wire: string)
    requires |wires| == |symbols|
    requires forall i :: 0 <= i < |symbols| ==> wires[i] == ConvertSymbol(symbols[i])
    ensures FirstMatch(symbols, wires, wire).None? <==>
      forall i :: 0 <= i < |symbols| ==> ConvertSymbol(symbols[i]) != wire
    ensures FirstMatch(symbols, wires, wire).Some? ==>
      exists k :: 0 <= k < |symbols| && symbols[k] == FirstMatch(symbols, wires, wire).value
                  && ConvertSymbol(symbols[k]) == wire
                  && forall j :: 0 <= j < k ==> ConvertSymbol(symbols[j]) != wire
    decreases |symbols|
  {
    if symbols != [] {
      var rest, restWires := symbols[1..], wires[1..];
      FirstMatchOver(rest, restWires, wire);
      if wires[0] != wire {
        assert FirstMatch(symbols, wires, wire) == FirstMatch(rest, restWires, wire);
        if FirstMatch(rest, restWires, wire).Some? {
          var k :| 0 <= k < |rest| && rest[k] == FirstMatch(rest, restWires, wire).value
                   && ConvertSymbol(rest[k]) == wire
                   && forall j :: 0 <= j < k ==> ConvertSymbol(rest[j]) != wire;
          assert symbols[k + 1] == rest[k];
        } else {
          assert forall i :: 1 <= i < |symbols| ==> symbols[i] == rest[i - 1];
        }
      }
    }
  }

  /**
   * Over the converted list, the search finds nothing exactly when no tracked
   * symbol converts to the wire symbol, and otherwise finds the first one that does.
   */
  lemma FirstMatchIsFirst(symbols: seq<string>, wire: string)
    ensures FirstMatch(symbols, ConvertAll(symbols), wire).None? <==>
      forall i :: 0 <= i < |symbols| ==> ConvertSymbol(symbols[i]) != wire
    ensures FirstMatch(symbols, ConvertAll(symbols), wire).Some? ==>
      exists k :: 0 <= k < |symbols| && symbols[k] == FirstMatch(symbols, ConvertAll(symbols), wire).value
                  && ConvertSymbol(symbols[k]) == wire
                  && forall j :: 0 <= j < k ==> ConvertSymbol(symbols[j]) != wire
  {
    FirstMatchOver(symbols, ConvertAll(symbols), wire);
  }

  /** The reverse lookup loop of monitors/exchanges/bybit.py:53-57, with its `break` on the first match. */
  method ReverseLookup(symbols: seq<string>, bybitSymbols: seq<string>, wire: string) returns (original: Option<string>)
    ensures original == FirstMatch(symbols, bybitSymbols, wire)
  {
    original := None;
    var i := 0;
    while i < |symbols| && i < |bybitSymbols|
      invariant 0 <= i <= |symbols| && i <= |bybitSymbols|
      invariant FirstMatch(symbols, bybitSymbols, wire) == FirstMatch(symbols[i..], bybitSymbols[i..], wire)
    {
      if bybitSymbols[i] == wire {
        original := Some(symbols[i]);
        break;
      }
      assert symbols[i..][1..] == symbols[i + 1..];
      assert bybitSymbols[i..][1..] == bybitSymbols[i + 1..];
      i := i + 1;
    }
  }

  /**
   * What one message produces: nothing unless its topic starts with
   * `tickers.` and its symbol maps back to a tracked symbol that Python reads
   * as true (not ""); a missing last price is emitted as 0.
   */
  function Emit(symbols: seq<string>, msg: TickerMessage): Option<PriceUpdate>
  {
    if !(TopicPrefix <= msg.topic) then None
    else match FirstMatch(symbols, ConvertAll(symbols), msg.symbol)
      case None => None
      case Some(original) =>
        if original == "" then None
        else
          var price := match msg.lastPrice case Some(p) => p case None => 0.0;
          Some(PriceUpdate("bybit", original, "spot", price, msg.extra))
  }

  /** The body of the receive loop of `start_spot_listener` for one decoded message. */
  method HandleMessage(symbols: seq<string>, bybitSymbols: seq<string>, msg: TickerMessage)
    returns (update: Option<PriceUpdate>)
    requires bybitSymbols == ConvertAll(symbols)
    ensures update == Emit(symbols, msg)
  {
    update := None;
    if TopicPrefix <= msg.topic {
      var original := ReverseLookup(symbols, bybitSymbols, msg.symbol);
      if original.Some? && original.value != "" {
        var price := if msg.lastPrice.Some? then msg.lastPrice.value else 0.0;
        update := Some(PriceUpdate("bybit", original.value, "spot", price, msg.extra));
      }
    }
  }

  /**
   * Every emitted update is a Bybit spot sample of a tracked symbol whose wire
   * form is the message's symbol, from a `tickers.` topic.
   */
  lemma EmittedUpdatesAreTracked(symbols: seq<string>, msg: TickerMessage)
    requires Emit(symbols, msg).Some?
    ensures var u := Emit(symbols, msg).value;
      u.exchange == "bybit" && u.priceType == "spot" && u.symbol in symbols && u.symbol != ""
      && ConvertSymbol(u.symbol) == msg.symbol && TopicPrefix <= msg.topic
      && u.price == (if msg.lastPrice.Some? then msg.lastPrice.value else 0.0)
  {
    FirstMatchIsFirst(symbols, msg.symbol);
  }

  /** A wire symbol that no tracked symbol converts to produces no update. */
  lemma UnknownSymbolIsDropped(symbols: seq<string>, msg: TickerMessage)
    requires forall i :: 0 <= i < |symbols| ==> ConvertSymbol(symbols[i]) != msg.symbol
    ensures Emit(symbols, msg) == None
  {
    FirstMatchIsFirst(symbols, msg.symbol);
  }

  /**
   * A message on a subscribed topic for a tracked, non-empty symbol whose wire
   * form no earlier symbol shares comes back under that very symbol.
   */
  lemma SubscribedSymbolRoundTrips(symbols: seq<string>, k: nat, msg: TickerMessage)
    requires k < |symbols| && symbols[k] != ""
    requires forall j :: 0 <= j < k ==> ConvertSymbol(symbols[j]) != ConvertSymbol(symbols[k])
    requires msg.topic == SubscribeArgs(ConvertAll(symbols))[k] && msg.symbol == ConvertSymbol(symbols[k])
    ensures Emit(symbols, msg).Some? && Emit(symbols, msg).value.symbol == symbols[k]
  {
    FirstMatchIsFirst(symbols, msg.symbol);
    var r := FirstMatch(symbols, ConvertAll(symbols), msg.symbol);
    var i :| 0 <= i < |symbols| && symbols[i] == r.value && ConvertSymbol(symbols[i]) == msg.symbol
             && forall j :: 0 <= j < i ==> ConvertSymbol(symbols[j]) != msg.symbol;
    assert i == k;
  }
}
