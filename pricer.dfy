/**
 * The server's `Pricer`: the base price of every configured currency pair,
 * read once from a CSV file, the on/off switch per pair that the pricing
 * endpoints flip, and the gate that lets a scheduled generation publish a
 * new quote only while its pair is switched on.
 *
 * The executor is not modelled as a clock: `scheduled` records every call
 * of `scheduleNextPriceGeneration`, in order, and a generation runs when its
 * caller passes the scheduled `Price` to `GenerateAndNotifyPrice`, together
 * with the rounded random bid and ask and the current time.
 */
module Pricing {
  import opened Wrappers
  import JavaStrings
  import opened Decimals
  import opened Prices
  import opened Metrics
  import opened Dispatcher

  /** The fields of a configuration line: `line.split(",")`. */
  function Fields(line: string): seq<string>
  {
    JavaStrings.Split(line, ',')
  }

  /** A line `loadCurrencyPairs` keeps: one that splits into exactly two fields. */
  predicate IsPairLine(line: string)
  {
    |Fields(line)| == 2
  }

  /**
   * What `loadCurrencyPairs` makes of the first lines of the file: the map
   * from the first field to the number in the second, for the two-field
   * lines, or the text of the first second field `new BigDecimal` rejects.
   * Lines are taken in order, so a later line overwrites an earlier one.
   */
  function Pairs(lines: seq<string>): Result<map<string, Decimal>, string>
  {
    if lines == [] then Ok(map[])
    else
      var before := Pairs(lines[..|lines| - 1]);
      var line := lines[|lines| - 1];
      if before.Err? || !IsPairLine(line) then before
      else
        var number := ParseDecimal(Fields(line)[1]);
        if number.None? then Err(Fields(line)[1])
        else Ok(before.value[Fields(line)[0] := number.value])
  }

  /** One more line either leaves the loaded map alone, adds its pair, or fails on its number. */
  lemma PairsStep(lines: seq<string>, i: nat, loaded: map<string, Decimal>)
    requires i < |lines| && Pairs(lines[..i]) == Ok(loaded)
    ensures !IsPairLine(lines[i]) ==> Pairs(lines[..i + 1]) == Ok(loaded)
    ensures IsPairLine(lines[i]) && ParseDecimal(Fields(lines[i])[1]).None?
            ==> Pairs(lines[..i + 1]) == Err(Fields(lines[i])[1])
    ensures IsPairLine(lines[i]) && ParseDecimal(Fields(lines[i])[1]).Some?
            ==> Pairs(lines[..i + 1]) == Ok(loaded[Fields(lines[i])[0] := ParseDecimal(Fields(lines[i])[1]).value])
  {
    assert lines[..i + 1][..i] == lines[..i];
  }

  /** A pair is loaded exactly when some two-field line names it. */
  lemma {:induction false} PairsKeys(lines: seq<string>, ccyPair: string)
    requires Pairs(lines).Ok?
    ensures ccyPair in Pairs(lines).value
            <==> exists i :: 0 <= i < |lines| && IsPairLine(lines[i]) && Fields(lines[i])[0] == ccyPair
  {
    if lines != [] {
      var prefix := lines[..|lines| - 1];
      PairsKeys(prefix, ccyPair);
      assert forall i :: 0 <= i < |prefix| ==> prefix[i] == lines[i];
      var last := |lines| - 1;
      if IsPairLine(lines[last]) && Fields(lines[last])[0] == ccyPair {
        assert ccyPair in Pairs(lines).value;
      }
    }
  }

  /**
   * The number loaded for a pair comes from the last two-field line naming
   * it: a duplicate later in the file overwrites the earlier one.
   */
  lemma {:induction false} PairsLastWins(lines: seq<string>, i: nat)
    requires Pairs(lines).Ok?
    requires i < |lines| && IsPairLine(lines[i])
    requires forall j :: i < j < |lines| && IsPairLine(lines[j]) ==> Fields(lines[j])[0] != Fields(lines[i])[0]
    ensures Fields(lines[i])[0] in Pairs(lines).value
    ensures ParseDecimal(Fields(lines[i])[1]) == Some(Pairs(lines).value[Fields(lines[i])[0]])
  {
    var prefix := lines[..|lines| - 1];
    if i < |lines| - 1 {
      assert forall j :: i < j < |prefix| ==> prefix[j] == lines[j];
      PairsLastWins(prefix, i);
    }
  }

  /** A line `loadCurrencyPairs` keeps but whose second field `new BigDecimal` rejects. */
  predicate IsBadLine(line: string)
  {
    IsPairLine(line) && ParseDecimal(Fields(line)[1]).None?
  }

  predicate HasBadLine(lines: seq<string>)
  {
    exists i :: 0 <= i < |lines| && IsBadLine(lines[i])
  }

  lemma HasBadLineAppend(lines: seq<string>, line: string)
    ensures HasBadLine(lines + [line]) <==> HasBadLine(lines) || IsBadLine(line)
  {
    var all := lines + [line];
    if HasBadLine(lines) {
      var i :| 0 <= i < |lines| && IsBadLine(lines[i]);
      assert all[i] == lines[i];
    }
    if IsBadLine(line) {
      assert all[|lines|] == line;
    }
    if HasBadLine(all) {
      var i :| 0 <= i < |all| && IsBadLine(all[i]);
      if i < |lines| {
        assert lines[i] == all[i];
      }
    }
  }

  /** One more line fails the load exactly when the load had failed already or the line is bad. */
  lemma PairsStepErr(lines: seq<string>)
    requires lines != []
    ensures Pairs(lines).Err? <==> Pairs(lines[..|lines| - 1]).Err? || IsBadLine(lines[|lines| - 1])
  {
  }

  /** Loading fails exactly when some two-field line has a second field that is not a number. */
  lemma {:induction false} PairsErrIff(lines: seq<string>)
    ensures Pairs(lines).Err? <==> HasBadLine(lines)
  {
    if lines != [] {
      var prefix := lines[..|lines| - 1];
      PairsErrIff(prefix);
      PairsStepErr(lines);
      HasBadLineAppend(prefix, lines[|lines| - 1]);
      assert prefix + [lines[|lines| - 1]] == lines;
    }
  }

  /**
   * `loadCurrencyPairs` over the lines of the resource: each line split on
   * commas, `parts[0] -> new BigDecimal(parts[1])` put for the lines with
   * exactly two parts, the others skipped; a second part that is not a
   * number ends the load with `NumberFormatException`.
   */
  method LoadCurrencyPairs(lines: seq<string>) returns (r: Result<map<string, Decimal>, string>)
    ensures r == Pairs(lines)
  {
    var currencyPairs: map<string, Decimal> := map[];
    var i := 0;
    while i < |lines|
      invariant i <= |lines|
      invariant Pairs(lines[..i]) == Ok(currencyPairs)
    {
      PairsStep(lines, i, currencyPairs);
      var parts := Fields(lines[i]);
      if |parts| == 2 {
        var number := ParseDecimal(parts[1]);
        if number.None? {
          FirstErrorStays(lines, i + 1);
          return Err(parts[1]);
        }
        currencyPairs := currencyPairs[parts[0] := number.value];
      }
      i := i + 1;
    }
    assert lines[..i] == lines;
    r := Ok(currencyPairs);
  }

  /** Once loading has failed on a line, the lines after it do not change the error. */
  lemma {:induction false} FirstErrorStays(lines: seq<string>, n: nat)
    requires n <= |lines| && Pairs(lines[..n]).Err?
    ensures Pairs(lines) == Pairs(lines[..n])
    decreases |lines| - n
  {
    if n < |lines| {
      assert lines[..n + 1][..n] == lines[..n];
      FirstErrorStays(lines, n + 1);
    } else {
      assert lines[..n] == lines;
    }
  }

  /** `put(p, v)` on every key in `keys`; the entries for other keys stay. */
  function SetAll(m: map<string, bool>, keys: set<string>, v: bool): (r: map<string, bool>)
  {
    map k | k in m.Keys + keys :: if k in keys then v else m[k]
  }

  /** `SetAll` switches exactly the given keys and leaves every other entry, present or absent, alone. */
  lemma SetAllEffect(m: map<string, bool>, keys: set<string>, v: bool)
    ensures forall k :: k in keys ==> k in SetAll(m, keys, v) && SetAll(m, keys, v)[k] == v
    ensures forall k :: k !in keys ==> (k in SetAll(m, keys, v) <==> k in m)
    ensures forall k :: k !in keys && k in m ==> SetAll(m, keys, v)[k] == m[k]
  {
  }

  /** The pair of each price, in list order. */
  function CcyPairsOf(ps: seq<Price>): (r: seq<string>)
    reads ps
    ensures |r| == |ps|
  {
    if ps == [] then [] else CcyPairsOf(ps[..|ps| - 1]) + [ps[|ps| - 1].ccyPair]
  }

  lemma CcyPairsOfAppend(ps: seq<Price>, p: Price)
    ensures CcyPairsOf(ps + [p]) == CcyPairsOf(ps) + [p.ccyPair]
  {
    assert (ps + [p])[..|ps|] == ps;
  }

  /** Every price in the list is a zero quote stamped `now`. */
  predicate AllZero(ps: seq<Price>, now: Timestamp)
    reads ps
  {
    forall p :: p in ps ==> p.bid == ZERO && p.ask == ZERO && p.timestamp == now
  }

  lemma AllZeroAppend(ps: seq<Price>, p: Price, now: Timestamp)
    requires AllZero(ps, now) && p.bid == ZERO && p.ask == ZERO && p.timestamp == now
    ensures AllZero(ps + [p], now)
  {
  }

  /** The set of the elements of a list. */
  function Elements<T>(s: seq<T>): set<T>
  {
    set x | x in s
  }

  lemma ElementsAppend<T>(s: seq<T>, x: T)
    ensures Elements(s + [x]) == Elements(s) + {x}
  {
    assert forall y :: y in s + [x] <==> y in s || y == x;
  }

  /** Taking one more key from `remaining` into the list keeps the list and the rest in step. */
  lemma NamesStep(keys: set<string>, remaining: set<string>, names: seq<string>, k: string)
    requires remaining <= keys && k in remaining
    requires Elements(names) == keys - remaining && |names| + |remaining| == |keys|
    ensures Elements(names + [k]) == keys - (remaining - {k})
    ensures |names + [k]| + |remaining - {k}| == |keys|
  {
    ElementsAppend(names, k);
    assert keys - (remaining - {k}) == keys - remaining + {k};
  }

  /** A list has no more distinct elements than entries, and as many only when no entry repeats. */
  lemma {:induction false} ElementsCard<T>(s: seq<T>)
    ensures |Elements(s)| <= |s|
    ensures |Elements(s)| == |s| ==> forall i, j :: 0 <= i < j < |s| ==> s[i] != s[j]
  {
    if s != [] {
      var prefix := s[..|s| - 1];
      var x := s[|s| - 1];
      ElementsCard(prefix);
      assert s == prefix + [x];
      assert Elements(s) == Elements(prefix) + {x};
      if x in prefix {
        assert Elements(s) == Elements(prefix);
      } else {
        assert |Elements(s)| == |Elements(prefix)| + 1;
        if |Elements(s)| == |s| {
          forall i, j | 0 <= i < j < |s|
            ensures s[i] != s[j]
          {
            if j < |s| - 1 {
              assert s[i] == prefix[i] && s[j] == prefix[j];
            } else {
              assert s[i] == prefix[i] && prefix[i] in prefix;
              assert s[j] == x;
            }
          }
        }
      }
    }
  }

  /**
   * A list of prices whose pairs are exactly `keys`, with as many prices as
   * keys, holds exactly one price per key.
   */
  lemma OnePricePerPair(names: seq<string>, keys: set<string>)
    requires |names| == |keys| && Elements(names) == keys
    ensures forall i, j :: 0 <= i < j < |names| ==> names[i] != names[j]
  {
    ElementsCard(names);
  }

  /** The keys of a set as a list, in no particular order: the order in which a `for` over `keySet()` visits them. */
  method KeyList(keys: set<string>) returns (list: seq<string>)
    ensures |list| == |keys| && Elements(list) == keys
  {
    list := [];
    var remaining := keys;
    while remaining != {}
      invariant remaining <= keys
      invariant Elements(list) == keys - remaining && |list| + |remaining| == |keys|
      decreases remaining
    {
      var k :| k in remaining;
      NamesStep(keys, remaining, list, k);
      list := list + [k];
      remaining := remaining - {k};
    }
    assert keys - remaining == keys;
  }

  /** Switching the keys of a list one more entry at a time is one more `put` per entry. */
  lemma SetAllPrefix(m: map<string, bool>, keys: seq<string>, i: nat, v: bool)
    requires i < |keys|
    ensures SetAll(m, Elements(keys[..i + 1]), v) == SetAll(m, Elements(keys[..i]), v)[keys[i] := v]
  {
    assert keys[..i + 1] == keys[..i] + [keys[i]];
    ElementsAppend(keys[..i], keys[i]);
  }

  /** Prices that are zero quotes stamped `now`, one per listed pair in order, are `AllZero` and carry that list of pairs. */
  lemma {:induction false} NewZeroPrices(ps: seq<Price>, names: seq<string>, now: Timestamp)
    requires |ps| == |names|
    requires forall j :: 0 <= j < |ps| ==>
               ps[j].bid == ZERO && ps[j].ask == ZERO && ps[j].timestamp == now && ps[j].ccyPair == names[j]
    ensures AllZero(ps, now) && CcyPairsOf(ps) == names
  {
    if ps != [] {
      var n := |ps| - 1;
      NewZeroPrices(ps[..n], names[..n], now);
      assert ps == ps[..n] + [ps[n]];
      assert names == names[..n] + [names[n]];
      CcyPairsOfAppend(ps[..n], ps[n]);
      AllZeroAppend(ps[..n], ps[n], now);
    }
  }

  /** What happened to one scheduled generation. */
  datatype Generation =
    | Stopped    // the pair is not switched on: nothing happens and the chain of generations ends
    | Published  // a new quote was stored, sent and the next generation scheduled
    | Failed     // the pair is switched on but has no base price: `calculateBid(null)` throws

  class Pricer {
    /** The base price of every configured pair. */
    const basePrices: map<string, Decimal>
    /** One `Price` per configured pair, made at construction. */
    const prices: seq<Price>
    /** Which pairs are switched on; a pair never switched is absent. */
    var activePairs: map<string, bool>
    var dispatcher: BaseDispatcher?
    /** Every price handed to the scheduler, in order. */
    var scheduled: seq<Price>

    /**
     * `new Pricer(path)`: the pairs loaded from the file's lines, one price
     * of zero bid and zero ask per pair, no pair switched on, nothing
     * scheduled. The load's failure is the construction's failure.
     */
    static method Create(lines: seq<string>, now: Timestamp) returns (r: Result<Pricer, string>)
      ensures r.Err? <==> Pairs(lines).Err?
      ensures r.Ok? ==> fresh(r.value) && r.value.basePrices == Pairs(lines).value
      ensures r.Ok? ==> r.value.activePairs == map[] && r.value.scheduled == [] && r.value.dispatcher == null
      ensures r.Ok? ==> forall p :: p in r.value.prices ==> fresh(p)
      ensures r.Ok? ==> AllZero(r.value.prices, now)
      ensures r.Ok? ==> |r.value.prices| == |r.value.basePrices|
                        && Elements(CcyPairsOf(r.value.prices)) == r.value.basePrices.Keys
    {
      var loaded := LoadCurrencyPairs(lines);
      if loaded.Err? {
        return Err(loaded.error);
      }
      var prices := InitialPrices(loaded.value.Keys, now);
      var pricer := new Pricer(loaded.value, prices);
      r := Ok(pricer);
    }

    constructor (basePrices: map<string, Decimal>, prices: seq<Price>)
      ensures this.basePrices == basePrices && this.prices == prices
      ensures activePairs == map[] && scheduled == [] && dispatcher == null
    {
      this.basePrices := basePrices;
      this.prices := prices;
      activePairs := map[];
      scheduled := [];
      dispatcher := null;
    }

    /** The `keySet().stream().map(...)` of the constructor: a new zero price for each pair, in no particular order. */
    static method InitialPrices(ccyPairs: set<string>, now: Timestamp) returns (prices: seq<Price>)
      ensures forall p :: p in prices ==> fresh(p)
      ensures AllZero(prices, now)
      ensures |prices| == |ccyPairs| && Elements(CcyPairsOf(prices)) == ccyPairs
    {
      prices := [];
      var remaining := ccyPairs;
      while remaining != {}
        invariant remaining <= ccyPairs
        invariant forall p :: p in prices ==> fresh(p)
        invariant AllZero(prices, now)
        invariant |prices| + |remaining| == |ccyPairs| && Elements(CcyPairsOf(prices)) == ccyPairs - remaining
        decreases remaining
      {
        var ccyPair :| ccyPair in remaining;
        var price := new Price(ZERO, ZERO, ccyPair, now);
        CcyPairsOfAppend(prices, price);
        NamesStep(ccyPairs, remaining, CcyPairsOf(prices), ccyPair);
        AllZeroAppend(prices, price, now);
        prices := prices + [price];
        remaining := remaining - {ccyPair};
      }
    }

    method SetBaseDispatcher(baseDispatcher: BaseDispatcher?)
      modifies this`dispatcher
      ensures dispatcher == baseDispatcher
    {
      dispatcher := baseDispatcher;
    }

    /** `startPriceGeneration`: one generation scheduled for each initial price, in list order. */
    method StartPriceGeneration()
      modifies this`scheduled
      ensures scheduled == old(scheduled) + prices
    {
      scheduled := scheduled + prices;
    }

    /**
     * `startPricing(p)`: switches `p` on, whether or not it is configured,
     * and schedules a generation for a new zero price of `p`.
     */
    method StartPricing(ccyPair: string, now: Timestamp)
      modifies this`activePairs, this`scheduled
      ensures activePairs == old(activePairs)[ccyPair := true]
      ensures |scheduled| == |old(scheduled)| + 1 && scheduled == old(scheduled) + [scheduled[|scheduled| - 1]]
      ensures var p := scheduled[|scheduled| - 1];
              fresh(p) && p.bid == ZERO && p.ask == ZERO && p.ccyPair == ccyPair && p.timestamp == now
    {
      activePairs := activePairs[ccyPair := true];
      var price := new Price(ZERO, ZERO, ccyPair, now);
      scheduled := scheduled + [price];
    }

    /** `pausePricing(p)`: switches `p` off and does nothing else. */
    method PausePricing(ccyPair: string)
      modifies this`activePairs
      ensures activePairs == old(activePairs)[ccyPair := false]
    {
      activePairs := activePairs[ccyPair := false];
    }

    /**
     * `startAllPricing`: `startPricing` for every configured pair, so every
     * configured pair is on, every other entry is as it was, and one new
     * zero price is scheduled per configured pair.
     */
    method StartAllPricing(now: Timestamp)
      modifies this`activePairs, this`scheduled
      ensures activePairs == SetAll(old(activePairs), basePrices.Keys, true)
      ensures |old(scheduled)| <= |scheduled| && scheduled[..|old(scheduled)|] == old(scheduled)
      ensures forall j :: |old(scheduled)| <= j < |scheduled| ==> fresh(scheduled[j])
      ensures AllZero(scheduled[|old(scheduled)|..], now)
      ensures |scheduled| == |old(scheduled)| + |basePrices|
              && Elements(CcyPairsOf(scheduled[|old(scheduled)|..])) == basePrices.Keys
    {
      var keys := KeyList(basePrices.Keys);
      StartEach(keys, now);
      ghost var added := scheduled[|old(scheduled)|..];
      assert forall j :: 0 <= j < |added| ==> added[j] == scheduled[|old(scheduled)| + j];
      NewZeroPrices(added, keys, now);
      assert CcyPairsOf(added) == keys;
      assert |basePrices| == |basePrices.Keys|;
    }

    /** `startPricing` for each listed pair in turn. */
    method StartEach(keys: seq<string>, now: Timestamp)
      modifies this`activePairs, this`scheduled
      ensures activePairs == SetAll(old(activePairs), Elements(keys), true)
      ensures |scheduled| == |old(scheduled)| + |keys| && scheduled[..|old(scheduled)|] == old(scheduled)
      ensures forall j :: |old(scheduled)| <= j < |scheduled| ==>
                && fresh(scheduled[j])
                && scheduled[j].bid == ZERO && scheduled[j].ask == ZERO && scheduled[j].timestamp == now
                && scheduled[j].ccyPair == keys[j - |old(scheduled)|]
    {
      ghost var start := scheduled;
      for i := 0 to |keys|
        invariant activePairs == SetAll(old(activePairs), Elements(keys[..i]), true)
        invariant |scheduled| == |start| + i && scheduled[..|start|] == start
        invariant forall j :: |start| <= j < |scheduled| ==>
                    && fresh(scheduled[j])
                    && scheduled[j].bid == ZERO && scheduled[j].ask == ZERO && scheduled[j].timestamp == now
                    && scheduled[j].ccyPair == keys[j - |start|]
      {
        SetAllPrefix(old(activePairs), keys, i, true);
        StartPricing(keys[i], now);
      }
      assert keys[..|keys|] == keys;
    }

    /** `pauseAllPricing`: every configured pair is off, every other entry is as it was. */
    method PauseAllPricing()
      modifies this`activePairs
      ensures activePairs == SetAll(old(activePairs), basePrices.Keys, false)
    {
      var keys := KeyList(basePrices.Keys);
      for i := 0 to |keys|
        invariant activePairs == SetAll(old(activePairs), Elements(keys[..i]), false)
      {
        SetAllPrefix(old(activePairs), keys, i, false);
        PausePricing(keys[i]);
      }
      assert keys[..|keys|] == keys;
    }

    /**
     * `getPricingState`: a copy of the switches. A Dafny map is a value, so
     * no change to the copy can reach `activePairs`.
     */
    method GetPricingState() returns (state: map<string, bool>)
      ensures state == activePairs
    {
      state := activePairs;
    }

    /** `updatePrice`: a new bid, ask and time on the price; its pair stays. */
    static method UpdatePrice(price: Price, bid: Decimal, ask: Decimal, now: Timestamp)
      modifies price
      ensures price.bid == bid && price.ask == ask && price.timestamp == now
      ensures price.ccyPair == old(price.ccyPair)
    {
      price.SetBid(bid);
      price.SetAsk(ask);
      price.SetTimestamp(now);
    }

    /**
     * `generateAndNotifyPrice`: only a pair whose switch is exactly `true`
     * gets a new quote. Then the price takes the new bid, ask and time, the
     * dispatcher (when one is set) sends it to every registered user, and
     * the next generation for the same price is scheduled. A pair that is
     * off or absent stops its chain; a pair that is on but not configured
     * makes the generation throw before anything changes.
     */
    method GenerateAndNotifyPrice(price: Price, bid: Decimal, ask: Decimal, now: Timestamp, failing: set<Emitter>)
      returns (outcome: Generation, ghost steps: seq<bool>)
      requires dispatcher != null ==> dispatcher.Valid()
      modifies price, this`scheduled, if dispatcher != null then {dispatcher, dispatcher.metrics} else {}
      ensures outcome == Stopped <==> !(price.ccyPair in activePairs && activePairs[price.ccyPair])
      ensures outcome == Failed <==> price.ccyPair in activePairs && activePairs[price.ccyPair] && price.ccyPair !in basePrices
      ensures outcome != Published ==> scheduled == old(scheduled) && unchanged(price)
      ensures outcome != Published && dispatcher != null ==> unchanged(dispatcher, dispatcher.metrics)
      ensures outcome == Published ==>
                price.bid == bid && price.ask == ask && price.timestamp == now && price.ccyPair == old(price.ccyPair)
      ensures outcome == Published ==> scheduled == old(scheduled) + [price]
      ensures dispatcher != null ==> dispatcher.Valid() && dispatcher.userEmitters == old(dispatcher.userEmitters)
      ensures dispatcher != null ==>
                && dispatcher.metrics.activeConnections == old(dispatcher.metrics.activeConnections)
                && dispatcher.events == old(dispatcher.events) && dispatcher.nextId == old(dispatcher.nextId)
      ensures outcome == Published && dispatcher != null ==>
                && dispatcher.metrics.activeStreams == Counted(old(dispatcher.metrics.activeStreams), steps)
                && Net(steps) == |dispatcher.userEmitters.Keys| - |FailedUsers(dispatcher.userEmitters, failing)|
                && dispatcher.completedWithError
                   == old(dispatcher.completedWithError) + EmittersOf(dispatcher.userEmitters, FailedUsers(dispatcher.userEmitters, failing))
    {
      steps := [];
      var ccyPair := price.GetCcyPair();
      if !(ccyPair in activePairs && activePairs[ccyPair]) {
        return Stopped, steps;
      }
      if ccyPair !in basePrices {
        return Failed, steps;
      }
      UpdatePrice(price, bid, ask, now);
      if dispatcher != null {
        steps := dispatcher.SendPriceUpdate(price, failing);
      }
      scheduled := scheduled + [price];
      outcome := Published;
    }
  }
}
