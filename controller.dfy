/**
 * The server's `SseController`: the wiring of the metrics, the dispatcher
 * and the pricer, the currency pair list the client shows, and the pricing
 * endpoints, each of which delegates to the pricer and answers with a fixed
 * sentence.
 *
 * The CSV resource is given as its lines; the controller reads the same
 * lines for the pair list on every request.
 */
module Controller {
  import opened Wrappers
  import JavaStrings
  import opened Decimals
  import opened Metrics
  import opened Prices
  import opened Dispatcher
  import opened Pricing

  /**
   * What `readCcyPairsFromCsv` makes of the lines: `line.split(",")[0]` for
   * each line in order, or, at the first line that splits into the empty
   * array, the index of that line (`ArrayIndexOutOfBoundsException`).
   */
  function CcyPairList(lines: seq<string>): (r: Result<seq<string>, nat>)
    ensures r.Ok? ==> |r.value| == |lines|
    ensures r.Err? ==> r.error < |lines|
  {
    if lines == [] then Ok([])
    else
      var before := CcyPairList(lines[..|lines| - 1]);
      var parts := JavaStrings.Split(lines[|lines| - 1], ',');
      if before.Err? then before
      else if parts == [] then Err(|lines| - 1)
      else Ok(before.value + [parts[0]])
  }

  /** `readCcyPairsFromCsv`: one `add` per line read, until a line has no first field. */
  method ReadCcyPairsFromCsv(lines: seq<string>) returns (r: Result<seq<string>, nat>)
    ensures r == CcyPairList(lines)
  {
    var ccyPairs: seq<string> := [];
    var i := 0;
    while i < |lines|
      invariant i <= |lines|
      invariant CcyPairList(lines[..i]) == Ok(ccyPairs)
    {
      assert lines[..i + 1][..i] == lines[..i];
      var parts := JavaStrings.Split(lines[i], ',');
      if parts == [] {
        ListErrorStays(lines, i + 1);
        return Err(i);
      }
      ccyPairs := ccyPairs + [parts[0]];
      i := i + 1;
    }
    assert lines[..i] == lines;
    r := Ok(ccyPairs);
  }

  /** Once a line has failed the listing, the lines after it do not change the error. */
  lemma {:induction false} ListErrorStays(lines: seq<string>, n: nat)
    requires n <= |lines| && CcyPairList(lines[..n]).Err?
    ensures CcyPairList(lines) == CcyPairList(lines[..n])
    decreases |lines| - n
  {
    if n < |lines| {
      assert lines[..n + 1][..n] == lines[..n];
      ListErrorStays(lines, n + 1);
    } else {
      assert lines[..n] == lines;
    }
  }

  /**
   * The list has one entry per line, in file order, and each entry is the
   * text before the line's first comma: the whole line when it has no
   * comma, and "" for an empty line.
   */
  lemma {:induction false} CcyPairListEntries(lines: seq<string>)
    requires CcyPairList(lines).Ok?
    ensures |CcyPairList(lines).value| == |lines|
    ensures forall i :: 0 <= i < |lines| ==> CcyPairList(lines).value[i] == JavaStrings.Before(lines[i], ',')
  {
    if lines != [] {
      var prefix := lines[..|lines| - 1];
      var last := lines[|lines| - 1];
      CcyPairListEntries(prefix);
      JavaStrings.SplitFirst(last, ',');
      var ps := CcyPairList(lines).value;
      assert ps == CcyPairList(prefix).value + [JavaStrings.Before(last, ',')];
      forall i | 0 <= i < |lines|
        ensures ps[i] == JavaStrings.Before(lines[i], ',')
      {
        if i < |prefix| {
          assert lines[i] == prefix[i];
        }
      }
    }
  }

  /** A line that is not empty and holds nothing but commas: its split is the empty array. */
  predicate CommasOnly(line: string)
  {
    |line| > 0 && forall j :: 0 <= j < |line| ==> line[j] == ','
  }

  /** The listing fails exactly when some line is made of commas only, and then at the first such line. */
  lemma {:induction false} CcyPairListErr(lines: seq<string>)
    ensures CcyPairList(lines).Err? <==> exists i :: 0 <= i < |lines| && CommasOnly(lines[i])
    ensures CcyPairList(lines).Err? ==>
              var k := CcyPairList(lines).error;
              k < |lines| && CommasOnly(lines[k]) && forall i :: 0 <= i < k ==> !CommasOnly(lines[i])
  {
    if lines != [] {
      var prefix := lines[..|lines| - 1];
      var last := lines[|lines| - 1];
      CcyPairListErr(prefix);
      JavaStrings.SplitEmptyIff(last, ',');
      assert forall i :: 0 <= i < |prefix| ==> prefix[i] == lines[i];
      if CommasOnly(last) {
        assert lines[|lines| - 1] == last;
      }
      if exists i :: 0 <= i < |lines| && CommasOnly(lines[i]) {
        var i :| 0 <= i < |lines| && CommasOnly(lines[i]);
        if i < |prefix| {
          assert CommasOnly(prefix[i]);
        }
      }
    }
  }

  /**
   * Every pair the pricer loads from a file is also on the pair list read
   * from that file, at the position of a line that names it.
   */
  lemma LoadedPairsAreListed(lines: seq<string>, ccyPair: string)
    requires Pairs(lines).Ok? && CcyPairList(lines).Ok?
    requires ccyPair in Pairs(lines).value
    ensures ccyPair in CcyPairList(lines).value
  {
    PairsKeys(lines, ccyPair);
    var i :| 0 <= i < |lines| && IsPairLine(lines[i]) && Fields(lines[i])[0] == ccyPair;
    CcyPairListEntries(lines);
    JavaStrings.SplitFirst(lines[i], ',');
    assert CcyPairList(lines).value[i] == ccyPair;
  }

  /**
   * A line without a comma is listed as it is but never loaded: the list
   * can name pairs that have no base price.
   */
  lemma SingleFieldListedNotLoaded(lines: seq<string>, i: nat)
    requires CcyPairList(lines).Ok? && i < |lines| && ',' !in lines[i]
    ensures CcyPairList(lines).value[i] == lines[i]
    ensures !IsPairLine(lines[i])
  {
    CcyPairListEntries(lines);
    JavaStrings.SplitKeepsLeadingPieces(lines[i], ',');
    JavaStrings.IndexOfIsFirst(lines[i], ',');
  }

  /**
   * A comma-only line is skipped by the pricer but fails the listing: the
   * pricer may load a file whose pair list cannot be read.
   */
  lemma CommasOnlySkippedButFatal(lines: seq<string>, i: nat)
    requires i < |lines| && CommasOnly(lines[i])
    ensures !IsPairLine(lines[i])
    ensures CcyPairList(lines).Err?
  {
    JavaStrings.SplitEmptyIff(lines[i], ',');
    CcyPairListErr(lines);
  }

  const STARTED_ALL: string := "Started pricing for all currency pairs"
  const PAUSED_ALL: string := "Paused pricing for all currency pairs"

  /** The answer of `/startPricing` for a pair. */
  function StartedText(ccyPair: string): string
  {
    "Started pricing for " + ccyPair
  }

  /** The answer of `/pausePricing` for a pair. */
  function PausedText(ccyPair: string): string
  {
    "Paused pricing for " + ccyPair
  }

  /** The single-pair answers name the pair last, so the pair can be read back, and never coincide. */
  lemma ResponsesNamePair(ccyPair: string, other: string)
    ensures StartedText(ccyPair)[|StartedText("")|..] == ccyPair
    ensures PausedText(ccyPair)[|PausedText("")|..] == ccyPair
    ensures StartedText(ccyPair) != PausedText(other)
    ensures StartedText(ccyPair) == StartedText(other) ==> ccyPair == other
  {
    assert StartedText(ccyPair)[0] == 'S' && PausedText(other)[0] == 'P';
    if StartedText(ccyPair) == StartedText(other) {
      assert ccyPair == StartedText(ccyPair)[|StartedText("")|..];
    }
  }

  class SseController {
    const metrics: CustomHttp2Metrics
    const dispatcher: BaseDispatcher
    const pricer: Pricer
    /** The lines of `ccypair-list.csv`. */
    const csvLines: seq<string>

    ghost predicate Valid()
      reads this, dispatcher, metrics, pricer
    {
      && dispatcher.metrics == metrics
      && pricer.dispatcher == dispatcher
      && dispatcher.Valid()
    }

    /**
     * The constructor: a pricer loaded from the CSV file, a dispatcher over
     * the shared metrics that the pricer sends through, and one generation
     * scheduled per initial price. A file the pricer cannot load fails the
     * construction.
     */
    static method Create(metrics: CustomHttp2Metrics, csvLines: seq<string>, now: Timestamp)
      returns (r: Result<SseController, string>)
      requires metrics.Valid()
      ensures r.Err? <==> Pairs(csvLines).Err?
      ensures r.Ok? ==> fresh(r.value) && fresh(r.value.pricer) && fresh(r.value.dispatcher)
      ensures r.Ok? ==> r.value.Valid() && r.value.metrics == metrics && r.value.csvLines == csvLines
      ensures r.Ok? ==> r.value.pricer.basePrices == Pairs(csvLines).value && r.value.pricer.activePairs == map[]
      ensures r.Ok? ==> r.value.pricer.scheduled == r.value.pricer.prices
      ensures r.Ok? ==> r.value.dispatcher.userEmitters == map[]
      ensures r.Ok? ==> r.value.dispatcher.events == [] && r.value.dispatcher.completedWithError == {}
      ensures r.Ok? ==> AllZero(r.value.pricer.prices, now)
      ensures r.Ok? ==> |r.value.pricer.prices| == |r.value.pricer.basePrices|
                        && Elements(CcyPairsOf(r.value.pricer.prices)) == r.value.pricer.basePrices.Keys
      ensures r.Ok? ==> metrics.activeConnections == old(metrics.activeConnections)
                        && metrics.activeStreams == old(metrics.activeStreams)
    {
      var created := Pricer.Create(csvLines, now);
      if created.Err? {
        return Err(created.error);
      }
      var pricer := created.value;
      ghost var prices := pricer.prices;
      var controller := Assemble(metrics, pricer, csvLines);
      assert pricer.prices == prices && AllZero(prices, now);
      r := Ok(controller);
    }

    /** The constructor once the pricer is loaded: the dispatcher created and wired in, generation started. */
    static method Assemble(metrics: CustomHttp2Metrics, pricer: Pricer, csvLines: seq<string>)
      returns (controller: SseController)
      requires metrics.Valid()
      modifies pricer`dispatcher, pricer`scheduled
      ensures fresh(controller) && fresh(controller.dispatcher)
      ensures controller.Valid() && controller.pricer == pricer
      ensures controller.metrics == metrics && controller.csvLines == csvLines
      ensures pricer.scheduled == old(pricer.scheduled) + pricer.prices
      ensures controller.dispatcher.userEmitters == map[]
      ensures controller.dispatcher.events == [] && controller.dispatcher.completedWithError == {}
    {
      var dispatcher := new BaseDispatcher(metrics);
      pricer.SetBaseDispatcher(dispatcher);
      pricer.StartPriceGeneration();
      controller := new SseController(metrics, dispatcher, pricer, csvLines);
    }

    constructor (metrics: CustomHttp2Metrics, dispatcher: BaseDispatcher, pricer: Pricer, csvLines: seq<string>)
      ensures this.metrics == metrics && this.dispatcher == dispatcher
      ensures this.pricer == pricer && this.csvLines == csvLines
    {
      this.metrics := metrics;
      this.dispatcher := dispatcher;
      this.pricer := pricer;
      this.csvLines := csvLines;
    }

    /** `/stream-sse`: a new emitter registered for the user. */
    method StreamSse(userId: string) returns (emitter: Emitter)
      requires Valid()
      modifies dispatcher, metrics
      ensures Valid()
      ensures dispatcher.userEmitters == old(dispatcher.userEmitters)[userId := emitter]
      ensures forall u :: u in old(dispatcher.userEmitters) ==> old(dispatcher.userEmitters)[u] != emitter
      ensures metrics.activeConnections == Inc32(old(metrics.activeConnections))
      ensures metrics.activeStreams == old(metrics.activeStreams)
      ensures dispatcher.completedWithError == old(dispatcher.completedWithError)
      ensures dispatcher.events == old(dispatcher.events) + [Subscribed(userId)]
      ensures emitter == Emitter(old(dispatcher.nextId), SSE_TIMEOUT)
    {
      emitter := dispatcher.CreateEmitter(userId);
    }

    /** `/ccyPairs`: the pair list read from the CSV file. */
    method GetCcyPairs() returns (r: Result<seq<string>, nat>)
      ensures r == CcyPairList(csvLines)
    {
      r := ReadCcyPairsFromCsv(csvLines);
    }

    /** `/startPricing`: switches the pair on through the pricer and says so. */
    method StartPricing(ccyPair: string, now: Timestamp) returns (response: string)
      requires Valid()
      modifies pricer`activePairs, pricer`scheduled
      ensures Valid()
      ensures pricer.activePairs == old(pricer.activePairs)[ccyPair := true]
      ensures |pricer.scheduled| == |old(pricer.scheduled)| + 1
      ensures pricer.scheduled == old(pricer.scheduled) + [pricer.scheduled[|pricer.scheduled| - 1]]
      ensures var p := pricer.scheduled[|pricer.scheduled| - 1];
              fresh(p) && p.bid == ZERO && p.ask == ZERO && p.ccyPair == ccyPair && p.timestamp == now
      ensures response == StartedText(ccyPair)
    {
      pricer.StartPricing(ccyPair, now);
      response := StartedText(ccyPair);
    }

    /** `/pausePricing`: switches the pair off through the pricer and says so. */
    method PausePricing(ccyPair: string) returns (response: string)
      requires Valid()
      modifies pricer`activePairs
      ensures Valid()
      ensures pricer.activePairs == old(pricer.activePairs)[ccyPair := false]
      ensures response == PausedText(ccyPair)
    {
      pricer.PausePricing(ccyPair);
      response := PausedText(ccyPair);
    }

    /** `/startAllPricing`: every configured pair on. */
    method StartAll(now: Timestamp) returns (response: string)
      requires Valid()
      modifies pricer`activePairs, pricer`scheduled
      ensures Valid()
      ensures pricer.activePairs == SetAll(old(pricer.activePairs), pricer.basePrices.Keys, true)
      ensures |old(pricer.scheduled)| <= |pricer.scheduled|
              && pricer.scheduled[..|old(pricer.scheduled)|] == old(pricer.scheduled)
      ensures forall j :: |old(pricer.scheduled)| <= j < |pricer.scheduled| ==> fresh(pricer.scheduled[j])
      ensures AllZero(pricer.scheduled[|old(pricer.scheduled)|..], now)
      ensures |pricer.scheduled| == |old(pricer.scheduled)| + |pricer.basePrices|
              && Elements(CcyPairsOf(pricer.scheduled[|old(pricer.scheduled)|..])) == pricer.basePrices.Keys
      ensures response == STARTED_ALL
    {
      pricer.StartAllPricing(now);
      response := STARTED_ALL;
    }

    /** `/pauseAllPricing`: every configured pair off. */
    method PauseAll() returns (response: string)
      requires Valid()
      modifies pricer`activePairs
      ensures Valid()
      ensures pricer.activePairs == SetAll(old(pricer.activePairs), pricer.basePrices.Keys, false)
      ensures response == PAUSED_ALL
    {
      pricer.PauseAllPricing();
      response := PAUSED_ALL;
    }

    /** `/pricingState`: the pricer's copy of the switches. */
    method PricingState() returns (state: map<string, bool>)
      ensures state == pricer.activePairs
    {
      state := pricer.GetPricingState();
    }
  }
}
