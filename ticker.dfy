/**
 * The browser client's price ticker (`PriceTicker`): the state it keeps per
 * currency pair as quotes stream in, the reconnect rule it applies when the
 * stream fails, and the two pure helpers that turn that state into grid
 * cells.
 *
 * JavaScript numbers are modelled as `real` and a missing property
 * (`undefined`) as `None`. Each handler runs as one step: the nested state
 * updaters of `handleMessage` all see the state from before the message.
 */
module Ticker {
  import opened Wrappers

  /** `config.maxReconnectAttempts`. */
  const MAX_RECONNECT_ATTEMPTS: nat := 5
  /** `config.reconnectBaseDelay`, in milliseconds. */
  const RECONNECT_BASE_DELAY: nat := 1000
  /** Quotes kept per pair in the history. */
  const HISTORY_LIMIT: nat := 10

  const MAX_ATTEMPTS_TEXT: string := "Maximum reconnection attempts reached."
  const EVENT_SOURCE_FAILED: string := "EventSource failed."
  const EVENT_SOURCE_FAILED_PREFIX: string := "EventSource failed: "

  /** A `{ bid, ask }` object; either field may be `undefined`. */
  datatype Quote = Quote(bid: Option<real>, ask: Option<real>)

  /** What `prevPrices[p]` holds after the first quote for `p`: both fields `undefined`. */
  const UNDEFINED_QUOTE: Quote := Quote(None, None)

  /** `event.data` of a stream message, as `JSON.parse` and the property reads see it. */
  datatype Payload =
    | Unparsable                      // `JSON.parse` throws, or reading `.error` does (a `null` payload)
    | Failure(message: Option<string>) // a truthy `error` field, with the `message` field
    | Quoted(bid: Option<real>, ask: Option<real>, ccyPair: Option<string>)

  /** The property key a `ccyPair` value becomes; `undefined` becomes the key "undefined". */
  function PairKey(ccyPair: Option<string>): string
  {
    if ccyPair.Some? then ccyPair.value else "undefined"
  }

  /** `err.data` of a stream error, and `String(err)`. */
  datatype ErrorEvent =
    | JsonError(message: Option<string>, text: string)  // `JSON.parse(err.data)` yields an object with this `message`
    | OtherError(text: string)                          // `JSON.parse` throws, or yields `null`

  /** The message `handleError` shows first: the JSON `message` if truthy, a fixed text otherwise. */
  function ErrorText(err: ErrorEvent): string
  {
    match err
    case JsonError(message, _) => if message.Some? && message.value != "" then message.value else EVENT_SOURCE_FAILED
    case OtherError(text) => EVENT_SOURCE_FAILED_PREFIX + text
  }

  // ---------------------------------------------------------------------
  // History

  /** `push` then, when over the limit, one `shift`. */
  function PushCapped(history: seq<Quote>, q: Quote): seq<Quote>
  {
    var pushed := history + [q];
    if |pushed| > HISTORY_LIMIT then pushed[1..] else pushed
  }

  /** The last `HISTORY_LIMIT` quotes of a run, or all of them when there are fewer. */
  function Window(quotes: seq<Quote>): (r: seq<Quote>)
    ensures |r| <= HISTORY_LIMIT
    ensures |r| == if |quotes| < HISTORY_LIMIT then |quotes| else HISTORY_LIMIT
    ensures r == quotes[|quotes| - |r|..]
  {
    if |quotes| <= HISTORY_LIMIT then quotes else quotes[|quotes| - HISTORY_LIMIT..]
  }

  /**
   * One push-and-shift on a capped history holds the newest quote last,
   * never grows past the limit, and drops at most the oldest entry.
   */
  lemma PushCappedShape(history: seq<Quote>, q: Quote)
    requires |history| <= HISTORY_LIMIT
    ensures |PushCapped(history, q)| <= HISTORY_LIMIT
    ensures PushCapped(history, q)[|PushCapped(history, q)| - 1] == q
    ensures |history| < HISTORY_LIMIT ==> PushCapped(history, q) == history + [q]
    ensures |history| == HISTORY_LIMIT ==> PushCapped(history, q) == history[1..] + [q]
  {
  }

  /** Pushing onto the window of a run gives the window of the longer run: the history is always the last ten quotes. */
  lemma PushCappedWindow(quotes: seq<Quote>, q: Quote)
    ensures PushCapped(Window(quotes), q) == Window(quotes + [q])
  {
    var all := quotes + [q];
    if |quotes| >= HISTORY_LIMIT {
      assert Window(quotes) + [q] == all[|quotes| - HISTORY_LIMIT..];
      assert (Window(quotes) + [q])[1..] == all[|all| - HISTORY_LIMIT..];
    }
  }

  /** What `prevPrices[p]` holds after a run of quotes for `p`: the one before the last, or `undefined` fields after the first. */
  function PreviousOf(quotes: seq<Quote>): Quote
  {
    if |quotes| >= 2 then quotes[|quotes| - 2] else UNDEFINED_QUOTE
  }

  // ---------------------------------------------------------------------
  // Reconnect rule

  function Pow2(n: nat): (r: nat)
    ensures r >= 1
  {
    if n == 0 then 1 else 2 * Pow2(n - 1)
  }

  /** `Math.pow(2, attempts) * config.reconnectBaseDelay`. */
  function RetryDelay(attempts: nat): nat
  {
    Pow2(attempts) * RECONNECT_BASE_DELAY
  }

  /** What an error on an open stream leads to. */
  datatype Decision =
    | Retry(delayMs: nat, nextAttempts: nat)  // wait, then count one more attempt and open a new stream
    | GiveUp                                  // show the final message and stop
    | Aborted                                 // `eventSourceRef.current` was already `null`: `close()` throws

  /** The retry rule of `handleError`. */
  function Decide(attempts: nat, dontReconnect: bool): Decision
  {
    if !dontReconnect && attempts < MAX_RECONNECT_ATTEMPTS then Retry(RetryDelay(attempts), attempts + 1)
    else GiveUp
  }

  /**
   * The rule retries exactly while reconnecting is allowed and fewer than
   * five attempts were made; each retry doubles the previous wait, and the
   * attempt count it leaves never exceeds five.
   */
  lemma DecideRule(attempts: nat, dontReconnect: bool)
    ensures Decide(attempts, dontReconnect).Retry? <==> !dontReconnect && attempts < MAX_RECONNECT_ATTEMPTS
    ensures Decide(attempts, dontReconnect).Retry? ==>
              && Decide(attempts, dontReconnect).nextAttempts == attempts + 1 <= MAX_RECONNECT_ATTEMPTS
              && Decide(attempts, dontReconnect).delayMs == RetryDelay(attempts)
    ensures RetryDelay(attempts + 1) == 2 * RetryDelay(attempts)
  {
  }

  /** The first retry waits one second and the fifth sixteen. */
  lemma RetryDelays()
    ensures RetryDelay(0) == 1000 && RetryDelay(1) == 2000 && RetryDelay(2) == 4000
    ensures RetryDelay(3) == 8000 && RetryDelay(4) == 16000
  {
  }

  /** The waits of the retries still allowed after `attempts` failed ones, when every new stream fails too. */
  function TotalWait(attempts: nat): nat
    decreases MAX_RECONNECT_ATTEMPTS - attempts
  {
    if attempts >= MAX_RECONNECT_ATTEMPTS then 0 else RetryDelay(attempts) + TotalWait(attempts + 1)
  }

  /** From `attempts` on, the remaining retries wait `1000 * (2^5 - 2^attempts)` ms in all: 31 seconds from a fresh start. */
  lemma {:induction false} TotalWaitClosed(attempts: nat)
    requires attempts <= MAX_RECONNECT_ATTEMPTS
    ensures TotalWait(attempts) == RECONNECT_BASE_DELAY * (Pow2(MAX_RECONNECT_ATTEMPTS) - Pow2(attempts))
    decreases MAX_RECONNECT_ATTEMPTS - attempts
  {
    if attempts < MAX_RECONNECT_ATTEMPTS {
      TotalWaitClosed(attempts + 1);
      assert Pow2(attempts + 1) == 2 * Pow2(attempts);
    }
  }

  // ---------------------------------------------------------------------
  // Grid cells

  /** The font size a digit gets. */
  datatype Size = Normal | Small | Large
  /** The colour a digit gets; `Plain` is no colour. */
  datatype Color = Plain | Green | Red

  datatype Span = Span(ch: char, size: Size, color: Color)

  /** A price cell: the value as it came when there is nothing to compare with, or one span per digit. */
  datatype Cell = Raw | Digits(spans: seq<Span>)

  /** `previousStr[index]`: `undefined` past the end. */
  function CharAt(s: string, i: nat): Option<char>
  {
    if i < |s| then Some(s[i]) else None
  }

  /** 0.75em for the last digit, 1.25em for the two before it. */
  function SizeAt(i: nat, n: nat): Size
  {
    if i + 1 == n then Small else if i + 3 == n || i + 2 == n then Large else Normal
  }

  /**
   * No colour where the digit equals the previous one at the same place;
   * green where it is greater; red otherwise, also where the previous text
   * is shorter (`char > undefined` is false).
   */
  function ColorAt(c: char, previous: Option<char>): Color
  {
    if previous == Some(c) then Plain
    else if previous.Some? && c > previous.value then Green
    else Red
  }

  function Reverse<T>(s: seq<T>): (r: seq<T>)
    ensures |r| == |s|
    ensures forall i :: 0 <= i < |s| ==> r[i] == s[|s| - 1 - i]
  {
    if s == [] then [] else Reverse(s[1..]) + [s[0]]
  }

  /** The span for the digit at position `i` of the current text. */
  function SpanFor(current: string, previous: string, i: nat): Span
    requires i < |current|
  {
    Span(current[i], SizeAt(i, |current|), ColorAt(current[i], CharAt(previous, i)))
  }

  /** One span per digit of the current text, left to right. */
  function Spans(current: string, previous: string): seq<Span>
  {
    seq(|current|, i requires 0 <= i < |current| => SpanFor(current, previous, i))
  }

  /**
   * `highlightChangedDigits` on the `toFixed(4)` texts. `previous` is `None`
   * when the previous number is falsy (`undefined` or 0).
   */
  function Highlight(current: string, previous: Option<string>, reverse: bool): Cell
  {
    if previous.None? then Raw
    else
      var spans := Spans(current, previous.value);
      Digits(if reverse then Reverse(spans) else spans)
  }

  /**
   * With a previous value there is one span per character; the spans spell
   * the current text, forwards or, with `reverse`, backwards.
   */
  lemma HighlightSpans(current: string, previous: string, reverse: bool)
    ensures Highlight(current, Some(previous), reverse).Digits?
    ensures |Highlight(current, Some(previous), reverse).spans| == |current|
    ensures forall i :: 0 <= i < |current| ==>
              var j := if reverse then |current| - 1 - i else i;
              Highlight(current, Some(previous), reverse).spans[j] == SpanFor(current, previous, i)
  {
    var spans := Spans(current, previous);
    if reverse {
      forall i | 0 <= i < |current|
        ensures Reverse(spans)[|current| - 1 - i] == SpanFor(current, previous, i)
      {
        assert spans[|spans| - 1 - (|current| - 1 - i)] == spans[i];
      }
    }
  }

  /**
   * A digit is left uncoloured exactly when the previous text has the same
   * character at its place, and is green exactly when the previous text
   * has a smaller one there; everything else, a missing place included, is
   * red.
   */
  lemma SpanColors(current: string, previous: string, i: nat)
    requires i < |current|
    ensures SpanFor(current, previous, i).color == Plain <==> i < |previous| && previous[i] == current[i]
    ensures SpanFor(current, previous, i).color == Green <==> i < |previous| && current[i] > previous[i]
    ensures SpanFor(current, previous, i).color == Red <==> i >= |previous| || current[i] < previous[i]
  {
  }

  /** The last digit is the only small one, and the two before it are the only large ones. */
  lemma HighlightSizes(n: nat, i: nat)
    requires i < n
    ensures SizeAt(i, n) == Small <==> i == n - 1
    ensures SizeAt(i, n) == Large <==> n >= 2 && (i == n - 3 || i == n - 2)
  {
  }

  /** Without a previous value the cell shows the value as it came. */
  lemma HighlightWithoutPrevious(current: string, reverse: bool)
    ensures Highlight(current, None, reverse) == Raw
  {
  }

  /** A row of the grid. */
  datatype Row = Row(ccyPair: string, bid: real, ask: real)

  /** `value || 0` for a number that may be `undefined`. */
  function OrZero(v: Option<real>): real
  {
    if v.Some? && v.value != 0.0 then v.value else 0.0
  }

  /** `prices[p]?.field`: `undefined` when there is no price for `p`. */
  function QuoteOf(prices: map<string, Quote>, ccyPair: string): Option<Quote>
  {
    if ccyPair in prices then Some(prices[ccyPair]) else None
  }

  /** `rowData`: one row per listed pair. */
  function RowData(ccyPairs: seq<string>, prices: map<string, Quote>): seq<Row>
  {
    seq(|ccyPairs|, i requires 0 <= i < |ccyPairs| =>
          var q := QuoteOf(prices, ccyPairs[i]);
          Row(ccyPairs[i],
              OrZero(if q.Some? then q.value.bid else None),
              OrZero(if q.Some? then q.value.ask else None)))
  }

  /**
   * One row per listed pair, in list order; its bid and ask are the stored
   * ones, and 0 for a pair without a price or a field that is `undefined`.
   */
  lemma RowDataRows(ccyPairs: seq<string>, prices: map<string, Quote>)
    ensures |RowData(ccyPairs, prices)| == |ccyPairs|
    ensures forall i :: 0 <= i < |ccyPairs| ==> RowData(ccyPairs, prices)[i].ccyPair == ccyPairs[i]
    ensures forall i :: 0 <= i < |ccyPairs| ==>
              var p := ccyPairs[i];
              && RowData(ccyPairs, prices)[i].bid
                 == (if p in prices && prices[p].bid.Some? then prices[p].bid.value else 0.0)
              && RowData(ccyPairs, prices)[i].ask
                 == (if p in prices && prices[p].ask.Some? then prices[p].ask.value else 0.0)
  {
  }

  /** `m[p]`, or `absent` when `p` has no entry. */
  function Lookup<V>(m: map<string, V>, p: string, absent: V): (r: V)
    ensures p in m ==> r == m[p]
    ensures p !in m ==> r == absent
  {
    if p in m then m[p] else absent
  }

  /** The state of one pair after a non-empty run of quotes for it. */
  ghost predicate Agrees(price: Quote, previous: Quote, history: seq<Quote>, run: seq<Quote>)
  {
    && |run| >= 1
    && price == run[|run| - 1]
    && previous == PreviousOf(run)
    && history == Window(run)
  }

  /** The per-pair state agrees with the runs of quotes received for each pair. */
  ghost predicate Consistent(prices: map<string, Quote>, prevPrices: map<string, Quote>,
                             history: map<string, seq<Quote>>, received: map<string, seq<Quote>>)
  {
    && prices.Keys == received.Keys
    && prevPrices.Keys == received.Keys
    && history.Keys == received.Keys
    && forall p {:trigger Agrees(prices[p], prevPrices[p], history[p], received[p])} ::
         p in received ==> Agrees(prices[p], prevPrices[p], history[p], received[p])
  }

  /**
   * The updates `handleMessage` makes for a quote on pair `p` keep the state
   * in step with the runs of quotes: `p`'s run grows by the quote and no
   * other run changes.
   */
  lemma QuoteKeepsConsistent(prices: map<string, Quote>, prevPrices: map<string, Quote>,
                             history: map<string, seq<Quote>>, received: map<string, seq<Quote>>,
                             p: string, q: Quote)
    requires Consistent(prices, prevPrices, history, received)
    ensures Consistent(prices[p := q],
                       prevPrices[p := Lookup(prices, p, UNDEFINED_QUOTE)],
                       history[p := PushCapped(Lookup(history, p, []), q)],
                       received[p := (Lookup(received, p, [])) + [q]])
  {
    var run := Lookup(received, p, []);
    var prices', prevPrices' := prices[p := q], prevPrices[p := Lookup(prices, p, UNDEFINED_QUOTE)];
    var history', received' := history[p := PushCapped(Lookup(history, p, []), q)], received[p := run + [q]];
    KeysUpdate(prices, received, p, q, run + [q]);
    KeysUpdate(prevPrices, received, p, prevPrices'[p], run + [q]);
    KeysUpdate(history, received, p, history'[p], run + [q]);
    if p in received {
      RunStep(prices[p], prevPrices[p], history[p], run, q);
    } else {
      FirstQuote(q);
    }
    forall k | k in received'
      ensures Agrees(prices'[k], prevPrices'[k], history'[k], received'[k])
    {
      if k != p {
        assert received'[k] == received[k];
      }
    }
  }

  lemma KeysUpdate<V, W>(m: map<string, V>, n: map<string, W>, p: string, v: V, w: W)
    requires m.Keys == n.Keys
    ensures m[p := v].Keys == n[p := w].Keys
  {
  }

  /** After one more quote the quote is the price, the former price the previous one, and the window moves on by one push. */
  lemma RunStep(price: Quote, previous: Quote, history: seq<Quote>, run: seq<Quote>, q: Quote)
    requires Agrees(price, previous, history, run)
    ensures Agrees(q, price, PushCapped(history, q), run + [q])
  {
    PushCappedWindow(run, q);
  }

  /** The first quote for a pair: nothing before it, and a history of one. */
  lemma FirstQuote(q: Quote)
    ensures Agrees(q, UNDEFINED_QUOTE, PushCapped([], q), [] + [q])
  {
  }

  // ---------------------------------------------------------------------
  // The component state

  class PriceTicker {
    var prices: map<string, Quote>
    var prevPrices: map<string, Quote>
    var history: map<string, seq<Quote>>
    var ticks: nat
    /** The error text shown; `None` is `undefined` (an error payload without a message). */
    var error: Option<string>
    var connectionClosed: bool
    var startTime: int
    var reconnectAttempts: nat
    var isReconnecting: bool
    var dontReconnect: bool
    /** Whether `eventSourceRef.current` holds a stream. */
    var hasSource: bool
    /** Every quote received for each pair, oldest first. */
    ghost var received: map<string, seq<Quote>>

    /**
     * The per-pair state is a function of the quotes received: the current
     * price is the last one, the previous price the one before it, and the
     * history the last ten.
     */
    ghost predicate Valid()
      reads this
    {
      Consistent(prices, prevPrices, history, received)
    }

    /** The initial state of the component. */
    constructor (now: int)
      ensures Valid()
      ensures prices == map[] && prevPrices == map[] && history == map[] && received == map[]
      ensures ticks == 0 && error == Some("") && !connectionClosed && startTime == now
      ensures reconnectAttempts == 0 && !isReconnecting && !dontReconnect && !hasSource
    {
      prices := map[];
      prevPrices := map[];
      history := map[];
      ticks := 0;
      error := Some("");
      connectionClosed := false;
      startTime := now;
      reconnectAttempts := 0;
      isReconnecting := false;
      dontReconnect := false;
      hasSource := false;
      received := map[];
    }

    /** The "don't reconnect" checkbox. */
    method SetDontReconnect(value: bool)
      modifies this`dontReconnect
      ensures dontReconnect == value
    {
      dontReconnect := value;
    }

    /** `createEventSource`: a new stream whose handlers are this component's. */
    method CreateEventSource()
      modifies this`hasSource
      ensures hasSource
    {
      hasSource := true;
    }

    /** `handleOpen`: a fresh session: open, no ticks, no attempts, not reconnecting. */
    method HandleOpen(now: int)
      modifies this`connectionClosed, this`startTime, this`ticks, this`reconnectAttempts, this`isReconnecting
      ensures !connectionClosed && startTime == now && ticks == 0
      ensures reconnectAttempts == 0 && !isReconnecting
    {
      connectionClosed := false;
      startTime := now;
      ticks := 0;
      reconnectAttempts := 0;
      isReconnecting := false;
    }

    /**
     * `handleMessage`: a quote for pair `p` becomes the current price of
     * `p`, the price `p` had becomes its previous price, the quote joins
     * the end of `p`'s capped history, and one more tick is counted; no
     * other pair changes. An error payload only sets the error text, and
     * an unparsable one changes nothing.
     */
    method HandleMessage(payload: Payload)
      requires Valid()
      modifies this`prices, this`prevPrices, this`history, this`ticks, this`error, this`received
      ensures Valid()
      ensures !payload.Quoted? ==>
                && prices == old(prices) && prevPrices == old(prevPrices) && history == old(history)
                && ticks == old(ticks) && received == old(received)
      ensures !payload.Failure? ==> error == old(error)
      ensures payload.Failure? ==> error == payload.message
      ensures payload.Quoted? ==>
                var p := PairKey(payload.ccyPair);
                var q := Quote(payload.bid, payload.ask);
                && prices == old(prices)[p := q]
                && prevPrices == old(prevPrices)[p := Lookup(old(prices), p, UNDEFINED_QUOTE)]
                && history == old(history)[p := PushCapped(Lookup(old(history), p, []), q)]
                && ticks == old(ticks) + 1
                && received == old(received)[p := (Lookup(old(received), p, [])) + [q]]
    {
      if payload.Failure? {
        error := payload.message;
      } else if payload.Quoted? {
        var p := PairKey(payload.ccyPair);
        var q := Quote(payload.bid, payload.ask);
        var prices', prevPrices' := prices[p := q], prevPrices[p := Lookup(prices, p, UNDEFINED_QUOTE)];
        var history' := history[p := PushCapped(Lookup(history, p, []), q)];
        ghost var received' := received[p := (Lookup(received, p, [])) + [q]];
        QuoteKeepsConsistent(prices, prevPrices, history, received, p, q);
        prices, prevPrices, history, received := prices', prevPrices', history', received';
        ticks := ticks + 1;
      }
    }

    /**
     * `handleError`: shows the error, marks the connection closed and
     * drops the stream; then either schedules a retry, whose wait doubles
     * with each attempt, or gives up with the final message. Without a
     * stream to close the handler throws after marking the connection
     * closed.
     */
    method HandleError(err: ErrorEvent) returns (decision: Decision)
      modifies this`error, this`connectionClosed, this`hasSource, this`isReconnecting
      ensures connectionClosed && !hasSource
      ensures !old(hasSource) ==> decision == Aborted && error == Some(ErrorText(err))
      ensures !old(hasSource) ==> isReconnecting == old(isReconnecting)
      ensures old(hasSource) ==> decision == Decide(reconnectAttempts, dontReconnect)
      ensures decision.Retry? ==> isReconnecting && error == Some(ErrorText(err))
      ensures decision.GiveUp? ==> !isReconnecting && error == Some(MAX_ATTEMPTS_TEXT)
    {
      error := Some(ErrorText(err));
      connectionClosed := true;
      if !hasSource {
        return Aborted;
      }
      hasSource := false;
      decision := Decide(reconnectAttempts, dontReconnect);
      if decision.Retry? {
        isReconnecting := true;
      } else {
        error := Some(MAX_ATTEMPTS_TEXT);
        isReconnecting := false;
      }
    }

    /** The end of a retry's wait: one more attempt counted and a new stream opened. */
    method Reconnect(nextAttempts: nat)
      modifies this`reconnectAttempts, this`hasSource
      ensures reconnectAttempts == nextAttempts && hasSource
    {
      reconnectAttempts := nextAttempts;
      CreateEventSource();
    }
  }
}
