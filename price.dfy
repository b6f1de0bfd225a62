/**
 * The server's `Price`: a mutable record of a bid, an ask, a currency pair
 * and the time of the last update, with a getter and a setter per field.
 */
module Prices {
  import opened Wrappers
  import JavaStrings
  import opened Decimals

  /** A `LocalDateTime`, kept as the text its `toString` prints. */
  datatype Timestamp = Timestamp(iso: string)

  const BID_LABEL: string := "Price{bid="
  const ASK_LABEL: string := ", ask="

  /**
   * `Price.toString()`: the four fields in declaration order, the pair in
   * single quotes, the numbers as `BigDecimal.toString` writes them.
   */
  function PriceText(bid: Decimal, ask: Decimal, ccyPair: string, timestamp: Timestamp): string
  {
    BID_LABEL + DecimalText(bid) + ASK_LABEL + DecimalText(ask) + PairAndTime(ccyPair, timestamp)
  }

  /** The part of `toString` after the ask: the quoted pair and the time. */
  function PairAndTime(ccyPair: string, timestamp: Timestamp): (r: string)
    ensures |r| >= 1 && r[0] == ','
  {
    ", ccyPair='" + ccyPair + "', timestamp=" + timestamp.iso + "}"
  }

  /** Reads the bid back: the number between `Price{bid=` and the next comma. */
  function ReadBid(text: string): Option<Decimal>
  {
    if |text| < |BID_LABEL| || text[..|BID_LABEL|] != BID_LABEL then None
    else ParseDecimal(JavaStrings.Before(text[|BID_LABEL|..], ','))
  }

  /** Reads the ask back: the number between the `, ask=` after the bid and the next comma. */
  function ReadAsk(text: string): Option<Decimal>
  {
    if |text| < |BID_LABEL| || text[..|BID_LABEL|] != BID_LABEL then None
    else
      var rest := text[|BID_LABEL|..];
      var after := rest[|JavaStrings.Before(rest, ',')|..];
      if |after| < |ASK_LABEL| || after[..|ASK_LABEL|] != ASK_LABEL then None
      else ParseDecimal(JavaStrings.Before(after[|ASK_LABEL|..], ','))
  }

  /** `Before` stops at the first comma after a comma-free prefix. */
  lemma BeforeCommaAfter(a: string, b: string)
    requires ',' !in a && |b| >= 1 && b[0] == ','
    ensures JavaStrings.Before(a + b, ',') == a
  {
    JavaStrings.IndexOfSkip(a, b, ',');
    assert (a + b)[..|a|] == a;
  }

  /** The bid is whatever comma-free text follows `Price{bid=`. */
  lemma ReadBidOf(b: string, rest: string)
    requires ',' !in b && |rest| >= 1 && rest[0] == ','
    ensures ReadBid(BID_LABEL + b + rest) == ParseDecimal(b)
  {
    var text := BID_LABEL + b + rest;
    assert text[..|BID_LABEL|] == BID_LABEL;
    assert text[|BID_LABEL|..] == b + rest;
    BeforeCommaAfter(b, rest);
  }

  /** The ask is the comma-free text after the bid and `, ask=`. */
  lemma ReadAskOf(b: string, a: string, tail: string)
    requires ',' !in b && ',' !in a && |tail| >= 1 && tail[0] == ','
    ensures ReadAsk(BID_LABEL + b + ASK_LABEL + a + tail) == ParseDecimal(a)
  {
    var text := BID_LABEL + b + ASK_LABEL + a + tail;
    var rest := b + (ASK_LABEL + a + tail);
    var after := ASK_LABEL + a + tail;
    assert text[..|BID_LABEL|] == BID_LABEL;
    assert text[|BID_LABEL|..] == rest;
    BeforeCommaAfter(b, after);
    assert rest[|b|..] == after;
    assert after[..|ASK_LABEL|] == ASK_LABEL;
    assert after[|ASK_LABEL|..] == a + tail;
    BeforeCommaAfter(a, tail);
  }

  /** The bid and the ask can be read back from the text `toString` prints, whatever the pair and time. */
  lemma PriceTextNumbers(bid: Decimal, ask: Decimal, ccyPair: string, timestamp: Timestamp)
    ensures ReadBid(PriceText(bid, ask, ccyPair, timestamp)) == Some(bid)
    ensures ReadAsk(PriceText(bid, ask, ccyPair, timestamp)) == Some(ask)
  {
    var b, a := DecimalText(bid), DecimalText(ask);
    var tail := PairAndTime(ccyPair, timestamp);
    DecimalTextChars(bid);
    DecimalTextChars(ask);
    ParseDecimalText(bid);
    ParseDecimalText(ask);
    ReadBidOf(b, ASK_LABEL + a + tail);
    Regroup(BID_LABEL, b, ASK_LABEL, a, tail);
    ReadAskOf(b, a, tail);
  }

  lemma Regroup(l: string, b: string, m: string, a: string, t: string)
    ensures l + b + (m + a + t) == l + b + m + a + t
  {
  }

  class Price {
    var bid: Decimal
    var ask: Decimal
    var ccyPair: string
    var timestamp: Timestamp

    /** Stores the four fields exactly as given. */
    constructor (bid: Decimal, ask: Decimal, ccyPair: string, timestamp: Timestamp)
      ensures this.bid == bid && this.ask == ask
      ensures this.ccyPair == ccyPair && this.timestamp == timestamp
    {
      this.bid := bid;
      this.ask := ask;
      this.ccyPair := ccyPair;
      this.timestamp := timestamp;
    }

    method GetBid() returns (r: Decimal)
      ensures r == bid
    {
      r := bid;
    }

    method SetBid(bid: Decimal)
      modifies this
      ensures this.bid == bid
      ensures ask == old(ask) && ccyPair == old(ccyPair) && timestamp == old(timestamp)
    {
      this.bid := bid;
    }

    method GetAsk() returns (r: Decimal)
      ensures r == ask
    {
      r := ask;
    }

    method SetAsk(ask: Decimal)
      modifies this
      ensures this.ask == ask
      ensures bid == old(bid) && ccyPair == old(ccyPair) && timestamp == old(timestamp)
    {
      this.ask := ask;
    }

    method GetCcyPair() returns (r: string)
      ensures r == ccyPair
    {
      r := ccyPair;
    }

    method SetCcyPair(ccyPair: string)
      modifies this
      ensures this.ccyPair == ccyPair
      ensures bid == old(bid) && ask == old(ask) && timestamp == old(timestamp)
    {
      this.ccyPair := ccyPair;
    }

    method GetTimestamp() returns (r: Timestamp)
      ensures r == timestamp
    {
      r := timestamp;
    }

    method SetTimestamp(timestamp: Timestamp)
      modifies this
      ensures this.timestamp == timestamp
      ensures bid == old(bid) && ask == old(ask) && ccyPair == old(ccyPair)
    {
      this.timestamp := timestamp;
    }

    /** `toString()`: starts with `Price{bid=`, ends with `}`, and gives back its bid and ask when read. */
    function ToString(): (r: string)
      reads this
      ensures r == PriceText(bid, ask, ccyPair, timestamp)
      ensures ReadBid(r) == Some(bid) && ReadAsk(r) == Some(ask)
    {
      PriceTextNumbers(bid, ask, ccyPair, timestamp);
      PriceText(bid, ask, ccyPair, timestamp)
    }
  }
}
