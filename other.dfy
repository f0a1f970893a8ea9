/**
 * The market-data panel: the gold price converted from a troy ounce to the
 * eight grams the panel quotes, in rupees, with the exchange rate and the
 * sample figures it falls back on, and the stock name and change colour
 * helpers. The two web requests are inputs.
 */
module Market {
  import opened Common
  import opened Text

  /** Grams in a troy ounce. */
  const GramsPerOunce: real := 31.1035

  /** The rate used when the exchange-rate service gives none. */
  const FallbackRate: real := 83.0

  /** The price shown when the gold service cannot be used. */
  const SamplePrice: real := 47500.0

  /** What the exchange-rate request gave: a body whose `rates.INR` may be
      missing (or 0), or no usable answer at all. */
  datatype RateReply = RateBody(inr: Option<real>) | RateFailed

  /** `fetchExchangeRate`: the rupee rate when the body has a truthy one,
      otherwise 83. */
  function ExchangeRate(reply: RateReply): (rate: real)
    ensures reply.RateBody? && reply.inr.Some? && reply.inr.value != 0.0 ==> rate == reply.inr.value
    ensures reply.RateFailed? || reply.inr.None? || reply.inr == Some(0.0) ==> rate == FallbackRate
  {
    match reply
    case RateBody(inr) => if inr.Some? && inr.value != 0.0 then inr.value else FallbackRate
    case RateFailed => FallbackRate
  }

  /** What the gold request gave: a successful body (its `currency`, `change`,
      `changePercent` and `timestamp` may be absent), or a failure of any
      kind (no key, an error status, an exception). */
  datatype GoldReply =
    | GoldBody(price: real, currency: Option<string>, change: Option<real>,
               changePercent: Option<real>, timestamp: Option<int>)
    | GoldFailed

  /** The panel's gold record: live figures, or the sample with its note. */
  datatype GoldPrices =
    | Live(price: real, change: real, changePercent: real, currency: string, unit: string,
           timestamp: int, usdPrice: Option<real>, exchangeRate: Option<real>,
           pricePerGram: real, pricePerOunce: real)
    | Sample(price: real, change: real, changePercent: real, currency: string, unit: string, note: string)

  /** `data.currency && data.currency.toUpperCase() === code`. */
  predicate CurrencyIs(currency: Option<string>, code: string)
  {
    currency.Some? && currency.value != "" && ToUpper(currency.value) == code
  }

  /** The price of an ounce in rupees: the quoted price when it is already in
      rupees, otherwise converted at `rate`. */
  function PerOunce(price: real, currency: Option<string>, rate: real): real
  {
    if CurrencyIs(currency, "INR") then price else price * rate
  }

  /** `fetchGoldPrices`. The exchange rate is requested up to twice: `first`
      is the answer used for the conversion, `second` the one reported in
      `exchangeRate`; `now` stands for `Date.now()`. */
  function FetchGoldPrices(reply: GoldReply, first: RateReply, second: RateReply, now: int): (g: GoldPrices)
    ensures reply.GoldFailed? <==> g.Sample?
    ensures g.currency == "INR" && g.unit == "per 8 grams"
    ensures g.Live? ==> g.pricePerGram * GramsPerOunce == g.pricePerOunce && g.price == 8.0 * g.pricePerGram
  {
    match reply
    case GoldFailed =>
      Sample(SamplePrice, 0.0, 0.0, "INR", "per 8 grams", "Sample data - API unavailable")
    case GoldBody(price, currency, change, changePercent, timestamp) =>
      var perOunce := PerOunce(price, currency, ExchangeRate(first));
      var perGram := perOunce / GramsPerOunce;
      Live(perGram * 8.0,
        if change.Some? then change.value else 0.0,
        if changePercent.Some? then changePercent.value else 0.0,
        "INR", "per 8 grams",
        if timestamp.Some? then timestamp.value else now,
        if CurrencyIs(currency, "USD") then Some(price) else None,
        if CurrencyIs(currency, "INR") then None else Some(ExchangeRate(second)),
        perGram, perOunce)
  }

  /** A live quote: the ounce price is the quoted one exactly when the quote
      is in rupees and is otherwise converted at the first rate; the dollar
      price is kept only for a dollar quote and the rate only for a
      non-rupee quote. */
  lemma GoldConversion(reply: GoldReply, first: RateReply, second: RateReply, now: int)
    requires reply.GoldBody?
    ensures var g := FetchGoldPrices(reply, first, second, now);
      g.Live? &&
      (CurrencyIs(reply.currency, "INR") ==> g.pricePerOunce == reply.price) &&
      (!CurrencyIs(reply.currency, "INR") ==> g.pricePerOunce == reply.price * ExchangeRate(first)) &&
      g.price * GramsPerOunce == 8.0 * g.pricePerOunce &&
      (g.usdPrice.Some? <==> CurrencyIs(reply.currency, "USD")) &&
      (g.usdPrice.Some? ==> g.usdPrice.value == reply.price) &&
      (g.exchangeRate.None? <==> CurrencyIs(reply.currency, "INR"))
  {
  }

  /** A quote in lower-case rupees counts as rupees. */
  lemma LowerCaseRupees()
    ensures CurrencyIs(Some("inr"), "INR")
  {
    assert ToUpper("inr") == "INR";
  }

  /** A failed gold request shows the sample: 47500 rupees, no change. */
  lemma GoldFallback(first: RateReply, second: RateReply, now: int)
    ensures FetchGoldPrices(GoldFailed, first, second, now) ==
      Sample(47500.0, 0.0, 0.0, "INR", "per 8 grams", "Sample data - API unavailable")
  {
  }

  const StockNames: map<string, string> := map[
    "RELIANCE.BSE" := "Reliance Industries",
    "TCS.BSE" := "Tata Consultancy Services",
    "HDFCBANK.BSE" := "HDFC Bank",
    "INFY.BSE" := "Infosys"
  ]

  /** `getStockName`: the company name of a listed symbol, otherwise the
      symbol itself. */
  function StockName(symbol: string): (name: string)
    ensures symbol in StockNames ==> name == StockNames[symbol]
    ensures symbol !in StockNames ==> name == symbol
  {
    if symbol in StockNames then StockNames[symbol] else symbol
  }

  /** A name is returned unchanged exactly when the symbol is not listed. */
  lemma StockNameKnown(symbol: string)
    ensures StockName(symbol) == symbol <==> symbol !in StockNames
  {
    if symbol in StockNames {
      assert StockNames.Values !! StockNames.Keys by {
        assert StockNames.Keys == {"RELIANCE.BSE", "TCS.BSE", "HDFCBANK.BSE", "INFY.BSE"};
        assert StockNames.Values == {"Reliance Industries", "Tata Consultancy Services", "HDFC Bank", "Infosys"};
      }
      assert StockNames[symbol] in StockNames.Values;
    }
  }

  datatype Direction = Up | Down

  /** `getChangeColor`. */
  function ChangeColor(change: real): string
  {
    if change >= 0.0 then "text-green-600" else "text-red-600"
  }

  /** `getChangeIcon`. */
  function ChangeIcon(change: real): Direction
  {
    if change >= 0.0 then Up else Down
  }

  /** Green goes with the rising arrow and red with the falling one, and a
      change of zero counts as a rise. */
  lemma ChangeColorIcon(change: real)
    ensures ChangeColor(change) == "text-green-600" <==> ChangeIcon(change) == Up
    ensures ChangeIcon(change) == Up <==> change >= 0.0
    ensures ChangeIcon(0.0) == Up
  {
  }
}
