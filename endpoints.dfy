/**
 * The upstream endpoints and the parameter lists each handler writes, in
 * the order it writes them, with what the exchange reads back from each
 * query string.
 */
module Endpoints {
  import opened Wrappers
  import opened Js
  import opened Query
  import opened Upstream

  const BASE := "https://fapi.binance.com"
  const FUNDING_RATE_URL := BASE + "/fapi/v1/fundingRate"
  const INCOME_URL := BASE + "/fapi/v1/income"
  const ACCOUNT_URL := BASE + "/fapi/v2/account"
  const ALL_ORDERS_URL := BASE + "/fapi/v1/allOrders"
  const API_KEY_HEADER := "X-MBX-APIKEY"

  /** `/funding-rate`: the symbol (default `BTCUSDT`) and `limit=1`; unsigned. */
  function FundingRateParams(symbol: Option<string>): seq<Param> {
    [Param("symbol", OrElse(symbol, "BTCUSDT")), Param("limit", "1")]
  }

  /** `/account-funding`: funding fees, at most 1000, at `timestamp`. */
  function FundingFeeParams(timestamp: nat): seq<Param> {
    [Param("incomeType", "FUNDING_FEE"), Param("limit", "1000"), Param("timestamp", Decimal(timestamp))]
  }

  /** `/account-positions` and the order history of `/account-position-summary`. */
  function TimestampParams(timestamp: nat): seq<Param> {
    [Param("timestamp", Decimal(timestamp))]
  }

  /** `startTime` is sent only when it is truthy. */
  function StartTimeParam(startTime: JsValue): seq<Param> {
    if Truthy(startTime) then [Param("startTime", Render(startTime))] else []
  }

  /** The body's `incomeType`, defaulting to `REALIZED_PNL` only when it is undefined. */
  function IncomeTypeOrDefault(incomeType: JsValue): JsValue {
    if incomeType.Undefined? then Str("REALIZED_PNL") else incomeType
  }

  /** `/account-income`: the income type, `timestamp`, then `startTime` if truthy. */
  function IncomeParams(incomeType: JsValue, startTime: JsValue, timestamp: nat): seq<Param> {
    [Param("incomeType", Render(IncomeTypeOrDefault(incomeType))), Param("timestamp", Decimal(timestamp))]
      + StartTimeParam(startTime)
  }

  /** The income history of `/account-position-summary`. */
  function RealizedPnlParams(startTime: JsValue, timestamp: nat): seq<Param> {
    [Param("incomeType", "REALIZED_PNL"), Param("limit", "1000"), Param("timestamp", Decimal(timestamp))]
      + StartTimeParam(startTime)
  }

  /** A signed call: the key travels in the `X-MBX-APIKEY` header only. */
  function SignedRequest(rt: Runtime, apiKey: string, secret: string, url: string, ps: seq<Param>): Request {
    Request(url, Signed(rt, secret, Join(ps)), [(API_KEY_HEADER, apiKey)])
  }

  // ------------------------------------------------------------------ lemmas
  //
  // `JoinTwo`, `JoinThree`, the `...Literal` lemmas and the `...Safe` lemmas
  // are proof steps about fixed strings, stated separately to keep each proof
  // small; the `...Text` and `...QueryOnWire` lemmas are the statements.

  lemma JoinTwo(a: Param, b: Param)
    ensures Join([a, b]) == Encode(a) + "&" + Encode(b)
  {
    JoinSnoc([a], b);
    assert [a] + [b] == [a, b];
  }

  lemma JoinThree(a: Param, b: Param, c: Param)
    ensures Join([a, b, c]) == Encode(a) + "&" + Encode(b) + "&" + Encode(c)
  {
    JoinTwo(a, b);
    JoinSnoc([a, b], c);
    assert [a, b] + [c] == [a, b, c];
  }

  /** The parameter lists written as the template literals of the handlers. */
  lemma FundingRateText(symbol: Option<string>)
    ensures Join(FundingRateParams(symbol)) == "symbol=" + OrElse(symbol, "BTCUSDT") + "&limit=1"
  {
    var v := OrElse(symbol, "BTCUSDT");
    JoinTwo(Param("symbol", v), Param("limit", "1"));
  }

  lemma FundingFeeText(timestamp: nat)
    ensures Join(FundingFeeParams(timestamp)) == "incomeType=FUNDING_FEE&limit=1000&timestamp=" + Decimal(timestamp)
  {
    var d := Decimal(timestamp);
    JoinThree(Param("incomeType", "FUNDING_FEE"), Param("limit", "1000"), Param("timestamp", d));
    FundingFeeLiteral(d);
  }

  lemma FundingFeeLiteral(d: string)
    ensures "incomeType" + "=" + "FUNDING_FEE" + "&" + ("limit" + "=" + "1000") + "&" + ("timestamp" + "=" + d)
         == "incomeType=FUNDING_FEE&limit=1000&timestamp=" + d
  {
  }

  lemma TimestampText(timestamp: nat)
    ensures Join(TimestampParams(timestamp)) == "timestamp=" + Decimal(timestamp)
  {
  }

  lemma IncomeText(incomeType: JsValue, startTime: JsValue, timestamp: nat)
    ensures var base := IncomeParams(incomeType, Undefined, timestamp);
      && Join(base) == "incomeType=" + Render(IncomeTypeOrDefault(incomeType)) + "&timestamp=" + Decimal(timestamp)
      && IncomeParams(incomeType, startTime, timestamp) == base + StartTimeParam(startTime)
  {
    var v, d := Render(IncomeTypeOrDefault(incomeType)), Decimal(timestamp);
    JoinTwo(Param("incomeType", v), Param("timestamp", d));
    IncomeLiteral(v, d);
  }

  lemma IncomeLiteral(v: string, d: string)
    ensures "incomeType" + "=" + v + "&" + ("timestamp" + "=" + d) == "incomeType=" + v + "&timestamp=" + d
  {
  }

  lemma RealizedPnlText(startTime: JsValue, timestamp: nat)
    ensures var base := RealizedPnlParams(Undefined, timestamp);
      && Join(base) == "incomeType=REALIZED_PNL&limit=1000&timestamp=" + Decimal(timestamp)
      && RealizedPnlParams(startTime, timestamp) == base + StartTimeParam(startTime)
  {
    var d := Decimal(timestamp);
    assert RealizedPnlParams(Undefined, timestamp)
        == [Param("incomeType", "REALIZED_PNL"), Param("limit", "1000"), Param("timestamp", d)];
    JoinThree(Param("incomeType", "REALIZED_PNL"), Param("limit", "1000"), Param("timestamp", d));
    RealizedPnlLiteral(d);
  }

  lemma RealizedPnlLiteral(d: string)
    ensures "incomeType" + "=" + "REALIZED_PNL" + "&" + ("limit" + "=" + "1000") + "&" + ("timestamp" + "=" + d)
         == "incomeType=REALIZED_PNL&limit=1000&timestamp=" + d
  {
  }

  /** Appending `&startTime=...` when it is truthy appends the optional parameter. */
  lemma StartTimeText(base: seq<Param>, startTime: JsValue)
    requires |base| >= 1 && Truthy(startTime)
    ensures Join(base + StartTimeParam(startTime)) == Join(base) + "&startTime=" + Render(startTime)
  {
    var v := Render(startTime);
    assert StartTimeParam(startTime) == [Param("startTime", v)];
    JoinSnoc(base, Param("startTime", v));
    StartTimeLiteral(Join(base), v);
  }

  lemma StartTimeLiteral(j: string, v: string)
    ensures j + "&" + ("startTime" + "=" + v) == j + "&startTime=" + v
  {
    assert "&" + ("startTime" + "=" + v) == "&startTime=" + v;
    assert j + "&" + ("startTime" + "=" + v) == j + ("&" + ("startTime" + "=" + v));
  }

  /** `${query}&signature=${signature}` is the signing step. */
  lemma SignedText(rt: Runtime, secret: string, query: string)
    ensures Signed(rt, secret, query) == query + "&signature=" + Hex(rt.hmacSha256(secret, query))
  {
  }

  lemma DecimalSafe(n: nat)
    ensures '&' !in Decimal(n)
  {
    var s := Decimal(n);
    assert forall k :: 0 <= k < |s| ==> IsDigit(s[k]);
  }

  lemma ValueSafe(key: string, v: string)
    requires key == "incomeType" || key == "startTime"
    requires '&' !in v
    ensures Safe(Param(key, v))
  {
  }

  lemma TimestampSafe(n: nat)
    ensures Safe(Param("timestamp", Decimal(n)))
  {
    DecimalSafe(n);
  }

  /**
   * The exchange reads `symbol` (the query's symbol, or `BTCUSDT` when that
   * is missing or empty) and then `limit=1`.
   */
  lemma FundingRateQueryOnWire(symbol: Option<string>)
    requires Present(symbol) ==> '&' !in symbol.value
    ensures Parse(Join(FundingRateParams(symbol)))
         == [Param("symbol", if Present(symbol) then symbol.value else "BTCUSDT"), Param("limit", "1")]
  {
    ParseJoin(FundingRateParams(symbol));
  }

  /**
   * A signed timestamp-only query reads back as `timestamp` (the number
   * written; see `Js.DecimalRoundTrip`), then `signature` over exactly the
   * text before it.
   */
  lemma TimestampQueryOnWire(rt: Runtime, secret: string, timestamp: nat)
    ensures var query := Join(TimestampParams(timestamp));
      Parse(Signed(rt, secret, query)) == [Param("timestamp", Decimal(timestamp)), Signature(rt, secret, query)]
  {
    TimestampSafe(timestamp);
    ParseSigned(rt, secret, TimestampParams(timestamp));
  }

  // The fixed parameters are safe: no `&` or `=` in their keys and no `&` in their values.
  lemma LimitSafe()
    ensures Safe(Param("limit", "1000"))
  {
  }

  lemma FundingFeeSafe()
    ensures Safe(Param("incomeType", "FUNDING_FEE"))
  {
  }

  lemma RealizedPnlSafe()
    ensures Safe(Param("incomeType", "REALIZED_PNL"))
  {
  }

  /**
   * `/account-funding` reads back as `incomeType=FUNDING_FEE`, `limit=1000`,
   * `timestamp`, then the signature over exactly the text before it.
   */
  lemma FundingFeeQueryOnWire(rt: Runtime, secret: string, timestamp: nat)
    ensures var query := Join(FundingFeeParams(timestamp));
      Parse(Signed(rt, secret, query))
        == [Param("incomeType", "FUNDING_FEE"), Param("limit", "1000"), Param("timestamp", Decimal(timestamp)),
            Signature(rt, secret, query)]
  {
    TimestampSafe(timestamp);
    FundingFeeSafe();
    LimitSafe();
    ParseSigned(rt, secret, FundingFeeParams(timestamp));
  }

  /**
   * `/account-income` reads back as `incomeType`, `timestamp`, `startTime`
   * exactly when it is truthy, and last the signature over exactly the text
   * before it; provided the client's `incomeType` and `startTime` carry no
   * `&` (they are written unescaped).
   */
  lemma IncomeQueryOnWire(rt: Runtime, secret: string, incomeType: JsValue, startTime: JsValue, timestamp: nat)
    requires '&' !in Render(IncomeTypeOrDefault(incomeType))
    requires Truthy(startTime) ==> '&' !in Render(startTime)
    ensures var query := Join(IncomeParams(incomeType, startTime, timestamp));
      Parse(Signed(rt, secret, query))
        == [Param("incomeType", Render(IncomeTypeOrDefault(incomeType))), Param("timestamp", Decimal(timestamp))]
           + (if Truthy(startTime) then [Param("startTime", Render(startTime))] else [])
           + [Signature(rt, secret, query)]
  {
    var ps := IncomeParams(incomeType, startTime, timestamp);
    assert AllSafe(ps) by {
      TimestampSafe(timestamp);
      ValueSafe("incomeType", Render(IncomeTypeOrDefault(incomeType)));
      if Truthy(startTime) {
        ValueSafe("startTime", Render(startTime));
      }
    }
    ParseSigned(rt, secret, ps);
  }

  /**
   * The income query of `/account-position-summary` reads back as
   * `incomeType=REALIZED_PNL`, `limit=1000`, `timestamp`, `startTime`
   * exactly when it is truthy, and last the signature over exactly the text
   * before it.
   */
  lemma RealizedPnlQueryOnWire(rt: Runtime, secret: string, startTime: JsValue, timestamp: nat)
    requires Truthy(startTime) ==> '&' !in Render(startTime)
    ensures var query := Join(RealizedPnlParams(startTime, timestamp));
      Parse(Signed(rt, secret, query))
        == [Param("incomeType", "REALIZED_PNL"), Param("limit", "1000"), Param("timestamp", Decimal(timestamp))]
           + (if Truthy(startTime) then [Param("startTime", Render(startTime))] else [])
           + [Signature(rt, secret, query)]
  {
    var ps := RealizedPnlParams(startTime, timestamp);
    assert AllSafe(ps) by {
      TimestampSafe(timestamp);
      RealizedPnlSafe();
      LimitSafe();
    }
    ParseSigned(rt, secret, ps);
  }
}
