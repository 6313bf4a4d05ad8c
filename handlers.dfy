/**
 * The five route handlers. Each takes the request's fields, the clock
 * reading (`Date.now()`), the abstract runtime and the decoded upstream
 * payload(s), and returns its response together with the upstream calls it
 * issued, in order. A failed credential guard answers before any call.
 */
module Handlers {
  import opened Wrappers
  import opened Js
  import opened Query
  import opened Upstream
  import opened Endpoints
  import opened Reconcile

  /** GET /funding-rate: one unsigned call, then the array-shape check. */
  method FundingRate<R>(symbol: Option<string>, data: Payload<R>)
    returns (resp: Response<seq<R>>, calls: seq<Request>)
    ensures calls == [Request(FUNDING_RATE_URL, Join(FundingRateParams(symbol)), [])]
    ensures resp == ExpectArray(data)
  {
    var sym := if Present(symbol) then symbol.value else "BTCUSDT";
    var query := "symbol=" + sym + "&limit=1";
    FundingRateText(symbol);
    calls := [Request(FUNDING_RATE_URL, query, [])];
    resp := ExpectArray(data);
  }

  /** POST /account-funding: credential guard, one signed call, the array-shape check. */
  method AccountFunding<R>(apiKey: Option<string>, apiSecret: Option<string>, now: nat, rt: Runtime, data: Payload<R>)
    returns (resp: Response<seq<R>>, calls: seq<Request>)
    ensures !HasCredentials(apiKey, apiSecret) ==> resp == Fail(400, "Missing API credentials") && calls == []
    ensures HasCredentials(apiKey, apiSecret) ==>
              && calls == [SignedRequest(rt, apiKey.value, apiSecret.value, INCOME_URL, FundingFeeParams(now))]
              && resp == ExpectArray(data)
  {
    if !Present(apiKey) || !Present(apiSecret) {
      return Fail(400, "Missing API credentials"), [];
    }
    var timestamp := now;
    var query := "incomeType=FUNDING_FEE&limit=1000&timestamp=" + Decimal(timestamp);
    FundingFeeText(timestamp);
    var signature := Hex(rt.hmacSha256(apiSecret.value, query));
    SignedText(rt, apiSecret.value, query);
    calls := [Request(INCOME_URL, query + "&signature=" + signature, [(API_KEY_HEADER, apiKey.value)])];
    resp := ExpectArray(data);
  }

  /**
   * POST /account-positions: credential guard, one signed call; a falsy
   * payload or one without `positions` is a 400, otherwise the positions
   * whose amount is not 0.
   */
  method AccountPositions(apiKey: Option<string>, apiSecret: Option<string>, now: nat, rt: Runtime, data: Account)
    returns (resp: Response<seq<Position>>, calls: seq<Request>)
    ensures !HasCredentials(apiKey, apiSecret) ==> resp == Fail(400, "Missing API credentials") && calls == []
    ensures HasCredentials(apiKey, apiSecret) ==>
              calls == [SignedRequest(rt, apiKey.value, apiSecret.value, ACCOUNT_URL, TimestampParams(now))]
    ensures HasCredentials(apiKey, apiSecret) && (data.Falsy? || data.positions.None?) ==>
              resp == Fail(400, "Unexpected response")
    ensures HasCredentials(apiKey, apiSecret) && data.Account? && data.positions.Some? ==>
              resp == Ok(ActivePositions(rt, data.positions.value))
  {
    if !Present(apiKey) || !Present(apiSecret) {
      return Fail(400, "Missing API credentials"), [];
    }
    var timestamp := now;
    var query := "timestamp=" + Decimal(timestamp);
    TimestampText(timestamp);
    var signature := Hex(rt.hmacSha256(apiSecret.value, query));
    SignedText(rt, apiSecret.value, query);
    calls := [Request(ACCOUNT_URL, query + "&signature=" + signature, [(API_KEY_HEADER, apiKey.value)])];
    if data.Falsy? || data.positions.None? {
      return Fail(400, "Unexpected response"), calls;
    }
    resp := Ok(ActivePositions(rt, data.positions.value));
  }

  /**
   * POST /account-income: credential guard, one signed call whose query
   * carries `startTime` only when it is truthy; the payload is passed on
   * whatever its shape.
   */
  method AccountIncome<R>(
    apiKey: Option<string>, apiSecret: Option<string>, incomeType: JsValue, startTime: JsValue,
    now: nat, rt: Runtime, data: Payload<R>)
    returns (resp: Response<Payload<R>>, calls: seq<Request>)
    ensures !HasCredentials(apiKey, apiSecret) ==> resp == Fail(400, "Missing API credentials") && calls == []
    ensures HasCredentials(apiKey, apiSecret) ==>
              && calls == [SignedRequest(rt, apiKey.value, apiSecret.value, INCOME_URL,
                                         IncomeParams(incomeType, startTime, now))]
              && resp == Ok(data)
  {
    if !Present(apiKey) || !Present(apiSecret) {
      return Fail(400, "Missing API credentials"), [];
    }
    var kind := if incomeType.Undefined? then Str("REALIZED_PNL") else incomeType;
    var timestamp := now;
    var query := "incomeType=" + Render(kind) + "&timestamp=" + Decimal(timestamp);
    IncomeText(incomeType, startTime, timestamp);
    if Truthy(startTime) {
      StartTimeText(IncomeParams(incomeType, Undefined, timestamp), startTime);
      query := query + "&startTime=" + Render(startTime);
    }
    var signature := Hex(rt.hmacSha256(apiSecret.value, query));
    SignedText(rt, apiSecret.value, query);
    var signedQuery := query + "&signature=" + signature;
    calls := [Request(INCOME_URL, signedQuery, [(API_KEY_HEADER, apiKey.value)])];
    resp := Ok(data);
  }

  /**
   * POST /account-position-summary: credential guard; the signed income call
   * (`startTime` only when truthy) and the signed order call, both with the
   * same timestamp; then one summary per income record. Reading `length` of
   * a `null` income payload throws before the order call; mapping over any
   * other non-array throws; filtering a non-array order payload throws once
   * there is an income record. Each throw is a 500.
   */
  method PositionSummary(
    apiKey: Option<string>, apiSecret: Option<string>, startTime: JsValue,
    now: nat, rt: Runtime, incomes: Payload<Income>, orders: Payload<Order>)
    returns (resp: Response<seq<Summary>>, calls: seq<Request>)
    ensures !HasCredentials(apiKey, apiSecret) ==> resp == Fail(400, "Missing credentials") && calls == []
    ensures HasCredentials(apiKey, apiSecret) ==>
              var incomeCall := SignedRequest(rt, apiKey.value, apiSecret.value, INCOME_URL,
                                              RealizedPnlParams(startTime, now));
              var orderCall := SignedRequest(rt, apiKey.value, apiSecret.value, ALL_ORDERS_URL,
                                             TimestampParams(now));
              calls == if incomes.Null? then [incomeCall] else [incomeCall, orderCall]
    ensures HasCredentials(apiKey, apiSecret) && !incomes.Items? ==>
              resp == Fail(500, "Failed to fetch position summary")
    ensures HasCredentials(apiKey, apiSecret) && incomes.Items? && incomes.items != [] && !orders.Items? ==>
              resp == Fail(500, "Failed to fetch position summary")
    ensures HasCredentials(apiKey, apiSecret) && incomes.Items? && incomes.items == [] ==>
              resp == Ok([])
    ensures HasCredentials(apiKey, apiSecret) && incomes.Items? && orders.Items? ==>
              resp == Ok(SummarizeAll(rt, incomes.items, orders.items))
  {
    if !Present(apiKey) || !Present(apiSecret) {
      return Fail(400, "Missing credentials"), [];
    }
    var timestamp := now;
    var incomeQS := "incomeType=REALIZED_PNL&limit=1000&timestamp=" + Decimal(timestamp);
    RealizedPnlText(startTime, timestamp);
    if Truthy(startTime) {
      StartTimeText(RealizedPnlParams(Undefined, timestamp), startTime);
      incomeQS := incomeQS + "&startTime=" + Render(startTime);
    }
    var incomeSig := Hex(rt.hmacSha256(apiSecret.value, incomeQS));
    SignedText(rt, apiSecret.value, incomeQS);
    calls := [Request(INCOME_URL, incomeQS + "&signature=" + incomeSig, [(API_KEY_HEADER, apiKey.value)])];
    if incomes.Null? {
      return Fail(500, "Failed to fetch position summary"), calls;
    }
    var orderQS := "timestamp=" + Decimal(timestamp);
    TimestampText(timestamp);
    var orderSig := Hex(rt.hmacSha256(apiSecret.value, orderQS));
    SignedText(rt, apiSecret.value, orderQS);
    calls := calls + [Request(ALL_ORDERS_URL, orderQS + "&signature=" + orderSig, [(API_KEY_HEADER, apiKey.value)])];
    if !incomes.Items? {
      return Fail(500, "Failed to fetch position summary"), calls;
    }
    if incomes.items == [] {
      return Ok([]), calls;
    }
    if !orders.Items? {
      return Fail(500, "Failed to fetch position summary"), calls;
    }
    resp := Ok(SummarizeAll(rt, incomes.items, orders.items));
  }
}
