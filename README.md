# Binance futures proxy — a Dafny model

`index.js` is a small Express server that fronts the Binance USDⓈ-M
futures REST API. It has five routes:

- `GET /funding-rate` makes an unsigned call for the latest funding rate of a symbol.
- `POST /account-funding` makes a signed call for the account's funding-fee history.
- `POST /account-positions` makes a signed call for the account and returns the positions whose amount is not 0.
- `POST /account-income` makes a signed call for the income history, with a chosen income type and an optional start time.
- `POST /account-position-summary` makes two signed calls, one for realized-PnL income and one for all orders. It then builds one summary record per income record, taking an opening order and a closing order from that symbol's filled orders.

This project models the core of the proxy:

- The reconciliation that builds the position summary.
- The query strings every handler builds and signs with HMAC-SHA256, and how the exchange reads those strings back.
- The decisions every handler takes: the credential guard, the array-shape check on the upstream payload, the active-position filter, and which response each payload shape leads to, including the paths that throw and end in a 500.

The modules follow that structure:

| module | file | contents |
|---|---|---|
| `Wrappers` | wrappers.dfy | `Option` (`None` is JavaScript's `undefined`/`null`) |
| `Js` | js.dfy | JavaScript truthiness, `x \|\| null`, `x \|\| fallback`, template-literal rendering of values, decimal and lower-case hex rendering; the `Runtime` of host functions |
| `Seqs` | seqs.dfy | `Array.prototype.filter`, `find` and `reverse`, and what they select |
| `Query` | query.dfy | `key=value&...` query strings: joining, splitting, parsing, signing, and the exchange-side signature check |
| `Reconcile` | reconcile.dfy | the summary record of one income record (index.js:142-156) |
| `Upstream` | upstream.dfy | upstream payload shapes, responses, requests, the credential guard, the array-shape check, the active-position filter |
| `Endpoints` | endpoints.dfy | the endpoints and the parameter list each handler writes, and what the exchange reads back from each |
| `Handlers` | handlers.dfy | the five handlers, each returning its response and the upstream calls it issued |

Three host functions stay abstract: `parseFloat`, `Date.prototype.toISOString` and the HMAC-SHA256 digest. Each is a field of the `Runtime` value that the operations take as a parameter, so every property proved here holds whatever those functions compute. `parseFloat` yields a `Float`, which is a finite real or "not finite": NaN and the infinities both serialise to `null`, and neither is `=== 0`.

Each handler is a method. It takes the request's fields, the clock reading (`Date.now()`), the runtime and the decoded upstream payloads, and it returns the response together with the requests it sent, in order. `fetch` itself is not modelled: the payload it would return is an input.

The code has no symbol allow-list, no pacing between calls, no lookback window, no per-symbol order query and no fallback from `avgPrice` to `price`, so the model has none of them either.

## Model

| member | source | states |
|---|---|---|
| Reconcile.SummarizeAll | index.js:142-156 | one summary per income record, in the same order; each summary's `symbol` is that record's symbol, its `pnl` is `parseFloat(income)`, and its `closeTime` is the ISO string of that record's `time` |
| Reconcile.OpenOrderIsFirstOpening | index.js:143-144 | the opening order is the first order of the symbol that is `FILLED`, has side `BOTH` and is not `MARKET`; there is none exactly when no order qualifies |
| Reconcile.CloseOrderIsLastFill | index.js:143-145 | the closing order is the last `FILLED` order of the symbol in the list received; there is none exactly when the symbol has no filled order |
| Reconcile.CloseNotBeforeOpen | index.js:143-145 | an opening order implies a closing order; the opening order is the first opening order of the symbol, the closing order its last fill, and the closing order never comes earlier in the list than the opening order |
| Reconcile.OpenFields | index.js:151-152 | `openTime` is the ISO string of the opening order's `updateTime`; `entryPrice` is its `avgPrice` when that is truthy, otherwise null; both are null without an opening order |
| Reconcile.CloseFields | index.js:153-154 | `closePrice` and `volume` are the closing order's `avgPrice` and `executedQty` when truthy, otherwise null; both are null when the symbol has no filled order |
| Reconcile.OtherOrdersIgnored | index.js:143 | inserting an order of another symbol, or one that is not `FILLED`, at any position leaves every summary unchanged |
| Reconcile.SingleFillOpensAndCloses | index.js:144-145 | when the symbol's only filled order is an opening order, it is both the opening and the closing order, so entry price equals close price |
| Reconcile.SingleLimitFillExample | index.js:147-155 | one BTCUSDT income record and one filled LIMIT order give the summary with that order's time, price and quantity in every field |
| Seqs.Find | index.js:144-145 | `find` returns the first element that passes the test, and nothing exactly when no element passes |
| Seqs.Reverse | index.js:145 | the reversed copy has the same length, with element `i` taken from position `len-1-i` |
| Seqs.FilterConcat | index.js:143 | filtering keeps the order of the elements: filtering a concatenation is the concatenation of the filtered halves |
| Seqs.FilterSkip | index.js:143 | inserting an element that fails the test changes nothing in the filtered result |
| Seqs.FindInFilter | index.js:143-144 | finding in a filtered list returns the first element that passes both tests, and nothing exactly when no element passes both |
| Seqs.LastOfFilter | index.js:143-145 | the filtered list is empty exactly when no element passes; otherwise its last element is the last element that passes |
| Js.Decimal | index.js:36 | a timestamp is written as a non-empty string of digits with no leading zero |
| Js.DecimalRoundTrip | index.js:36 | reading back the digits written for a timestamp gives that timestamp |
| Js.Hex | index.js:37 | a digest is written as twice as many lower-case hex characters as it has bytes |
| Js.HexRoundTrip | index.js:37 | decoding the hex written for a digest gives the digest back |
| Query.ParseJoin | index.js:96-97 | reading back a joined parameter list whose keys hold no `&` or `=` and whose values hold no `&` gives the same list, in order |
| Query.ParseSigned | index.js:98-99 | the signed query reads back as the original parameters followed by `signature`, the hex digest over exactly the unsigned text |
| Query.SignedVerifies | index.js:37-39 | a signed query passes the exchange's check: the text after the last `&` is `signature=` plus the digest of the text before it |
| Query.VerifiedIsSigned | index.js:37-39 | a string that passes the exchange's check is the signed form of the text before its last `&` |
| Query.VerifiesIffSigned | index.js:37-39 | a string passes the exchange's check exactly when it is the signed form of some query |
| Endpoints.FundingRateQueryOnWire | index.js:12-15 | `/funding-rate` sends `symbol` (the client's symbol, or `BTCUSDT` when missing or empty) and then `limit=1` |
| Endpoints.FundingFeeQueryOnWire | index.js:36-39 | `/account-funding` sends `incomeType=FUNDING_FEE`, `limit=1000`, the timestamp, then the signature over exactly that text |
| Endpoints.TimestampQueryOnWire | index.js:66-69 | `/account-positions` and the order call of the summary send `timestamp` and then the signature over exactly that text |
| Endpoints.IncomeQueryOnWire | index.js:89-99 | `/account-income` sends the income type (`REALIZED_PNL` when undefined) and the timestamp, then `startTime` exactly when it is truthy, then the signature over everything before it |
| Endpoints.RealizedPnlQueryOnWire | index.js:124-127 | the income call of the summary sends `incomeType=REALIZED_PNL`, `limit=1000` and the timestamp, then `startTime` exactly when it is truthy, then the signature over everything before it |
| Upstream.ExpectArray | index.js:18-21 | an array passes through unchanged; any other object gives a 400 whose error is its `msg` when truthy and "Unexpected response" otherwise; `null` throws on `.msg` and gives a 500 |
| Upstream.ActivePositions | index.js:80 | keeps exactly the positions whose `positionAmt` does not parse to 0, and nothing else |
| Upstream.ActivePositionsKeepOrder | index.js:80 | the active positions keep the order in which they were received |
| Handlers.FundingRate | index.js:11-28 | one unsigned call to the funding-rate endpoint with the symbol query, then the array-shape check on its payload |
| Handlers.AccountFunding | index.js:30-58 | missing credentials give a 400 before any call; otherwise one signed funding-fee call with the API key in `X-MBX-APIKEY`, then the array-shape check |
| Handlers.AccountPositions | index.js:60-86 | missing credentials give a 400 before any call; otherwise one signed account call; a falsy payload or one without `positions` gives a 400, anything else the active positions |
| Handlers.AccountIncome | index.js:88-114 | missing credentials give a 400 before any call; otherwise one signed income call with `startTime` only when truthy, and the payload is passed on whatever its shape |
| Handlers.PositionSummary | index.js:116-163 | missing credentials give a 400 before any call. Otherwise: the signed income call; the signed order call with the same timestamp, unless the income payload is `null`; a 500 when income is not an array, or when there is income but orders are not an array; otherwise one summary per income record |

## Left out

- Express plumbing is not modelled: CORS, JSON body parsing, routing and `app.listen` with its port.
- `fetch` itself is not modelled. The payload it returns is an input. A transport failure, or a body that is not valid JSON, would throw into the handler's `catch`, and that path is not modelled.
- Console logging is left out.
- `Date.now()` is the `now` parameter.
- `parseFloat`, `toISOString` and the HMAC-SHA256 digest are abstract functions. The `RangeError` that `toISOString` throws on an invalid date is not modelled.
- JSON field types are narrowed:
  - The `symbol`, `status`, `positionSide`, `type` (`orderType` in the model), `avgPrice` and `executedQty` fields of an order, and the `symbol` of an income record, are each a string or absent.
  - Reconcile.Income: `income` is always a string. A record without it, which `parseFloat` would turn into NaN, is not modelled.
  - Upstream.Position: `positionAmt` is always a string. A position without it is not modelled: `parseFloat(undefined)` is NaN, and NaN `!== 0`, so such a position would be kept as active.
  - Handlers.FundingRate: `req.query.symbol` is a string or absent. The array Express yields for a repeated `symbol` is not modelled.
  - Credentials are a string or absent, so a non-string truthy credential is not modelled.
  - `incomeType` and `startTime` are JavaScript values of the kinds undefined, null, boolean, integer or string.
- Js.Render: numbers are integers written in plain decimal. Fractions and the exponent form JavaScript uses from 1e21 up are not modelled.
- Handlers.AccountPositions: the 400 also echoes the payload as `raw`. The model keeps only the status and the error message.
- Upstream.Account: a truthy `positions` value that is not an array is not modelled. `filter` would throw on it, giving a 500.
- Upstream.Payload: a payload object that itself has a `map` or `filter` property is not modelled.
- Endpoints.IncomeQueryOnWire: requires that `incomeType` and a truthy `startTime` render without `&`, because the handler interpolates them unescaped. Without that, the exchange would read extra parameters. This is also why Endpoints.FundingRateQueryOnWire requires a symbol without `&`.
- Endpoints.RealizedPnlQueryOnWire: requires that a truthy `startTime` renders without `&`, for the same reason.
- Percent-encoding of URLs is not modelled. The query string is the text as the handler writes it.
