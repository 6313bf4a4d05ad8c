/**
 * What the handlers receive from the exchange and what they answer: decoded
 * payload shapes, responses, upstream requests, the credential guard, the
 * array-shape check and the active-position filter.
 */
module Upstream {
  import opened Wrappers
  import opened Js
  import opened Seqs

  /**
   * A decoded upstream JSON body: an array, some other non-null value (an
   * error object carries `msg`), or `null`.
   */
  datatype Payload<T> = Items(items: seq<T>) | Object(msg: Option<string>) | Null

  /** A handler's answer: 200 with a JSON body, or a status with `{ error }`. */
  datatype Response<T> = Ok(body: T) | Fail(status: int, error: string)

  /** One upstream call: the URL before `?`, the query string, and the headers. */
  datatype Request = Request(url: string, query: string, headers: seq<(string, string)>)

  /** `apiKey` and `apiSecret` are both truthy. */
  predicate HasCredentials(apiKey: Option<string>, apiSecret: Option<string>) {
    Present(apiKey) && Present(apiSecret)
  }

  /**
   * The array-shape check of `/funding-rate` and `/account-funding`: an
   * array is passed on as it is; any other value is a 400 whose error is the
   * payload's `msg` when that is truthy and "Unexpected response" otherwise;
   * reading `msg` of `null` throws, which the handler's catch turns into 500.
   */
  function ExpectArray<T>(data: Payload<T>): (r: Response<seq<T>>)
    ensures r.Ok? <==> data.Items?
    ensures r.Ok? ==> r.body == data.items
    ensures data.Object? ==> r.Fail? && r.status == 400 && r.error != ""
    ensures data.Object? && Present(data.msg) ==> r.error == data.msg.value
    ensures data.Object? && !Present(data.msg) ==> r.error == "Unexpected response"
    ensures data.Null? ==> r == Fail(500, "Internal error")
  {
    match data
    case Items(items) => Ok(items)
    case Object(msg) => Fail(400, OrElse(msg, "Unexpected response"))
    case Null => Fail(500, "Internal error")
  }

  /** A position of the account payload; its other fields are passed on unread. */
  datatype Position = Position(symbol: string, positionAmt: string)

  /**
   * The account payload: a falsy value (`null`), or a value whose
   * `positions` field is an array or absent/falsy.
   */
  datatype Account = Falsy | Account(positions: Option<seq<Position>>)

  /** `parseFloat(p.positionAmt) !== 0` */
  function Held(rt: Runtime): Position -> bool {
    (p: Position) => rt.parseFloat(p.positionAmt) != Finite(0.0)
  }

  /** The positions whose amount does not parse to 0, in the order received. */
  function ActivePositions(rt: Runtime, positions: seq<Position>): (r: seq<Position>)
    ensures |r| <= |positions|
    ensures forall i :: 0 <= i < |r| ==> r[i] in positions && rt.parseFloat(r[i].positionAmt) != Finite(0.0)
    ensures forall i :: 0 <= i < |positions| && rt.parseFloat(positions[i].positionAmt) != Finite(0.0) ==>
              positions[i] in r
  {
    FilterMembers(positions, Held(rt));
    Filter(positions, Held(rt))
  }

  /**
   * The filter keeps the received order: filtering two halves and joining
   * the results is filtering the whole.
   */
  lemma ActivePositionsKeepOrder(rt: Runtime, a: seq<Position>, b: seq<Position>)
    ensures ActivePositions(rt, a + b) == ActivePositions(rt, a) + ActivePositions(rt, b)
  {
    FilterConcat(a, b, Held(rt));
  }
}
