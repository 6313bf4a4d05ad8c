/**
 * Query strings as the handlers write them (`key=value` pairs joined by `&`,
 * nothing URL-encoded), how the exchange reads them back, and the signing
 * step that appends `&signature=<hex HMAC-SHA256 of everything before it>`.
 */
module Query {
  import opened Wrappers
  import opened Js

  datatype Param = Param(key: string, value: string)

  /** `key=value` */
  function Encode(p: Param): string {
    p.key + "=" + p.value
  }

  /** The parameters written one after another, separated by `&`. */
  function Join(ps: seq<Param>): string {
    if |ps| == 0 then ""
    else if |ps| == 1 then Encode(ps[0])
    else Join(ps[..|ps| - 1]) + "&" + Encode(ps[|ps| - 1])
  }

  /** Splits `s` at every occurrence of `sep`. */
  function Split(s: string, sep: char): (parts: seq<string>)
    ensures |parts| >= 1
  {
    if s == [] then [""]
    else
      var rest := Split(s[1..], sep);
      if s[0] == sep then [""] + rest else [[s[0]] + rest[0]] + rest[1..]
  }

  /** One `key=value` segment: the key ends at the first `=`. */
  function ParseParam(segment: string): Param {
    if segment == [] then Param("", "")
    else if segment[0] == '=' then Param("", segment[1..])
    else
      var p := ParseParam(segment[1..]);
      Param([segment[0]] + p.key, p.value)
  }

  /** How the receiving side reads a query string back into parameters. */
  function Parse(query: string): seq<Param> {
    var segments := Split(query, '&');
    seq(|segments|, i requires 0 <= i < |segments| => ParseParam(segments[i]))
  }

  /** A parameter survives the round trip: no `&` anywhere and no `=` in its key. */
  predicate Safe(p: Param) {
    '&' !in p.key && '=' !in p.key && '&' !in p.value
  }

  predicate AllSafe(ps: seq<Param>) {
    forall i :: 0 <= i < |ps| ==> Safe(ps[i])
  }

  /** The signing step: the query, then `&signature=` and the hex digest of exactly that query. */
  function Signed(rt: Runtime, secret: string, query: string): string {
    query + "&" + Encode(Signature(rt, secret, query))
  }

  /** The `signature` parameter for `query`: its hex HMAC-SHA256 under `secret`. */
  function Signature(rt: Runtime, secret: string, query: string): Param {
    Param("signature", Hex(rt.hmacSha256(secret, query)))
  }

  /** The index of the last occurrence of `c`. */
  function LastIndex(s: string, c: char): (r: Option<nat>)
    ensures r.Some? ==> r.value < |s| && s[r.value] == c && forall k :: r.value < k < |s| ==> s[k] != c
    ensures r.None? ==> forall k :: 0 <= k < |s| ==> s[k] != c
  {
    if s == [] then None
    else if s[|s| - 1] == c then Some(|s| - 1)
    else LastIndex(s[..|s| - 1], c)
  }

  /**
   * The exchange's check of a signed query: the last `&`-segment is
   * `signature=` followed by the hex digest, under `secret`, of everything
   * before that `&`.
   */
  predicate Verifies(rt: Runtime, secret: string, s: string) {
    var i := LastIndex(s, '&');
    i.Some? && s[i.value + 1..] == Encode(Signature(rt, secret, s[..i.value]))
  }

  // ------------------------------------------------------------------ lemmas

  /** Appending one parameter appends `&key=value`. */
  lemma JoinSnoc(ps: seq<Param>, p: Param)
    requires |ps| >= 1
    ensures Join(ps + [p]) == Join(ps) + "&" + Encode(p)
  {
    assert (ps + [p])[..|ps|] == ps;
  }

  lemma {:induction false} SplitWithout(s: string, sep: char)
    requires sep !in s
    ensures Split(s, sep) == [s]
  {
    if s != [] {
      SplitWithout(s[1..], sep);
      assert [s[0]] + s[1..] == s;
    }
  }

  lemma {:induction false} SplitAppend(a: string, sep: char, b: string)
    requires sep !in b
    ensures Split(a + [sep] + b, sep) == Split(a, sep) + [b]
  {
    if a == [] {
      assert a + [sep] + b == [sep] + b;
      assert ([sep] + b)[1..] == b;
      SplitWithout(b, sep);
    } else {
      assert (a + [sep] + b)[1..] == a[1..] + [sep] + b;
      assert (a + [sep] + b)[0] == a[0];
      SplitAppend(a[1..], sep, b);
    }
  }

  lemma {:induction false} ParseParamEncode(p: Param)
    requires '=' !in p.key
    ensures ParseParam(Encode(p)) == p
    decreases |p.key|
  {
    if p.key == [] {
      assert Encode(p) == ['='] + p.value;
    } else {
      var tail := Param(p.key[1..], p.value);
      assert Encode(p)[0] == p.key[0];
      assert Encode(p)[1..] == Encode(tail);
      ParseParamEncode(tail);
      assert [p.key[0]] + p.key[1..] == p.key;
    }
  }

  lemma {:induction false} SplitJoin(ps: seq<Param>)
    requires |ps| >= 1 && AllSafe(ps)
    ensures Split(Join(ps), '&') == seq(|ps|, i requires 0 <= i < |ps| => Encode(ps[i]))
  {
    var last := ps[|ps| - 1];
    assert '&' !in Encode(last);
    if |ps| == 1 {
      SplitWithout(Encode(last), '&');
    } else {
      var init := ps[..|ps| - 1];
      SplitJoin(init);
      assert Join(ps) == Join(init) + ['&'] + Encode(last);
      SplitAppend(Join(init), '&', Encode(last));
    }
  }

  /** Reading back a written query gives the parameters, in the order written. */
  lemma ParseJoin(ps: seq<Param>)
    requires |ps| >= 1 && AllSafe(ps)
    ensures Parse(Join(ps)) == ps
  {
    SplitJoin(ps);
    forall i | 0 <= i < |ps| ensures Parse(Join(ps))[i] == ps[i] {
      ParseParamEncode(ps[i]);
    }
  }

  /** A signed query is the query with one more parameter, `signature`, at the end. */
  lemma SignedIsJoin(rt: Runtime, secret: string, ps: seq<Param>)
    requires |ps| >= 1
    ensures Signed(rt, secret, Join(ps)) == Join(ps + [Signature(rt, secret, Join(ps))])
  {
    JoinSnoc(ps, Signature(rt, secret, Join(ps)));
  }

  /**
   * What the exchange reads from a signed query: the parameters in the order
   * written, then `signature`, whose value is the digest of exactly the
   * joined parameters.
   */
  lemma ParseSigned(rt: Runtime, secret: string, ps: seq<Param>)
    requires |ps| >= 1 && AllSafe(ps)
    ensures Parse(Signed(rt, secret, Join(ps)))
         == ps + [Param("signature", Hex(rt.hmacSha256(secret, Join(ps))))]
  {
    var sig := Signature(rt, secret, Join(ps));
    SignedIsJoin(rt, secret, ps);
    SignatureSafe(rt, secret, Join(ps));
    ParseJoin(ps + [sig]);
  }

  lemma SignatureSafe(rt: Runtime, secret: string, query: string)
    ensures Safe(Signature(rt, secret, query))
    ensures '&' !in Encode(Signature(rt, secret, query))
  {
    var hex := Hex(rt.hmacSha256(secret, query));
    assert forall k :: 0 <= k < |hex| ==> IsLowerHex(hex[k]);
  }

  /** A signed query passes the exchange's check. */
  lemma SignedVerifies(rt: Runtime, secret: string, q: string)
    ensures Verifies(rt, secret, Signed(rt, secret, q))
  {
    var s := Signed(rt, secret, q);
    var tail := Encode(Signature(rt, secret, q));
    assert s == q + "&" + tail;
    SignatureSafe(rt, secret, q);
    var i := LastIndex(s, '&');
    assert s[|q|] == '&';
    assert forall k :: |q| < k < |s| ==> s[k] == tail[k - |q| - 1] && s[k] != '&';
    assert i.Some? && i.value == |q|;
    assert s[..|q|] == q;
    assert s[|q| + 1..] == tail;
  }

  /** A string that passes the exchange's check is the signed form of what precedes its last `&`. */
  lemma VerifiedIsSigned(rt: Runtime, secret: string, s: string)
    requires Verifies(rt, secret, s)
    ensures s == Signed(rt, secret, s[..LastIndex(s, '&').value])
  {
    var i := LastIndex(s, '&').value;
    assert s == s[..i] + "&" + s[i + 1..];
  }

  /** The exchange accepts exactly the strings the signing step produces. */
  lemma VerifiesIffSigned(rt: Runtime, secret: string, s: string)
    ensures Verifies(rt, secret, s) <==> exists q :: s == Signed(rt, secret, q)
  {
    if Verifies(rt, secret, s) {
      VerifiedIsSigned(rt, secret, s);
    }
    forall q | s == Signed(rt, secret, q) ensures Verifies(rt, secret, s) {
      SignedVerifies(rt, secret, q);
    }
  }
}
