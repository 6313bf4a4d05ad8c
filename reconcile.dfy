/**
 * The position summary of `/account-position-summary`: one record per
 * realized-PnL income record, with an opening and a closing order picked
 * from the filled orders of the same symbol.
 */
module Reconcile {
  import opened Wrappers
  import opened Js
  import opened Seqs

  /** An income record; `symbol` is absent when the payload lacks it. */
  datatype Income = Income(symbol: Option<string>, income: string, time: int)

  /** An order record; each string field may be absent. */
  datatype Order = Order(
    symbol: Option<string>,
    status: Option<string>,
    positionSide: Option<string>,
    orderType: Option<string>,
    avgPrice: Option<string>,
    executedQty: Option<string>,
    updateTime: int)

  /** One summary record; `None` is written as `null` (for `symbol`: left out). */
  datatype Summary = Summary(
    symbol: Option<string>,
    pnl: Float,
    closeTime: string,
    openTime: Option<string>,
    entryPrice: Option<string>,
    closePrice: Option<string>,
    volume: Option<string>)

  predicate IsFilled(o: Order) {
    o.status == Some("FILLED")
  }

  /** A limit-style order in one-way mode: side `BOTH`, type other than `MARKET`. */
  predicate IsOpening(o: Order) {
    o.positionSide == Some("BOTH") && o.orderType != Some("MARKET")
  }

  /** The test of the per-record filter: same symbol, status `FILLED`. */
  function FilledFor(symbol: Option<string>): Order -> bool {
    (o: Order) => o.symbol == symbol && IsFilled(o)
  }

  /** The filled orders of `symbol`, in the order received. */
  function SymbolOrders(orders: seq<Order>, symbol: Option<string>): seq<Order> {
    Filter(orders, FilledFor(symbol))
  }

  /** The first filled order of `symbol` that is an opening order. */
  function OpenOrder(orders: seq<Order>, symbol: Option<string>): Option<Order> {
    Find(SymbolOrders(orders, symbol), IsOpening)
  }

  /** The first filled order of the reversed copy, i.e. the last one of `symbol`. */
  function CloseOrder(orders: seq<Order>, symbol: Option<string>): Option<Order> {
    Find(Reverse(SymbolOrders(orders, symbol)), IsFilled)
  }

  /** The summary record of one income record. */
  function Summarize(rt: Runtime, orders: seq<Order>, p: Income): Summary {
    var open := OpenOrder(orders, p.symbol);
    var close := CloseOrder(orders, p.symbol);
    Summary(
      p.symbol,
      rt.parseFloat(p.income),
      rt.isoString(p.time),
      if open.Some? then Some(rt.isoString(open.value.updateTime)) else None,
      if open.Some? then OrNull(open.value.avgPrice) else None,
      if close.Some? then OrNull(close.value.avgPrice) else None,
      if close.Some? then OrNull(close.value.executedQty) else None)
  }

  /** `incomes.map(...)`: one summary per income record, in the same order. */
  function SummarizeAll(rt: Runtime, incomes: seq<Income>, orders: seq<Order>): (r: seq<Summary>)
    ensures |r| == |incomes|
    ensures forall i :: 0 <= i < |r| ==>
      && r[i].symbol == incomes[i].symbol
      && r[i].pnl == rt.parseFloat(incomes[i].income)
      && r[i].closeTime == rt.isoString(incomes[i].time)
      && r[i] == Summarize(rt, orders, incomes[i])
  {
    seq(|incomes|, i requires 0 <= i < |incomes| => Summarize(rt, orders, incomes[i]))
  }

  // ------------------------------------------------------ the chosen orders

  /** `o` counts for the closing order of `symbol`. */
  predicate Fills(o: Order, symbol: Option<string>) {
    o.symbol == symbol && IsFilled(o)
  }

  /** `o` counts for the opening order of `symbol`. */
  predicate Opens(o: Order, symbol: Option<string>) {
    Fills(o, symbol) && IsOpening(o)
  }

  /** `i` is the index of the first order that opens `symbol`. */
  ghost predicate FirstOpening(orders: seq<Order>, symbol: Option<string>, i: int) {
    0 <= i < |orders| && Opens(orders[i], symbol)
    && forall k :: 0 <= k < i ==> !Opens(orders[k], symbol)
  }

  /** `j` is the index of the last filled order of `symbol`. */
  ghost predicate LastFill(orders: seq<Order>, symbol: Option<string>, j: int) {
    0 <= j < |orders| && Fills(orders[j], symbol)
    && forall k :: j < k < |orders| ==> !Fills(orders[k], symbol)
  }

  /**
   * The opening order is the first order of the symbol that is filled, has
   * side `BOTH` and is not a market order; there is none exactly when no
   * order qualifies.
   */
  lemma OpenOrderIsFirstOpening(orders: seq<Order>, symbol: Option<string>)
    ensures OpenOrder(orders, symbol).None? <==> forall k :: 0 <= k < |orders| ==> !Opens(orders[k], symbol)
    ensures forall i :: FirstOpening(orders, symbol, i) ==> OpenOrder(orders, symbol) == Some(orders[i])
  {
    var both := Both(FilledFor(symbol), IsOpening);
    assert forall o :: both(o) == Opens(o, symbol);
    FindInFilter(orders, FilledFor(symbol), IsOpening);
    forall i | FirstOpening(orders, symbol, i) ensures OpenOrder(orders, symbol) == Some(orders[i]) {
      assert IsFirst(orders, both, i);
    }
  }

  /**
   * The closing order is the last filled order of the symbol, whatever its
   * side and type; there is none exactly when the symbol has no filled order.
   */
  lemma CloseOrderIsLastFill(orders: seq<Order>, symbol: Option<string>)
    ensures CloseOrder(orders, symbol).None? <==> forall k :: 0 <= k < |orders| ==> !Fills(orders[k], symbol)
    ensures forall j :: LastFill(orders, symbol, j) ==> CloseOrder(orders, symbol) == Some(orders[j])
  {
    var filled := FilledFor(symbol);
    assert forall o :: filled(o) == Fills(o, symbol);
    var fs := SymbolOrders(orders, symbol);
    LastOfFilter(orders, filled);
    if fs != [] {
      var rev := Reverse(fs);
      FilterMembers(orders, filled);
      assert filled(fs[|fs| - 1]);
      assert rev[0] == fs[|fs| - 1];
      assert CloseOrder(orders, symbol) == Some(fs[|fs| - 1]);
      forall j | LastFill(orders, symbol, j) ensures CloseOrder(orders, symbol) == Some(orders[j]) {
        assert IsLast(orders, filled, j);
      }
    }
  }

  /**
   * An opening order implies a closing order: the opening order sits at the
   * index of the first opening order, the closing order at the index of the
   * last fill, and the closing order never comes before the opening order in
   * the list received.
   */
  lemma CloseNotBeforeOpen(orders: seq<Order>, symbol: Option<string>)
    ensures OpenOrder(orders, symbol).Some? ==> CloseOrder(orders, symbol).Some?
    ensures OpenOrder(orders, symbol).Some? ==>
      exists i, j :: && FirstOpening(orders, symbol, i) && LastFill(orders, symbol, j) && i <= j
                     && OpenOrder(orders, symbol) == Some(orders[i])
                     && CloseOrder(orders, symbol) == Some(orders[j])
  {
    OpenOrderIsFirstOpening(orders, symbol);
    CloseOrderIsLastFill(orders, symbol);
    if OpenOrder(orders, symbol).Some? {
      var k :| 0 <= k < |orders| && Opens(orders[k], symbol);
      FirstAndLastExist(orders, (o: Order) => Opens(o, symbol), k);
      FirstAndLastExist(orders, (o: Order) => Fills(o, symbol), k);
      var i :| IsFirst(orders, (o: Order) => Opens(o, symbol), i);
      var j :| IsLast(orders, (o: Order) => Fills(o, symbol), j);
      assert FirstOpening(orders, symbol, i) && LastFill(orders, symbol, j);
    }
  }

  /**
   * The open fields of a summary: `openTime` and `entryPrice` come from the
   * first opening order (`entryPrice` its `avgPrice` verbatim, or null when
   * that is missing or empty); both are null when there is no opening order.
   */
  lemma OpenFields(rt: Runtime, orders: seq<Order>, p: Income)
    ensures var s := Summarize(rt, orders, p);
      (forall k :: 0 <= k < |orders| ==> !Opens(orders[k], p.symbol))
        ==> s.openTime == None && s.entryPrice == None
    ensures var s := Summarize(rt, orders, p);
      forall i :: FirstOpening(orders, p.symbol, i) ==>
        && s.openTime == Some(rt.isoString(orders[i].updateTime))
        && s.entryPrice == (if Present(orders[i].avgPrice) then orders[i].avgPrice else None)
  {
    OpenOrderIsFirstOpening(orders, p.symbol);
  }

  /**
   * The close fields of a summary: `closePrice` and `volume` are the last
   * filled order's `avgPrice` and `executedQty` verbatim, or null when that
   * field is missing or empty; both are null when the symbol has no filled
   * order.
   */
  lemma CloseFields(rt: Runtime, orders: seq<Order>, p: Income)
    ensures var s := Summarize(rt, orders, p);
      (forall k :: 0 <= k < |orders| ==> !Fills(orders[k], p.symbol))
        ==> s.closePrice == None && s.volume == None
    ensures var s := Summarize(rt, orders, p);
      forall j :: LastFill(orders, p.symbol, j) ==>
        && s.closePrice == (if Present(orders[j].avgPrice) then orders[j].avgPrice else None)
        && s.volume == (if Present(orders[j].executedQty) then orders[j].executedQty else None)
  {
    CloseOrderIsLastFill(orders, p.symbol);
  }

  /**
   * An order of another symbol, or one that is not filled, changes nothing
   * in a summary wherever it is inserted.
   */
  lemma OtherOrdersIgnored(rt: Runtime, orders: seq<Order>, k: nat, o: Order, p: Income)
    requires k <= |orders| && !Fills(o, p.symbol)
    ensures Summarize(rt, orders[..k] + [o] + orders[k..], p) == Summarize(rt, orders, p)
  {
    var longer := orders[..k] + [o] + orders[k..];
    FilterSkip(orders, k, o, FilledFor(p.symbol));
    assert OpenOrder(longer, p.symbol) == OpenOrder(orders, p.symbol);
    assert CloseOrder(longer, p.symbol) == CloseOrder(orders, p.symbol);
  }

  /**
   * When the symbol's only filled order is an opening order, it is both the
   * opening and the closing order: entry and close price coincide.
   */
  lemma SingleFillOpensAndCloses(rt: Runtime, orders: seq<Order>, p: Income, k: nat)
    requires k < |orders| && Opens(orders[k], p.symbol)
    requires forall m :: 0 <= m < |orders| && m != k ==> !Fills(orders[m], p.symbol)
    ensures OpenOrder(orders, p.symbol) == CloseOrder(orders, p.symbol) == Some(orders[k])
    ensures Summarize(rt, orders, p).entryPrice == Summarize(rt, orders, p).closePrice
  {
    assert FirstOpening(orders, p.symbol, k);
    assert LastFill(orders, p.symbol, k);
    OpenOrderIsFirstOpening(orders, p.symbol);
    CloseOrderIsLastFill(orders, p.symbol);
  }

  /** One income record and one filled limit order of its symbol. */
  lemma SingleLimitFillExample(rt: Runtime)
    ensures
      var order := Order(Some("BTCUSDT"), Some("FILLED"), Some("BOTH"), Some("LIMIT"),
                         Some("30000"), Some("0.1"), 1699999000000);
      var income := Income(Some("BTCUSDT"), "12.5", 1700000000000);
      SummarizeAll(rt, [income], [order])
        == [Summary(Some("BTCUSDT"), rt.parseFloat("12.5"), rt.isoString(1700000000000),
                    Some(rt.isoString(1699999000000)), Some("30000"), Some("30000"), Some("0.1"))]
  {
    var order := Order(Some("BTCUSDT"), Some("FILLED"), Some("BOTH"), Some("LIMIT"),
                       Some("30000"), Some("0.1"), 1699999000000);
    var income := Income(Some("BTCUSDT"), "12.5", 1700000000000);
    SingleFillOpensAndCloses(rt, [order], income, 0);
    OpenFields(rt, [order], income);
  }
}
