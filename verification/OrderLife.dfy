/** The life of a simulated order: what one candle does to each accepted order, and what
    a submission may touch. */
module OrderLife {
  import opened Decimals
  import opened Accounting
  import opened Pricing
  import opened Broker

  /** The candle opens no earlier than the event that caused the order, and reaches its price. */
  predicate Due(config: Config, s: State, id: Id, candle: Candle)
    requires config.Valid() && WellFormed(config, s) && id in s.orders
  {
    hide RawFill, Aligned;
    var order := s.orders[id];
    s.payloads[order.clientId].cursor <= candle.start && RawFill(order.side, order.limit, candle).Some?
  }

  /** The order carries the terms of its request. */
  predicate OnTerms(o: Order, q: Request) {
    && o.id == q.orderId && o.clientId == q.clientId && o.strategy == q.strategy
    && o.side == q.side && o.quantity == q.quantity && o.limit == q.limit && o.submittedAt == q.submittedAt
  }

  predicate Waits(o: Order, q: Request) {
    OnTerms(o, q) && o.status == Accepted && o.filled == 0.0 && o.updatedAt == q.submittedAt
  }

  lemma NewOrderWaits(q: Request)
    ensures Waits(NewOrder(q), q)
  {
  }

  /** The trades of one order, oldest first. */
  function TradesFor(trades: seq<Trade>, id: Id): seq<Trade> {
    if trades == [] then []
    else
      var init, last := trades[..|trades| - 1], trades[|trades| - 1];
      if last.order == id then TradesFor(init, id) + [last] else TradesFor(init, id)
  }

  /** The order is filled completely, by one trade when the candle opens. */
  predicate Executed(before: Order, after: Order, trades: seq<Trade>, candle: Candle) {
    && after == before.(status := Filled, filled := before.quantity, updatedAt := candle.start)
    && |trades| == 1 && trades[0].order == before.id && trades[0].executedAt == candle.start
    && trades[0].fill.side == before.side && trades[0].fill.quantity == before.quantity
    && RawFill(before.side, before.limit, candle) == Some(trades[0].raw)
  }

  /** The order is rejected for lack of funds or stock and nothing trades. */
  predicate Declined(before: Order, after: Order, trades: seq<Trade>, candle: Candle) {
    after == before.(status := Rejected, updatedAt := candle.start) && trades == []
  }

  lemma {:induction false} TradesAppend(trades: seq<Trade>, trade: Trade, id: Id)
    ensures TradesFor(trades + [trade], id) == TradesFor(trades, id) + (if trade.order == id then [trade] else [])
  {
    assert (trades + [trade])[..|trades|] == trades;
  }

  lemma TradeShape(config: Config, s: State, order: Order, raw: real, at: int)
    requires config.Valid() && TryFill(config, s, order, raw, at).Done?
    ensures var trade := TryFill(config, s, order, raw, at).trade;
            trade.order == order.id && trade.executedAt == at && trade.raw == raw &&
            trade.fill.side == order.side && trade.fill.quantity == order.quantity
  {
    hide FillPrice, Commission, Product;
  }

  /** One visit decides the fate of the visited order and touches no other. */
  lemma {:induction false} SettleOne(config: Config, before: Settlement, last: Id, id: Id, candle: Candle)
    requires config.Valid() && WellFormed(config, before.state)
    requires last in before.state.orders && id in before.state.orders
    requires TradesFor(before.trades, last) == []
    ensures var r := Settle(config, before, last, candle);
            var o, o' := before.state.orders[id], r.state.orders[id];
            && (before.failed ==> r.failed)
            && (id != last || !Due(config, before.state, id, candle) ==>
                  o' == o && TradesFor(r.trades, id) == TradesFor(before.trades, id))
            && (id == last && Due(config, before.state, id, candle) && !r.failed ==>
                  Executed(o, o', TradesFor(r.trades, id), candle) || Declined(o, o', TradesFor(r.trades, id), candle))
  {
    hide TryFill, RawFill, Aligned, TradesFor;
    var s := before.state;
    var order := s.orders[last];
    var raw := RawFill(order.side, order.limit, candle);
    if raw.Some? {
      var outcome := TryFill(config, s, order, raw.value, candle.start);
      if outcome.Done? {
        TradeShape(config, s, order, raw.value, candle.start);
        TradesAppend(before.trades, outcome.trade, id);
      }
    }
  }

  /** What became of one order when a sorted list of orders was offered a candle. */
  lemma {:induction false} OrderFate(config: Config, s: State, ids: seq<Id>, candle: Candle, id: Id)
    requires config.Valid() && WellFormed(config, s) && Sorted(ids) && id in s.orders
    requires forall i :: 0 <= i < |ids| ==> ids[i] in s.orders
    ensures var r := SettleAll(config, s, ids, candle);
            var o, o', mine := s.orders[id], r.state.orders[id], TradesFor(r.trades, id);
            && (id !in ids || !Due(config, s, id, candle) ==> o' == o && mine == [])
            && (id in ids && Due(config, s, id, candle) && !r.failed ==>
                  Executed(o, o', mine, candle) || Declined(o, o', mine, candle))
  {
    if ids != [] {
      hide Settle, WellFormed, Due, Executed, Declined, TradesFor;
      var init, last := ids[..|ids| - 1], ids[|ids| - 1];
      assert ids == init + [last] && last !in init;
      var before := SettleAll(config, s, init, candle);
      OrderFate(config, s, init, candle, id);
      OrderFate(config, s, init, candle, last);
      SettleOne(config, before, last, id, candle);
      if id == last {
        SameDue(config, s, before.state, id, candle);
      }
    }
  }

  lemma VisitTouchesOne(config: Config, before: Settlement, last: Id, id: Id, candle: Candle)
    requires config.Valid() && WellFormed(config, before.state) && last in before.state.orders
    requires id in before.state.orders && id != last
    ensures Settle(config, before, last, candle).state.orders[id] == before.state.orders[id]
  {
    hide TryFill, RawFill, Aligned;
  }

  lemma {:induction false} PrefixDecides(config: Config, s: State, ids: seq<Id>, n: nat, candle: Candle, id: Id)
    requires config.Valid() && WellFormed(config, s) && Sorted(ids) && n <= |ids| && id in ids[..n]
    requires forall i :: 0 <= i < |ids| ==> ids[i] in s.orders
    ensures id in s.orders
    ensures SettleAll(config, s, ids, candle).state.orders[id] == SettleAll(config, s, ids[..n],
        candle).state.orders[id]
  {
    hide Settle, WellFormed;
    if n == |ids| {
      assert ids[..n] == ids;
    } else {
      var init, last := ids[..|ids| - 1], ids[|ids| - 1];
      assert init[..n] == ids[..n];
      PrefixDecides(config, s, init, n, candle, id);
      VisitTouchesOne(config, SettleAll(config, s, init, candle), last, id, candle);
    }
  }

  /** Orders compete for cash and stock by identifier: what becomes of one depends on accepted
      orders with smaller identifiers and on no others. */
  lemma SmallerIdsFirst(config: Config, s: State, candle: Candle, id: Id)
    requires config.Valid() && WellFormed(config, s) && id in OpenIds(s)
    ensures var ahead := SortedIds(set x | x in OpenIds(s) && x <= id);
            var marked := s.(lastPrice := Some(candle.close));
            && WellFormed(config, marked) && (forall i :: 0 <= i < |ahead| ==> ahead[i] in s.orders)
            && OnCandle(config, s, candle).state.orders[id] ==
               SettleAll(config, marked, ahead, candle).state.orders[id]
  {
    hide SettleAll, WellFormed, OpenIds;
    var ids := SortedIds(OpenIds(s));
    var n := SmallerIdsArePrefix(ids, OpenIds(s), id);
    OpenIdsAreKnown(s, ids);
    OpenIdsAreKnown(s, ids[..n]);
    MarkingKeepsForm(config, s, candle.close);
    PrefixDecides(config, s.(lastPrice := Some(candle.close)), ids, n, candle, id);
  }

  lemma MarkingKeepsForm(config: Config, s: State, price: real)
    requires config.Valid() && WellFormed(config, s)
    ensures WellFormed(config, s.(lastPrice := Some(price)))
  {
    hide Aligned;
  }

  lemma OpenIdsAreKnown(s: State, ids: seq<Id>)
    requires forall i :: 0 <= i < |ids| ==> ids[i] in OpenIds(s)
    ensures forall i :: 0 <= i < |ids| ==> ids[i] in s.orders
  {
  }

  lemma SmallerIdsArePrefix(ids: seq<Id>, all: set<Id>, id: Id) returns (n: nat)
    requires Lists(ids, all) && id in all
    ensures n <= |ids| && id in ids[..n]
    ensures ids[..n] == SortedIds(set x | x in all && x <= id)
    ensures forall i :: 0 <= i < |ids| ==> ids[i] in all
  {
    var i :| 0 <= i < |ids| && ids[i] == id;
    n := i + 1;
    var ahead := SortedIds(set x | x in all && x <= id);
    forall x ensures x in ids[..n] <==> x in ahead {
      if x in ids[..n] {
        var j :| 0 <= j <= i && ids[j] == x;
        assert ids[j] in ids;
      }
      if x in ahead {
        var j :| 0 <= j < |ids| && ids[j] == x;
        assert j <= i;
      }
    }
    SortedListIsUnique(ids[..n], ahead);
    assert forall i :: 0 <= i < |ids| ==> ids[i] in ids;
  }

  lemma SameDue(config: Config, s: State, s': State, id: Id, candle: Candle)
    requires config.Valid() && WellFormed(config, s) && WellFormed(config, s')
    requires id in s.orders && id in s'.orders && s'.orders[id] == s.orders[id] && s'.payloads == s.payloads
    ensures Due(config, s', id, candle) <==> Due(config, s, id, candle)
  {
    hide RawFill, Aligned;
  }

  /** An order the broker does not know never trades. */
  lemma {:induction false} StrangersDoNotTrade(config: Config, s: State, ids: seq<Id>, candle: Candle, id: Id)
    requires config.Valid() && WellFormed(config, s) && id !in s.orders
    requires forall i :: 0 <= i < |ids| ==> ids[i] in s.orders
    ensures TradesFor(SettleAll(config, s, ids, candle).trades, id) == []
  {
    if ids != [] {
      hide TryFill, RawFill, Aligned, TradesFor;
      var init, last := ids[..|ids| - 1], ids[|ids| - 1];
      StrangersDoNotTrade(config, s, init, candle, id);
      var before := SettleAll(config, s, init, candle);
      var order := before.state.orders[last];
      var raw := RawFill(order.side, order.limit, candle);
      if raw.Some? {
        var outcome := TryFill(config, before.state, order, raw.value, candle.start);
        if outcome.Done? {
          TradeShape(config, before.state, order, raw.value, candle.start);
          TradesAppend(before.trades, outcome.trade, id);
        }
      }
    }
  }

  /** A repeated request asks for the very same thing; the asset counts where there is a limit. */
  lemma RepeatsAgree(a: Request, b: Request)
    ensures SameRequest(a, b) <==>
              && a.orderId == b.orderId && a.clientId == b.clientId && a.strategy == b.strategy
              && a.instrument == b.instrument && a.side == b.side && a.orderType == b.orderType
              && a.quantity == b.quantity && a.limit == b.limit && (a.limit.Some? ==> a.limitAsset == b.limitAsset)
              && a.submittedAt == b.submittedAt && a.cursor == b.cursor
  {
  }

  /** A request the broker takes: for its own instrument, of whole lots, not before the event
      that caused it, and with a positive limit of whole ticks in its own asset exactly when it is
      a limit order. */
  predicate Acceptable(r: Request, config: Config)
    requires config.Valid()
  {
    && r.instrument == config.instrument && r.quantity > 0.0 && Aligned(r.quantity, config.lot)
    && r.cursor <= r.submittedAt && (r.limit.Some? <==> r.orderType == LimitOrder)
    && (r.limit.Some? ==> r.limit.value > 0.0 && r.limitAsset == config.asset && Aligned(r.limit.value, config.tick))
  }

  lemma AcceptableRequests(r: Request, config: Config)
    requires config.Valid()
    ensures ValidateRequest(r, config).None? <==> Acceptable(r, config)
  {
    hide Aligned;
  }

  /** A candle the broker takes: of its instrument and asset, valid, in whole ticks and lots. */
  predicate Takes(config: Config, instrument: string, asset: string, candle: Candle)
    requires config.Valid()
  {
    && instrument == config.instrument && asset == config.asset && candle.Valid()
    && Aligned(candle.open, config.tick) && Aligned(candle.high, config.tick) && Aligned(candle.low, config.tick)
    && Aligned(candle.close, config.tick) && Aligned(candle.volume, config.lot)
  }

  lemma TakenEvents(config: Config, instrument: string, asset: string, candle: Candle)
    requires config.Valid()
    ensures ValidateEvent(config, instrument, asset, candle).None? <==> Takes(config, instrument, asset, candle)
  {
    hide Aligned;
  }

  /** A submission leaves every known order as it is exactly when its client identifier is
      known, or its order identifier is not, or it would recreate the very same order. */
  lemma SubmitKeepsOrders(config: Config, s: State, r: Request)
    requires config.Valid() && Submit(config, s, r).Ok?
    ensures (forall id :: id in s.orders ==> Submit(config, s, r).value.orders[id] == s.orders[id])
            <==> r.clientId in s.payloads || r.orderId !in s.orders || s.orders[r.orderId] == NewOrder(r)
  {
    hide ValidateRequest;
    var s' := Submit(config, s, r).value;
    if r.clientId !in s.payloads && r.orderId in s.orders {
      assert s'.orders[r.orderId] == NewOrder(r);
    }
  }
}
