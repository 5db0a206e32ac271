/** The simulated broker as the object the backtest holds: fields updated in place. */
module SimulatedBrokers {
  import opened Decimals
  import opened Accounting
  import opened Pricing
  import opened Broker
  import opened OrderLife
  import opened Runs

  datatype PortfolioSnapshot = PortfolioSnapshot(cash: real, position: real, lastPrice: Option<real>, equity: real,
                                                 commissions: real, slippageCost: real)

  datatype FillResult = Traded(trade: Trade) | InsufficientFunds | InsufficientPosition | BadPrice

  class SimulatedBroker {
    const config: Config
    var cash: real
    var position: real
    var orders: map<Id, Order>
    var orderPayload: map<Id, Request>
    var commissions: real
    var slippageCost: real
    var lastPrice: Option<real>
    var fills: nat

    ghost function State(): Broker.State
      reads this
    {
      Broker.State(cash, position, orders, orderPayload, commissions, slippageCost, lastPrice, fills)
    }

    ghost predicate Valid()
      reads this
    {
      config.Valid() && WellFormed(config, State())
    }

    constructor (config: Config)
      requires config.Valid()
      ensures Valid() && this.config == config && State() == Initial(config)
    {
      this.config := config;
      cash, position, commissions, slippageCost := config.initialCash, 0.0, 0.0, 0.0;
      orders, orderPayload := map[], map[];
      lastPrice, fills := None, 0;
    }

    method Submit(request: Request) returns (r: Result<Order, Error>)
      requires Valid()
      modifies `orders, `orderPayload
      ensures Valid()
      ensures match Broker.Submit(config, old(State()), request)
              case Ok(s) => State() == s && request.orderId in s.orders && r == Ok(s.orders[request.orderId])
              case Err(e) => State() == old(State()) && r == Err(e)
      ensures r.Ok? && request.clientId !in old(orderPayload) ==>
                && Acceptable(request, config) && Waits(r.value, request)
                && orders == old(orders)[request.orderId := r.value]
                && orderPayload == old(orderPayload)[request.clientId := request]
      ensures r.Ok? && request.clientId in old(orderPayload) ==>
                SameRequest(old(orderPayload)[request.clientId], request) && State() == old(State())
    {
      hide Aligned, ValidateRequest;
      AcceptableRequests(request, config);
      if request.clientId in orderPayload {
        var prior := orderPayload[request.clientId];
        if SameRequest(prior, request) {
          return Ok(orders[prior.orderId]);
        }
        return Err(ClientIdConflict);
      }
      var invalid := ValidateRequest(request, config);
      if invalid.Some? {
        return Err(invalid.value);
      }
      SubmitWellFormed(config, State(), [request]);
      assert [request][..0] == [];
      assert SubmitAll(config, State(), [request]) == Broker.Submit(config, State(), request);
      var order := NewOrder(request);
      orders := orders[order.id := order];
      orderPayload := orderPayload[order.clientId := request];
      r := Ok(order);
    }

    /** Prices, charges and books one fill; refuses what cash or stock cannot cover. */
    method TryOrder(order: Order, raw: real, at: int) returns (r: FillResult)
      requires config.Valid()
      modifies `cash, `position, `commissions, `slippageCost, `fills
      ensures match TryFill(config, old(State()), order, raw, at)
              case Done(s, trade) => State() == s && r == Traded(trade)
              case Refused => State() == old(State()) && r == if order.side == Buy then InsufficientFunds
                  else InsufficientPosition
              case Failed => State() == old(State()) && r == BadPrice
    {
      hide FillPrice, Commission, Product;
      var price := FillPrice(raw, config.slippageBps, config.tick, order.side);
      if price <= 0.0 {
        return BadPrice;
      }
      var notional := Product(price, order.quantity);
      var commission := Commission(notional, config.commissionPercent);
      var slippage := Abs(Product(price - raw, order.quantity));
      if order.side == Buy {
        if cash < notional + commission {
          return InsufficientFunds;
        }
        cash := cash - notional - commission;
        position := position + order.quantity;
      } else {
        if position < order.quantity {
          return InsufficientPosition;
        }
        cash := cash + notional - commission;
        position := position - order.quantity;
      }
      commissions := commissions + commission;
      slippageCost := slippageCost + slippage;
      fills := fills + 1;
      r := Traded(Trade(order.id, Fill(order.side, order.quantity, price), raw, commission, at, fills));
    }

    /** Identifiers of the accepted orders. The map is walked in an arbitrary order, and
        sorting makes the outcome independent of it. */
    method AcceptedIds() returns (ids: seq<Id>)
      ensures Lists(ids, OpenIds(State()))
    {
      ids := [];
      var remaining := orders.Keys;
      while remaining != {}
        invariant remaining <= orders.Keys
        invariant Sorted(ids) && forall id :: id in ids <==> id in OpenIds(State()) && id !in remaining
        decreases |remaining|
      {
        NonEmpty(remaining);
        var id :| id in remaining;
        remaining := remaining - {id};
        if orders[id].status == Accepted {
          ids := InsertId(ids, id);
        }
      }
    }

    method OnMarketEvent(event: Event) returns (r: Result<seq<Trade>, Error>)
      requires Valid()
      modifies this
      ensures Valid()
      ensures event.OtherEvent? ==> State() == old(State()) && r == Ok([])
      ensures event.CandleClose? && !Takes(config, event.instrument, event.asset, event.candle) ==>
                State() == old(State()) && r.Err?
      ensures event.CandleClose? ==>
                var invalid := ValidateEvent(config, event.instrument, event.asset, event.candle);
                if invalid.Some? then State() == old(State()) && r == Err(invalid.value)
                else
                  var settled := OnCandle(config, old(State()), event.candle);
                  State() == settled.state && r == if settled.failed then Err(NonPositivePrice) else Ok(settled.trades)
    {
      hide Aligned, WellFormed, Settle;
      if event.OtherEvent? {
        return Ok([]);
      }
      TakenEvents(config, event.instrument, event.asset, event.candle);
      var invalid := ValidateEvent(config, event.instrument, event.asset, event.candle);
      if invalid.Some? {
        return Err(invalid.value);
      }
      r := OnCandleClose(event.candle);
    }

    /** Offers the candle to one order: passed over, filled or rejected. */
    method Visit(id: Id, candle: Candle, ghost sofar: seq<Trade>) returns (failed: bool, made: seq<Trade>)
      requires Valid() && id in orders
      modifies this
      ensures Valid()
      ensures Settlement(State(), sofar + made, failed) == Settle(config, Settlement(old(State()), sofar, false), id,
          candle)
    {
      hide Aligned, RawFill, TryFill;
      failed, made := false, [];
      var order := orders[id];
      var request := orderPayload[order.clientId];
      if candle.start < request.cursor {
        return;
      }
      var raw := RawFill(order.side, order.limit, candle);
      if raw.None? {
        return;
      }
      var outcome := TryOrder(order, raw.value, candle.start);
      if outcome.BadPrice? {
        failed := true;
      } else if outcome.Traded? {
        orders := orders[id := order.(status := Filled, filled := order.quantity, updatedAt := candle.start)];
        made := [outcome.trade];
      } else {
        orders := orders[id := order.(status := Rejected, updatedAt := candle.start)];
      }
    }

    /** The loop over the sorted identifiers. */
    method VisitAll(ids: seq<Id>, candle: Candle) returns (r: Result<seq<Trade>, Error>)
      requires Valid() && forall i :: 0 <= i < |ids| ==> ids[i] in orders
      modifies this
      ensures Valid()
      ensures var settled := SettleAll(config, old(State()), ids, candle);
              State() == settled.state && r == if settled.failed then Err(NonPositivePrice) else Ok(settled.trades)
    {
      hide WellFormed, Settle;
      ghost var before := State();
      var trades: seq<Trade> := [];
      for i := 0 to |ids|
        invariant Valid() && State().orders.Keys == before.orders.Keys
        invariant SettleAll(config, before, ids[..i], candle) == Settlement(State(), trades, false)
      {
        assert ids[..i + 1][..i] == ids[..i];
        var failed, made := Visit(ids[i], candle, trades);
        if failed {
          FailureStops(config, before, ids, i + 1, candle);
          return Err(NonPositivePrice);
        }
        trades := trades + made;
      }
      assert ids[..|ids|] == ids;
      r := Ok(trades);
    }

    method OnCandleClose(candle: Candle) returns (r: Result<seq<Trade>, Error>)
      requires Valid()
      modifies this
      ensures Valid()
      ensures var settled := OnCandle(config, old(State()), candle);
              State() == settled.state && r == if settled.failed then Err(NonPositivePrice) else Ok(settled.trades)
    {
      hide Aligned, SettleAll;
      lastPrice := Some(candle.close);
      var ids := AcceptedIds();
      assert OpenIds(State()) == OpenIds(old(State()));
      SortedListIsUnique(ids, SortedIds(OpenIds(old(State()))));
      assert forall i :: 0 <= i < |ids| ==> ids[i] in ids;
      r := VisitAll(ids, candle);
    }

    method Snapshot() returns (p: PortfolioSnapshot)
      ensures p == SnapshotOf(State())
      ensures p.cash == cash && p.position == position && p.lastPrice == lastPrice
      ensures p.commissions == commissions && p.slippageCost == slippageCost
      ensures p.equity == cash + if lastPrice.Some? then position * lastPrice.value else 0.0
    {
      var equity := cash;
      if lastPrice.Some? {
        equity := equity + position * lastPrice.value;
      }
      p := PortfolioSnapshot(cash, position, lastPrice, equity, commissions, slippageCost);
    }
  }

  function SnapshotOf(s: Broker.State): PortfolioSnapshot {
    PortfolioSnapshot(s.cash, s.position, s.lastPrice, Equity(s), s.commissions, s.slippageCost)
  }

  /** Once a fill has failed, the remaining orders are not visited. */
  lemma {:induction false} FailureStops(config: Config, s: State, ids: seq<Id>, n: nat, candle: Candle)
    requires config.Valid() && WellFormed(config, s) && n <= |ids|
    requires forall i :: 0 <= i < |ids| ==> ids[i] in s.orders
    requires SettleAll(config, s, ids[..n], candle).failed
    ensures SettleAll(config, s, ids, candle) == SettleAll(config, s, ids[..n], candle)
  {
    hide Aligned, RawFill, TryFill;
    if n == |ids| {
      assert ids[..n] == ids;
    } else {
      assert ids[..|ids| - 1][..n] == ids[..n];
      FailureStops(config, s, ids[..|ids| - 1], n, candle);
    }
  }
}
