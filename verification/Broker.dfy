/** The simulated broker on values: what one submission and one market event do to its
    state. The class in SimulatedBroker.dfy updates its fields in place by these rules. */
module Broker {
  import opened Decimals
  import opened Accounting
  import opened Pricing

  /** Order identifiers, compared by the order their text sorts in. */
  type Id = int

  datatype Config = Config(initialCash: real, asset: string, instrument: string, tick: real, lot: real,
                           commissionPercent: real, slippageBps: real)
  {
    predicate Valid() {
      && initialCash >= 0.0 && tick > 0.0 && lot > 0.0
      && 0.0 <= commissionPercent <= 100.0
      && 0.0 <= slippageBps < 10000.0
    }
  }

  datatype OrderType = Market | LimitOrder

  datatype Request = Request(orderId: Id, clientId: Id, strategy: string, instrument: string, side: Side,
                             orderType: OrderType, quantity: real, limit: Limit, limitAsset: string,
                             submittedAt: int, cursor: int)

  datatype Status = Accepted | Filled | Rejected

  datatype Order = Order(id: Id, clientId: Id, strategy: string, side: Side, quantity: real, limit: Limit,
                         status: Status, filled: real, submittedAt: int, updatedAt: int)

  /** One fill of one order; `raw` is the price before slippage, `number` makes its identifier
      unique. */
  datatype Trade = Trade(order: Id, fill: Fill, raw: real, commission: real, executedAt: int, number: nat)

  datatype State = State(cash: real, position: real, orders: map<Id, Order>, payloads: map<Id, Request>,
                         commissions: real, slippageCost: real, lastPrice: Option<real>, fills: nat)

  datatype Error = ClientIdConflict | InstrumentMismatch | QuantityNotPositive | QuantityNotAligned
                 | CursorAfterSubmission | LimitOnMarketOrder | LimitMissing | LimitNotPositive | AssetMismatch
                 | PriceNotAligned | InvalidCandle | NonPositivePrice

  datatype Event = CandleClose(instrument: string, asset: string, candle: Candle) | OtherEvent

  function Initial(config: Config): State {
    State(config.initialCash, 0.0, map[], map[], 0.0, 0.0, None, 0)
  }

  // ---------------------------------------------------------------------------
  // Submission
  // ---------------------------------------------------------------------------

  function ValidateRequest(r: Request, config: Config): Option<Error>
    requires config.Valid()
  {
    if r.instrument != config.instrument then Some(InstrumentMismatch)
    else if r.quantity <= 0.0 then Some(QuantityNotPositive)
    else if !Aligned(r.quantity, config.lot) then Some(QuantityNotAligned)
    else if r.submittedAt < r.cursor then Some(CursorAfterSubmission)
    else if r.orderType == Market && r.limit.Some? then Some(LimitOnMarketOrder)
    else if r.orderType == LimitOrder && r.limit.None? then Some(LimitMissing)
    else if r.limit.None? then None
    else if r.limit.value <= 0.0 then Some(LimitNotPositive)
    else if r.limitAsset != config.asset then Some(AssetMismatch)
    else if !Aligned(r.limit.value, config.tick) then Some(PriceNotAligned)
    else None
  }

  function NewOrder(r: Request): Order {
    Order(r.orderId, r.clientId, r.strategy, r.side, r.quantity, r.limit, Accepted, 0.0, r.submittedAt, r.submittedAt)
  }

  /** The asset of a limit price counts only when there is one. */
  predicate SameRequest(a: Request, b: Request) {
    a.(limitAsset := "") == b.(limitAsset := "") && (a.limit.Some? ==> a.limitAsset == b.limitAsset)
  }

  /** A repeated client identifier returns the order it already has, or conflicts. */
  function Submit(config: Config, s: State, r: Request): Result<State, Error>
    requires config.Valid()
  {
    if r.clientId in s.payloads then
      if SameRequest(s.payloads[r.clientId], r) then Ok(s) else Err(ClientIdConflict)
    else
      match ValidateRequest(r, config)
      case Some(e) => Err(e)
      case None => Ok(s.(orders := s.orders[r.orderId := NewOrder(r)], payloads := s.payloads[r.clientId := r]))
  }

  // ---------------------------------------------------------------------------
  // Filling
  // ---------------------------------------------------------------------------

  function Product(x: real, y: real): real {
    x * y
  }

  function Commission(notional: real, percent: real): real {
    Div(Product(Abs(notional), percent), 100.0)
  }

  datatype Outcome = Done(state: State, trade: Trade) | Refused | Failed

  function TryFill(config: Config, s: State, order: Order, raw: real, at: int): (r: Outcome)
    requires config.Valid()
    ensures r.Done? ==> r.state.orders == s.orders && r.state.payloads == s.payloads
  {
    hide FillPrice, Commission, Product;
    var price := FillPrice(raw, config.slippageBps, config.tick, order.side);
    if price <= 0.0 then Failed
    else
      var notional := Product(price, order.quantity);
      var commission := Commission(notional, config.commissionPercent);
      var trade := Trade(order.id, Fill(order.side, order.quantity, price), raw, commission, at, s.fills + 1);
      var next := s.(commissions := s.commissions + commission,
                     slippageCost := s.slippageCost + Abs(Product(price - raw, order.quantity)),
                     fills := s.fills + 1);
      if order.side == Buy then
        if s.cash < notional + commission then Refused
        else Done(next.(cash := s.cash - notional - commission, position := s.position + order.quantity), trade)
      else
        if s.position < order.quantity then Refused
        else Done(next.(cash := s.cash + notional - commission, position := s.position - order.quantity), trade)
  }

  /** Every order's request is on file and was validated when it was submitted. */
  predicate WellFormed(config: Config, s: State)
    requires config.Valid()
  {
    && (forall c :: c in s.payloads ==> s.payloads[c].orderId in s.orders)
    && forall id :: id in s.orders ==>
      var o := s.orders[id];
      && o.id == id && o.clientId in s.payloads && s.payloads[o.clientId].orderId == id
      && o.quantity > 0.0 && Aligned(o.quantity, config.lot)
      && (o.limit.Some? ==> Aligned(o.limit.value, config.tick) && o.limit.value > 0.0)
  }

  /** The state after some orders were offered a candle, the trades made, and whether a
      fill price fell to zero, which stops the run. */
  datatype Settlement = Settlement(state: State, trades: seq<Trade>, failed: bool)

  function Settle(config: Config, before: Settlement, id: Id, candle: Candle): (r: Settlement)
    requires config.Valid() && WellFormed(config, before.state) && id in before.state.orders
    ensures WellFormed(config, r.state) && r.state.payloads == before.state.payloads
    ensures r.state.orders.Keys == before.state.orders.Keys
  {
    hide TryFill, RawFill, Aligned;
    var s := before.state;
    var order := s.orders[id];
    if before.failed || candle.start < s.payloads[order.clientId].cursor then before
    else
      match RawFill(order.side, order.limit, candle)
      case None => before
      case Some(raw) =>
        match TryFill(config, s, order, raw, candle.start)
        case Failed => before.(failed := true)
        case Refused =>
          before.(state := s.(orders := s.orders[id := order.(status := Rejected, updatedAt := candle.start)]))
        case Done(next, trade) =>
          var filled := order.(status := Filled, filled := order.quantity, updatedAt := candle.start);
          Settlement(next.(orders := next.orders[id := filled]), before.trades + [trade], false)
  }

  function OpenIds(s: State): set<Id> {
    set id | id in s.orders && s.orders[id].status == Accepted
  }

  function SettleAll(config: Config, s: State, ids: seq<Id>, candle: Candle): (r: Settlement)
    requires config.Valid() && WellFormed(config, s)
    requires forall i :: 0 <= i < |ids| ==> ids[i] in s.orders
    ensures WellFormed(config, r.state) && r.state.payloads == s.payloads
    ensures r.state.orders.Keys == s.orders.Keys
  {
    if ids == [] then Settlement(s, [], false)
    else Settle(config, SettleAll(config, s, ids[..|ids| - 1], candle), ids[|ids| - 1], candle)
  }

  // ---------------------------------------------------------------------------
  // Identifiers are visited in sorted order, whatever order the map yields them in
  // ---------------------------------------------------------------------------

  predicate Sorted(ids: seq<Id>) {
    forall i, j :: 0 <= i < j < |ids| ==> ids[i] < ids[j]
  }

  ghost predicate Lists(ids: seq<Id>, s: set<Id>) {
    Sorted(ids) && forall id :: id in ids <==> id in s
  }

  lemma {:induction false} SortedListIsUnique(a: seq<Id>, b: seq<Id>)
    requires Sorted(a) && Sorted(b) && forall id :: id in a <==> id in b
    ensures a == b
  {
    if a == [] {
      assert forall i :: 0 <= i < |b| ==> b[i] in b;
    } else {
      assert a[0] in b && (b != [] ==> b[0] in a);
      assert a[0] == b[0];
      forall id ensures id in a[1..] <==> id in b[1..] {
        assert id in a <==> id == a[0] || id in a[1..];
        assert id in b <==> id == b[0] || id in b[1..];
      }
      SortedListIsUnique(a[1..], b[1..]);
    }
  }

  function InsertId(ids: seq<Id>, id: Id): (r: seq<Id>)
    requires Sorted(ids)
    ensures Sorted(r) && forall x :: x in r <==> x == id || x in ids
  {
    if ids == [] then [id]
    else if id < ids[0] then [id] + ids
    else if id == ids[0] then ids
    else
      var rest := InsertId(ids[1..], id);
      assert forall x :: x in ids <==> x == ids[0] || x in ids[1..];
      assert forall i :: 0 <= i < |rest| ==> rest[i] in rest;
      [ids[0]] + rest
  }

  lemma NonEmpty(s: set<Id>)
    requires s != {}
    ensures exists id :: id in s
  {
    if forall id :: id !in s {
      assert false;
    }
  }

  ghost function SortedIds(s: set<Id>): (r: seq<Id>)
    ensures Lists(r, s)
  {
    if s == {} then [] else NonEmpty(s); var x :| x in s; InsertId(SortedIds(s - {x}), x)
  }

  /** One candle offered to every accepted order. */
  ghost function OnCandle(config: Config, s: State, candle: Candle): (r: Settlement)
    requires config.Valid() && WellFormed(config, s)
    ensures WellFormed(config, r.state)
  {
    var ids := SortedIds(OpenIds(s));
    assert forall i :: 0 <= i < |ids| ==> ids[i] in ids;
    SettleAll(config, s.(lastPrice := Some(candle.close)), ids, candle)
  }

  function ValidateEvent(config: Config, instrument: string, asset: string, candle: Candle): Option<Error>
    requires config.Valid()
  {
    if instrument != config.instrument then Some(InstrumentMismatch)
    else if !candle.Valid() then Some(InvalidCandle)
    else if asset != config.asset then Some(AssetMismatch)
    else if !Aligned(candle.open, config.tick) || !Aligned(candle.high, config.tick) ||
            !Aligned(candle.low, config.tick) || !Aligned(candle.close, config.tick) then Some(PriceNotAligned)
    else if !Aligned(candle.volume, config.lot) then Some(QuantityNotAligned)
    else None
  }
}
