/** Every run of the ledger: stream staging, history staging, drains and commission
    observations in any order, with new orders, duplicates, failures and restarts in between. A failed
    transaction changes nothing and a restart loses nothing, so a run is a sequence of
    attempted transactions on the durable tables. */
module LedgerRuns {
  import opened Decimals
  import opened Accounting
  import opened Ledger
  import opened LedgerLemmas
  import opened LedgerInvariant

  datatype Op = StageOp(execution: Execution, receivedAt: int, day: Name)
              | ApplyOp(key: Name)
              | ObserveOp(order: Name, amount: real, asset: Name, observedAt: int, day: Name)
              | PlaceOp(order: Name, row: OrderRow)

  ghost function Do(t: Tables, op: Op): (r: Result<Tables, LedgerError>)
    requires Sound(t)
    ensures r.Ok? ==> Sound(r.value)
  {
    hide Stage, Apply, Observe, Place, Keyed, Filled, Positions, Watermarks, Balanced, Events;
    match op
    case StageOp(e, receivedAt, day) =>
      var r := Stage(t, e, receivedAt, day);
      if r.Ok? then StageKeepsSound(t, e, receivedAt, day); r else r
    case ApplyOp(key) =>
      SoundIsLong(t);
      SoundIsStaged(t);
      var r := Apply(t, key);
      if r.Ok? then ApplyKeepsSound(t, key); r else r
    case ObserveOp(order, amount, asset, observedAt, day) =>
      var r := Observe(t, order, amount, asset, observedAt, day);
      if r.Ok? then ObserveKeepsSound(t, order, amount, asset, observedAt, day); r else r
    case PlaceOp(order, row) =>
      var r := Place(t, order, row);
      if r.Ok? then PlaceKeepsSound(t, order, row); r else r
  }

  lemma SoundIsStaged(t: Tables)
    requires Keyed(t)
    ensures StagedValid(t)
  {
  }

  lemma SoundIsUsable(t: Tables)
    requires Sound(t)
    ensures LongOnly(t) && StagedValid(t)
  {
    hide Recordings, Filled, Watermarks, Balanced, Events;
    SoundIsLong(t);
  }

  ghost function Step(t: Tables, op: Op): (t': Tables)
    requires Sound(t)
    ensures Sound(t')
  {
    var r := Do(t, op);
    if r.Ok? then r.value else t
  }

  ghost function After(t: Tables, ops: seq<Op>): (t': Tables)
    requires Sound(t)
    ensures Sound(t')
  {
    if ops == [] then t else Step(After(t, ops[..|ops| - 1]), ops[|ops| - 1])
  }

  // ---------------------------------------------------------------------------
  // What no transaction ever undoes
  // ---------------------------------------------------------------------------

  /** Recorded fills are only appended, entries keep their fill and stay applied, fill
      levels and watermarks only rise, and a rise is charged exactly once. */
  ghost predicate Extends(t: Tables, t': Tables) {
    && |t.executions| <= |t'.executions| && t'.executions[..|t.executions|] == t.executions
    && t.inbox.Keys <= t'.inbox.Keys && (forall k :: k in t.inbox ==> SameEntry(t.inbox[k], t'.inbox[k]))
    && t.orders.Keys <= t'.orders.Keys && (forall o :: o in t.orders ==> SameOrder(t.orders[o], t'.orders[o]))
    && (forall o :: Rises(t, t', o))
  }

  predicate SameEntry(before: Staged, after: Staged) {
    after == before.(applied := after.applied) && (before.applied ==> after.applied)
  }

  predicate SameOrder(before: OrderRow, after: OrderRow) {
    after == before.(filled := after.filled, status := after.status) && before.filled <= after.filled
  }

  ghost predicate Rises(t: Tables, t': Tables, o: Name) {
    Level(t', o) - Level(t, o) == Charged(t'.profits, o) - Charged(t.profits, o) >= 0.0
  }

  lemma ExtendsTransitive(t: Tables, u: Tables, v: Tables)
    requires Extends(t, u) && Extends(u, v)
    ensures Extends(t, v)
  {
    hide Level, Charged;
    assert v.executions[..|t.executions|] == v.executions[..|u.executions|][..|t.executions|];
    forall o ensures Rises(t, v, o) {
      assert Rises(t, u, o) && Rises(u, v, o);
    }
  }

  lemma StageExtends(t: Tables, e: Execution, receivedAt: int, day: Name)
    requires Sound(t) && Stage(t, e, receivedAt, day).Ok?
    ensures Extends(t, Stage(t, e, receivedAt, day).value)
  {
    hide Keyed, Filled, Positions, Watermarks, Balanced, Events;
    StageKeepsSound(t, e, receivedAt, day);
  }

  lemma ObserveExtends(t: Tables, order: Name, amount: real, asset: Name, observedAt: int, day: Name)
    requires Sound(t) && Observe(t, order, amount, asset, observedAt, day).Ok?
    ensures Extends(t, Observe(t, order, amount, asset, observedAt, day).value)
  {
    hide Keyed, Filled, Positions, Watermarks, Balanced, Events, Observe, Charged, Stored;
    ObserveRaises(t, order, amount, asset, observedAt, day);
  }

  lemma ProjectedExtends(t: Tables, key: Name, e: Execution, receivedAt: int, t': Tables)
    requires LongOnly(t) && e.Valid() && Projected(t, key, e, receivedAt, t')
    ensures t'.orders.Keys == t.orders.Keys && forall o :: o in t.orders ==> SameOrder(t.orders[o], t'.orders[o])
    ensures forall o :: Rises(t, t', o)
  {
    hide Charged, Stored, ApplyLong, Find, HasId, FillSum;
    forall o ensures Rises(t, t', o) {
      Append(t.executions, Recorded(key, e, receivedAt), o, e.Held(), key);
    }
  }

  lemma ApplyExtends(t: Tables, key: Name)
    requires Sound(t) && LongOnly(t) && StagedValid(t) && Apply(t, key).Ok?
    ensures Extends(t, Apply(t, key).value)
  {
    hide Keyed, Filled, Positions, Watermarks, Balanced, Events, Apply, Charged, Stored, ApplyLong, Find, HasId,
         Projected, Level;
    ApplyKeepsSound(t, key);
    var t' := Apply(t, key).value;
    if Find(t.executions, key).None? {
      var e, projected := t.inbox[key].execution, t'.(inbox := t.inbox);
      ProjectedExtends(t, key, e, t.inbox[key].receivedAt, projected);
      ProjectedRows(t, key, e, t.inbox[key].receivedAt, projected);
      forall o ensures Rises(t, t', o) {
        assert Rises(t, projected, o);
        SameLevel(projected, t', o);
      }
    } else {
      forall o ensures Rises(t, t', o) {
        SameLevel(t, t', o);
      }
    }
  }

  lemma SameLevel(t: Tables, t': Tables, o: Name)
    requires t'.commissions == t.commissions && t'.executions == t.executions
    ensures Level(t', o) == Level(t, o)
  {
  }

  lemma ProjectedRows(t: Tables, key: Name, e: Execution, receivedAt: int, t': Tables)
    requires LongOnly(t) && e.Valid() && Projected(t, key, e, receivedAt, t')
    ensures t'.executions == t.executions + [Recorded(key, e, receivedAt)]
  {
    hide ChargedOnce, ApplyLong, HasId, FillSum, Level;
  }

  lemma PlaceExtends(t: Tables, order: Name, row: OrderRow)
    requires Place(t, order, row).Ok?
    ensures Extends(t, Place(t, order, row).value)
  {
    hide Charged, Stored;
  }

  /** Over any run: nothing recorded is lost or altered, and for every order the commission
      charged to profit and loss is exactly the rise of its watermark. */
  lemma {:induction false} RunsExtend(t: Tables, ops: seq<Op>)
    requires Sound(t)
    ensures Extends(t, After(t, ops))
  {
    hide Keyed, Filled, Positions, Watermarks, Balanced, Events, Stage, Apply, Observe;
    if ops == [] {
      hide Level, Charged;
      assert Extends(t, t);
    } else {
      hide Extends, Sound;
      var before, op := After(t, ops[..|ops| - 1]), ops[|ops| - 1];
      RunsExtend(t, ops[..|ops| - 1]);
      StepExtends(before, op);
      ExtendsTransitive(t, before, After(t, ops));
    }
  }

  lemma StepExtends(t: Tables, op: Op)
    requires Sound(t)
    ensures Extends(t, Step(t, op))
  {
    hide Keyed, Filled, Positions, Watermarks, Balanced, Events, Stage, Apply, Observe, Extends;
    if Do(t, op).Ok? {
      match op
      case StageOp(e, receivedAt, day) => StageExtends(t, e, receivedAt, day);
      case ApplyOp(key) => SoundIsLong(t); SoundIsStaged(t); ApplyExtends(t, key);
      case ObserveOp(order, amount, asset, observedAt, day) => ObserveExtends(t, order, amount, asset, observedAt, day);
      case PlaceOp(order, row) => PlaceExtends(t, order, row);
    } else {
      ExtendsItself(t);
    }
  }

  lemma ExtendsItself(t: Tables)
    ensures Extends(t, t)
  {
    hide Level, Charged;
  }

  /** A database that holds only unfilled orders is where such runs may start. */
  lemma NewLedgerIsSound(orders: map<Name, OrderRow>)
    requires forall o :: o in orders ==> 0.0 <= orders[o].filled <= orders[o].requested
    ensures var t := Tables(orders, map[], [], map[], map[], [], []);
            Sound(t) && Covered(t) && forall o :: Level(t, o) == 0.0
  {
    var t := Tables(orders, map[], [], map[], map[], [], []);
    forall h ensures Folded(t, h) {
      assert FillsFor([], h) == [];
    }
  }

  // ---------------------------------------------------------------------------
  // Exactly once
  // ---------------------------------------------------------------------------

  /** Nothing was recorded except through the inbox. */
  predicate Covered(t: Tables) {
    forall i :: 0 <= i < |t.executions| ==> t.executions[i].key in t.inbox && t.inbox[t.executions[i].key].applied
  }

  lemma StepKeepsCovered(t: Tables, op: Op)
    requires Sound(t) && Covered(t)
    ensures Covered(Step(t, op))
  {
    hide Keyed, Filled, Positions, Watermarks, Balanced, Events, Stage, Apply, Observe, Find, FillSum, ApplyLong,
         HasId, ChargedOnce;
    if Do(t, op).Ok? {
      match op
      case StageOp(e, receivedAt, day) => StageKeepsSound(t, e, receivedAt, day);
      case ApplyOp(key) => SoundIsLong(t); SoundIsStaged(t); ApplyKeepsSound(t, key);
      case ObserveOp(order, amount, asset, observedAt, day) => ObserveRaises(t, order, amount, asset, observedAt, day);
      case PlaceOp(_, _) =>
    }
  }

  /** After any run, every key has exactly one recorded fill if its entry was applied and
      none otherwise, and it is the fill that was staged. */
  lemma {:induction false} AppliedExactlyOnce(t: Tables, ops: seq<Op>, key: Name)
    requires Sound(t) && Covered(t)
    ensures var t' := After(t, ops);
            && Covered(t')
            && (Find(t'.executions, key).Some? <==> key in t'.inbox && t'.inbox[key].applied)
            && (forall i, j :: 0 <= i < j < |t'.executions| ==> t'.executions[i].key != t'.executions[j].key)
            && (Find(t'.executions, key).Some? ==>
                  Find(t'.executions, key).value.Identity() == t'.inbox[key].execution.Identity())
  {
    hide Filled, Positions, Watermarks, Balanced, Events;
    if ops != [] {
      hide Keyed;
      AppliedExactlyOnce(t, ops[..|ops| - 1], key);
      StepKeepsCovered(After(t, ops[..|ops| - 1]), ops[|ops| - 1]);
    }
    CoveredKeys(After(t, ops), key);
  }

  lemma CoveredKeys(t: Tables, key: Name)
    requires Keyed(t) && Covered(t)
    ensures Find(t.executions, key).Some? <==> key in t.inbox && t.inbox[key].applied
    ensures forall i, j :: 0 <= i < j < |t.executions| ==> t.executions[i].key != t.executions[j].key
    ensures Find(t.executions, key).Some? ==>
        Find(t.executions, key).value.Identity() == t.inbox[key].execution.Identity()
  {
    hide Find;
    FindIn(t.executions, key);
  }
}
