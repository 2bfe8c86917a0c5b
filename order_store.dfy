/**
  The order record store (src/orderStore.ts): a map from order id to order
  record, changed by three entry points (order creation acknowledgements,
  push events and error notifications), with an observer that is told about
  the changes.

  The pure functions AfterCreate, AfterUpdate and AfterError give the effect
  of each entry point on the map; the class OrderRecordStore holds the
  module state and applies them in place. The observer is modelled as the
  log of the calls it receives.
 */
module OrderStore {
  import opened OrderTypes

  type Store = map<string, OrderRec>

  /** The part of an error notification the store reads. `correlationId`
      is None when the message carries none. */
  datatype ErrorMsg = ErrorMsg(id: string, correlationId: Option<string>)

  /** One call of the observer: the record now stored under `id` (None for
      undefined) and the whole map. */
  datatype Notification = Notification(id: string, rec: Option<OrderRec>, store: Store)

  datatype CreateAck = CreateAck(id: string, correlationId: string)

  /** The new map and whether the observer is called. */
  datatype Outcome = Outcome(store: Store, notify: bool)

  /** `orderRecords[id]`, with None for undefined. */
  function Lookup(m: Store, id: string): Option<OrderRec> {
    if id in m then Some(m[id]) else None
  }

  /** Every key other than `id` maps to what it mapped to before. */
  ghost predicate OnlyKeyChanged(m: Store, m': Store, id: string) {
    forall k :: k != id ==> Lookup(m', k) == Lookup(m, k)
  }

  /** What every reachable record satisfies: a record still initializing has
      no payload, a valid one has one, and a stored payload belongs to its
      key and is not closed (closed orders are deleted, not kept). */
  ghost predicate RecConsistent(k: string, r: OrderRec) {
    && (r.recStatus == Initializing ==> r.order.None?)
    && (r.recStatus == Valid ==> r.order.Some?)
    && (r.order.Some? ==> r.order.value.id == k && !r.order.value.closed)
  }

  ghost predicate Consistent(m: Store) {
    forall k :: k in m ==> RecConsistent(k, m[k])
  }

  /** Some bucket of the order is at `venueId`; false when the payload has
      no bucket list. */
  predicate InVenue(o: Order, venueId: string) {
    o.buckets.Some? && exists i :: 0 <= i < |o.buckets.value| && o.buckets.value[i].venue == venueId
  }

  /** A push event is looked at: its id is truthy and, in kitchen-display
      mode, it touches the venue. */
  predicate UpdateApplies(o: Order, isKDS: bool, venueId: string) {
    o.id != "" && (isKDS ==> InVenue(o, venueId))
  }

  /** cmdOrderCreate after the creation call returned `id` and
      `correlationId`. */
  function AfterCreate(m: Store, id: string, correlationId: string): (m': Store)
    ensures id in m'
    ensures id in m ==> m' == m
    ensures id !in m ==> m'[id] == OrderRec(None, correlationId, Initializing)
    ensures OnlyKeyChanged(m, m', id)
    ensures Consistent(m) ==> Consistent(m')
  {
    if id in m then m else m[id := OrderRec(None, correlationId, Initializing)]
  }

  /** onOrderUpdate for payload `o`. */
  function AfterUpdate(m: Store, o: Order, isKDS: bool, venueId: string): (r: Outcome)
    ensures !UpdateApplies(o, isKDS, venueId) ==> r == Outcome(m, false)
    ensures o.id !in m && o.closed ==> r == Outcome(m, false)
    ensures UpdateApplies(o, isKDS, venueId) && o.id !in m && !o.closed ==>
      r == Outcome(m[o.id := OrderRec(Some(o), "", Valid)], true)
    ensures UpdateApplies(o, isKDS, venueId) && o.id in m && !o.closed ==>
      var old_ := m[o.id];
      var status := if old_.recStatus == Initializing then Valid else old_.recStatus;
      r == Outcome(m[o.id := OrderRec(Some(o), old_.createOrderCorrelationId, status)], true)
    ensures UpdateApplies(o, isKDS, venueId) && o.id in m && o.closed ==>
      r == Outcome(m - {o.id}, true)
    ensures OnlyKeyChanged(m, r.store, o.id)
    ensures Consistent(m) ==> Consistent(r.store)
  {
    if !UpdateApplies(o, isKDS, venueId) then Outcome(m, false)
    else if o.id !in m then
      if o.closed then Outcome(m, false)
      else Outcome(m[o.id := OrderRec(Some(o), "", Valid)], true)
    else
      var rec := m[o.id];
      var promoted := if rec.recStatus == Initializing then rec.(recStatus := Valid) else rec;
      var written := promoted.(order := Some(o));
      if o.closed then Outcome(m - {o.id}, true) else Outcome(m[o.id := written], true)
  }

  /** onOrderError for message `e`. It never notifies for a record that
      was already there. */
  function AfterError(m: Store, e: ErrorMsg): (r: Outcome)
    ensures e.id == "" ==> r == Outcome(m, false)
    ensures e.id != "" && e.id !in m ==> r == Outcome(m[e.id := OrderRec(None, "", Invalid)], true)
    ensures e.id != "" && e.id in m && e.correlationId == Some(m[e.id].createOrderCorrelationId) ==>
      r == Outcome(m[e.id := m[e.id].(recStatus := Invalid)], false)
    ensures e.id != "" && e.id in m && e.correlationId != Some(m[e.id].createOrderCorrelationId) ==>
      && !r.notify
      && (m[e.id].recStatus == Initializing ==> r.store == m[e.id := m[e.id].(recStatus := Invalid)])
      && (m[e.id].recStatus != Initializing ==> r.store == m)
    ensures OnlyKeyChanged(m, r.store, e.id)
    ensures Consistent(m) ==> Consistent(r.store)
  {
    if e.id == "" then Outcome(m, false)
    else if e.id !in m then Outcome(m[e.id := OrderRec(None, "", Invalid)], true)
    else
      var rec := m[e.id];
      if e.correlationId == Some(rec.createOrderCorrelationId) then
        Outcome(m[e.id := rec.(recStatus := Invalid)], false)
      else if rec.recStatus == Initializing then
        Outcome(m[e.id := rec.(recStatus := Invalid)], false)
      else Outcome(m, false)
  }

  // ----- the module state -----

  class OrderRecordStore {
    /** orderRecords */
    var orderRecords: Store
    /** whether orderUpdateCallback is set (truthy) */
    var callbackSet: bool
    /** the calls the callback has received, oldest first */
    var notifications: seq<Notification>

    ghost predicate Valid()
      reads this
    {
      Consistent(orderRecords)
    }

    constructor ()
      ensures Valid()
      ensures orderRecords == map[] && !callbackSet && notifications == []
    {
      orderRecords := map[];
      callbackSet := false;
      notifications := [];
    }

    /** setOrderStoreUpdatedCallback; `present` says whether the new
        callback is truthy. */
    method SetOrderStoreUpdatedCallback(present: bool)
      modifies this`callbackSet
      ensures callbackSet == present
    {
      callbackSet := present;
    }

    /** `if (orderUpdateCallback) orderUpdateCallback(orderRecords[id], orderRecords)` */
    method Notify(id: string)
      modifies this`notifications
      ensures notifications == old(notifications) +
        (if callbackSet then [Notification(id, Lookup(orderRecords, id), orderRecords)] else [])
    {
      if callbackSet {
        notifications := notifications + [Notification(id, Lookup(orderRecords, id), orderRecords)];
      }
    }

    /** cmdOrderCreate; `id` and `correlationId` are what the external
        createOrder call returned. */
    method CmdOrderCreate(id: string, correlationId: string) returns (ack: CreateAck)
      requires Valid()
      modifies this`orderRecords, this`notifications
      ensures Valid()
      ensures ack == CreateAck(id, correlationId)
      ensures orderRecords == AfterCreate(old(orderRecords), id, correlationId)
      ensures notifications == old(notifications) +
        (if callbackSet then [Notification(id, Some(orderRecords[id]), orderRecords)] else [])
    {
      if id !in orderRecords {
        orderRecords := orderRecords[id := OrderRec(None, correlationId, Initializing)];
      }
      Notify(id);
      ack := CreateAck(id, correlationId);
    }

    /** onOrderUpdate */
    method OnOrderUpdate(orderData: Order, isKDS: bool, venueId: string)
      requires Valid()
      modifies this`orderRecords, this`notifications
      ensures Valid()
      ensures var r := AfterUpdate(old(orderRecords), orderData, isKDS, venueId);
        && orderRecords == r.store
        && notifications == old(notifications) +
          (if r.notify && callbackSet then [Notification(orderData.id, Lookup(orderRecords, orderData.id), orderRecords)] else [])
    {
      var id := orderData.id;
      if id == "" {
        return;
      }
      if isKDS && !InVenue(orderData, venueId) {
        return;
      }
      if id !in orderRecords {
        if orderData.closed {
          return;
        }
        orderRecords := orderRecords[id := OrderRec(Some(orderData), "", RecStatus.Valid)];
      } else {
        var rec := orderRecords[id];
        if rec.recStatus == Initializing {
          rec := rec.(recStatus := RecStatus.Valid);
          orderRecords := orderRecords[id := rec];
        }
        rec := rec.(order := Some(orderData));
        orderRecords := orderRecords[id := rec];
        if orderData.closed {
          orderRecords := orderRecords - {id};
        }
      }
      Notify(id);
    }

    /** onOrderError */
    method OnOrderError(errorMsg: ErrorMsg)
      requires Valid()
      modifies this`orderRecords, this`notifications
      ensures Valid()
      ensures var r := AfterError(old(orderRecords), errorMsg);
        && orderRecords == r.store
        && notifications == old(notifications) +
          (if r.notify && callbackSet then [Notification(errorMsg.id, Lookup(orderRecords, errorMsg.id), orderRecords)] else [])
    {
      var id := errorMsg.id;
      if id == "" {
        return;
      }
      if id !in orderRecords {
        orderRecords := orderRecords[id := OrderRec(None, "", Invalid)];
        Notify(id);
      } else {
        var rec := orderRecords[id];
        if errorMsg.correlationId == Some(rec.createOrderCorrelationId) {
          orderRecords := orderRecords[id := rec.(recStatus := Invalid)];
          return;
        }
        if rec.recStatus == Initializing {
          orderRecords := orderRecords[id := rec.(recStatus := Invalid)];
        }
      }
    }

    /** getOrderStore */
    function GetOrderStore(): Store
      reads this
    {
      orderRecords
    }

    /** clearOrderStore: the map is replaced by an empty one; the observer
        is not called. */
    method ClearOrderStore()
      modifies this`orderRecords
      ensures Valid()
      ensures orderRecords == map[]
    {
      orderRecords := map[];
    }
  }

  // ----- sequences of entry-point calls -----

  datatype Event =
    | Create(id: string, correlationId: string)
    | Update(order: Order, isKDS: bool, venueId: string)
    | Error(msg: ErrorMsg)

  /** The id an entry-point call is about. */
  function EventId(e: Event): string {
    match e
    case Create(id, _) => id
    case Update(o, _, _) => o.id
    case Error(msg) => msg.id
  }

  function Step(m: Store, e: Event): Store {
    match e
    case Create(id, cid) => AfterCreate(m, id, cid)
    case Update(o, isKDS, venueId) => AfterUpdate(m, o, isKDS, venueId).store
    case Error(msg) => AfterError(m, msg).store
  }

  /** The map after the calls `evs`, in order. */
  function Run(m: Store, evs: seq<Event>): Store
    decreases |evs|
  {
    if evs == [] then m else Run(Step(m, evs[0]), evs[1..])
  }

  /** A key that no call in the run is about keeps its record, or stays
      absent. */
  lemma {:induction false} RunFrame(m: Store, evs: seq<Event>, k: string)
    requires forall i :: 0 <= i < |evs| ==> EventId(evs[i]) != k
    ensures Lookup(Run(m, evs), k) == Lookup(m, k)
    decreases |evs|
  {
    if evs != [] {
      assert EventId(evs[0]) != k;
      assert Lookup(Step(m, evs[0]), k) == Lookup(m, k);
      RunFrame(Step(m, evs[0]), evs[1..], k);
    }
  }

  /** Every run from a consistent map (the empty one, after clearOrderStore,
      in particular) ends in a consistent map. */
  lemma {:induction false} RunConsistent(m: Store, evs: seq<Event>)
    requires Consistent(m)
    ensures Consistent(Run(m, evs))
    decreases |evs|
  {
    if evs != [] {
      RunConsistent(Step(m, evs[0]), evs[1..]);
    }
  }

  /** Only cmdOrderCreate makes INITIALIZING records: in a run without a
      creation for `k`, a record for `k` that is not initializing never
      becomes so. */
  lemma {:induction false} OnlyCreateInitializes(m: Store, evs: seq<Event>, k: string)
    requires forall i :: 0 <= i < |evs| ==> !(evs[i].Create? && evs[i].id == k)
    requires k in m ==> m[k].recStatus != Initializing
    ensures k in Run(m, evs) ==> Run(m, evs)[k].recStatus != Initializing
    decreases |evs|
  {
    if evs != [] {
      var m1 := Step(m, evs[0]);
      assert k in m1 ==> m1[k].recStatus != Initializing by {
        if EventId(evs[0]) != k {
          assert Lookup(m1, k) == Lookup(m, k);
        }
      }
      OnlyCreateInitializes(m1, evs[1..], k);
    }
  }

  /** The scenario of src/__tests__/orderStoreTest.ts: a created order is
      INITIALIZING, and an error for it without a correlation id makes it
      INVALID. */
  lemma CreateThenUncorrelatedError(m: Store, id: string, cid: string, message: ErrorMsg)
    requires id != "" && id !in m && message == ErrorMsg(id, None)
    ensures AfterCreate(m, id, cid)[id].recStatus == Initializing
    ensures AfterError(AfterCreate(m, id, cid), message).store[id].recStatus == Invalid
  {
  }

  /** A created order becomes VALID on its first push event, and is deleted
      (the observer receiving undefined) by a closed one. */
  lemma CreateThenUpdates(m: Store, id: string, cid: string, open: Order, closed: Order)
    requires id != "" && id !in m
    requires open.id == id && !open.closed && closed.id == id && closed.closed
    ensures var m1 := AfterUpdate(AfterCreate(m, id, cid), open, false, "").store;
      && m1[id] == OrderRec(Some(open), cid, Valid)
      && AfterUpdate(m1, closed, false, "") == Outcome(m, true)
  {
    var m0 := AfterCreate(m, id, cid);
    var m1 := AfterUpdate(m0, open, false, "").store;
    assert m1 - {id} == m;
  }

  /** An error correlated to the creation marks the record INVALID without
      notifying, and leaves every other record alone. */
  lemma CreateThenCorrelatedError(m: Store, id: string, cid: string)
    requires id != "" && id !in m
    ensures var m1 := AfterError(AfterCreate(m, id, cid), ErrorMsg(id, Some(cid)));
      && m1 == Outcome(m[id := OrderRec(None, cid, Invalid)], false)
  {
  }
}
