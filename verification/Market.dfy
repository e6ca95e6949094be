/**
  The demo market's transactions (examples/live-market/marketStore.js). Each Lua script is one atomic
  step on stock, orders, fulfilment events and the idempotency journal. An order id is the number that
  the script formats as M00001; time to live of journal and checkout keys is not modelled.
 */
module Market {
  import opened Wrappers
  import opened TurnTypes

  type Sku = string
  type OrderId = nat
  /** The key a turn's handler passes; a call without one is not journalled. */
  type Key = Fingerprint

  datatype Item = Item(sku: Sku, quantity: nat)
  datatype Status = Placed | Cancelled
  datatype Order = Order(phone: string, items: seq<Item>, pickup: string, total: int, status: Status)
  datatype Update = Update(version: int, eventId: string, status: string)

  /** What PLACE_ORDER answers: out of stock, created, or the order this checkout already has. */
  datatype PlaceResult =
    | OutOfStock(sku: Sku, available: int)
    | Created(id: OrderId)
    | Existing(id: OrderId, status: Option<Status>)

  datatype CancelResult = NoSuchOrder | NotPlaced | Cancel

  /** One journal key belongs to one kind of operation; a script that reads the other kind fails. */
  datatype Entry = PlaceEntry(place: PlaceResult) | CancelEntry(cancel: CancelResult)

  datatype Market = Market(stock: map<Sku, int>, orders: map<OrderId, Order>, sequence: nat,
                           checkouts: map<string, OrderId>, updates: map<OrderId, Update>,
                           journal: map<Key, Entry>, listings: map<string, seq<OrderId>>)

  function Stock(m: Market, sku: Sku): int { if sku in m.stock then m.stock[sku] else 0 }

  function Journalled(m: Market, key: Option<Key>): Option<Entry> {
    if key.Some? && key.value in m.journal then Some(m.journal[key.value]) else None
  }

  function Record(m: Market, key: Option<Key>, entry: Entry): Market {
    if key.Some? then m.(journal := m.journal[key.value := entry]) else m
  }

  /** The first item the stock cannot cover. */
  function FirstShort(m: Market, items: seq<Item>): Option<Item> {
    if items == [] then None
    else if Stock(m, items[0].sku) < items[0].quantity then Some(items[0])
    else FirstShort(m, items[1..])
  }

  /** HINCRBY for every item, in order. */
  function Moved(stock: map<Sku, int>, items: seq<Item>, sign: int): map<Sku, int> {
    if items == [] then stock
    else
      var rest := Moved(stock, items[..|items| - 1], sign);
      var last := items[|items| - 1];
      rest[last.sku := (if last.sku in rest then rest[last.sku] else 0) + sign * last.quantity]
  }

  function Listing(m: Market, phone: string): seq<OrderId> { if phone in m.listings then m.listings[phone] else [] }

  function PlaceOutcome(m: Market, session: string, items: seq<Item>): PlaceResult {
    if session in m.checkouts then
      var id := m.checkouts[session];
      Existing(id, if id in m.orders then Some(m.orders[id].status) else None)
    else
      var short := FirstShort(m, items);
      if short.Some? then OutOfStock(short.value.sku, Stock(m, short.value.sku)) else Created(m.sequence + 1)
  }

  /** PLACE_ORDER. None is the script error of a key journalled by a cancellation. */
  function Place(m: Market, session: string, order: Order, key: Option<Key>): (Market, Option<PlaceResult>) {
    var done := Journalled(m, key);
    if done.Some? then (m, if done.value.PlaceEntry? then Some(done.value.place) else None)
    else
      var result := PlaceOutcome(m, session, order.items);
      var m' := if result.Created? then
          m.(stock := Moved(m.stock, order.items, -1), orders := m.orders[result.id := order], sequence := result.id,
             checkouts := m.checkouts[session := result.id],
             listings := m.listings[order.phone := [result.id] + Listing(m, order.phone)])
        else m;
      (Record(m', key, PlaceEntry(result)), Some(result))
  }

  function CancelOutcome(m: Market, id: OrderId, phone: string): CancelResult {
    if id !in m.orders || m.orders[id].phone != phone then NoSuchOrder
    else if m.orders[id].status != Placed then NotPlaced
    else Cancel
  }

  /** CANCEL_ORDER. None is the answer to a key journalled by a placement: text no caller recognises. */
  function CancelOrder(m: Market, id: OrderId, phone: string, key: Option<Key>): (Market, Option<CancelResult>) {
    var done := Journalled(m, key);
    if done.Some? then (m, if done.value.CancelEntry? then Some(done.value.cancel) else None)
    else
      var result := CancelOutcome(m, id, phone);
      var m' := if result.Cancel? then
          m.(stock := Moved(m.stock, m.orders[id].items, 1), orders := m.orders[id := m.orders[id].(status := Cancelled)])
        else m;
      (Record(m', key, CancelEntry(result)), Some(result))
  }

  datatype EventResult = Missing | StaleVersion | Disagrees | Repeated | Closed | Taken

  function EventOutcome(m: Market, id: OrderId, u: Update): EventResult {
    if id !in m.orders then Missing
    else if id in m.updates && u.version < m.updates[id].version then StaleVersion
    else if id in m.updates && u.eventId == m.updates[id].eventId && u.version != m.updates[id].version then Disagrees
    else if id in m.updates && u.version == m.updates[id].version then
      if m.updates[id].eventId == u.eventId && m.updates[id].status == u.status then Repeated else Disagrees
    else if m.orders[id].status != Placed then Closed
    else Taken
  }

  /** ORDER_EVENT: a fulfilment update is recorded or refused. */
  function OrderEvent(m: Market, id: OrderId, u: Update): (Market, EventResult) {
    var result := EventOutcome(m, id, u);
    (if result.Taken? then m.(updates := m.updates[id := u]) else m, result)
  }

  /** The market before its first transaction. */
  function Seed(stock: map<Sku, int>): Market { Market(stock, map[], 0, map[], map[], map[], map[]) }

  /** The store the scripts run on. */
  class MarketStore {
    var state: Market

    constructor (stock: map<Sku, int>)
      ensures state == Seed(stock)
    {
      state := Seed(stock);
    }

    method PlaceOrder(session: string, order: Order, key: Option<Key>) returns (result: Option<PlaceResult>)
      modifies this
      ensures (state, result) == Place(old(state), session, order, key)
    {
      if key.Some? && key.value in state.journal {
        return if state.journal[key.value].PlaceEntry? then Some(state.journal[key.value].place) else None;
      }
      if session in state.checkouts {
        var id := state.checkouts[session];
        var found := Existing(id, if id in state.orders then Some(state.orders[id].status) else None);
        Finish(key, PlaceEntry(found));
        return Some(found);
      }
      var items := order.items;
      var i := 0;
      while i < |items|
        invariant 0 <= i <= |items|
        invariant FirstShort(state, items) == FirstShort(state, items[i..])
        invariant state == old(state)
      {
        var available := Stock(state, items[i].sku);
        if available < items[i].quantity {
          Finish(key, PlaceEntry(OutOfStock(items[i].sku, available)));
          return Some(OutOfStock(items[i].sku, available));
        }
        assert items[i..][1..] == items[i + 1..];
        i := i + 1;
      }
      var id := state.sequence + 1;
      state := state.(sequence := id);
      i := 0;
      while i < |items|
        invariant 0 <= i <= |items|
        invariant state == old(state).(sequence := id, stock := Moved(old(state).stock, items[..i], -1))
      {
        assert items[..i + 1][..i] == items[..i];
        state := state.(stock := state.stock[items[i].sku := Stock(state, items[i].sku) - items[i].quantity]);
        i := i + 1;
      }
      assert items[..i] == items;
      state := state.(orders := state.orders[id := order],
                      listings := state.listings[order.phone := [id] + Listing(state, order.phone)],
                      checkouts := state.checkouts[session := id]);
      Finish(key, PlaceEntry(Created(id)));
      return Some(Created(id));
    }

    method Finish(key: Option<Key>, entry: Entry)
      modifies this
      ensures state == Record(old(state), key, entry)
    {
      if key.Some? {
        state := state.(journal := state.journal[key.value := entry]);
      }
    }

    method Cancel(id: OrderId, phone: string, key: Option<Key>) returns (result: Option<CancelResult>)
      modifies this
      ensures (state, result) == CancelOrder(old(state), id, phone, key)
    {
      if key.Some? && key.value in state.journal {
        return if state.journal[key.value].CancelEntry? then Some(state.journal[key.value].cancel) else None;
      }
      if id !in state.orders || state.orders[id].phone != phone {
        Finish(key, CancelEntry(NoSuchOrder));
        return Some(NoSuchOrder);
      }
      var order := state.orders[id];
      if order.status != Placed {
        Finish(key, CancelEntry(NotPlaced));
        return Some(NotPlaced);
      }
      var i := 0;
      while i < |order.items|
        invariant 0 <= i <= |order.items|
        invariant state == old(state).(stock := Moved(old(state).stock, order.items[..i], 1))
      {
        assert order.items[..i + 1][..i] == order.items[..i];
        state := state.(stock := state.stock[order.items[i].sku := Stock(state, order.items[i].sku) + order.items[i].quantity]);
        i := i + 1;
      }
      assert order.items[..i] == order.items;
      state := state.(orders := state.orders[id := order.(status := Cancelled)]);
      Finish(key, CancelEntry(CancelResult.Cancel));
      return Some(CancelResult.Cancel);
    }

    method AcceptEvent(id: OrderId, u: Update) returns (result: EventResult)
      modifies this
      ensures (state, result) == OrderEvent(old(state), id, u)
      ensures !result.Taken? ==> state == old(state)
      ensures result.Taken? ==> state == old(state).(updates := old(state).updates[id := u])
    {
      if id !in state.orders { return Missing; }
      if id in state.updates {
        var item := state.updates[id];
        if u.version < item.version { return StaleVersion; }
        if u.eventId == item.eventId && u.version != item.version { return Disagrees; }
        if u.version == item.version {
          if item.eventId == u.eventId && item.status == u.status { return Repeated; }
          return Disagrees;
        }
      }
      if state.orders[id].status != Placed { return Closed; }
      state := state.(updates := state.updates[id := u]);
      return Taken;
    }
  }

  // ---- conservation ----

  function Quantity(items: seq<Item>, sku: Sku): int {
    if items == [] then 0
    else Quantity(items[..|items| - 1], sku) + (if items[|items| - 1].sku == sku then items[|items| - 1].quantity else 0)
  }

  /** Quantity of a product in placed orders numbered up to n. */
  function Reserved(orders: map<OrderId, Order>, n: nat, sku: Sku): int {
    if n == 0 then 0
    else Reserved(orders, n - 1, sku)
         + (if n in orders && orders[n].status == Placed then Quantity(orders[n].items, sku) else 0)
  }

  /** A cart is an object keyed by product, so its items name distinct products. */
  ghost predicate DistinctItems(items: seq<Item>) {
    forall i, j | 0 <= i < j < |items| :: items[i].sku != items[j].sku
  }

  /** Orders are numbered from one without gaps, and stock plus reservations equals what was seeded. */
  ghost predicate Conserved(m: Market, seeded: map<Sku, int>) {
    && (forall id :: id in m.orders <==> 1 <= id <= m.sequence)
    && (forall sku :: Stock(m, sku) >= 0)
    && (forall sku :: Stock(m, sku) + Reserved(m.orders, m.sequence, sku) == (if sku in seeded then seeded[sku] else 0))
    && (forall session <- m.checkouts :: m.checkouts[session] in m.orders)
    && (forall id <- m.updates :: id in m.orders)
  }

  lemma {:induction false} QuantityNonNegative(items: seq<Item>, sku: Sku)
    ensures Quantity(items, sku) >= 0
  {
    if items != [] { QuantityNonNegative(items[..|items| - 1], sku); }
  }

  lemma {:induction false} MovedBy(stock: map<Sku, int>, items: seq<Item>, sign: int, sku: Sku)
    requires sign == 1 || sign == -1
    ensures var moved := Moved(stock, items, sign);
      (if sku in moved then moved[sku] else 0) == (if sku in stock then stock[sku] else 0) + sign * Quantity(items, sku)
  {
    if items != [] { MovedBy(stock, items[..|items| - 1], sign, sku); }
  }

  /** With distinct products, checking each item alone covers the whole cart. */
  lemma {:induction false} EnoughStock(m: Market, items: seq<Item>, sku: Sku)
    requires DistinctItems(items) && FirstShort(m, items).None? && Stock(m, sku) >= 0
    ensures Quantity(items, sku) <= Stock(m, sku)
  {
    if i :| 0 <= i < |items| && items[i].sku == sku {
      OnlyItem(items, i, |items|);
      CoversItem(m, items, i);
      assert items[..|items|] == items;
    } else {
      AbsentItem(items, sku);
    }
  }

  lemma {:induction false} CoversItem(m: Market, items: seq<Item>, i: nat)
    requires i < |items| && FirstShort(m, items).None?
    ensures items[i].quantity <= Stock(m, items[i].sku)
  {
    if i > 0 { CoversItem(m, items[1..], i - 1); }
  }

  lemma {:induction false} AbsentItem(items: seq<Item>, sku: Sku)
    requires forall i | 0 <= i < |items| :: items[i].sku != sku
    ensures Quantity(items, sku) == 0
  {
    if items != [] { AbsentItem(items[..|items| - 1], sku); }
  }

  lemma {:induction false} OnlyItem(items: seq<Item>, i: nat, n: nat)
    requires i < |items| && n <= |items| && DistinctItems(items)
    ensures Quantity(items[..n], items[i].sku) == if i < n then items[i].quantity else 0
  {
    if n > 0 {
      OnlyItem(items, i, n - 1);
      assert items[..n][..n - 1] == items[..n - 1];
    }
  }

  lemma {:induction false} ReservedUnchanged(a: map<OrderId, Order>, b: map<OrderId, Order>, n: nat, sku: Sku)
    requires forall id | 1 <= id <= n :: (id in a <==> id in b) && (id in a ==> a[id] == b[id])
    ensures Reserved(a, n, sku) == Reserved(b, n, sku)
  {
    if n > 0 { ReservedUnchanged(a, b, n - 1, sku); }
  }

  lemma {:induction false} ReservedAfterCancel(orders: map<OrderId, Order>, id: OrderId, n: nat, sku: Sku)
    requires id in orders && orders[id].status == Placed && 1 <= id
    ensures Reserved(orders[id := orders[id].(status := Cancelled)], n, sku)
            == Reserved(orders, n, sku) - (if id <= n then Quantity(orders[id].items, sku) else 0)
  {
    if n > 0 { ReservedAfterCancel(orders, id, n - 1, sku); }
  }

  lemma PlacedMarket(m: Market, session: string, order: Order, key: Option<Key>)
    requires Journalled(m, key).None? && Place(m, session, order, key).1.value.Created?
    ensures PlaceOutcome(m, session, order.items) == Created(m.sequence + 1)
    ensures var m' := Place(m, session, order, key).0;
      && m'.stock == Moved(m.stock, order.items, -1) && m'.orders == m.orders[m.sequence + 1 := order] && m'.sequence == m.sequence + 1
  {
  }

  lemma PlaceMoves(m: Market, seeded: map<Sku, int>, session: string, order: Order, key: Option<Key>, sku: Sku)
    requires Conserved(m, seeded) && DistinctItems(order.items) && order.status == Placed
    requires Journalled(m, key).None? && Place(m, session, order, key).1.value.Created?
    ensures var m' := Place(m, session, order, key).0;
      && Stock(m', sku) >= 0
      && Stock(m', sku) + Reserved(m'.orders, m'.sequence, sku) == Stock(m, sku) + Reserved(m.orders, m.sequence, sku)
  {
    var m' := Place(m, session, order, key).0;
    PlacedMarket(m, session, order, key);
    hide Place;
    MovedBy(m.stock, order.items, -1, sku);
    EnoughStock(m, order.items, sku);
    ReservedUnchanged(m.orders, m'.orders, m.sequence, sku);
    hide PlaceOutcome, Moved, Quantity;
  }

  lemma PlaceConserves(m: Market, seeded: map<Sku, int>, session: string, order: Order, key: Option<Key>)
    requires Conserved(m, seeded) && DistinctItems(order.items) && order.status == Placed
    ensures Conserved(Place(m, session, order, key).0, seeded)
  {
    var (m', result) := Place(m, session, order, key);
    if Journalled(m, key).None? && result.value.Created? {
      forall sku
        ensures Stock(m', sku) >= 0
        ensures Stock(m', sku) + Reserved(m'.orders, m'.sequence, sku) == Stock(m, sku) + Reserved(m.orders, m.sequence, sku)
      {
        PlaceMoves(m, seeded, session, order, key, sku);
      }
    } else {
      assert m'.stock == m.stock && m'.orders == m.orders;
      assert forall sku :: Stock(m', sku) == Stock(m, sku);
    }
  }

  lemma CancelConserves(m: Market, seeded: map<Sku, int>, id: OrderId, phone: string, key: Option<Key>)
    requires Conserved(m, seeded)
    ensures Conserved(CancelOrder(m, id, phone, key).0, seeded)
  {
    var (m', result) := CancelOrder(m, id, phone, key);
    if Journalled(m, key).None? && result.value.Cancel? {
      forall sku
        ensures Stock(m', sku) >= 0
        ensures Stock(m', sku) + Reserved(m'.orders, m'.sequence, sku) == Stock(m, sku) + Reserved(m.orders, m.sequence, sku)
      {
        MovedBy(m.stock, m.orders[id].items, 1, sku);
        QuantityNonNegative(m.orders[id].items, sku);
        ReservedAfterCancel(m.orders, id, m.sequence, sku);
      }
    } else {
      assert m'.stock == m.stock && m'.orders == m.orders;
      assert forall sku :: Stock(m', sku) == Stock(m, sku);
    }
  }

  // ---- runs ----

  datatype Op =
    | PlaceOp(session: string, order: Order, placeKey: Option<Key>)
    | CancelOp(id: OrderId, phone: string, cancelKey: Option<Key>)
    | EventOp(eventOrder: OrderId, update: Update)

  function Perform(m: Market, op: Op): Market {
    match op
    case PlaceOp(session, order, key) => Place(m, session, order, key).0
    case CancelOp(id, phone, key) => CancelOrder(m, id, phone, key).0
    case EventOp(id, u) => OrderEvent(m, id, u).0
  }

  /** What placeOrder builds from a cart: a new order over distinct products. */
  ghost predicate WellFormed(op: Op) {
    op.PlaceOp? ==> DistinctItems(op.order.items) && op.order.status == Placed
  }

  function PerformAll(m: Market, ops: seq<Op>): Market
    decreases |ops|
  {
    if ops == [] then m else PerformAll(Perform(m, ops[0]), ops[1..])
  }

  /** Nothing is created or lost: over every run, stock plus placed quantities is the seeded amount, and stock is never negative. */
  lemma {:induction false} RunConserves(m: Market, seeded: map<Sku, int>, ops: seq<Op>)
    requires Conserved(m, seeded) && forall op <- ops :: WellFormed(op)
    ensures Conserved(PerformAll(m, ops), seeded)
    decreases |ops|
  {
    if ops != [] {
      assert WellFormed(ops[0]);
      match ops[0]
      case PlaceOp(session, order, key) =>
        PlaceConserves(m, seeded, session, order, key);
        RunConserves(Perform(m, ops[0]), seeded, ops[1..]);
      case CancelOp(id, phone, key) =>
        CancelConserves(m, seeded, id, phone, key);
        RunConserves(Perform(m, ops[0]), seeded, ops[1..]);
      case EventOp(id, u) =>
        assert Perform(m, ops[0]).stock == m.stock && forall sku :: Stock(Perform(m, ops[0]), sku) == Stock(m, sku);
        RunConserves(Perform(m, ops[0]), seeded, ops[1..]);
    }
  }

  lemma SeededConserves(seeded: map<Sku, int>, ops: seq<Op>)
    requires (forall sku <- seeded :: seeded[sku] >= 0) && forall op <- ops :: WellFormed(op)
    ensures Conserved(PerformAll(Seed(seeded), ops), seeded)
    ensures forall phone :: Lists(PerformAll(Seed(seeded), ops), phone)
  {
    assert Conserved(Seed(seeded), seeded);
    RunConserves(Seed(seeded), seeded, ops);
    forall phone
      ensures Lists(PerformAll(Seed(seeded), ops), phone)
    {
      assert Lists(Seed(seeded), phone);
      RunLists(Seed(seeded), seeded, ops, phone);
    }
  }

  /** How one step may change what earlier steps settled: the journal and an order's terms never, its status once, its version upwards. */
  ghost predicate Settled(m: Market, m': Market) {
    && (forall key <- m.journal :: key in m'.journal && m'.journal[key] == m.journal[key])
    && (forall id <- m.orders :: id in m'.orders && m'.orders[id].(status := Placed) == m.orders[id].(status := Placed)
                                 && (m.orders[id].status == Cancelled ==> m'.orders[id].status == Cancelled))
    && (forall id <- m.updates :: id in m'.updates && m'.updates[id].version >= m.updates[id].version
                                  && (m'.updates[id] == m.updates[id] || m'.updates[id].version > m.updates[id].version))
    && (forall session <- m.checkouts :: session in m'.checkouts && m'.checkouts[session] == m.checkouts[session])
    && m.sequence <= m'.sequence
  }

  lemma PlaceSettles(m: Market, seeded: map<Sku, int>, session: string, order: Order, key: Option<Key>)
    requires Conserved(m, seeded)
    ensures Settled(m, Place(m, session, order, key).0)
  {
    if Journalled(m, key).None? {
      var result := PlaceOutcome(m, session, order.items);
      assert result.Created? ==> result.id !in m.orders && session !in m.checkouts;
    }
  }

  lemma CancelSettles(m: Market, id: OrderId, phone: string, key: Option<Key>)
    ensures Settled(m, CancelOrder(m, id, phone, key).0)
  {
    var m' := CancelOrder(m, id, phone, key).0;
    CancelledMarket(m, id, phone, key);
    hide CancelOrder, CancelOutcome;
  }

  /** A cancellation changes nothing but the stock, the journal and one order's status. */
  lemma CancelledMarket(m: Market, id: OrderId, phone: string, key: Option<Key>)
    ensures var m' := CancelOrder(m, id, phone, key).0;
      && m' == m.(stock := m'.stock, orders := m'.orders, journal := m'.journal)
      && (forall k <- m.journal :: k in m'.journal && m'.journal[k] == m.journal[k])
      && (m'.orders == m.orders || (id in m.orders && m'.orders == m.orders[id := m.orders[id].(status := Cancelled)]))
  {
  }

  lemma EventSettles(m: Market, id: OrderId, update: Update)
    ensures Settled(m, Perform(m, EventOp(id, update)))
  {
  }

  lemma StepSettles(m: Market, seeded: map<Sku, int>, op: Op)
    requires Conserved(m, seeded)
    ensures Settled(m, Perform(m, op))
  {
    hide Conserved, Settled, Place, CancelOrder;
    match op
    case PlaceOp(session, order, key) => PlaceSettles(m, seeded, session, order, key);
    case CancelOp(id, phone, key) => CancelSettles(m, id, phone, key);
    case EventOp(id, update) => EventSettles(m, id, update);
  }

  lemma {:induction false} RunSettles(m: Market, seeded: map<Sku, int>, ops: seq<Op>)
    requires Conserved(m, seeded) && forall op <- ops :: WellFormed(op)
    ensures Settled(m, PerformAll(m, ops))
    decreases |ops|
  {
    if ops != [] {
      StepSettles(m, seeded, ops[0]);
      assert PerformAll(m, ops[..1]) == Perform(m, ops[0]) by { assert ops[..1][1..] == []; }
      RunConserves(m, seeded, ops[..1]);
      RunSettles(Perform(m, ops[0]), seeded, ops[1..]);
    }
  }

  /** A retry with the same key, at any later time, changes nothing and repeats the first answer. */
  lemma PlaceRetry(m: Market, seeded: map<Sku, int>, session: string, order: Order, key: Key, between: seq<Op>, session': string, order': Order)
    requires Conserved(m, seeded) && WellFormed(PlaceOp(session, order, Some(key))) && forall op <- between :: WellFormed(op)
    ensures var (m1, first) := Place(m, session, order, Some(key));
      var m2 := PerformAll(m1, between);
      Place(m2, session', order', Some(key)) == (m2, first)
  {
    var m1 := Place(m, session, order, Some(key)).0;
    PlaceConserves(m, seeded, session, order, Some(key));
    RunSettles(m1, seeded, between);
  }

  lemma CancelRetry(m: Market, seeded: map<Sku, int>, id: OrderId, phone: string, key: Key, between: seq<Op>, id': OrderId, phone': string)
    requires Conserved(m, seeded) && forall op <- between :: WellFormed(op)
    ensures var (m1, first) := CancelOrder(m, id, phone, Some(key));
      var m2 := PerformAll(m1, between);
      CancelOrder(m2, id', phone', Some(key)) == (m2, first)
  {
    var m1 := CancelOrder(m, id, phone, Some(key)).0;
    CancelConserves(m, seeded, id, phone, Some(key));
    RunSettles(m1, seeded, between);
  }

  ghost predicate FirstUncovered(m: Market, items: seq<Item>, sku: Sku, available: int) {
    exists i :: 0 <= i < |items| && items[i].sku == sku && Stock(m, sku) == available < items[i].quantity && Covers(m, items[..i])
  }

  /** Every item is in stock. */
  ghost predicate Covers(m: Market, items: seq<Item>) { forall item <- items :: item.quantity <= Stock(m, item.sku) }

  lemma {:induction false} ShortIs(m: Market, items: seq<Item>)
    ensures FirstShort(m, items).None? <==> Covers(m, items)
    ensures FirstShort(m, items).Some? ==> FirstUncovered(m, items, FirstShort(m, items).value.sku, Stock(m, FirstShort(m, items).value.sku))
  {
    if items != [] {
      ShortIs(m, items[1..]);
      hide FirstUncovered;
      assert items == [items[0]] + items[1..];
      if Stock(m, items[0].sku) < items[0].quantity {
        FirstIsShort(m, items);
      } else if FirstShort(m, items[1..]).Some? {
        hide Covers;
        LaterIsShort(m, items, FirstShort(m, items[1..]).value.sku, Stock(m, FirstShort(m, items[1..]).value.sku));
      }
    }
  }

  lemma FirstIsShort(m: Market, items: seq<Item>)
    requires items != [] && Stock(m, items[0].sku) < items[0].quantity
    ensures FirstUncovered(m, items, items[0].sku, Stock(m, items[0].sku))
  {
    assert Covers(m, items[..0]);
  }

  lemma LaterIsShort(m: Market, items: seq<Item>, sku: Sku, available: int)
    requires items != [] && items[0].quantity <= Stock(m, items[0].sku) && FirstUncovered(m, items[1..], sku, available)
    ensures FirstUncovered(m, items, sku, available)
  {
    var rest := items[1..];
    var i :| 0 <= i < |rest| && rest[i].sku == sku && Stock(m, sku) == available < rest[i].quantity && Covers(m, rest[..i]);
    assert items[i + 1] == rest[i] && items[..i + 1] == [items[0]] + rest[..i];
  }

  /** Which answer a placement gets, and that only an order that is created changes more than the journal. */
  lemma PlacementAnswers(m: Market, session: string, order: Order, key: Option<Key>)
    requires Journalled(m, key).None?
    ensures var (m', answer) := Place(m, session, order, key);
      answer.Some? && var result := answer.value;
      && (result.Existing? <==> session in m.checkouts)
      && (result.Existing? ==> result.id == m.checkouts[session])
      && (result.Existing? && result.id in m.orders ==> result.status == Some(m.orders[result.id].status))
      && (result.Created? <==> session !in m.checkouts && Covers(m, order.items))
      && (result.OutOfStock? ==> FirstUncovered(m, order.items, result.sku, result.available))
      && (!result.Created? ==> m' == m.(journal := m'.journal))
      && (key.None? ==> m'.journal == m.journal)
  {
    ShortIs(m, order.items);
  }

  /** A checkout brings one order: any later placement of its session finds that order as it then stands, and changes nothing but the journal. */
  lemma CheckoutOnce(m: Market, seeded: map<Sku, int>, session: string, order: Order, key: Option<Key>, between: seq<Op>,
                     order': Order, key': Option<Key>)
    requires Conserved(m, seeded) && WellFormed(PlaceOp(session, order, key)) && forall op <- between :: WellFormed(op)
    requires Journalled(m, key).None? && Place(m, session, order, key).1.value.Created?
    requires Journalled(PerformAll(Place(m, session, order, key).0, between), key').None?
    ensures var m2 := PerformAll(Place(m, session, order, key).0, between);
      var (m3, again) := Place(m2, session, order', key');
      var id := Place(m, session, order, key).1.value.id;
      && id in m2.orders && m2.orders[id].(status := Placed) == order
      && again == Some(Existing(id, Some(m2.orders[id].status)))
      && m3 == m2.(journal := m3.journal)
  {
    var (m1, first) := Place(m, session, order, key);
    PlaceConserves(m, seeded, session, order, key);
    PlacedMarket(m, session, order, key);
    assert session in m1.checkouts && m1.checkouts[session] == first.value.id && m1.orders[first.value.id] == order;
    RunSettles(m1, seeded, between);
    PlacementAnswers(PerformAll(m1, between), session, order', key');
    hide Place, PerformAll, Conserved;
  }

  /** A phone's listing names exactly its orders, the latest first. */
  ghost predicate Lists(m: Market, phone: string) {
    var l := Listing(m, phone);
    && (forall id :: id in l <==> id in m.orders && m.orders[id].phone == phone)
    && (forall i, j | 0 <= i < j < |l| :: l[i] > l[j])
  }

  lemma AddedLists(m: Market, m': Market, order: Order, phone: string)
    requires Lists(m, phone) && forall id <- m.orders :: id <= m.sequence
    requires m'.orders == m.orders[m.sequence + 1 := order]
    requires Listing(m', phone) == (if order.phone == phone then [m.sequence + 1] else []) + Listing(m, phone)
    ensures Lists(m', phone)
  {
    var l, l' := Listing(m, phone), Listing(m', phone);
    forall id
      ensures id in l' <==> id in m'.orders && m'.orders[id].phone == phone
    {
      assert id in l' <==> (order.phone == phone && id == m.sequence + 1) || id in l;
      assert id in l ==> id <= m.sequence;
    }
    forall i, j | 0 <= i < j < |l'|
      ensures l'[i] > l'[j]
    {
      if order.phone == phone {
        assert l'[j] == l[j - 1] && l[j - 1] in l;
      }
    }
  }

  lemma PlaceLists(m: Market, seeded: map<Sku, int>, session: string, order: Order, key: Option<Key>, phone: string)
    requires Conserved(m, seeded) && Lists(m, phone)
    ensures Lists(Place(m, session, order, key).0, phone)
  {
    if Journalled(m, key).None? && Place(m, session, order, key).1.value.Created? {
      var m' := Place(m, session, order, key).0;
      PlacedMarket(m, session, order, key);
      assert Listing(m', phone) == (if order.phone == phone then [m.sequence + 1] else []) + Listing(m, phone);
      hide Place, Lists, FirstShort, Moved;
      AddedLists(m, m', order, phone);
    }
  }

  lemma StepLists(m: Market, seeded: map<Sku, int>, op: Op, phone: string)
    requires Conserved(m, seeded) && Lists(m, phone)
    ensures Lists(Perform(m, op), phone)
  {
    match op
    case PlaceOp(session, order, key) =>
      hide Place, Lists, Conserved;
      PlaceLists(m, seeded, session, order, key, phone);
    case CancelOp(id, owner, key) =>
      CancelledMarket(m, id, owner, key);
      hide CancelOrder;
    case EventOp(id, update) =>
  }

  lemma StepConserves(m: Market, seeded: map<Sku, int>, op: Op)
    requires Conserved(m, seeded) && WellFormed(op)
    ensures Conserved(Perform(m, op), seeded)
  {
    assert PerformAll(m, [op]) == Perform(m, op);
    RunConserves(m, seeded, [op]);
  }

  /** Over every run from the seeded market, every phone's listing names exactly its orders, the latest first. */
  lemma {:induction false} RunLists(m: Market, seeded: map<Sku, int>, ops: seq<Op>, phone: string)
    requires Conserved(m, seeded) && Lists(m, phone) && forall op <- ops :: WellFormed(op)
    ensures Lists(PerformAll(m, ops), phone)
    decreases |ops|
  {
    if ops != [] {
      assert WellFormed(ops[0]);
      StepLists(m, seeded, ops[0], phone);
      StepConserves(m, seeded, ops[0]);
      RunLists(Perform(m, ops[0]), seeded, ops[1..], phone);
    }
  }

  /** Only a placed order is cancelled, and only by the phone it was placed from; anyone else learns no more than that there is no such order. */
  lemma OnlyOwnerCancels(m: Market, id: OrderId, phone: string, key: Option<Key>)
    requires Journalled(m, key).None?
    ensures var (m', result) := CancelOrder(m, id, phone, key);
      && (result == Some(CancelResult.Cancel) <==> id in m.orders && m.orders[id].phone == phone && m.orders[id].status == Placed)
      && (result == Some(NoSuchOrder) <==> id !in m.orders || m.orders[id].phone != phone)
      && (result == Some(NotPlaced) <==> id in m.orders && m.orders[id].phone == phone && m.orders[id].status == Cancelled)
      && (result != Some(CancelResult.Cancel) ==> m'.orders == m.orders && m'.stock == m.stock)
      && (result == Some(CancelResult.Cancel) ==> m'.orders == m.orders[id := m.orders[id].(status := Cancelled)])
  {
  }

  /** An order is restocked at most once: after a cancellation, no later operation cancels it again. */
  lemma RestockedOnce(m: Market, seeded: map<Sku, int>, id: OrderId, phone: string, key: Option<Key>, between: seq<Op>, phone': string)
    requires Conserved(m, seeded) && Journalled(m, key).None? && CancelOutcome(m, id, phone).Cancel?
    requires forall op <- between :: WellFormed(op)
    ensures var m2 := PerformAll(CancelOrder(m, id, phone, key).0, between);
      !CancelOutcome(m2, id, phone').Cancel?
  {
    CancelConserves(m, seeded, id, phone, key);
    RunSettles(CancelOrder(m, id, phone, key).0, seeded, between);
  }

  /** A fulfilment update is taken exactly above the current version of a placed order, under a new event id; any other changes nothing. */
  lemma VersionsRise(m: Market, id: OrderId, u: Update)
    ensures OrderEvent(m, id, u).1.Taken? <==>
      && id in m.orders && m.orders[id].status == Placed
      && (id in m.updates ==> u.version > m.updates[id].version && u.eventId != m.updates[id].eventId)
    ensures OrderEvent(m, id, u).0 == if OrderEvent(m, id, u).1.Taken? then m.(updates := m.updates[id := u]) else m
  {
  }

  /** Which answer an update gets: its order is unknown; it is older than the recorded one; it is the recorded one; it clashes with it; or the order is no longer placed. */
  lemma UpdateAnswers(m: Market, id: OrderId, u: Update)
    ensures var r := OrderEvent(m, id, u).1;
      var current := if id in m.updates then Some(m.updates[id]) else None;
      && (r == Missing <==> id !in m.orders)
      && (r == StaleVersion <==> id in m.orders && current.Some? && u.version < current.value.version)
      && (r == Repeated <==> id in m.orders && current == Some(u))
      && (r == Disagrees <==> id in m.orders && current.Some? && u.version >= current.value.version && u != current.value
                              && (u.version == current.value.version || u.eventId == current.value.eventId))
      && (r == Closed <==> id in m.orders && m.orders[id].status == Cancelled
                           && (current.Some? ==> u.version > current.value.version && u.eventId != current.value.eventId))
  {
  }

  // ---- fulfilment updates arrive in any order ----

  function Deliver(m: Market, id: OrderId, us: seq<Update>): Market
    decreases |us|
  {
    if us == [] then m else Deliver(OrderEvent(m, id, us[0]).0, id, us[1..])
  }

  /** A version names one update, and so does an event id. */
  ghost predicate Coherent(all: set<Update>) {
    forall a, b | a in all && b in all :: a.version == b.version || a.eventId == b.eventId ==> a == b
  }

  ghost predicate IsLatest(u: Update, all: set<Update>) { u in all && forall v <- all :: v.version <= u.version }

  function UpdatesOf(m: Market, id: OrderId): set<Update> { if id in m.updates then {m.updates[id]} else {} }

  /** The update recorded for an order, and those delivered for it. */
  function Known(m: Market, id: OrderId, us: seq<Update>): set<Update> {
    (if id in m.updates then {m.updates[id]} else {}) + set u <- us
  }

  /** Of the market only this order's update changed, to the latest of `all`. */
  ghost predicate Latest(m: Market, m': Market, id: OrderId, all: set<Update>) {
    && id in m'.updates && IsLatest(m'.updates[id], all)
    && m' == m.(updates := m'.updates) && m'.updates == m.updates[id := m'.updates[id]]
  }

  lemma OneUpdateStands(m: Market, id: OrderId, u: Update, all: set<Update>)
    requires id in m.orders && m.orders[id].status == Placed && Coherent(all)
    requires u in all && (id in m.updates ==> m.updates[id] in all)
    ensures var m' := OrderEvent(m, id, u).0;
      && id in m'.updates && m' == m.(updates := m.updates[id := m'.updates[id]])
      && (m'.updates[id] == u || (id in m.updates && m'.updates[id] == m.updates[id]))
      && u.version <= m'.updates[id].version && (id in m.updates ==> m.updates[id].version <= m'.updates[id].version)
  {
    VersionsRise(m, id, u);
  }

  /** A placed order ends up with the latest of its recorded and delivered updates, and nothing else changes. */
  lemma {:induction false} LatestUpdateStands(m: Market, id: OrderId, us: seq<Update>)
    requires id in m.orders && m.orders[id].status == Placed && us != [] && Coherent(Known(m, id, us))
    ensures Latest(m, Deliver(m, id, us), id, Known(m, id, us))
    decreases |us|
  {
    var m1, rest := OrderEvent(m, id, us[0]).0, us[1..];
    OneUpdateStands(m, id, us[0], Known(m, id, us));
    KnownAfter(m, m1, id, us);
    hide OrderEvent, Coherent, Known, Latest;
    if rest == [] {
      assert Deliver(m, id, us) == m1;
      FirstIsLatest(m, m1, id, Known(m1, id, rest), Known(m, id, us));
    } else {
      CoherentSubset(Known(m1, id, rest), Known(m, id, us));
      LatestUpdateStands(m1, id, rest);
      LatestCarries(m, m1, Deliver(m1, id, rest), id, Known(m1, id, rest), Known(m, id, us));
    }
  }

  /** Of what was known before the first delivery, only that update and the one it replaced can be forgotten. */
  lemma KnownAfter(m: Market, m1: Market, id: OrderId, us: seq<Update>)
    requires us != [] && id in m1.updates
    requires m1.updates[id] == us[0] || (id in m.updates && m1.updates[id] == m.updates[id])
    requires us[0].version <= m1.updates[id].version && (id in m.updates ==> m.updates[id].version <= m1.updates[id].version)
    ensures m1.updates[id] in Known(m1, id, us[1..]) && Known(m1, id, us[1..]) <= Known(m, id, us)
    ensures forall v <- Known(m, id, us) :: v in Known(m1, id, us[1..]) || v.version <= m1.updates[id].version
    ensures us[1..] == [] ==> Known(m1, id, us[1..]) == {m1.updates[id]}
  {
    assert us == [us[0]] + us[1..];
  }

  lemma FirstIsLatest(m: Market, m1: Market, id: OrderId, part: set<Update>, all: set<Update>)
    requires id in m1.updates && m1 == m.(updates := m.updates[id := m1.updates[id]]) && part == {m1.updates[id]} && part <= all
    requires forall v <- all :: v in part || v.version <= m1.updates[id].version
    ensures Latest(m, m1, id, all)
  {
  }

  lemma LatestCarries(m: Market, m1: Market, m2: Market, id: OrderId, part: set<Update>, all: set<Update>)
    requires id in m1.updates && m1 == m.(updates := m.updates[id := m1.updates[id]]) && Latest(m1, m2, id, part)
    requires m1.updates[id] in part && part <= all && forall v <- all :: v in part || v.version <= m1.updates[id].version
    ensures Latest(m, m2, id, all)
  {
  }

  lemma CoherentSubset(part: set<Update>, all: set<Update>)
    requires Coherent(all) && part <= all
    ensures Coherent(part)
  {
  }

  lemma BothEmpty(us: seq<Update>, vs: seq<Update>)
    requires forall u :: u in us <==> u in vs
    ensures us == [] <==> vs == []
  {
    if us != [] { assert us[0] in us; }
    if vs != [] { assert vs[0] in vs; }
  }

  /** However the same updates are ordered and repeated, a placed order ends up the same. */
  lemma UpdatesConverge(m: Market, id: OrderId, us: seq<Update>, vs: seq<Update>)
    requires id in m.orders && m.orders[id].status == Placed
    requires (forall u :: u in us <==> u in vs) && Coherent(Known(m, id, us))
    ensures Deliver(m, id, us) == Deliver(m, id, vs)
  {
    assert Known(m, id, us) == Known(m, id, vs);
    BothEmpty(us, vs);
    if us != [] {
      LatestUpdateStands(m, id, us);
      LatestUpdateStands(m, id, vs);
      hide Deliver, Known;
      var a, b := Deliver(m, id, us).updates[id], Deliver(m, id, vs).updates[id];
      assert a.version == b.version;
    }
  }
}
