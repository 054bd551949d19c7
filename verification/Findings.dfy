/**
  What a reconciliation evaluation reports: every finding stated on the broker
  result, the commands and the recorded events as they came in, and exactly the
  inputs an evaluation accepts.
*/
module Findings {
  import opened Prelude
  import opened Sorting
  import opened Reconciliation
  import L = Lifecycle

  // ---------------------------------------------------------------------
  // The reference: when a finding is warranted.

  /** The field of a broker order that differs from the command it names. */
  predicate Disagrees(o: Order, c: L.Command, field: Field) {
    match field
    case Symbol => o.symbol != c.symbol
    case BrokerSymbol => o.brokerSymbol !in {None, c.brokerSymbol}
    case PlanId => o.plan !in {None, c.plan}
    case LegId => o.leg !in {None, c.leg}
    case IdempotencyKey => o.idempotencyKey !in {None, Some(c.idempotencyKey)}
    case TerminalId => o.terminal !in {None, c.terminal}
    case ClientId => o.client !in {None, c.client}
    case RequestedLots => c.lots.Some? && o.requestedLots.bits != c.lots.value.bits
    case OrderSide => (c.action, o.side) in {(L.Buy, SellSide), (L.Sell, BuySide)}
  }

  /** A final event and an order snapshot that cannot both be true. */
  predicate Contradicts(event: L.EventStatus, snapshot: OrderStatus) {
    || (event == L.EventFilled && snapshot in {Open, PartialOrder, CancelledOrder, RejectedOrder, ExpiredOrder})
    || (event == L.EventRejected && snapshot in {Open, PartialOrder, FilledOrder, CancelledOrder, ExpiredOrder})
    || (event == L.EventExpired && snapshot in {Open, PartialOrder, FilledOrder, CancelledOrder, RejectedOrder})
    || (event == L.EventCancelled && snapshot in {Open, PartialOrder, FilledOrder, RejectedOrder, ExpiredOrder})
  }

  predicate InBound(e: L.ExecutionEvent, bound: Option<int>) {
    bound.Some? ==> e.eventAt <= bound.value
  }

  /** The last recorded event of a command, up to a time if one is given; equal times are ordered by id. */
  predicate IsLatest(events: seq<L.ExecutionEvent>, id: nat, bound: Option<int>, e: L.ExecutionEvent) {
    && e in events && e.command == id && InBound(e, bound)
    && forall f :: f in events && f.command == id && InBound(f, bound) && f != e ==>
         f.eventAt < e.eventAt || (f.eventAt == e.eventAt && f.id < e.id)
  }

  predicate Names(o: Order, id: nat, b: nat) {
    o.command == Some(id) && o.brokerOrder == b
  }

  /** The ascending broker ids of the orders that name a command, those on the request's route if `c` is given. */
  ghost predicate Lists(ids: seq<nat>, orders: seq<Order>, id: nat, c: Option<Context>) {
    && Increasing(ids)
    && forall b :: b in ids <==> exists o :: o in orders && Names(o, id, b) && (c.Some? ==> OnRequestRoute(c.value, o))
  }

  /** A route component rules an order out only when both sides name one and they differ. */
  predicate OnRequestRoute(c: Context, o: Order) {
    && !(c.request.terminal.Some? && o.terminal.Some? && c.request.terminal != o.terminal)
    && !(c.request.client.Some? && o.client.Some? && c.request.client != o.client)
  }

  predicate IsManual(x: Item) {
    x.state.status == L.ManualReconciliationRequired
  }

  predicate InDoubt(x: Item, events: seq<L.ExecutionEvent>) {
    !IsManual(x) && !HasAuthority(x, events)
  }

  /** When a finding about a command in scope is warranted. */
  ghost predicate ItemWarranted(r: BrokerResult, x: Item, events: seq<L.ExecutionEvent>, f: Finding) {
    var id := x.command.id;
    match f
    case ClientReportedUnresolved(k) => k == id && id in r.unresolved && (IsManual(x) || InDoubt(x, events))
    case UnresolvedDespiteAuthority(k, status) =>
      k == id && id in r.unresolved && status == x.state.status && !IsManual(x) && HasAuthority(x, events)
    case AlreadyManual(k) => k == id && IsManual(x)
    case MissingEvidence(k, orders) => k == id && InDoubt(x, events) && Lists(orders, r.orders, id, None)
    case ProjectionPending(k, status) =>
      k == id && InDoubt(x, events) && exists e :: IsLatest(events, id, None, e) && e.status == status
    case MultipleOrders(k, orders) => k == id && 1 < |orders| && Lists(orders, r.orders, id, None)
    case IdentityConflict(k, b, field) =>
      k == id && exists o :: o in r.orders && Names(o, id, b) && Disagrees(o, x.command, field)
    case SnapshotConflict(k, b, event, snapshot) =>
      && k == id && Contradicts(event, snapshot)
      && (exists o :: o in r.orders && Names(o, id, b) && o.status == snapshot)
      && (exists e :: IsLatest(events, id, Some(r.observedAt), e) && e.status == event)
    case _ => false
  }

  /** When a finding about an id without a command row is warranted: only account-wide. */
  ghost predicate UnknownWarranted(c: Context, r: BrokerResult, items: seq<Item>, f: Finding) {
    && c.request.commandIds.None?
    && match f
       case UnknownObserved(id, orders) => id !in Ids(items) && orders != [] && Lists(orders, r.orders, id, Some(c))
       case UnknownReportedUnresolved(id) => id !in Ids(items) && id in r.unresolved
       case _ => false
  }

  ghost predicate Warranted(c: Context, r: BrokerResult, items: seq<Item>, events: seq<L.ExecutionEvent>, f: Finding) {
    (exists x :: x in items && ItemWarranted(r, x, events, f)) || UnknownWarranted(c, r, items, f)
  }

  // ---------------------------------------------------------------------
  // Lists of orders and last events.

  lemma SameIncreasing(a: seq<nat>, b: seq<nat>)
    requires Increasing(a) && Increasing(b) && forall x :: x in a <==> x in b
    ensures a == b
  {
    assert StrictlySorted(IdKey, a) && StrictlySorted(IdKey, b);
    hide Increasing, StrictlySorted;
    SortedEqual(IdKey, a, b);
  }

  lemma OrdersForMembers(orders: seq<Order>, id: nat, o: Order)
    ensures o in OrdersFor(orders, id) <==> o in orders && o.command == Some(id)
  {
    var p := (o: Order) => ForCommand(o, id);
    SortMembers(OrderKey, Filter(p, orders), o);
    FilterIn(p, orders, o);
  }

  lemma {:induction false} FilterUnique<T>(p: T -> bool, key: T -> Key, s: seq<T>)
    requires UniqueBy(key, s)
    ensures UniqueBy(key, Filter(p, s))
  {
    if s != [] {
      var rest := s[1..];
      assert UniqueBy(key, rest);
      FilterUnique(p, key, rest);
      FilterFirst(p, s);
      forall x | x in Filter(p, rest) ensures key(x) != key(s[0]) {
        FilterIn(p, rest, x);
        var k :| 0 <= k < |rest| && rest[k] == x;
        assert s[k + 1] == x;
      }
      hide Filter;
      var f := Filter(p, rest);
      assert UniqueBy(key, [s[0]] + f);
    }
  }

  lemma OrdersForSorted(orders: seq<Order>, id: nat)
    requires UniqueBy(OrderKey, orders)
    ensures StrictlySorted(OrderKey, OrdersFor(orders, id))
  {
    var p := (o: Order) => ForCommand(o, id);
    FilterUnique(p, OrderKey, orders);
    SortStrict(OrderKey, Filter(p, orders));
  }

  lemma EventsForSorted(events: seq<L.ExecutionEvent>, id: nat)
    requires UniqueBy(EventIdKey, events)
    ensures StrictlySorted(EventKey, EventsFor(events, id))
  {
    var p := (e: L.ExecutionEvent) => e.command == id;
    UniqueEvents(events);
    FilterUnique(p, EventKey, events);
    SortStrict(EventKey, Filter(p, events));
  }

  lemma UniqueEvents(events: seq<L.ExecutionEvent>)
    requires UniqueBy(EventIdKey, events)
    ensures UniqueBy(EventKey, events)
  {
    forall i, j | 0 <= i < j < |events| ensures EventKey(events[i]) != EventKey(events[j]) {
      assert EventIdKey(events[i]) != EventIdKey(events[j]);
    }
  }

  /** The broker ids of sorted orders rise and are those of its members. */
  lemma BrokerOrdersOf(orders: seq<Order>)
    requires StrictlySorted(OrderKey, orders)
    ensures Increasing(BrokerOrders(orders))
    ensures forall b :: b in BrokerOrders(orders) <==> exists o :: o in orders && o.brokerOrder == b
  {
    var ids := BrokerOrders(orders);
    forall i, j | 0 <= i < j < |ids| ensures ids[i] < ids[j] {
      assert Less(OrderKey(orders[i]), OrderKey(orders[j]));
    }
    forall b ensures b in ids <==> exists o :: o in orders && o.brokerOrder == b {
      if b in ids {
        var i :| 0 <= i < |ids| && ids[i] == b;
        assert orders[i] in orders && orders[i].brokerOrder == b;
      }
      if o :| o in orders && o.brokerOrder == b {
        var i :| 0 <= i < |orders| && orders[i] == o;
        assert ids[i] == b;
      }
    }
  }

  lemma ListsOrders(orders: seq<Order>, id: nat)
    requires UniqueBy(OrderKey, orders)
    ensures Lists(BrokerOrders(OrdersFor(orders, id)), orders, id, None)
  {
    OrdersForSorted(orders, id);
    BrokerOrdersOf(OrdersFor(orders, id));
    forall o ensures o in OrdersFor(orders, id) <==> o in orders && o.command == Some(id) {
      OrdersForMembers(orders, id, o);
    }
    hide OrdersFor, BrokerOrders, Increasing, StrictlySorted;
  }

  lemma ListsUnique(a: seq<nat>, b: seq<nat>, orders: seq<Order>, id: nat, c: Option<Context>)
    requires Lists(a, orders, id, c) && Lists(b, orders, id, c)
    ensures a == b
  {
    SameIncreasing(a, b);
  }

  lemma {:induction false} LatestByIs(sorted: seq<L.ExecutionEvent>, observedAt: int)
    requires StrictlySorted(EventKey, sorted)
    ensures var l := LatestBy(sorted, observedAt);
            && (l.None? <==> forall e :: e in sorted ==> e.eventAt > observedAt)
            && (l.Some? ==>
                  && l.value in sorted && l.value.eventAt <= observedAt
                  && forall f :: f in sorted && f.eventAt <= observedAt && f != l.value ==>
                       Less(EventKey(f), EventKey(l.value)))
  {
    if sorted != [] {
      var front, last := sorted[..|sorted| - 1], sorted[|sorted| - 1];
      assert sorted == front + [last];
      assert StrictlySorted(EventKey, front);
      LatestByIs(front, observedAt);
      forall f | f in front ensures Less(EventKey(f), EventKey(last)) {
        var i :| 0 <= i < |front| && front[i] == f;
        assert sorted[i] == f;
      }
    }
  }

  lemma LatestIsUnique(events: seq<L.ExecutionEvent>, id: nat, bound: Option<int>, e: L.ExecutionEvent,
                       f: L.ExecutionEvent)
    requires IsLatest(events, id, bound, e) && IsLatest(events, id, bound, f)
    ensures e == f
  {
  }

  lemma LatestAgrees(events: seq<L.ExecutionEvent>, id: nat, observedAt: int)
    requires UniqueBy(EventIdKey, events)
    ensures var l := LatestBy(EventsFor(events, id), observedAt);
            forall e :: l == Some(e) <==> IsLatest(events, id, Some(observedAt), e)
  {
    var own := EventsFor(events, id);
    EventsForSorted(events, id);
    LatestByIs(own, observedAt);
    forall e ensures e in own <==> e in events && e.command == id {
      EventsForMembers(events, id, e);
    }
    hide EventsFor, LatestBy, StrictlySorted;
    var l := LatestBy(own, observedAt);
    if l.Some? {
      assert IsLatest(events, id, Some(observedAt), l.value);
      forall e | IsLatest(events, id, Some(observedAt), e) ensures e == l.value {
        LatestIsUnique(events, id, Some(observedAt), e, l.value);
      }
    }
  }

  lemma LastAgrees(events: seq<L.ExecutionEvent>, id: nat)
    requires UniqueBy(EventIdKey, events)
    ensures var own := EventsFor(events, id);
            forall e :: own != [] && own[|own| - 1] == e <==> IsLatest(events, id, None, e)
  {
    var own := EventsFor(events, id);
    EventsForSorted(events, id);
    forall e ensures e in own <==> e in events && e.command == id {
      EventsForMembers(events, id, e);
    }
    hide EventsFor;
    if own != [] {
      var last := own[|own| - 1];
      forall f | f in own && f != last ensures Less(EventKey(f), EventKey(last)) {
        var i :| 0 <= i < |own| && own[i] == f;
      }
      assert IsLatest(events, id, None, last);
      forall e | IsLatest(events, id, None, e) ensures e == last {
        LatestIsUnique(events, id, None, e, last);
      }
    }
  }

  // ---------------------------------------------------------------------
  // What the evaluation lists.

  lemma ConflictsAre(o: Order, c: L.Command, field: Field)
    ensures field in Conflicts(o, c) <==> Disagrees(o, c, field)
  {
    hide Listed;
    forall condition, g ensures field in Listed(condition, g) <==> condition && field == g {
      ListedHolds(condition, g, field);
    }
  }

  lemma ListedHolds(condition: bool, g: Field, field: Field)
    ensures field in Listed(condition, g) <==> condition && field == g
  {
  }

  lemma ContradictsIs(event: L.EventStatus, snapshot: OrderStatus)
    ensures SnapshotContradicts(event, snapshot) <==> Contradicts(event, snapshot)
  {
  }

  /** What one order contributes. */
  ghost predicate OrderWarranted(id: nat, c: L.Command, o: Order, latest: Option<L.ExecutionEvent>, f: Finding) {
    || (f.IdentityConflict? && f.command == id && f.brokerOrder == o.brokerOrder && Disagrees(o, c, f.field))
    || (f.SnapshotConflict? && f.command == id && f.brokerOrder == o.brokerOrder && f.snapshot == o.status
        && latest.Some? && latest.value.status == f.event && Contradicts(f.event, o.status))
  }

  lemma OrderFindingsAre(id: nat, c: L.Command, o: Order, latest: Option<L.ExecutionEvent>, f: Finding)
    ensures f in OrderFindings(id, c, o, latest) <==> OrderWarranted(id, c, o, latest, f)
  {
    var fields := Conflicts(o, c);
    forall field ensures field in fields <==> Disagrees(o, c, field) {
      ConflictsAre(o, c, field);
    }
    if latest.Some? {
      ContradictsIs(latest.value.status, o.status);
    }
    hide Conflicts, Disagrees, SnapshotContradicts, Contradicts;
    assert f in ConflictFindings(id, o, fields) <==>
        f.IdentityConflict? && f.command == id && f.brokerOrder == o.brokerOrder && f.field in fields by {
      if f.IdentityConflict? && f.command == id && f.brokerOrder == o.brokerOrder && f.field in fields {
        var i :| 0 <= i < |fields| && fields[i] == f.field;
        assert ConflictFindings(id, o, fields)[i] == f;
      }
    }
  }

  lemma {:induction false} OrdersFindingsAre(id: nat, c: L.Command, orders: seq<Order>,
                                             latest: Option<L.ExecutionEvent>, f: Finding)
    ensures f in OrdersFindings(id, c, orders, latest) <==>
              exists o :: o in orders && OrderWarranted(id, c, o, latest, f)
  {
    hide OrderFindings, OrderWarranted;
    if orders != [] {
      var front, o := orders[..|orders| - 1], orders[|orders| - 1];
      assert orders == front + [o];
      OrdersFindingsAre(id, c, front, latest, f);
      OrderFindingsAre(id, c, o, latest, f);
      assert forall x :: x in orders <==> x in front || x == o;
    }
  }

  /** The findings of one command are exactly the warranted ones. */
  lemma ItemFindingsAre(r: BrokerResult, x: Item, events: seq<L.ExecutionEvent>, f: Finding)
    requires UniqueBy(OrderKey, r.orders) && UniqueBy(EventIdKey, events)
    ensures f in ItemFindings(r, x, events) <==> ItemWarranted(r, x, events, f)
  {
    hide OrdersFor, EventsFor, LatestBy, Authoritative, HasAuthority, BrokerOrders, UniqueBy, Lists, IsLatest,
         OrdersFindings, OrderWarranted, Contradicts, Disagrees;
    var id := x.command.id;
    var orders, own := OrdersFor(r.orders, id), EventsFor(events, id);
    var latest := LatestBy(own, r.observedAt);
    ListsOrders(r.orders, id);
    BrokerOrdersCount(orders);
    forall a | Lists(a, r.orders, id, None) ensures a == BrokerOrders(orders) {
      ListsUnique(a, BrokerOrders(orders), r.orders, id, None);
    }
    AuthorityAgrees(x, events);
    LatestAgrees(events, id, r.observedAt);
    LastAgrees(events, id);
    OrdersFindingsAre(id, x.command, orders, latest, f);
    InspectionIs(r, x, events, orders, latest, f);
    StatusIs(r, x, events, f);
    hide Inspection, StatusFindings;
  }

  lemma BrokerOrdersCount(orders: seq<Order>)
    ensures |BrokerOrders(orders)| == |orders|
  {
  }

  ghost predicate AboutOrders(f: Finding) {
    f.MultipleOrders? || f.IdentityConflict? || f.SnapshotConflict?
  }

  lemma InspectionIs(r: BrokerResult, x: Item, events: seq<L.ExecutionEvent>, orders: seq<Order>,
                     latest: Option<L.ExecutionEvent>, f: Finding)
    requires orders == OrdersFor(r.orders, x.command.id)
    requires latest == LatestBy(EventsFor(events, x.command.id), r.observedAt)
    requires f in OrdersFindings(x.command.id, x.command, orders, latest) <==>
               exists o :: o in orders && OrderWarranted(x.command.id, x.command, o, latest, f)
    requires forall e :: latest == Some(e) <==> IsLatest(events, x.command.id, Some(r.observedAt), e)
    requires Lists(BrokerOrders(orders), r.orders, x.command.id, None)
    requires forall a :: Lists(a, r.orders, x.command.id, None) ==> a == BrokerOrders(orders)
    ensures f in Inspection(x.command.id, x.command, orders, EventsFor(events, x.command.id), r.observedAt) <==>
              AboutOrders(f) && ItemWarranted(r, x, events, f)
  {
    forall o ensures o in orders <==> o in r.orders && o.command == Some(x.command.id) {
      OrdersForMembers(r.orders, x.command.id, o);
    }
    BrokerOrdersCount(orders);
    hide OrdersFor, EventsFor, LatestBy, HasAuthority, BrokerOrders, Lists, IsLatest, OrdersFindings, Contradicts,
         Disagrees;
    if f.SnapshotConflict? && latest.Some? {
      assert IsLatest(events, x.command.id, Some(r.observedAt), latest.value);
    }
  }

  lemma StatusIs(r: BrokerResult, x: Item, events: seq<L.ExecutionEvent>, f: Finding)
    requires Authoritative(x, EventsFor(events, x.command.id)) <==> HasAuthority(x, events)
    requires var own := EventsFor(events, x.command.id);
             forall e :: own != [] && own[|own| - 1] == e <==> IsLatest(events, x.command.id, None, e)
    requires Lists(BrokerOrders(OrdersFor(r.orders, x.command.id)), r.orders, x.command.id, None)
    requires forall a :: Lists(a, r.orders, x.command.id, None) ==> a == BrokerOrders(OrdersFor(r.orders, x.command.id))
    ensures var id := x.command.id;
            f in StatusFindings(id, x, OrdersFor(r.orders, id), EventsFor(events, id), id in r.unresolved) <==>
              !AboutOrders(f) && ItemWarranted(r, x, events, f)
  {
    hide OrdersFor, EventsFor, Authoritative, HasAuthority, BrokerOrders, Lists, IsLatest, Contradicts, Disagrees;
    var own := EventsFor(events, x.command.id);
    if own != [] {
      assert IsLatest(events, x.command.id, None, own[|own| - 1]);
    }
  }

  lemma {:induction false} ItemsFindingsAre(r: BrokerResult, index: map<nat, Item>, events: seq<L.ExecutionEvent>,
                                            ids: seq<nat>, f: Finding)
    ensures f in ItemsFindings(r, index, events, ids) <==>
              exists id :: id in ids && id in index && f in ItemFindings(r, index[id], events)
  {
    hide ItemFindings;
    if ids != [] {
      var front, id := ids[..|ids| - 1], ids[|ids| - 1];
      assert ids == front + [id];
      ItemsFindingsAre(r, index, events, front, f);
      assert forall k :: k in ids <==> k in front || k == id;
    }
  }

  lemma {:induction false} UnknownFindingsAre(c: Context, r: BrokerResult, index: map<nat, Item>, ids: seq<nat>,
                                              f: Finding)
    ensures f in UnknownFindings(c, r, index, ids) <==>
              exists id :: id in ids && UnknownOnRoute(c, r, index, id) && f in UnknownOrderFindings(c, r.orders, id)
  {
    hide UnknownOrderFindings, UnknownOnRoute;
    if ids != [] {
      var front, id := ids[..|ids| - 1], ids[|ids| - 1];
      assert ids == front + [id];
      UnknownFindingsAre(c, r, index, front, f);
      assert forall k :: k in ids <==> k in front || k == id;
    }
  }

  lemma {:induction false} UnknownReportsAre(index: map<nat, Item>, ids: seq<nat>, f: Finding)
    ensures f in UnknownReports(index, ids) <==>
              f.UnknownReportedUnresolved? && f.command in ids && f.command !in index
  {
    if ids != [] {
      var front, id := ids[..|ids| - 1], ids[|ids| - 1];
      assert ids == front + [id];
      UnknownReportsAre(index, front, f);
    }
  }

  /** The orders listed for an unknown id are those on the route, ascending. */
  lemma ListsOnRoute(c: Context, orders: seq<Order>, id: nat)
    requires UniqueBy(OrderKey, orders)
    ensures Lists(BrokerOrders(Filter((o: Order) => OnRoute(c, o), OrdersFor(orders, id))), orders, id, Some(c))
    ensures SeenOnRoute(c, orders, id) <==>
              BrokerOrders(Filter((o: Order) => OnRoute(c, o), OrdersFor(orders, id))) != []
  {
    var p := (o: Order) => OnRoute(c, o);
    var own := OrdersFor(orders, id);
    var routed := Filter(p, own);
    OrdersForSorted(orders, id);
    FilterSorted(p, OrderKey, own);
    BrokerOrdersOf(routed);
    BrokerOrdersCount(routed);
    forall o ensures o in routed <==> o in orders && o.command == Some(id) && OnRequestRoute(c, o) {
      RoutedMembers(c, orders, id, o);
    }
    RouteIs(c, orders, id);
    hide OrdersFor, BrokerOrders, StrictlySorted, Increasing, Filter, OnRequestRoute, SeenOnRoute, UniqueBy;
    assert routed != [] ==> routed[0] in routed;
  }

  lemma RoutedMembers(c: Context, orders: seq<Order>, id: nat, o: Order)
    ensures o in Filter((o: Order) => OnRoute(c, o), OrdersFor(orders, id)) <==>
              o in orders && o.command == Some(id) && OnRequestRoute(c, o)
  {
    FilterIn((o: Order) => OnRoute(c, o), OrdersFor(orders, id), o);
    OrdersForMembers(orders, id, o);
    hide OrdersFor, Filter;
  }

  lemma RouteIs(c: Context, orders: seq<Order>, id: nat)
    ensures SeenOnRoute(c, orders, id) <==>
              exists o :: o in orders && o.command == Some(id) && OnRequestRoute(c, o)
  {
  }

  lemma {:induction false} FilterSorted<T>(p: T -> bool, key: T -> Key, s: seq<T>)
    requires StrictlySorted(key, s)
    ensures StrictlySorted(key, Filter(p, s))
  {
    if s != [] {
      StrictTail(key, s);
      FilterSorted(p, key, s[1..]);
      FilterFirst(p, s);
      var rest := Filter(p, s[1..]);
      forall y | y in rest ensures Less(key(s[0]), key(y)) {
        FilterIn(p, s[1..], y);
      }
      hide Filter, StrictlySorted;
      StrictCons(key, s[0], rest);
      assert [] + rest == rest;
    }
  }

  /**
    The findings of an evaluation are exactly those its inputs warrant: none is
    missing, none is made up, and each carries the right orders, events and fields.
  */
  lemma FindingsAreWarranted(c: Context, r: BrokerResult, items: seq<Item>, events: seq<L.ExecutionEvent>,
                             receivedAt: int, f: Finding)
    requires Evaluate(c, r, items, events, receivedAt).Ok?
    ensures f in Evaluate(c, r, items, events, receivedAt).value.evaluation.findings <==>
              Warranted(c, r, items, events, f)
  {
    EvaluationIs(c, r, items, events, receivedAt);
    EvaluatedUnique(c, r, items, events, receivedAt);
    hide Evaluate, AllFindings, ValidScope, ValidContext, Index, Canonical;
    var index, canonical := Index(items), Canonical(r);
    CanonicalUnique(r);
    KnownFindings(r, items, events, f);
    if c.request.commandIds.None? {
      UnknownFound(c, r, items, f);
    }
    AllFindingsSplit(c, canonical, index, events, f);
  }

  lemma AllFindingsSplit(c: Context, r: BrokerResult, index: map<nat, Item>, events: seq<L.ExecutionEvent>, f: Finding)
    ensures f in AllFindings(c, r, index, events) <==>
              || f in ItemsFindings(r, index, events, Ascending(index.Keys))
              || (c.request.commandIds.None?
                  && (|| f in UnknownFindings(c, r, index, Ascending(OrderCommands(r.orders)))
                      || f in UnknownReports(index, Ascending(Elements(r.unresolved)))))
  {
    hide ItemsFindings, UnknownFindings, UnknownReports, Ascending;
  }

  lemma EvaluatedUnique(c: Context, r: BrokerResult, items: seq<Item>, events: seq<L.ExecutionEvent>, receivedAt: int)
    requires Evaluate(c, r, items, events, receivedAt).Ok?
    ensures UniqueBy(OrderKey, r.orders) && UniqueBy(EventIdKey, events) && UniqueBy(ItemKey, items)
  {
    hide Pending, AllFindings, Ascending, UniqueBy, ItemFits, OrderFits, PositionFits, MetadataFits, EventFits;
  }

  lemma CanonicalUnique(r: BrokerResult)
    requires UniqueBy(OrderKey, r.orders)
    ensures UniqueBy(OrderKey, Canonical(r).orders) && Canonical(r).observedAt == r.observedAt
  {
    SortStrict(OrderKey, r.orders);
    StrictIsUnique(OrderKey, SortBy(OrderKey, r.orders));
    hide UniqueBy, StrictlySorted;
  }

  lemma StrictIsUnique<T>(key: T -> Key, s: seq<T>)
    requires StrictlySorted(key, s)
    ensures UniqueBy(key, s)
  {
    forall i, j | 0 <= i < j < |s| ensures key(s[i]) != key(s[j]) {
      assert Less(key(s[i]), key(s[j]));
    }
  }

  /** Canonical results warrant what the original does. */
  lemma CanonicalWarrants(r: BrokerResult, x: Item, events: seq<L.ExecutionEvent>, f: Finding)
    ensures ItemWarranted(Canonical(r), x, events, f) <==> ItemWarranted(r, x, events, f)
  {
    CanonicalMembers(r);
    forall a ensures Lists(a, Canonical(r).orders, x.command.id, None) == Lists(a, r.orders, x.command.id, None) {
    }
    assert Canonical(r).observedAt == r.observedAt;
    hide Canonical, Lists, HasAuthority, IsLatest, Disagrees, Contradicts;
  }

  lemma KnownFindings(r: BrokerResult, items: seq<Item>, events: seq<L.ExecutionEvent>, f: Finding)
    requires UniqueBy(OrderKey, Canonical(r).orders) && UniqueBy(EventIdKey, events) && UniqueBy(ItemKey, items)
    ensures f in ItemsFindings(Canonical(r), Index(items), events, Ascending(Index(items).Keys)) <==>
              exists x :: x in items && ItemWarranted(r, x, events, f)
  {
    hide ItemFindings, ItemWarranted, Canonical, UniqueBy, Index;
    var index, canonical := Index(items), Canonical(r);
    var ids := Ascending(index.Keys);
    AscendingIs(index.Keys);
    ItemsFindingsAre(canonical, index, events, ids, f);
    forall x | x in items
      ensures f in ItemFindings(canonical, x, events) <==> ItemWarranted(r, x, events, f)
    {
      ItemFindingsAre(canonical, x, events, f);
      CanonicalWarrants(r, x, events, f);
    }
    IndexHolds(items);
    hide ItemFindings, ItemWarranted, ItemsFindings, Ascending, Canonical, UniqueBy, Increasing, Index;
  }

  lemma IndexHolds(items: seq<Item>)
    requires UniqueBy(ItemKey, items)
    ensures forall x :: x in items ==> x.command.id in Index(items) && Index(items)[x.command.id] == x
    ensures forall id :: id in Index(items) ==> Index(items)[id] in items
    ensures forall id :: id in Index(items) <==> id in Ids(items)
  {
    UniqueItems(items);
    hide UniqueBy;
  }

  lemma UnknownFound(c: Context, r: BrokerResult, items: seq<Item>, f: Finding)
    requires UniqueBy(OrderKey, Canonical(r).orders) && UniqueBy(ItemKey, items) && c.request.commandIds.None?
    ensures var index, canonical := Index(items), Canonical(r);
            (|| f in UnknownFindings(c, canonical, index, Ascending(OrderCommands(canonical.orders)))
             || f in UnknownReports(index, Ascending(Elements(canonical.unresolved))))
            <==> UnknownWarranted(c, r, items, f)
  {
    hide Canonical, Index, UniqueBy, Ids, UnknownOnRoute, UnknownOrderFindings, Lists;
    var index, canonical := Index(items), Canonical(r);
    IndexHolds(items);
    CanonicalMembers(r);
    AscendingIs(OrderCommands(canonical.orders));
    AscendingIs(Elements(canonical.unresolved));
    UnknownFindingsAre(c, canonical, index, Ascending(OrderCommands(canonical.orders)), f);
    UnknownReportsAre(index, Ascending(Elements(canonical.unresolved)), f);
    hide Ascending, UnknownFindings, UnknownReports, Increasing;
    forall id ensures id in OrderCommands(canonical.orders) && UnknownOnRoute(c, canonical, index, id)
                      && f in UnknownOrderFindings(c, canonical.orders, id)
                 <==> f.UnknownObserved? && f.command == id && id !in index && f.brokerOrders != []
                      && Lists(f.brokerOrders, r.orders, id, Some(c)) {
      ObservedFound(c, canonical, index, id, f);
      SameLists(canonical.orders, r.orders, id, c);
    }
  }

  lemma SameLists(a: seq<Order>, b: seq<Order>, id: nat, c: Context)
    requires forall o :: o in a <==> o in b
    ensures forall ids :: Lists(ids, a, id, Some(c)) == Lists(ids, b, id, Some(c))
  {
    hide OnRequestRoute, Increasing;
  }

  lemma ObservedFound(c: Context, r: BrokerResult, index: map<nat, Item>, id: nat, f: Finding)
    requires UniqueBy(OrderKey, r.orders)
    ensures id in OrderCommands(r.orders) && UnknownOnRoute(c, r, index, id)
            && f in UnknownOrderFindings(c, r.orders, id)
       <==> f.UnknownObserved? && f.command == id && id !in index && f.brokerOrders != []
            && Lists(f.brokerOrders, r.orders, id, Some(c))
  {
    hide Lists, OrdersFor, BrokerOrders, Filter, UniqueBy;
    ListsOnRoute(c, r.orders, id);
    var listed := BrokerOrders(Filter((o: Order) => OnRoute(c, o), OrdersFor(r.orders, id)));
    if f.UnknownObserved? && Lists(f.brokerOrders, r.orders, id, Some(c)) {
      ListsUnique(f.brokerOrders, listed, r.orders, id, Some(c));
    }
  }

  /** The result that is returned is the one that came in, each of its lists in ascending order. */
  lemma ReturnedResult(c: Context, r: BrokerResult, items: seq<Item>, events: seq<L.ExecutionEvent>, receivedAt: int)
    requires Evaluate(c, r, items, events, receivedAt).Ok?
    ensures var t := Evaluate(c, r, items, events, receivedAt).value.result;
            && (t.request, t.account, t.terminal, t.client) == (r.request, r.account, r.terminal, r.client)
            && t.observedAt == r.observedAt && t.accountRow == r.accountRow
            && |t.orders| == |r.orders| && |t.positions| == |r.positions|
            && |t.metadata| == |r.metadata| && |t.unresolved| == |r.unresolved|
            && (forall o :: o in t.orders <==> o in r.orders) && (forall p :: p in t.positions <==> p in r.positions)
            && (forall m :: m in t.metadata <==> m in r.metadata)
            && (forall u :: u in t.unresolved <==> u in r.unresolved)
            && (forall i, j :: 0 <= i < j < |t.orders| ==> t.orders[i].brokerOrder < t.orders[j].brokerOrder)
            && (forall i, j :: 0 <= i < j < |t.positions| ==> t.positions[i].id < t.positions[j].id)
            && (forall i, j :: 0 <= i < j < |t.metadata| ==> t.metadata[i].brokerSymbol < t.metadata[j].brokerSymbol)
            && (forall i, j :: 0 <= i < j < |t.unresolved| ==> t.unresolved[i] < t.unresolved[j])
  {
    EvaluatedSorted(c, r, items, events, receivedAt);
    hide Evaluate;
    SortedList(OrderKey, r.orders);
    SortedList(PositionKey, r.positions);
    SortedList(MetadataKey, r.metadata);
    SortedList(IdKey, r.unresolved);
    hide SortBy, UniqueBy;
    var t := Canonical(r);
    forall i, j | 0 <= i < j < |t.orders| ensures t.orders[i].brokerOrder < t.orders[j].brokerOrder {
      assert Less(OrderKey(t.orders[i]), OrderKey(t.orders[j]));
    }
    forall i, j | 0 <= i < j < |t.positions| ensures t.positions[i].id < t.positions[j].id {
      assert Less(PositionKey(t.positions[i]), PositionKey(t.positions[j]));
    }
    forall i, j | 0 <= i < j < |t.metadata| ensures t.metadata[i].brokerSymbol < t.metadata[j].brokerSymbol {
      assert Less(MetadataKey(t.metadata[i]), MetadataKey(t.metadata[j]));
    }
    forall i, j | 0 <= i < j < |t.unresolved| ensures t.unresolved[i] < t.unresolved[j] {
      assert Less(IdKey(t.unresolved[i]), IdKey(t.unresolved[j]));
    }
  }

  lemma EvaluatedSorted(c: Context, r: BrokerResult, items: seq<Item>, events: seq<L.ExecutionEvent>, receivedAt: int)
    requires Evaluate(c, r, items, events, receivedAt).Ok?
    ensures Evaluate(c, r, items, events, receivedAt).value.result == Canonical(r)
    ensures UniqueBy(OrderKey, r.orders) && UniqueBy(PositionKey, r.positions)
    ensures UniqueBy(MetadataKey, r.metadata) && UniqueBy(IdKey, r.unresolved)
  {
    hide Pending, AllFindings, Ascending, UniqueBy, ItemFits, OrderFits, PositionFits, MetadataFits, EventFits,
         Canonical;
  }

  lemma SortedList<T>(key: T -> Key, s: seq<T>)
    requires UniqueBy(key, s)
    ensures var t := SortBy(key, s);
            |t| == |s| && StrictlySorted(key, t) && forall x :: x in t <==> x in s
  {
    SortStrict(key, s);
    forall x ensures x in SortBy(key, s) <==> x in s {
      SortMembers(key, s, x);
    }
    if s != [] {
      SortMembers(key, s, s[0]);
    }
  }

  // ---------------------------------------------------------------------
  // Exactly the inputs that are accepted.

  predicate RequestIsSound(c: Context) {
    var q := c.request;
    && q.id != 0 && q.account != 0 && q.terminal != Some(0) && q.client != Some(0) && 0 <= c.requestedAt
    && (q.since.Some? ==> 0 <= q.since.value <= c.requestedAt)
    && (q.commandIds.Some? ==>
          && q.commandIds.value != [] && 0 !in q.commandIds.value
          && forall i, j :: 0 <= i < j < |q.commandIds.value| ==> q.commandIds.value[i] < q.commandIds.value[j])
  }

  /** The result answers this request, was observed after it, and is one consistent full set. */
  predicate ResultIsSound(c: Context, r: BrokerResult, receivedAt: int) {
    && (r.request, r.account, r.terminal, r.client)
       == (c.request.id, c.request.account, c.request.terminal, c.request.client)
    && c.requestedAt <= r.observedAt <= receivedAt
    && (r.accountRow.Some? ==> r.accountRow.value == AccountRow(r.account, r.observedAt, true))
    && (forall p :: p in r.positions ==>
          p == Position(p.id, r.account, r.observedAt, p.symbol, true) && p.id != 0 && p.symbol != 0)
    && (forall m :: m in r.metadata ==>
          && m == Metadata(m.brokerSymbol, m.symbol, r.account, r.observedAt, true)
          && m.brokerSymbol != 0 && m.symbol != 0)
    && (forall o :: o in r.orders ==>
          && o.account == r.account && o.observedAt == r.observedAt && o.rowSound && o.brokerOrder != 0 && o.symbol != 0
          && Some(0) !in [o.brokerSymbol, o.command, o.plan, o.leg, o.idempotencyKey])
    && (forall i, j :: 0 <= i < j < |r.positions| ==> r.positions[i].id != r.positions[j].id)
    && (forall i, j :: 0 <= i < j < |r.orders| ==> r.orders[i].brokerOrder != r.orders[j].brokerOrder)
    && (forall i, j :: 0 <= i < j < |r.metadata| ==> r.metadata[i].brokerSymbol != r.metadata[j].brokerSymbol)
    && Distinct(r.unresolved) && 0 !in r.unresolved
    && (c.request.commandIds.Some? ==> forall id :: id in r.unresolved ==> id in c.request.commandIds.value)
  }

  /** The commands are valid, of the request's account and route, not newer than the bound, and exactly the targets. */
  ghost predicate ScopeIsSound(c: Context, items: seq<Item>, bound: int) {
    && c.requestedAt <= bound
    && (forall x :: x in items ==>
          && L.Valid(x.command, x.state) && x.command.account == c.request.account && x.state.updatedAt <= bound
          && c.request.terminal in {None, x.command.terminal} && c.request.client in {None, x.command.client})
    && (forall i, j :: 0 <= i < j < |items| ==> items[i].command.id != items[j].command.id)
    && (c.request.commandIds.Some? ==>
          forall id :: id in c.request.commandIds.value <==> exists x :: x in items && x.command.id == id)
  }

  /** Every event is one of a command in scope and happened in its life. */
  ghost predicate EventsAreSound(items: seq<Item>, events: seq<L.ExecutionEvent>, receivedAt: int) {
    && (forall e :: e in events ==> exists x :: x in items && EventOf(x, e, receivedAt))
    && (forall i, j :: 0 <= i < j < |events| ==> events[i].id != events[j].id)
  }

  predicate EventOf(x: Item, e: L.ExecutionEvent, receivedAt: int) {
    && e.command == x.command.id && L.EventFits(x.command, e) && x.state.createdAt <= e.eventAt <= receivedAt
    && (e.filledAt.Some? ==> x.state.createdAt <= e.filledAt.value)
  }

  lemma RequestAgrees(c: Context)
    ensures ValidContext(c) <==> RequestIsSound(c)
  {
  }

  lemma ResultAgrees(c: Context, r: BrokerResult, receivedAt: int)
    ensures ValidResult(c, r, receivedAt) <==> ResultIsSound(c, r, receivedAt)
  {
    RowsAgree(r);
    KeysAgree(r);
    hide PositionFits, OrderFits, MetadataFits, UniqueBy;
  }

  lemma RowsAgree(r: BrokerResult)
    ensures forall p :: PositionFits(r, p) <==>
              p == Position(p.id, r.account, r.observedAt, p.symbol, true) && p.id != 0 && p.symbol != 0
    ensures forall m :: MetadataFits(r, m) <==>
              && m == Metadata(m.brokerSymbol, m.symbol, r.account, r.observedAt, true)
              && m.brokerSymbol != 0 && m.symbol != 0
    ensures forall o :: OrderFits(r, o) <==>
              && o.account == r.account && o.observedAt == r.observedAt && o.rowSound && o.brokerOrder != 0
              && o.symbol != 0 && Some(0) !in [o.brokerSymbol, o.command, o.plan, o.leg, o.idempotencyKey]
  {
    forall o: Order ensures Some(0) in [o.brokerSymbol, o.command, o.plan, o.leg, o.idempotencyKey] <==>
        Some(0) == o.brokerSymbol || Some(0) == o.command || Some(0) == o.plan || Some(0) == o.leg
        || Some(0) == o.idempotencyKey {
      var list := [o.brokerSymbol, o.command, o.plan, o.leg, o.idempotencyKey];
      assert list[0] == o.brokerSymbol && list[1] == o.command && list[2] == o.plan && list[3] == o.leg;
      assert list[4] == o.idempotencyKey;
    }
  }

  lemma KeysAgree(r: BrokerResult)
    ensures UniqueBy(PositionKey, r.positions) <==>
              forall i, j :: 0 <= i < j < |r.positions| ==> r.positions[i].id != r.positions[j].id
    ensures UniqueBy(OrderKey, r.orders) <==>
              forall i, j :: 0 <= i < j < |r.orders| ==> r.orders[i].brokerOrder != r.orders[j].brokerOrder
    ensures UniqueBy(MetadataKey, r.metadata) <==>
              forall i, j :: 0 <= i < j < |r.metadata| ==> r.metadata[i].brokerSymbol != r.metadata[j].brokerSymbol
    ensures UniqueBy(IdKey, r.unresolved) <==> Distinct(r.unresolved)
  {
  }

  lemma ScopeAgrees(c: Context, items: seq<Item>, bound: int)
    requires RequestIsSound(c)
    ensures ValidScope(c, items, bound) <==> ScopeIsSound(c, items, bound)
  {
    assert UniqueBy(ItemKey, items) <==>
        forall i, j :: 0 <= i < j < |items| ==> items[i].command.id != items[j].command.id;
    hide UniqueBy;
    forall x ensures ItemFits(c, x, bound) <==>
        && L.Valid(x.command, x.state) && x.command.account == c.request.account && x.state.updatedAt <= bound
        && c.request.terminal in {None, x.command.terminal} && c.request.client in {None, x.command.client} {
    }
    hide ItemFits;
    if c.request.commandIds.Some? {
      TargetsAgree(c.request.commandIds.value, items);
    }
  }

  lemma TargetsAgree(ids: seq<nat>, items: seq<Item>)
    requires forall i, j :: 0 <= i < j < |ids| ==> ids[i] < ids[j]
    ensures Ascending(Ids(items)) == ids <==> forall id :: id in ids <==> exists x :: x in items && x.command.id == id
  {
    AscendingIs(Ids(items));
    assert Increasing(ids);
    hide Ascending;
    assert forall id :: id in Ids(items) <==> exists x :: x in items && x.command.id == id;
    if forall id :: id in ids <==> exists x :: x in items && x.command.id == id {
      SameIncreasing(Ascending(Ids(items)), ids);
    }
  }

  lemma EventsAgree(items: seq<Item>, events: seq<L.ExecutionEvent>, receivedAt: int)
    requires UniqueBy(ItemKey, items) && forall x :: x in items ==> L.Valid(x.command, x.state)
    ensures ValidEvents(Index(items), events, receivedAt) <==> EventsAreSound(items, events, receivedAt)
  {
    assert UniqueBy(EventIdKey, events) <==> forall i, j :: 0 <= i < j < |events| ==> events[i].id != events[j].id;
    IndexHolds(items);
    hide UniqueBy, Index;
    forall e ensures EventFits(Index(items), e, receivedAt) <==> exists x :: x in items && EventOf(x, e, receivedAt) {
      EventAgrees(items, e, receivedAt);
    }
  }

  lemma EventAgrees(items: seq<Item>, e: L.ExecutionEvent, receivedAt: int)
    requires UniqueBy(ItemKey, items) && forall x :: x in items ==> L.Valid(x.command, x.state)
    ensures EventFits(Index(items), e, receivedAt) <==> exists x :: x in items && EventOf(x, e, receivedAt)
  {
    var index := Index(items);
    IndexHolds(items);
    hide UniqueBy, Index;
    if e.command in index {
      var x := index[e.command];
      assert x in items && L.Valid(x.command, x.state);
      EventFitsAgrees(x, e);
      hide L.ValidateEvent, L.EventFits, L.Valid;
    } else {
      hide L.ValidateEvent, L.EventFits, L.Valid;
    }
  }

  lemma EventFitsAgrees(x: Item, e: L.ExecutionEvent)
    requires L.Valid(x.command, x.state)
    ensures 0 <= x.state.createdAt
    ensures 0 <= e.eventAt ==> (e.id != 0 && L.ValidateEvent(x.command, e).Ok? <==> L.EventFits(x.command, e))
  {
    L.EventFitsIs(x.command, e);
  }

  /** An evaluation succeeds exactly on sound inputs, and each refusal names the first part that is not. */
  lemma EvaluationAccepts(c: Context, r: BrokerResult, items: seq<Item>, events: seq<L.ExecutionEvent>, receivedAt: int)
    ensures var e := Evaluate(c, r, items, events, receivedAt);
            && (e == Err(InvalidRequest) <==> !RequestIsSound(c))
            && (e == Err(InvalidResult) <==> RequestIsSound(c) && !ResultIsSound(c, r, receivedAt))
            && (e == Err(InvalidContext) <==>
                  && RequestIsSound(c) && ResultIsSound(c, r, receivedAt)
                  && !(ScopeIsSound(c, items, receivedAt) && EventsAreSound(items, events, receivedAt)))
            && (e.Ok? <==>
                  && RequestIsSound(c) && ResultIsSound(c, r, receivedAt)
                  && ScopeIsSound(c, items, receivedAt) && EventsAreSound(items, events, receivedAt))
  {
    RequestAgrees(c);
    ResultAgrees(c, r, receivedAt);
    if RequestIsSound(c) {
      ScopeAgrees(c, items, receivedAt);
      if ValidScope(c, items, receivedAt) {
        ScopeHolds(c, items, receivedAt);
        EventsAgree(items, events, receivedAt);
      }
    }
    hide ValidContext, RequestIsSound, ValidResult, ResultIsSound, ScopeIsSound, ValidEvents, EventsAreSound, UniqueBy,
         Pending, AllFindings, Ascending, Canonical, ItemFits;
  }

  lemma ScopeHolds(c: Context, items: seq<Item>, bound: int)
    requires ValidScope(c, items, bound)
    ensures UniqueBy(ItemKey, items) && forall x :: x in items ==> L.Valid(x.command, x.state)
  {
    hide UniqueBy, Ascending;
  }

  // ---------------------------------------------------------------------
  // Compare-and-swap targets.

  /** The move swaps the state of its command, as it is now, for the outcome of the evidence. */
  predicate Swaps(x: Item, e: L.Evidence, m: Move) {
    && m.command == x.command.id && m.expectedStatus == x.state.status && m.expectedUpdatedAt == x.state.updatedAt
    && L.Transition(x.command, x.state, e) == Ok(m.outcome)
  }

  lemma MovesAreSwaps(index: map<nat, Item>, ids: seq<nat>, e: L.Evidence, eligible: L.Status -> bool, moves: seq<Move>)
    requires Covers(index, ids, e, eligible, moves)
    ensures forall m :: m in moves ==>
              m.command in ids && m.command in index && Swaps(index[m.command], e, m)
              && eligible(index[m.command].state.status)
  {
    forall m | m in moves ensures m.command in index && Swaps(index[m.command], e, m) {
      MoveSwaps(index[m.command], e, m);
    }
    hide MoveOf, Swaps;
  }

  lemma MoveSwaps(x: Item, e: L.Evidence, m: Move)
    requires MoveOf(x, e) == Ok(m)
    ensures Swaps(x, e, m)
  {
    hide L.Transition;
  }

  lemma DoubtfulStatuses()
    ensures forall s :: Uncertain(s) <==> s in {L.DeliveryUnconfirmed, L.Reconciling, L.ManualReconciliationRequired}
    ensures forall s :: Reconcilable(s) <==> s in {L.DeliveryUnconfirmed, L.Reconciling}
  {
  }

  /** What an escalation demands, whatever evaluation it is given, and what it returns. */
  lemma EscalationDemands(c: Context, e: Evaluation, items: seq<Item>, m: Manual)
    requires Escalate(c, e, items, m).Ok?
    ensures RequestIsSound(c) && ScopeIsSound(c, items, m.escalatedAt)
    ensures m.request == e.request == c.request.id && e.account == c.request.account && m.reason != 0
    ensures e.disposition == PendingEvidence && e.observedAt.Some? && e.observedAt.value <= m.escalatedAt
    ensures c.requestedAt <= m.escalatedAt && e.commandIds != [] && Increasing(e.commandIds)
    ensures c.request.commandIds.Some? ==> forall id :: id in e.commandIds ==> id in c.request.commandIds.value
    ensures forall id :: id in e.commandIds && id !in Ids(items) <==>
              exists f :: f in e.findings && (f.UnknownReportedUnresolved? || f.UnknownObserved?) && f.command == id
    ensures var s := Escalate(c, e, items, m).value;
            s.evidence == m && s.evaluation == e.(disposition := ManualRequired)
  {
    RequestAgrees(c);
    ScopeAgrees(c, items, m.escalatedAt);
    hide RequestIsSound, ValidContext, ValidScope, ScopeIsSound, Moves, Increasing;
    assert UniqueBy(ItemKey, items) by { ScopeHolds(c, items, m.escalatedAt); }
    IndexHolds(items);
    hide Index, UniqueBy, Ids;
    var unknown := set id | id in e.commandIds && id !in Index(items);
    assert unknown == UnknownIn(e.findings);
    forall id ensures id in e.commandIds && id !in Ids(items) <==>
        exists f :: f in e.findings && (f.UnknownReportedUnresolved? || f.UnknownObserved?) && f.command == id {
      assert id in unknown <==> id in UnknownIn(e.findings);
    }
  }

  /** The commands an escalation of an evaluation moves: exactly those in doubt among the ids that need attention. */
  lemma EscalationMoves(c: Context, r: BrokerResult, items: seq<Item>, events: seq<L.ExecutionEvent>,
                        receivedAt: int, m: Manual)
    requires forall x :: x in items ==> x.state.updatedAt < I64_MAX
    requires IsPending(Evaluate(c, r, items, events, receivedAt))
    requires Escalate(c, Evaluate(c, r, items, events, receivedAt).value.evaluation, items, m).Ok?
    ensures var e := Evaluate(c, r, items, events, receivedAt).value.evaluation;
            var moves, evidence := Escalate(c, e, items, m).value.moves, L.RequireManual(m.escalatedAt);
            && (forall k :: k in moves ==> k.command in e.commandIds && exists x :: x in items && Swaps(x, evidence, k))
            && (forall x :: x in items && x.command.id in e.commandIds ==>
                  (x.state.status in {L.DeliveryUnconfirmed, L.Reconciling, L.ManualReconciliationRequired} <==>
                   exists k :: k in moves && k.command == x.command.id))
  {
    EscalationIsTotal(c, r, items, events, receivedAt, m);
    DoubtfulStatuses();
    hide Evaluate, Escalate, Covers, Swaps, UniqueBy, Uncertain, Index;
    var e := Evaluate(c, r, items, events, receivedAt).value.evaluation;
    var moves := Escalate(c, e, items, m).value.moves;
    IndexHolds(items);
    MovesAreSwaps(Index(items), e.commandIds, L.RequireManual(m.escalatedAt), Uncertain, moves);
    CoversEach(Index(items), e.commandIds, L.RequireManual(m.escalatedAt), Uncertain, moves);
  }

  lemma CoversEach(index: map<nat, Item>, ids: seq<nat>, e: L.Evidence, eligible: L.Status -> bool, moves: seq<Move>)
    requires Covers(index, ids, e, eligible, moves)
    ensures forall id :: id in ids && id in index && eligible(index[id].state.status) ==>
              exists m :: m in moves && m.command == id
  {
  }

  /** A missing result is escalated for every command in scope, with the one finding that says so. */
  lemma MissingEscalation(c: Context, items: seq<Item>, m: Manual)
    requires EscalateMissing(c, items, m).Ok?
    ensures RequestIsSound(c) && ScopeIsSound(c, items, m.escalatedAt)
    ensures m.request == c.request.id && m.reason != 0 && c.requestedAt <= m.escalatedAt
    ensures var s := EscalateMissing(c, items, m).value;
            && s.evidence == m && s.evaluation.request == c.request.id && s.evaluation.account == c.request.account
            && s.evaluation.observedAt == None && s.evaluation.disposition == ManualRequired
            && s.evaluation.findings == [ResultMissing(m.escalatedAt)] && Increasing(s.evaluation.commandIds)
            && forall id :: id in s.evaluation.commandIds <==> id in Ids(items)
  {
    RequestAgrees(c);
    ScopeAgrees(c, items, m.escalatedAt);
    hide RequestIsSound, ValidContext, ValidScope, ScopeIsSound, Moves;
    assert UniqueBy(ItemKey, items) by { ScopeHolds(c, items, m.escalatedAt); }
    IndexHolds(items);
    AscendingIs(Index(items).Keys);
    hide Index, UniqueBy, Ids, Ascending, Increasing;
  }

  /** A built request carries its input over, its scope in ascending order; anything else is refused. */
  lemma BuiltRequest(i: Input)
    ensures var b := BuildRequest(i);
            && (b.Err? ==> b.error == InvalidRequest)
            && (b.Ok? <==>
                  && RequestIsSound(Context(Request(i.id, i.account, i.terminal, i.client, None, i.since),
                                            i.requestedAt))
                  && (i.commandIds.Some? ==>
                        i.commandIds.value != [] && 0 !in i.commandIds.value && Distinct(i.commandIds.value)))
            && (b.Ok? ==>
                  var q := b.value.request;
                  && b.value.requestedAt == i.requestedAt && (q.commandIds.Some? <==> i.commandIds.Some?)
                  && q == Request(i.id, i.account, i.terminal, i.client, q.commandIds, i.since)
                  && (q.commandIds.Some? ==>
                        && Increasing(q.commandIds.value)
                        && forall id :: id in q.commandIds.value <==> id in i.commandIds.value))
  {
    if i.commandIds.Some? {
      DistinctIffCount(i.commandIds.value);
      AscendingIs(Elements(i.commandIds.value));
      var ids := Ascending(Elements(i.commandIds.value));
      assert ids == [] <==> i.commandIds.value == [] by {
        if i.commandIds.value != [] { assert i.commandIds.value[0] in ids; }
        if ids != [] { assert ids[0] in i.commandIds.value; }
      }
      assert 0 in ids <==> 0 in i.commandIds.value;
      assert (forall k :: 0 <= k < |ids| ==> ids[k] != 0) <==> 0 !in ids;
      hide Increasing;
    }
    hide Ascending, Distinct;
  }

  /** Planning begins the reconciliation of exactly the commands in delivery doubt. */
  lemma PlannedMoves(i: Input, items: seq<Item>)
    requires BuildRequest(i).Ok? && ScopeOutcome(BuildRequest(i).value, items, i.requestedAt).Ok?
    requires forall x :: x in items ==> x.state.updatedAt < I64_MAX
    ensures PlanRequest(i, items).Ok? && PlanRequest(i, items).value.context == BuildRequest(i).value
    ensures var moves := PlanRequest(i, items).value.moves;
            forall x :: x in items ==>
              (x.state.status in {L.DeliveryUnconfirmed, L.Reconciling} <==>
               exists k :: k in moves && k.command == x.command.id)
  {
    PlanningIsTotal(i, items);
    assert UniqueBy(ItemKey, items) by { ScopeHolds(BuildRequest(i).value, items, i.requestedAt); }
    UniqueItems(items);
    DoubtfulStatuses();
    hide BuildRequest, ScopeOutcome, Moves, UniqueBy, Uncertain, Reconcilable, Ascending;
  }
}
