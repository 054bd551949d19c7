/**
  Reconciliation of commands against a broker observation: validation of the
  request, the result, the command scope and the recorded events; evaluation of
  what is still uncertain; and explicit escalation to manual work.

  Identifiers are opaque numbers, 0 standing for a blank text; their order is the
  order of the texts. A snapshot row carries one flag for its own numeric and time
  checks.
*/
module Reconciliation {
  import opened Prelude
  import opened Sorting
  import L = Lifecycle

  datatype Request = Request(
    id: nat, account: nat, terminal: Option<nat>, client: Option<nat>, commandIds: Option<seq<nat>>,
    since: Option<int>)

  datatype Context = Context(request: Request, requestedAt: int)

  datatype Item = Item(command: L.Command, state: L.State)

  datatype OrderStatus = Open | PartialOrder | FilledOrder | CancelledOrder | RejectedOrder | ExpiredOrder

  datatype Side = BuySide | SellSide

  datatype Order = Order(
    brokerOrder: nat, account: nat, observedAt: int, symbol: nat, brokerSymbol: Option<nat>,
    command: Option<nat>, plan: Option<nat>, leg: Option<nat>, idempotencyKey: Option<nat>,
    terminal: Option<nat>, client: Option<nat>, side: Side, status: OrderStatus,
    requestedLots: L.Amount, rowSound: bool)

  datatype Position = Position(id: nat, account: nat, observedAt: int, symbol: nat, rowSound: bool)

  datatype Metadata = Metadata(brokerSymbol: nat, symbol: nat, account: nat, observedAt: int, rowSound: bool)

  datatype AccountRow = AccountRow(account: nat, observedAt: int, rowSound: bool)

  datatype BrokerResult = BrokerResult(
    request: nat, account: nat, terminal: Option<nat>, client: Option<nat>, observedAt: int,
    accountRow: Option<AccountRow>, positions: seq<Position>, orders: seq<Order>, metadata: seq<Metadata>,
    unresolved: seq<nat>)

  datatype Error =
    | InvalidRequest
    | InvalidResult
    | InvalidContext
    | InvalidManual
    | CommandTransition(command: nat, source: L.Error)

  datatype Field =
    | Symbol | BrokerSymbol | PlanId | LegId | IdempotencyKey | TerminalId | ClientId | RequestedLots | OrderSide

  datatype Finding =
    | ClientReportedUnresolved(command: nat)
    | UnresolvedDespiteAuthority(command: nat, status: L.Status)
    | AlreadyManual(command: nat)
    | UnknownReportedUnresolved(command: nat)
    | UnknownObserved(command: nat, brokerOrders: seq<nat>)
    | MissingEvidence(command: nat, brokerOrders: seq<nat>)
    | ProjectionPending(command: nat, event: L.EventStatus)
    | MultipleOrders(command: nat, brokerOrders: seq<nat>)
    | IdentityConflict(command: nat, brokerOrder: nat, field: Field)
    | SnapshotConflict(command: nat, brokerOrder: nat, event: L.EventStatus, snapshot: OrderStatus)
    | ResultMissing(escalatedAt: int)

  datatype Disposition = Completed | PendingEvidence | ManualRequired

  datatype Evaluation = Evaluation(
    request: nat, account: nat, observedAt: Option<int>, disposition: Disposition, commandIds: seq<nat>,
    findings: seq<Finding>)

  datatype Evaluated = Evaluated(result: BrokerResult, evaluation: Evaluation)

  // ---------------------------------------------------------------------
  // Validation.

  predicate NotBlank(t: Option<nat>) {
    t != Some(0)
  }

  predicate ValidContext(c: Context) {
    && c.request.id != 0 && c.request.account != 0 && NotBlank(c.request.terminal) && NotBlank(c.request.client)
    && 0 <= c.requestedAt
    && (c.request.since.Some? ==> 0 <= c.request.since.value <= c.requestedAt)
    && (c.request.commandIds.Some? ==>
          var ids := c.request.commandIds.value;
          ids != [] && (forall i :: 0 <= i < |ids| ==> ids[i] != 0) && Increasing(ids))
  }

  function ItemKey(x: Item): Key { Key(x.command.id, 0) }
  function OrderKey(x: Order): Key { Key(x.brokerOrder, 0) }
  function PositionKey(x: Position): Key { Key(x.id, 0) }
  function MetadataKey(x: Metadata): Key { Key(x.brokerSymbol, 0) }
  function IdKey(x: nat): Key { Key(x, 0) }
  function EventIdKey(x: L.ExecutionEvent): Key { Key(x.id, 0) }
  function EventKey(x: L.ExecutionEvent): Key { Key(x.eventAt, x.id) }

  predicate RouteAllows(requested: Option<nat>, actual: Option<nat>) {
    requested.Some? ==> requested == actual
  }

  predicate ItemFits(c: Context, x: Item, bound: int) {
    && L.Valid(x.command, x.state) && x.command.account == c.request.account
    && RouteAllows(c.request.terminal, x.command.terminal) && RouteAllows(c.request.client, x.command.client)
    && x.state.updatedAt <= bound
  }

  function Ids(items: seq<Item>): set<nat> {
    set x | x in items :: x.command.id
  }

  /** `validate_command_scope` after the request check. */
  predicate ValidScope(c: Context, items: seq<Item>, bound: int) {
    && c.requestedAt <= bound
    && (forall x :: x in items ==> ItemFits(c, x, bound))
    && UniqueBy(ItemKey, items)
    && (c.request.commandIds.Some? ==> Ascending(Ids(items)) == c.request.commandIds.value)
  }

  /** The command map the scope check returns. */
  function Index(items: seq<Item>): map<nat, Item>
    requires UniqueBy(ItemKey, items)
  {
    UniqueItems(items);
    map x | x in items :: x.command.id := x
  }

  lemma UniqueItems(items: seq<Item>)
    requires UniqueBy(ItemKey, items)
    ensures forall x, y :: x in items && y in items && x.command.id == y.command.id ==> x == y
  {
  }

  predicate OrderFits(r: BrokerResult, o: Order) {
    && o.account == r.account && o.observedAt == r.observedAt && o.brokerOrder != 0 && o.symbol != 0
    && NotBlank(o.brokerSymbol) && NotBlank(o.command) && NotBlank(o.plan) && NotBlank(o.leg)
    && NotBlank(o.idempotencyKey) && o.rowSound
  }

  predicate PositionFits(r: BrokerResult, p: Position) {
    p.account == r.account && p.observedAt == r.observedAt && p.id != 0 && p.symbol != 0 && p.rowSound
  }

  predicate MetadataFits(r: BrokerResult, m: Metadata) {
    m.account == r.account && m.observedAt == r.observedAt && m.symbol != 0 && m.brokerSymbol != 0 && m.rowSound
  }

  /** `validate_result` after the request check. */
  predicate ValidResult(c: Context, r: BrokerResult, receivedAt: int) {
    && r.request == c.request.id && r.account == c.request.account
    && r.terminal == c.request.terminal && r.client == c.request.client
    && c.requestedAt <= r.observedAt <= receivedAt
    && (r.accountRow.Some? ==>
          r.accountRow.value.account == r.account && r.accountRow.value.observedAt == r.observedAt
          && r.accountRow.value.rowSound)
    && (forall p :: p in r.positions ==> PositionFits(r, p)) && UniqueBy(PositionKey, r.positions)
    && (forall o :: o in r.orders ==> OrderFits(r, o)) && UniqueBy(OrderKey, r.orders)
    && (forall m :: m in r.metadata ==> MetadataFits(r, m)) && UniqueBy(MetadataKey, r.metadata)
    && (forall id :: id in r.unresolved ==> id != 0) && UniqueBy(IdKey, r.unresolved)
    && (c.request.commandIds.Some? ==> forall id :: id in r.unresolved ==> id in c.request.commandIds.value)
  }

  predicate EventFits(index: map<nat, Item>, e: L.ExecutionEvent, receivedAt: int) {
    && e.id != 0 && e.command in index
    && var x := index[e.command];
       && L.ValidateEvent(x.command, e).Ok?
       && x.state.createdAt <= e.eventAt <= receivedAt
       && (e.filledAt.Some? ==> x.state.createdAt <= e.filledAt.value)
  }

  predicate ValidEvents(index: map<nat, Item>, events: seq<L.ExecutionEvent>, receivedAt: int) {
    (forall e :: e in events ==> EventFits(index, e, receivedAt)) && UniqueBy(EventIdKey, events)
  }

  // ---------------------------------------------------------------------
  // Evaluation.

  predicate ForCommand(o: Order, id: nat) {
    o.command == Some(id)
  }

  function OrdersFor(orders: seq<Order>, id: nat): seq<Order> {
    SortBy(OrderKey, Filter((o: Order) => ForCommand(o, id), orders))
  }

  function EventsFor(events: seq<L.ExecutionEvent>, id: nat): seq<L.ExecutionEvent> {
    SortBy(EventKey, Filter((e: L.ExecutionEvent) => e.command == id, events))
  }

  function BrokerOrders(orders: seq<Order>): seq<nat> {
    seq(|orders|, i requires 0 <= i < |orders| => orders[i].brokerOrder)
  }

  /** `canonicalize_result_sets`. */
  function Canonical(r: BrokerResult): BrokerResult {
    r.(positions := SortBy(PositionKey, r.positions), orders := SortBy(OrderKey, r.orders),
       metadata := SortBy(MetadataKey, r.metadata), unresolved := SortBy(IdKey, r.unresolved))
  }

  predicate Differs(given: Option<nat>, expected: Option<nat>) {
    given.Some? && given != expected
  }

  function Listed(condition: bool, field: Field): seq<Field> {
    if condition then [field] else []
  }

  /** `order_identity_conflicts`. */
  function Conflicts(o: Order, c: L.Command): seq<Field> {
    Listed(o.symbol != c.symbol, Symbol)
    + Listed(Differs(o.brokerSymbol, c.brokerSymbol), BrokerSymbol)
    + Listed(Differs(o.plan, c.plan), PlanId)
    + Listed(Differs(o.leg, c.leg), LegId)
    + Listed(Differs(o.idempotencyKey, Some(c.idempotencyKey)), IdempotencyKey)
    + Listed(Differs(o.terminal, c.terminal), TerminalId)
    + Listed(Differs(o.client, c.client), ClientId)
    + Listed(c.lots.Some? && c.lots.value.bits != o.requestedLots.bits, RequestedLots)
    + Listed((c.action.Buy? && o.side.SellSide?) || (c.action.Sell? && o.side.BuySide?), OrderSide)
  }

  predicate SnapshotContradicts(event: L.EventStatus, snapshot: OrderStatus) {
    match event
    case EventFilled => !snapshot.FilledOrder?
    case EventRejected => !snapshot.RejectedOrder?
    case EventExpired => !snapshot.ExpiredOrder?
    case EventCancelled => !snapshot.CancelledOrder?
    case _ => false
  }

  /** The last event at or before the observation. */
  function LatestBy(events: seq<L.ExecutionEvent>, observedAt: int): Option<L.ExecutionEvent> {
    if events == [] then None
    else if events[|events| - 1].eventAt <= observedAt then Some(events[|events| - 1])
    else LatestBy(events[..|events| - 1], observedAt)
  }

  function ConflictFindings(id: nat, o: Order, fields: seq<Field>): seq<Finding> {
    seq(|fields|, i requires 0 <= i < |fields| => IdentityConflict(id, o.brokerOrder, fields[i]))
  }

  function OrderFindings(id: nat, c: L.Command, o: Order, latest: Option<L.ExecutionEvent>): seq<Finding> {
    ConflictFindings(id, o, Conflicts(o, c))
    + if latest.Some? && SnapshotContradicts(latest.value.status, o.status) then
        [SnapshotConflict(id, o.brokerOrder, latest.value.status, o.status)]
      else []
  }

  function OrdersFindings(id: nat, c: L.Command, orders: seq<Order>, latest: Option<L.ExecutionEvent>): seq<Finding> {
    if orders == [] then []
    else OrdersFindings(id, c, orders[..|orders| - 1], latest) + OrderFindings(id, c, orders[|orders| - 1], latest)
  }

  /** `inspect_order_observations`. */
  function Inspection(id: nat, c: L.Command, orders: seq<Order>, events: seq<L.ExecutionEvent>,
                      observedAt: int): seq<Finding>
  {
    (if |orders| > 1 then [MultipleOrders(id, BrokerOrders(orders))] else [])
    + OrdersFindings(id, c, orders, LatestBy(events, observedAt))
  }

  predicate Supports(event: L.EventStatus, status: L.Status) {
    L.StatusOfEvent(event) == status
  }

  predicate Supported(events: seq<L.ExecutionEvent>, status: L.Status) {
    exists e :: e in events && Supports(e.status, status)
  }

  /** `has_authoritative_delivery_evidence`. */
  predicate Authoritative(x: Item, events: seq<L.ExecutionEvent>) {
    if x.state.receivedAt.Some? then true
    else match x.state.status
      case Created => true
      case DeliveryFailed => true
      case Expired => x.state.dispatchedAt.None? || Supported(events, x.state.status)
      case Cancelled => x.state.dispatchedAt.None? || Supported(events, x.state.status)
      case _ => Supported(events, x.state.status)
  }

  predicate NeedsAttention(x: Item, events: seq<L.ExecutionEvent>, unresolved: bool) {
    x.state.status.ManualReconciliationRequired? || !Authoritative(x, events) || unresolved
  }

  function Reported(unresolved: bool, f: Finding): seq<Finding> {
    if unresolved then [f] else []
  }

  function StatusFindings(id: nat, x: Item, orders: seq<Order>, events: seq<L.ExecutionEvent>,
                          unresolved: bool): seq<Finding>
  {
    if x.state.status.ManualReconciliationRequired? then
      [AlreadyManual(id)] + Reported(unresolved, ClientReportedUnresolved(id))
    else if Authoritative(x, events) then
      Reported(unresolved, UnresolvedDespiteAuthority(id, x.state.status))
    else
      Reported(unresolved, ClientReportedUnresolved(id))
      + [MissingEvidence(id, BrokerOrders(orders))]
      + if events == [] then [] else [ProjectionPending(id, events[|events| - 1].status)]
  }

  function ItemFindings(r: BrokerResult, x: Item, events: seq<L.ExecutionEvent>): seq<Finding> {
    var id := x.command.id;
    Inspection(id, x.command, OrdersFor(r.orders, id), EventsFor(events, id), r.observedAt)
    + StatusFindings(id, x, OrdersFor(r.orders, id), EventsFor(events, id), id in r.unresolved)
  }

  predicate MayMatch(requested: Option<nat>, observed: Option<nat>) {
    requested.None? || observed.None? || requested == observed
  }

  predicate OnRoute(c: Context, o: Order) {
    MayMatch(c.request.terminal, o.terminal) && MayMatch(c.request.client, o.client)
  }

  function OrderCommands(orders: seq<Order>): set<nat> {
    set o | o in orders && o.command.Some? :: o.command.value
  }

  predicate SeenOnRoute(c: Context, orders: seq<Order>, id: nat) {
    exists o :: o in orders && o.command == Some(id) && OnRoute(c, o)
  }

  function UnknownOrderFindings(c: Context, orders: seq<Order>, id: nat): seq<Finding> {
    [UnknownObserved(id, BrokerOrders(Filter((o: Order) => OnRoute(c, o), OrdersFor(orders, id))))]
  }

  /** What a command id contributes, over a list of ids. */
  function ItemsFindings(r: BrokerResult, index: map<nat, Item>, events: seq<L.ExecutionEvent>,
                         ids: seq<nat>): seq<Finding>
  {
    if ids == [] then []
    else
      var id := ids[|ids| - 1];
      ItemsFindings(r, index, events, ids[..|ids| - 1])
      + if id in index then ItemFindings(r, index[id], events) else []
  }

  predicate UnknownOnRoute(c: Context, r: BrokerResult, index: map<nat, Item>, id: nat) {
    id !in index && SeenOnRoute(c, r.orders, id)
  }

  function UnknownFindings(c: Context, r: BrokerResult, index: map<nat, Item>, ids: seq<nat>): seq<Finding> {
    if ids == [] then []
    else
      var id := ids[|ids| - 1];
      UnknownFindings(c, r, index, ids[..|ids| - 1])
      + if UnknownOnRoute(c, r, index, id) then UnknownOrderFindings(c, r.orders, id) else []
  }

  function UnknownReports(index: map<nat, Item>, ids: seq<nat>): seq<Finding> {
    if ids == [] then []
    else
      var id := ids[|ids| - 1];
      UnknownReports(index, ids[..|ids| - 1]) + if id in index then [] else [UnknownReportedUnresolved(id)]
  }

  /** The commands that keep the evaluation from being complete. */
  function Pending(c: Context, r: BrokerResult, index: map<nat, Item>, events: seq<L.ExecutionEvent>): set<nat> {
    (set id | id in index && NeedsAttention(index[id], EventsFor(events, id), id in r.unresolved))
    + (if c.request.commandIds.Some? then {}
       else (set id | id in OrderCommands(r.orders) && UnknownOnRoute(c, r, index, id))
            + (set id | id in r.unresolved && id !in index))
  }

  function AllFindings(c: Context, r: BrokerResult, index: map<nat, Item>,
                       events: seq<L.ExecutionEvent>): seq<Finding>
  {
    ItemsFindings(r, index, events, Ascending(index.Keys))
    + if c.request.commandIds.Some? then []
      else UnknownFindings(c, r, index, Ascending(OrderCommands(r.orders)))
           + UnknownReports(index, Ascending(Elements(r.unresolved)))
  }

  /** `evaluate_reconciliation_result`. */
  function Evaluate(c: Context, result: BrokerResult, items: seq<Item>, events: seq<L.ExecutionEvent>, receivedAt: int)
    : Result<Evaluated, Error>
  {
    if !ValidContext(c) then Err(InvalidRequest)
    else if !ValidResult(c, result, receivedAt) then Err(InvalidResult)
    else if !ValidScope(c, items, receivedAt) then Err(InvalidContext)
    else
      var index := Index(items);
      if !ValidEvents(index, events, receivedAt) then Err(InvalidContext)
      else
        var r := Canonical(result);
        var pending := Ascending(Pending(c, r, index, events));
        Ok(Evaluated(r, Evaluation(r.request, r.account, Some(r.observedAt),
                                   if pending != [] then PendingEvidence else Completed,
                                   pending, AllFindings(c, r, index, events))))
  }

  // ---------------------------------------------------------------------
  // Order does not matter.

  predicate SameParts(a: BrokerResult, b: BrokerResult) {
    && a.(positions := [], orders := [], metadata := [], unresolved := [])
       == b.(positions := [], orders := [], metadata := [], unresolved := [])
    && multiset(a.positions) == multiset(b.positions) && multiset(a.orders) == multiset(b.orders)
    && multiset(a.metadata) == multiset(b.metadata) && multiset(a.unresolved) == multiset(b.unresolved)
  }

  lemma SameResultValid(c: Context, a: BrokerResult, b: BrokerResult, receivedAt: int)
    requires SameParts(a, b)
    ensures ValidResult(c, a, receivedAt) <==> ValidResult(c, b, receivedAt)
  {
    SameMembers(a.positions, b.positions);
    SameMembers(a.orders, b.orders);
    SameMembers(a.metadata, b.metadata);
    SameMembers(a.unresolved, b.unresolved);
    UniquePermutes(PositionKey, a.positions, b.positions);
    UniquePermutes(OrderKey, a.orders, b.orders);
    UniquePermutes(MetadataKey, a.metadata, b.metadata);
    UniquePermutes(IdKey, a.unresolved, b.unresolved);
    hide UniqueBy;
    assert a.account == b.account && a.observedAt == b.observedAt && a.accountRow == b.accountRow;
    assert forall p :: PositionFits(a, p) == PositionFits(b, p);
    assert forall o :: OrderFits(a, o) == OrderFits(b, o);
    assert forall m :: MetadataFits(a, m) == MetadataFits(b, m);
    hide PositionFits, OrderFits, MetadataFits;
  }

  lemma SameCanonical(c: Context, a: BrokerResult, b: BrokerResult, receivedAt: int)
    requires SameParts(a, b) && ValidResult(c, a, receivedAt)
    ensures Canonical(a) == Canonical(b)
  {
    hide PositionFits, OrderFits, MetadataFits, SortBy;
    SortPermutes(PositionKey, a.positions, b.positions);
    SortPermutes(OrderKey, a.orders, b.orders);
    SortPermutes(MetadataKey, a.metadata, b.metadata);
    SortPermutes(IdKey, a.unresolved, b.unresolved);
  }

  lemma SameScope(c: Context, a: seq<Item>, b: seq<Item>, bound: int)
    requires multiset(a) == multiset(b)
    ensures ValidScope(c, a, bound) <==> ValidScope(c, b, bound)
    ensures UniqueBy(ItemKey, a) ==> UniqueBy(ItemKey, b) && Index(a) == Index(b)
  {
    SameMembers(a, b);
    UniquePermutes(ItemKey, a, b);
    hide UniqueBy, ItemFits, Ascending;
    assert Ids(a) == Ids(b);
  }

  lemma UniqueFilter(p: L.ExecutionEvent -> bool, s: seq<L.ExecutionEvent>)
    requires UniqueBy(EventIdKey, s)
    ensures UniqueBy(EventIdKey, Filter(p, s)) && UniqueBy(EventKey, Filter(p, s))
  {
    if s != [] {
      assert UniqueBy(EventIdKey, s[1..]);
      UniqueFilter(p, s[1..]);
      var rest := Filter(p, s[1..]);
      forall y | y in rest ensures y.id != s[0].id {
        FilterIn(p, s[1..], y);
        var i :| 0 <= i < |s[1..]| && s[1..][i] == y;
        assert EventIdKey(s[0]) != EventIdKey(s[i + 1]);
      }
      hide Filter;
      UniqueEventCons(s[0], rest);
      FilterStep(p, s);
    }
  }

  lemma FilterStep<T>(p: T -> bool, s: seq<T>)
    requires s != []
    ensures Filter(p, s) == Filter(p, s[1..]) || Filter(p, s) == [s[0]] + Filter(p, s[1..])
  {
  }

  lemma UniqueEventCons(x: L.ExecutionEvent, rest: seq<L.ExecutionEvent>)
    requires UniqueBy(EventIdKey, rest) && UniqueBy(EventKey, rest) && forall y :: y in rest ==> y.id != x.id
    ensures UniqueBy(EventIdKey, [x] + rest) && UniqueBy(EventKey, [x] + rest)
  {
  }

  lemma SameEvents(index: map<nat, Item>, a: seq<L.ExecutionEvent>, b: seq<L.ExecutionEvent>, receivedAt: int)
    requires multiset(a) == multiset(b)
    ensures ValidEvents(index, a, receivedAt) <==> ValidEvents(index, b, receivedAt)
    ensures ValidEvents(index, a, receivedAt) ==> forall id :: EventsFor(a, id) == EventsFor(b, id)
  {
    SameMembers(a, b);
    UniquePermutes(EventIdKey, a, b);
    hide UniqueBy, EventFits;
    if ValidEvents(index, a, receivedAt) {
      forall id ensures EventsFor(a, id) == EventsFor(b, id) {
        var p := (e: L.ExecutionEvent) => e.command == id;
        UniqueFilter(p, a);
        FilterPermutes(p, a, b);
        SortPermutes(EventKey, Filter(p, a), Filter(p, b));
      }
    }
  }

  lemma SameItemsFindings(r: BrokerResult, index: map<nat, Item>, a: seq<L.ExecutionEvent>,
                          b: seq<L.ExecutionEvent>, ids: seq<nat>)
    requires forall id :: EventsFor(a, id) == EventsFor(b, id)
    ensures ItemsFindings(r, index, a, ids) == ItemsFindings(r, index, b, ids)
  {
  }

  lemma SamePending(c: Context, r: BrokerResult, index: map<nat, Item>, a: seq<L.ExecutionEvent>,
                    b: seq<L.ExecutionEvent>)
    requires forall id :: EventsFor(a, id) == EventsFor(b, id)
    ensures Pending(c, r, index, a) == Pending(c, r, index, b)
  {
  }

  /**
    Evaluation does not depend on the order of orders, positions, metadata,
    unresolved ids, commands or events: permuting any of them gives the identical
    evaluation and canonical result, or the same refusal.
  */
  lemma EvaluationIgnoresOrder(c: Context, a: BrokerResult, b: BrokerResult, items: seq<Item>, others: seq<Item>,
                               events: seq<L.ExecutionEvent>, shuffled: seq<L.ExecutionEvent>, receivedAt: int)
    requires SameParts(a, b) && multiset(items) == multiset(others) && multiset(events) == multiset(shuffled)
    ensures Evaluate(c, a, items, events, receivedAt) == Evaluate(c, b, others, shuffled, receivedAt)
  {
    SameResultValid(c, a, b, receivedAt);
    SameScope(c, items, others, receivedAt);
    hide SameParts, ValidResult, ValidContext, Pending, ItemsFindings, UnknownFindings, UnknownReports, Canonical,
         Ascending, UniqueBy,
         Index, ValidEvents, EventsFor, ItemFits;
    if ValidContext(c) && ValidResult(c, a, receivedAt) && ValidScope(c, items, receivedAt) {
      SameCanonical(c, a, b, receivedAt);
      var index := Index(items);
      SameEvents(index, events, shuffled, receivedAt);
      if ValidEvents(index, events, receivedAt) {
        SamePending(c, Canonical(a), index, events, shuffled);
        SameItemsFindings(Canonical(a), index, events, shuffled, Ascending(index.Keys));
      }
    }
  }

  // ---------------------------------------------------------------------
  // When an evaluation is complete.

  /** An event of the command with this status is recorded. */
  predicate IsRecorded(x: Item, events: seq<L.ExecutionEvent>, status: L.EventStatus) {
    exists e :: e in events && e.command == x.command.id && e.status == status
  }

  /**
    What makes a command's status authoritative: its receipt; never having left; or
    the recorded event of the very same name. Statuses in doubt have no such event.
  */
  predicate HasAuthority(x: Item, events: seq<L.ExecutionEvent>) {
    || x.state.receivedAt.Some?
    || match x.state.status
       case Created => true
       case DeliveryFailed => true
       case Expired => x.state.dispatchedAt.None? || IsRecorded(x, events, L.EventExpired)
       case Cancelled => x.state.dispatchedAt.None? || IsRecorded(x, events, L.EventCancelled)
       case Accepted => IsRecorded(x, events, L.EventAccepted)
       case Rejected => IsRecorded(x, events, L.EventRejected)
       case OrderSent => IsRecorded(x, events, L.EventOrderSent)
       case PartiallyFilled => IsRecorded(x, events, L.EventPartiallyFilled)
       case Filled => IsRecorded(x, events, L.EventFilled)
       case Failed => IsRecorded(x, events, L.EventFailed)
       case Dispatched => false
       case DeliveryUnconfirmed => false
       case Reconciling => false
       case ManualReconciliationRequired => false
       case CommandReceived => false
  }

  /** What a command in scope must show. */
  predicate Settled(r: BrokerResult, x: Item, events: seq<L.ExecutionEvent>) {
    !x.state.status.ManualReconciliationRequired? && HasAuthority(x, events) && x.command.id !in r.unresolved
  }

  /** An id outside the scope that the result brings up. */
  predicate BroughtUp(c: Context, r: BrokerResult, items: seq<Item>, id: nat) {
    id !in Ids(items) && (id in r.unresolved || SeenOnRoute(c, r.orders, id))
  }

  predicate Violates(c: Context, r: BrokerResult, items: seq<Item>, events: seq<L.ExecutionEvent>, id: nat) {
    || (exists x :: x in items && x.command.id == id && !Settled(r, x, events))
    || (c.request.commandIds.None? && BroughtUp(c, r, items, id))
  }

  lemma EventsForMembers(events: seq<L.ExecutionEvent>, id: nat, e: L.ExecutionEvent)
    ensures e in EventsFor(events, id) <==> e in events && e.command == id
  {
    var p := (x: L.ExecutionEvent) => x.command == id;
    SortMembers(EventKey, Filter(p, events), e);
    FilterIn(p, events, e);
  }

  /** Authority over the sorted events of a command is authority in these terms over all events. */
  lemma AuthorityAgrees(x: Item, events: seq<L.ExecutionEvent>)
    ensures Authoritative(x, EventsFor(events, x.command.id)) <==> HasAuthority(x, events)
  {
    var own := EventsFor(events, x.command.id);
    forall e ensures e in own <==> e in events && e.command == x.command.id {
      EventsForMembers(events, x.command.id, e);
    }
    hide EventsFor;
    SupportIs(own, x.state.status);
    forall status ensures IsRecorded(x, events, status) <==> exists e :: e in own && e.status == status {
    }
    hide Supported, IsRecorded;
  }

  lemma SupportIs(events: seq<L.ExecutionEvent>, status: L.Status)
    ensures Supported(events, status) <==>
              match status
              case Accepted => exists e :: e in events && e.status == L.EventAccepted
              case OrderSent => exists e :: e in events && e.status == L.EventOrderSent
              case Rejected => exists e :: e in events && e.status == L.EventRejected
              case PartiallyFilled => exists e :: e in events && e.status == L.EventPartiallyFilled
              case Filled => exists e :: e in events && e.status == L.EventFilled
              case Failed => exists e :: e in events && e.status == L.EventFailed
              case Expired => exists e :: e in events && e.status == L.EventExpired
              case Cancelled => exists e :: e in events && e.status == L.EventCancelled
              case _ => false
  {
  }

  lemma CanonicalMembers(r: BrokerResult)
    ensures forall id :: id in Canonical(r).unresolved <==> id in r.unresolved
    ensures forall o :: o in Canonical(r).orders <==> o in r.orders
  {
    forall id ensures id in Canonical(r).unresolved <==> id in r.unresolved {
      SortMembers(IdKey, r.unresolved, id);
    }
    forall o ensures o in Canonical(r).orders <==> o in r.orders {
      SortMembers(OrderKey, r.orders, o);
    }
  }

  lemma PendingItems(c: Context, r: BrokerResult, items: seq<Item>, events: seq<L.ExecutionEvent>, id: nat)
    requires UniqueBy(ItemKey, items) && id in Index(items)
    ensures id in Pending(c, Canonical(r), Index(items), events) <==> !Settled(r, Index(items)[id], events)
  {
    CanonicalMembers(r);
    AuthorityAgrees(Index(items)[id], events);
    hide Canonical, EventsFor, Authoritative, HasAuthority, SeenOnRoute, UniqueBy;
  }

  lemma PendingUnknown(c: Context, r: BrokerResult, items: seq<Item>, events: seq<L.ExecutionEvent>, id: nat)
    requires UniqueBy(ItemKey, items) && id !in Index(items)
    ensures id in Pending(c, Canonical(r), Index(items), events)
       <==> c.request.commandIds.None? && BroughtUp(c, r, items, id)
  {
    CanonicalMembers(r);
    hide Canonical, EventsFor, Authoritative, UniqueBy;
    assert SeenOnRoute(c, Canonical(r).orders, id) <==> SeenOnRoute(c, r.orders, id);
    assert SeenOnRoute(c, r.orders, id) ==> id in OrderCommands(Canonical(r).orders);
    assert id !in Ids(items);
  }

  lemma PendingIsViolators(c: Context, r: BrokerResult, items: seq<Item>, events: seq<L.ExecutionEvent>, id: nat)
    requires UniqueBy(ItemKey, items)
    ensures id in Pending(c, Canonical(r), Index(items), events) <==> Violates(c, r, items, events, id)
  {
    UniqueItems(items);
    if id in Index(items) {
      PendingItems(c, r, items, events, id);
      assert id in Ids(items);
    } else {
      PendingUnknown(c, r, items, events, id);
    }
    hide Canonical, EventsFor, Settled, SeenOnRoute, UniqueBy, Pending;
  }

  /**
    An evaluation is complete exactly when every command in scope is settled and,
    for an account-wide request, the result brings up no unknown id; otherwise it is
    pending with the violators as its ascending list of command ids.
  */
  lemma CompletedExactlyWhenSettled(c: Context, r: BrokerResult, items: seq<Item>,
                                    events: seq<L.ExecutionEvent>, receivedAt: int)
    ensures Evaluate(c, r, items, events, receivedAt).Ok? ==>
              var e := Evaluate(c, r, items, events, receivedAt).value.evaluation;
              && (e.disposition == Completed <==> forall id :: !Violates(c, r, items, events, id))
              && (e.disposition != Completed ==> e.disposition == PendingEvidence && e.commandIds != [])
              && Increasing(e.commandIds)
              && forall id :: id in e.commandIds <==> Violates(c, r, items, events, id)
  {
    if Evaluate(c, r, items, events, receivedAt).Ok? {
      EvaluationIs(c, r, items, events, receivedAt);
      hide Evaluate, Pending, Violates, AllFindings, Canonical, Ascending, ValidScope, ValidContext, Index, UniqueBy;
      var pending := Pending(c, Canonical(r), Index(items), events);
      forall id: nat ensures id in pending <==> Violates(c, r, items, events, id) {
        PendingIsViolators(c, r, items, events, id);
      }
      AscendingIs(pending);
      var ids := Ascending(pending);
      assert ids == [] <==> forall id: nat :: id !in ids;
    }
  }

  // ---------------------------------------------------------------------
  // Escalation.

  datatype Manual = Manual(request: nat, escalatedAt: int, reason: nat)

  datatype Move = Move(command: nat, expectedStatus: L.Status, expectedUpdatedAt: int, outcome: L.Outcome)

  datatype Escalation = Escalation(evidence: Manual, evaluation: Evaluation, moves: seq<Move>)

  predicate Uncertain(s: L.Status) {
    s.DeliveryUnconfirmed? || s.Reconciling? || s.ManualReconciliationRequired?
  }

  predicate Reconcilable(s: L.Status) {
    s.DeliveryUnconfirmed? || s.Reconciling?
  }

  function MoveOf(x: Item, e: L.Evidence): Result<Move, Error> {
    match L.Transition(x.command, x.state, e)
    case Err(error) => Err(CommandTransition(x.command.id, error))
    case Ok(outcome) => Ok(Move(x.command.id, x.state.status, x.state.updatedAt, outcome))
  }

  /** The transitions of the eligible commands among `ids`, in order, up to the first error. */
  function Moves(index: map<nat, Item>, ids: seq<nat>, e: L.Evidence,
                 eligible: L.Status -> bool): Result<seq<Move>, Error>
  {
    if ids == [] then Ok([])
    else match Moves(index, ids[..|ids| - 1], e, eligible)
      case Err(error) => Err(error)
      case Ok(moves) =>
        var id := ids[|ids| - 1];
        if id in index && eligible(index[id].state.status) then
          match MoveOf(index[id], e)
          case Err(error) => Err(error)
          case Ok(move) => Ok(moves + [move])
        else Ok(moves)
  }

  function UnknownIn(findings: seq<Finding>): set<nat> {
    set f | f in findings && (f.UnknownReportedUnresolved? || f.UnknownObserved?) :: f.command
  }

  /** `escalate_manual_reconciliation`. */
  function Escalate(c: Context, e: Evaluation, items: seq<Item>, m: Manual): Result<Escalation, Error> {
    if !ValidContext(c) then Err(InvalidRequest)
    else if m.request != c.request.id || e.request != c.request.id || e.account != c.request.account then
      Err(InvalidManual)
    else if m.reason == 0 then Err(InvalidManual)
    else if m.escalatedAt < c.requestedAt || (e.observedAt.Some? && m.escalatedAt < e.observedAt.value) then
      Err(InvalidManual)
    else if e.disposition != PendingEvidence || e.observedAt.None? then Err(InvalidManual)
    else if e.commandIds == [] || !Increasing(e.commandIds) then Err(InvalidManual)
    else if !ValidScope(c, items, m.escalatedAt) then Err(InvalidContext)
    else if c.request.commandIds.Some? && exists id :: id in e.commandIds && id !in c.request.commandIds.value then
      Err(InvalidManual)
    else
      var index := Index(items);
      if (set id | id in e.commandIds && id !in index) != UnknownIn(e.findings) then Err(InvalidManual)
      else match Moves(index, e.commandIds, L.RequireManual(m.escalatedAt), Uncertain)
        case Err(error) => Err(error)
        case Ok(moves) => Ok(Escalation(m, e.(disposition := ManualRequired), moves))
  }

  /** `escalate_missing_reconciliation_result`. */
  function EscalateMissing(c: Context, items: seq<Item>, m: Manual): Result<Escalation, Error> {
    if !ValidContext(c) then Err(InvalidRequest)
    else if m.request != c.request.id || m.reason == 0 || m.escalatedAt < c.requestedAt then Err(InvalidManual)
    else if !ValidScope(c, items, m.escalatedAt) then Err(InvalidContext)
    else
      var index := Index(items);
      match Moves(index, Ascending(index.Keys), L.RequireManual(m.escalatedAt), Uncertain)
      case Err(error) => Err(error)
      case Ok(moves) =>
        Ok(Escalation(m, Evaluation(c.request.id, c.request.account, None, ManualRequired, Ascending(index.Keys),
                                    [ResultMissing(m.escalatedAt)]), moves))
  }

  /** Requiring manual reconciliation of an uncertain command never fails on a recent enough clock. */
  lemma ManualTransition(x: Item, at: int)
    requires L.Valid(x.command, x.state) && Uncertain(x.state.status)
    requires 0 <= at && x.state.updatedAt <= at && x.state.updatedAt < I64_MAX
    ensures var r := L.Transition(x.command, x.state, L.RequireManual(at));
            r.Ok? && r.value.state.status == L.ManualReconciliationRequired
  {
    L.TrailingValidationNeverRejects(x.command, x.state, L.RequireManual(at));
    hide L.Transition;
  }

  /** Nor does beginning a reconciliation. */
  lemma BeginTransition(x: Item, at: int)
    requires L.Valid(x.command, x.state) && Reconcilable(x.state.status)
    requires 0 <= at && x.state.updatedAt <= at && x.state.updatedAt < I64_MAX
    ensures var r := L.Transition(x.command, x.state, L.BeginReconciliation(at));
            r.Ok? && r.value.state.status == L.Reconciling
  {
  }

  predicate Covers(index: map<nat, Item>, ids: seq<nat>, e: L.Evidence, eligible: L.Status -> bool, moves: seq<Move>) {
    && (forall m :: m in moves ==>
          && m.command in ids && m.command in index && eligible(index[m.command].state.status)
          && MoveOf(index[m.command], e) == Ok(m))
    && (forall id :: id in ids && id in index && eligible(index[id].state.status) ==>
          exists m :: m in moves && m.command == id)
  }

  /** If no eligible transition errors, the moves are exactly those of the eligible commands. */
  lemma {:induction false} MovesTotal(index: map<nat, Item>, ids: seq<nat>, e: L.Evidence, eligible: L.Status -> bool)
    requires forall id :: id in index ==> index[id].command.id == id
    requires forall id :: id in ids && id in index && eligible(index[id].state.status) ==> MoveOf(index[id], e).Ok?
    ensures var r := Moves(index, ids, e, eligible);
            r.Ok? && Covers(index, ids, e, eligible, r.value)
  {
    hide MoveOf;
    if ids != [] {
      var front, id := ids[..|ids| - 1], ids[|ids| - 1];
      assert ids == front + [id];
      MovesTotal(index, front, e, eligible);
      var moves := Moves(index, front, e, eligible).value;
      if id in index && eligible(index[id].state.status) {
        assert id in ids;
        MoveNames(index[id], e);
        CoversMore(index, front, id, e, eligible, moves, MoveOf(index[id], e).value);
      }
    }
  }

  lemma MoveNames(x: Item, e: L.Evidence)
    ensures MoveOf(x, e).Ok? ==> MoveOf(x, e).value.command == x.command.id
  {
  }

  lemma CoversMore(index: map<nat, Item>, front: seq<nat>, id: nat, e: L.Evidence,
                   eligible: L.Status -> bool, moves: seq<Move>, m: Move)
    requires Covers(index, front, e, eligible, moves)
    requires id in index && eligible(index[id].state.status) && MoveOf(index[id], e) == Ok(m) && m.command == id
    ensures Covers(index, front + [id], e, eligible, moves + [m])
  {
  }

  /** Every command of a valid scope that is uncertain moves to manual reconciliation. */
  lemma ScopeMoves(c: Context, items: seq<Item>, ids: seq<nat>, at: int)
    requires ValidContext(c) && ValidScope(c, items, at)
    requires forall x :: x in items ==> x.state.updatedAt < I64_MAX
    ensures var r := Moves(Index(items), ids, L.RequireManual(at), Uncertain);
            && r.Ok? && Covers(Index(items), ids, L.RequireManual(at), Uncertain, r.value)
            && forall m :: m in r.value ==> m.outcome.state.status == L.ManualReconciliationRequired
  {
    UniqueItems(items);
    var index := Index(items);
    forall id | id in index && Uncertain(index[id].state.status)
      ensures MoveOf(index[id], L.RequireManual(at)).Ok?
      ensures MoveOf(index[id], L.RequireManual(at)).value.outcome.state.status == L.ManualReconciliationRequired
    {
      assert index[id] in items && ItemFits(c, index[id], at);
      ManualTransition(index[id], at);
    }
    hide MoveOf, UniqueBy, ItemFits, Moves;
    MovesTotal(index, ids, L.RequireManual(at), Uncertain);
  }

  /** A scope valid at one time is valid at another exactly when that is no earlier than the request and every state. */
  lemma ScopeAt(c: Context, items: seq<Item>, bound: int, at: int)
    requires ValidScope(c, items, bound)
    ensures ValidScope(c, items, at) <==> c.requestedAt <= at && forall x :: x in items ==> x.state.updatedAt <= at
  {
    hide UniqueBy, Ascending;
    assert forall x :: x in items ==> (ItemFits(c, x, at) <==> x.state.updatedAt <= at) by {
      assert forall x :: x in items ==> ItemFits(c, x, bound);
    }
    hide ItemFits;
  }

  lemma UnknownInConcat(a: seq<Finding>, b: seq<Finding>)
    ensures UnknownIn(a + b) == UnknownIn(a) + UnknownIn(b)
  {
  }

  lemma OrdersNameNoUnknown(id: nat, c: L.Command, orders: seq<Order>, latest: Option<L.ExecutionEvent>)
    ensures UnknownIn(OrdersFindings(id, c, orders, latest)) == {}
  {
    hide Conflicts, SnapshotContradicts;
    if orders != [] {
      var front, o := orders[..|orders| - 1], orders[|orders| - 1];
      OrdersNameNoUnknown(id, c, front, latest);
      UnknownInConcat(OrdersFindings(id, c, front, latest), OrderFindings(id, c, o, latest));
      assert UnknownIn(OrderFindings(id, c, o, latest)) == {};
    }
  }

  lemma ItemNamesNoUnknown(r: BrokerResult, x: Item, events: seq<L.ExecutionEvent>)
    ensures UnknownIn(ItemFindings(r, x, events)) == {}
  {
    var id := x.command.id;
    var orders, own := OrdersFor(r.orders, id), EventsFor(events, id);
    var latest := LatestBy(own, r.observedAt);
    hide OrdersFor, EventsFor, LatestBy, OrdersFindings, Authoritative;
    OrdersNameNoUnknown(id, x.command, orders, latest);
    var several := if |orders| > 1 then [MultipleOrders(id, BrokerOrders(orders))] else [];
    UnknownInConcat(several, OrdersFindings(id, x.command, orders, latest));
    var status := StatusFindings(id, x, orders, own, id in r.unresolved);
    assert UnknownIn(status) == {};
    UnknownInConcat(Inspection(id, x.command, orders, own, r.observedAt), status);
  }

  lemma ItemsNameNoUnknown(r: BrokerResult, index: map<nat, Item>, events: seq<L.ExecutionEvent>, ids: seq<nat>)
    ensures UnknownIn(ItemsFindings(r, index, events, ids)) == {}
  {
    hide ItemFindings;
    if ids != [] {
      var front, id := ids[..|ids| - 1], ids[|ids| - 1];
      ItemsNameNoUnknown(r, index, events, front);
      if id in index {
        ItemNamesNoUnknown(r, index[id], events);
        UnknownInConcat(ItemsFindings(r, index, events, front), ItemFindings(r, index[id], events));
      }
    }
  }

  lemma UnknownFindingsName(c: Context, r: BrokerResult, index: map<nat, Item>, ids: seq<nat>)
    ensures UnknownIn(UnknownFindings(c, r, index, ids)) == set id | id in ids && UnknownOnRoute(c, r, index, id)
  {
    hide UnknownOnRoute, OrdersFor;
    if ids != [] {
      var front, id := ids[..|ids| - 1], ids[|ids| - 1];
      assert ids == front + [id];
      UnknownFindingsName(c, r, index, front);
      var last := if UnknownOnRoute(c, r, index, id) then UnknownOrderFindings(c, r.orders, id) else [];
      UnknownInConcat(UnknownFindings(c, r, index, front), last);
      assert UnknownIn(last) == if UnknownOnRoute(c, r, index, id) then {id} else {};
      hide UnknownOrderFindings;
    }
  }

  lemma UnknownReportsName(index: map<nat, Item>, ids: seq<nat>)
    ensures UnknownIn(UnknownReports(index, ids)) == set id | id in ids && id !in index
  {
    if ids != [] {
      var front, id := ids[..|ids| - 1], ids[|ids| - 1];
      assert ids == front + [id];
      UnknownReportsName(index, front);
      var last := if id in index then [] else [UnknownReportedUnresolved(id)];
      UnknownInConcat(UnknownReports(index, front), last);
      assert UnknownIn(last) == if id in index then {} else {id};
    }
  }

  /** The findings name as unknown exactly the pending ids without a command row. */
  lemma UnknownIsNamed(c: Context, r: BrokerResult, index: map<nat, Item>, events: seq<L.ExecutionEvent>)
    ensures UnknownIn(AllFindings(c, r, index, events))
         == set id | id in Pending(c, r, index, events) && id !in index
  {
    var known := ItemsFindings(r, index, events, Ascending(index.Keys));
    ItemsNameNoUnknown(r, index, events, Ascending(index.Keys));
    hide ItemsFindings, Ascending, UnknownFindings, UnknownReports, NeedsAttention, UnknownIn;
    if c.request.commandIds.None? {
      UnknownPartsName(c, r, index);
      var a := UnknownFindings(c, r, index, Ascending(OrderCommands(r.orders)));
      var b := UnknownReports(index, Ascending(Elements(r.unresolved)));
      UnknownInConcat(a, b);
      UnknownInConcat(known, a + b);
      UnknownPending(c, r, index, events);
    } else {
      assert known + [] == known;
      TargetedPending(c, r, index, events);
    }
    hide Pending;
  }

  lemma UnknownPartsName(c: Context, r: BrokerResult, index: map<nat, Item>)
    ensures UnknownIn(UnknownFindings(c, r, index, Ascending(OrderCommands(r.orders))))
         == set id | id in OrderCommands(r.orders) && UnknownOnRoute(c, r, index, id)
    ensures UnknownIn(UnknownReports(index, Ascending(Elements(r.unresolved))))
         == set id | id in r.unresolved && id !in index
  {
    var observed, reported := OrderCommands(r.orders), Elements(r.unresolved);
    UnknownFindingsName(c, r, index, Ascending(observed));
    UnknownReportsName(index, Ascending(reported));
    AscendingIs(observed);
    AscendingIs(reported);
    hide UnknownFindings, UnknownReports, UnknownOnRoute, Ascending, Increasing, UnknownIn;
  }

  lemma UnknownPending(c: Context, r: BrokerResult, index: map<nat, Item>, events: seq<L.ExecutionEvent>)
    requires c.request.commandIds.None?
    ensures (set id | id in Pending(c, r, index, events) && id !in index)
         == (set id | id in OrderCommands(r.orders) && UnknownOnRoute(c, r, index, id))
            + (set id | id in r.unresolved && id !in index)
  {
  }

  lemma TargetedPending(c: Context, r: BrokerResult, index: map<nat, Item>, events: seq<L.ExecutionEvent>)
    requires c.request.commandIds.Some?
    ensures (set id | id in Pending(c, r, index, events) && id !in index) == {}
  {
  }

  lemma PendingInScope(c: Context, r: BrokerResult, items: seq<Item>, events: seq<L.ExecutionEvent>, bound: int,
                       id: nat)
    requires ValidScope(c, items, bound) && c.request.commandIds.Some? && id in Pending(c, r, Index(items), events)
    ensures id in c.request.commandIds.value
  {
    hide NeedsAttention, UniqueBy, ItemFits;
    AscendingIs(Ids(items));
    assert id in Ids(items);
  }

  /**
    A pending evaluation can be escalated on the same command snapshot exactly when
    the evidence names its request, gives a reason and is no earlier than the
    observation and every command state: all checks of the attention scope pass then
    and no transition errors. Each uncertain command in the attention scope ends in
    manual reconciliation; no other command is touched.
  */
  lemma EscalationIsTotal(c: Context, r: BrokerResult, items: seq<Item>, events: seq<L.ExecutionEvent>,
                          receivedAt: int, m: Manual)
    requires forall x :: x in items ==> x.state.updatedAt < I64_MAX
    ensures IsPending(Evaluate(c, r, items, events, receivedAt)) ==>
              var e := Evaluate(c, r, items, events, receivedAt).value.evaluation;
              && (Escalate(c, e, items, m).Ok? <==>
                    && m.request == c.request.id && m.reason != 0 && r.observedAt <= m.escalatedAt
                    && forall x :: x in items ==> x.state.updatedAt <= m.escalatedAt)
              && UniqueBy(ItemKey, items)
              && (Escalate(c, e, items, m).Ok? ==>
                    var moves := Escalate(c, e, items, m).value.moves;
                    && Covers(Index(items), e.commandIds, L.RequireManual(m.escalatedAt), Uncertain, moves)
                    && forall k :: k in moves ==> k.outcome.state.status == L.ManualReconciliationRequired)
  {
    hide ValidScope, Pending, AllFindings, Moves, Covers, Ascending, UniqueBy, UnknownIn, Canonical, ValidContext,
         Evaluate, Increasing, Index;
    if IsPending(Evaluate(c, r, items, events, receivedAt)) {
      EvaluationIs(c, r, items, events, receivedAt);
      var e := Evaluate(c, r, items, events, receivedAt).value.evaluation;
      AttentionScope(c, r, items, events, receivedAt);
      ScopeAt(c, items, receivedAt, m.escalatedAt);
      if ValidScope(c, items, m.escalatedAt) {
        ScopeMoves(c, items, e.commandIds, m.escalatedAt);
      }
    }
  }

  predicate IsPending(r: Result<Evaluated, Error>) {
    r.Ok? && r.value.evaluation.disposition == PendingEvidence
  }

  /** A result that reports one unresolved id and nothing else. */
  function LoneReport(c: Context, id: nat, observedAt: int): BrokerResult {
    var q := c.request;
    BrokerResult(q.id, q.account, q.terminal, q.client, observedAt, None, [], [], [], [id])
  }

  /** For example: whatever unknown id a client reports over an empty account is pending, and only that. */
  lemma LoneReportPends(c: Context, id: nat, observedAt: int)
    requires ValidContext(c) && c.request.commandIds.None? && id != 0 && c.requestedAt <= observedAt
    ensures var e := Evaluate(c, LoneReport(c, id, observedAt), [], [], observedAt);
            IsPending(e) && e.value.evaluation.commandIds == [id]
  {
    hide Evaluate, Pending, AllFindings;
    var r := LoneReport(c, id, observedAt);
    EvaluationSucceeds(c, r, [], [], observedAt);
    EvaluationIs(c, r, [], [], observedAt);
    var pending := Pending(c, Canonical(r), Index([]), []);
    forall k: nat ensures k in pending <==> k == id {
      PendingIsViolators(c, r, [], [], k);
    }
    hide ValidResult, ValidScope, Violates, Canonical, UniqueBy, ValidContext;
    assert pending == {id} && pending - {id} == {};
    assert Ascending(pending) == [id] + Ascending({});
  }

  lemma EvaluationSucceeds(c: Context, r: BrokerResult, items: seq<Item>, events: seq<L.ExecutionEvent>,
                           receivedAt: int)
    requires ValidContext(c) && ValidResult(c, r, receivedAt) && ValidScope(c, items, receivedAt)
    requires ValidEvents(Index(items), events, receivedAt)
    ensures Evaluate(c, r, items, events, receivedAt).Ok?
  {
  }

  /** What escalation checks of the attention scope. */
  lemma AttentionScope(c: Context, r: BrokerResult, items: seq<Item>, events: seq<L.ExecutionEvent>, receivedAt: int)
    ensures Evaluate(c, r, items, events, receivedAt).Ok? ==>
              var e := Evaluate(c, r, items, events, receivedAt).value.evaluation;
              && UniqueBy(ItemKey, items) && Increasing(e.commandIds)
              && (c.request.commandIds.Some? ==> forall id :: id in e.commandIds ==> id in c.request.commandIds.value)
              && (set id | id in e.commandIds && id !in Index(items)) == UnknownIn(e.findings)
  {
    hide ValidScope, Pending, AllFindings, Ascending, UniqueBy, UnknownIn, Canonical, ValidContext, Evaluate, Index;
    if Evaluate(c, r, items, events, receivedAt).Ok? {
      EvaluationIs(c, r, items, events, receivedAt);
      var canonical, index := Canonical(r), Index(items);
      var e := Evaluate(c, r, items, events, receivedAt).value.evaluation;
      AscendingIs(Pending(c, canonical, index, events));
      UnknownIsNamed(c, canonical, index, events);
      if c.request.commandIds.Some? {
        forall id | id in e.commandIds ensures id in c.request.commandIds.value {
          PendingInScope(c, canonical, items, events, receivedAt, id);
        }
      }
    }
  }

  lemma EvaluationIs(c: Context, r: BrokerResult, items: seq<Item>, events: seq<L.ExecutionEvent>, receivedAt: int)
    ensures Evaluate(c, r, items, events, receivedAt).Ok? ==>
              var e := Evaluate(c, r, items, events, receivedAt).value.evaluation;
              && ValidContext(c) && ValidScope(c, items, receivedAt) && c.requestedAt <= receivedAt
              && UniqueBy(ItemKey, items)
              && e.request == c.request.id && e.account == c.request.account
              && e.observedAt == Some(r.observedAt) && c.requestedAt <= r.observedAt <= receivedAt
              && e.commandIds == Ascending(Pending(c, Canonical(r), Index(items), events))
              && e.findings == AllFindings(c, Canonical(r), Index(items), events)
              && e.disposition == (if e.commandIds != [] then PendingEvidence else Completed)
  {
    hide Pending, AllFindings, Ascending, UniqueBy, ValidEvents, ItemFits;
  }

  /** A missing result can always be escalated, for every uncertain command in scope. */
  lemma MissingEscalationIsTotal(c: Context, items: seq<Item>, m: Manual)
    requires ValidContext(c) && ValidScope(c, items, m.escalatedAt)
    requires m.request == c.request.id && m.reason != 0
    requires forall x :: x in items ==> x.state.updatedAt < I64_MAX
    ensures EscalateMissing(c, items, m).Ok?
    ensures var moves := EscalateMissing(c, items, m).value.moves;
            && (forall k :: k in moves ==> k.outcome.state.status == L.ManualReconciliationRequired)
            && (forall x :: x in items && Uncertain(x.state.status) ==>
                  exists k :: k in moves && k.command == x.command.id)
  {
    var ids := Ascending(Index(items).Keys);
    ScopeMoves(c, items, ids, m.escalatedAt);
    AscendingIs(Index(items).Keys);
    UniqueItems(items);
    var moves := EscalateMissing(c, items, m).value.moves;
    hide Moves, Ascending, ItemFits, UniqueBy, MoveOf;
    forall x | x in items && Uncertain(x.state.status) ensures exists k :: k in moves && k.command == x.command.id {
      assert x.command.id in ids && Index(items)[x.command.id] == x;
    }
  }

  // ---------------------------------------------------------------------
  // The loops.

  /** The outcome of `validate_command_scope`. */
  function ScopeOutcome(c: Context, items: seq<Item>, bound: int): Result<map<nat, Item>, Error> {
    if !ValidContext(c) then Err(InvalidRequest)
    else if !ValidScope(c, items, bound) then Err(InvalidContext)
    else Ok(Index(items))
  }

  lemma IndexNext(items: seq<Item>, i: nat)
    requires i < |items| && UniqueBy(ItemKey, items[..i])
    ensures items[i].command.id in Index(items[..i]) ==> !UniqueBy(ItemKey, items)
    ensures items[i].command.id !in Index(items[..i]) ==>
              UniqueBy(ItemKey, items[..i + 1])
              && Index(items[..i + 1]) == Index(items[..i])[items[i].command.id := items[i]]
  {
  }

  /** `validate_command_scope`: every command is checked and inserted into the map. */
  method CommandScope(c: Context, items: seq<Item>, bound: int) returns (r: Result<map<nat, Item>, Error>)
    ensures r == ScopeOutcome(c, items, bound)
  {
    hide ItemFits, Ascending;
    if !ValidContext(c) {
      return Err(InvalidRequest);
    }
    if bound < c.requestedAt {
      return Err(InvalidContext);
    }
    var index: map<nat, Item> := map[];
    for i := 0 to |items|
      invariant forall x :: x in items[..i] ==> ItemFits(c, x, bound)
      invariant UniqueBy(ItemKey, items[..i]) && index == Index(items[..i])
    {
      var x := items[i];
      assert x in items && items[..i + 1] == items[..i] + [x];
      IndexNext(items, i);
      hide UniqueBy, Index;
      if !ItemFits(c, x, bound) || x.command.id in index {
        return Err(InvalidContext);
      }
      index := index[x.command.id := x];
    }
    assert items[..|items|] == items;
    assert index.Keys == Ids(items);
    hide UniqueBy;
    if c.request.commandIds.Some? && Ascending(index.Keys) != c.request.commandIds.value {
      return Err(InvalidContext);
    }
    return Ok(index);
  }

  lemma MovesFail(index: map<nat, Item>, ids: seq<nat>, n: nat, e: L.Evidence, eligible: L.Status -> bool)
    requires n <= |ids| && Moves(index, ids[..n], e, eligible).Err?
    ensures Moves(index, ids, e, eligible) == Moves(index, ids[..n], e, eligible)
    decreases |ids|
  {
    hide MoveOf;
    if n < |ids| {
      var front := ids[..|ids| - 1];
      assert front[..n] == ids[..n];
      MovesFail(index, front, n, e, eligible);
    } else {
      assert ids[..n] == ids;
    }
  }

  /** The loop that derives the compare-and-swap target of every eligible command. */
  method CollectMoves(index: map<nat, Item>, ids: seq<nat>, e: L.Evidence, eligible: L.Status -> bool)
    returns (r: Result<seq<Move>, Error>)
    ensures r == Moves(index, ids, e, eligible)
  {
    hide MoveOf;
    var moves: seq<Move> := [];
    assert ids[..0] == [];
    for i := 0 to |ids|
      invariant Moves(index, ids[..i], e, eligible) == Ok(moves)
    {
      var id := ids[i];
      assert ids[..i + 1] == ids[..i] + [id] && ids[..i + 1][..i] == ids[..i];
      if id in index && eligible(index[id].state.status) {
        var move := MoveOf(index[id], e);
        if move.Err? {
          MovesFail(index, ids, i + 1, e, eligible);
          return Err(move.error);
        }
        moves := moves + [move.value];
      }
    }
    assert ids[..|ids|] == ids;
    return Ok(moves);
  }

  /** The ids among `ids` whose commands need attention. */
  function Attention(r: BrokerResult, index: map<nat, Item>, events: seq<L.ExecutionEvent>, ids: seq<nat>): set<nat> {
    set id | id in ids && id in index && NeedsAttention(index[id], EventsFor(events, id), id in r.unresolved)
  }

  lemma AttentionNext(r: BrokerResult, index: map<nat, Item>, events: seq<L.ExecutionEvent>, ids: seq<nat>, id: nat)
    requires id in index
    ensures Attention(r, index, events, ids + [id])
         == Attention(r, index, events, ids)
            + if NeedsAttention(index[id], EventsFor(events, id), id in r.unresolved) then {id} else {}
    ensures ItemsFindings(r, index, events, ids + [id])
         == ItemsFindings(r, index, events, ids) + ItemFindings(r, index[id], events)
  {
  }

  lemma AttentionNone(r: BrokerResult, index: map<nat, Item>, events: seq<L.ExecutionEvent>)
    ensures ItemsFindings(r, index, events, []) == [] && Attention(r, index, events, []) == {}
  {
  }

  /** The first loop of the evaluation: the commands in scope, in id order. */
  method InspectItems(r: BrokerResult, index: map<nat, Item>, events: seq<L.ExecutionEvent>, ids: seq<nat>)
    returns (findings: seq<Finding>, pending: set<nat>)
    requires forall id :: id in ids ==> id in index
    ensures findings == ItemsFindings(r, index, events, ids)
    ensures pending == Attention(r, index, events, ids)
  {
    hide *;
    findings, pending := [], {};
    AttentionNone(r, index, events);
    assert ids[..0] == [];
    for i := 0 to |ids|
      invariant findings == ItemsFindings(r, index, events, ids[..i])
      invariant pending == Attention(r, index, events, ids[..i])
    {
      var id := ids[i];
      assert id in ids && ids[..i + 1] == ids[..i] + [id];
      AttentionNext(r, index, events, ids[..i], id);
      findings := findings + ItemFindings(r, index[id], events);
      if NeedsAttention(index[id], EventsFor(events, id), id in r.unresolved) {
        pending := pending + {id};
      }
    }
    assert ids[..|ids|] == ids;
  }

  lemma AttentionAll(r: BrokerResult, index: map<nat, Item>, events: seq<L.ExecutionEvent>, ids: seq<nat>)
    requires forall id :: id in ids <==> id in index
    ensures Attention(r, index, events, ids)
         == set id | id in index && NeedsAttention(index[id], EventsFor(events, id), id in r.unresolved)
  {
  }

  lemma UnknownNext(c: Context, r: BrokerResult, index: map<nat, Item>, ids: seq<nat>, id: nat)
    ensures UnknownFindings(c, r, index, ids + [id])
         == UnknownFindings(c, r, index, ids)
            + if UnknownOnRoute(c, r, index, id) then UnknownOrderFindings(c, r.orders, id) else []
  {
  }

  lemma ReportsNext(index: map<nat, Item>, ids: seq<nat>, id: nat)
    ensures UnknownReports(index, ids + [id])
         == UnknownReports(index, ids) + if id in index then [] else [UnknownReportedUnresolved(id)]
  {
  }

  /** The account-wide loop over ids the orders name. */
  method InspectOrders(c: Context, r: BrokerResult, index: map<nat, Item>, seen: seq<nat>)
    returns (findings: seq<Finding>, pending: set<nat>)
    ensures findings == UnknownFindings(c, r, index, seen)
    ensures pending == set id | id in seen && UnknownOnRoute(c, r, index, id)
  {
    hide UnknownOnRoute, UnknownOrderFindings;
    findings, pending := [], {};
    assert seen[..0] == [] && UnknownFindings(c, r, index, []) == [];
    hide UnknownFindings;
    for i := 0 to |seen|
      invariant findings == UnknownFindings(c, r, index, seen[..i])
      invariant pending == set id | id in seen[..i] && UnknownOnRoute(c, r, index, id)
    {
      var id := seen[i];
      assert seen[..i + 1] == seen[..i] + [id];
      UnknownNext(c, r, index, seen[..i], id);
      if UnknownOnRoute(c, r, index, id) {
        pending := pending + {id};
        findings := findings + UnknownOrderFindings(c, r.orders, id);
      }
    }
    assert seen[..|seen|] == seen;
  }

  /** The account-wide loop over ids the client reports. */
  method InspectReports(index: map<nat, Item>, reported: seq<nat>)
    returns (findings: seq<Finding>, pending: set<nat>)
    ensures findings == UnknownReports(index, reported)
    ensures pending == set id | id in reported && id !in index
  {
    findings, pending := [], {};
    assert reported[..0] == [] && UnknownReports(index, []) == [];
    hide UnknownReports;
    for i := 0 to |reported|
      invariant findings == UnknownReports(index, reported[..i])
      invariant pending == set id | id in reported[..i] && id !in index
    {
      var id := reported[i];
      assert reported[..i + 1] == reported[..i] + [id];
      ReportsNext(index, reported[..i], id);
      if id !in index {
        pending := pending + {id};
        findings := findings + [UnknownReportedUnresolved(id)];
      }
    }
    assert reported[..|reported|] == reported;
  }

  /** All inspection loops. */
  method Inspect(c: Context, r: BrokerResult, index: map<nat, Item>, events: seq<L.ExecutionEvent>)
    returns (findings: seq<Finding>, pending: set<nat>)
    ensures findings == AllFindings(c, r, index, events) && pending == Pending(c, r, index, events)
  {
    hide ItemsFindings, UnknownFindings, UnknownReports, Ascending, NeedsAttention, UnknownOnRoute, EventsFor,
         Attention, Increasing,
         OrderCommands;
    AscendingIs(index.Keys);
    AttentionAll(r, index, events, Ascending(index.Keys));
    findings, pending := InspectItems(r, index, events, Ascending(index.Keys));
    if c.request.commandIds.None? {
      AscendingIs(OrderCommands(r.orders));
      AscendingIs(Elements(r.unresolved));
      var observed, seen := InspectOrders(c, r, index, Ascending(OrderCommands(r.orders)));
      var reported, named := InspectReports(index, Ascending(Elements(r.unresolved)));
      findings, pending := findings + (observed + reported), pending + (seen + named);
    }
  }

  /** `evaluate_reconciliation_result`. */
  method EvaluateResult(c: Context, result: BrokerResult, items: seq<Item>, events: seq<L.ExecutionEvent>,
                        receivedAt: int)
    returns (r: Result<Evaluated, Error>)
    ensures r == Evaluate(c, result, items, events, receivedAt)
  {
    hide ValidContext, ValidResult, ValidEvents, AllFindings, Pending, UniqueBy, Ascending, Canonical, Index, ItemFits;
    if !ValidContext(c) {
      return Err(InvalidRequest);
    }
    if !ValidResult(c, result, receivedAt) {
      return Err(InvalidResult);
    }
    var canonical := Canonical(result);
    var scope := CommandScope(c, items, receivedAt);
    if scope.Err? {
      return Err(scope.error);
    }
    if !ValidEvents(scope.value, events, receivedAt) {
      return Err(InvalidContext);
    }
    var findings, pending := Inspect(c, canonical, scope.value, events);
    AscendingEmpty(pending);
    return Ok(Evaluated(canonical, Evaluation(canonical.request, canonical.account, Some(canonical.observedAt),
                                              if pending != {} then PendingEvidence else Completed,
                                              Ascending(pending), findings)));
  }

  lemma AscendingEmpty(s: set<nat>)
    ensures Ascending(s) == [] <==> s == {}
  {
  }

  // ---------------------------------------------------------------------
  // Requests.

  datatype Input = Input(
    id: nat, account: nat, terminal: Option<nat>, client: Option<nat>, commandIds: Option<seq<nat>>,
    since: Option<int>, requestedAt: int)

  datatype Plan = Plan(context: Context, moves: seq<Move>)

  /** `build_reconciliation_request`: a targeted scope is put in ascending order. */
  function BuildRequest(i: Input): Result<Context, Error> {
    var unique := if i.commandIds.Some? then Elements(i.commandIds.value) else {};
    if i.commandIds.Some? && (i.commandIds.value == [] || |unique| != |i.commandIds.value|) then Err(InvalidRequest)
    else
      var c := Context(Request(i.id, i.account, i.terminal, i.client,
                               if i.commandIds.Some? then Some(Ascending(unique)) else None, i.since),
                       i.requestedAt);
      if ValidContext(c) then Ok(c) else Err(InvalidRequest)
  }

  /** The scope's order does not matter, and the built request lists exactly its ids. */
  lemma RequestIgnoresOrder(i: Input, ids: seq<nat>)
    requires i.commandIds.Some? && multiset(ids) == multiset(i.commandIds.value)
    ensures BuildRequest(i.(commandIds := Some(ids))) == BuildRequest(i)
    ensures BuildRequest(i).Ok? ==>
              var scope := BuildRequest(i).value.request.commandIds;
              scope.Some? && Increasing(scope.value) && forall id :: id in scope.value <==> id in i.commandIds.value
  {
    SameMembers(ids, i.commandIds.value);
    assert Elements(ids) == Elements(i.commandIds.value);
    AscendingIs(Elements(ids));
    hide Ascending;
  }

  /** `plan_reconciliation_request`. */
  function PlanRequest(i: Input, items: seq<Item>): Result<Plan, Error> {
    match BuildRequest(i)
    case Err(error) => Err(error)
    case Ok(c) =>
      match ScopeOutcome(c, items, c.requestedAt)
      case Err(error) => Err(error)
      case Ok(index) =>
        match Moves(index, Ascending(index.Keys), L.BeginReconciliation(c.requestedAt), Reconcilable)
        case Err(error) => Err(error)
        case Ok(moves) => Ok(Plan(c, moves))
  }

  /**
    Planning never fails on a transition: for a buildable request over a valid scope
    it lists exactly the commands in delivery doubt, each of which ends reconciling.
  */
  lemma PlanningIsTotal(i: Input, items: seq<Item>)
    requires BuildRequest(i).Ok? && ScopeOutcome(BuildRequest(i).value, items, i.requestedAt).Ok?
    requires forall x :: x in items ==> x.state.updatedAt < I64_MAX
    ensures PlanRequest(i, items).Ok?
    ensures var moves := PlanRequest(i, items).value.moves;
            && (forall k :: k in moves ==> k.outcome.state.status == L.Reconciling)
            && (forall x :: x in items && Reconcilable(x.state.status) ==>
                  exists k :: k in moves && k.command == x.command.id)
            && (forall k :: k in moves ==>
                  exists x :: x in items && x.command.id == k.command && Reconcilable(x.state.status))
  {
    hide Ascending, UniqueBy, Moves;
    var c, at := BuildRequest(i).value, i.requestedAt;
    var index := Index(items);
    UniqueItems(items);
    forall id | id in index && Reconcilable(index[id].state.status)
      ensures MoveOf(index[id], L.BeginReconciliation(at)).Ok?
      ensures MoveOf(index[id], L.BeginReconciliation(at)).value.outcome.state.status == L.Reconciling
    {
      assert index[id] in items && ItemFits(c, index[id], at);
      BeginTransition(index[id], at);
    }
    hide MoveOf, ItemFits;
    MovesTotal(index, Ascending(index.Keys), L.BeginReconciliation(at), Reconcilable);
    AscendingIs(index.Keys);
    var moves := PlanRequest(i, items).value.moves;
    forall x | x in items && Reconcilable(x.state.status) ensures exists k :: k in moves && k.command == x.command.id {
      assert x.command.id in index && index[x.command.id] == x;
    }
    forall k | k in moves ensures exists x :: x in items && x.command.id == k.command && Reconcilable(x.state.status) {
      assert index[k.command] in items;
    }
  }
}
