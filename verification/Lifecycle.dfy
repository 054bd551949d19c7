/**
  The command lifecycle: a fifteen-state machine driven by business evidence, with
  write-once times, late receipts and a version that every applied step raises.

  Identifiers are opaque numbers, 0 standing for a blank text. Times are server
  milliseconds in the signed 64-bit range.
*/
module Lifecycle {
  import opened Prelude

  datatype Status =
    | Created
    | Dispatched
    | DeliveryUnconfirmed
    | DeliveryFailed
    | Reconciling
    | ManualReconciliationRequired
    | CommandReceived
    | Accepted
    | Rejected
    | OrderSent
    | PartiallyFilled
    | Filled
    | Failed
    | Expired
    | Cancelled

  /** A floating-point quantity, known by its bit pattern and its kind. */
  datatype Kind = NonFinite | Negative | Zero | Positive
  datatype Amount = Amount(bits: nat, kind: Kind)

  datatype Action = Buy | Sell | Close | Modify | CancelOrder

  datatype Command = Command(
    id: nat, strategy: nat, account: nat, symbol: nat, idempotencyKey: nat, hmac: nat,
    plan: Option<nat>, leg: Option<nat>, terminal: Option<nat>, client: Option<nat>,
    brokerSymbol: Option<nat>, action: Action, lots: Option<Amount>, expiresAt: int)

  datatype State = State(
    id: nat, account: nat, plan: Option<nat>, leg: Option<nat>,
    status: Status, deliveryAttempts: nat, lastDeliveryError: Option<nat>,
    createdAt: int, dispatchedAt: Option<int>, receivedAt: Option<int>,
    reconcilingAt: Option<int>, completedAt: Option<int>, updatedAt: int)

  datatype InboxStatus = Recorded | DuplicateKnown | InboxExpired | InboxRejected

  datatype Receipt = Receipt(
    command: nat, idempotencyKey: nat, account: nat, terminal: Option<nat>, client: Option<nat>,
    receivedAt: int, inbox: InboxStatus)

  datatype EventStatus =
    | EventAccepted
    | EventOrderSent
    | EventRejected
    | EventFilled
    | EventPartiallyFilled
    | EventFailed
    | EventExpired
    | EventCancelled

  datatype ExecutionEvent = ExecutionEvent(
    id: nat, command: nat, plan: Option<nat>, leg: Option<nat>, account: nat,
    terminal: Option<nat>, client: Option<nat>, symbol: nat, brokerSymbol: Option<nat>,
    status: EventStatus, idempotencyKey: Option<nat>, requestedLots: Option<Amount>,
    fillPrice: Option<Amount>, filledLots: Option<Amount>, remainingLots: Option<Amount>,
    filledAt: Option<int>, eventAt: int)

  datatype Evidence =
    | Dispatch(at: int)
    | Unconfirm(at: int, error: nat)
    | BeginReconciliation(at: int)
    | RequireManual(at: int)
    | ReceivedRecorded(receipt: Receipt)
    | ReceivedDuplicate(receipt: Receipt)
    | Execution(event: ExecutionEvent)
    | Expire(at: int)
    | Cancel(at: int)

  datatype Outcome = Applied(state: State) | Duplicate(state: State)

  datatype Error =
    | InvalidIdentity
    | InvalidTimestamp
    | InvalidEvidence
    | InvalidTransition(from: Status, to: Status)
    | VersionOverflow

  const U32_MAX := 0xFFFF_FFFF

  // ---------------------------------------------------------------------
  // Validity.

  predicate ValidCommand(c: Command) {
    && c.id != 0 && c.strategy != 0 && c.account != 0 && c.symbol != 0 && c.idempotencyKey != 0 && c.hmac != 0
    && (c.leg.Some? ==> c.plan.Some?)
  }

  predicate Terminal(s: Status) {
    s.DeliveryFailed? || s.Rejected? || s.Filled? || s.Failed? || s.Expired? || s.Cancelled?
  }

  predicate RequiresDispatch(s: Status) {
    !s.Created? && !s.DeliveryFailed? && !s.Expired? && !s.Cancelled?
  }

  predicate Within(t: Option<int>, s: State) {
    t.Some? ==> s.createdAt <= t.value <= s.updatedAt
  }

  function Check(condition: bool, error: Error): Result<(), Error> {
    if condition then Ok(()) else Err(error)
  }

  /** `validate_command_state`, test by test. */
  function Validate(c: Command, s: State): Result<(), Error> {
    if !ValidCommand(c) then Err(InvalidIdentity)
    else if s.id != c.id || s.account != c.account || s.plan != c.plan || s.leg != c.leg then Err(InvalidIdentity)
    else if s.createdAt < 0 || s.updatedAt < s.createdAt then Err(InvalidTimestamp)
    else if c.expiresAt <= s.createdAt then Err(InvalidTimestamp)
    else if Terminal(s.status) != s.completedAt.Some? then Err(InvalidTimestamp)
    else if !Within(s.dispatchedAt, s) || !Within(s.receivedAt, s)
            || !Within(s.reconcilingAt, s) || !Within(s.completedAt, s) then Err(InvalidTimestamp)
    else if s.status.Created?
            && (s.deliveryAttempts != 0 || s.dispatchedAt.Some? || s.receivedAt.Some? || s.reconcilingAt.Some?) then
      Err(InvalidTimestamp)
    else if s.dispatchedAt.Some? != (s.deliveryAttempts > 0) then Err(InvalidTimestamp)
    else if RequiresDispatch(s.status) && s.dispatchedAt.None? then Err(InvalidTimestamp)
    else if s.status.DeliveryUnconfirmed? && (s.lastDeliveryError.None? || s.lastDeliveryError == Some(0)) then
      Err(InvalidEvidence)
    else if (s.status.Reconciling? || s.status.ManualReconciliationRequired?) && s.reconcilingAt.None? then
      Err(InvalidTimestamp)
    else if (s.status.CommandReceived? || s.status.Accepted? || s.status.Rejected?) && s.receivedAt.None? then
      Err(InvalidTimestamp)
    else Ok(())
  }

  predicate Valid(c: Command, s: State) {
    Validate(c, s).Ok?
  }

  // ---------------------------------------------------------------------
  // Evidence.

  predicate Matching<T(==)>(given: Option<T>, expected: Option<T>) {
    given.Some? ==> given == expected
  }

  predicate IsFill(s: EventStatus) {
    s.EventFilled? || s.EventPartiallyFilled?
  }

  predicate NonNegative(a: Option<Amount>) {
    a.Some? ==> a.value.kind.Zero? || a.value.kind.Positive?
  }

  predicate SameIdentity(c: Command, e: ExecutionEvent) {
    && e.id != 0 && e.eventAt >= 0 && e.command == c.id && e.plan == c.plan && e.leg == c.leg
    && e.account == c.account && e.terminal == c.terminal && e.client == c.client && e.symbol == c.symbol
    && Matching(e.brokerSymbol, c.brokerSymbol) && Matching(e.idempotencyKey, Some(c.idempotencyKey))
    && (e.requestedLots.Some? ==> c.lots.Some? && e.requestedLots.value.bits == c.lots.value.bits)
  }

  function ValidateEvent(c: Command, e: ExecutionEvent): Result<(), Error> {
    if !SameIdentity(c, e) then Err(InvalidIdentity)
    else if IsFill(e.status) != e.filledAt.Some? then Err(InvalidEvidence)
    else if IsFill(e.status) && (e.filledLots.None? || !e.filledLots.value.kind.Positive?) then Err(InvalidEvidence)
    else if e.filledAt.Some? && (e.filledAt.value < 0 || e.filledAt.value > e.eventAt) then Err(InvalidTimestamp)
    else if !NonNegative(e.requestedLots) || !NonNegative(e.fillPrice)
            || !NonNegative(e.filledLots) || !NonNegative(e.remainingLots) then Err(InvalidEvidence)
    else Ok(())
  }

  function StatusOfEvent(s: EventStatus): Status {
    match s
    case EventAccepted => Accepted
    case EventOrderSent => OrderSent
    case EventRejected => Rejected
    case EventFilled => Filled
    case EventPartiallyFilled => PartiallyFilled
    case EventFailed => Failed
    case EventExpired => Expired
    case EventCancelled => Cancelled
  }

  function ValidateReceipt(c: Command, r: Receipt, expected: InboxStatus): Result<(), Error> {
    if r.inbox != expected then Err(InvalidEvidence)
    else if r.command != c.id || r.idempotencyKey != c.idempotencyKey || r.account != c.account
            || r.terminal != c.terminal || r.client != c.client then Err(InvalidIdentity)
    else Ok(())
  }

  function At(e: Evidence): int {
    match e
    case ReceivedRecorded(r) => r.receivedAt
    case ReceivedDuplicate(r) => r.receivedAt
    case Execution(x) => x.eventAt
    case _ => e.at
  }

  function StatusOfEvidence(e: Evidence): Status {
    match e
    case Dispatch(_) => Dispatched
    case Unconfirm(_, _) => DeliveryUnconfirmed
    case BeginReconciliation(_) => Reconciling
    case RequireManual(_) => ManualReconciliationRequired
    case ReceivedRecorded(_) => CommandReceived
    case ReceivedDuplicate(_) => CommandReceived
    case Execution(x) => StatusOfEvent(x.status)
    case Expire(_) => Expired
    case Cancel(_) => Cancelled
  }

  /** The checks of `evidence_target`; its result is `StatusOfEvidence` and `At`. */
  function ValidateEvidence(c: Command, e: Evidence): Result<(), Error> {
    var specific := match e
      case Dispatch(at) => Check(at < c.expiresAt, InvalidTimestamp)
      case ReceivedRecorded(r) =>
        (match ValidateReceipt(c, r, Recorded)
          case Err(error) => Err(error)
          case Ok(_) => Check(r.receivedAt < c.expiresAt, InvalidTimestamp))
      case ReceivedDuplicate(r) => ValidateReceipt(c, r, DuplicateKnown)
      case Execution(x) => ValidateEvent(c, x)
      case Expire(at) => Check(c.expiresAt <= at, InvalidTimestamp)
      case _ => Ok(());
    if specific.Err? then specific else Check(At(e) >= 0, InvalidTimestamp)
  }

  predicate Allowed(from: Status, to: Status) {
    match from
    case Created => to.Dispatched? || to.Expired? || to.Cancelled?
    case Dispatched => to.CommandReceived? || to.DeliveryUnconfirmed? || to.Expired? || to.Cancelled?
    case DeliveryUnconfirmed =>
      to.Reconciling? || to.CommandReceived? || to.ManualReconciliationRequired? || to.Expired? || to.Failed?
    case Reconciling =>
      to.CommandReceived? || to.OrderSent? || to.PartiallyFilled? || to.Filled?
      || to.ManualReconciliationRequired? || to.Failed? || to.Expired?
    case ManualReconciliationRequired =>
      to.CommandReceived? || to.OrderSent? || to.PartiallyFilled? || to.Filled?
      || to.Failed? || to.Expired? || to.Cancelled?
    case CommandReceived => to.Accepted? || to.Rejected? || to.Cancelled? || to.Expired?
    case Accepted => to.OrderSent? || to.Rejected? || to.Failed? || to.Cancelled? || to.Expired?
    case OrderSent => to.PartiallyFilled? || to.Filled? || to.Cancelled? || to.Failed?
    case PartiallyFilled => to.Filled? || to.Failed? || to.Cancelled?
    case _ => false
  }

  function Later(t: Option<int>, bound: int): int {
    if t.Some? && bound < t.value then t.value else bound
  }

  function LatestEvidence(s: State): int {
    Later(s.completedAt, Later(s.reconcilingAt, Later(s.receivedAt, Later(s.dispatchedAt, s.createdAt))))
  }

  predicate IsReceipt(e: Evidence) {
    e.ReceivedRecorded? || e.ReceivedDuplicate?
  }

  function NextVersion(s: State, at: int): int {
    if s.updatedAt + 1 < at then at else s.updatedAt + 1
  }

  // ---------------------------------------------------------------------
  // Transitions.

  function Initial(c: Command, createdAt: int): Result<State, Error> {
    if !ValidCommand(c) then Err(InvalidIdentity)
    else if createdAt < 0 || c.expiresAt <= createdAt then Err(InvalidTimestamp)
    else
      var s := State(c.id, c.account, c.plan, c.leg, Created, 0, None, createdAt, None, None, None, None, createdAt);
      match Validate(c, s)
      case Err(error) => Err(error)
      case Ok(_) => Ok(s)
  }

  predicate OvertakesReceipt(s: Status) {
    s.Reconciling? || s.ManualReconciliationRequired? || s.Accepted? || s.Rejected? || s.OrderSent?
    || s.PartiallyFilled? || s.Filled? || s.Failed?
  }

  /** `apply_receipt_evidence` up to its trailing validation; `Applied` carries the proposed state. */
  function ProposeReceipt(s: State, at: int): Result<Outcome, Error> {
    if s.dispatchedAt.Some? && at < s.dispatchedAt.value then Err(InvalidTimestamp)
    else if s.receivedAt.Some? then
      if s.receivedAt.value != at then Err(InvalidEvidence) else Ok(Duplicate(s))
    else if Allowed(s.status, CommandReceived) then
      if s.updatedAt >= I64_MAX then Err(VersionOverflow)
      else Ok(Applied(s.(status := CommandReceived, receivedAt := Some(at), updatedAt := NextVersion(s, at))))
    else if OvertakesReceipt(s.status) then
      if s.updatedAt >= I64_MAX then Err(VersionOverflow)
      else Ok(Applied(s.(receivedAt := Some(at), updatedAt := NextVersion(s, at))))
    else Err(InvalidTransition(s.status, CommandReceived))
  }

  /** The fields one piece of evidence writes. */
  function Record(s: State, e: Evidence): Result<State, Error> {
    match e
    case Dispatch(at) =>
      if s.deliveryAttempts >= U32_MAX then Err(VersionOverflow)
      else Ok(s.(deliveryAttempts := s.deliveryAttempts + 1, dispatchedAt := Some(at), lastDeliveryError := None))
    case Unconfirm(_, error) =>
      if error == 0 then Err(InvalidEvidence) else Ok(s.(lastDeliveryError := Some(error)))
    case BeginReconciliation(at) => Ok(if s.reconcilingAt.None? then s.(reconcilingAt := Some(at)) else s)
    case RequireManual(at) => Ok(if s.reconcilingAt.None? then s.(reconcilingAt := Some(at)) else s)
    case _ => Ok(s)
  }

  /** `transition_command` up to its trailing validation. */
  function Propose(c: Command, s: State, e: Evidence): Result<Outcome, Error> {
    var target, at := StatusOfEvidence(e), At(e);
    if Validate(c, s).Err? then Err(Validate(c, s).error)
    else if ValidateEvidence(c, e).Err? then Err(ValidateEvidence(c, e).error)
    else if e.Execution? && e.event.filledAt.Some? && e.event.filledAt.value < s.createdAt then Err(InvalidTimestamp)
    else if at < s.createdAt then Err(InvalidTimestamp)
    else if IsReceipt(e) then ProposeReceipt(s, at)
    else if at < LatestEvidence(s) then Err(InvalidTimestamp)
    else if target == s.status then Ok(Duplicate(s))
    else if (e.Expire? || e.Cancel?) && !s.status.Created? then Err(InvalidEvidence)
    else if !Allowed(s.status, target) then Err(InvalidTransition(s.status, target))
    else if s.updatedAt >= I64_MAX then Err(VersionOverflow)
    else match Record(s.(status := target, updatedAt := NextVersion(s, at)), e)
      case Err(error) => Err(error)
      case Ok(next) => Ok(Applied(if Terminal(target) then next.(completedAt := Some(at)) else next))
  }

  /** `transition_command`: a proposed state is validated before it is returned. */
  function Transition(c: Command, s: State, e: Evidence): Result<Outcome, Error> {
    match Propose(c, s, e)
    case Err(error) => Err(error)
    case Ok(Duplicate(same)) => Ok(Duplicate(same))
    case Ok(Applied(next)) => if Validate(c, next).Err? then Err(Validate(c, next).error) else Ok(Applied(next))
  }

  // ---------------------------------------------------------------------
  // Validity is inductive.

  lemma ReceiptValid(c: Command, s: State, at: int)
    requires Valid(c, s) && s.createdAt <= at && ProposeReceipt(s, at).Ok?
    ensures Valid(c, ProposeReceipt(s, at).value.state)
  {
  }

  lemma RecordedValid(c: Command, s: State, e: Evidence)
    requires Valid(c, s) && !IsReceipt(e) && Propose(c, s, e).Ok?
    ensures Valid(c, Propose(c, s, e).value.state)
  {
    hide ValidateEvent, ValidateReceipt;
  }

  /** The trailing validations never reject: every proposed step from a valid state is valid. */
  lemma TrailingValidationNeverRejects(c: Command, s: State, e: Evidence)
    ensures Transition(c, s, e) == Propose(c, s, e)
    ensures Transition(c, s, e).Ok? ==> Valid(c, s) && Valid(c, Transition(c, s, e).value.state)
  {
    hide Validate;
    if Propose(c, s, e).Ok? {
      assert Valid(c, s) by { ProposeValid(c, s, e); }
      if IsReceipt(e) {
        ReceiptProposal(c, s, e);
        ReceiptValid(c, s, At(e));
      } else {
        RecordedValid(c, s, e);
      }
      ValidMeans(c, Propose(c, s, e).value.state);
    }
  }

  lemma ValidMeans(c: Command, s: State)
    ensures Valid(c, s) <==> !Validate(c, s).Err?
  {
  }

  lemma ProposeValid(c: Command, s: State, e: Evidence)
    requires Propose(c, s, e).Ok?
    ensures Valid(c, s)
  {
  }

  lemma ReceiptProposal(c: Command, s: State, e: Evidence)
    requires IsReceipt(e) && Propose(c, s, e).Ok?
    ensures Propose(c, s, e) == ProposeReceipt(s, At(e)) && s.createdAt <= At(e)
  {
  }

  lemma InitialValid(c: Command, createdAt: int)
    ensures Initial(c, createdAt).Ok? <==> ValidCommand(c) && 0 <= createdAt < c.expiresAt
    ensures Initial(c, createdAt).Ok? ==>
              var s := Initial(c, createdAt).value;
              && Valid(c, s) && s.status == Created && s.createdAt == s.updatedAt == createdAt
              && s.lastDeliveryError.None?
  {
  }

  // ---------------------------------------------------------------------
  // What each step means.

  /** The statuses an execution event can move a command out of. */
  function EventSources(s: EventStatus): set<Status> {
    match s
    case EventAccepted => {CommandReceived}
    case EventRejected => {CommandReceived, Accepted}
    case EventOrderSent => {Reconciling, ManualReconciliationRequired, Accepted}
    case EventPartiallyFilled => {Reconciling, ManualReconciliationRequired, OrderSent}
    case EventFilled => {Reconciling, ManualReconciliationRequired, OrderSent, PartiallyFilled}
    case EventFailed =>
      {DeliveryUnconfirmed, Reconciling, ManualReconciliationRequired, Accepted, OrderSent, PartiallyFilled}
    case EventExpired =>
      {Created, Dispatched, DeliveryUnconfirmed, Reconciling, ManualReconciliationRequired, CommandReceived, Accepted}
    case EventCancelled =>
      {Created, Dispatched, ManualReconciliationRequired, CommandReceived, Accepted, OrderSent, PartiallyFilled}
  }

  /** The statuses a piece of evidence can move a command out of. */
  function Sources(e: Evidence): set<Status> {
    match e
    case Dispatch(_) => {Created}
    case Unconfirm(_, _) => {Dispatched}
    case BeginReconciliation(_) => {DeliveryUnconfirmed}
    case RequireManual(_) => {DeliveryUnconfirmed, Reconciling}
    case Execution(x) => EventSources(x.status)
    case Expire(_) => {Created}
    case Cancel(_) => {Created}
    case _ => {Dispatched, DeliveryUnconfirmed, Reconciling, ManualReconciliationRequired}
  }

  /** The statuses that keep their place when the receipt arrives late. */
  const AheadOfReceipt: set<Status> := {Accepted, Rejected, OrderSent, PartiallyFilled, Filled, Failed}

  /** The event speaks of this very command and its quantities make sense. */
  predicate EventFits(c: Command, x: ExecutionEvent) {
    && x.id != 0 && x.command == c.id && x.account == c.account && x.symbol == c.symbol
    && x.plan == c.plan && x.leg == c.leg && x.terminal == c.terminal && x.client == c.client
    && x.brokerSymbol in {None, c.brokerSymbol} && x.idempotencyKey in {None, Some(c.idempotencyKey)}
    && (x.requestedLots.None? || (c.lots.Some? && x.requestedLots.value.bits == c.lots.value.bits))
    && (if x.status == EventFilled || x.status == EventPartiallyFilled then
          && x.filledAt.Some? && 0 <= x.filledAt.value <= x.eventAt
          && x.filledLots.Some? && x.filledLots.value.kind == Positive
        else x.filledAt.None?)
    && (forall a :: a in [x.requestedLots, x.fillPrice, x.filledLots, x.remainingLots] && a.Some? ==>
          a.value.kind in {Zero, Positive})
  }

  predicate ReceiptFits(c: Command, r: Receipt) {
    && r.command == c.id && r.account == c.account && r.idempotencyKey == c.idempotencyKey
    && r.terminal == c.terminal && r.client == c.client
  }

  /** Well-formed evidence about this command, observed at `at`. */
  predicate Fits(c: Command, e: Evidence, at: int) {
    && 0 <= at
    && match e
       case Dispatch(t) => t == at < c.expiresAt
       case ReceivedRecorded(r) => ReceiptFits(c, r) && r.inbox == Recorded && r.receivedAt == at < c.expiresAt
       case ReceivedDuplicate(r) => ReceiptFits(c, r) && r.inbox == DuplicateKnown && r.receivedAt == at
       case Execution(x) => EventFits(c, x) && x.eventAt == at
       case Expire(t) => c.expiresAt <= t == at
       case Unconfirm(t, _) => t == at
       case BeginReconciliation(t) => t == at
       case RequireManual(t) => t == at
       case Cancel(t) => t == at
  }

  /** No recorded time lies after `at`. */
  predicate AfterAll(s: State, at: int) {
    && s.createdAt <= at && (s.dispatchedAt.Some? ==> s.dispatchedAt.value <= at)
    && (s.receivedAt.Some? ==> s.receivedAt.value <= at)
    && (s.reconcilingAt.Some? ==> s.reconcilingAt.value <= at)
    && (s.completedAt.Some? ==> s.completedAt.value <= at)
  }

  /** Evidence advances a command only after everything recorded; a receipt only after the dispatch. */
  predicate InTime(s: State, e: Evidence, at: int) {
    if IsReceipt(e) then s.createdAt <= at && (s.dispatchedAt.Some? ==> s.dispatchedAt.value <= at)
    else AfterAll(s, at) && (e.Execution? && e.event.filledAt.Some? ==> s.createdAt <= e.event.filledAt.value)
  }

  lemma EventFitsIs(c: Command, x: ExecutionEvent)
    ensures ValidateEvent(c, x).Ok? && 0 <= x.eventAt <==> EventFits(c, x) && 0 <= x.eventAt
  {
    assert forall a :: a in [x.requestedLots, x.fillPrice, x.filledLots, x.remainingLots] <==>
        a == x.requestedLots || a == x.fillPrice || a == x.filledLots || a == x.remainingLots;
  }

  lemma FitsIs(c: Command, e: Evidence)
    ensures ValidateEvidence(c, e).Ok? <==> Fits(c, e, At(e))
    ensures forall at :: Fits(c, e, at) ==> at == At(e)
  {
    if e.Execution? {
      EventFitsIs(c, e.event);
      hide ValidateEvent, EventFits;
    }
  }

  lemma AfterAllIs(s: State, at: int)
    ensures AfterAll(s, at) <==> LatestEvidence(s) <= at
    ensures s.createdAt <= LatestEvidence(s)
  {
  }

  /**
    Exactly when evidence moves a valid command, exactly when it is a duplicate, and
    what a refusal means: every edge of the machine, column by column.
  */
  lemma StepsExactly(c: Command, s: State, e: Evidence, at: int)
    requires Valid(c, s) && Fits(c, e, at)
    ensures var r := Transition(c, s, e);
            && (r.Ok? && r.value.Applied? <==>
                  && InTime(s, e, at) && s.updatedAt < I64_MAX && (e.Unconfirm? ==> e.error != 0)
                  && (if IsReceipt(e) then s.receivedAt.None? && s.status in Sources(e) + AheadOfReceipt
                      else s.status in Sources(e)))
            && (r.Ok? && r.value.Duplicate? <==>
                  InTime(s, e, at) && if IsReceipt(e) then s.receivedAt == Some(at) else Target(e, s.status))
            && (r.Ok? && r.value.Duplicate? ==> r.value.state == s)
            && (!InTime(s, e, at) ==> r == Err(InvalidTimestamp))
            && (r.Err? && r.error.InvalidTransition? ==>
                  && InTime(s, e, at) && s.status !in Sources(e) && r.error.from == s.status
                  && (if IsReceipt(e) then r.error.to == CommandReceived else Target(e, r.error.to)))
            && (r == Err(VersionOverflow) ==> s.updatedAt >= I64_MAX)
  {
    hide Transition, Validate, ValidateEvidence, LatestEvidence, AfterAll, Fits, EventFits, Allowed, Sources, Target,
         StatusOfEvidence;
    FitsIs(c, e);
    AfterAllIs(s, at);
    TrailingValidationNeverRejects(c, s, e);
    ValidMeans(c, s);
    if IsReceipt(e) {
      ReceiptEdges(s.status, e);
    } else {
      EvidenceEdges(s.status, e);
      if e.Dispatch? && s.status.Created? {
        CreatedIsUntouched(c, s);
      }
    }
  }

  lemma EvidenceEdges(from: Status, e: Evidence)
    requires !IsReceipt(e)
    ensures forall t :: Target(e, t) <==> t == StatusOfEvidence(e)
    ensures from in Sources(e) <==>
              && Allowed(from, StatusOfEvidence(e)) && StatusOfEvidence(e) != from
              && (e.Expire? || e.Cancel? ==> from.Created?)
    ensures e.Dispatch? && from in Sources(e) ==> from.Created?
  {
  }

  lemma ReceiptEdges(from: Status, e: Evidence)
    requires IsReceipt(e)
    ensures from in Sources(e) <==> Allowed(from, CommandReceived)
    ensures from in Sources(e) + AheadOfReceipt <==> Allowed(from, CommandReceived) || OvertakesReceipt(from)
  {
  }

  lemma CreatedIsUntouched(c: Command, s: State)
    requires Valid(c, s) && s.status.Created?
    ensures s.deliveryAttempts == 0
  {
  }

  /** Evidence that is not well formed never gets anywhere, and identity is checked first. */
  lemma UnfitIsRefused(c: Command, s: State, e: Evidence)
    requires Valid(c, s) && !Fits(c, e, At(e))
    ensures Transition(c, s, e).Err?
    ensures e.Execution? && (e.event.command != c.id || e.event.account != c.account || e.event.eventAt < 0) ==>
              Transition(c, s, e) == Err(InvalidIdentity)
    ensures IsReceipt(e) && e.receipt.inbox != (if e.ReceivedRecorded? then Recorded else DuplicateKnown) ==>
              Transition(c, s, e) == Err(InvalidEvidence)
    ensures IsReceipt(e) && e.receipt.inbox == (if e.ReceivedRecorded? then Recorded else DuplicateKnown)
            && !ReceiptFits(c, e.receipt) ==>
              Transition(c, s, e) == Err(InvalidIdentity)
  {
    FitsIs(c, e);
    ValidMeans(c, s);
    hide Validate, Fits;
  }

  /** The status each kind of evidence stands for, and no other. */
  predicate Target(e: Evidence, s: Status) {
    match s
    case Created => false
    case DeliveryFailed => false
    case Dispatched => e.Dispatch?
    case DeliveryUnconfirmed => e.Unconfirm?
    case Reconciling => e.BeginReconciliation?
    case ManualReconciliationRequired => e.RequireManual?
    case CommandReceived => e.ReceivedRecorded? || e.ReceivedDuplicate?
    case Accepted => e.Execution? && e.event.status.EventAccepted?
    case Rejected => e.Execution? && e.event.status.EventRejected?
    case OrderSent => e.Execution? && e.event.status.EventOrderSent?
    case PartiallyFilled => e.Execution? && e.event.status.EventPartiallyFilled?
    case Filled => e.Execution? && e.event.status.EventFilled?
    case Failed => e.Execution? && e.event.status.EventFailed?
    case Expired => e.Expire? || (e.Execution? && e.event.status.EventExpired?)
    case Cancelled => e.Cancel? || (e.Execution? && e.event.status.EventCancelled?)
  }

  /** The statuses that end a command, with the time of the evidence as completion. */
  const Endings: set<Status> := {Rejected, Filled, Failed, Expired, Cancelled}

  /** The whole new state: each kind of evidence writes its status and its own time, and nothing else. */
  lemma AppliedWrites(c: Command, s: State, e: Evidence, at: int)
    requires Fits(c, e, at) && Transition(c, s, e).Ok? && Transition(c, s, e).value.Applied?
    ensures var t := Transition(c, s, e).value.state;
            && (Target(e, t.status) || (IsReceipt(e) && s.status in AheadOfReceipt && t.status == s.status))
            && t.updatedAt == (if s.updatedAt < at then at else s.updatedAt + 1)
            && t == s.(status := t.status, updatedAt := t.updatedAt,
                       deliveryAttempts := s.deliveryAttempts + (if e.Dispatch? then 1 else 0),
                       dispatchedAt := if e.Dispatch? then Some(at) else s.dispatchedAt,
                       lastDeliveryError := if e.Dispatch? then None
                                            else if e.Unconfirm? then Some(e.error) else s.lastDeliveryError,
                       receivedAt := if IsReceipt(e) then Some(at) else s.receivedAt,
                       reconcilingAt := if (e.BeginReconciliation? || e.RequireManual?) && s.reconcilingAt.None?
                                        then Some(at) else s.reconcilingAt,
                       completedAt := if !IsReceipt(e) && t.status in Endings then Some(at) else s.completedAt)
  {
    FitsIs(c, e);
    TrailingValidationNeverRejects(c, s, e);
    hide Transition, Validate, ValidateEvidence, LatestEvidence, Fits;
  }

  /** What a valid state has recorded, status by status. */
  lemma ValidStates(c: Command, s: State)
    ensures Valid(c, s) <==>
              && 0 !in {c.id, c.strategy, c.account, c.symbol, c.idempotencyKey, c.hmac}
              && (c.leg.Some? ==> c.plan.Some?)
              && (s.id, s.account, s.plan, s.leg) == (c.id, c.account, c.plan, c.leg)
              && 0 <= s.createdAt < c.expiresAt && s.createdAt <= s.updatedAt
              && (forall t :: t in [s.dispatchedAt, s.receivedAt, s.reconcilingAt, s.completedAt] && t.Some? ==>
                    s.createdAt <= t.value <= s.updatedAt)
              && (s.completedAt.Some? <==> s.status in Endings + {DeliveryFailed})
              && (s.dispatchedAt.Some? <==> 0 < s.deliveryAttempts)
              && (s.dispatchedAt.None? ==> s.status in {Created, DeliveryFailed, Expired, Cancelled})
              && (s.receivedAt.None? ==> s.status !in {CommandReceived, Accepted, Rejected})
              && (s.reconcilingAt.None? ==> s.status !in {Reconciling, ManualReconciliationRequired})
              && (s.status == Created ==> s.dispatchedAt.None? && s.receivedAt.None? && s.reconcilingAt.None?)
              && (s.status == DeliveryUnconfirmed ==> s.lastDeliveryError !in {None, Some(0)})
  {
    assert forall t :: t in [s.dispatchedAt, s.receivedAt, s.reconcilingAt, s.completedAt] <==>
        t == s.dispatchedAt || t == s.receivedAt || t == s.reconcilingAt || t == s.completedAt;
  }

  // ---------------------------------------------------------------------
  // Whole runs.

  /** The states a list of evidence leads through, one per applied step; other evidence changes nothing. */
  function Steps(c: Command, s: State, evidence: seq<Evidence>): seq<State>
    decreases |evidence|
  {
    if evidence == [] then []
    else match Transition(c, s, evidence[0])
      case Ok(Applied(t)) => [t] + Steps(c, t, evidence[1..])
      case _ => Steps(c, s, evidence[1..])
  }

  function FinalState(s: State, steps: seq<State>): State {
    if steps == [] then s else steps[|steps| - 1]
  }

  predicate NotBefore(t: Option<int>, bound: Option<int>) {
    t.Some? && bound.Some? ==> bound.value <= t.value
  }

  /** What validation does not say but every reachable state satisfies. */
  predicate Reached(c: Command, s: State) {
    && Valid(c, s)
    && s.deliveryAttempts <= 1
    && (s.dispatchedAt.Some? ==> s.dispatchedAt.value < c.expiresAt)
    && NotBefore(s.receivedAt, s.dispatchedAt)
    && NotBefore(s.reconcilingAt, s.dispatchedAt)
    && NotBefore(s.completedAt, s.dispatchedAt)
  }

  predicate Kept<T(==)>(before: Option<T>, after: Option<T>) {
    before.Some? ==> after == before
  }

  /** Identity and times once written stay; a terminal status and its completion time are frozen. */
  predicate Extends(s: State, t: State) {
    && t.id == s.id && t.account == s.account && t.plan == s.plan && t.leg == s.leg && t.createdAt == s.createdAt
    && Kept(s.dispatchedAt, t.dispatchedAt) && Kept(s.receivedAt, t.receivedAt)
    && Kept(s.reconcilingAt, t.reconcilingAt) && Kept(s.completedAt, t.completedAt)
    && (Terminal(s.status) ==> t.status == s.status)
    && s.deliveryAttempts <= t.deliveryAttempts
  }

  /** An upper bound on the applied steps still possible. */
  function Rank(s: State): nat {
    if s.receivedAt.None? then
      match s.status
      case Created => 9
      case Dispatched => 8
      case DeliveryUnconfirmed => 7
      case Reconciling => 6
      case ManualReconciliationRequired => 5
      case OrderSent => 3
      case PartiallyFilled => 2
      case Filled => 1
      case Failed => 1
      case _ => 0
    else
      match s.status
      case Dispatched => 8
      case DeliveryUnconfirmed => 7
      case Reconciling => 6
      case ManualReconciliationRequired => 5
      case CommandReceived => 4
      case Accepted => 3
      case OrderSent => 2
      case PartiallyFilled => 1
      case _ => 0
  }

  lemma ReceiptStep(c: Command, s: State, at: int)
    requires Reached(c, s) && s.createdAt <= at && ProposeReceipt(s, at).Ok? && ProposeReceipt(s, at).value.Applied?
    ensures var t := ProposeReceipt(s, at).value.state;
            Reached(c, t) && Extends(s, t) && Rank(t) < Rank(s) && s.updatedAt < t.updatedAt
  {
    ReceiptValid(c, s, at);
  }

  lemma RecordedStep(c: Command, s: State, e: Evidence)
    requires Reached(c, s) && !IsReceipt(e) && Propose(c, s, e).Ok? && Propose(c, s, e).value.Applied?
    ensures var t := Propose(c, s, e).value.state;
            Reached(c, t) && Extends(s, t) && Rank(t) < Rank(s) && s.updatedAt < t.updatedAt
  {
    RecordedValid(c, s, e);
    hide ValidateEvent, ValidateReceipt;
    if e.Dispatch? {
      RecordedDispatch(c, s, e);
    }
    RecordedRank(c, s, e);
  }

  lemma RecordedRank(c: Command, s: State, e: Evidence)
    requires Valid(c, s) && !IsReceipt(e) && Propose(c, s, e).Ok? && Propose(c, s, e).value.Applied?
    ensures var t := Propose(c, s, e).value.state;
            Rank(t) < Rank(s) && s.updatedAt < t.updatedAt
  {
    hide ValidateEvidence;
  }

  lemma RecordedDispatch(c: Command, s: State, e: Evidence)
    requires Propose(c, s, e).Ok? && e.Dispatch?
    ensures e.at < c.expiresAt
  {
  }

  /** One applied step raises the version, uses up rank and keeps everything already recorded. */
  lemma AppliedStep(c: Command, s: State, e: Evidence)
    requires Reached(c, s) && Transition(c, s, e).Ok? && Transition(c, s, e).value.Applied?
    ensures var t := Transition(c, s, e).value.state;
            Reached(c, t) && Extends(s, t) && Rank(t) < Rank(s) && s.updatedAt < t.updatedAt
  {
    hide Validate, Propose, Reached, Extends, Rank, Transition;
    TrailingValidationNeverRejects(c, s, e);
    if IsReceipt(e) {
      ReceiptProposal(c, s, e);
      ReceiptStep(c, s, At(e));
    } else {
      RecordedStep(c, s, e);
    }
  }

  lemma ExtendsTransitive(s: State, t: State, u: State)
    requires Extends(s, t) && Extends(t, u)
    ensures Extends(s, u)
  {
  }

  lemma {:induction false} StepsFrom(c: Command, s: State, evidence: seq<Evidence>)
    requires Reached(c, s)
    ensures var steps := Steps(c, s, evidence);
            && |steps| + Rank(FinalState(s, steps)) <= Rank(s)
            && (forall i :: 0 <= i < |steps| ==>
                  Reached(c, steps[i]) && Extends(s, steps[i]) && s.updatedAt < steps[i].updatedAt)
            && (forall i, j :: 0 <= i < j < |steps| ==>
                  Extends(steps[i], steps[j]) && steps[i].updatedAt < steps[j].updatedAt)
    decreases |evidence|
  {
    hide Reached, Extends, Rank, Transition;
    if evidence != [] {
      match Transition(c, s, evidence[0]) {
        case Ok(Applied(t)) =>
          AppliedStep(c, s, evidence[0]);
          StepsFrom(c, t, evidence[1..]);
          var rest := Steps(c, t, evidence[1..]);
          forall i | 0 <= i < |rest| ensures Extends(s, rest[i]) {
            ExtendsTransitive(s, t, rest[i]);
          }
        case _ =>
          StepsFrom(c, s, evidence[1..]);
      }
    }
  }

  /**
    Every run of a command, whatever evidence arrives in whatever order: at most
    nine steps apply, each with a higher version; the command is dispatched at most
    once and before it expires; times are written once and none lies before the
    dispatch; a terminal status and its completion time never change again.
  */
  lemma CommandRun(c: Command, createdAt: int, evidence: seq<Evidence>)
    requires ValidCommand(c) && 0 <= createdAt < c.expiresAt
    ensures Initial(c, createdAt).Ok?
    ensures var s := Initial(c, createdAt).value;
            var steps := Steps(c, s, evidence);
            && |steps| <= 9
            && (forall i :: 0 <= i < |steps| ==>
                  Reached(c, steps[i]) && Extends(s, steps[i]) && s.updatedAt < steps[i].updatedAt)
            && (forall i, j :: 0 <= i < j < |steps| ==>
                  Extends(steps[i], steps[j]) && steps[i].updatedAt < steps[j].updatedAt)
  {
    InitialValid(c, createdAt);
    hide Extends, Transition, Validate;
    StepsFrom(c, Initial(c, createdAt).value, evidence);
  }

  /** Over every run: a command reaches a status only through evidence that stands for it. */
  lemma {:induction false} StatusesAreEvidenced(c: Command, s: State, evidence: seq<Evidence>, i: nat)
    requires i < |Steps(c, s, evidence)|
    ensures var t := Steps(c, s, evidence)[i].status;
            t == s.status || exists k :: 0 <= k < |evidence| && Target(evidence[k], t)
    decreases |evidence|
  {
    hide Transition, Target;
    var e, rest := evidence[0], evidence[1..];
    match Transition(c, s, e) {
      case Ok(Applied(t)) =>
        AppliedTarget(c, s, e);
        if i == 0 {
          assert t.status == s.status || Target(evidence[0], t.status);
        } else {
          StatusesAreEvidenced(c, t, rest, i - 1);
          var u := Steps(c, t, rest)[i - 1].status;
          if u != t.status {
            var k :| 0 <= k < |rest| && Target(rest[k], u);
            assert Target(evidence[k + 1], u);
          } else if t.status != s.status {
            assert Target(evidence[0], u);
          }
        }
      case _ =>
        StatusesAreEvidenced(c, s, rest, i);
        var u := Steps(c, s, rest)[i].status;
        if u != s.status {
          var k :| 0 <= k < |rest| && Target(rest[k], u);
          assert Target(evidence[k + 1], u);
        }
    }
  }

  lemma AppliedTarget(c: Command, s: State, e: Evidence)
    requires Transition(c, s, e).Ok? && Transition(c, s, e).value.Applied?
    ensures var t := Transition(c, s, e).value.state.status; t == s.status || Target(e, t)
  {
    TrailingValidationNeverRejects(c, s, e);
    hide Validate, ValidateEvidence, LatestEvidence;
  }

  // The bound is met by every command.

  function Observed(c: Command, status: EventStatus, at: int): ExecutionEvent {
    var fill := IsFill(status);
    ExecutionEvent(1, c.id, c.plan, c.leg, c.account, c.terminal, c.client, c.symbol, None, status, None, None,
                   None, if fill then Some(Amount(1, Positive)) else None, None, if fill then Some(at) else None, at)
  }

  function ReceiptOf(c: Command, at: int): Receipt {
    Receipt(c.id, c.idempotencyKey, c.account, c.terminal, c.client, at, Recorded)
  }

  /** Evidence for the longest life a command can have, all observed at one time. */
  function LongestLife(c: Command, at: int): seq<Evidence> {
    [Dispatch(at), Unconfirm(at, 1), BeginReconciliation(at), RequireManual(at), ReceivedRecorded(ReceiptOf(c, at)),
     Execution(Observed(c, EventAccepted, at)), Execution(Observed(c, EventOrderSent, at)),
     Execution(Observed(c, EventPartiallyFilled, at)), Execution(Observed(c, EventFilled, at))]
  }

  const LongestPath: seq<Status> :=
    [Created, Dispatched, DeliveryUnconfirmed, Reconciling, ManualReconciliationRequired, CommandReceived,
     Accepted, OrderSent, PartiallyFilled, Filled]

  /** A state on that path: every time in it is the one time of the run. */
  predicate OnPath(c: Command, s: State, at: int, i: nat) {
    && i <= 9 && Valid(c, s) && s.status == LongestPath[i] && s.createdAt == at && s.updatedAt == at + i
    && LatestEvidence(s) == at && s.deliveryAttempts <= 1
    && (s.receivedAt.Some? <==> 5 <= i) && (s.dispatchedAt.Some? ==> s.dispatchedAt.value == at)
  }

  lemma NextOnPath(c: Command, s: State, at: int, i: nat)
    requires OnPath(c, s, at, i) && i < 9 && 0 <= at < c.expiresAt && at + 9 <= I64_MAX
    ensures var r := Transition(c, s, LongestLife(c, at)[i]);
            r.Ok? && r.value.Applied? && OnPath(c, r.value.state, at, i + 1)
  {
    var e := LongestLife(c, at)[i];
    TrailingValidationNeverRejects(c, s, e);
    hide Transition;
    PathProposal(c, s, at, i);
  }

  lemma PathProposal(c: Command, s: State, at: int, i: nat)
    requires OnPath(c, s, at, i) && i < 9 && 0 <= at < c.expiresAt && at + 9 <= I64_MAX
    ensures var r := Propose(c, s, LongestLife(c, at)[i]);
            r.Ok? && r.value.Applied? && r.value.state.status == LongestPath[i + 1]
            && r.value.state.createdAt == at && r.value.state.updatedAt == at + i + 1
            && LatestEvidence(r.value.state) == at && r.value.state.deliveryAttempts <= 1
            && (r.value.state.receivedAt.Some? <==> 5 <= i + 1)
            && (r.value.state.dispatchedAt.Some? ==> r.value.state.dispatchedAt.value == at)
  {
    var e := LongestLife(c, at)[i];
    PathEvidence(c, at, i);
    hide ValidateEvidence, LongestLife;
  }

  lemma PathEvidence(c: Command, at: int, i: nat)
    requires i < 9 && 0 <= at < c.expiresAt
    ensures var e := LongestLife(c, at)[i];
            && ValidateEvidence(c, e).Ok? && StatusOfEvidence(e) == LongestPath[i + 1] && At(e) == at
            && (IsReceipt(e) <==> i == 4) && !e.Expire? && !e.Cancel? && (e.Unconfirm? ==> e.error == 1)
            && (e.Execution? && e.event.filledAt.Some? ==> e.event.filledAt.value == at)
            && (e.Dispatch? <==> i == 0) && (e.Execution? <==> 5 <= i)
  {
  }

  lemma {:induction false} PathSteps(c: Command, s: State, at: int, i: nat)
    requires OnPath(c, s, at, i) && 0 <= at < c.expiresAt && at + 9 <= I64_MAX
    ensures |Steps(c, s, LongestLife(c, at)[i..])| == 9 - i
    decreases 9 - i
  {
    hide Transition, OnPath, LongestLife;
    LongestLifeLength(c, at);
    OnPathBound(c, s, at, i);
    if i < 9 {
      NextOnPath(c, s, at, i);
      var evidence := LongestLife(c, at)[i..];
      assert evidence[0] == LongestLife(c, at)[i] && evidence[1..] == LongestLife(c, at)[i + 1..];
      PathSteps(c, Transition(c, s, LongestLife(c, at)[i]).value.state, at, i + 1);
    }
  }

  lemma LongestLifeLength(c: Command, at: int)
    ensures |LongestLife(c, at)| == 9
  {
  }

  lemma OnPathBound(c: Command, s: State, at: int, i: nat)
    requires OnPath(c, s, at, i)
    ensures i <= 9
  {
  }

  /** Nine is the exact bound: every valid command has a run with nine applied steps. */
  lemma NineStepsHappen(c: Command, createdAt: int)
    requires ValidCommand(c) && 0 <= createdAt < c.expiresAt && createdAt + 9 <= I64_MAX
    ensures Initial(c, createdAt).Ok? && |Steps(c, Initial(c, createdAt).value, LongestLife(c, createdAt))| == 9
  {
    InitialValid(c, createdAt);
    var s := Initial(c, createdAt).value;
    assert OnPath(c, s, createdAt, 0);
    hide Transition, OnPath, LongestLife;
    PathSteps(c, s, createdAt, 0);
    assert LongestLife(c, createdAt)[0..] == LongestLife(c, createdAt);
  }
}
