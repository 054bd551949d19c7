/**
  At-most-once outbound delivery of one subject: its work row with generations,
  the durable delivery row of every generation (one per message id), any number of
  workers with expiring leases, and the peer.

  `Apply` performs one store transaction, one sink call or one crash; a run is any
  list of `Event`s. Clocks, leases, routes and the peer are the events' arguments,
  so nothing below depends on timing: a lease may be reclaimed at any moment, an
  acknowledgement may arrive for any message.
*/
module Delivery {
  import opened Prelude
  import opened Rejections

  datatype OutboxStatus = Pending | WriteStarted | Sent | Acked | Failed | Cancelled

  /** Durable error texts, as far as the code tells them apart. */
  datatype Note =
    | NoNote
    | CommandExpired
    | SessionUnavailable
    | ClockUnhealthyNote
    | AckRejected(reason: string)
    | QueueDepth(depth: nat)
    | Remark(text: nat)

  /** The durable record of one message id: an unbound rejection, or an outbox row with its attempt. */
  datatype Row =
    | Refused(reason: Reason)
    | Bound(outbox: OutboxStatus, outboxRevision: nat, lastError: Note,
            attempt: AttemptStatus, attemptRevision: nat, error: Note)

  datatype Outcome = Accepted | Unconfirmed | Rejected(reason: Reason) | NotWritten | Infrastructure

  datatype SinkOutcome = Written | SinkFull(depth: nat) | DefinitelyNotWritten | WriteUncertain

  predicate AckRefused(r: Row)
    requires r.Bound?
  {
    r.outbox.Failed? && r.lastError.AckRejected?
  }

  /** `durable_delivery_outcome`: what a stored row says about its message. */
  function DurableOutcome(r: Row): Outcome
    requires r.Bound?
  {
    match (r.outbox, r.attempt)
    case (Pending, _) => Infrastructure
    case (Cancelled, Withdrawn) => if CancelNote(r).CommandExpired? then Rejected(Expired) else NotWritten
    case (Cancelled, NoSession) =>
      if r.error.ClockUnhealthyNote? || r.lastError.ClockUnhealthyNote? then Rejected(ClockUnhealthy)
      else Rejected(NoActiveSession)
    case (Cancelled, _) => Infrastructure
    case (_, Received) => Accepted
    case (Failed, Waiting) => if AckRefused(r) then Rejected(TransportRejected(r.lastError.reason)) else Infrastructure
    case (Failed, Delivered) =>
      if AckRefused(r) then Rejected(TransportRejected(r.lastError.reason)) else Infrastructure
    case (Failed, NotSent) => if AckRefused(r) then Rejected(TransportRejected(r.lastError.reason)) else NotWritten
    case (Failed, Uncertain) => if AckRefused(r) then Rejected(TransportRejected(r.lastError.reason)) else Unconfirmed
    case (Failed, Backpressured) => Rejected(Backpressure(if r.error.QueueDepth? then r.error.depth else 0))
    case (WriteStarted, Waiting) => Unconfirmed
    case (_, Uncertain) => Unconfirmed
    case (Sent, Delivered) => Accepted
    case (Acked, Waiting) => Accepted
    case (Acked, Delivered) => Accepted
    case (Acked, Backpressured) => Accepted
    case (Acked, NotSent) => Accepted
    case _ => Infrastructure
  }

  function CancelNote(r: Row): Note
    requires r.Bound?
  {
    if r.error.NoNote? then r.lastError else r.error
  }

  // ---------------------------------------------------------------------
  // The row transitions of the store. `None` is a stale or refused write.

  const NewRow := Bound(Pending, 0, NoNote, Waiting, 0, NoNote)

  function WithOutbox(r: Row, status: OutboxStatus, note: Note): Row
    requires r.Bound?
  {
    r.(outbox := status, outboxRevision := r.outboxRevision + 1, lastError := note)
  }

  function WithAttempt(r: Row, status: AttemptStatus, note: Note): Row
    requires r.Bound?
  {
    r.(attempt := status, attemptRevision := r.attemptRevision + 1, error := note)
  }

  datatype ClaimVerdict = Claimed | Unavailable | ClockBad | Late

  function ClaimRow(r: Row, outboxRevision: nat, attemptRevision: nat, verdict: ClaimVerdict): Option<Row>
    requires r.Bound?
  {
    if !r.outbox.Pending? || !r.attempt.Waiting?
       || r.outboxRevision != outboxRevision || r.attemptRevision != attemptRevision then None
    else Some(match verdict
      case Claimed => WithAttempt(WithOutbox(r, WriteStarted, NoNote), Waiting, NoNote)
      case Unavailable => WithAttempt(WithOutbox(r, Cancelled, SessionUnavailable), NoSession, SessionUnavailable)
      case ClockBad => WithAttempt(WithOutbox(r, Cancelled, ClockUnhealthyNote), NoSession, ClockUnhealthyNote)
      case Late => WithAttempt(WithOutbox(r, Cancelled, CommandExpired), Withdrawn, CommandExpired))
  }

  /** `finish_transport_write_on`. */
  function FinishRow(r: Row, outboxRevision: nat, attemptRevision: nat, result: SinkOutcome, note: Note): Option<Row>
    requires r.Bound?
  {
    if AckRefused(r) && r.attempt.Waiting? then
      if r.attemptRevision != attemptRevision then None else Some(WithAttempt(r, Delivered, NoNote))
    else if r.attempt.Uncertain? || (r.outbox.Failed? && r.attempt.NotSent?)
            || (AckRefused(r) && (r.attempt.Delivered? || r.attempt.Received?)) then Some(r)
    else if r.outbox.Acked? || r.attempt.Received? then
      if r.outbox.Pending? || r.outbox.Cancelled? then None
      else
        var s := if r.outbox.WriteStarted? then WithOutbox(r, Sent, NoNote) else r;
        if r.attempt.Waiting? && r.attemptRevision != attemptRevision then None
        else if r.attempt.Waiting? || (r.outbox.Acked? && (r.attempt.NotSent? || r.attempt.Backpressured?)) then
          Some(WithAttempt(s, Delivered, NoNote))
        else Some(s)
    else if !r.outbox.WriteStarted? || !r.attempt.Waiting?
            || r.outboxRevision != outboxRevision || r.attemptRevision != attemptRevision then None
    else Some(match result
      case Written => WithAttempt(WithOutbox(r, Sent, NoNote), Delivered, NoNote)
      case SinkFull(depth) => WithAttempt(WithOutbox(r, Failed, QueueDepth(depth)), Backpressured, QueueDepth(depth))
      case DefinitelyNotWritten => WithAttempt(WithOutbox(r, Failed, note), NotSent, note)
      case WriteUncertain => WithAttempt(WithOutbox(r, WriteStarted, note), Uncertain, note))
  }

  /** What others do to a row: the peer's acknowledgements, timeouts, session closes and the startup fence. */
  datatype Change =
    | AckAccepted
    | AckRejects(reason: string)
    | CommandReceived
    | TimeOut(note: Note)
    | SettleRejected
    | UnconfirmSession(note: Note)
    | CancelPending(note: Note)
    | FenceStarted(note: Note)

  function ChangeRow(r: Row, c: Change): Row
    requires r.Bound?
  {
    match c
    case AckAccepted =>
      if r.lastError.AckRejected? || !(r.outbox.WriteStarted? || r.outbox.Sent? || r.outbox.Failed?) then r
      else WithOutbox(r, Acked, NoNote)
    case AckRejects(reason) =>
      if r.lastError.AckRejected? || !(r.outbox.WriteStarted? || r.outbox.Sent? || r.outbox.Failed?) then r
      else WithOutbox(r, Failed, AckRejected(reason))
    case CommandReceived =>
      if r.attempt.Received? || r.attempt.Withdrawn? || r.attempt.NoSession? then r
      else WithAttempt(r, Received, NoNote)
    case TimeOut(note) =>
      if !r.attempt.Delivered? || AckRefused(r) then r else WithAttempt(r, Uncertain, note)
    case SettleRejected =>
      if AckRefused(r) && r.attempt.Waiting? then WithAttempt(r, Delivered, NoNote) else r
    case UnconfirmSession(note) =>
      if (r.attempt.Delivered? && !r.outbox.Failed?)
         || (r.attempt.Waiting? && (r.outbox.WriteStarted? || r.outbox.Sent? || r.outbox.Acked?)) then
        WithAttempt(r, Uncertain, note)
      else r
    case CancelPending(note) =>
      if r.outbox.Pending? && r.attempt.Waiting? then
        WithAttempt(WithOutbox(r, Cancelled, note), Withdrawn, note)
      else r
    case FenceStarted(note) =>
      if !r.outbox.WriteStarted? then r
      else
        var s := WithOutbox(r, WriteStarted, note);
        if r.attempt.Waiting? || r.attempt.Delivered? then WithAttempt(s, Uncertain, note) else s
  }

  // ---------------------------------------------------------------------
  // The processor.

  datatype WorkStatus = Due | Processing(owner: nat) | Done

  datatype Work = Work(status: WorkStatus, generation: nat, revision: nat)

  /** Where a worker is between two transactions. `revision` is the work revision it claimed at. */
  datatype Step =
    | Starting(revision: nat, generation: nat)
    | Prepared(revision: nat, generation: nat, outboxRevision: nat, attemptRevision: nat)
    | Holding(revision: nat, generation: nat, outboxRevision: nat, attemptRevision: nat)
    | Wrote(revision: nat, generation: nat, outboxRevision: nat, attemptRevision: nat, result: SinkOutcome)
    | Deciding(revision: nat, generation: nat, outcome: Outcome)

  /** `sinkCalls` lists the generations the sink was called for; `bytes` those it may have put bytes on the wire for. */
  datatype World = World(
    work: Work,
    created: bool,
    rows: map<nat, Row>,
    workers: map<nat, Step>,
    sinkCalls: seq<nat>,
    bytes: set<nat>)

  datatype Event =
    | ClaimWork(worker: nat)
    | Prepare(worker: nat, refusal: Option<Reason>)
    | ClaimOutbox(worker: nat, verdict: ClaimVerdict)
    | CallSink(worker: nat, result: SinkOutcome)
    | NoSink(worker: nat)
    | Finish(worker: nat, note: Note)
    | Conclude(worker: nat, evidenceValid: bool)
    | Fail(worker: nat)
    | Crash(worker: nat)
    | Disturb(generation: nat, change: Change)
    | CommandAdvances

  function Init(): World {
    World(Work(Due, 1, 0), true, map[], map[], [], {})
  }

  /** Outcomes after which the next attempt uses a new message id. */
  predicate Advances(o: Outcome) {
    match o
    case Rejected(reason) => !reason.Expired? && !reason.IdentityMismatch? && !reason.TransportRejected?
    case NotWritten => true
    case _ => false
  }

  datatype Decision = Complete(settles: bool) | Retry(advance: bool)

  /** `finish_command`: how an outcome ends the work. */
  function Decide(o: Outcome, evidenceValid: bool): Decision {
    match o
    case Accepted => if evidenceValid then Complete(true) else Retry(false)
    case Unconfirmed => if evidenceValid then Complete(true) else Retry(false)
    case Rejected(reason) =>
      if reason.Expired? then (if evidenceValid then Complete(true) else Retry(false))
      else if reason.IdentityMismatch? || reason.TransportRejected? then Complete(false)
      else Retry(true)
    case NotWritten => Retry(true)
    case Infrastructure => Retry(false)
  }

  function Move(w: World, worker: nat, step: Step): World {
    w.(workers := w.workers[worker := step])
  }

  function Leave(w: World, worker: nat): World {
    w.(workers := map v | v in w.workers && v != worker :: w.workers[v])
  }

  function Store(w: World, generation: nat, row: Row): World {
    w.(rows := w.rows[generation := row])
  }

  function ClaimWorkStep(w: World, worker: nat): World {
    if w.work.status.Done? || worker in w.workers then w
    else
      var revision := w.work.revision + 1;
      if !w.created then w.(work := w.work.(status := Done, revision := revision + 1))
      else
        Move(w.(work := w.work.(status := Processing(worker), revision := revision)),
             worker, Starting(revision, w.work.generation))
  }

  /** The first transaction of `prepare_and_write`. */
  function PrepareStep(w: World, worker: nat, refusal: Option<Reason>): World
    requires worker in w.workers && w.workers[worker].Starting?
  {
    var s := w.workers[worker];
    var g := s.generation;
    if g in w.rows then
      match w.rows[g]
      case Refused(reason) => Move(w, worker, Deciding(s.revision, g, Rejected(reason)))
      case Bound(outbox, outboxRevision, _, attempt, attemptRevision, _) =>
        if outbox.Pending? && attempt.Waiting? then
          Move(w, worker, Prepared(s.revision, g, outboxRevision, attemptRevision))
        else Move(w, worker, Deciding(s.revision, g, DurableOutcome(w.rows[g])))
    else if refusal.Some? then
      Move(Store(w, g, Refused(refusal.value)), worker, Deciding(s.revision, g, Rejected(refusal.value)))
    else
      Move(Store(w, g, NewRow), worker, Prepared(s.revision, g, NewRow.outboxRevision, NewRow.attemptRevision))
  }

  function ClaimOutboxStep(w: World, worker: nat, verdict: ClaimVerdict): World
    requires worker in w.workers && w.workers[worker].Prepared?
  {
    var s := w.workers[worker];
    var g := s.generation;
    if g !in w.rows || w.rows[g].Refused? then w
    else match ClaimRow(w.rows[g], s.outboxRevision, s.attemptRevision, verdict)
      case None => Move(w, worker, Deciding(s.revision, g, DurableOutcome(w.rows[g])))
      case Some(row) =>
        if verdict.Claimed? then
          Move(Store(w, g, row), worker, Holding(s.revision, g, row.outboxRevision, row.attemptRevision))
        else Move(Store(w, g, row), worker, Deciding(s.revision, g, DurableOutcome(row)))
  }

  /** Whether a sink outcome leaves open that bytes reached the wire. */
  predicate MayHaveBytes(result: SinkOutcome) {
    result.Written? || result.WriteUncertain?
  }

  function SinkStep(w: World, worker: nat, result: SinkOutcome): World
    requires worker in w.workers && w.workers[worker].Holding?
  {
    var s := w.workers[worker];
    Move(w.(sinkCalls := w.sinkCalls + [s.generation],
            bytes := if MayHaveBytes(result) then w.bytes + {s.generation} else w.bytes),
         worker, Wrote(s.revision, s.generation, s.outboxRevision, s.attemptRevision, result))
  }

  /** The session has no live transport: nothing is called. */
  function NoSinkStep(w: World, worker: nat): World
    requires worker in w.workers && w.workers[worker].Holding?
  {
    var s := w.workers[worker];
    Move(w, worker, Wrote(s.revision, s.generation, s.outboxRevision, s.attemptRevision, DefinitelyNotWritten))
  }

  function FinishStep(w: World, worker: nat, note: Note): World
    requires worker in w.workers && w.workers[worker].Wrote?
  {
    var s := w.workers[worker];
    var g := s.generation;
    if g !in w.rows || w.rows[g].Refused? then w
    else match FinishRow(w.rows[g], s.outboxRevision, s.attemptRevision, s.result, note)
      case None => Move(w, worker, Deciding(s.revision, g, DurableOutcome(w.rows[g])))
      case Some(row) => Move(Store(w, g, row), worker, Deciding(s.revision, g, DurableOutcome(row)))
  }

  function ConcludeStep(w: World, worker: nat, evidenceValid: bool): World
    requires worker in w.workers && w.workers[worker].Deciding?
  {
    var s := w.workers[worker];
    if w.work.status != Processing(worker) || w.work.revision != s.revision then Leave(w, worker)
    else
      var revision := w.work.revision + 1;
      match Decide(s.outcome, evidenceValid)
      case Complete(settles) =>
        Leave(w.(work := Work(Done, w.work.generation, revision), created := w.created && !settles), worker)
      case Retry(advance) =>
        if !w.created then Leave(w.(work := Work(Done, w.work.generation, revision)), worker)
        else if advance && w.work.generation == I64_MAX then Leave(w, worker)
        else
          Leave(w.(work := Work(Due, if advance then w.work.generation + 1 else w.work.generation, revision)), worker)
  }

  function Apply(w: World, e: Event): World {
    match e
    case ClaimWork(worker) => ClaimWorkStep(w, worker)
    case Prepare(worker, refusal) =>
      if worker in w.workers && w.workers[worker].Starting? then PrepareStep(w, worker, refusal) else w
    case ClaimOutbox(worker, verdict) =>
      if worker in w.workers && w.workers[worker].Prepared? then ClaimOutboxStep(w, worker, verdict) else w
    case CallSink(worker, result) =>
      if worker in w.workers && w.workers[worker].Holding? then SinkStep(w, worker, result) else w
    case NoSink(worker) =>
      if worker in w.workers && w.workers[worker].Holding? then NoSinkStep(w, worker) else w
    case Finish(worker, note) =>
      if worker in w.workers && w.workers[worker].Wrote? then FinishStep(w, worker, note) else w
    case Conclude(worker, evidenceValid) =>
      if worker in w.workers && w.workers[worker].Deciding? then ConcludeStep(w, worker, evidenceValid) else w
    case Fail(worker) =>
      if worker in w.workers then
        Move(w, worker, Deciding(w.workers[worker].revision, w.workers[worker].generation, Infrastructure))
      else w
    case Crash(worker) => Leave(w, worker)
    case Disturb(g, change) =>
      if g in w.rows && w.rows[g].Bound? then Store(w, g, ChangeRow(w.rows[g], change)) else w
    case CommandAdvances => w.(created := false)
  }

  function Run(w: World, events: seq<Event>): World
    decreases |events|
  {
    if events == [] then w else Run(Apply(w, events[0]), events[1..])
  }

  // ---------------------------------------------------------------------
  // The invariant.

  /** The pairs of statuses a stored row can show. */
  predicate Consistent(r: Row) {
    r.Bound? ==>
      match r.outbox
      case Pending => (r.attempt.Waiting? || r.attempt.Received?) && !r.lastError.AckRejected?
      case WriteStarted => (r.attempt.Waiting? || r.attempt.Uncertain? || r.attempt.Received?)
      case Sent => r.attempt.Delivered? || r.attempt.Uncertain? || r.attempt.Received?
      case Acked => !r.attempt.Withdrawn? && !r.attempt.NoSession?
      case Failed => !r.attempt.Withdrawn? && !r.attempt.NoSession?
                     && (r.lastError.AckRejected? || r.attempt.NotSent? || r.attempt.Backpressured?
                         || r.attempt.Received?)
      case Cancelled => r.attempt.Withdrawn? || r.attempt.NoSession?
  }

  /** The one write of this message id was claimed. */
  predicate WasClaimed(r: Row) {
    r.Bound? && !r.outbox.Pending? && !r.outbox.Cancelled?
  }

  /** A finished attempt that reported no bytes. */
  predicate Unwritten(r: Row) {
    r.Bound? && (r.attempt.NotSent? || r.attempt.Backpressured?)
  }

  /** The worker is past the claim of its generation's outbox row and has not concluded the write. */
  predicate InWrite(s: Step) {
    s.Holding? || s.Wrote?
  }

  /** No worker is about to call the sink for this generation. */
  predicate Unheld(w: World, g: nat) {
    forall v :: v in w.workers && w.workers[v].Holding? ==> w.workers[v].generation != g
  }

  predicate Open(r: Row) {
    r.Bound? && r.outbox.Pending?
  }

  /** No byte of this generation was or ever will be on the wire. */
  predicate Dead(w: World, g: nat) {
    g in w.rows && !Open(w.rows[g]) && g !in w.bytes && Unheld(w, g)
  }

  predicate RowsHold(w: World) {
    && (forall g :: g in w.rows ==> Consistent(w.rows[g]) && 0 < g <= w.work.generation)
    && (forall g :: g in w.rows && Unwritten(w.rows[g]) ==> g !in w.bytes && Unheld(w, g))
  }

  predicate CallsHold(w: World) {
    && Distinct(w.sinkCalls)
    && (forall g :: g in w.sinkCalls ==> g in w.rows && WasClaimed(w.rows[g]))
    && (forall g :: g in w.bytes ==> g in w.sinkCalls)
  }

  /** Every generation before the current one is dead. */
  predicate PastDead(w: World) {
    forall g :: 0 < g < w.work.generation ==> Dead(w, g)
  }

  predicate WorkerHolds(w: World, s: Step) {
    && 0 < s.generation <= w.work.generation && s.revision <= w.work.revision
    && (s.revision == w.work.revision ==> s.generation == w.work.generation)
    && (s.Prepared? ==> s.generation in w.rows && w.rows[s.generation].Bound?)
    && (InWrite(s) ==> s.generation in w.rows && WasClaimed(w.rows[s.generation]))
    && (s.Holding? ==> s.generation !in w.sinkCalls)
    && (s.Wrote? && !MayHaveBytes(s.result) ==> s.generation !in w.bytes)
    && (s.Deciding? && Advances(s.outcome) ==> Dead(w, s.generation))
  }

  predicate Alone(w: World) {
    forall v, u :: v in w.workers && u in w.workers && v != u && InWrite(w.workers[v]) && InWrite(w.workers[u])
      ==> w.workers[v].generation != w.workers[u].generation
  }

  predicate WorkersHold(w: World) {
    Alone(w) && forall v :: v in w.workers ==> WorkerHolds(w, w.workers[v])
  }

  predicate Inv(w: World) {
    0 < w.work.generation && RowsHold(w) && CallsHold(w) && PastDead(w) && WorkersHold(w)
  }

  // ---------------------------------------------------------------------
  // Rows.

  /** What every rewriting of a row keeps. */
  predicate Continues(r: Row, s: Row) {
    && Consistent(s)
    && (r.Bound? ==> s.Bound?) && (WasClaimed(r) ==> WasClaimed(s)) && (Open(s) ==> Open(r))
  }

  lemma ChangeContinues(r: Row, c: Change)
    requires r.Bound? && Consistent(r)
    ensures Continues(r, ChangeRow(r, c)) && (Unwritten(ChangeRow(r, c)) ==> Unwritten(r))
  {
  }

  lemma FinishContinues(r: Row, outboxRevision: nat, attemptRevision: nat, result: SinkOutcome, note: Note)
    requires r.Bound? && Consistent(r)
    ensures var f := FinishRow(r, outboxRevision, attemptRevision, result, note);
            f.Some? ==> Continues(r, f.value) && (Unwritten(f.value) ==> Unwritten(r) || !MayHaveBytes(result))
  {
  }

  lemma ClaimContinues(r: Row, outboxRevision: nat, attemptRevision: nat, verdict: ClaimVerdict)
    requires r.Bound? && Consistent(r)
    ensures var c := ClaimRow(r, outboxRevision, attemptRevision, verdict);
            c.Some? ==>
              && r.outboxRevision == outboxRevision && r.attemptRevision == attemptRevision
              && Open(r) && Continues(r, c.value) && !Unwritten(c.value) && !Open(c.value)
              && (WasClaimed(c.value) <==> verdict.Claimed?)
              && (!verdict.Claimed? ==> c.value.outbox.Cancelled?)
  {
  }

  /** A row whose replay lets the generation advance was cancelled before its claim or finished without bytes. */
  lemma AdvancingRow(r: Row)
    requires r.Bound? && Consistent(r) && Advances(DurableOutcome(r))
    ensures r.outbox.Cancelled? || Unwritten(r)
    ensures !Open(r)
  {
  }

  /** Replaying a stored row reports an inconsistency exactly while its write has not been claimed. */
  lemma ReplayIsTotal(r: Row)
    requires r.Bound? && Consistent(r)
    ensures DurableOutcome(r).Infrastructure? <==> r.outbox.Pending?
  {
  }

  // ---------------------------------------------------------------------
  // What the rows say.

  /** The peer rejected the message at transport level. */
  predicate Refusal(r: Row, reason: string) {
    r.Bound? && r.outbox == Failed && r.lastError == AckRejected(reason)
  }

  /** The row was cancelled because its command had expired. */
  predicate LateNote(r: Row) {
    r.Bound? && (r.error == CommandExpired || (r.error == NoNote && r.lastError == CommandExpired))
  }

  /**
    What each stored row means, outcome by outcome: accepted by evidence of the peer
    or by an undoubted send, in doubt, not written, or rejected for one reason.
  */
  lemma OutcomeOfRow(r: Row)
    requires r.Bound? && Consistent(r)
    ensures var o, claimed, refused := DurableOutcome(r), WasClaimed(r), exists t :: Refusal(r, t);
            && (o == Accepted <==>
                  claimed && (|| r.attempt == Received || (r.outbox == Sent && r.attempt == Delivered)
                              || (r.outbox == Acked && r.attempt != Uncertain)))
            && (o == Unconfirmed <==>
                  (r.attempt == Uncertain && !refused) || (r.outbox == WriteStarted && r.attempt == Waiting))
            && (o == NotWritten <==>
                  || (r.outbox == Failed && r.attempt == NotSent && !refused)
                  || (r.outbox == Cancelled && r.attempt == Withdrawn && !LateNote(r)))
            && (o == Rejected(Expired) <==> r.outbox == Cancelled && r.attempt == Withdrawn && LateNote(r))
            && (o == Rejected(ClockUnhealthy) <==>
                  r.outbox == Cancelled && r.attempt == NoSession && ClockUnhealthyNote in {r.error, r.lastError})
            && (o == Rejected(NoActiveSession) <==>
                  r.outbox == Cancelled && r.attempt == NoSession && ClockUnhealthyNote !in {r.error, r.lastError})
            && (o == Infrastructure <==> r.outbox == Pending)
            && (o.Rejected? ==> o.reason in {Expired, ClockUnhealthy, NoActiveSession}
                                || o.reason.Backpressure? || o.reason.TransportRejected?)
    ensures forall d :: DurableOutcome(r) == Rejected(Backpressure(d)) <==>
              && r.outbox == Failed && r.attempt == Backpressured
              && d == if r.error.QueueDepth? then r.error.depth else 0
    ensures forall t :: DurableOutcome(r) == Rejected(TransportRejected(t)) <==>
              Refusal(r, t) && r.attempt != Received && r.attempt != Backpressured
  {
    if AckRefused(r) {
      assert Refusal(r, r.lastError.reason);
    }
  }

  /** The pairs of statuses no run produces, or that wait for their claim, are reported as such. */
  lemma UnexplainedRow(r: Row)
    requires r.Bound?
    ensures DurableOutcome(r) == Infrastructure <==>
              match r.outbox
              case Pending => true
              case Cancelled => r.attempt !in {Withdrawn, NoSession}
              case WriteStarted => r.attempt !in {Waiting, Uncertain, Received}
              case Sent => r.attempt !in {Delivered, Uncertain, Received}
              case Acked => r.attempt in {Withdrawn, NoSession}
              case Failed =>
                r.attempt in {Withdrawn, NoSession} || (r.attempt in {Waiting, Delivered} && !r.lastError.AckRejected?)
  {
  }

  /** A claim succeeds exactly on an untouched row at the expected revisions; each verdict is what is replayed. */
  lemma ClaimVerdicts(r: Row, outboxRevision: nat, attemptRevision: nat, verdict: ClaimVerdict)
    requires r.Bound?
    ensures var c := ClaimRow(r, outboxRevision, attemptRevision, verdict);
            && (c.Some? <==> r.outbox == Pending && r.attempt == Waiting
                             && (r.outboxRevision, r.attemptRevision) == (outboxRevision, attemptRevision))
            && (c.Some? ==>
                  && c.value.Bound? && c.value.outboxRevision == outboxRevision + 1
                  && c.value.attemptRevision == attemptRevision + 1
                  && DurableOutcome(c.value) == match verdict
                       case Claimed => Unconfirmed
                       case Unavailable => Rejected(NoActiveSession)
                       case ClockBad => Rejected(ClockUnhealthy)
                       case Late => Rejected(Expired))
            && (c.Some? && verdict.Claimed? ==>
                  c.value == Bound(WriteStarted, outboxRevision + 1, NoNote, Waiting, attemptRevision + 1, NoNote))
  {
  }

  /** What a sink outcome means for the message when nobody else touched its row. */
  function Reported(result: SinkOutcome): Outcome {
    match result
    case Written => Accepted
    case SinkFull(depth) => Rejected(Backpressure(depth))
    case DefinitelyNotWritten => NotWritten
    case WriteUncertain => Unconfirmed
  }

  /**
    Finishing a write: what the peer already said wins over the sink's report, doubt
    and failure stay as they are, and only an untouched claim takes the report; a
    write at outdated revisions is refused.
  */
  lemma FinishOutcome(r: Row, outboxRevision: nat, attemptRevision: nat, result: SinkOutcome, note: Note)
    requires r.Bound? && Consistent(r) && !note.AckRejected?
    ensures var f := FinishRow(r, outboxRevision, attemptRevision, result, note);
            var refused, current := AckRefused(r), attemptRevision == r.attemptRevision;
            && (f.Some? <==>
                  && WasClaimed(r)
                  && (|| r.attempt == Uncertain || r.attempt == Received || (r.outbox == Failed && r.attempt == NotSent)
                      || (refused && r.attempt == Delivered) || (refused && r.attempt == Waiting && current)
                      || (r.outbox == Acked && (r.attempt == Waiting ==> current))
                      || (r.outbox == WriteStarted && r.attempt == Waiting && current
                          && outboxRevision == r.outboxRevision)))
            && (f.Some? ==>
                  && f.value.Bound?
                  && DurableOutcome(f.value) ==
                       if r.attempt == Received then Accepted
                       else if refused then Rejected(TransportRejected(r.lastError.reason))
                       else if r.attempt == Uncertain then Unconfirmed
                       else if r.outbox == Acked then Accepted
                       else if r.outbox == Failed then NotWritten
                       else Reported(result))
            && (f.Some? && r.outbox != WriteStarted ==>
                  && f.value.outbox == r.outbox && f.value.outboxRevision == r.outboxRevision
                  && f.value.lastError == r.lastError)
            && (f.Some? && r.attempt in {Uncertain, Received} ==>
                  f.value.attempt == r.attempt && f.value.attemptRevision == r.attemptRevision)
            && (f.Some? && r.outbox == Acked && r.attempt in {Waiting, NotSent, Backpressured} ==>
                  f.value.attempt == Delivered && f.value.attemptRevision == r.attemptRevision + 1)
            && (f.Some? && r.outbox == WriteStarted && r.attempt == Received ==> f.value.outbox == Sent)
  {
  }

  /** A row whose transport answer is still open. */
  predicate Contestable(r: Row) {
    r.Bound? && r.outbox in {WriteStarted, Sent, Failed} && !r.lastError.AckRejected?
  }

  /** The peer's word: what an acknowledgement or a receipt makes of a row, and which rows it leaves alone. */
  lemma PeerChanges(r: Row, reason: string)
    requires r.Bound? && Consistent(r)
    ensures var t := ChangeRow(r, AckAccepted);
            if Contestable(r) then
              && t == r.(outbox := Acked, outboxRevision := r.outboxRevision + 1, lastError := NoNote)
              && DurableOutcome(t) == if r.attempt == Uncertain then Unconfirmed else Accepted
            else t == r
    ensures var t := ChangeRow(r, AckRejects(reason));
            if Contestable(r) then
              && t == r.(outbox := Failed, outboxRevision := r.outboxRevision + 1, lastError := AckRejected(reason))
              && (r.attempt == Received ==> DurableOutcome(t) == Accepted)
              && (r.attempt !in {Received, Backpressured} ==> DurableOutcome(t) == Rejected(TransportRejected(reason)))
            else t == r
    ensures var t := ChangeRow(r, CommandReceived);
            if r.attempt in {Received, Withdrawn, NoSession} then t == r
            else
              && t == r.(attempt := Received, attemptRevision := r.attemptRevision + 1, error := NoNote)
              && (WasClaimed(r) ==> DurableOutcome(t) == Accepted)
  {
  }

  /** What timeouts, session closes and the startup fence make of a row: doubt, or a withdrawal before the claim. */
  lemma OperatorChanges(r: Row, note: Note)
    requires r.Bound? && Consistent(r) && !note.AckRejected?
    ensures var t := ChangeRow(r, TimeOut(note));
            if r.attempt == Delivered && !AckRefused(r) then
              && t == r.(attempt := Uncertain, attemptRevision := r.attemptRevision + 1, error := note)
              && DurableOutcome(t) == Unconfirmed
            else t == r
    ensures var t := ChangeRow(r, SettleRejected);
            if r.attempt == Waiting && AckRefused(r) then
              && t == r.(attempt := Delivered, attemptRevision := r.attemptRevision + 1, error := NoNote)
              && DurableOutcome(t) == DurableOutcome(r) == Rejected(TransportRejected(r.lastError.reason))
            else t == r
    ensures var t := ChangeRow(r, UnconfirmSession(note));
            if WasClaimed(r) && r.outbox != Failed && r.attempt in {Waiting, Delivered} then
              && t == r.(attempt := Uncertain, attemptRevision := r.attemptRevision + 1, error := note)
              && DurableOutcome(t) == Unconfirmed
            else t == r
    ensures var t := ChangeRow(r, CancelPending(note));
            if r.outbox == Pending && r.attempt == Waiting then
              && t == Bound(Cancelled, r.outboxRevision + 1, note, Withdrawn, r.attemptRevision + 1, note)
              && DurableOutcome(t) == if note == CommandExpired then Rejected(Expired) else NotWritten
            else t == r
    ensures var t := ChangeRow(r, FenceStarted(note));
            if r.outbox != WriteStarted then t == r
            else
              && t.Bound? && t.outbox == WriteStarted && t.outboxRevision == r.outboxRevision + 1 && t.lastError == note
              && DurableOutcome(t) == (if r.attempt == Received then Accepted else Unconfirmed)
              && (r.attempt == Waiting ==>
                    t.attempt == Uncertain && t.attemptRevision == r.attemptRevision + 1 && t.error == note)
              && (r.attempt in {Uncertain, Received} ==>
                    t.attempt == r.attempt && t.attemptRevision == r.attemptRevision && t.error == r.error)
  {
  }

  // ---------------------------------------------------------------------
  // Steps.

  lemma StoreKeeps(w: World, g: nat, s: Row)
    requires Inv(w) && g in w.rows && Continues(w.rows[g], s)
    requires Unwritten(s) ==> Unwritten(w.rows[g]) || (g !in w.bytes && Unheld(w, g))
    ensures Inv(Store(w, g, s)) && forall h :: Dead(w, h) ==> Dead(Store(w, g, s), h)
  {
    hide Consistent, WasClaimed, Unwritten, Open, Advances, Distinct;
    var t := Store(w, g, s);
    assert forall h :: Unheld(w, h) ==> Unheld(t, h);
    hide Unheld;
    assert forall h :: Dead(w, h) ==> Dead(t, h);
    hide Dead;
  }

  lemma CreateKeeps(w: World, g: nat, s: Row)
    requires Inv(w) && g !in w.rows && 0 < g <= w.work.generation && (s.Refused? || s == NewRow)
    ensures Inv(Store(w, g, s))
  {
    assert Consistent(s) && !WasClaimed(s) && !Unwritten(s);
    hide Consistent, WasClaimed, Unwritten, Open, Advances, Distinct;
    var t := Store(w, g, s);
    assert forall h :: Unheld(w, h) ==> Unheld(t, h);
    hide Unheld;
    assert forall h :: Dead(w, h) ==> Dead(t, h);
    hide Dead;
  }

  lemma MoveKeeps(w: World, v: nat, s: Step)
    requires Inv(w) && v in w.workers && WorkerHolds(w, s) && !s.Holding?
    requires InWrite(s) ==> InWrite(w.workers[v]) && s.generation == w.workers[v].generation
    ensures Inv(Move(w, v, s))
  {
    hide Consistent, WasClaimed, Unwritten, Open, Advances, Distinct;
    var t := Move(w, v, s);
    assert forall h :: Unheld(w, h) ==> Unheld(t, h);
    hide Unheld;
    assert forall h :: Dead(w, h) ==> Dead(t, h);
    hide Dead;
    assert forall u :: u in t.workers && u != v ==> u in w.workers && t.workers[u] == w.workers[u];
  }

  lemma LeaveKeeps(w: World, v: nat)
    requires Inv(w)
    ensures Inv(Leave(w, v)) && forall h :: Dead(w, h) ==> Dead(Leave(w, v), h)
  {
    hide Consistent, WasClaimed, Unwritten, Open, Advances, Distinct;
    var t := Leave(w, v);
    assert forall h :: Unheld(w, h) ==> Unheld(t, h);
    hide Unheld;
    assert forall h :: Dead(w, h) ==> Dead(t, h);
    hide Dead;
  }

  /** The work row changes; its generation rises only past a dead one. */
  lemma WorkKeeps(w: World, work: Work, created: bool)
    requires Inv(w)
    requires work.generation == w.work.generation
             || (work.generation == w.work.generation + 1 && Dead(w, w.work.generation))
    requires work == w.work || w.work.revision < work.revision
    ensures Inv(w.(work := work, created := created))
  {
    hide Consistent, WasClaimed, Unwritten, Open, Advances, Distinct;
    var t := w.(work := work, created := created);
    assert forall h :: Unheld(w, h) ==> Unheld(t, h);
    hide Unheld;
    assert forall h :: Dead(w, h) ==> Dead(t, h);
    hide Dead;
  }

  /** A worker new to this subject. */
  lemma JoinKeeps(w: World, v: nat, revision: nat)
    requires Inv(w) && v !in w.workers && revision == w.work.revision
    ensures Inv(Move(w, v, Starting(revision, w.work.generation)))
  {
    hide Consistent, WasClaimed, Unwritten, Open, Advances, Distinct;
    var t := Move(w, v, Starting(revision, w.work.generation));
    assert forall h :: Unheld(w, h) ==> Unheld(t, h);
    hide Unheld;
    assert forall h :: Dead(w, h) ==> Dead(t, h);
    hide Dead;
    assert forall u :: u in t.workers && u != v ==> u in w.workers && t.workers[u] == w.workers[u];
  }

  /** The claim: the only way to hold a generation, taken from an open row that nobody holds. */
  lemma ClaimedKeeps(w: World, v: nat, row: Row)
    requires Inv(w) && v in w.workers && w.workers[v].Prepared?
    requires var g := w.workers[v].generation;
             && g in w.rows && Open(w.rows[g]) && Continues(w.rows[g], row) && WasClaimed(row) && !Unwritten(row)
    ensures var s := w.workers[v];
            Inv(Move(Store(w, s.generation, row), v,
                     Holding(s.revision, s.generation, row.outboxRevision, row.attemptRevision)))
  {
    var g := w.workers[v].generation;
    var s := Holding(w.workers[v].revision, g, row.outboxRevision, row.attemptRevision);
    var t := Move(Store(w, g, row), v, s);
    assert !Dead(w, g) && g !in w.sinkCalls;
    assert forall u :: u in w.workers && InWrite(w.workers[u]) ==> w.workers[u].generation != g;
    hide Consistent, WasClaimed, Unwritten, Open, Advances, Distinct;
    assert forall h :: h != g && Unheld(w, h) ==> Unheld(t, h);
    hide Unheld;
    assert forall h :: Dead(w, h) ==> Dead(t, h);
    hide Dead;
    assert forall u :: u in t.workers && u != v ==> u in w.workers && t.workers[u] == w.workers[u];
    assert t.rows[g] == row;
    assert WorkerHolds(t, s);
  }

  /** The sink call: once for a generation, by the worker that holds it. */
  lemma SinkKeeps(w: World, v: nat, result: SinkOutcome)
    requires Inv(w) && v in w.workers && w.workers[v].Holding?
    ensures Inv(SinkStep(w, v, result))
  {
    var g := w.workers[v].generation;
    var t := SinkStep(w, v, result);
    assert !Unheld(w, g) && WorkerHolds(w, w.workers[v]);
    assert Distinct(w.sinkCalls + [g]);
    hide Consistent, WasClaimed, Unwritten, Open, Advances, Distinct;
    assert forall h :: Unheld(w, h) ==> Unheld(t, h);
    hide Unheld;
    assert forall h :: Dead(w, h) ==> Dead(t, h);
    hide Dead;
    assert forall u :: u in t.workers && u != v ==> u in w.workers && t.workers[u] == w.workers[u];
    assert forall u :: u in w.workers && u != v && InWrite(w.workers[u]) ==> w.workers[u].generation != g;
  }

  /** A stored row that is closed and was never claimed, or ended without bytes, is dead. */
  lemma ClosedIsDead(w: World, g: nat)
    requires Inv(w) && g in w.rows && !Open(w.rows[g]) && (!WasClaimed(w.rows[g]) || Unwritten(w.rows[g]))
    ensures Dead(w, g)
  {
  }

  lemma ReplayedIsDead(w: World, g: nat)
    requires Inv(w) && g in w.rows && w.rows[g].Bound? && Advances(DurableOutcome(w.rows[g]))
    ensures Dead(w, g)
  {
  }

  lemma DecideKeeps(w: World, v: nat, o: Outcome)
    requires Inv(w) && v in w.workers && (Advances(o) ==> Dead(w, w.workers[v].generation))
    ensures Inv(Move(w, v, Deciding(w.workers[v].revision, w.workers[v].generation, o)))
  {
    hide RowsHold, CallsHold, PastDead, Dead, Advances, Alone;
    assert WorkerHolds(w, w.workers[v]);
    MoveKeeps(w, v, Deciding(w.workers[v].revision, w.workers[v].generation, o));
  }

  lemma PrepareKeeps(w: World, v: nat, refusal: Option<Reason>)
    requires Inv(w) && v in w.workers && w.workers[v].Starting?
    ensures Inv(PrepareStep(w, v, refusal))
  {
    hide RowsHold, CallsHold, PastDead, Dead, Advances, Alone, DurableOutcome;
    var s := w.workers[v];
    assert WorkerHolds(w, s);
    var g := s.generation;
    if g in w.rows {
      if w.rows[g].Refused? {
        ClosedIsDead(w, g);
        DecideKeeps(w, v, Rejected(w.rows[g].reason));
      } else if w.rows[g].outbox.Pending? && w.rows[g].attempt.Waiting? {
        MoveKeeps(w, v, Prepared(s.revision, g, w.rows[g].outboxRevision, w.rows[g].attemptRevision));
      } else {
        if Advances(DurableOutcome(w.rows[g])) { ReplayedIsDead(w, g); }
        DecideKeeps(w, v, DurableOutcome(w.rows[g]));
      }
    } else if refusal.Some? {
      CreateKeeps(w, g, Refused(refusal.value));
      ClosedIsDead(Store(w, g, Refused(refusal.value)), g);
      DecideKeeps(Store(w, g, Refused(refusal.value)), v, Rejected(refusal.value));
    } else {
      CreateKeeps(w, g, NewRow);
      MoveKeeps(Store(w, g, NewRow), v, Prepared(s.revision, g, NewRow.outboxRevision, NewRow.attemptRevision));
    }
  }

  lemma ClaimKeeps(w: World, v: nat, verdict: ClaimVerdict)
    requires Inv(w) && v in w.workers && w.workers[v].Prepared?
    ensures Inv(ClaimOutboxStep(w, v, verdict))
  {
    var s := w.workers[v];
    assert WorkerHolds(w, s);
    var g := s.generation;
    assert Consistent(w.rows[g]);
    hide RowsHold, CallsHold, PastDead, Dead, Advances, Alone, DurableOutcome, ClaimRow, Continues, Consistent,
         Unwritten;
    ClaimContinues(w.rows[g], s.outboxRevision, s.attemptRevision, verdict);
    match ClaimRow(w.rows[g], s.outboxRevision, s.attemptRevision, verdict) {
      case None =>
        if Advances(DurableOutcome(w.rows[g])) { ReplayedIsDead(w, g); }
        DecideKeeps(w, v, DurableOutcome(w.rows[g]));
      case Some(row) =>
        if verdict.Claimed? {
          ClaimedKeeps(w, v, row);
        } else {
          StoreKeeps(w, g, row);
          ClosedIsDead(Store(w, g, row), g);
          DecideKeeps(Store(w, g, row), v, DurableOutcome(row));
        }
    }
  }

  lemma FinishKeeps(w: World, v: nat, note: Note)
    requires Inv(w) && v in w.workers && w.workers[v].Wrote?
    ensures Inv(FinishStep(w, v, note))
  {
    var s := w.workers[v];
    assert WorkerHolds(w, s);
    var g := s.generation;
    assert Consistent(w.rows[g]);
    assert Unheld(w, g);
    hide RowsHold, CallsHold, PastDead, Dead, Advances, Alone, DurableOutcome, FinishRow, Continues, Consistent,
         Unwritten;
    hide Unheld;
    FinishContinues(w.rows[g], s.outboxRevision, s.attemptRevision, s.result, note);
    match FinishRow(w.rows[g], s.outboxRevision, s.attemptRevision, s.result, note) {
      case None =>
        if Advances(DurableOutcome(w.rows[g])) { ReplayedIsDead(w, g); }
        DecideKeeps(w, v, DurableOutcome(w.rows[g]));
      case Some(row) =>
        StoreKeeps(w, g, row);
        var t := Store(w, g, row);
        BoundStays(w.rows[g], row);
        if Advances(DurableOutcome(row)) { ReplayedIsDead(t, g); }
        DecideKeeps(t, v, DurableOutcome(row));
    }
  }

  lemma BoundStays(r: Row, s: Row)
    requires r.Bound? && Continues(r, s)
    ensures s.Bound?
  {
  }

  lemma DisturbKeeps(w: World, g: nat, change: Change)
    requires Inv(w) && g in w.rows && w.rows[g].Bound?
    ensures Inv(Store(w, g, ChangeRow(w.rows[g], change)))
  {
    assert Consistent(w.rows[g]);
    hide RowsHold, CallsHold, PastDead, WorkersHold, ChangeRow, Continues, Consistent, Unwritten;
    ChangeContinues(w.rows[g], change);
    StoreKeeps(w, g, ChangeRow(w.rows[g], change));
  }

  /** Deciding to advance means the generation is dead; deciding otherwise keeps it. */
  lemma DecideAdvances(o: Outcome, evidenceValid: bool)
    ensures Decide(o, evidenceValid) == Retry(true) <==> Advances(o)
  {
  }

  lemma ConcludeKeeps(w: World, v: nat, evidenceValid: bool)
    requires Inv(w) && v in w.workers && w.workers[v].Deciding?
    ensures Inv(ConcludeStep(w, v, evidenceValid))
  {
    var s := w.workers[v];
    assert WorkerHolds(w, s);
    hide RowsHold, CallsHold, PastDead, Dead, Advances, Alone, Decide;
    DecideAdvances(s.outcome, evidenceValid);
    var t := ConcludeStep(w, v, evidenceValid);
    WorkKeeps(w, t.work, t.created);
    LeaveKeeps(w.(work := t.work, created := t.created), v);
  }

  lemma ClaimWorkKeeps(w: World, v: nat)
    requires Inv(w)
    ensures Inv(ClaimWorkStep(w, v))
  {
    hide RowsHold, CallsHold, PastDead, WorkersHold;
    if !w.work.status.Done? && v !in w.workers {
      var t := ClaimWorkStep(w, v);
      WorkKeeps(w, t.work, t.created);
      if w.created {
        JoinKeeps(w.(work := t.work), v, t.work.revision);
      }
    }
  }

  lemma NoSinkKeeps(w: World, v: nat)
    requires Inv(w) && v in w.workers && w.workers[v].Holding?
    ensures Inv(NoSinkStep(w, v))
  {
    assert WorkerHolds(w, w.workers[v]);
    assert w.workers[v].generation !in w.bytes;
    hide RowsHold, CallsHold, PastDead, Alone;
    var s := w.workers[v];
    MoveKeeps(w, v, Wrote(s.revision, s.generation, s.outboxRevision, s.attemptRevision, DefinitelyNotWritten));
  }

  /** Every transaction, sink call and crash keeps the invariant. */
  lemma StepKeepsInv(w: World, e: Event)
    requires Inv(w)
    ensures Inv(Apply(w, e))
  {
    hide Inv, PrepareStep, ClaimOutboxStep, SinkStep, NoSinkStep, FinishStep, ConcludeStep, ClaimWorkStep, ChangeRow;
    match e
    case ClaimWork(worker) => ClaimWorkKeeps(w, worker);
    case Prepare(worker, refusal) =>
      if worker in w.workers && w.workers[worker].Starting? { PrepareKeeps(w, worker, refusal); }
    case ClaimOutbox(worker, verdict) =>
      if worker in w.workers && w.workers[worker].Prepared? { ClaimKeeps(w, worker, verdict); }
    case CallSink(worker, result) =>
      if worker in w.workers && w.workers[worker].Holding? { SinkKeeps(w, worker, result); }
    case NoSink(worker) =>
      if worker in w.workers && w.workers[worker].Holding? { NoSinkKeeps(w, worker); }
    case Finish(worker, note) =>
      if worker in w.workers && w.workers[worker].Wrote? { FinishKeeps(w, worker, note); }
    case Conclude(worker, evidenceValid) =>
      if worker in w.workers && w.workers[worker].Deciding? { ConcludeKeeps(w, worker, evidenceValid); }
    case Fail(worker) => if worker in w.workers { DecideKeeps(w, worker, Infrastructure); }
    case Crash(worker) => LeaveKeeps(w, worker);
    case Disturb(g, change) => if g in w.rows && w.rows[g].Bound? { DisturbKeeps(w, g, change); }
    case CommandAdvances => WorkKeeps(w, w.work, false);
  }

  lemma {:induction false} RunKeepsInv(w: World, events: seq<Event>)
    requires Inv(w)
    ensures Inv(Run(w, events))
    decreases |events|
  {
    hide Inv, Apply;
    if events != [] {
      StepKeepsInv(w, events[0]);
      RunKeepsInv(Apply(w, events[0]), events[1..]);
    }
  }

  /**
    At most once. Over every run with crashes, lease reclaims and racing workers:
    the sink is called at most once per message id; only the current generation can
    have bytes on the wire; and every stored row is one its replay understands.
  */
  lemma AtMostOnce(events: seq<Event>)
    ensures var w := Run(Init(), events);
            && Distinct(w.sinkCalls)
            && (forall g :: g in w.bytes ==> g == w.work.generation && g in w.sinkCalls)
            && (forall g :: 0 < g < w.work.generation ==> Dead(w, g))
            && (forall g :: g in w.rows && w.rows[g].Bound? && !w.rows[g].outbox.Pending?
                  ==> !DurableOutcome(w.rows[g]).Infrastructure?)
  {
    assert Inv(Init());
    RunKeepsInv(Init(), events);
    var w := Run(Init(), events);
    hide Run, Dead, Consistent, DurableOutcome;
    forall g | g in w.bytes ensures g == w.work.generation && g in w.sinkCalls {
      CurrentBytes(w, g);
    }
    forall g | g in w.rows && w.rows[g].Bound? && !w.rows[g].outbox.Pending?
      ensures !DurableOutcome(w.rows[g]).Infrastructure?
    {
      ReplayIsTotal(w.rows[g]);
    }
  }

  lemma CurrentBytes(w: World, g: nat)
    requires Inv(w) && g in w.bytes
    ensures g == w.work.generation && g in w.sinkCalls
  {
    hide Consistent, WorkersHold, Unheld;
    assert g in w.rows && 0 < g <= w.work.generation;
    assert !Dead(w, g);
  }

  /** So does moving a worker anywhere but to the claim of that generation. */
  lemma DeadMove(w: World, v: nat, s: Step, g: nat)
    requires Dead(w, g) && (s.Holding? ==> s.generation != g)
    ensures Dead(Move(w, v, s), g)
  {
  }

  lemma DeadClaim(w: World, v: nat, verdict: ClaimVerdict, g: nat)
    requires Inv(w) && Dead(w, g) && v in w.workers && w.workers[v].Prepared?
    ensures Dead(ClaimOutboxStep(w, v, verdict), g)
  {
  }

  lemma DeadFinish(w: World, v: nat, note: Note, g: nat)
    requires Inv(w) && Dead(w, g) && v in w.workers && w.workers[v].Wrote?
    ensures Dead(FinishStep(w, v, note), g)
  {
  }

  lemma DeadDisturb(w: World, h: nat, change: Change, g: nat)
    requires Inv(w) && Dead(w, g) && h in w.rows && w.rows[h].Bound?
    ensures Dead(Store(w, h, ChangeRow(w.rows[h], change)), g)
  {
  }

  lemma DeadSink(w: World, v: nat, result: SinkOutcome, g: nat)
    requires Dead(w, g) && v in w.workers && w.workers[v].Holding?
    ensures Dead(SinkStep(w, v, result), g) && Dead(NoSinkStep(w, v), g)
  {
  }

  lemma DeadPrepare(w: World, v: nat, refusal: Option<Reason>, g: nat)
    requires Dead(w, g) && v in w.workers && w.workers[v].Starting?
    ensures Dead(PrepareStep(w, v, refusal), g)
  {
  }

  /** A generation that is dead stays dead: none of its bytes ever reaches the wire. */
  lemma DeadStep(w: World, e: Event, g: nat)
    requires Inv(w) && Dead(w, g)
    ensures Dead(Apply(w, e), g)
  {
    hide Inv, Unheld, Open, PrepareStep, ClaimOutboxStep, SinkStep, NoSinkStep, FinishStep, ChangeRow;
    match e
    case ClaimWork(v) => DeadClaimWork(w, v, g);
    case Prepare(v, refusal) =>
      if v in w.workers && w.workers[v].Starting? { DeadPrepare(w, v, refusal, g); }
    case ClaimOutbox(v, verdict) =>
      if v in w.workers && w.workers[v].Prepared? { DeadClaim(w, v, verdict, g); }
    case CallSink(v, result) =>
      if v in w.workers && w.workers[v].Holding? { DeadSink(w, v, result, g); }
    case NoSink(v) =>
      if v in w.workers && w.workers[v].Holding? { DeadSink(w, v, Written, g); }
    case Finish(v, note) =>
      if v in w.workers && w.workers[v].Wrote? { DeadFinish(w, v, note, g); }
    case Conclude(v, evidenceValid) =>
      if v in w.workers && w.workers[v].Deciding? { DeadIgnoresWork(w, ConcludeStep(w, v, evidenceValid), g); }
    case Fail(v) =>
      if v in w.workers {
        DeadMove(w, v, Deciding(w.workers[v].revision, w.workers[v].generation, Infrastructure), g);
      }
    case Crash(v) => DeadIgnoresWork(w, Leave(w, v), g);
    case Disturb(h, change) =>
      if h in w.rows && w.rows[h].Bound? { DeadDisturb(w, h, change, g); }
    case CommandAdvances => DeadIgnoresWork(w, w.(created := false), g);
  }

  lemma DeadClaimWork(w: World, v: nat, g: nat)
    requires Dead(w, g)
    ensures Dead(ClaimWorkStep(w, v), g)
  {
  }

  lemma DeadIgnoresWork(w: World, t: World, g: nat)
    requires Dead(w, g) && t.rows == w.rows && t.bytes == w.bytes
    requires forall v :: v in t.workers ==> v in w.workers && t.workers[v] == w.workers[v]
    ensures Dead(t, g)
  {
  }

  lemma {:induction false} DeadForever(w: World, events: seq<Event>, g: nat)
    requires Inv(w) && Dead(w, g)
    ensures Dead(Run(w, events), g) && g !in Run(w, events).bytes
    decreases |events|
  {
    hide Inv, Apply, Unheld, Open;
    if events != [] {
      StepKeepsInv(w, events[0]);
      DeadStep(w, events[0], g);
      DeadForever(Apply(w, events[0]), events[1..], g);
    }
  }

  /** A new message id is minted one at a time, and only for a generation that is dead. */
  lemma MintedAfterNoBytes(w: World, e: Event)
    requires Inv(w)
    ensures var t := Apply(w, e);
            && w.work.generation <= t.work.generation <= w.work.generation + 1
            && (t.work.generation != w.work.generation ==> Dead(w, w.work.generation) && Dead(t, w.work.generation))
  {
  }

  // ---------------------------------------------------------------------
  // What a worker makes of it.

  /** Two worlds that differ at most in the work, the command and this worker's step. */
  ghost predicate SameStore(w: World, t: World, v: nat) {
    && t.rows == w.rows && t.sinkCalls == w.sinkCalls && t.bytes == w.bytes
    && (forall u :: u != v ==> (u in t.workers <==> u in w.workers))
    && (forall u :: u != v && u in w.workers ==> t.workers[u] == w.workers[u])
  }

  /** Due or abandoned work goes to an idle worker at a new revision; a command that moved on ends it instead. */
  lemma ClaimedWork(w: World, v: nat)
    ensures var t := Apply(w, ClaimWork(v));
            if w.work.status == Done || v in w.workers then t == w
            else if !w.created then t == w.(work := Work(Done, w.work.generation, w.work.revision + 2))
            else
              && SameStore(w, t, v) && t.created
              && t.work == Work(Processing(v), w.work.generation, w.work.revision + 1)
              && v in t.workers && t.workers[v] == Starting(w.work.revision + 1, w.work.generation)
  {
  }

  /** Preparing makes at most the one row of its generation; what is stored already is replayed, not redone. */
  lemma PreparedWork(w: World, v: nat, refusal: Option<Reason>)
    requires v in w.workers && w.workers[v].Starting?
    ensures var t, s := Apply(w, Prepare(v, refusal)), w.workers[v];
            var g := s.generation;
            && t.work == w.work && t.created == w.created && v in t.workers
            && SameStore(w.(rows := t.rows), t, v) && t.rows.Keys == w.rows.Keys + {g}
            && (forall h :: h in w.rows ==> h in t.rows && t.rows[h] == w.rows[h])
            && (g !in w.rows ==> t.rows[g] == if refusal.None? then Bound(Pending, 0, NoNote, Waiting, 0, NoNote)
                                              else Refused(refusal.value))
            && t.workers[v] == match t.rows[g]
                 case Refused(reason) => Deciding(s.revision, g, Rejected(reason))
                 case Bound(outbox, outboxRevision, _, attempt, attemptRevision, _) =>
                   if outbox == Pending && attempt == Waiting then
                     Prepared(s.revision, g, outboxRevision, attemptRevision)
                   else Deciding(s.revision, g, DurableOutcome(t.rows[g]))
  {
  }

  /** Only a claim that went through leads to the sink; everything else is decided from the row as it is then. */
  lemma ClaimedRowDecides(w: World, v: nat, verdict: ClaimVerdict)
    requires v in w.workers && w.workers[v].Prepared?
    requires w.workers[v].generation in w.rows && w.rows[w.workers[v].generation].Bound?
    ensures var t, s := Apply(w, ClaimOutbox(v, verdict)), w.workers[v];
            var g := s.generation;
            var c := ClaimRow(w.rows[g], s.outboxRevision, s.attemptRevision, verdict);
            && t.work == w.work && t.created == w.created && v in t.workers && SameStore(w.(rows := t.rows), t, v)
            && t.rows == (if c.Some? then w.rows[g := c.value] else w.rows)
            && (t.workers[v].Holding? <==> c.Some? && verdict == Claimed)
            && (t.workers[v].Holding? ==>
                  t.workers[v] == Holding(s.revision, g, s.outboxRevision + 1, s.attemptRevision + 1))
            && (!t.workers[v].Holding? ==>
                  t.rows[g].Bound? && t.workers[v] == Deciding(s.revision, g, DurableOutcome(t.rows[g])))
  {
    ClaimVerdicts(w.rows[w.workers[v].generation], w.workers[v].outboxRevision, w.workers[v].attemptRevision, verdict);
  }

  /** The sink's report is stored, or found outdated, and the row as it is then decides. */
  lemma FinishedRowDecides(w: World, v: nat, note: Note)
    requires v in w.workers && w.workers[v].Wrote?
    requires w.workers[v].generation in w.rows && w.rows[w.workers[v].generation].Bound?
    ensures var t, s := Apply(w, Finish(v, note)), w.workers[v];
            var g := s.generation;
            var f := FinishRow(w.rows[g], s.outboxRevision, s.attemptRevision, s.result, note);
            && t.work == w.work && t.created == w.created && v in t.workers && SameStore(w.(rows := t.rows), t, v)
            && t.rows == (if f.Some? then w.rows[g := f.value] else w.rows)
            && t.rows[g].Bound? && t.workers[v] == Deciding(s.revision, g, DurableOutcome(t.rows[g]))
  {
  }

  /** Outcomes that settle the command, given evidence that fits. */
  predicate Settles(o: Outcome) {
    o in {Accepted, Unconfirmed, Rejected(Expired)}
  }

  /** Outcomes that stop the delivery and leave the command as it is. */
  predicate Stops(o: Outcome) {
    o.Rejected? && (o.reason.IdentityMismatch? || o.reason.TransportRejected?)
  }

  /** How the work ends for its owner, outcome by outcome; a worker that lost it changes nothing. */
  lemma ConcludedWork(w: World, v: nat, evidenceValid: bool)
    requires v in w.workers && w.workers[v].Deciding?
    ensures var t, s := Apply(w, Conclude(v, evidenceValid)), w.workers[v];
            var g, next, o := w.work.generation, w.work.revision + 1, s.outcome;
            && v !in t.workers && SameStore(w, t, v)
            && (w.work.status != Processing(v) || w.work.revision != s.revision ==>
                  t.work == w.work && t.created == w.created)
            && (w.work.status == Processing(v) && w.work.revision == s.revision ==>
                  && t.created == (w.created && !(Settles(o) && evidenceValid))
                  && t.work ==
                       if (Settles(o) && evidenceValid) || Stops(o) || !w.created then Work(Done, g, next)
                       else if o == Infrastructure || Settles(o) then Work(Due, g, next)
                       else if g == I64_MAX then w.work
                       else Work(Due, g + 1, next))
  {
  }

  // ---------------------------------------------------------------------
  // One undisturbed round.

  function Round(v: nat, result: SinkOutcome, note: Note): seq<Event> {
    [ClaimWork(v)] + ([Prepare(v, None)] + ([ClaimOutbox(v, Claimed)] + ([CallSink(v, result)]
    + ([Finish(v, note)] + ([Conclude(v, true)] + [])))))
  }

  lemma RunFirst(w: World, e: Event, rest: seq<Event>)
    ensures Run(w, [e] + rest) == Run(Apply(w, e), rest)
  {
  }

  /** The row a round leaves when nobody else touches it. */
  function RowAfter(result: SinkOutcome, note: Note): (r: Row)
    ensures r.Bound?
  {
    match result
    case Written => Bound(Sent, 2, NoNote, Delivered, 2, NoNote)
    case SinkFull(depth) => Bound(Failed, 2, QueueDepth(depth), Backpressured, 2, QueueDepth(depth))
    case DefinitelyNotWritten => Bound(Failed, 2, note, NotSent, 2, note)
    case WriteUncertain => Bound(WriteStarted, 2, note, Uncertain, 2, note)
  }

  const ClaimedRow := Bound(WriteStarted, 1, NoNote, Waiting, 1, NoNote)

  lemma RoundRows(result: SinkOutcome, note: Note)
    ensures ClaimRow(NewRow, 0, 0, Claimed) == Some(ClaimedRow)
    ensures FinishRow(ClaimedRow, 1, 1, result, note) == Some(RowAfter(result, note))
  {
  }

  /** Work is due for a message id without a row, and the worker is idle. */
  predicate Untried(w: World, v: nat) {
    w.work.status.Due? && w.created && w.work.generation !in w.rows && v !in w.workers && w.work.generation < I64_MAX
  }

  /** The world during a round: the work claimed by `v`, its row and its step. */
  function During(w: World, v: nat, row: Option<Row>, s: Step, called: Option<SinkOutcome>): World {
    var g := w.work.generation;
    World(Work(Processing(v), g, w.work.revision + 1), w.created,
          if row.Some? then w.rows[g := row.value] else w.rows,
          w.workers[v := s],
          if called.Some? then w.sinkCalls + [g] else w.sinkCalls,
          if called.Some? && MayHaveBytes(called.value) then w.bytes + {g} else w.bytes)
  }

  lemma RoundBegins(w: World, v: nat)
    requires Untried(w, v)
    ensures var g, n := w.work.generation, w.work.revision + 1;
            && Apply(w, ClaimWork(v)) == During(w, v, None, Starting(n, g), None)
            && Apply(During(w, v, None, Starting(n, g), None), Prepare(v, None))
               == During(w, v, Some(NewRow), Prepared(n, g, 0, 0), None)
  {
  }

  lemma RoundClaims(w: World, v: nat)
    requires Untried(w, v)
    ensures var g, n := w.work.generation, w.work.revision + 1;
            Apply(During(w, v, Some(NewRow), Prepared(n, g, 0, 0), None), ClaimOutbox(v, Claimed))
            == During(w, v, Some(ClaimedRow), Holding(n, g, 1, 1), None)
  {
  }

  lemma RoundWrites(w: World, v: nat, result: SinkOutcome)
    requires Untried(w, v)
    ensures var g, n := w.work.generation, w.work.revision + 1;
            Apply(During(w, v, Some(ClaimedRow), Holding(n, g, 1, 1), None), CallSink(v, result))
            == During(w, v, Some(ClaimedRow), Wrote(n, g, 1, 1, result), Some(result))
  {
  }

  lemma RoundFinishes(w: World, v: nat, result: SinkOutcome, note: Note)
    requires Untried(w, v)
    ensures var g, n, after := w.work.generation, w.work.revision + 1, RowAfter(result, note);
            Apply(During(w, v, Some(ClaimedRow), Wrote(n, g, 1, 1, result), Some(result)), Finish(v, note))
            == During(w, v, Some(after), Deciding(n, g, DurableOutcome(after)), Some(result))
  {
    RoundRows(result, note);
    hide FinishRow, DurableOutcome, RowAfter, MayHaveBytes;
    var g, n := w.work.generation, w.work.revision + 1;
    assert w.rows[g := ClaimedRow][g := RowAfter(result, note)] == w.rows[g := RowAfter(result, note)];
  }

  lemma RoundConcludes(w: World, v: nat, result: SinkOutcome, note: Note)
    requires Untried(w, v) && !note.AckRejected?
    ensures var g, n, after := w.work.generation, w.work.revision + 1, RowAfter(result, note);
            var d := During(w, v, Some(after), Deciding(n, g, DurableOutcome(after)), Some(result));
            var t := Apply(d, Conclude(v, true));
            && t.sinkCalls == w.sinkCalls + [g] && t.rows == w.rows[g := after]
            && t.bytes == (if MayHaveBytes(result) then w.bytes + {g} else w.bytes)
            && t.created == !MayHaveBytes(result)
            && t.work == (if MayHaveBytes(result) then Work(Done, g, n + 1) else Work(Due, g + 1, n + 1))
  {
  }

  lemma FirstSteps(w: World, w1: World, w2: World, w3: World, e: Event, f: Event, g: Event, rest: seq<Event>)
    requires Apply(w, e) == w1 && Apply(w1, f) == w2 && Apply(w2, g) == w3
    ensures Run(w, [e] + ([f] + ([g] + rest))) == Run(w3, rest)
  {
    hide Apply, Run;
    RunFirst(w, e, [f] + ([g] + rest));
    RunFirst(w1, f, [g] + rest);
    RunFirst(w2, g, rest);
  }

  lemma RunNothing(w: World)
    ensures Run(w, []) == w
  {
  }

  /**
    A worker alone with a message id that has no row calls the sink once; a written
    or uncertain frame ends the work and the command leaves the created state; a
    frame that was not written makes the next generation due.
  */
  lemma UndisturbedRound(w: World, v: nat, result: SinkOutcome, note: Note)
    requires Untried(w, v) && !note.AckRejected?
    ensures var t, g := Run(w, Round(v, result, note)), w.work.generation;
            && t.sinkCalls == w.sinkCalls + [g] && t.rows == w.rows[g := RowAfter(result, note)]
            && t.bytes == (if MayHaveBytes(result) then w.bytes + {g} else w.bytes)
            && t.created == !MayHaveBytes(result)
            && t.work == (if MayHaveBytes(result) then Work(Done, g, w.work.revision + 2)
                          else Work(Due, g + 1, w.work.revision + 2))
  {
    hide Run, Apply, During, Untried, RowAfter, MayHaveBytes, DurableOutcome;
    var g, n, after := w.work.generation, w.work.revision + 1, RowAfter(result, note);
    RoundBegins(w, v);
    RoundClaims(w, v);
    RoundWrites(w, v, result);
    RoundFinishes(w, v, result, note);
    RoundConcludes(w, v, result, note);
    var w3 := During(w, v, Some(ClaimedRow), Holding(n, g, 1, 1), None);
    var w6 := Apply(During(w, v, Some(after), Deciding(n, g, DurableOutcome(after)), Some(result)), Conclude(v, true));
    FirstSteps(w, During(w, v, None, Starting(n, g), None), During(w, v, Some(NewRow), Prepared(n, g, 0, 0), None), w3,
               ClaimWork(v), Prepare(v, None), ClaimOutbox(v, Claimed),
               [CallSink(v, result)] + ([Finish(v, note)] + ([Conclude(v, true)] + [])));
    FirstSteps(w3, During(w, v, Some(ClaimedRow), Wrote(n, g, 1, 1, result), Some(result)),
               During(w, v, Some(after), Deciding(n, g, DurableOutcome(after)), Some(result)), w6,
               CallSink(v, result), Finish(v, note), Conclude(v, true), []);
    RunNothing(w6);
  }

  /** Before it concludes, such a round has decided exactly what the sink reported. */
  lemma RoundDecides(w: World, v: nat, result: SinkOutcome, note: Note)
    requires Untried(w, v) && !note.AckRejected?
    ensures var events := [ClaimWork(v)] + ([Prepare(v, None)] + ([ClaimOutbox(v, Claimed)] + ([CallSink(v, result)]
                          + ([Finish(v, note)] + []))));
            var t := Run(w, events);
            && v in t.workers
            && t.workers[v] == Deciding(w.work.revision + 1, w.work.generation, Reported(result))
            && t.work == Work(Processing(v), w.work.generation, w.work.revision + 1) && t.created
  {
    hide Run, Apply, Untried, MayHaveBytes;
    var g, n, after := w.work.generation, w.work.revision + 1, RowAfter(result, note);
    RoundBegins(w, v);
    RoundClaims(w, v);
    RoundWrites(w, v, result);
    RoundFinishes(w, v, result, note);
    RoundReports(result, note);
    var w3 := During(w, v, Some(ClaimedRow), Holding(n, g, 1, 1), None);
    var w4 := During(w, v, Some(ClaimedRow), Wrote(n, g, 1, 1, result), Some(result));
    var w5 := During(w, v, Some(after), Deciding(n, g, DurableOutcome(after)), Some(result));
    FirstSteps(w, During(w, v, None, Starting(n, g), None), During(w, v, Some(NewRow), Prepared(n, g, 0, 0), None), w3,
               ClaimWork(v), Prepare(v, None), ClaimOutbox(v, Claimed),
               [CallSink(v, result)] + ([Finish(v, note)] + []));
    RunFirst(w3, CallSink(v, result), [Finish(v, note)] + []);
    RunFirst(w4, Finish(v, note), []);
    RunNothing(w5);
    UntriedCreated(w, v);
  }

  lemma UntriedCreated(w: World, v: nat)
    requires Untried(w, v)
    ensures w.created
  {
  }

  lemma RoundReports(result: SinkOutcome, note: Note)
    requires !note.AckRejected?
    ensures DurableOutcome(RowAfter(result, note)) == Reported(result)
  {
  }

  /**
    A round whose claim is refused calls no sink: an expired command is settled as
    such and nothing is minted; a missing session or an unhealthy clock makes the next
    generation due.
  */
  lemma RefusedRound(w: World, v: nat, verdict: ClaimVerdict)
    requires Untried(w, v) && !verdict.Claimed?
    ensures var events := [ClaimWork(v)] + ([Prepare(v, None)] + ([ClaimOutbox(v, verdict)]
                          + ([Conclude(v, true)] + [])));
            var t, g, n := Run(w, events), w.work.generation, w.work.revision + 2;
            && t.sinkCalls == w.sinkCalls && t.bytes == w.bytes
            && t.created == (verdict != Late)
            && t.work == (if verdict == Late then Work(Done, g, n) else Work(Due, g + 1, n))
  {
    hide Run, Untried;
    var g, n := w.work.generation, w.work.revision + 1;
    var w1 := During(w, v, None, Starting(n, g), None);
    var w2 := During(w, v, Some(NewRow), Prepared(n, g, 0, 0), None);
    RoundBegins(w, v);
    var w3 := Apply(w2, ClaimOutbox(v, verdict));
    FirstSteps(w, w1, w2, w3, ClaimWork(v), Prepare(v, None), ClaimOutbox(v, verdict), [Conclude(v, true)] + []);
    RunFirst(w3, Conclude(v, true), []);
    RunNothing(Apply(w3, Conclude(v, true)));
    UntriedCreated(w, v);
    RefusedClaim(w, v, verdict);
    hide Apply, During;
  }

  lemma RefusedClaim(w: World, v: nat, verdict: ClaimVerdict)
    requires Untried(w, v) && !verdict.Claimed?
    ensures var g, n := w.work.generation, w.work.revision + 1;
            var w2 := During(w, v, Some(NewRow), Prepared(n, g, 0, 0), None);
            var t := Apply(Apply(w2, ClaimOutbox(v, verdict)), Conclude(v, true));
            && t.sinkCalls == w.sinkCalls && t.bytes == w.bytes && t.created == (verdict != Late)
            && t.work == (if verdict == Late then Work(Done, g, n + 1) else Work(Due, g + 1, n + 1))
  {
    var g, n := w.work.generation, w.work.revision + 1;
    var w2 := During(w, v, Some(NewRow), Prepared(n, g, 0, 0), None);
    ClaimVerdicts(NewRow, 0, 0, verdict);
    ClaimedRowDecides(w2, v, verdict);
    ConcludedWork(Apply(w2, ClaimOutbox(v, verdict)), v, true);
    hide Apply, ClaimRow, DurableOutcome;
  }
}
