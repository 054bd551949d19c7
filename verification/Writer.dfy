/**
  The ordered transport writer: a bounded queue feeding a reorder buffer keyed by
  the reserved sequence, one completion per request, and the Native TCP loop that
  consumes it.

  `State` is everything the sink handles, the writer and the transport share.
  `Apply` performs one atomic section of one participant; an interleaving of any
  number of producers with the writer task is a list of `Event`s. Requests are
  named by their index in `writes`.
*/
module Writer {
  import opened Prelude
  import opened Framing

  datatype Phase = Staging | Started | Closed

  datatype Outcome = Written | Backpressure | DefinitelyNotWritten | Unconfirmed

  /** A deferred encoder is known by what it would return when invoked. */
  datatype Payload = Ready(bytes: Bytes) | Deferred(encoded: Option<Bytes>)

  datatype Write = Write(sequence: nat, payload: Payload, skip: bool, permit: bool)

  /** A request whose sequence was accepted, with its own data. */
  datatype Accepted = Accepted(id: nat, write: Write)

  /**
    Where the writer task is: about to start a round of `next`, blocked in its
    select, writing a frame, about to close the phase, about to fail what is
    pending, past its last frame, or finished.
  */
  datatype Task = Idle | Blocked | Writing(id: nat) | Failing | Draining | Stopping | Ended

  datatype State = State(
    capacity: nat,
    maxFrame: nat,
    maxMessage: nat,
    phase: Phase,
    writes: seq<Write>,
    bootstrap: seq<nat>,
    admitting: set<nat>,
    channel: seq<nat>,
    permits: nat,
    reordered: map<nat, nat>,
    nextSequence: nat,
    gapArmed: bool,
    closed: bool,
    task: Task,
    done: map<nat, Outcome>,
    accepted: seq<Accepted>,
    wire: Bytes,
    aborted: bool)

  datatype Signal = PhaseClosed | GapElapsed | Received | SendersGone

  datatype Event =
    | StageBootstrap(payload: Payload)
    | Start
    | Close
    | Admit(sequence: nat, payload: Payload, skip: bool)
    | Offer(id: nat)
    | CallNext
    | Fire(signal: Signal)
    | Shut
    | Drain
    | WriteAll
    | WriteUncertain(sent: nat)
    | AbortWrite(sent: nat)
    | DropWriter

  function Init(capacity: nat, maxFrame: nat, maxMessage: nat): State {
    State(capacity, maxFrame, maxMessage, Staging, [], [], {}, [], capacity, map[], 1, false, false,
          Idle, map[], [], [], false)
  }

  // ---------------------------------------------------------------------
  // The atomic sections.

  /** `QueuedWrite::complete` and its drop: reports the outcome and releases the permit. */
  function Complete(s: State, id: nat, outcome: Outcome): State
    requires id < |s.writes|
  {
    s.(done := s.done[id := outcome], permits := s.permits + (if s.writes[id].permit then 1 else 0))
  }

  /** `WriterState::close`: staged requests are failed, once. */
  function ClosePhase(s: State): State {
    if s.phase.Closed? then s
    else s.(phase := Closed, bootstrap := [],
            done := s.done + UnwrittenAll(s.bootstrap))
  }

  /** `QueuedWriter::fail_pending`. */
  function FailPending(s: State): State {
    if s.closed then s.(task := Ended)
    else s.(closed := true, task := Ended, reordered := map[], channel := [],
            permits := s.permits + |s.reordered| + |s.channel|,
            done := s.done + Unsent(s))
  }

  /** The reports `fail_pending` makes. */
  function Unsent(s: State): map<nat, Outcome> {
    map id | 0 <= id < |s.writes| && (InReorder(s, id) || id in s.channel) :: DefinitelyNotWritten
  }

  function UnwrittenAll(ids: seq<nat>): map<nat, Outcome> {
    map id | id in ids :: DefinitelyNotWritten
  }

  /** The reorder buffer keys a request by its own sequence. */
  predicate InReorder(s: State, id: nat) {
    id < |s.writes| && s.writes[id].sequence in s.reordered && s.reordered[s.writes[id].sequence] == id
  }

  /** `accept_expected`, applied to a request just taken out of its queue. */
  function Accept(s: State, id: nat): State
    requires id < |s.writes|
  {
    if s.writes[id].sequence != s.nextSequence || s.nextSequence == U64_MAX then
      Complete(s, id, DefinitelyNotWritten).(task := Failing)
    else
      var t := s.(nextSequence := s.nextSequence + 1, gapArmed := false,
                  accepted := s.accepted + [Accepted(id, s.writes[id])]);
      if s.writes[id].skip then Complete(t, id, DefinitelyNotWritten).(task := Idle)
      else t.(task := Writing(id))
  }

  /** One round of the loop in `next`, up to its select. */
  function Advance(s: State): State
    requires Indexed(s)
  {
    var t := s.(gapArmed := s.gapArmed || s.reordered != map[]);
    if s.phase.Closed? then FailPending(t)
    else if s.bootstrap != [] then Accept(t.(bootstrap := s.bootstrap[1..]), s.bootstrap[0])
    else if s.nextSequence in s.reordered then
      Accept(t.(reordered := s.reordered - {s.nextSequence}), s.reordered[s.nextSequence])
    else t.(task := Blocked)
  }

  /** Queue entries name existing requests. */
  predicate Indexed(s: State) {
    && (forall i :: 0 <= i < |s.bootstrap| ==> s.bootstrap[i] < |s.writes|)
    && (forall i :: 0 <= i < |s.channel| ==> s.channel[i] < |s.writes|)
    && (forall k :: k in s.reordered ==> s.reordered[k] < |s.writes|)
    && (forall id :: id in s.admitting ==> id < |s.writes|)
    && (s.task.Writing? ==> s.task.id < |s.writes|)
  }

  /** One message taken from the channel; a buffered one starts another round. */
  function Receive(s: State): State
    requires Indexed(s) && s.channel != []
  {
    var id := s.channel[0];
    var w := s.writes[id];
    var t := s.(channel := s.channel[1..], task := Idle);
    if w.sequence == s.nextSequence then Accept(t, id)
    else if StaleRequest(s, w.sequence) || |s.reordered| >= s.capacity then
      Complete(t, id, DefinitelyNotWritten).(task := Failing)
    else t.(reordered := s.reordered[w.sequence := id])
  }

  predicate StaleRequest(s: State, sequence: nat) {
    sequence < s.nextSequence || sequence in s.reordered
  }

  function Materialize(p: Payload): Option<Bytes> {
    match p
    case Ready(bytes) => Some(bytes)
    case Deferred(encoded) => encoded
  }

  /** The frame the Native TCP loop hands to `write_all`, if the message passes its checks. */
  function Frame(s: State, w: Write): (f: Option<Bytes>)
    ensures f.Some? <==> && Materialize(w.payload).Some? && |Materialize(w.payload).value| <= s.maxMessage
                         && LegalPayload(Materialize(w.payload).value, s.maxFrame)
    ensures f.Some? ==> Encode(Materialize(w.payload).value, s.maxFrame) == Ok(f.value)
  {
    match Materialize(w.payload)
    case None => None
    case Some(bytes) =>
      if |bytes| > s.maxMessage then None
      else match Encode(bytes, s.maxFrame)
        case Ok(frame) => Some(frame)
        case Err(_) => None
  }

  /** The frame at hand is reported with `outcome` after the transport took `sent` of its bytes. */
  function Report(s: State, outcome: Outcome, sent: Bytes, aborted: bool): State
    requires s.task.Writing? && s.task.id < |s.writes|
  {
    Complete(s.(task := if outcome.Written? then Idle else Stopping, wire := s.wire + sent, aborted := aborted),
             s.task.id, outcome)
  }

  /** One round of `run_native_tcp_writer` whose write ended with `outcome` after at most `sent` bytes. */
  function EndWrite(s: State, sent: nat, outcome: Outcome): State
    requires s.task.Writing? && s.task.id < |s.writes|
  {
    match Frame(s, s.writes[s.task.id])
    case None => Report(s, DefinitelyNotWritten, [], false).(task := Failing)
    case Some(frame) => Report(s, outcome, Front(frame, sent), false)
  }

  function Front(frame: Bytes, sent: nat): Bytes {
    frame[..if sent < |frame| then sent else |frame|]
  }

  /** The writer task is dropped while `write_all` is pending: the request's drop reports its fixed error. */
  function Abort(s: State, sent: nat): State
    requires s.task.Writing? && s.task.id < |s.writes|
  {
    match Frame(s, s.writes[s.task.id])
    case None => Report(s, DefinitelyNotWritten, [], false).(task := Failing)
    case Some(frame) =>
      Report(s, DefinitelyNotWritten, Front(frame, sent), Front(frame, sent) != []).(task := Failing)
  }

  function Apply(s: State, e: Event): State
    requires Indexed(s)
  {
    match e
    case StageBootstrap(payload) =>
      var id := |s.writes|;
      var t := s.(writes := s.writes + [Write(1, payload, false, false)]);
      if s.phase.Staging? then t.(bootstrap := s.bootstrap + [id])
      else Complete(t, id, DefinitelyNotWritten)
    case Start => if s.phase.Staging? then s.(phase := Started) else s
    case Close => ClosePhase(s)
    case Admit(sequence, payload, skip) =>
      // The preceding closed check may be outdated by now, so no phase is assumed.
      if sequence > U64_MAX then s
      else if s.permits == 0 then ClosePhase(s)
      else s.(permits := s.permits - 1, admitting := s.admitting + {|s.writes|},
              writes := s.writes + [Write(sequence, payload, skip, true)])
    case Offer(id) =>
      if id !in s.admitting then s
      else
        var t := s.(admitting := s.admitting - {id});
        if s.closed then Complete(ClosePhase(t), id, DefinitelyNotWritten)
        else if ChannelFull(s) then ClosePhase(Complete(t, id, Backpressure))
        else t.(channel := s.channel + [id])
    case CallNext =>
      if !s.task.Idle? || s.phase.Staging? then s
      else if s.closed then s.(task := Ended)
      else Advance(s)
    case Fire(signal) =>
      if !s.task.Blocked? then s
      else (match signal
        case PhaseClosed => if s.phase.Closed? then FailPending(s) else s
        case GapElapsed => if s.gapArmed then s.(task := Failing) else s
        case SendersGone => if s.channel == [] && s.admitting == {} then s.(task := Failing) else s
        case Received => if s.channel != [] then Receive(s) else s)
    case Shut => if s.task.Failing? then ClosePhase(s).(task := Draining) else s
    case Drain => if s.task.Draining? then FailPending(s) else s
    case WriteAll =>
      if s.task.Writing? then EndWrite(s, FrameLength(s), Written) else s
    case WriteUncertain(sent) =>
      if s.task.Writing? then EndWrite(s, sent, Unconfirmed) else s
    case AbortWrite(sent) =>
      if s.task.Writing? then Abort(s, sent) else s
    case DropWriter =>
      if s.task.Idle? || s.task.Blocked? || s.task.Stopping? then s.(task := Failing) else s
  }

  function FrameLength(s: State): nat
    requires s.task.Writing? && s.task.id < |s.writes|
  {
    match Frame(s, s.writes[s.task.id]) case Some(f) => |f| case None => 0
  }

  predicate ChannelFull(s: State) {
    |s.channel| >= s.capacity
  }

  function Run(s: State, events: seq<Event>): (t: State)
    requires Inv(s)
    ensures Inv(t)
    decreases |events|
  {
    InvIndexed(s);
    if events == [] then s
    else
      StepKeepsInv(s, events[0]);
      Run(Apply(s, events[0]), events[1..])
  }

  // ---------------------------------------------------------------------
  // The invariant. `hand` is a request between two places inside one section.

  function One(b: bool): nat {
    if b then 1 else 0
  }

  /** The number of places request `id` is in. */
  function Places(s: State, hand: Option<nat>, id: nat): nat {
    One(id in s.bootstrap) + One(id in s.admitting) + One(id in s.channel) + One(InReorder(s, id))
    + One(s.task == Writing(id)) + One(id in s.done) + One(hand == Some(id))
  }

  /** Conservation: every request is in exactly one place, and places hold only requests. */
  ghost predicate Conserved(s: State, hand: Option<nat>) {
    && Distinct(s.bootstrap) && Distinct(s.channel)
    && (forall k :: k in s.reordered ==> s.reordered[k] < |s.writes| && s.writes[s.reordered[k]].sequence == k)
    && (forall id: nat :: Places(s, hand, id) == One(id < |s.writes|))
  }

  predicate OwnsPermit(s: State, id: nat) {
    id < |s.writes| && s.writes[id].permit
  }

  /** Requests past admission own a permit, staged ones do not; permits in circulation are conserved. */
  ghost predicate Accounted(s: State, hand: Option<nat>) {
    && (forall id :: id in s.bootstrap ==> !OwnsPermit(s, id))
    && (forall id :: id in s.admitting ==> OwnsPermit(s, id))
    && (forall id :: id in s.channel ==> OwnsPermit(s, id))
    && (forall k :: k in s.reordered ==> OwnsPermit(s, s.reordered[k]))
    && s.permits + |s.admitting| + |s.channel| + |s.reordered|
       + One(s.task.Writing? && OwnsPermit(s, s.task.id)) + One(hand.Some? && OwnsPermit(s, hand.value))
       == s.capacity
  }

  ghost predicate Base(s: State, hand: Option<nat>) {
    Conserved(s, hand) && Accounted(s, hand)
  }

  lemma CompleteBase(s: State, id: nat, outcome: Outcome)
    requires id < |s.writes| && Base(s, Some(id))
    ensures Base(Complete(s, id, outcome), None)
  {
    var t := Complete(s, id, outcome);
    forall x: nat ensures Places(t, None, x) == One(x < |t.writes|) {
      assert Places(s, Some(id), x) == One(x < |s.writes|);
    }
  }

  lemma ClosePhaseBase(s: State, hand: Option<nat>)
    requires Base(s, hand)
    ensures Base(ClosePhase(s), hand)
  {
    ClosePhaseConserved(s, hand);
    hide Conserved, UnwrittenAll;
  }

  lemma ClosePhaseConserved(s: State, hand: Option<nat>)
    requires Conserved(s, hand)
    ensures Conserved(ClosePhase(s), hand)
  {
    var t := ClosePhase(s);
    forall x: nat ensures Places(t, hand, x) == One(x < |t.writes|) {
      assert Places(s, hand, x) == One(x < |s.writes|);
    }
  }

  lemma FailPendingBase(s: State)
    requires Base(s, None) && !s.task.Writing?
    ensures Base(FailPending(s), None)
  {
    FailPendingConserved(s);
    hide Conserved, InReorder;
  }

  lemma FailPendingConserved(s: State)
    requires Conserved(s, None) && !s.task.Writing?
    ensures Conserved(FailPending(s), None)
  {
    var t := FailPending(s);
    forall x: nat ensures Places(t, None, x) == One(x < |t.writes|) {
      assert Places(s, None, x) == One(x < |s.writes|);
    }
  }

  /** Taking the front of a queue, or an entry of the reorder buffer, puts the request in hand. */
  lemma TakeBootstrap(s: State)
    requires Base(s, None) && s.bootstrap != []
    ensures Base(s.(bootstrap := s.bootstrap[1..]), Some(s.bootstrap[0]))
  {
    var t, hand := s.(bootstrap := s.bootstrap[1..]), Some(s.bootstrap[0]);
    assert s.bootstrap[0] in s.bootstrap && forall id :: id in t.bootstrap ==> id in s.bootstrap;
    forall x: nat ensures Places(t, hand, x) == One(x < |t.writes|) {
      assert Places(s, None, x) == One(x < |s.writes|);
    }
  }

  lemma TakeChannel(s: State)
    requires Base(s, None) && s.channel != []
    ensures Base(s.(channel := s.channel[1..]), Some(s.channel[0]))
  {
    var t, hand := s.(channel := s.channel[1..]), Some(s.channel[0]);
    assert s.channel[0] in s.channel && forall id :: id in t.channel ==> id in s.channel;
    forall x: nat ensures Places(t, hand, x) == One(x < |t.writes|) {
      assert Places(s, None, x) == One(x < |s.writes|);
    }
  }

  lemma TakeReordered(s: State, k: nat)
    requires Base(s, None) && k in s.reordered
    ensures Base(s.(reordered := s.reordered - {k}), Some(s.reordered[k]))
  {
    var rest := s.reordered - {k};
    assert rest.Keys == s.reordered.Keys - {k};
    var t, hand := s.(reordered := rest), Some(s.reordered[k]);
    forall x: nat ensures Places(t, hand, x) == One(x < |t.writes|) {
      assert Places(s, None, x) == One(x < |s.writes|);
    }
  }

  lemma TakeAdmitted(s: State, id: nat)
    requires Base(s, None) && id in s.admitting
    ensures Base(s.(admitting := s.admitting - {id}), Some(id))
  {
    var t := s.(admitting := s.admitting - {id});
    forall x: nat ensures Places(t, Some(id), x) == One(x < |t.writes|) {
      assert Places(s, None, x) == One(x < |s.writes|);
    }
  }

  lemma PutChannel(s: State, id: nat)
    requires id < |s.writes| && Base(s, Some(id)) && OwnsPermit(s, id)
    ensures Base(s.(channel := s.channel + [id]), None)
  {
    var t := s.(channel := s.channel + [id]);
    assert Places(s, Some(id), id) == 1;
    forall x: nat ensures Places(t, None, x) == One(x < |t.writes|) {
      assert Places(s, Some(id), x) == One(x < |s.writes|);
    }
  }

  lemma PutReordered(s: State, id: nat)
    requires id < |s.writes| && Base(s, Some(id)) && OwnsPermit(s, id)
    requires s.writes[id].sequence !in s.reordered
    ensures Base(s.(reordered := s.reordered[s.writes[id].sequence := id]), None)
  {
    var t := s.(reordered := s.reordered[s.writes[id].sequence := id]);
    assert Places(s, Some(id), id) == 1;
    forall x: nat ensures Places(t, None, x) == One(x < |t.writes|) {
      assert Places(s, Some(id), x) == One(x < |s.writes|);
    }
  }

  /** A request that was just created is in nobody's place yet. */
  lemma CreateRequest(s: State, w: Write)
    requires Base(s, None) && Indexed(s) && (w.permit ==> 0 < s.permits)
    ensures Base(s.(writes := s.writes + [w], permits := s.permits - One(w.permit)), Some(|s.writes|))
  {
    var id := |s.writes|;
    var t := s.(writes := s.writes + [w], permits := s.permits - One(w.permit));
    forall x: nat ensures Places(t, Some(id), x) == One(x < |t.writes|) {
      assert Places(s, None, x) == One(x < |s.writes|);
    }
  }

  // ---------------------------------------------------------------------

  predicate IsFrame(a: Accepted) {
    !a.write.skip
  }

  /** The requests handed to the transport, in order. */
  function Frames(s: State): seq<Accepted> {
    Filter(IsFrame, s.accepted)
  }

  predicate Controlled(s: State) {
    && (s.closed <==> s.task.Ended?)
    && (s.aborted ==> s.closed || s.task.Failing? || s.task.Draining?)
    && (s.closed ==> s.reordered == map[] && s.channel == [])
    && (s.closed || s.task.Draining? ==> s.phase.Closed?)
    && (s.phase.Closed? ==> s.bootstrap == [])
    && (s.phase.Staging? ==> (s.task.Idle? || s.task.Failing?) && s.accepted == [])
    && (s.gapArmed && (s.task.Idle? || s.task.Blocked? || s.task.Writing?) ==> s.reordered != map[])
    && (s.task.Blocked? ==> s.bootstrap == [] && s.nextSequence !in s.reordered
                            && (s.gapArmed <==> s.reordered != map[]))
  }

  /** The accepted sequences are exactly 1, 2, 3, ... and nothing buffered lies behind them. */
  ghost predicate Sequenced(s: State) {
    && |s.accepted| == s.nextSequence - 1 && s.nextSequence <= U64_MAX
    && (forall i :: 0 <= i < |s.accepted| ==>
          && s.accepted[i].id < |s.writes|
          && s.accepted[i].write == s.writes[s.accepted[i].id]
          && s.accepted[i].write.sequence == i + 1
          && (s.accepted[i].id in s.done || s.task == Writing(s.accepted[i].id)))
    && (forall k :: k in s.reordered ==> 2 <= k && s.nextSequence <= k)
    && (forall i :: 0 <= i < |s.bootstrap| ==> s.bootstrap[i] < |s.writes| && s.writes[s.bootstrap[i]].sequence == 1)
  }

  function Body(a: Accepted): Bytes {
    match Materialize(a.write.payload) case Some(bytes) => bytes case None => []
  }

  function Bodies(frames: seq<Accepted>): seq<Bytes> {
    seq(|frames|, i requires 0 <= i < |frames| => Body(frames[i]))
  }

  predicate Reported(s: State, a: Accepted, outcome: Outcome) {
    a.id in s.done && s.done[a.id] == outcome
  }

  /** The frames whose write was confirmed: all of them, or all but the last. */
  function Confirmed(s: State): (c: seq<Accepted>) {
    var frames := Frames(s);
    if frames != [] && !Reported(s, frames[|frames| - 1], Written) then frames[..|frames| - 1] else frames
  }

  /** What the wire carries after the confirmed frames. */
  function Tail(s: State): Bytes
    requires AllLegal(Bodies(Confirmed(s)), s.maxFrame)
    requires Wire(Bodies(Confirmed(s)), s.maxFrame) <= s.wire
  {
    s.wire[|Wire(Bodies(Confirmed(s)), s.maxFrame)|..]
  }

  /** The last frame handed out, if its write is not confirmed. */
  function Unsettled(s: State): Option<Accepted> {
    var frames := Frames(s);
    if frames != [] && !Reported(s, frames[|frames| - 1], Written) then Some(frames[|frames| - 1]) else None
  }

  ghost predicate Transported(s: State) {
    var frames := Frames(s);
    && (forall i :: 0 <= i < |frames| - 1 ==> Reported(s, frames[i], Written))
    && (s.task.Writing? ==> frames != [] && frames[|frames| - 1].id == s.task.id)
    && (s.task.Idle? || s.task.Blocked? ==> Unsettled(s).None?)
    && AllLegal(Bodies(Confirmed(s)), s.maxFrame)
    && Wire(Bodies(Confirmed(s)), s.maxFrame) <= s.wire
    && TailExplained(s)
  }

  /** Bytes beyond the confirmed frames belong to one frame reported uncertain (or aborted). */
  ghost predicate TailExplained(s: State)
    requires AllLegal(Bodies(Confirmed(s)), s.maxFrame)
    requires Wire(Bodies(Confirmed(s)), s.maxFrame) <= s.wire
  {
    && (Tail(s) != [] ==>
          && Unsettled(s).Some?
          && LegalPayload(Body(Unsettled(s).value), s.maxFrame)
          && Tail(s) <= Encode(Body(Unsettled(s).value), s.maxFrame).value
          && (s.aborted || Reported(s, Unsettled(s).value, Unconfirmed)))
    && (s.aborted ==> Tail(s) != [] && Reported(s, Unsettled(s).value, DefinitelyNotWritten))
  }

  ghost predicate Inv(s: State) {
    Base(s, None) && Controlled(s) && Sequenced(s) && Transported(s)
  }

  lemma InvIndexed(s: State)
    requires Inv(s)
    ensures Indexed(s)
  {
    BaseIndexed(s);
  }

  lemma FilterMember<T>(p: T -> bool, s: seq<T>, i: nat)
    requires i < |Filter(p, s)|
    ensures p(Filter(p, s)[i]) && Filter(p, s)[i] in s
  {
    if p(s[0]) {
      if 0 < i {
        FilterMember(p, s[1..], i - 1);
      }
    } else {
      FilterMember(p, s[1..], i);
    }
  }

  /** `t` reports the same about every accepted request as `s`. */
  ghost predicate SameReports(s: State, t: State) {
    && t.accepted == s.accepted && t.wire == s.wire && t.maxFrame == s.maxFrame && t.aborted == s.aborted
    && (forall a :: a in s.accepted ==> (a.id in s.done <==> a.id in t.done))
    && (forall a :: a in s.accepted && a.id in s.done ==> t.done[a.id] == s.done[a.id])
  }

  lemma SameTransported(s: State, t: State)
    requires Transported(s) && SameReports(s, t)
    requires t.task == s.task
             || (!s.task.Writing? && (t.task.Ended? || t.task.Stopping? || t.task.Failing? || t.task.Draining?))
             || (t.task.Blocked? && s.task.Idle?) || (t.task.Idle? && s.task.Blocked?)
    ensures Transported(t)
  {
    var frames := Frames(s);
    forall i | 0 <= i < |frames| ensures frames[i] in s.accepted {
      FilterMember(IsFrame, s.accepted, i);
    }
    forall i | 0 <= i < |frames| ensures Reported(t, frames[i], Written) == Reported(s, frames[i], Written)
                                         && Reported(t, frames[i], Unconfirmed) == Reported(s, frames[i], Unconfirmed)
                                         && Reported(t, frames[i], DefinitelyNotWritten)
                                            == Reported(s, frames[i], DefinitelyNotWritten)
    {
    }
    assert Confirmed(t) == Confirmed(s);
  }

  /** Requests in a queue or in hand are not accepted yet, so completing them changes no report. */
  lemma PendingNotAccepted(s: State, hand: Option<nat>, id: nat)
    requires Base(s, hand) && Sequenced(s)
    requires id in s.bootstrap || id in s.channel || InReorder(s, id) || id in s.admitting || hand == Some(id)
    ensures id !in s.done && forall a :: a in s.accepted ==> a.id != id
  {
    assert Places(s, hand, id) == One(id < |s.writes|);
  }

  lemma FailPendingKeeps(s: State)
    requires Base(s, None) && Sequenced(s) && Transported(s) && !s.task.Writing?
    requires s.phase.Closed? && s.bootstrap == [] && (s.closed ==> s.reordered == map[] && s.channel == [])
    ensures Inv(FailPending(s))
  {
    hide Base, Transported, Unsent, Sequenced, SameReports;
    var t := FailPending(s);
    FailPendingBase(s);
    FailPendingReports(s);
    SameTransported(s, t);
    FailPendingSequenced(s);
  }

  lemma FailPendingSequenced(s: State)
    requires Sequenced(s) && !s.task.Writing?
    ensures Sequenced(FailPending(s))
  {
    hide Unsent;
    var t := FailPending(s);
    UnsentAdds(s);
    assert t.accepted == s.accepted && t.writes == s.writes && t.bootstrap == s.bootstrap;
  }

  lemma UnsentAdds(s: State)
    ensures forall id :: id in s.done ==> id in FailPending(s).done
  {
  }

  lemma FailPendingReports(s: State)
    requires Base(s, None) && Sequenced(s)
    ensures SameReports(s, FailPending(s))
  {
    forall a | a in s.accepted ensures !InReorder(s, a.id) && a.id !in s.channel {
      if InReorder(s, a.id) || a.id in s.channel {
        PendingNotAccepted(s, None, a.id);
      }
    }
  }

  lemma ClosePhaseReports(s: State, hand: Option<nat>)
    requires Base(s, hand) && Sequenced(s)
    ensures SameReports(s, ClosePhase(s))
  {
    forall a | a in s.accepted ensures a.id !in s.bootstrap {
      if a.id in s.bootstrap {
        PendingNotAccepted(s, hand, a.id);
      }
    }
  }

  lemma FailPendingEnds(s: State)
    ensures FailPending(s).task.Ended?
  {
  }

  /** Giving up, from anywhere but a write in progress. */
  lemma FailingKeeps(s: State, next: Task)
    requires Base(s, None) && Sequenced(s) && Transported(s) && !s.task.Writing? && !s.closed
    requires (s.phase.Closed? ==> s.bootstrap == []) && (s.phase.Staging? ==> s.accepted == [])
    requires next.Failing? || (next.Draining? && s.phase.Closed?)
    ensures Inv(s.(task := next))
  {
    hide Transported;
    SameTransported(s, s.(task := next));
    TaskBase(s, next);
    hide Base;
  }

  lemma TaskBase(s: State, next: Task)
    requires Base(s, None) && !s.task.Writing? && !next.Writing?
    ensures Base(s.(task := next), None)
  {
    assert forall id: nat :: Places(s.(task := next), None, id) == Places(s, None, id);
  }

  lemma ShutKeeps(s: State)
    requires Inv(s) && s.task.Failing?
    ensures Inv(ClosePhase(s).(task := Draining))
  {
    CloseKeeps(s);
    ClosedPhase(s);
    hide Base, Transported, Sequenced, ClosePhase;
    FailingKeeps(ClosePhase(s), Draining);
  }

  lemma ClosedPhase(s: State)
    ensures ClosePhase(s).phase.Closed? && ClosePhase(s).task == s.task && ClosePhase(s).closed == s.closed
  {
  }

  /** Inside `next`, between two rounds of its loop. */
  ghost predicate Looping(s: State) {
    && Base(s, None) && Sequenced(s) && Transported(s)
    && s.task.Idle? && !s.closed && !s.aborted && !s.phase.Staging?
    && (s.phase.Closed? ==> s.bootstrap == [])
    && (s.gapArmed ==> s.reordered != map[])
  }

  /** A skip marker joins the accepted sequences but not the frames. */
  lemma SkipTransported(s: State, id: nat)
    requires id < |s.writes| && Transported(s) && s.task.Idle? && s.writes[id].skip
    requires id !in s.done && forall a :: a in s.accepted ==> a.id != id
    ensures Transported(s.(accepted := s.accepted + [Accepted(id, s.writes[id])],
                           done := s.done[id := DefinitelyNotWritten]))
  {
    hide Wire, Encode, Bodies, AllLegal, LegalPayload;
    FilterSnoc(IsFrame, s.accepted, Accepted(id, s.writes[id]));
    var t := s.(accepted := s.accepted + [Accepted(id, s.writes[id])], done := s.done[id := DefinitelyNotWritten]);
    var frames := Frames(s);
    assert Frames(t) == frames;
    forall i | 0 <= i < |frames|
      ensures forall o :: Reported(t, frames[i], o) == Reported(s, frames[i], o)
    {
      FilterMember(IsFrame, s.accepted, i);
    }
  }

  /** An accepted request that is no skip becomes the frame being written. */
  lemma FrameTransported(s: State, id: nat)
    requires id < |s.writes| && Transported(s) && s.task.Idle? && !s.writes[id].skip && id !in s.done
    ensures Transported(s.(accepted := s.accepted + [Accepted(id, s.writes[id])], task := Writing(id)))
  {
    hide Wire, Encode, Bodies, AllLegal, LegalPayload, Filter;
    var a := Accepted(id, s.writes[id]);
    FilterSnoc(IsFrame, s.accepted, a);
    var t := s.(accepted := s.accepted + [a], task := Writing(id));
    assert Frames(t) == Frames(s) + [a];
    assert Frames(t)[..|Frames(s)|] == Frames(s);
    assert Confirmed(t) == Confirmed(s);
    assert forall i :: 0 <= i < |Frames(s)| ==>
        Reported(t, Frames(s)[i], Written) == Reported(s, Frames(s)[i], Written);
  }

  lemma AcceptSequenced(s: State, id: nat)
    requires id < |s.writes| && Sequenced(s) && s.task.Idle?
    requires s.writes[id].sequence == s.nextSequence < U64_MAX && s.nextSequence !in s.reordered
    ensures Sequenced(Accept(s, id))
  {
  }

  /** Completing a request that was never accepted and giving up keeps everything else. */
  lemma DiscardKeeps(s: State, id: nat, outcome: Outcome)
    requires id < |s.writes| && Base(s, Some(id)) && Sequenced(s) && Transported(s) && s.task.Idle? && !s.closed
    requires (s.phase.Closed? ==> s.bootstrap == []) && !s.phase.Staging?
    ensures Inv(Complete(s, id, outcome).(task := Failing))
  {
    hide Transported;
    PendingNotAccepted(s, Some(id), id);
    CompleteBase(s, id, outcome);
    SameTransported(s, Complete(s, id, outcome));
    hide Base;
    FailingKeeps(Complete(s, id, outcome), Failing);
  }

  /** A request was taken out of its queue inside `next` and is about to be accepted or refused. */
  ghost predicate Taken(s: State, id: nat) {
    && id < |s.writes| && Base(s, Some(id)) && Sequenced(s) && Transported(s)
    && s.task.Idle? && !s.closed && !s.aborted && !s.phase.Staging?
    && (s.phase.Closed? ==> s.bootstrap == [])
    && (s.writes[id].sequence == s.nextSequence ==> s.nextSequence !in s.reordered)
  }

  lemma AcceptKeeps(s: State, id: nat)
    requires Taken(s, id)
    ensures Inv(Accept(s, id))
  {
    hide Transported, Base;
    if s.writes[id].sequence != s.nextSequence || s.nextSequence == U64_MAX {
      DiscardKeeps(s, id, DefinitelyNotWritten);
    } else {
      PendingNotAccepted(s, Some(id), id);
      AcceptSequenced(s, id);
      AcceptBase(s, id);
      hide Sequenced;
      var accepted := s.accepted + [Accepted(id, s.writes[id])];
      if s.writes[id].skip {
        SkipTransported(s, id);
        SameTransported(s.(accepted := accepted, done := s.done[id := DefinitelyNotWritten]), Accept(s, id));
      } else {
        FrameTransported(s, id);
        SameTransported(s.(accepted := accepted, task := Writing(id)), Accept(s, id));
      }
    }
  }

  lemma AcceptBase(s: State, id: nat)
    requires id < |s.writes| && Base(s, Some(id)) && s.task.Idle?
    requires s.writes[id].sequence == s.nextSequence < U64_MAX
    ensures Base(Accept(s, id), None)
  {
    var t := Accept(s, id);
    forall x: nat ensures Places(t, None, x) == One(x < |t.writes|) {
      assert Places(s, Some(id), x) == One(x < |s.writes|);
    }
  }

  lemma TakenFromBootstrap(s: State)
    requires Looping(s) && s.bootstrap != []
    ensures Taken(s.(bootstrap := s.bootstrap[1..]), s.bootstrap[0])
  {
    hide Transported;
    TakeBootstrap(s);
    SameTransported(s, s.(bootstrap := s.bootstrap[1..]));
    hide Base;
    assert s.bootstrap[0] == s.bootstrap[0] && s.writes[s.bootstrap[0]].sequence == 1;
  }

  lemma TakenFromReordered(s: State)
    requires Looping(s) && s.nextSequence in s.reordered
    ensures Taken(s.(reordered := s.reordered - {s.nextSequence}), s.reordered[s.nextSequence])
  {
    hide Transported;
    TakeReordered(s, s.nextSequence);
    SameTransported(s, s.(reordered := s.reordered - {s.nextSequence}));
  }

  lemma AdvanceKeeps(s: State)
    requires Looping(s) && Indexed(s)
    ensures Inv(Advance(s))
  {
    hide Accept, FailPending, Transported, Base, Sequenced, Taken;
    var t := s.(gapArmed := s.gapArmed || s.reordered != map[]);
    AdvanceArms(s, t);
    if s.phase.Closed? {
      FailPendingKeeps(t);
    } else if s.bootstrap != [] {
      TakenFromBootstrap(t);
      AcceptKeeps(t.(bootstrap := s.bootstrap[1..]), s.bootstrap[0]);
    } else if s.nextSequence in s.reordered {
      TakenFromReordered(t);
      AcceptKeeps(t.(reordered := s.reordered - {s.nextSequence}), s.reordered[s.nextSequence]);
    } else {
      SameTransported(t, t.(task := Blocked));
      TaskBase(t, Blocked);
      BlockSequenced(t);
    }
  }

  lemma BlockSequenced(s: State)
    requires Sequenced(s) && s.task.Idle?
    ensures Sequenced(s.(task := Blocked))
  {
  }

  lemma AdvanceArms(s: State, t: State)
    requires Looping(s) && t == s.(gapArmed := s.gapArmed || s.reordered != map[])
    ensures Looping(t)
  {
    hide Transported;
    SameTransported(s, t);
    assert forall id: nat :: Places(t, None, id) == Places(s, None, id);
  }

  lemma BaseIndexed(s: State)
    requires Base(s, None)
    ensures Indexed(s)
  {
    forall i | 0 <= i < |s.bootstrap| ensures s.bootstrap[i] < |s.writes| {
      assert Places(s, None, s.bootstrap[i]) == One(s.bootstrap[i] < |s.writes|);
    }
    forall i | 0 <= i < |s.channel| ensures s.channel[i] < |s.writes| {
      assert Places(s, None, s.channel[i]) == One(s.channel[i] < |s.writes|);
    }
    forall id | id in s.admitting ensures id < |s.writes| {
      assert Places(s, None, id) == One(id < |s.writes|);
    }
    if s.task.Writing? {
      assert Places(s, None, s.task.id) == One(s.task.id < |s.writes|);
    }
  }

  /** The message at the front of the channel, in hand, with the loop about to continue. */
  lemma TakenFromChannel(s: State)
    requires Inv(s) && s.task.Blocked? && s.channel != []
    ensures Taken(s.(channel := s.channel[1..], task := Idle), s.channel[0])
    ensures OwnsPermit(s, s.channel[0])
  {
    hide Transported;
    assert s.channel[0] in s.channel;
    TakeChannel(s);
    var t := s.(channel := s.channel[1..]);
    SameTransported(s, s.(channel := s.channel[1..], task := Idle));
    assert forall id: nat :: Places(t.(task := Idle), Some(s.channel[0]), id) == Places(t, Some(s.channel[0]), id);
  }

  /** Buffering a request that arrived early. */
  lemma BufferKeeps(s: State, id: nat)
    requires Taken(s, id) && OwnsPermit(s, id) && !StaleRequest(s, s.writes[id].sequence)
    requires s.writes[id].sequence != s.nextSequence
    ensures Looping(s.(reordered := s.reordered[s.writes[id].sequence := id]))
  {
    hide Base, Transported;
    PutReordered(s, id);
    var t := s.(reordered := s.reordered[s.writes[id].sequence := id]);
    SameTransported(s, t);
    assert s.writes[id].sequence in t.reordered;
  }

  lemma ReceiveKeeps(s: State)
    requires Inv(s) && Indexed(s) && s.task.Blocked? && s.channel != []
    ensures Inv(Receive(s))
  {
    var id := s.channel[0];
    var t := s.(channel := s.channel[1..], task := Idle);
    TakenFromChannel(s);
    ReorderHasRoom(s);
    hide Base, Transported, Sequenced, Accept, Inv, Indexed, StaleRequest;
    if s.writes[id].sequence == s.nextSequence {
      AcceptKeeps(t, id);
    } else if StaleRequest(s, s.writes[id].sequence) {
      DiscardKeeps(t, id, DefinitelyNotWritten);
    } else {
      SameStale(s, t, s.writes[id].sequence);
      BufferKeeps(t, id);
      LoopingInv(t.(reordered := s.reordered[s.writes[id].sequence := id]));
    }
  }

  lemma LoopingInv(s: State)
    requires Looping(s)
    ensures Inv(s)
  {
  }

  lemma SameStale(s: State, t: State, sequence: nat)
    requires t.nextSequence == s.nextSequence && t.reordered == s.reordered
    ensures StaleRequest(t, sequence) == StaleRequest(s, sequence)
  {
  }

  /** The reorder-capacity test can never fire: the received request still owns one of the permits. */
  lemma ReorderHasRoom(s: State)
    requires Base(s, None) && s.channel != []
    ensures |s.reordered| < s.capacity
  {
  }

  /** Nor can the channel be full for a request that was admitted. */
  lemma ChannelHasRoom(s: State, id: nat)
    requires Base(s, None) && id in s.admitting
    ensures !ChannelFull(s)
  {
  }

  /** Reporting on the frame being written. */
  lemma ReportBase(s: State, outcome: Outcome, sent: Bytes, aborted: bool)
    requires Base(s, None) && s.task.Writing? && s.task.id < |s.writes|
    ensures s.task.id !in s.done
    ensures Base(Report(s, outcome, sent, aborted), None)
  {
    var id := s.task.id;
    var t := s.(task := if outcome.Written? then Idle else Stopping, wire := s.wire + sent, aborted := aborted);
    assert Places(s, None, id) == 1;
    forall x: nat ensures Places(t, Some(id), x) == One(x < |t.writes|) {
      assert Places(s, None, x) == One(x < |s.writes|);
    }
    CompleteBase(t, id, outcome);
  }

  /** While a frame is being written, the wire carries exactly the frames before it. */
  lemma WritingWire(s: State)
    requires Transported(s) && s.task.Writing? && s.task.id !in s.done && !s.aborted
    ensures Frames(s) != []
    ensures var frames := Frames(s);
            && Confirmed(s) == frames[..|frames| - 1] && Unsettled(s) == Some(frames[|frames| - 1])
            && AllLegal(Bodies(Confirmed(s)), s.maxFrame) && s.wire == Wire(Bodies(Confirmed(s)), s.maxFrame)
  {
  }

  lemma WrittenTransported(s: State)
    requires Transported(s) && s.task.Writing? && s.task.id < |s.writes| && s.task.id !in s.done && !s.aborted
    requires LegalPayload(Body(Frames(s)[|Frames(s)| - 1]), s.maxFrame)
    ensures var frame := Encode(Body(Frames(s)[|Frames(s)| - 1]), s.maxFrame).value;
            Transported(s.(task := Idle, done := s.done[s.task.id := Written], wire := s.wire + frame))
  {
    WritingWire(s);
    var frames := Frames(s);
    var a, front := frames[|frames| - 1], frames[..|frames| - 1];
    hide Encode, Materialize, LegalPayload, Filter, Wire, AllLegal, Bodies, Body;
    var t := s.(task := Idle, done := s.done[s.task.id := Written], wire := s.wire + Encode(Body(a), s.maxFrame).value);
    assert frames == front + [a];
    assert forall i :: 0 <= i < |frames| ==> Reported(t, frames[i], Written);
    WireSnoc(front, a, s.maxFrame);
    hide Transported;
    AllWritten(t, frames);
  }

  /** Every frame written and nothing else on the wire. */
  lemma AllWritten(t: State, frames: seq<Accepted>)
    requires frames == Frames(t) && t.task.Idle? && !t.aborted
    requires forall i :: 0 <= i < |frames| ==> Reported(t, frames[i], Written)
    requires AllLegal(Bodies(frames), t.maxFrame) && t.wire == Wire(Bodies(frames), t.maxFrame)
    ensures Transported(t)
  {
  }

  lemma UnwrittenTransported(s: State, outcome: Outcome, sent: Bytes, aborted: bool)
    requires Transported(s) && s.task.Writing? && s.task.id < |s.writes| && s.task.id !in s.done && !s.aborted
    requires !outcome.Written? && (sent != [] ==> outcome.Unconfirmed? || aborted)
    requires aborted ==> sent != [] && outcome.DefinitelyNotWritten?
    requires sent != [] ==>
               && LegalPayload(Body(Frames(s)[|Frames(s)| - 1]), s.maxFrame)
               && sent <= Encode(Body(Frames(s)[|Frames(s)| - 1]), s.maxFrame).value
    ensures Transported(s.(task := Stopping, done := s.done[s.task.id := outcome], wire := s.wire + sent,
                           aborted := aborted))
  {
    WritingWire(s);
    hide Encode, Materialize, LegalPayload, Filter, Wire, Bodies;
    var t := s.(task := Stopping, done := s.done[s.task.id := outcome], wire := s.wire + sent, aborted := aborted);
    var frames := Frames(s);
    assert Frames(t) == frames;
    assert Confirmed(t) == Confirmed(s) && Unsettled(t) == Unsettled(s);
    assert t.wire[|s.wire|..] == sent;
  }

  lemma WireSnoc(front: seq<Accepted>, a: Accepted, max: nat)
    requires AllLegal(Bodies(front), max) && LegalPayload(Body(a), max)
    ensures AllLegal(Bodies(front + [a]), max)
    ensures Wire(Bodies(front + [a]), max) == Wire(Bodies(front), max) + Encode(Body(a), max).value
  {
    assert Bodies(front + [a]) == Bodies(front) + [Body(a)];
    WireAppend(Bodies(front), [Body(a)], max);
    WireAppend([Body(a)], [], max);
    assert Wire([Body(a)], max) == Encode(Body(a), max).value + Wire([], max);
    assert Encode(Body(a), max).value + [] == Encode(Body(a), max).value;
  }

  lemma ReportKeeps(s: State, outcome: Outcome, sent: Bytes, aborted: bool)
    requires Inv(s) && s.task.Writing? && s.task.id < |s.writes|
    requires var a := Accepted(s.task.id, s.writes[s.task.id]);
             sent != [] || outcome.Written? ==>
               LegalPayload(Body(a), s.maxFrame) && sent <= Encode(Body(a), s.maxFrame).value
    requires outcome.Written? ==>
               sent == Encode(Body(Accepted(s.task.id, s.writes[s.task.id])), s.maxFrame).value && !aborted
    requires sent != [] && !outcome.Written? ==> outcome.Unconfirmed? || aborted
    requires aborted ==> sent != [] && outcome.DefinitelyNotWritten?
    ensures var t := Report(s, outcome, sent, aborted);
            Base(t, None) && Sequenced(t) && Transported(t) && (!aborted ==> Controlled(t))
  {
    hide Base, Transported, Encode, LegalPayload, Body, Frames;
    ReportBase(s, outcome, sent, aborted);
    WritingFrame(s);
    var t := Report(s, outcome, sent, aborted);
    if outcome.Written? {
      WrittenTransported(s);
      SameTransported(s.(task := Idle, done := s.done[s.task.id := Written], wire := s.wire + sent), t);
    } else {
      UnwrittenTransported(s, outcome, sent, aborted);
      SameTransported(s.(task := Stopping, done := s.done[s.task.id := outcome], wire := s.wire + sent,
                         aborted := aborted), t);
    }
  }

  lemma EndWriteKeeps(s: State, sent: nat, outcome: Outcome)
    requires Inv(s) && s.task.Writing? && s.task.id < |s.writes|
    requires outcome.Written? || outcome.Unconfirmed?
    requires outcome.Written? ==> sent >= FrameLength(s)
    ensures Inv(EndWrite(s, sent, outcome))
  {
    WritingFrame(s);
    hide Base, Transported, Sequenced, Encode, LegalPayload, Body, Frames;
    match Frame(s, s.writes[s.task.id]) {
      case None =>
        ReportKeeps(s, DefinitelyNotWritten, [], false);
        FailingKeeps(Report(s, DefinitelyNotWritten, [], false), Failing);
      case Some(frame) =>
        assert outcome.Written? ==> Front(frame, sent) == frame;
        ReportKeeps(s, outcome, Front(frame, sent), false);
    }
  }

  lemma AbortKeeps(s: State, sent: nat)
    requires Inv(s) && s.task.Writing? && s.task.id < |s.writes|
    ensures Inv(Abort(s, sent))
  {
    WritingFrame(s);
    hide Base, Transported, Sequenced, Encode, LegalPayload, Body, Frames;
    match Frame(s, s.writes[s.task.id]) {
      case None =>
        ReportKeeps(s, DefinitelyNotWritten, [], false);
        FailingKeeps(Report(s, DefinitelyNotWritten, [], false), Failing);
      case Some(frame) =>
        ReportKeeps(s, DefinitelyNotWritten, Front(frame, sent), Front(frame, sent) != []);
        FailingKeeps(Report(s, DefinitelyNotWritten, Front(frame, sent), Front(frame, sent) != []), Failing);
    }
  }

  lemma WritingFrame(s: State)
    requires Sequenced(s) && Transported(s) && s.task.Writing? && s.task.id < |s.writes|
    ensures Frames(s) != [] && Frames(s)[|Frames(s)| - 1] == Accepted(s.task.id, s.writes[s.task.id])
    ensures Frame(s, s.writes[s.task.id]).Some? ==>
              var a := Frames(s)[|Frames(s)| - 1];
              LegalPayload(Body(a), s.maxFrame)
              && Frame(s, s.writes[s.task.id]).value == Encode(Body(a), s.maxFrame).value
  {
    FilterMember(IsFrame, s.accepted, |Frames(s)| - 1);
  }

  /** Producers add requests and shuffle queues but leave the writer's own progress alone. */
  lemma ProducerKeeps(s: State, t: State)
    requires Sequenced(s) && Transported(s) && SameReports(s, t) && t.task == s.task
    requires s.writes <= t.writes && t.nextSequence == s.nextSequence && t.reordered == s.reordered
    requires forall id :: id in t.bootstrap ==> id in s.bootstrap || (id < |t.writes| && t.writes[id].sequence == 1)
    ensures Sequenced(t) && Transported(t)
  {
    hide Transported;
    SameTransported(s, t);
    forall i | 0 <= i < |t.bootstrap|
      ensures t.bootstrap[i] < |t.writes| && t.writes[t.bootstrap[i]].sequence == 1
    {
      assert t.bootstrap[i] in t.bootstrap;
    }
  }

  lemma StageKeeps(s: State, payload: Payload)
    requires Inv(s) && Indexed(s)
    ensures Inv(Apply(s, StageBootstrap(payload)))
  {
    hide Base, Transported, Sequenced;
    var id, w := |s.writes|, Write(1, payload, false, false);
    var t := s.(writes := s.writes + [w]);
    CreateRequest(s, w);
    assert s.(writes := s.writes + [w], permits := s.permits - One(w.permit)) == t;
    FreshNotAccepted(s);
    ProducerKeeps(s, Apply(s, StageBootstrap(payload)));
    if s.phase.Staging? {
      StageBase(t, id);
    } else {
      CompleteBase(t, id, DefinitelyNotWritten);
    }
  }

  lemma FreshNotAccepted(s: State)
    requires Base(s, None) && Sequenced(s)
    ensures forall a :: a in s.accepted ==> a.id != |s.writes|
  {
  }

  lemma StageBase(s: State, id: nat)
    requires id < |s.writes| && Base(s, Some(id)) && !s.writes[id].permit
    ensures Base(s.(bootstrap := s.bootstrap + [id]), None)
  {
    var t := s.(bootstrap := s.bootstrap + [id]);
    assert Places(s, Some(id), id) == 1;
    forall x: nat ensures Places(t, None, x) == One(x < |t.writes|) {
      assert Places(s, Some(id), x) == One(x < |s.writes|);
    }
  }

  lemma CloseKeeps(s: State)
    requires Inv(s)
    ensures Inv(ClosePhase(s))
  {
    hide Base, Transported, Sequenced;
    ClosePhaseBase(s, None);
    ClosePhaseReports(s, None);
    ProducerKeeps(s, ClosePhase(s));
  }

  lemma AdmitKeeps(s: State, sequence: nat, payload: Payload, skip: bool)
    requires Inv(s) && Indexed(s)
    ensures Inv(Apply(s, Admit(sequence, payload, skip)))
  {
    hide Base, Transported, Sequenced, ClosePhase, Indexed;
    if s.permits == 0 {
      CloseKeeps(s);
    } else if sequence <= U64_MAX {
      AdmittedKeeps(s, Write(sequence, payload, skip, true));
    }
  }

  /** A request that obtained a permit joins those being admitted. */
  lemma AdmittedKeeps(s: State, w: Write)
    requires Inv(s) && Indexed(s) && w.permit && 0 < s.permits
    ensures Inv(s.(permits := s.permits - 1, admitting := s.admitting + {|s.writes|}, writes := s.writes + [w]))
  {
    hide Base, Transported, Sequenced, Indexed;
    CreateRequest(s, w);
    var created := s.(writes := s.writes + [w], permits := s.permits - 1);
    assert s.(writes := s.writes + [w], permits := s.permits - One(w.permit)) == created;
    AdmitBase(created, |s.writes|);
    var t := s.(permits := s.permits - 1, admitting := s.admitting + {|s.writes|}, writes := s.writes + [w]);
    assert created.(admitting := created.admitting + {|s.writes|}) == t;
    ProducerKeeps(s, t);
  }

  lemma AdmitBase(s: State, id: nat)
    requires id < |s.writes| && Base(s, Some(id)) && s.writes[id].permit
    ensures Base(s.(admitting := s.admitting + {id}), None)
  {
    var t := s.(admitting := s.admitting + {id});
    assert Places(s, Some(id), id) == 1;
    forall x: nat ensures Places(t, None, x) == One(x < |t.writes|) {
      assert Places(s, Some(id), x) == One(x < |s.writes|);
    }
  }

  lemma OfferBase(s: State, id: nat)
    requires Base(s, None) && Indexed(s) && id in s.admitting
    ensures Base(Apply(s, Offer(id)), None)
  {
    hide Base;
    var t := s.(admitting := s.admitting - {id});
    TakeAdmitted(s, id);
    ChannelHasRoom(s, id);
    AdmittedOwns(s, id);
    if s.closed {
      ClosePhaseBase(t, Some(id));
      CompleteBase(ClosePhase(t), id, DefinitelyNotWritten);
    } else {
      PutChannel(t, id);
    }
  }

  lemma AdmittedOwns(s: State, id: nat)
    requires Base(s, None) && id in s.admitting
    ensures OwnsPermit(s, id)
  {
  }

  lemma OfferKeeps(s: State, id: nat)
    requires Inv(s) && Indexed(s) && id in s.admitting
    ensures Inv(Apply(s, Offer(id)))
  {
    hide Base, Transported, Sequenced;
    OfferBase(s, id);
    ChannelHasRoom(s, id);
    OfferReports(s, id);
    ProducerKeeps(s, Apply(s, Offer(id)));
  }

  lemma OfferReports(s: State, id: nat)
    requires Inv(s) && Indexed(s) && id in s.admitting && !ChannelFull(s)
    ensures SameReports(s, Apply(s, Offer(id)))
  {
    hide Base, Transported, Sequenced, Indexed, Controlled, Apply, ClosePhase;
    PendingNotAccepted(s, None, id);
    ClosePhaseReports(s, None);
    OfferDone(s, id);
  }

  lemma OfferDone(s: State, id: nat)
    requires Indexed(s) && id in s.admitting && !ChannelFull(s)
    ensures var t, c := Apply(s, Offer(id)), ClosePhase(s);
            && t.accepted == s.accepted && t.wire == s.wire && t.maxFrame == s.maxFrame && t.aborted == s.aborted
            && t.done == if s.closed then c.done[id := DefinitelyNotWritten] else s.done
  {
  }

  /** Every atomic section of every participant keeps the invariant. */
  lemma StepKeepsInv(s: State, e: Event)
    requires Inv(s)
    ensures Indexed(s) && Inv(Apply(s, e))
  {
    InvIndexed(s);
    hide Base, Transported, Sequenced, Indexed, Advance, Receive, EndWrite, Abort, FailPending, ClosePhase;
    match e
    case StageBootstrap(payload) => StageKeeps(s, payload);
    case Start => StartKeeps(s);
    case Close => CloseKeeps(s);
    case Admit(sequence, payload, skip) => AdmitKeeps(s, sequence, payload, skip);
    case Offer(id) => if id in s.admitting { OfferKeeps(s, id); }
    case CallNext => if s.task.Idle? && !s.phase.Staging? { AdvanceKeeps(s); }
    case Fire(signal) => FireKeeps(s, signal);
    case WriteAll => if s.task.Writing? { EndWriteKeeps(s, FrameLength(s), Written); }
    case WriteUncertain(sent) => if s.task.Writing? { EndWriteKeeps(s, sent, Unconfirmed); }
    case AbortWrite(sent) => if s.task.Writing? { AbortKeeps(s, sent); }
    case Shut => if s.task.Failing? { ShutKeeps(s); }
    case Drain => if s.task.Draining? { FailPendingKeeps(s); }
    case DropWriter =>
      if s.task.Idle? || s.task.Blocked? || s.task.Stopping? { FailingKeeps(s, Failing); }
  }

  lemma StartKeeps(s: State)
    requires Inv(s) && Indexed(s)
    ensures Inv(Apply(s, Start))
  {
    hide Transported, Sequenced;
    var t := Apply(s, Start);
    StartBase(s, t);
    hide Base, Indexed;
    ProducerKeeps(s, t);
  }

  lemma StartBase(s: State, t: State)
    requires Base(s, None) && t == s.(phase := t.phase)
    ensures Base(t, None)
  {
    assert forall id: nat :: Places(t, None, id) == Places(s, None, id);
  }

  lemma FireKeeps(s: State, signal: Signal)
    requires Inv(s) && Indexed(s)
    ensures Inv(Apply(s, Fire(signal)))
  {
    hide Base, Transported, Sequenced, Receive, FailPending;
    if s.task.Blocked? {
      if signal.Received? {
        if s.channel != [] { ReceiveKeeps(s); }
      } else if signal.PhaseClosed? {
        if s.phase.Closed? { FailPendingKeeps(s); }
      } else {
        FailingKeeps(s, Failing);
      }
    }
  }

  lemma InitInv(capacity: nat, maxFrame: nat, maxMessage: nat)
    ensures Inv(Init(capacity, maxFrame, maxMessage))
  {
  }

  // ---------------------------------------------------------------------
  // A reported outcome is final.

  ghost predicate Grows(s: State, t: State) {
    forall id :: id in s.done ==> id in t.done && t.done[id] == s.done[id]
  }

  lemma ClosePhaseGrows(s: State, hand: Option<nat>)
    requires Base(s, hand)
    ensures Grows(s, ClosePhase(s))
  {
    forall id | id in s.bootstrap ensures id !in s.done {
      assert Places(s, hand, id) == One(id < |s.writes|);
    }
  }

  lemma FailPendingGrows(s: State)
    requires Base(s, None)
    ensures Grows(s, FailPending(s))
  {
    forall id: nat | InReorder(s, id) || id in s.channel ensures id !in s.done {
      assert Places(s, None, id) == One(id < |s.writes|);
    }
  }

  lemma AcceptGrows(s: State, id: nat)
    requires id < |s.writes| && Base(s, Some(id))
    ensures Grows(s, Accept(s, id))
  {
    hide Base;
    HandNotDone(s, id);
  }

  lemma HandNotDone(s: State, id: nat)
    requires Base(s, Some(id))
    ensures id !in s.done
  {
    assert Places(s, Some(id), id) == One(id < |s.writes|);
  }

  lemma AdvanceGrows(s: State)
    requires Looping(s) && Indexed(s)
    ensures Grows(s, Advance(s))
  {
    hide Accept, FailPending, Transported, Base, Sequenced;
    var t := s.(gapArmed := s.gapArmed || s.reordered != map[]);
    AdvanceArms(s, t);
    if s.phase.Closed? {
      FailPendingGrows(t);
    } else if s.bootstrap != [] {
      TakenFromBootstrap(t);
      AcceptGrows(t.(bootstrap := s.bootstrap[1..]), s.bootstrap[0]);
    } else if s.nextSequence in s.reordered {
      TakenFromReordered(t);
      AcceptGrows(t.(reordered := s.reordered - {s.nextSequence}), s.reordered[s.nextSequence]);
    }
  }

  lemma ReceiveGrows(s: State)
    requires Inv(s) && Indexed(s) && s.task.Blocked? && s.channel != []
    ensures Grows(s, Receive(s))
  {
    hide Base, Transported, Sequenced, Controlled, Accept, StaleRequest;
    var id := s.channel[0];
    var t := s.(channel := s.channel[1..], task := Idle);
    TakenFromChannel(s);
    hide Inv, Indexed;
    AcceptGrows(t, id);
    CompleteGrows(t, id, DefinitelyNotWritten);
  }

  lemma ReportGrows(s: State, outcome: Outcome, sent: Bytes, aborted: bool)
    requires Base(s, None) && s.task.Writing? && s.task.id < |s.writes|
    ensures Grows(s, Report(s, outcome, sent, aborted))
  {
    ReportBase(s, outcome, sent, aborted);
    hide Base;
  }

  lemma CompleteGrows(s: State, id: nat, outcome: Outcome)
    requires id < |s.writes| && Base(s, Some(id))
    ensures Grows(s, Complete(s, id, outcome))
  {
    assert Places(s, Some(id), id) == 1;
  }

  lemma OfferGrows(s: State, id: nat)
    requires Base(s, None) && Indexed(s) && id in s.admitting
    ensures Grows(s, Apply(s, Offer(id)))
  {
    hide Base;
    var t := s.(admitting := s.admitting - {id});
    TakeAdmitted(s, id);
    ChannelHasRoom(s, id);
    ClosePhaseGrows(t, Some(id));
    ClosePhaseBase(t, Some(id));
    CompleteGrows(ClosePhase(t), id, DefinitelyNotWritten);
  }

  /** No request is ever completed twice: an outcome once reported stays. */
  lemma StepKeepsReports(s: State, e: Event)
    requires Inv(s) && Indexed(s)
    ensures Grows(s, Apply(s, e))
  {
    hide Base, Transported, Sequenced, Advance, Receive, Report, FailPending, ClosePhase;
    match e
    case StageBootstrap(payload) => FreshNotDone(s);
    case Start =>
    case Close => ClosePhaseGrows(s, None);
    case Admit(sequence, payload, skip) => ClosePhaseGrows(s, None);
    case Offer(id) => if id in s.admitting { OfferGrows(s, id); }
    case CallNext => if s.task.Idle? && !s.phase.Staging? { AdvanceGrows(s); }
    case Fire(signal) =>
      FailPendingGrows(s);
      if s.task.Blocked? && s.channel != [] { ReceiveGrows(s); }
    case WriteAll => EndWriteGrows(s, FrameLength0(s), Written);
    case WriteUncertain(sent) => EndWriteGrows(s, sent, Unconfirmed);
    case AbortWrite(sent) => EndWriteGrows(s, sent, Unconfirmed);
    case Shut => ClosePhaseGrows(s, None);
    case Drain => FailPendingGrows(s);
    case DropWriter =>
  }

  function FrameLength0(s: State): nat
    requires Indexed(s)
  {
    if s.task.Writing? then FrameLength(s) else 0
  }

  lemma FreshNotDone(s: State)
    requires Base(s, None)
    ensures |s.writes| !in s.done
  {
    assert Places(s, None, |s.writes|) == 0;
  }

  lemma EndWriteGrows(s: State, sent: nat, outcome: Outcome)
    requires Inv(s) && Indexed(s)
    ensures s.task.Writing? ==> Grows(s, EndWrite(s, sent, outcome)) && Grows(s, Abort(s, sent))
  {
    hide Base, Transported, Sequenced, Report, Encode;
    if s.task.Writing? {
      ReportGrows(s, DefinitelyNotWritten, [], false);
      match Frame(s, s.writes[s.task.id]) {
        case None =>
        case Some(frame) =>
          ReportGrows(s, outcome, Front(frame, sent), false);
          ReportGrows(s, DefinitelyNotWritten, Front(frame, sent), Front(frame, sent) != []);
      }
    }
  }

  // ---------------------------------------------------------------------
  // What holds after any interleaving.

  /**
    Sequence contiguity and conservation over every run: the accepted sequences
    are exactly 1, 2, 3, ...; every request ever created is in exactly one place;
    of the frames handed to the transport only the last can end other than
    Written; a blocked writer has its gap timer armed exactly when something is
    buffered and never sits on the next sequence; a finished writer has answered
    every request that is not still being admitted.
  */
  lemma WriterRun(capacity: nat, maxFrame: nat, maxMessage: nat, events: seq<Event>)
    ensures Inv(Init(capacity, maxFrame, maxMessage))
    ensures var s := Run(Init(capacity, maxFrame, maxMessage), events);
            && (forall i :: 0 <= i < |s.accepted| ==> s.accepted[i].write.sequence == i + 1)
            && (forall id: nat :: Places(s, None, id) == if id < |s.writes| then 1 else 0)
            && (forall i :: 0 <= i < |Frames(s)| - 1 ==> Reported(s, Frames(s)[i], Written))
            && (s.task.Blocked? ==> s.nextSequence !in s.reordered && (s.gapArmed <==> s.reordered != map[]))
            && (s.task.Ended? && s.admitting == {} ==> forall id: nat :: id < |s.writes| ==> id in s.done)
  {
    InitInv(capacity, maxFrame, maxMessage);
    var s := Run(Init(capacity, maxFrame, maxMessage), events);
    hide Transported, Wire;
    assert Transported(s);
    FramesReported(s);
    if s.task.Ended? && s.admitting == {} {
      forall id: nat | id < |s.writes| ensures id in s.done {
        assert Places(s, None, id) == 1;
      }
    }
  }

  lemma FramesReported(s: State)
    requires Transported(s)
    ensures forall i :: 0 <= i < |Frames(s)| - 1 ==> Reported(s, Frames(s)[i], Written)
  {
  }

  /** Outcomes are final over whole runs. */
  lemma RunKeepsReports(s: State, events: seq<Event>)
    requires Inv(s)
    ensures Grows(s, Run(s, events))
    decreases |events|
  {
    hide Inv, Apply, Indexed;
    if events != [] {
      StepKeepsInv(s, events[0]);
      StepKeepsReports(s, events[0]);
      RunKeepsReports(Apply(s, events[0]), events[1..]);
    }
  }

  /**
    What the peer can decode. Every body reported Written arrives, in sequence
    order and whatever the chunking; at most one more arrives, and then its
    request was reported uncertain (or the writer task was aborted mid-write).
  */
  lemma PeerDecodes(s: State)
    requires Inv(s)
    ensures var p := Parse(s.maxFrame, s.wire);
            && p.error.None?
            && (p.frames == Bodies(Confirmed(s)) || p.frames == Bodies(Frames(s)))
            && (p.frames != Bodies(Confirmed(s)) || p.rest != [] ==>
                  Unsettled(s).Some? && (s.aborted || Reported(s, Unsettled(s).value, Unconfirmed)))
  {
    var sent := Wire(Bodies(Confirmed(s)), s.maxFrame);
    assert s.wire == sent + Tail(s);
    if Tail(s) == [] {
      ParseComplete(s.maxFrame, Bodies(Confirmed(s)), []);
    } else {
      var a := Unsettled(s).value;
      PrefixOfFrame(Body(a), s.maxFrame, Tail(s));
      if Incomplete(Tail(s), s.maxFrame) {
        ParseComplete(s.maxFrame, Bodies(Confirmed(s)), Tail(s));
      } else {
        WireSnoc(Confirmed(s), a, s.maxFrame);
        assert Frames(s) == Confirmed(s) + [a];
        ParseComplete(s.maxFrame, Bodies(Frames(s)), []);
        assert s.wire == Wire(Bodies(Frames(s)), s.maxFrame) + [];
      }
    }
  }

  /** A prefix of a legal frame is an incomplete frame or the whole frame. */
  lemma PrefixOfFrame(payload: Bytes, max: nat, t: Bytes)
    requires LegalPayload(payload, max) && t <= Encode(payload, max).value
    ensures Incomplete(t, max) || t == Encode(payload, max).value
  {
    if 4 <= |t| {
      assert t[..4] == Encode(payload, max).value[..4] == ToBe(|payload|);
    }
  }

  // ---------------------------------------------------------------------
  // Honest reports.

  // ---------------------------------------------------------------------
  // What the writer's turns do.

  /** Everything past admission is answered and the writer is over. */
  ghost predicate AllAnswered(s: State) {
    && s.task.Ended? && s.phase.Closed? && s.bootstrap == [] && s.channel == [] && s.reordered == map[]
    && (forall id: nat :: id < |s.writes| && id !in s.admitting ==> id in s.done)
    && s.permits + |s.admitting| == s.capacity
  }

  /** Requests that wait in a queue or in the reorder buffer. */
  predicate WaitsInQueue(s: State, id: nat) {
    id in s.bootstrap || id in s.channel || InReorder(s, id)
  }

  /** `t` answers everything that waited in `s` as not written, and keeps every earlier answer. */
  ghost predicate Abandons(s: State, t: State) {
    && AllAnswered(t) && Grows(s, t) && t.wire == s.wire && t.accepted == s.accepted && t.admitting == s.admitting
    && (forall id: nat :: WaitsInQueue(s, id) ==> id in t.done && t.done[id] == DefinitelyNotWritten)
  }

  lemma RunThree(s: State, e: Event, f: Event, g: Event)
    requires Inv(s)
    ensures Indexed(s) && Inv(Apply(s, e)) && Indexed(Apply(s, e))
    ensures Inv(Apply(Apply(s, e), f)) && Indexed(Apply(Apply(s, e), f))
    ensures Run(s, [e, f, g]) == Apply(Apply(Apply(s, e), f), g)
  {
    hide Inv, Indexed, Apply, Run;
    StepKeepsInv(s, e);
    var t := Apply(s, e);
    StepKeepsInv(t, f);
    var u := Apply(t, f);
    StepKeepsInv(u, g);
    assert [e, f, g][1..] == [f, g] && [f, g][1..] == [g] && [g][1..] == [];
    RunTail(s, [e, f, g]);
    RunTail(t, [f, g]);
    RunTail(u, [g]);
    RunNothing(Apply(u, g));
  }

  lemma RunTail(s: State, events: seq<Event>)
    requires Inv(s) && events != []
    ensures Indexed(s) && Inv(Apply(s, events[0])) && Run(s, events) == Run(Apply(s, events[0]), events[1..])
  {
    hide Inv, Indexed, Apply;
    StepKeepsInv(s, events[0]);
  }

  lemma RunNothing(s: State)
    requires Inv(s)
    ensures Run(s, []) == s
  {
  }

  /** A finished writer has answered everything and holds no permit. */
  lemma EndedAnswers(t: State)
    requires Inv(t) && t.task.Ended?
    ensures AllAnswered(t)
  {
    EndedDone(t);
    hide Conserved, Transported, Sequenced, Indexed;
    assert |t.reordered| == 0;
  }

  lemma EndedDone(t: State)
    requires Conserved(t, None) && Controlled(t) && t.task.Ended?
    ensures forall id: nat :: id < |t.writes| && id !in t.admitting ==> id in t.done
  {
    forall id: nat | id < |t.writes| && id !in t.admitting ensures id in t.done {
      assert Places(t, None, id) == One(id < |t.writes|);
    }
  }

  /** The effect of failing what is pending, on a writer that is not over. */
  lemma Failed(s: State)
    requires !s.closed
    ensures var t := FailPending(s);
            && t.task == Ended && t.wire == s.wire && t.accepted == s.accepted && t.admitting == s.admitting
            && t.writes == s.writes
            && (forall id: nat :: id < |s.writes| && (id in s.channel || InReorder(s, id)) ==>
                  id in t.done && t.done[id] == DefinitelyNotWritten)
  {
  }

  lemma ClosedNow(s: State)
    requires !s.closed && s.task.Failing? && Indexed(s)
    ensures var u := Apply(s, Shut);
            && u == ClosePhase(s).(task := Draining) && !u.closed
            && u.wire == s.wire && u.accepted == s.accepted && u.admitting == s.admitting && u.channel == s.channel
            && u.reordered == s.reordered && u.writes == s.writes
            && (!s.phase.Closed? ==>
                  forall id :: id in s.bootstrap ==> id in u.done && u.done[id] == DefinitelyNotWritten)
  {
  }

  lemma FailingAbandons(s: State)
    requires Inv(s) && Indexed(s) && s.task.Failing?
    ensures Inv(Apply(s, Shut)) && Indexed(Apply(s, Shut)) && Abandons(s, Apply(Apply(s, Shut), Drain))
  {
    hide Base, Transported, Sequenced, ClosePhase, FailPending, InReorder, AllAnswered, Apply;
    var u := Apply(s, Shut);
    assert !s.closed && (s.phase.Closed? ==> s.bootstrap == []);
    ClosedNow(s);
    StepKeepsInv(s, Shut);
    StepKeepsReports(s, Shut);
    InvIndexed(u);
    StepKeepsInv(u, Drain);
    StepKeepsReports(u, Drain);
    var t := Apply(u, Drain);
    assert t == FailPending(u) by { DrainIs(u); }
    Failed(u);
    EndedAnswers(t);
    hide Indexed, Controlled;
    forall id: nat | WaitsInQueue(s, id) ensures id in t.done && t.done[id] == DefinitelyNotWritten {
      QueuedIndexed(s, id);
      SameReorder(s, u, id);
    }
  }

  lemma DrainIs(u: State)
    requires Indexed(u) && u.task.Draining?
    ensures Apply(u, Drain) == FailPending(u)
  {
  }

  lemma SameReorder(s: State, u: State, id: nat)
    requires u.writes == s.writes && u.reordered == s.reordered
    ensures InReorder(u, id) == InReorder(s, id)
  {
  }

  lemma QueuedIndexed(s: State, id: nat)
    requires Inv(s) && WaitsInQueue(s, id)
    ensures id < |s.writes|
  {
    InvIndexed(s);
    hide Base, Transported, Sequenced, Controlled;
  }

  /** A change of the task alone moves no request. */
  lemma AbandonsFrom(s: State, next: Task, t: State)
    requires Abandons(s.(task := next), t)
    ensures Abandons(s, t)
  {
    hide AllAnswered;
    forall id: nat | WaitsInQueue(s, id) ensures id in t.done && t.done[id] == DefinitelyNotWritten {
      assert WaitsInQueue(s.(task := next), id);
    }
  }

  /** The task turns to failing, shuts and drains. */
  lemma TurnsFailing(s: State, e: Event)
    requires Inv(s) && Indexed(s) && Apply(s, e) == s.(task := Failing)
    ensures Abandons(s, Run(s, [e, Shut, Drain]))
  {
    hide Inv, Indexed, Apply, Run, Abandons;
    RunThree(s, e, Shut, Drain);
    FailingAbandons(Apply(s, e));
    AbandonsFrom(s, Failing, Run(s, [e, Shut, Drain]));
  }

  /**
    A blocked writer is never stuck behind a gap: when its timer elapses (and it is
    armed exactly when something is buffered) it closes, fails everything pending as
    not written with the permits returned, and ends. An unarmed timer does nothing.
  */
  lemma ElapsedGapFailsEverything(s: State)
    requires Inv(s) && s.task.Blocked?
    ensures s.reordered != map[] ==> Abandons(s, Run(s, [Fire(GapElapsed), Shut, Drain]))
    ensures Indexed(s) && (s.reordered == map[] ==> Apply(s, Fire(GapElapsed)) == s)
  {
    hide Base, Transported, Sequenced, Run, Abandons;
    InvIndexed(s);
    if s.reordered != map[] {
      TurnsFailing(s, Fire(GapElapsed));
    }
  }

  /** So it is when the last sender is gone; while one may still send, nothing happens. */
  lemma LostSendersFailEverything(s: State)
    requires Inv(s) && s.task.Blocked?
    ensures s.channel == [] && s.admitting == {} ==> Abandons(s, Run(s, [Fire(SendersGone), Shut, Drain]))
    ensures Indexed(s) && (s.channel != [] || s.admitting != {} ==> Apply(s, Fire(SendersGone)) == s)
  {
    hide Base, Transported, Sequenced, Run, Abandons;
    InvIndexed(s);
    if s.channel == [] && s.admitting == {} {
      TurnsFailing(s, Fire(SendersGone));
    }
  }

  /** Dropping a writer that is not in the middle of a write abandons what is pending. */
  lemma DroppedWriterFailsEverything(s: State)
    requires Inv(s) && (s.task.Idle? || s.task.Blocked? || s.task.Stopping?)
    ensures Abandons(s, Run(s, [DropWriter, Shut, Drain]))
  {
    hide Base, Transported, Sequenced, Run, Abandons;
    InvIndexed(s);
    TurnsFailing(s, DropWriter);
  }

  /** A closed phase ends a blocked or idle writer at once; an open one is no reason to. */
  lemma ClosedPhaseEnds(s: State)
    requires Inv(s) && (s.task.Blocked? || s.task.Idle?)
    ensures Indexed(s)
    ensures s.phase.Closed? ==> Abandons(s, Apply(s, if s.task.Blocked? then Fire(PhaseClosed) else CallNext))
    ensures s.task.Blocked? && !s.phase.Closed? ==> Apply(s, Fire(PhaseClosed)) == s
  {
    hide Base, Transported, Sequenced, FailPending, InReorder, AllAnswered, Indexed, Apply;
    InvIndexed(s);
    ClosedTurn(s);
    if s.phase.Closed? {
      var e := if s.task.Blocked? then Fire(PhaseClosed) else CallNext;
      var u := if s.task.Blocked? then s else s.(gapArmed := s.gapArmed || s.reordered != map[]);
      assert !s.closed && s.bootstrap == [];
      hide Controlled;
      StepKeepsInv(s, e);
      StepKeepsReports(s, e);
      Failed(u);
      EndedAnswers(FailPending(u));
      forall id: nat | WaitsInQueue(s, id)
        ensures id in FailPending(u).done && FailPending(u).done[id] == DefinitelyNotWritten
      {
        QueuedIndexed(s, id);
        SameReorder(s, u, id);
      }
    }
  }

  lemma ClosedTurn(s: State)
    requires Indexed(s) && Controlled(s) && (s.task.Blocked? || s.task.Idle?)
    ensures s.phase.Closed? && s.task.Blocked? ==> Apply(s, Fire(PhaseClosed)) == FailPending(s)
    ensures s.phase.Closed? && s.task.Idle? ==>
              Apply(s, CallNext) == FailPending(s.(gapArmed := s.gapArmed || s.reordered != map[]))
    ensures s.task.Blocked? && !s.phase.Closed? ==> Apply(s, Fire(PhaseClosed)) == s
  {
    hide FailPending, Receive;
  }

  /** How a write ends: written in full, in doubt after a part of it, refused before its first byte, or cut off. */
  lemma WriteEnds(s: State, sent: nat)
    requires Inv(s) && Indexed(s) && s.task.Writing?
    ensures var id, f := s.task.id, Frame(s, s.writes[s.task.id]);
            var all, part, cut := Apply(s, WriteAll), Apply(s, WriteUncertain(sent)), Apply(s, AbortWrite(sent));
            && id in all.done && id in part.done && id in cut.done
            && cut.done[id] == DefinitelyNotWritten && cut.task == Failing
            && (f.None? ==>
                  && all.done[id] == part.done[id] == DefinitelyNotWritten && all.wire == part.wire == s.wire
                  && all.task == part.task == Failing)
            && (f.Some? ==>
                  && all.done[id] == Written && all.wire == s.wire + f.value && all.task == Idle
                  && part.done[id] == Unconfirmed && part.task == Stopping
                  && cut.wire == part.wire == s.wire + f.value[..if sent < |f.value| then sent else |f.value|])
  {
    hide Base, Transported, Sequenced, Encode;
    if Frame(s, s.writes[s.task.id]).Some? {
      var frame := Frame(s, s.writes[s.task.id]).value;
      assert frame[..|frame|] == frame;
    }
  }

  /** One received message: the expected one is accepted, a later one buffered, an outdated one ends the writer. */
  lemma ReceivedMessage(s: State)
    requires Inv(s) && s.task.Blocked? && s.channel != []
    ensures Indexed(s)
    ensures var t, id := Apply(s, Fire(Received)), s.channel[0];
            var q := s.writes[id].sequence;
            && t.channel == s.channel[1..]
            && (q > s.nextSequence && q !in s.reordered ==>
                  t.task == Idle && t.reordered == s.reordered[q := id] && t.done == s.done && t.accepted == s.accepted)
            && (q < s.nextSequence || q in s.reordered ==>
                  && t.task == Failing && t.done == s.done[id := DefinitelyNotWritten] && t.accepted == s.accepted
                  && t.reordered == s.reordered)
            && (q == s.nextSequence < U64_MAX ==>
                  && t.accepted == s.accepted + [Accepted(id, s.writes[id])] && t.nextSequence == q + 1
                  && t.reordered == s.reordered && !t.gapArmed
                  && t.task == (if s.writes[id].skip then Idle else Writing(id))
                  && t.done == (if s.writes[id].skip then s.done[id := DefinitelyNotWritten] else s.done))
  {
    InvIndexed(s);
    ReorderHasRoom(s);
    hide Base, Transported;
  }

  /** The next turn of an idle writer takes the staged request, else the next buffered one, else waits. */
  lemma IdleTurn(s: State)
    requires Inv(s) && s.task.Idle? && s.phase.Started?
    ensures Indexed(s)
    ensures var t := Apply(s, CallNext);
            if s.bootstrap != [] then TakesNext(s, t, s.bootstrap[0]) && t.bootstrap == s.bootstrap[1..]
            else if s.nextSequence in s.reordered then
              TakesNext(s, t, s.reordered[s.nextSequence]) && t.reordered == s.reordered - {s.nextSequence}
            else t == s.(task := Blocked, gapArmed := s.reordered != map[])
  {
    hide Base, Transported, Sequenced, TakesNext;
    InvIndexed(s);
    var u := s.(gapArmed := s.gapArmed || s.reordered != map[]);
    if s.bootstrap != [] {
      AcceptTakes(u.(bootstrap := s.bootstrap[1..]), s.bootstrap[0], s);
    } else if s.nextSequence in s.reordered {
      AcceptTakes(u.(reordered := s.reordered - {s.nextSequence}), s.reordered[s.nextSequence], s);
    }
    hide Accept;
  }

  lemma AcceptTakes(u: State, id: nat, s: State)
    requires id < |u.writes| && u.writes == s.writes && u.accepted == s.accepted && u.done == s.done
    requires u.nextSequence == s.nextSequence
    ensures TakesNext(s, Accept(u, id), id)
    ensures Accept(u, id).bootstrap == u.bootstrap && Accept(u, id).reordered == u.reordered
  {
  }

  /** The request is accepted as the next in sequence, or is out of place and ends the writer. */
  predicate TakesNext(s: State, t: State, id: nat) {
    && id < |s.writes|
    && if s.writes[id].sequence == s.nextSequence != U64_MAX then
         && t.accepted == s.accepted + [Accepted(id, s.writes[id])] && t.nextSequence == s.nextSequence + 1
         && t.task == (if s.writes[id].skip then Idle else Writing(id)) && !t.gapArmed
         && t.done == (if s.writes[id].skip then s.done[id := DefinitelyNotWritten] else s.done)
       else t.accepted == s.accepted && t.task == Failing && t.done == s.done[id := DefinitelyNotWritten]
  }

  /** Opening and closing the gate, and the producers' side. */
  lemma ProducerTurns(s: State, sequence: nat, payload: Payload, skip: bool)
    requires Indexed(s) && sequence <= U64_MAX
    ensures Apply(s, Start).phase == (if s.phase == Staging then Started else s.phase)
    ensures Apply(s, Close).phase == Closed
    ensures s.phase == Staging ==> Apply(s, CallNext) == s
    ensures var t := Apply(s, Admit(sequence, payload, skip));
            && (s.permits == 0 ==> t.phase == Closed && t.writes == s.writes)
            && (0 < s.permits ==>
                  && t.writes == s.writes + [Write(sequence, payload, skip, true)] && t.permits == s.permits - 1
                  && t.admitting == s.admitting + {|s.writes|} && t.phase == s.phase)
    ensures var t := Apply(s, StageBootstrap(payload));
            && t.writes == s.writes + [Write(1, payload, false, false)]
            && (s.phase == Staging ==> t.bootstrap == s.bootstrap + [|s.writes|])
            && (s.phase != Staging ==> t.done == s.done[|s.writes| := DefinitelyNotWritten])
  {
  }

  /** An admitted request enters the channel, or is answered at once by a writer that is over. */
  lemma OfferTurn(s: State, id: nat)
    requires Inv(s) && id in s.admitting
    ensures Indexed(s)
    ensures var t := Apply(s, Offer(id));
            && t.admitting == s.admitting - {id}
            && (!s.closed ==> t.channel == s.channel + [id] && t.done == s.done && t.phase == s.phase)
            && (s.closed ==> t.phase == Closed && id in t.done && t.done[id] == DefinitelyNotWritten
                             && t.permits == s.permits + 1)
  {
    InvIndexed(s);
    ChannelHasRoom(s, id);
    AdmittedOwns(s, id);
    hide Base, Transported, Sequenced, Controlled;
  }

  /** The wire is longer than the frames handed out before this request's. */
  ghost predicate HasBytes(s: State, id: nat) {
    exists i :: 0 <= i < |Frames(s)| && FrameReached(s, i) && Frames(s)[i].id == id
  }

  predicate FrameReached(s: State, i: nat)
    requires i < |Frames(s)|
  {
    var before := Bodies(Frames(s)[..i]);
    AllLegal(before, s.maxFrame) && |Wire(before, s.maxFrame)| < |s.wire|
  }

  /** The outcomes that promise that no byte reached the wire. */
  predicate PromisesNoBytes(o: Outcome) {
    o.DefinitelyNotWritten? || o.Backpressure?
  }

  /** No request that was answered with such a promise has a byte on the wire. */
  ghost predicate Honest(s: State) {
    forall id :: id in s.done && PromisesNoBytes(s.done[id]) ==> !HasBytes(s, id)
  }

  lemma HonestUnlessAborted(s: State)
    requires Inv(s) && !s.aborted
    ensures Honest(s)
  {
    var frames := Frames(s);
    forall id | id in s.done && PromisesNoBytes(s.done[id]) ensures !HasBytes(s, id) {
      forall i | 0 <= i < |frames| && frames[i].id == id ensures !FrameReached(s, i) {
        assert !Reported(s, frames[i], Written) && !Reported(s, frames[i], Unconfirmed);
        assert i == |frames| - 1;
        assert Confirmed(s) == frames[..i] && Tail(s) == [];
      }
    }
  }

  /** A frame reported as written is on the wire. */
  lemma WrittenHasBytes(s: State, i: nat)
    requires Transported(s) && i < |Frames(s)| && Reported(s, Frames(s)[i], Written)
    ensures HasBytes(s, Frames(s)[i].id)
  {
    var frames, confirmed := Frames(s), Confirmed(s);
    assert i < |confirmed| && confirmed[..i] == frames[..i] && confirmed[i] == frames[i];
    var front, back := confirmed[..i], confirmed[i + 1..];
    hide TailExplained, LegalPayload, Encode, Filter;
    FrontOnWire(front, confirmed[i], back, s.maxFrame, confirmed);
    assert FrameReached(s, i);
  }

  lemma FrontOnWire(front: seq<Accepted>, a: Accepted, back: seq<Accepted>, max: nat, all: seq<Accepted>)
    requires all == front + [a] + back && AllLegal(Bodies(all), max)
    ensures AllLegal(Bodies(front), max) && |Wire(Bodies(front), max)| < |Wire(Bodies(all), max)|
  {
    hide LegalPayload, ToBe;
    assert Bodies(all) == Bodies(front) + (Bodies([a]) + Bodies(back));
    assert forall i :: 0 <= i < |front| ==> Bodies(front)[i] == Bodies(all)[i];
    var rest := Bodies([a]) + Bodies(back);
    assert forall i :: 0 <= i < |rest| ==> rest[i] == Bodies(all)[|front| + i];
    WireAppend(Bodies(front), rest, max);
    WireNotEmpty(rest, max);
  }

  lemma WireNotEmpty(payloads: seq<Bytes>, max: nat)
    requires AllLegal(payloads, max) && payloads != []
    ensures Wire(payloads, max) != []
  {
  }

  lemma AbortedIsDishonest(s: State)
    requires Inv(s) && s.aborted
    ensures !Honest(s)
  {
    var frames := Frames(s);
    var i := |frames| - 1;
    assert Confirmed(s) == frames[..i] && Tail(s) != [];
    assert FrameReached(s, i) && HasBytes(s, frames[i].id);
  }

  /** The event drops the writer while a frame is being written and some of it has left. */
  predicate MidWrite(s: State, e: Event) {
    && e.AbortWrite? && 0 < e.sent
    && s.task.Writing? && s.task.id < |s.writes| && Frame(s, s.writes[s.task.id]).Some?
  }

  lemma AcceptAborts(s: State, id: nat)
    requires id < |s.writes|
    ensures Accept(s, id).aborted == s.aborted
  {
  }

  lemma AdvanceAborts(s: State)
    requires Indexed(s)
    ensures Advance(s).aborted == s.aborted
  {
    hide Accept, FailPending;
    var t := s.(gapArmed := s.gapArmed || s.reordered != map[]);
    FailPendingAborts(t);
    if s.bootstrap != [] {
      AcceptAborts(t.(bootstrap := s.bootstrap[1..]), s.bootstrap[0]);
    } else if s.nextSequence in s.reordered {
      AcceptAborts(t.(reordered := s.reordered - {s.nextSequence}), s.reordered[s.nextSequence]);
    }
  }

  lemma FailPendingAborts(s: State)
    ensures FailPending(s).aborted == s.aborted
  {
  }

  lemma ReceiveAborts(s: State)
    requires Indexed(s) && s.channel != []
    ensures Receive(s).aborted == s.aborted
  {
    hide Accept, StaleRequest;
    AcceptAborts(s.(channel := s.channel[1..], task := Idle), s.channel[0]);
  }

  /** Only a mid-write abort raises the flag, and nothing lowers it. */
  lemma StepAborts(s: State, e: Event)
    requires Inv(s) && Indexed(s)
    ensures Apply(s, e).aborted <==> s.aborted || MidWrite(s, e)
  {
    hide Base, Transported, Sequenced, Advance, Receive, FailPending, ClosePhase, EndWrite, Abort, Frame, Encode;
    CloseAborts(s);
    match e
    case CallNext => AdvanceAborts(s);
    case Fire(signal) =>
      FailPendingAborts(s);
      if s.channel != [] { ReceiveAborts(s); }
    case Drain => FailPendingAborts(s);
    case Offer(id) =>
      if id in s.admitting {
        var t := s.(admitting := s.admitting - {id});
        CloseAborts(t);
        CloseAborts(Complete(t, id, Backpressure));
      }
    case WriteAll => if s.task.Writing? { WriteAborts(s, e); }
    case WriteUncertain(_) => if s.task.Writing? { WriteAborts(s, e); }
    case AbortWrite(_) => if s.task.Writing? { WriteAborts(s, e); }
    case _ =>
  }

  lemma WriteAborts(s: State, e: Event)
    requires Inv(s) && Indexed(s) && s.task.Writing?
    requires e.WriteAll? || e.WriteUncertain? || e.AbortWrite?
    ensures Apply(s, e).aborted <==> MidWrite(s, e)
    ensures !s.aborted
  {
    hide Base, Transported, Sequenced, Encode;
    if Frame(s, s.writes[s.task.id]).Some? {
      FrameNotEmpty(s, s.writes[s.task.id]);
    }
    hide Frame;
  }

  lemma CloseAborts(s: State)
    ensures ClosePhase(s).aborted == s.aborted
  {
  }

  lemma FrameNotEmpty(s: State, w: Write)
    requires Frame(s, w).Some?
    ensures Frame(s, w).value != []
  {
  }

  /** Some event of the list aborts a write that has begun. */
  ghost predicate AbortsMidWrite(s: State, events: seq<Event>)
    requires Inv(s)
  {
    exists i :: 0 <= i < |events| && MidWrite(Run(s, events[..i]), events[i])
  }

  lemma {:induction false} RunAborts(s: State, events: seq<Event>)
    requires Inv(s)
    ensures Run(s, events).aborted <==> s.aborted || AbortsMidWrite(s, events)
    decreases |events|
  {
    hide Inv, Apply, Indexed, MidWrite;
    if events != [] {
      var e, rest := events[0], events[1..];
      StepKeepsInv(s, e);
      StepAborts(s, e);
      var t := Apply(s, e);
      RunAborts(t, rest);
      assert events[..0] == [];
      forall i | 0 <= i < |rest| ensures Run(s, events[..i + 1]) == Run(t, rest[..i]) && events[i + 1] == rest[i] {
        assert events[..i + 1][1..] == rest[..i] && events[..i + 1][0] == e;
      }
      if AbortsMidWrite(t, rest) {
        var i :| 0 <= i < |rest| && MidWrite(Run(t, rest[..i]), rest[i]);
        assert MidWrite(Run(s, events[..i + 1]), events[i + 1]);
      }
      if AbortsMidWrite(s, events) {
        var i :| 0 <= i < |events| && MidWrite(Run(s, events[..i]), events[i]);
        if 0 < i {
          assert MidWrite(Run(t, rest[..i - 1]), rest[i - 1]);
        }
      }
    }
  }

  /**
    Over every run: no request answered as not written, or refused for backpressure,
    has a byte on the wire, if and only if no event of the run dropped the writer in
    the middle of a write of which a byte had left.
  */
  lemma ReportsAreHonestIffNeverAborted(capacity: nat, maxFrame: nat, maxMessage: nat, events: seq<Event>)
    ensures Inv(Init(capacity, maxFrame, maxMessage))
    ensures Honest(Run(Init(capacity, maxFrame, maxMessage), events))
       <==> !AbortsMidWrite(Init(capacity, maxFrame, maxMessage), events)
  {
    InitInv(capacity, maxFrame, maxMessage);
    var s := Init(capacity, maxFrame, maxMessage);
    var t := Run(s, events);
    RunAborts(s, events);
    hide Inv, Honest, Run, AbortsMidWrite;
    if t.aborted {
      AbortedIsDishonest(t);
    } else {
      HonestUnlessAborted(t);
    }
  }

  /** The failing family: the aborted request is answered as not written although bytes of it left. */
  lemma AbortMisreports(s: State, sent: nat)
    requires Inv(s) && Indexed(s) && MidWrite(s, AbortWrite(sent))
    ensures var t := Apply(s, AbortWrite(sent));
            && s.task.id in t.done && t.done[s.task.id] == DefinitelyNotWritten && t.wire != s.wire
            && HasBytes(t, s.task.id)
  {
    var e := AbortWrite(sent);
    var t := Apply(s, e);
    FrameNotEmpty(s, s.writes[s.task.id]);
    StepAborts(s, e);
    StepKeepsInv(s, e);
    WritingFrame(s);
    hide Base, Sequenced, Controlled, Frame, Encode;
    AbortReaches(s, t);
  }

  lemma AbortReaches(s: State, t: State)
    requires Transported(s) && Transported(t) && t.aborted && t.accepted == s.accepted && t.maxFrame == s.maxFrame
    requires s.task.Writing?
    ensures HasBytes(t, s.task.id)
  {
    hide Encode, LegalPayload;
    var frames := Frames(t);
    assert frames == Frames(s);
    var i := |frames| - 1;
    assert Confirmed(t) == frames[..i] && Tail(t) != [];
    assert FrameReached(t, i);
  }

  // ---------------------------------------------------------------------
  // Which report is false.

  /** The request whose write was cut off by dropping the writer, after some of it had left. */
  function Severed(s: State): Option<nat> {
    if s.aborted && Unsettled(s).Some? then Some(Unsettled(s).value.id) else None
  }

  /** The one promise of no bytes that is false is the severed request's. */
  lemma OnlySeveredIsMisreported(s: State)
    requires Inv(s)
    ensures forall id :: id in s.done && PromisesNoBytes(s.done[id]) ==> (HasBytes(s, id) <==> Severed(s) == Some(id))
    ensures Severed(s).Some? ==>
              && Severed(s).value < |s.writes| && Severed(s).value in s.done
              && s.done[Severed(s).value] == DefinitelyNotWritten
    ensures s.aborted <==> Severed(s).Some?
  {
    hide Base, Controlled;
    if s.aborted {
      SeveredIsLast(s);
      forall id | id in s.done && PromisesNoBytes(s.done[id]) && Severed(s) != Some(id) ensures !HasBytes(s, id) {
        OthersHonest(s, id);
      }
    } else {
      HonestUnlessAborted(s);
    }
  }

  lemma SeveredIsLast(s: State)
    requires Sequenced(s) && Transported(s) && s.aborted
    ensures Severed(s).Some? && Frames(s) != [] && Severed(s).value == Frames(s)[|Frames(s)| - 1].id
    ensures HasBytes(s, Severed(s).value) && Severed(s).value < |s.writes|
    ensures Severed(s).value in s.done && s.done[Severed(s).value] == DefinitelyNotWritten
  {
    var frames := Frames(s);
    var i := |frames| - 1;
    FilterMember(IsFrame, s.accepted, i);
    assert Confirmed(s) == frames[..i] && Tail(s) != [];
    assert FrameReached(s, i);
  }

  /** Every frame before the last was confirmed. */
  lemma OthersHonest(s: State, id: nat)
    requires Transported(s) && s.aborted && id in s.done && PromisesNoBytes(s.done[id]) && Severed(s) != Some(id)
    ensures !HasBytes(s, id)
  {
    hide TailExplained, FrameReached;
    var frames := Frames(s);
    forall i | 0 <= i < |frames| ensures frames[i].id != id {
      if i < |frames| - 1 {
        assert Reported(s, frames[i], Written);
      }
    }
  }

  /** After an abort nothing more is accepted. */
  lemma AbortedStands(s: State, e: Event)
    requires Inv(s) && Indexed(s) && s.aborted
    ensures Apply(s, e).accepted == s.accepted
  {
    hide Base, Transported, Sequenced, Advance, Receive, Frame, Report;
  }

  /** Only a mid-write abort severs a request, and it stays the severed one. */
  lemma SeveredStep(s: State, e: Event)
    requires Inv(s) && Indexed(s)
    ensures Severed(Apply(s, e)) == if MidWrite(s, e) then Some(s.task.id) else Severed(s)
  {
    var t := Apply(s, e);
    StepKeepsInv(s, e);
    StepAborts(s, e);
    OnlySeveredIsMisreported(s);
    OnlySeveredIsMisreported(t);
    if t.aborted {
      SeveredIsLast(t);
      if s.aborted {
        AbortedStands(s, e);
        SeveredIsLast(s);
      } else {
        WritingFrame(s);
        MidWriteStands(s, e);
      }
    }
    hide Base, Transported, Sequenced, HasBytes, Frame, Apply;
  }

  lemma MidWriteStands(s: State, e: Event)
    requires Indexed(s) && MidWrite(s, e)
    ensures Apply(s, e).accepted == s.accepted
  {
  }
}
