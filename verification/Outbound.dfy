/**
  Delivery over real transports: the workers of `Delivery` call the sinks of
  `Writer`. A worker enqueues the frame of its claimed generation, other
  participants run, and the worker continues with the completion the writer sent.
  What `Delivery` takes for granted, that a reported failure means no bytes, is
  here what the writers actually report.
*/
module Outbound {
  import opened Prelude
  import D = Delivery
  import W = Writer

  /** One accepted sink call: the generation whose frame became this request of this session's writer. */
  datatype Call = Call(generation: nat, session: nat, request: nat)

  /** `waiting` maps a worker that awaits a completion to its call. */
  datatype World = World(
    delivery: D.World,
    writers: map<nat, W.State>,
    calls: seq<Call>,
    waiting: map<nat, nat>)

  datatype Event =
    | Work(step: D.Event)
    | Connect(session: nat, capacity: nat, maxFrame: nat, maxMessage: nat)
    | Transport(session: nat, section: W.Event)
    | Submit(worker: nat, session: nat, sequence: nat, payload: W.Payload, sawClosed: bool)
    | Return(worker: nat)

  function Init(): World {
    World(D.Init(), map[], [], map[])
  }

  /** The worker that takes a step of the processor. */
  function Actor(e: D.Event): Option<nat> {
    match e
    case Disturb(_, _) => None
    case CommandAdvances => None
    case ClaimWork(v) => Some(v)
    case Prepare(v, _) => Some(v)
    case ClaimOutbox(v, _) => Some(v)
    case CallSink(v, _) => Some(v)
    case NoSink(v) => Some(v)
    case Finish(v, _) => Some(v)
    case Conclude(v, _) => Some(v)
    case Fail(v) => Some(v)
    case Crash(v) => Some(v)
  }

  /** What the worker makes of a completion. */
  function SinkOutcomeOf(o: W.Outcome, depth: nat): D.SinkOutcome {
    match o
    case Written => D.Written
    case Backpressure => D.SinkFull(depth)
    case DefinitelyNotWritten => D.DefinitelyNotWritten
    case Unconfirmed => D.WriteUncertain
  }

  function Called(w: World, worker: nat, result: D.SinkOutcome): World {
    w.(delivery := D.Apply(w.delivery, D.CallSink(worker, result)),
       waiting := map v | v in w.waiting && v != worker :: w.waiting[v])
  }

  predicate Ready(w: World, worker: nat) {
    worker in w.delivery.workers && w.delivery.workers[worker].Holding? && worker !in w.waiting
  }

  /** Every writer's queues are well formed. */
  ghost predicate WritersHold(w: World) {
    forall s :: s in w.writers ==> W.Inv(w.writers[s]) && W.Indexed(w.writers[s])
  }

  /** A waiting worker only waits, or dies; nobody else can tell whether its frame is written. */
  function WorkStep(w: World, e: D.Event): World {
    if e.CallSink? then w
    else if Actor(e).None? || Actor(e).value !in w.waiting then w.(delivery := D.Apply(w.delivery, e))
    else if e.Crash? then
      var t := Called(w, e.worker, D.WriteUncertain);
      t.(delivery := D.Apply(t.delivery, e))
    else w
  }

  /** Sequence 1 is the staged greeting's: `bind_wire_message` refuses a reservation below 2. */
  predicate Reserved(sequence: nat) {
    2 <= sequence <= U64_MAX
  }

  /** `enqueue_payload`. The closed check may be outdated when the permit is asked for. */
  function SubmitStep(w: World, worker: nat, session: nat, sequence: nat, payload: W.Payload, sawClosed: bool): World
    requires WritersHold(w) && Ready(w, worker) && session in w.writers && Reserved(sequence)
  {
    var s := w.writers[session];
    var t := w.(writers := w.writers[session := W.Apply(s, W.Admit(sequence, payload, false))]);
    if s.phase.Closed? && sawClosed then Called(w, worker, D.DefinitelyNotWritten)
    else if s.permits == 0 then Called(t, worker, D.SinkFull(s.capacity))
    else
      t.(calls := w.calls + [Call(w.delivery.workers[worker].generation, session, |s.writes|)],
         waiting := w.waiting[worker := |w.calls|])
  }

  /** The worker awaits a completion the writer has sent. */
  predicate Answered(w: World, worker: nat) {
    && worker in w.waiting && w.waiting[worker] < |w.calls|
    && var c := w.calls[w.waiting[worker]];
       c.session in w.writers && c.request in w.writers[c.session].done
  }

  function ReturnStep(w: World, worker: nat): World
    requires Answered(w, worker)
  {
    var c := w.calls[w.waiting[worker]];
    var s := w.writers[c.session];
    Called(w, worker, SinkOutcomeOf(s.done[c.request], s.capacity))
  }

  function Apply(w: World, e: Event): World
    requires WritersHold(w)
  {
    match e
    case Work(step) => WorkStep(w, step)
    case Connect(session, capacity, maxFrame, maxMessage) =>
      if session in w.writers then w
      else w.(writers := w.writers[session := W.Init(capacity, maxFrame, maxMessage)])
    case Transport(session, section) =>
      if session in w.writers then w.(writers := w.writers[session := W.Apply(w.writers[session], section)]) else w
    case Submit(worker, session, sequence, payload, sawClosed) =>
      if Ready(w, worker) && session in w.writers && Reserved(sequence) then
        SubmitStep(w, worker, session, sequence, payload, sawClosed)
      else w
    case Return(worker) => if Answered(w, worker) then ReturnStep(w, worker) else w
  }

  // ---------------------------------------------------------------------
  // The invariant.

  /** A waiting worker still holds the claim of the generation it wrote. */
  predicate Awaits(w: World, worker: nat, i: nat) {
    && worker in w.waiting && w.waiting[worker] == i
    && i < |w.calls| && worker in w.delivery.workers && w.delivery.workers[worker].Holding?
    && w.delivery.workers[worker].generation == w.calls[i].generation
  }

  /** The call is over: the worker counted its bytes, or the writer promised that there are none. */
  predicate Over(w: World, c: Call) {
    && c.generation in w.delivery.sinkCalls
    && (c.generation in w.delivery.bytes
        || (c.session in w.writers && c.request in w.writers[c.session].done
            && W.PromisesNoBytes(w.writers[c.session].done[c.request])))
  }

  ghost predicate CallsHold(w: World) {
    && (forall i, j :: 0 <= i < j < |w.calls| ==> w.calls[i].generation != w.calls[j].generation)
    && (forall v :: v in w.waiting ==> Awaits(w, v, w.waiting[v]))
    && (forall i :: 0 <= i < |w.calls| ==> Over(w, w.calls[i]) || exists v :: Awaits(w, v, i))
  }

  ghost predicate Inv(w: World) {
    D.Inv(w.delivery) && WritersHold(w) && CallsHold(w)
  }

  function Run(w: World, events: seq<Event>): (t: World)
    requires Inv(w)
    ensures Inv(t)
    decreases |events|
  {
    if events == [] then w
    else
      StepKeepsInv(w, events[0]);
      Run(Apply(w, events[0]), events[1..])
  }

  /** Steps of others leave a worker where it is; only sink calls count as such. */
  lemma OthersStand(d: D.World, e: D.Event, v: nat)
    requires Actor(e) != Some(v) && v in d.workers
    ensures v in D.Apply(d, e).workers && D.Apply(d, e).workers[v] == d.workers[v]
  {
    hide D.ChangeRow, D.FinishRow, D.ClaimRow, D.DurableOutcome, D.Decide;
  }

  lemma NoCallNoBytes(d: D.World, e: D.Event)
    requires !e.CallSink?
    ensures D.Apply(d, e).sinkCalls == d.sinkCalls && D.Apply(d, e).bytes == d.bytes
  {
    hide D.ChangeRow, D.FinishRow, D.ClaimRow, D.DurableOutcome, D.Decide;
  }

  /** What a step must keep of the calls made so far. */
  ghost predicate Continues(w: World, t: World) {
    && t.calls == w.calls && (forall v :: v in t.waiting ==> v in w.waiting && t.waiting[v] == w.waiting[v])
    && (forall v :: v in t.waiting && v in w.delivery.workers ==>
          v in t.delivery.workers && t.delivery.workers[v] == w.delivery.workers[v])
    && (forall g :: g in w.delivery.sinkCalls ==> g in t.delivery.sinkCalls)
    && w.delivery.bytes <= t.delivery.bytes
    && (forall s :: s in w.writers ==> s in t.writers && W.Grows(w.writers[s], t.writers[s]))
  }

  lemma OverStays(w: World, t: World, c: Call)
    requires Continues(w, t) && Over(w, c)
    ensures Over(t, c)
  {
  }

  lemma CallsContinue(w: World, t: World)
    requires CallsHold(w) && Continues(w, t)
    requires forall v :: v in w.waiting && v !in t.waiting && w.waiting[v] < |w.calls| ==>
               Over(t, w.calls[w.waiting[v]])
    ensures CallsHold(t)
  {
    hide Over;
    forall i | 0 <= i < |t.calls| ensures Over(t, t.calls[i]) || exists v :: Awaits(t, v, i) {
      if Over(w, w.calls[i]) {
        OverStays(w, t, w.calls[i]);
      } else {
        var v :| Awaits(w, v, i);
        if v in t.waiting {
          assert Awaits(t, v, i);
        }
      }
    }
  }

  lemma GrowsItself(w: World)
    ensures forall s :: s in w.writers ==> W.Grows(w.writers[s], w.writers[s])
  {
  }

  lemma WorkKeeps(w: World, e: D.Event)
    requires Inv(w) && !e.CallSink? && (Actor(e).None? || Actor(e).value !in w.waiting)
    ensures Inv(w.(delivery := D.Apply(w.delivery, e)))
  {
    var t := w.(delivery := D.Apply(w.delivery, e));
    hide D.Inv, D.Apply, CallsHold, Actor, W.Grows, W.Inv, W.Indexed;
    D.StepKeepsInv(w.delivery, e);
    NoCallNoBytes(w.delivery, e);
    forall v | v in t.waiting && v in w.delivery.workers
      ensures v in t.delivery.workers && t.delivery.workers[v] == w.delivery.workers[v]
    {
      OthersStand(w.delivery, e, v);
    }
    GrowsItself(w);
    CallsContinue(w, t);
  }

  /** The end of a sink call keeps the invariant when its outcome is counted as bytes or promises none. */
  lemma CalledKeeps(w: World, v: nat, result: D.SinkOutcome)
    requires Inv(w) && v in w.delivery.workers && w.delivery.workers[v].Holding?
    requires v in w.waiting && w.waiting[v] < |w.calls| ==>
               D.MayHaveBytes(result) || Promised(w, w.calls[w.waiting[v]])
    ensures Inv(Called(w, v, result))
  {
    hide D.Inv, D.Apply, W.Grows, W.Inv, W.Indexed, CallsHold, D.MayHaveBytes, Over, Promised;
    var t, e := Called(w, v, result), D.CallSink(v, result);
    D.StepKeepsInv(w.delivery, e);
    SinkCall(w.delivery, v, result);
    forall u | u in t.waiting && u in w.delivery.workers
      ensures u in t.delivery.workers && t.delivery.workers[u] == w.delivery.workers[u]
    {
      OthersStand(w.delivery, e, u);
    }
    GrowsItself(w);
    if v in w.waiting {
      CallOver(w, v, result);
    }
    CallsContinue(w, t);
  }

  lemma SinkCall(d: D.World, v: nat, result: D.SinkOutcome)
    requires v in d.workers && d.workers[v].Holding?
    ensures var t, g := D.Apply(d, D.CallSink(v, result)), d.workers[v].generation;
            && t.sinkCalls == d.sinkCalls + [g]
            && t.bytes == (if D.MayHaveBytes(result) then d.bytes + {g} else d.bytes)
            && v in t.workers && t.workers[v].Wrote? && t.workers[v].result == result && t.workers[v].generation == g
            && t.rows == d.rows
  {
  }

  lemma CallOver(w: World, v: nat, result: D.SinkOutcome)
    requires CallsHold(w) && v in w.waiting
    requires w.waiting[v] < |w.calls| ==> D.MayHaveBytes(result) || Promised(w, w.calls[w.waiting[v]])
    ensures w.waiting[v] < |w.calls| && Over(Called(w, v, result), w.calls[w.waiting[v]])
  {
    assert Awaits(w, v, w.waiting[v]);
    SinkCall(w.delivery, v, result);
    hide D.Apply, CallsHold;
  }

  predicate Promised(w: World, c: Call) {
    && c.session in w.writers && c.request in w.writers[c.session].done
    && W.PromisesNoBytes(w.writers[c.session].done[c.request])
  }

  /** A section of one writer keeps the invariant: completions are final. */
  lemma TransportKeeps(w: World, session: nat, section: W.Event)
    requires Inv(w) && session in w.writers
    ensures Inv(w.(writers := w.writers[session := W.Apply(w.writers[session], section)]))
  {
    hide D.Inv, W.Inv, W.Apply, W.Indexed, W.Grows, CallsHold;
    var s := w.writers[session];
    var t := w.(writers := w.writers[session := W.Apply(s, section)]);
    W.StepKeepsInv(s, section);
    W.InvIndexed(W.Apply(s, section));
    W.StepKeepsReports(s, section);
    GrowsItself(w);
    CallsContinue(w, t);
  }

  lemma ConnectKeeps(w: World, session: nat, s: W.State)
    requires Inv(w) && session !in w.writers && W.Inv(s)
    ensures Inv(w.(writers := w.writers[session := s]))
  {
    hide D.Inv, W.Inv, W.Indexed, W.Grows, CallsHold;
    W.InvIndexed(s);
    GrowsItself(w);
    CallsContinue(w, w.(writers := w.writers[session := s]));
  }

  /** A worker about to call the sink has not called it for this generation, nor has anyone else. */
  lemma FreshCall(w: World, v: nat)
    requires Inv(w) && Ready(w, v)
    ensures forall i :: 0 <= i < |w.calls| ==> w.calls[i].generation != w.delivery.workers[v].generation
  {
    hide D.RowsHold, D.CallsHold, D.PastDead, W.Inv, W.Indexed;
    assert D.WorkerHolds(w.delivery, w.delivery.workers[v]);
    forall i | 0 <= i < |w.calls| ensures w.calls[i].generation != w.delivery.workers[v].generation {
      if !Over(w, w.calls[i]) {
        var u :| Awaits(w, u, i);
      }
    }
  }

  lemma BeginKeeps(w: World, v: nat, session: nat, request: nat)
    requires Inv(w) && Ready(w, v)
    ensures Inv(w.(calls := w.calls + [Call(w.delivery.workers[v].generation, session, request)],
                   waiting := w.waiting[v := |w.calls|]))
  {
    hide D.Inv, WritersHold, Over, Awaits;
    FreshCall(w, v);
    var c := Call(w.delivery.workers[v].generation, session, request);
    var t := w.(calls := w.calls + [c], waiting := w.waiting[v := |w.calls|]);
    OverSame(w, t);
    assert WritersHold(t) by { SameWriters(w, t); }
    assert Awaits(t, v, |w.calls|) by { AwaitsNow(w, v, c); }
    forall i | 0 <= i < |w.calls| && !Over(w, w.calls[i]) ensures exists u :: Awaits(t, u, i) {
      var u :| Awaits(w, u, i);
      AwaitsStill(w, v, c, u, i);
    }
    forall u | u in w.waiting && u != v ensures Awaits(t, u, t.waiting[u]) {
      AwaitsStill(w, v, c, u, w.waiting[u]);
    }
  }

  lemma SameWriters(w: World, t: World)
    requires WritersHold(w) && t.writers == w.writers
    ensures WritersHold(t)
  {
  }

  lemma AwaitsNow(w: World, v: nat, c: Call)
    requires Ready(w, v) && c.generation == w.delivery.workers[v].generation
    ensures Awaits(w.(calls := w.calls + [c], waiting := w.waiting[v := |w.calls|]), v, |w.calls|)
  {
  }

  lemma AwaitsStill(w: World, v: nat, c: Call, u: nat, i: nat)
    requires Ready(w, v) && Awaits(w, u, i)
    ensures Awaits(w.(calls := w.calls + [c], waiting := w.waiting[v := |w.calls|]), u, i)
  {
  }

  lemma OverSame(w: World, t: World)
    requires t.delivery == w.delivery && t.writers == w.writers
    ensures forall c :: Over(t, c) == Over(w, c)
  {
  }

  lemma SubmitKeeps(w: World, v: nat, session: nat, sequence: nat, payload: W.Payload, sawClosed: bool)
    requires Inv(w) && Ready(w, v) && session in w.writers && Reserved(sequence)
    ensures Inv(SubmitStep(w, v, session, sequence, payload, sawClosed))
  {
    hide Inv, W.Apply, Called;
    WritersOf(w);
    var s := w.writers[session];
    var t := w.(writers := w.writers[session := W.Apply(s, W.Admit(sequence, payload, false))]);
    TransportKeeps(w, session, W.Admit(sequence, payload, false));
    if s.phase.Closed? && sawClosed {
      CalledKeeps(w, v, D.DefinitelyNotWritten);
    } else if s.permits == 0 {
      CalledKeeps(t, v, D.SinkFull(s.capacity));
    } else {
      BeginKeeps(t, v, session, |s.writes|);
    }
  }

  lemma ReturnKeeps(w: World, v: nat)
    requires Inv(w) && Answered(w, v)
    ensures Inv(ReturnStep(w, v))
  {
    hide D.Inv, W.Inv, W.Indexed, Called;
    assert Awaits(w, v, w.waiting[v]);
    var c := w.calls[w.waiting[v]];
    var s := w.writers[c.session];
    CalledKeeps(w, v, SinkOutcomeOf(s.done[c.request], s.capacity));
  }

  lemma WorkStepKeeps(w: World, e: D.Event)
    requires Inv(w)
    ensures Inv(WorkStep(w, e))
  {
    hide D.Inv, D.Apply, W.Inv, W.Indexed;
    if !e.CallSink? {
      if Actor(e).None? || Actor(e).value !in w.waiting {
        WorkKeeps(w, e);
      } else if e.Crash? {
        assert Awaits(w, e.worker, w.waiting[e.worker]);
        CalledKeeps(w, e.worker, D.WriteUncertain);
        WorkKeeps(Called(w, e.worker, D.WriteUncertain), e);
      }
    }
  }

  lemma WritersOf(w: World)
    requires Inv(w)
    ensures WritersHold(w)
  {
  }

  /** Every step of the workers and of the transports keeps the joint invariant. */
  lemma StepKeepsInv(w: World, e: Event)
    requires Inv(w)
    ensures WritersHold(w) && Inv(Apply(w, e))
  {
    hide Inv, WritersHold, WorkStep, SubmitStep, ReturnStep, W.Apply, W.Inv, W.Indexed, W.Init, Ready, Answered;
    WritersOf(w);
    match e
    case Work(step) => WorkStepKeeps(w, step);
    case Connect(session, capacity, maxFrame, maxMessage) =>
      W.InitInv(capacity, maxFrame, maxMessage);
      if session !in w.writers { ConnectKeeps(w, session, W.Init(capacity, maxFrame, maxMessage)); }
    case Transport(session, section) => if session in w.writers { TransportKeeps(w, session, section); }
    case Submit(v, session, sequence, payload, sawClosed) =>
      if Ready(w, v) && session in w.writers && Reserved(sequence) {
        SubmitKeeps(w, v, session, sequence, payload, sawClosed);
      }
    case Return(v) => if Answered(w, v) { ReturnKeeps(w, v); }
  }

  /** A worker that gets its answer reports exactly what the writer said, and its bytes are counted accordingly. */
  lemma ReturnedAnswer(w: World, v: nat)
    requires WritersHold(w) && Answered(w, v) && Awaits(w, v, w.waiting[v])
    ensures var t, c := Apply(w, Return(v)), w.calls[w.waiting[v]];
            var answer, g := w.writers[c.session].done[c.request], c.generation;
            && v !in t.waiting && t.calls == w.calls && t.writers == w.writers
            && v in t.delivery.workers && t.delivery.workers[v].Wrote? && t.delivery.workers[v].generation == g
            && t.delivery.sinkCalls == w.delivery.sinkCalls + [g]
            && (answer == W.Written <==> t.delivery.workers[v].result == D.Written)
            && (answer == W.Unconfirmed <==> t.delivery.workers[v].result == D.WriteUncertain)
            && (answer == W.DefinitelyNotWritten <==> t.delivery.workers[v].result == D.DefinitelyNotWritten)
            && (answer == W.Backpressure <==> t.delivery.workers[v].result.SinkFull?)
            && t.delivery.bytes
               == (if answer == W.Written || answer == W.Unconfirmed then w.delivery.bytes + {g} else w.delivery.bytes)
  {
    hide WritersHold, D.Apply;
    var c := w.calls[w.waiting[v]];
    var s := w.writers[c.session];
    SinkCall(w.delivery, v, SinkOutcomeOf(s.done[c.request], s.capacity));
  }

  /** What a call of the sink does: a closed writer refuses, a full one closes, else the frame becomes one request. */
  lemma SubmittedFrame(w: World, v: nat, session: nat, sequence: nat, payload: W.Payload, sawClosed: bool)
    requires WritersHold(w) && Ready(w, v) && session in w.writers && Reserved(sequence)
    ensures var t, s := Apply(w, Submit(v, session, sequence, payload, sawClosed)), w.writers[session];
            var refused := s.phase == W.Closed && sawClosed;
            && t.writers.Keys == w.writers.Keys
            && (forall k :: k in w.writers && k != session ==> t.writers[k] == w.writers[k])
            && (refused || s.permits == 0 ==>
                  && v in t.delivery.workers && t.delivery.workers[v].Wrote? && t.calls == w.calls && v !in t.waiting
                  && t.delivery.bytes == w.delivery.bytes)
            && (refused ==> t.writers == w.writers && t.delivery.workers[v].result == D.DefinitelyNotWritten)
            && (!refused && s.permits == 0 ==>
                  t.writers[session].phase == W.Closed && t.delivery.workers[v].result == D.SinkFull(s.capacity))
            && (!refused && 0 < s.permits ==>
                  && t.delivery == w.delivery && v in t.waiting && t.waiting[v] == |w.calls|
                  && t.calls == w.calls + [Call(w.delivery.workers[v].generation, session, |s.writes|)]
                  && t.writers[session].writes == s.writes + [W.Write(sequence, payload, false, true)])
  {
    hide W.Inv, W.Indexed, W.Apply, D.Apply;
    var s := w.writers[session];
    W.ProducerTurns(s, sequence, payload, false);
    SinkCall(w.delivery, v, D.DefinitelyNotWritten);
    SinkCall(w.delivery, v, D.SinkFull(s.capacity));
  }

  /** A worker that dies while it waits counts as one whose frame may be written; until then it only waits. */
  lemma WaitingWorker(w: World, v: nat, e: D.Event)
    requires Inv(w) && v in w.waiting && Actor(e) == Some(v)
    ensures var t, g := Apply(w, Work(e)), w.calls[w.waiting[v]].generation;
            && t.calls == w.calls && t.writers == w.writers
            && (e != D.Crash(v) ==> t == w)
            && (e == D.Crash(v) ==>
                  && v !in t.waiting && v !in t.delivery.workers && t.delivery.bytes == w.delivery.bytes + {g}
                  && t.delivery.sinkCalls == w.delivery.sinkCalls + [g] && t.delivery.rows == w.delivery.rows)
  {
    assert Awaits(w, v, w.waiting[v]);
    hide D.Inv, W.Inv, W.Indexed, Over;
  }

  // ---------------------------------------------------------------------
  // One frame per subject.

  /** Bytes of this call's frame are on its session's wire. */
  ghost predicate OnWire(w: World, c: Call) {
    c.session in w.writers && W.HasBytes(w.writers[c.session], c.request)
  }

  /** The write of this call's frame was cut off by dropping its transport, after some of it had left. */
  predicate Cut(w: World, c: Call) {
    c.session in w.writers && W.Severed(w.writers[c.session]) == Some(c.request)
  }

  predicate AnyCut(w: World) {
    exists i :: 0 <= i < |w.calls| && Cut(w, w.calls[i])
  }

  predicate CutBy(w: World, e: Event, c: Call) {
    && e.Transport? && e.session == c.session && e.session in w.writers
    && W.MidWrite(w.writers[e.session], e.section) && w.writers[e.session].task.id == c.request
  }

  /** The event drops a transport in the middle of writing a frame of this subject. */
  predicate CutsOff(w: World, e: Event) {
    exists i :: 0 <= i < |w.calls| && CutBy(w, e, w.calls[i])
  }

  ghost predicate EverCutsOff(w: World, events: seq<Event>)
    requires Inv(w)
  {
    exists i :: 0 <= i < |events| && CutsOff(Run(w, events[..i]), events[i])
  }

  lemma SectionCut(w: World, session: nat, section: W.Event, c: Call)
    requires WritersHold(w) && session in w.writers
    ensures var t := w.(writers := w.writers[session := W.Apply(w.writers[session], section)]);
            Cut(t, c) <==> Cut(w, c) || CutBy(w, Transport(session, section), c)
  {
    hide W.Inv, W.Indexed, W.Apply, W.MidWrite, W.HasBytes, W.Severed;
    var s := w.writers[session];
    W.SeveredStep(s, section);
    WritingNotSevered(s, section);
  }

  lemma WritingNotSevered(s: W.State, section: W.Event)
    requires W.Inv(s)
    ensures W.MidWrite(s, section) ==> s.task.Writing? && W.Severed(s).None?
  {
    hide W.Base, W.Transported, W.Sequenced;
  }

  lemma StepCut(w: World, e: Event, c: Call)
    requires WritersHold(w)
    ensures Cut(Apply(w, e), c) <==> Cut(w, c) || CutBy(w, e, c)
  {
    hide D.Apply, W.Inv, W.Indexed, W.Apply, Cut;
    var t := Apply(w, e);
    match e
    case Work(step) => SameCuts(w, t, c);
    case Return(v) => SameCuts(w, t, c);
    case Connect(session, capacity, maxFrame, maxMessage) =>
      if session !in w.writers { ConnectCut(w, session, capacity, maxFrame, maxMessage, c); }
    case Transport(session, section) =>
      if session in w.writers { SectionCut(w, session, section, c); }
    case Submit(v, session, sequence, payload, sawClosed) =>
      if Ready(w, v) && session in w.writers && Reserved(sequence) {
        var section := W.Admit(sequence, payload, false);
        SectionCut(w, session, section, c);
        if t.writers == w.writers {
          SameCuts(w, t, c);
        } else {
          SameCuts(w.(writers := w.writers[session := W.Apply(w.writers[session], section)]), t, c);
        }
      }
  }

  lemma SameCuts(w: World, t: World, c: Call)
    requires t.writers == w.writers
    ensures Cut(t, c) == Cut(w, c)
  {
  }

  lemma ConnectCut(w: World, session: nat, capacity: nat, maxFrame: nat, maxMessage: nat, c: Call)
    requires session !in w.writers
    ensures Cut(w.(writers := w.writers[session := W.Init(capacity, maxFrame, maxMessage)]), c) == Cut(w, c)
  {
  }

  /** A call that was just accepted names a new request. */
  lemma StepCalls(w: World, e: Event)
    requires WritersHold(w)
    ensures var t := Apply(w, e);
            && w.calls <= t.calls
            && (forall i :: |w.calls| <= i < |t.calls| ==> !Cut(w, t.calls[i]) && !CutBy(w, e, t.calls[i]))
  {
    hide D.Apply, W.Inv, W.Indexed, W.Apply, W.Severed, W.HasBytes, Cut;
    if e.Submit? && e.session in w.writers {
      NewRequestNotCut(w, e.session, w.writers[e.session]);
    }
  }

  lemma NewRequestNotCut(w: World, session: nat, s: W.State)
    requires WritersHold(w) && session in w.writers && s == w.writers[session]
    ensures forall g :: !Cut(w, Call(g, session, |s.writes|))
  {
    hide W.Inv, W.Indexed, W.HasBytes, W.Severed;
    W.OnlySeveredIsMisreported(s);
  }

  lemma StepAnyCut(w: World, e: Event)
    requires WritersHold(w)
    ensures AnyCut(Apply(w, e)) <==> AnyCut(w) || CutsOff(w, e)
  {
    hide Apply, W.Inv, W.Indexed, Cut, CutBy;
    var t := Apply(w, e);
    StepCalls(w, e);
    forall i | 0 <= i < |t.calls| ensures Cut(t, t.calls[i]) <==> Cut(w, t.calls[i]) || CutBy(w, e, t.calls[i]) {
      StepCut(w, e, t.calls[i]);
    }
    assert forall i :: 0 <= i < |w.calls| ==> t.calls[i] == w.calls[i];
  }

  lemma {:induction false} RunAnyCut(w: World, events: seq<Event>)
    requires Inv(w)
    ensures AnyCut(Run(w, events)) <==> AnyCut(w) || EverCutsOff(w, events)
    decreases |events|
  {
    hide Inv, Apply, CutsOff, AnyCut;
    if events != [] {
      var e, rest := events[0], events[1..];
      StepKeepsInv(w, e);
      StepAnyCut(w, e);
      var t := Apply(w, e);
      RunAnyCut(t, rest);
      assert events[..0] == [];
      forall i | 0 <= i < |rest| ensures Run(w, events[..i + 1]) == Run(t, rest[..i]) && events[i + 1] == rest[i] {
        assert events[..i + 1][1..] == rest[..i] && events[..i + 1][0] == e;
      }
      if EverCutsOff(t, rest) {
        var i :| 0 <= i < |rest| && CutsOff(Run(t, rest[..i]), rest[i]);
        assert CutsOff(Run(w, events[..i + 1]), events[i + 1]);
      }
      if EverCutsOff(w, events) {
        var i :| 0 <= i < |events| && CutsOff(Run(w, events[..i]), events[i]);
        if 0 < i {
          assert CutsOff(Run(t, rest[..i - 1]), rest[i - 1]);
        }
      }
    }
  }

  /** No frame of the subject that its writer promised not to have written has a byte on a wire. */
  ghost predicate Truthful(w: World) {
    forall i :: 0 <= i < |w.calls| && Promised(w, w.calls[i]) ==> !OnWire(w, w.calls[i])
  }

  lemma PromiseBroken(w: World, c: Call)
    requires WritersHold(w)
    ensures Promised(w, c) && OnWire(w, c) <==> Cut(w, c)
  {
    hide W.Inv, W.Indexed, W.HasBytes, W.Severed;
    if c.session in w.writers {
      W.OnlySeveredIsMisreported(w.writers[c.session]);
    }
  }

  lemma InitInv()
    ensures Inv(Init())
  {
    assert D.Inv(D.Init());
  }

  /**
    What `Delivery` assumes of its sinks holds, over every run of workers and
    transports, if and only if no event of the run drops a transport in the middle
    of writing a frame of this subject.
  */
  lemma SinksAreTruthfulIffNeverCutOff(events: seq<Event>)
    ensures Inv(Init())
    ensures Truthful(Run(Init(), events)) <==> !EverCutsOff(Init(), events)
  {
    InitInv();
    RunAnyCut(Init(), events);
    var w := Run(Init(), events);
    assert WritersHold(w);
    hide Run, Inv, WritersHold, EverCutsOff, Promised, OnWire, Cut;
    forall i | 0 <= i < |w.calls| ensures Promised(w, w.calls[i]) && OnWire(w, w.calls[i]) <==> Cut(w, w.calls[i]) {
      PromiseBroken(w, w.calls[i]);
    }
  }

  /** A worker that holds a claim holds that of the current generation. */
  lemma HoldsCurrent(d: D.World, v: nat)
    requires D.Inv(d) && v in d.workers && d.workers[v].Holding?
    ensures d.workers[v].generation == d.work.generation
  {
    hide D.RowsHold, D.CallsHold, D.Open, D.Alone;
    var g := d.workers[v].generation;
    assert D.WorkerHolds(d, d.workers[v]);
    assert !D.Unheld(d, g);
    assert !D.Dead(d, g);
    assert !(0 < g < d.work.generation);
  }

  lemma OnWireIsCurrent(w: World, i: nat)
    requires Inv(w) && i < |w.calls| && OnWire(w, w.calls[i]) && !Cut(w, w.calls[i])
    ensures w.calls[i].generation == w.delivery.work.generation
  {
    var c := w.calls[i];
    PromiseBroken(w, c);
    hide D.Inv, W.Inv, W.Indexed, OnWire, Cut;
    if Over(w, c) {
      D.CurrentBytes(w.delivery, c.generation);
    } else {
      var v :| Awaits(w, v, i);
      HoldsCurrent(w.delivery, v);
    }
  }

  /**
    At most once, end to end. Over every interleaving of crashing and racing workers
    with the sections of any number of transports: unless a transport is dropped in
    the middle of writing one of the subject's frames, at most one of these frames,
    over all its message ids and all sessions, ever has a byte on a wire, and it is
    the frame of the current generation.
  */
  lemma OneFrameOnTheWire(events: seq<Event>)
    ensures Inv(Init())
    ensures !EverCutsOff(Init(), events) ==>
              var w := Run(Init(), events);
              && (forall i :: 0 <= i < |w.calls| && OnWire(w, w.calls[i]) ==>
                    w.calls[i].generation == w.delivery.work.generation)
              && (forall i, j :: 0 <= i < j < |w.calls| ==> !OnWire(w, w.calls[i]) || !OnWire(w, w.calls[j]))
  {
    InitInv();
    RunAnyCut(Init(), events);
    if !EverCutsOff(Init(), events) {
      var w := Run(Init(), events);
      hide Run, D.Inv, WritersHold, OnWire, Cut, EverCutsOff, Over, Awaits;
      forall i | 0 <= i < |w.calls| && OnWire(w, w.calls[i])
        ensures w.calls[i].generation == w.delivery.work.generation
      {
        OnWireIsCurrent(w, i);
      }
    }
  }

  // ---------------------------------------------------------------------
  // The condition is needed: a transport dropped in the middle of a write sends twice.

  /** The events lead from one world to the other. */
  ghost predicate Leads(w: World, events: seq<Event>, t: World) {
    Inv(w) && Run(w, events) == t
  }

  lemma {:induction false} RunSnoc(w: World, events: seq<Event>, e: Event)
    requires Inv(w)
    ensures Run(w, events + [e]) == Apply(Run(w, events), e)
    decreases |events|
  {
    hide Inv, Apply;
    if events == [] {
      assert events + [e] == [e] && [e][1..] == [];
      StepKeepsInv(w, e);
      RunNothing(Apply(w, e));
    } else {
      StepKeepsInv(w, events[0]);
      assert (events + [e])[1..] == events[1..] + [e];
      RunSnoc(Apply(w, events[0]), events[1..], e);
    }
  }

  lemma RunNothing(w: World)
    requires Inv(w)
    ensures Run(w, []) == w
  {
  }

  lemma LeadsOn(w: World, events: seq<Event>, t: World, e: Event, u: World)
    requires Leads(w, events, t) && Inv(t) && Apply(t, e) == u
    ensures Leads(w, events + [e], u) && Inv(u)
  {
    hide Inv, Apply, Run;
    RunSnoc(w, events, e);
    StepKeepsInv(t, e);
  }

  /** A writer with room for one frame: it sends its staged greeting, then receives request 1 and starts on it. */
  const Greeting := W.Write(1, W.Ready([0]), false, false)
  const Staged := W.Init(1, 1, 1).(writes := [Greeting], bootstrap := [0])
  const Opened := Staged.(phase := W.Started)
  const Greets :=
    Opened.(bootstrap := [], nextSequence := 2, accepted := [W.Accepted(0, Greeting)], task := W.Writing(0))
  const Greeted :=
    Greets.(task := W.Idle, done := map[0 := W.Written], wire := W.Frame(Greets, Greeting).value)
  const Request := W.Write(2, W.Ready([0]), false, true)
  const Admitted := Greeted.(permits := 0, admitting := {1}, writes := [Greeting, Request])
  const Offered := Admitted.(admitting := {}, channel := [1])
  const Selecting := Offered.(task := W.Blocked)
  const Sending :=
    Selecting.(channel := [], nextSequence := 3, accepted := [W.Accepted(0, Greeting), W.Accepted(1, Request)],
               task := W.Writing(1))

  lemma WriterOpens()
    ensures W.Indexed(W.Init(1, 1, 1)) && W.Apply(W.Init(1, 1, 1), W.StageBootstrap(W.Ready([0]))) == Staged
    ensures W.Indexed(Staged) && W.Apply(Staged, W.Start) == Opened
  {
    hide W.Frame;
  }

  lemma WriterTakesGreeting()
    ensures W.Indexed(Opened) && W.Apply(Opened, W.CallNext) == Greets
  {
    hide W.Frame;
  }

  lemma WriterGreets()
    ensures W.Indexed(Greets) && W.Apply(Greets, W.WriteAll) == Greeted
  {
    hide W.Frame;
    var frame := W.Frame(Greets, Greeting).value;
    assert [] + frame == frame && frame[..|frame|] == frame;
  }

  lemma WriterAdmits()
    ensures W.Indexed(Greeted) && W.Apply(Greeted, W.Admit(2, W.Ready([0]), false)) == Admitted
    ensures W.Indexed(Admitted) && W.Apply(Admitted, W.Offer(1)) == Offered
  {
  }

  lemma WriterReceives()
    ensures W.Indexed(Offered) && W.Apply(Offered, W.CallNext) == Selecting
    ensures W.Indexed(Selecting) && W.Apply(Selecting, W.Fire(W.Received)) == Sending
    ensures W.Indexed(Sending)
  {
  }

  /** A worker has enqueued its frame on a new session, whose writer is now sending it. */
  function DuringSend(w: World, v: nat, session: nat, s: W.State): World {
    var g, n := w.delivery.work.generation, w.delivery.work.revision + 1;
    World(D.During(w.delivery, v, Some(D.ClaimedRow), D.Holding(n, g, 1, 1), None),
          w.writers[session := s], w.calls + [Call(g, session, 1)], w.waiting[v := |w.calls|])
  }

  predicate Fresh(w: World, v: nat, session: nat) {
    D.Untried(w.delivery, v) && v !in w.waiting && session !in w.writers
  }

  /** A session is connected and its greeting written. */
  lemma Connects(w: World, session: nat) returns (events: seq<Event>)
    requires Inv(w) && session !in w.writers
    ensures var t := w.(writers := w.writers[session := Greeted]);
            Leads(w, events, t) && Inv(t)
  {
    hide W.Apply, W.Indexed, Run, Inv, Leads;
    WriterOpens();
    WriterTakesGreeting();
    WriterGreets();
    var w0 := w.(writers := w.writers[session := W.Init(1, 1, 1)]);
    LeadsItself(w);
    LeadsOn(w, [], w, Connect(session, 1, 1, 1), w0);
    events := [] + [Connect(session, 1, 1, 1)];
    Section(w, events, session, W.Init(1, 1, 1), W.StageBootstrap(W.Ready([0])), Staged);
    events := events + [Transport(session, W.StageBootstrap(W.Ready([0])))];
    Section(w, events, session, Staged, W.Start, Opened);
    events := events + [Transport(session, W.Start)];
    Section(w, events, session, Opened, W.CallNext, Greets);
    events := events + [Transport(session, W.CallNext)];
    Section(w, events, session, Greets, W.WriteAll, Greeted);
    events := events + [Transport(session, W.WriteAll)];
  }

  lemma Section(w: World, events: seq<Event>, session: nat, s: W.State, section: W.Event, t: W.State)
    requires Leads(w, events, w.(writers := w.writers[session := s])) && Inv(w.(writers := w.writers[session := s]))
    requires W.Indexed(s) && W.Apply(s, section) == t
    ensures Leads(w, events + [Transport(session, section)], w.(writers := w.writers[session := t]))
    ensures Inv(w.(writers := w.writers[session := t]))
  {
    hide Leads, Inv, W.Apply, W.Indexed, Run;
    var a := w.(writers := w.writers[session := s]);
    assert a.writers[session := t] == w.writers[session := t];
    WritersOf(a);
    LeadsOn(w, events, a, Transport(session, section), w.(writers := w.writers[session := t]));
  }

  lemma Enqueues(w: World, v: nat, session: nat) returns (events: seq<Event>)
    requires Inv(w) && Fresh(w, v, session)
    ensures Leads(w, events, DuringSend(w, v, session, Admitted)) && Inv(DuringSend(w, v, session, Admitted))
  {
    hide D.During, D.Apply, W.Apply, Run, Inv, Leads, D.Untried;
    D.RoundBegins(w.delivery, v);
    D.RoundClaims(w.delivery, v);
    var g, n := w.delivery.work.generation, w.delivery.work.revision + 1;
    var d1 := D.During(w.delivery, v, None, D.Starting(n, g), None);
    var d2 := D.During(w.delivery, v, Some(D.NewRow), D.Prepared(n, g, 0, 0), None);
    var d3 := D.During(w.delivery, v, Some(D.ClaimedRow), D.Holding(n, g, 1, 1), None);
    var w2 := w.(writers := w.writers[session := Greeted]);
    events := Connects(w, session);
    LeadsOn(w, events, w2, Work(D.ClaimWork(v)), w2.(delivery := d1));
    events := events + [Work(D.ClaimWork(v))];
    LeadsOn(w, events, w2.(delivery := d1), Work(D.Prepare(v, None)), w2.(delivery := d2));
    events := events + [Work(D.Prepare(v, None))];
    LeadsOn(w, events, w2.(delivery := d2), Work(D.ClaimOutbox(v, D.Claimed)), w2.(delivery := d3));
    events := events + [Work(D.ClaimOutbox(v, D.Claimed))];
    var submit := Submit(v, session, 2, W.Ready([0]), false);
    Submits(w, w2.(delivery := d3), v, session);
    LeadsOn(w, events, w2.(delivery := d3), submit, DuringSend(w, v, session, Admitted));
    events := events + [submit];
  }

  lemma LeadsItself(w: World)
    requires Inv(w)
    ensures Leads(w, [], w)
  {
  }

  lemma Submits(w: World, t: World, v: nat, session: nat)
    requires Inv(t) && v !in w.waiting
    requires t == w.(writers := w.writers[session := Greeted], delivery := DuringSend(w, v, session, Admitted).delivery)
    ensures Apply(t, Submit(v, session, 2, W.Ready([0]), false)) == DuringSend(w, v, session, Admitted)
  {
    WriterAdmits();
    hide W.Apply, W.Indexed, W.Inv, D.Inv;
    assert Ready(t, v);
    assert t.writers[session := Admitted] == w.writers[session := Admitted];
  }

  /** From there the writer starts sending the frame. */
  lemma Sends(w: World, v: nat, session: nat) returns (events: seq<Event>)
    requires Inv(w) && Fresh(w, v, session)
    ensures Leads(w, events, DuringSend(w, v, session, Sending)) && Inv(DuringSend(w, v, session, Sending))
  {
    hide W.Apply, Run, Inv, Leads, D.During;
    WriterAdmits();
    WriterReceives();
    events := Enqueues(w, v, session);
    Moves(w, events, v, session, Admitted, W.Offer(1), Offered);
    events := events + [Transport(session, W.Offer(1))];
    Moves(w, events, v, session, Offered, W.CallNext, Selecting);
    events := events + [Transport(session, W.CallNext)];
    Moves(w, events, v, session, Selecting, W.Fire(W.Received), Sending);
    events := events + [Transport(session, W.Fire(W.Received))];
  }

  /** One section of the session's writer. */
  lemma Moves(w: World, events: seq<Event>, v: nat, session: nat, s: W.State, section: W.Event, t: W.State)
    requires Leads(w, events, DuringSend(w, v, session, s)) && Inv(DuringSend(w, v, session, s))
    requires W.Indexed(s) && W.Apply(s, section) == t
    ensures Leads(w, events + [Transport(session, section)], DuringSend(w, v, session, t))
    ensures Inv(DuringSend(w, v, session, t))
  {
    MovesWriter(w, v, session, s, section, t);
    hide Leads, Inv, Apply, DuringSend;
    LeadsOn(w, events, DuringSend(w, v, session, s), Transport(session, section), DuringSend(w, v, session, t));
  }

  lemma MovesWriter(w: World, v: nat, session: nat, s: W.State, section: W.Event, t: W.State)
    requires Inv(DuringSend(w, v, session, s)) && W.Indexed(s) && W.Apply(s, section) == t
    ensures Apply(DuringSend(w, v, session, s), Transport(session, section)) == DuringSend(w, v, session, t)
  {
    hide W.Apply, W.Indexed, W.Inv, D.Inv, D.During;
    var a := DuringSend(w, v, session, s);
    assert a.writers[session := t] == w.writers[session := t];
  }

  /** What the transport reports and leaves on the wire when it is dropped after the first byte. */
  lemma SendingAborts()
    requires W.Inv(Sending) && W.Indexed(Sending)
    ensures var t := W.Apply(Sending, W.AbortWrite(1));
            1 in t.done && t.done[1] == W.DefinitelyNotWritten && W.HasBytes(t, 1)
  {
    assert W.MidWrite(Sending, W.AbortWrite(1));
    W.AbortMisreports(Sending, 1);
  }

  /** The frame is written in full. */
  lemma SendingWrites()
    requires W.Inv(Sending) && W.Indexed(Sending)
    ensures var t := W.Apply(Sending, W.WriteAll);
            1 in t.done && t.done[1] == W.Written && W.HasBytes(t, 1)
  {
    hide W.Apply, W.Base, W.Sequenced, W.Transported, W.Controlled, Filter;
    var t := W.Apply(Sending, W.WriteAll);
    W.StepKeepsInv(Sending, W.WriteAll);
    SendingDone();
    SendingFrames(W.Accepted(0, Greeting), W.Accepted(1, Request));
    W.WrittenHasBytes(t, 1);
  }

  lemma SendingDone()
    requires W.Indexed(Sending)
    ensures var t := W.Apply(Sending, W.WriteAll);
            t.accepted == Sending.accepted && 1 in t.done && t.done[1] == W.Written
  {
  }

  lemma SendingFrames(a: W.Accepted, b: W.Accepted)
    requires W.IsFrame(a) && W.IsFrame(b)
    ensures Filter(W.IsFrame, [a, b]) == [a, b]
  {
    FilterNone(W.IsFrame);
    FilterCons(W.IsFrame, b, []);
    FilterCons(W.IsFrame, a, [b]);
    assert [b] + [] == [b] && [a] + [b] == [a, b];
  }

  /** The state after the aborted attempt: the next message id is due. */
  lemma AbortedEnds(w: World, v: nat, session: nat) returns (events: seq<Event>, t: World)
    requires Inv(w) && Fresh(w, v, session) && w.delivery.work.generation + 1 < I64_MAX
    ensures Leads(w, events, t) && Inv(t)
    ensures D.Untried(t.delivery, v) && t.delivery.work.generation == w.delivery.work.generation + 1
    ensures t.waiting == w.waiting && t.writers.Keys == w.writers.Keys + {session}
    ensures t.calls == w.calls + [Call(w.delivery.work.generation, session, 1)]
    ensures OnWire(t, t.calls[|w.calls|]) && Promised(t, t.calls[|w.calls|])
  {
    assert D.Inv(w.delivery);
    hide W.Apply, W.Inv, W.Indexed, W.HasBytes, Run, Inv, Leads, D.Inv, D.Untried, DuringSend;
    var dead;
    events, dead := Aborts(w, v, session);
    var more;
    more, t := Retries(w, v, session, dead);
    LeadsAppend(w, events, DuringSend(w, v, session, dead), more, t);
    events := events + more;
  }

  lemma Aborts(w: World, v: nat, session: nat) returns (events: seq<Event>, dead: W.State)
    requires Inv(w) && Fresh(w, v, session)
    ensures Leads(w, events, DuringSend(w, v, session, dead)) && Inv(DuringSend(w, v, session, dead))
    ensures 1 in dead.done && dead.done[1] == W.DefinitelyNotWritten && W.HasBytes(dead, 1)
  {
    hide W.Apply, W.Inv, W.Indexed, W.HasBytes, Run, Inv, Leads, D.Inv, D.Untried, Apply, DuringSend;
    events := Sends(w, v, session);
    WriterReceives();
    assert W.Inv(Sending) by { WriterOf(w, v, session, Sending); }
    SendingAborts();
    dead := W.Apply(Sending, W.AbortWrite(1));
    Moves(w, events, v, session, Sending, W.AbortWrite(1), dead);
    events := events + [Transport(session, W.AbortWrite(1))];
  }

  lemma Retries(w: World, v: nat, session: nat, dead: W.State) returns (events: seq<Event>, t: World)
    requires D.Inv(w.delivery) && Inv(DuringSend(w, v, session, dead)) && W.HasBytes(dead, 1)
    requires Fresh(w, v, session) && w.delivery.work.generation + 1 < I64_MAX
    requires 1 in dead.done && dead.done[1] == W.DefinitelyNotWritten
    ensures Leads(DuringSend(w, v, session, dead), events, t) && Inv(t)
    ensures D.Untried(t.delivery, v) && t.delivery.work.generation == w.delivery.work.generation + 1
    ensures t.waiting == w.waiting && t.writers.Keys == w.writers.Keys + {session}
    ensures t.calls == w.calls + [Call(w.delivery.work.generation, session, 1)]
    ensures OnWire(t, t.calls[|w.calls|]) && Promised(t, t.calls[|w.calls|])
  {
    ReturnsUnwritten(w, v, session, dead);
    ReturnedOnWire(w, v, session, dead);
    var b, c := DuringSend(w, v, session, dead), Returned(w, v, session, dead);
    hide W.HasBytes, Run, Inv, Leads, D.Inv, D.Untried, Apply, D.During, DuringSend, Returned, OnWire, Promised;
    LeadsItself(b);
    LeadsOn(b, [], b, Return(v), c);
    events, t := RetriesUnwritten(w, v, c);
    LeadsAppend(b, [] + [Return(v)], c, events, t);
    events := [] + [Return(v)] + events;
    SameWires(c, t);
  }

  lemma SameWires(w: World, t: World)
    requires t.writers == w.writers
    ensures forall c :: OnWire(t, c) == OnWire(w, c)
    ensures forall c :: Promised(t, c) == Promised(w, c)
  {
  }

  /** The worker has the writer's answer that nothing was written. */
  function Returned(w: World, v: nat, session: nat, s: W.State): World {
    World(NotWritten(w.delivery, v), w.writers[session := s],
          w.calls + [Call(w.delivery.work.generation, session, 1)], w.waiting)
  }

  function NotWritten(d: D.World, v: nat): D.World {
    var wrote := D.Wrote(d.work.revision + 1, d.work.generation, 1, 1, D.DefinitelyNotWritten);
    D.During(d, v, Some(D.ClaimedRow), wrote, Some(D.DefinitelyNotWritten))
  }

  lemma ReturnedOnWire(w: World, v: nat, session: nat, s: W.State)
    requires W.HasBytes(s, 1) && 1 in s.done && s.done[1] == W.DefinitelyNotWritten
    ensures var c := Returned(w, v, session, s);
            && c.delivery == NotWritten(w.delivery, v)
            && c.waiting == w.waiting && c.writers.Keys == w.writers.Keys + {session}
            && c.calls == w.calls + [Call(w.delivery.work.generation, session, 1)]
            && OnWire(c, c.calls[|w.calls|]) && Promised(c, c.calls[|w.calls|])
  {
    hide W.HasBytes;
  }

  lemma WriterOf(w: World, v: nat, session: nat, s: W.State)
    requires Inv(DuringSend(w, v, session, s))
    ensures W.Inv(s)
  {
    assert DuringSend(w, v, session, s).writers[session] == s;
  }

  lemma ReturnsUnwritten(w: World, v: nat, session: nat, s: W.State)
    requires Inv(DuringSend(w, v, session, s)) && D.Untried(w.delivery, v) && v !in w.waiting
    requires 1 in s.done && s.done[1] == W.DefinitelyNotWritten
    ensures Apply(DuringSend(w, v, session, s), Return(v)) == Returned(w, v, session, s)
  {
    hide W.Apply, W.Inv, W.Indexed, D.Inv, D.Apply, D.During, D.Untried;
    D.RoundWrites(w.delivery, v, D.DefinitelyNotWritten);
    var b := DuringSend(w, v, session, s);
    assert b.calls[|w.calls|] == Call(w.delivery.work.generation, session, 1);
    assert Answered(b, v);
    assert (map u | u in b.waiting && u != v :: b.waiting[u]) == w.waiting;
  }

  /** The worker is about to conclude an attempt that was not written. */
  function Undecided(d: D.World, v: nat): D.World {
    var after := D.RowAfter(D.DefinitelyNotWritten, D.NoNote);
    D.During(d, v, Some(after), D.Deciding(d.work.revision + 1, d.work.generation, D.DurableOutcome(after)),
             Some(D.DefinitelyNotWritten))
  }

  lemma RetryDue(d: D.World, v: nat)
    requires D.Inv(d) && D.Untried(d, v) && d.work.generation + 1 < I64_MAX
    ensures var t := D.Apply(Undecided(d, v), D.Conclude(v, true));
            D.Untried(t, v) && t.work.generation == d.work.generation + 1
  {
    assert d.work.generation + 1 !in d.rows;
    hide D.Inv;
    D.RoundConcludes(d, v, D.DefinitelyNotWritten, D.NoNote);
    Concluded(Undecided(d, v), v);
    hide D.Apply;
  }

  lemma Concluded(d: D.World, v: nat)
    requires v in d.workers && d.workers[v].Deciding?
    ensures v !in D.Apply(d, D.Conclude(v, true)).workers
  {
    hide D.Decide;
  }

  /** The worker records the failure and makes the next generation due. */
  lemma RetriesUnwritten(w: World, v: nat, c: World) returns (events: seq<Event>, t: World)
    requires Inv(c) && D.Inv(w.delivery) && D.Untried(w.delivery, v) && v !in c.waiting
    requires w.delivery.work.generation + 1 < I64_MAX
    requires c.delivery == NotWritten(w.delivery, v)
    ensures Leads(c, events, t) && Inv(t) && t == c.(delivery := t.delivery)
    ensures D.Untried(t.delivery, v) && t.delivery.work.generation == w.delivery.work.generation + 1
  {
    hide D.Apply, D.Inv, D.During, Run, Inv, Leads, D.DurableOutcome, D.Untried;
    var d5 := Undecided(w.delivery, v);
    D.RoundFinishes(w.delivery, v, D.DefinitelyNotWritten, D.NoNote);
    RetryDue(w.delivery, v);
    LeadsItself(c);
    LeadsOn(c, [], c, Work(D.Finish(v, D.NoNote)), c.(delivery := d5));
    t := c.(delivery := D.Apply(d5, D.Conclude(v, true)));
    LeadsOn(c, [] + [Work(D.Finish(v, D.NoNote))], c.(delivery := d5), Work(D.Conclude(v, true)), t);
    events := [] + [Work(D.Finish(v, D.NoNote))] + [Work(D.Conclude(v, true))];
  }

  lemma {:induction false} LeadsAppend(w: World, a: seq<Event>, t: World, b: seq<Event>, u: World)
    requires Leads(w, a, t) && Leads(t, b, u)
    ensures Leads(w, a + b, u)
    decreases |a|
  {
    hide Inv, Apply;
    if a == [] {
      assert a + b == b;
    } else {
      StepKeepsInv(w, a[0]);
      assert (a + b)[1..] == a[1..] + b;
      LeadsAppend(Apply(w, a[0]), a[1..], t, b, u);
    }
  }

  /**
    A run in which a transport is dropped after the first byte of a frame, which is
    reported as not written, and a second message id of the same subject is then
    written in full on another session. Both frames follow their session's greeting.
  */
  lemma AbortSendsTwice() returns (events: seq<Event>)
    ensures Inv(Init())
    ensures var w := Run(Init(), events);
            && |w.calls| == 2 && w.calls[0].generation != w.calls[1].generation
            && OnWire(w, w.calls[0]) && OnWire(w, w.calls[1])
            && Promised(w, w.calls[0]) && Confirmed(w, w.calls[1])
  {
    InitInv();
    assert Fresh(Init(), 1, 0);
    var t;
    events, t := AbortedEnds(Init(), 1, 0);
    var more := Sends(t, 1, 1);
    WriterReceives();
    WriterOf(t, 1, 1, Sending);
    hide W.Apply, W.Inv, W.Indexed, W.HasBytes, Run, Inv, Leads, D.During, OnWire, Promised, Confirmed;
    SendingWrites();
    var sent := W.Apply(Sending, W.WriteAll);
    var u := DuringSend(t, 1, 1, sent);
    Moves(t, more, 1, 1, Sending, W.WriteAll, sent);
    LeadsAppend(Init(), events, t, more + [Transport(1, W.WriteAll)], u);
    events := events + (more + [Transport(1, W.WriteAll)]);
    StillOnWire(t, 1, sent);
    assert Run(Init(), events) == u by { LeadsMeans(Init(), events, u); }
  }

  /** The call's frame was reported as written. */
  predicate Confirmed(w: World, c: Call) {
    && c.session in w.writers && c.request in w.writers[c.session].done
    && w.writers[c.session].done[c.request] == W.Written
  }

  lemma LeadsMeans(w: World, events: seq<Event>, t: World)
    requires Leads(w, events, t)
    ensures Inv(w) && Run(w, events) == t
  {
  }

  lemma StillOnWire(t: World, session: nat, sent: W.State)
    requires |t.calls| == 1 && OnWire(t, t.calls[0]) && Promised(t, t.calls[0]) && session != t.calls[0].session
    requires W.HasBytes(sent, 1) && 1 in sent.done && sent.done[1] == W.Written
    ensures var u := DuringSend(t, 1, session, sent);
            && OnWire(u, u.calls[0]) && OnWire(u, u.calls[1])
            && Promised(u, u.calls[0]) && Confirmed(u, u.calls[1])
  {
    hide W.HasBytes;
  }
}
