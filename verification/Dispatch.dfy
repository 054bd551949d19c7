/** How a delivery outcome enters the lifecycle of its command. */
module Dispatch {
  import opened Prelude
  import L = Lifecycle
  import D = Delivery
  import R = Rejections

  datatype Uncertainty = Uncertainty(observedAt: int, error: nat)

  function Moved(r: Result<L.Outcome, L.Error>): Result<L.State, L.Error> {
    match r
    case Err(error) => Err(error)
    case Ok(outcome) => Ok(outcome.state)
  }

  /** `next_delivery_state`; `None` when the state does not change. */
  function NextState(c: L.Command, s: L.State, dispatchedAt: int, u: Option<Uncertainty>)
    : Result<Option<L.State>, L.Error>
  {
    var sent := if s.status.Created? then Moved(L.Transition(c, s, L.Dispatch(dispatchedAt))) else Ok(s);
    match sent
    case Err(error) => Err(error)
    case Ok(t) =>
      var settled := if u.Some? && t.status.Dispatched? then
                       Moved(L.Transition(c, t, L.Unconfirm(u.value.observedAt, u.value.error)))
                     else Ok(t);
      match settled
      case Err(error) => Err(error)
      case Ok(next) => Ok(if next != s then Some(next) else None)
  }

  lemma DispatchStep(c: L.Command, s: L.State, at: int)
    requires L.Valid(c, s) && s.status.Created? && s.updatedAt < I64_MAX
    ensures var r := L.Transition(c, s, L.Dispatch(at));
            && (r.Ok? <==> s.createdAt <= at < c.expiresAt)
            && (r.Ok? ==>
                  r.value == L.Applied(s.(status := L.Dispatched, deliveryAttempts := 1, dispatchedAt := Some(at),
                                          lastDeliveryError := None, updatedAt := L.NextVersion(s, at))))
  {
  }

  lemma UnconfirmStep(c: L.Command, s: L.State, u: Uncertainty)
    requires L.Valid(c, s) && s.status.Dispatched? && s.updatedAt < I64_MAX
    requires s.reconcilingAt.None? && s.receivedAt.None?
    ensures var r := L.Transition(c, s, L.Unconfirm(u.observedAt, u.error));
            && (r.Ok? <==> s.dispatchedAt.value <= u.observedAt && u.error != 0)
            && (r.Ok? ==> r.value == L.Applied(s.(status := L.DeliveryUnconfirmed, lastDeliveryError := Some(u.error),
                                                  updatedAt := L.NextVersion(s, u.observedAt))))
  {
  }

  /**
    Committing the delivery of a created command succeeds exactly when the write
    started within the command's life and any uncertainty was observed after it with
    a reason; the command is then dispatched once, at that time.
  */
  lemma DeliveryCommits(c: L.Command, s: L.State, dispatchedAt: int, u: Option<Uncertainty>)
    requires L.Valid(c, s) && s.status.Created? && s.updatedAt < I64_MAX - 1 && c.expiresAt <= I64_MAX
    ensures var r := NextState(c, s, dispatchedAt, u);
            && (r.Ok? <==>
                  s.createdAt <= dispatchedAt < c.expiresAt
                  && (u.Some? ==> dispatchedAt <= u.value.observedAt && u.value.error != 0))
            && (r.Ok? ==>
                  && r.value.Some? && L.Valid(c, r.value.value)
                  && r.value.value.status == (if u.Some? then L.DeliveryUnconfirmed else L.Dispatched)
                  && r.value.value.dispatchedAt == Some(dispatchedAt) && r.value.value.deliveryAttempts == 1)
  {
    DispatchStep(c, s, dispatchedAt);
    var sent := L.Transition(c, s, L.Dispatch(dispatchedAt));
    if sent.Ok? {
      L.TrailingValidationNeverRejects(c, s, L.Dispatch(dispatchedAt));
      var t := sent.value.state;
      assert t.receivedAt.None? && t.reconcilingAt.None? && s.updatedAt < t.updatedAt < I64_MAX;
      if u.Some? {
        UnconfirmStep(c, t, u.value);
        L.TrailingValidationNeverRejects(c, t, L.Unconfirm(u.value.observedAt, u.value.error));
      }
    }
    hide L.Transition, L.Propose, L.Validate;
  }

  /** A dispatched command only takes up an uncertainty; whatever stronger evidence moved on is left alone. */
  lemma LaterDelivery(c: L.Command, s: L.State, dispatchedAt: int, u: Option<Uncertainty>)
    requires L.Valid(c, s) && !s.status.Created? && s.updatedAt < I64_MAX
    ensures var r := NextState(c, s, dispatchedAt, u);
            if s.status.Dispatched? && u.Some? then
              && (r.Ok? <==> 0 <= u.value.observedAt && L.AfterAll(s, u.value.observedAt) && u.value.error != 0)
              && (r.Ok? ==> r.value.Some? && r.value.value.status == L.DeliveryUnconfirmed
                            && r.value.value.lastDeliveryError == Some(u.value.error)
                            && r.value.value.dispatchedAt == s.dispatchedAt)
            else r == Ok(None)
  {
    if s.status.Dispatched? && u.Some? {
      var e := L.Unconfirm(u.value.observedAt, u.value.error);
      if 0 <= u.value.observedAt {
        L.StepsExactly(c, s, e, u.value.observedAt);
      } else {
        L.UnfitIsRefused(c, s, e);
      }
      hide L.Transition;
      if L.Transition(c, s, e).Ok? {
        L.AppliedWrites(c, s, e, u.value.observedAt);
      }
    }
  }

  // ---------------------------------------------------------------------
  // What an outcome does to the command.

  /** The times and the error text a delivery outcome carries. */
  datatype Times = Times(sentAt: int, startedAt: int, observedAt: int, rejectedAt: int, error: nat)

  /** `finish_command`: the new command state, `None` when the outcome writes none or the command has moved on. */
  function Settle(c: L.Command, s: L.State, o: D.Outcome, t: Times): Result<Option<L.State>, L.Error> {
    if !s.status.Created? then Ok(None)
    else match o
      case Accepted => NextState(c, s, t.sentAt, None)
      case Unconfirmed => NextState(c, s, t.startedAt, Some(Uncertainty(t.observedAt, t.error)))
      case Rejected(Expired) =>
        (match Moved(L.Transition(c, s, L.Expire(if t.rejectedAt < c.expiresAt then c.expiresAt else t.rejectedAt)))
          case Ok(next) => Ok(Some(next))
          case Err(error) => Err(error))
      case _ => Ok(None)
  }

  /** The times of an outcome lie within the life of the command. */
  predicate Timely(c: L.Command, s: L.State, t: Times) {
    && s.createdAt <= t.sentAt < c.expiresAt && s.createdAt <= t.startedAt < c.expiresAt
    && t.startedAt <= t.observedAt && t.error != 0
  }

  /** What each outcome makes of a created command: dispatched, dispatched in doubt, expired, or nothing at all. */
  lemma SettledCommand(c: L.Command, s: L.State, o: D.Outcome, t: Times)
    requires L.Valid(c, s) && s.status.Created? && s.updatedAt < I64_MAX - 1 && c.expiresAt <= I64_MAX
    requires Timely(c, s, t)
    ensures var r := Settle(c, s, o, t);
            && r.Ok? && (r.value.None? <==> o != D.Accepted && o != D.Unconfirmed && o != D.Rejected(R.Expired))
            && (o == D.Accepted ==>
                  && r.value.value.status == L.Dispatched && r.value.value.dispatchedAt == Some(t.sentAt)
                  && r.value.value.lastDeliveryError == None)
            && (o == D.Unconfirmed ==>
                  && r.value.value.status == L.DeliveryUnconfirmed && r.value.value.dispatchedAt == Some(t.startedAt)
                  && r.value.value.lastDeliveryError == Some(t.error))
            && (o == D.Rejected(R.Expired) ==>
                  && r.value.value.status == L.Expired && r.value.value.dispatchedAt == None
                  && c.expiresAt <= r.value.value.completedAt.value)
  {
    hide L.Transition, L.Valid;
    if o.Accepted? {
      DeliveryCommits(c, s, t.sentAt, None);
      Dispatches(c, s, t.sentAt);
    } else if o.Unconfirmed? {
      DeliveryCommits(c, s, t.startedAt, Some(Uncertainty(t.observedAt, t.error)));
      Uncertains(c, s, t);
    } else if o == D.Rejected(R.Expired) {
      Expires(c, s, if t.rejectedAt < c.expiresAt then c.expiresAt else t.rejectedAt);
      hide NextState;
    }
  }

  lemma Dispatches(c: L.Command, s: L.State, at: int)
    requires NextState(c, s, at, None).Ok? && s.status.Created?
    ensures NextState(c, s, at, None).value.Some? ==> NextState(c, s, at, None).value.value.lastDeliveryError == None
  {
  }

  lemma Uncertains(c: L.Command, s: L.State, t: Times)
    requires NextState(c, s, t.startedAt, Some(Uncertainty(t.observedAt, t.error))).Ok? && s.status.Created?
    ensures var r := NextState(c, s, t.startedAt, Some(Uncertainty(t.observedAt, t.error))).value;
            r.Some? && r.value.status.DeliveryUnconfirmed? ==> r.value.lastDeliveryError == Some(t.error)
  {
  }

  lemma Expires(c: L.Command, s: L.State, at: int)
    requires L.Valid(c, s) && s.status.Created? && s.updatedAt < I64_MAX - 1 && c.expiresAt <= at
    ensures var r := L.Transition(c, s, L.Expire(at));
            && r.Ok? && r.value.state.status == L.Expired && r.value.state.completedAt == Some(at)
            && r.value.state.dispatchedAt == None
  {
    L.ValidStates(c, s);
    L.StepsExactly(c, s, L.Expire(at), at);
    L.AppliedWrites(c, s, L.Expire(at), at);
    hide L.Transition, L.Valid;
  }

  /** The round of a worker alone, carried through to the command it delivers. */
  lemma RoundSettles(w: D.World, v: nat, result: D.SinkOutcome, note: D.Note, c: L.Command, s: L.State, t: Times)
    requires D.Untried(w, v) && !note.AckRejected?
    requires L.Valid(c, s) && s.status.Created? && s.updatedAt < I64_MAX - 1 && c.expiresAt <= I64_MAX
    requires Timely(c, s, t)
    ensures var events := [D.ClaimWork(v)] + ([D.Prepare(v, None)] + ([D.ClaimOutbox(v, D.Claimed)]
                          + ([D.CallSink(v, result)] + ([D.Finish(v, note)] + []))));
            var decided := D.Run(w, events).workers;
            && v in decided && decided[v].Deciding?
            && var r := Settle(c, s, decided[v].outcome, t);
               match result
               case Written => r.Ok? && r.value.Some? && r.value.value.status == L.Dispatched
               case WriteUncertain => r.Ok? && r.value.Some? && r.value.value.status == L.DeliveryUnconfirmed
               case _ => r == Ok(None)
  {
    D.RoundDecides(w, v, result, note);
    SettledCommand(c, s, D.Reported(result), t);
    hide D.Run, Settle, L.Valid, D.Untried;
  }

  // ---------------------------------------------------------------------
  // Settlements among all other evidence.

  /** What happens to a command's state: a worker settles a delivery outcome, or other evidence arrives. */
  datatype Step = Commit(outcome: D.Outcome, times: Times) | Evidence(evidence: L.Evidence)

  /** A refused step leaves the stored state alone. */
  function After(c: L.Command, s: L.State, step: Step): L.State {
    match step
    case Commit(o, t) =>
      var r := Settle(c, s, o, t);
      if r.Ok? && r.value.Some? then r.value.value else s
    case Evidence(e) =>
      var r := L.Transition(c, s, e);
      if r.Ok? then r.value.state else s
  }

  function Run(c: L.Command, s: L.State, steps: seq<Step>): L.State
    decreases |steps|
  {
    if steps == [] then s else Run(c, After(c, s, steps[0]), steps[1..])
  }

  /** How many of the settlements wrote a state. */
  function Written(c: L.Command, s: L.State, steps: seq<Step>): nat
    decreases |steps|
  {
    if steps == [] then 0
    else
      var t := After(c, s, steps[0]);
      (if steps[0].Commit? && t != s then 1 else 0) + Written(c, t, steps[1..])
  }

  /** What a step stores: the settled or moved state when there is one, else what was stored before. */
  lemma StepStores(c: L.Command, s: L.State, o: D.Outcome, t: Times, e: L.Evidence)
    ensures After(c, s, Commit(o, t)) == match Settle(c, s, o, t) case Ok(Some(next)) => next case _ => s
    ensures After(c, s, Evidence(e)) == match L.Transition(c, s, e) case Ok(outcome) => outcome.state case Err(_) => s
  {
    hide Settle, L.Transition;
  }

  /** A run takes its steps one after the other, and counts the settlements that wrote. */
  lemma RunStep(c: L.Command, s: L.State, step: Step, rest: seq<Step>)
    ensures Run(c, s, []) == s && Run(c, s, [step] + rest) == Run(c, After(c, s, step), rest)
    ensures Written(c, s, []) == 0
    ensures Written(c, s, [step] + rest)
         == Written(c, After(c, s, step), rest) + (if step.Commit? && After(c, s, step) != s then 1 else 0)
  {
    hide After;
    assert ([step] + rest)[1..] == rest;
  }

  function Left(s: L.State): nat {
    if s.status.Created? then 1 else 0
  }

  lemma EvidenceLeft(c: L.Command, s: L.State, e: L.Evidence)
    requires L.Transition(c, s, e).Ok?
    ensures Left(L.Transition(c, s, e).value.state) <= Left(s)
  {
    hide L.Validate, L.ValidateEvidence;
    L.TrailingValidationNeverRejects(c, s, e);
  }

  lemma EvidenceKeeps(c: L.Command, s: L.State, e: L.Evidence)
    requires L.Reached(c, s) && L.Transition(c, s, e).Ok?
    ensures var t := L.Transition(c, s, e).value.state; L.Reached(c, t) && L.Extends(s, t)
  {
    if L.Transition(c, s, e).value.Applied? {
      L.AppliedStep(c, s, e);
    } else {
      hide L.Validate, L.ValidateEvidence;
    }
  }

  lemma NextKeeps(c: L.Command, s: L.State, at: int, u: Option<Uncertainty>)
    requires L.Reached(c, s) && s.status.Created? && NextState(c, s, at, u).Ok? && NextState(c, s, at, u).value.Some?
    ensures var t := NextState(c, s, at, u).value.value;
            L.Reached(c, t) && L.Extends(s, t) && !t.status.Created?
  {
    hide L.Transition, L.Reached, L.Extends;
    EvidenceKeeps(c, s, L.Dispatch(at));
    DispatchMoves(c, s, at);
    var t := L.Transition(c, s, L.Dispatch(at)).value.state;
    if u.Some? {
      var e := L.Unconfirm(u.value.observedAt, u.value.error);
      EvidenceKeeps(c, t, e);
      UnconfirmMoves(c, t, u.value);
      L.ExtendsTransitive(s, t, L.Transition(c, t, e).value.state);
    }
  }

  lemma SettleKeeps(c: L.Command, s: L.State, o: D.Outcome, t: Times)
    requires L.Reached(c, s) && Settle(c, s, o, t).Ok? && Settle(c, s, o, t).value.Some?
    ensures var next := Settle(c, s, o, t).value.value;
            s.status.Created? && L.Reached(c, next) && L.Extends(s, next) && !next.status.Created?
  {
    hide L.Transition, L.Reached, L.Extends, NextState;
    match o
    case Accepted => NextKeeps(c, s, t.sentAt, None);
    case Unconfirmed => NextKeeps(c, s, t.startedAt, Some(Uncertainty(t.observedAt, t.error)));
    case Rejected(reason) =>
      if reason.Expired? {
        var at := if t.rejectedAt < c.expiresAt then c.expiresAt else t.rejectedAt;
        EvidenceKeeps(c, s, L.Expire(at));
        ExpireMoves(c, s, at);
      }
    case _ =>
  }

  lemma ExtendsItself(s: L.State)
    ensures L.Extends(s, s)
  {
  }

  lemma DispatchMoves(c: L.Command, s: L.State, at: int)
    requires s.status.Created? && L.Transition(c, s, L.Dispatch(at)).Ok?
    ensures L.Transition(c, s, L.Dispatch(at)).value.state.status.Dispatched?
  {
    hide L.Validate, L.ValidateEvidence;
  }

  lemma UnconfirmMoves(c: L.Command, s: L.State, u: Uncertainty)
    requires s.status.Dispatched? && L.Transition(c, s, L.Unconfirm(u.observedAt, u.error)).Ok?
    ensures L.Transition(c, s, L.Unconfirm(u.observedAt, u.error)).value.state.status.DeliveryUnconfirmed?
  {
    hide L.Validate, L.ValidateEvidence;
  }

  lemma ExpireMoves(c: L.Command, s: L.State, at: int)
    requires s.status.Created? && L.Transition(c, s, L.Expire(at)).Ok?
    ensures L.Transition(c, s, L.Expire(at)).value.state.status.Expired?
  {
    hide L.Validate, L.ValidateEvidence;
  }

  lemma StepKeeps(c: L.Command, s: L.State, step: Step)
    requires L.Reached(c, s)
    ensures var t := After(c, s, step);
            && L.Reached(c, t) && L.Extends(s, t) && Left(t) <= Left(s)
            && (step.Commit? && t != s ==> Left(t) < Left(s))
  {
    hide L.Transition, L.Reached, L.Extends, Settle;
    ExtendsItself(s);
    match step
    case Commit(o, t) =>
      if Settle(c, s, o, t).Ok? && Settle(c, s, o, t).value.Some? { SettleKeeps(c, s, o, t); }
    case Evidence(e) =>
      if L.Transition(c, s, e).Ok? { EvidenceKeeps(c, s, e); EvidenceLeft(c, s, e); }
  }

  /**
    However many workers settle deliveries of a command, and whatever evidence arrives
    between them: at most one settlement writes, and none of the times already
    recorded, the dispatch included, is ever rewritten.
  */
  lemma {:induction false} CommitsWriteAtMostOnce(c: L.Command, s: L.State, steps: seq<Step>)
    requires L.Reached(c, s)
    ensures var t := Run(c, s, steps);
            && Written(c, s, steps) + Left(t) <= Left(s) <= 1
            && L.Reached(c, t) && L.Extends(s, t)
    decreases |steps|
  {
    hide L.Reached, L.Extends, After;
    if steps == [] {
      ExtendsItself(s);
    } else {
      var t := After(c, s, steps[0]);
      StepKeeps(c, s, steps[0]);
      CommitsWriteAtMostOnce(c, t, steps[1..]);
      L.ExtendsTransitive(s, t, Run(c, t, steps[1..]));
    }
  }

  /** A settlement that wrote is final: after any further evidence, settling any outcome again changes nothing. */
  lemma CommitSticks(c: L.Command, s: L.State, o: D.Outcome, t: Times, steps: seq<Step>, again: D.Outcome, u: Times)
    requires L.Reached(c, s) && Settle(c, s, o, t).Ok? && Settle(c, s, o, t).value.Some?
    ensures Settle(c, Run(c, Settle(c, s, o, t).value.value, steps), again, u) == Ok(None)
  {
    SettleKeeps(c, s, o, t);
    CommitsWriteAtMostOnce(c, Settle(c, s, o, t).value.value, steps);
    hide L.Transition, L.Reached, L.Extends, Run, Written, NextState;
  }
}
