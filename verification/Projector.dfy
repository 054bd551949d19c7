/**
  Projection of execution plans: leg and plan statuses recomputed from command
  states and recorded execution events.
*/
module Projector {
  import opened Prelude
  import L = Lifecycle
  import Topology

  datatype LegStatus =
    | Pending
    | Sent
    | DeliveryUnconfirmed
    | Reconciling
    | ManualReconciliationRequired
    | CommandReceived
    | Accepted
    | Rejected
    | OrderSent
    | PartiallyFilled
    | Filled
    | Failed
    | Expired
    | Cancelled

  datatype PlanStatus =
    | PlanPending
    | PlanReconciling
    | PlanManual
    | PlanPartial
    | PlanCompleted
    | PlanFailed
    | PlanExpired
    | PlanCancelled

  datatype LegDefinition = LegDefinition(
    id: nat, symbol: nat, trades: bool, lots: Option<L.Amount>, sl: Option<L.Amount>, tp: Option<L.Amount>,
    ratio: L.Amount, dependency: seq<nat>)

  datatype Leg = Leg(definition: LegDefinition, status: LegStatus)

  datatype FailurePolicy = CancelAll | PartialFill | RetryLegs

  datatype Rollback = CloseFilledLegs | NoRollback

  datatype PlanDefinition = PlanDefinition(
    id: nat, account: nat, strategy: nat, simultaneous: bool, failurePolicy: FailurePolicy,
    rollback: Option<Rollback>)

  datatype Plan = Plan(
    definition: PlanDefinition, legs: seq<Leg>, status: PlanStatus, filledLegs: seq<nat>, failedLegs: seq<nat>)

  datatype Error = IdentityMismatch | UnsupportedCardinality | DeliveryFailedDeferred | EmptyPlan

  // ---------------------------------------------------------------------
  // One leg.

  predicate Owned(plan: nat, account: nat, leg: nat, c: L.State) {
    c.account == account && c.plan == Some(plan) && c.leg == Some(leg)
  }

  /** The per-event checks of `project_leg`, except that ids must differ. */
  predicate Fits(plan: nat, account: nat, leg: LegDefinition, c: L.State, e: L.ExecutionEvent) {
    && e.id != 0 && e.command == c.id && e.account == account && e.plan == Some(plan) && e.leg == c.leg
    && e.symbol == leg.symbol && c.createdAt <= e.eventAt
    && (if L.IsFill(e.status) then
          && e.filledAt.Some? && e.filledLots.Some? && e.filledLots.value.kind.Positive?
          && c.createdAt <= e.filledAt.value <= e.eventAt
        else e.filledAt.None?)
    && L.NonNegative(e.requestedLots) && L.NonNegative(e.fillPrice)
    && L.NonNegative(e.filledLots) && L.NonNegative(e.remainingLots)
  }

  function EventIds(events: seq<L.ExecutionEvent>): seq<nat> {
    seq(|events|, i requires 0 <= i < |events| => events[i].id)
  }

  predicate HasStatus(events: seq<L.ExecutionEvent>, status: L.EventStatus) {
    exists i :: 0 <= i < |events| && events[i].status == status
  }

  function LifecycleStatus(s: L.Status): LegStatus
    requires !s.DeliveryFailed?
  {
    match s
    case Created => Pending
    case Dispatched => Sent
    case DeliveryUnconfirmed => DeliveryUnconfirmed
    case Reconciling => Reconciling
    case ManualReconciliationRequired => ManualReconciliationRequired
    case CommandReceived => CommandReceived
    case Accepted => Accepted
    case Rejected => Rejected
    case OrderSent => OrderSent
    case PartiallyFilled => PartiallyFilled
    case Filled => Filled
    case Failed => Failed
    case Expired => Expired
    case Cancelled => Cancelled
  }

  /** Recorded fills outrank the lifecycle. */
  function StatusFrom(c: L.State, events: seq<L.ExecutionEvent>): LegStatus
    requires !c.status.DeliveryFailed?
  {
    if HasStatus(events, L.EventFilled) then Filled
    else if HasStatus(events, L.EventPartiallyFilled) then PartiallyFilled
    else LifecycleStatus(c.status)
  }

  predicate AllFit(plan: nat, account: nat, leg: LegDefinition, c: L.State, events: seq<L.ExecutionEvent>) {
    forall i :: 0 <= i < |events| ==> Fits(plan, account, leg, c, events[i])
  }

  function ProjectedLeg(plan: nat, account: nat, leg: Leg, states: seq<L.State>, events: seq<L.ExecutionEvent>)
    : Result<Leg, Error>
  {
    if |states| != 1 then Err(UnsupportedCardinality)
    else
      var c := states[0];
      if !Owned(plan, account, leg.definition.id, c) then Err(IdentityMismatch)
      else if !AllFit(plan, account, leg.definition, c, events) || !Distinct(EventIds(events)) then
        Err(IdentityMismatch)
      else if c.status.DeliveryFailed? then Err(DeliveryFailedDeferred)
      else Ok(leg.(status := StatusFrom(c, events)))
  }

  /** `project_leg`: one pass over the events with two flags and the set of ids seen. */
  method ProjectLeg(plan: nat, account: nat, leg: Leg, states: seq<L.State>, events: seq<L.ExecutionEvent>)
    returns (r: Result<Leg, Error>)
    ensures r == ProjectedLeg(plan, account, leg, states, events)
  {
    if |states| != 1 {
      return Err(UnsupportedCardinality);
    }
    var c := states[0];
    if !Owned(plan, account, leg.definition.id, c) {
      return Err(IdentityMismatch);
    }
    hide Fits, StatusFrom;
    var seen: set<nat> := {};
    var partial, full := false, false;
    for i := 0 to |events|
      invariant seen == set k | 0 <= k < i :: events[k].id
      invariant AllFit(plan, account, leg.definition, c, events[..i]) && Distinct(EventIds(events[..i]))
      invariant partial <==> HasStatus(events[..i], L.EventPartiallyFilled)
      invariant full <==> HasStatus(events[..i], L.EventFilled)
    {
      var e := events[i];
      if e.id in seen || !Fits(plan, account, leg.definition, c, e) {
        RejectEvent(plan, account, leg.definition, c, events, i);
        return Err(IdentityMismatch);
      }
      AcceptEvent(events, i);
      seen := seen + {e.id};
      partial := partial || e.status == L.EventPartiallyFilled;
      full := full || e.status == L.EventFilled;
    }
    assert events[..|events|] == events;
    if c.status.DeliveryFailed? {
      return Err(DeliveryFailedDeferred);
    }
    var status := if full then Filled else if partial then PartiallyFilled else LifecycleStatus(c.status);
    StatusIs(c, events);
    return Ok(leg.(status := status));
  }

  lemma StatusIs(c: L.State, events: seq<L.ExecutionEvent>)
    requires !c.status.DeliveryFailed?
    ensures StatusFrom(c, events) == if HasStatus(events, L.EventFilled) then Filled
                                     else if HasStatus(events, L.EventPartiallyFilled) then PartiallyFilled
                                     else LifecycleStatus(c.status)
  {
  }

  lemma RejectEvent(plan: nat, account: nat, leg: LegDefinition, c: L.State, events: seq<L.ExecutionEvent>, i: nat)
    requires i < |events|
    requires !Fits(plan, account, leg, c, events[i]) || exists k :: 0 <= k < i && events[k].id == events[i].id
    ensures !AllFit(plan, account, leg, c, events) || !Distinct(EventIds(events))
  {
    if k :| 0 <= k < i && events[k].id == events[i].id {
      assert EventIds(events)[k] == EventIds(events)[i];
    }
  }

  lemma AcceptEvent(events: seq<L.ExecutionEvent>, i: nat)
    requires i < |events| && Distinct(EventIds(events[..i])) && forall k :: 0 <= k < i ==> events[k].id != events[i].id
    ensures Distinct(EventIds(events[..i + 1])) && events[..i + 1] == events[..i] + [events[i]]
    ensures forall s :: HasStatus(events[..i + 1], s) <==> HasStatus(events[..i], s) || events[i].status == s
  {
    assert EventIds(events[..i + 1]) == EventIds(events[..i]) + [events[i].id];
    forall s ensures HasStatus(events[..i + 1], s) <==> HasStatus(events[..i], s) || events[i].status == s {
      if HasStatus(events[..i], s) {
        var k :| 0 <= k < i && events[..i][k].status == s;
        assert events[..i + 1][k].status == s;
      }
      if events[i].status == s {
        assert events[..i + 1][i].status == s;
      }
      var seen := events[..i + 1];
      if HasStatus(seen, s) {
        var k :| 0 <= k < |seen| && seen[k].status == s;
        assert k < i ==> events[..i][k].status == s;
      }
    }
  }

  // ---------------------------------------------------------------------
  // A plan.

  predicate OfLeg(leg: Option<nat>, id: nat) {
    leg == Some(id)
  }

  function StatesOf(states: seq<L.State>, leg: nat): seq<L.State> {
    Filter((s: L.State) => OfLeg(s.leg, leg), states)
  }

  function EventsOf(events: seq<L.ExecutionEvent>, leg: nat): seq<L.ExecutionEvent> {
    Filter((e: L.ExecutionEvent) => OfLeg(e.leg, leg), events)
  }

  function ProjectedAt(d: PlanDefinition, leg: Leg, states: seq<L.State>,
                       events: seq<L.ExecutionEvent>): Result<Leg, Error>
  {
    ProjectedLeg(d.id, d.account, leg, StatesOf(states, leg.definition.id), EventsOf(events, leg.definition.id))
  }

  /** The legs projected in plan order, up to the first error. */
  function ProjectedLegs(d: PlanDefinition, legs: seq<Leg>, states: seq<L.State>, events: seq<L.ExecutionEvent>)
    : (r: Result<seq<Leg>, Error>)
    ensures r.Ok? ==> |r.value| == |legs|
    ensures r.Ok? <==> forall i :: 0 <= i < |legs| ==> ProjectedAt(d, legs[i], states, events).Ok?
    ensures r.Ok? ==> forall i :: 0 <= i < |legs| ==> r.value[i] == ProjectedAt(d, legs[i], states, events).value
  {
    if legs == [] then Ok([])
    else match ProjectedAt(d, legs[0], states, events)
      case Err(error) => Err(error)
      case Ok(leg) =>
        match ProjectedLegs(d, legs[1..], states, events)
        case Err(error) => Err(error)
        case Ok(rest) =>
          assert forall i :: 0 < i < |legs| ==> legs[i] == legs[1..][i - 1];
          Ok([leg] + rest)
  }

  predicate Exposed(s: LegStatus) {
    s.PartiallyFilled? || s.Filled?
  }

  predicate Lost(s: LegStatus) {
    s.Rejected? || s.Failed?
  }

  predicate TerminalLeg(s: LegStatus) {
    s.Rejected? || s.Filled? || s.Failed? || s.Expired? || s.Cancelled?
  }

  function Summary(legs: seq<Leg>, which: LegStatus -> bool): seq<nat> {
    if legs == [] then []
    else (if which(legs[0].status) then [legs[0].definition.id] else []) + Summary(legs[1..], which)
  }

  predicate All(legs: seq<Leg>, s: LegStatus) {
    forall i :: 0 <= i < |legs| ==> legs[i].status == s
  }

  predicate Any(legs: seq<Leg>, s: LegStatus) {
    exists i :: 0 <= i < |legs| && legs[i].status == s
  }

  /** `derive_execution_plan_status`. */
  function DerivedStatus(legs: seq<Leg>): PlanStatus {
    if legs == [] then PlanPending
    else if All(legs, Filled) then PlanCompleted
    else if All(legs, Cancelled) then PlanCancelled
    else if All(legs, Expired) then PlanExpired
    else if Any(legs, ManualReconciliationRequired) then PlanManual
    else if Any(legs, PartiallyFilled) || (Any(legs, Filled) && !All(legs, Filled)) then PlanPartial
    else if forall i :: 0 <= i < |legs| ==> TerminalLeg(legs[i].status) then PlanFailed
    else if Any(legs, DeliveryUnconfirmed) || Any(legs, Reconciling) then PlanReconciling
    else PlanPending
  }

  function Summarized(p: Plan): Plan {
    p.(filledLegs := Summary(p.legs, Exposed), failedLegs := Summary(p.legs, Lost), status := DerivedStatus(p.legs))
  }

  predicate PositiveAmount(a: Option<L.Amount>) {
    a.Some? ==> a.value.kind.Positive?
  }

  predicate ValidLeg(d: LegDefinition) {
    && d.id != 0 && d.symbol != 0 && d.ratio.kind.Positive?
    && PositiveAmount(d.lots) && PositiveAmount(d.sl) && PositiveAmount(d.tp)
    && (d.trades ==> d.lots.Some?)
  }

  function Nodes(legs: seq<Leg>): seq<Topology.Leg> {
    seq(|legs|, i requires 0 <= i < |legs| => Topology.Leg(legs[i].definition.id, legs[i].definition.dependency))
  }

  /** The part of plan validity that does not depend on statuses. */
  ghost predicate ValidDefinitions(p: Plan) {
    var nodes := Nodes(p.legs);
    var ids := Topology.Ids(nodes);
    && p.definition.id != 0 && p.definition.account != 0 && p.definition.strategy != 0 && p.legs != []
    && (forall i :: 0 <= i < |p.legs| ==> ValidLeg(p.legs[i].definition))
    && Distinct(ids)
    && (p.definition.simultaneous ==> Topology.NoDependencies(nodes))
    && Topology.AllSound(nodes, Elements(ids))
    && !Topology.Cyclic(Topology.Graph(Elements(ids), nodes))
  }

  /** `ExecutionPlan::validate`. */
  ghost predicate ValidPlan(p: Plan) {
    && ValidDefinitions(p)
    && p.filledLegs == Summary(p.legs, Exposed) && p.failedLegs == Summary(p.legs, Lost)
    && p.status == DerivedStatus(p.legs)
  }

  method ValidatePlan(p: Plan) returns (ok: bool)
    ensures ok <==> ValidPlan(p)
  {
    if p.definition.id == 0 || p.definition.account == 0 || p.definition.strategy == 0 || p.legs == []
       || exists i :: 0 <= i < |p.legs| && !ValidLeg(p.legs[i].definition) {
      return false;
    }
    var nodes := Nodes(p.legs);
    OwnIds(p.definition.simultaneous, nodes);
    hide Topology.Cyclic, Topology.AllSound, Topology.Graph, Topology.Accepted, Topology.NoDependencies,
         Topology.NoForeignWaits, Distinct, Summary, DerivedStatus;
    var r := Topology.ValidateTopology(p.definition.simultaneous, Topology.Ids(nodes), nodes);
    return r.Ok? && p.filledLegs == Summary(p.legs, Exposed) && p.failedLegs == Summary(p.legs, Lost)
           && p.status == DerivedStatus(p.legs);
  }

  /** A plan's legs are the intended ones, so its topology is accepted exactly without a cycle. */
  lemma OwnIds(simultaneous: bool, nodes: seq<Topology.Leg>)
    ensures var ids := Topology.Ids(nodes);
            Topology.Accepted(simultaneous, ids, nodes) <==>
              && Distinct(ids) && (simultaneous ==> Topology.NoDependencies(nodes))
              && Topology.AllSound(nodes, Elements(ids)) && !Topology.Cyclic(Topology.Graph(Elements(ids), nodes))
  {
    hide Topology.Cyclic, Topology.AllSound, Topology.Graph, Topology.CountMet, Distinct;
    Topology.AnyTwoGiveTheThird(Elements(Topology.Ids(nodes)), nodes);
    forall i | 0 <= i < |nodes| ensures nodes[i].id in Elements(Topology.Ids(nodes)) {
      assert Topology.Ids(nodes)[i] == nodes[i].id;
    }
  }

  predicate StatesOwned(d: PlanDefinition, states: seq<L.State>) {
    forall i :: 0 <= i < |states| ==> states[i].account == d.account && states[i].plan == Some(d.id)
  }

  predicate HasLeg(legs: seq<Leg>, leg: Option<nat>) {
    exists i :: 0 <= i < |legs| && leg == Some(legs[i].definition.id)
  }

  predicate EventsInside(legs: seq<Leg>, events: seq<L.ExecutionEvent>) {
    forall i :: 0 <= i < |events| ==> HasLeg(legs, events[i].leg)
  }

  /** `project_plan`. */
  ghost function ProjectedPlan(p: Plan, states: seq<L.State>, events: seq<L.ExecutionEvent>): Result<Plan, Error> {
    if p.legs == [] then Err(EmptyPlan)
    else if |states| != |p.legs| then Err(UnsupportedCardinality)
    else if !StatesOwned(p.definition, states) then Err(IdentityMismatch)
    else match ProjectedLegs(p.definition, p.legs, states, events)
      case Err(error) => Err(error)
      case Ok(legs) =>
        if !EventsInside(legs, events) then Err(IdentityMismatch)
        else
          var q := Summarized(p.(legs := legs));
          if ValidPlan(q) then Ok(q) else Err(IdentityMismatch)
  }

  lemma ProjectedSnoc(d: PlanDefinition, legs: seq<Leg>, leg: Leg, states: seq<L.State>, events: seq<L.ExecutionEvent>)
    requires ProjectedLegs(d, legs, states, events).Ok?
    ensures ProjectedLegs(d, legs + [leg], states, events) ==
            match ProjectedAt(d, leg, states, events)
            case Err(error) => Err(error)
            case Ok(projected) => Ok(ProjectedLegs(d, legs, states, events).value + [projected])
  {
    hide ProjectedAt;
    if legs == [] {
      assert legs + [leg] == [leg] && [leg][1..] == [];
      assert ProjectedLegs(d, [], states, events) == Ok([]);
      if ProjectedAt(d, leg, states, events).Ok? {
        assert [ProjectedAt(d, leg, states, events).value] + [] == [] + [ProjectedAt(d, leg, states, events).value];
      }
    } else {
      assert (legs + [leg])[1..] == legs[1..] + [leg];
      assert (legs + [leg])[0] == legs[0];
      ProjectedSnoc(d, legs[1..], leg, states, events);
      var first, last := ProjectedAt(d, legs[0], states, events), ProjectedAt(d, leg, states, events);
      assert first.Ok? by { assert legs[0] == legs[0]; }
      if last.Ok? {
        var rest := ProjectedLegs(d, legs[1..], states, events).value;
        assert [first.value] + (rest + [last.value]) == [first.value] + rest + [last.value];
      }
    }
  }

  lemma {:induction false} ProjectedFails(d: PlanDefinition, legs: seq<Leg>, n: nat, states: seq<L.State>,
                                          events: seq<L.ExecutionEvent>)
    requires n <= |legs| && ProjectedLegs(d, legs[..n], states, events).Err?
    ensures ProjectedLegs(d, legs, states, events) == ProjectedLegs(d, legs[..n], states, events)
    decreases |legs|
  {
    hide ProjectedAt;
    if n != 0 {
      assert legs[..n][0] == legs[0] && legs[..n][1..] == legs[1..][..n - 1];
      if ProjectedAt(d, legs[0], states, events).Ok? {
        ProjectedFails(d, legs[1..], n - 1, states, events);
      }
    }
  }

  /** `project_plan`: replaces the legs of a copy one by one, then summarizes and validates it. */
  method ProjectPlan(p: Plan, states: seq<L.State>, events: seq<L.ExecutionEvent>) returns (r: Result<Plan, Error>)
    ensures r == ProjectedPlan(p, states, events)
  {
    hide ProjectedAt, ValidPlan;
    if p.legs == [] {
      return Err(EmptyPlan);
    }
    if |states| != |p.legs| {
      return Err(UnsupportedCardinality);
    }
    if !StatesOwned(p.definition, states) {
      return Err(IdentityMismatch);
    }
    var legs: seq<Leg> := [];
    assert p.legs[..0] == [];
    for i := 0 to |p.legs|
      invariant ProjectedLegs(p.definition, p.legs[..i], states, events) == Ok(legs)
    {
      var leg := p.legs[i];
      ProjectedSnoc(p.definition, p.legs[..i], leg, states, events);
      assert p.legs[..i + 1] == p.legs[..i] + [leg];
      var projected := ProjectLeg(p.definition.id, p.definition.account, leg, StatesOf(states, leg.definition.id),
                                  EventsOf(events, leg.definition.id));
      ProjectedAtMeans(p.definition, leg, states, events);
      if projected.Err? {
        ProjectedFails(p.definition, p.legs, i + 1, states, events);
        return Err(projected.error);
      }
      legs := legs + [projected.value];
    }
    assert p.legs[..|p.legs|] == p.legs;
    if !EventsInside(legs, events) {
      return Err(IdentityMismatch);
    }
    var q := Summarized(p.(legs := legs));
    var ok := ValidatePlan(q);
    if !ok {
      return Err(IdentityMismatch);
    }
    return Ok(q);
  }

  lemma ProjectedAtMeans(d: PlanDefinition, leg: Leg, states: seq<L.State>, events: seq<L.ExecutionEvent>)
    ensures ProjectedAt(d, leg, states, events)
         == ProjectedLeg(d.id, d.account, leg, StatesOf(states, leg.definition.id), EventsOf(events, leg.definition.id))
  {
  }

  // ---------------------------------------------------------------------
  // What projections promise.

  /** The closing validation rejects exactly the plans whose definitions were already invalid. */
  lemma ClosingValidation(p: Plan, legs: seq<Leg>)
    requires |legs| == |p.legs| && forall i :: 0 <= i < |legs| ==> legs[i].definition == p.legs[i].definition
    ensures ValidPlan(Summarized(p.(legs := legs))) <==> ValidDefinitions(p)
  {
    assert Nodes(legs) == Nodes(p.legs);
    hide Topology.Cyclic, Topology.AllSound, Topology.Graph, Distinct;
    var q := Summarized(p.(legs := legs));
    assert ValidDefinitions(q) <==> ValidDefinitions(p) by {
      assert Nodes(q.legs) == Nodes(p.legs) && q.definition == p.definition;
      assert (forall i :: 0 <= i < |p.legs| ==> ValidLeg(p.legs[i].definition))
        <==> (forall i :: 0 <= i < |legs| ==> ValidLeg(legs[i].definition));
    }
  }

  lemma LegDefinitionKept(d: PlanDefinition, leg: Leg, states: seq<L.State>, events: seq<L.ExecutionEvent>)
    requires ProjectedAt(d, leg, states, events).Ok?
    ensures ProjectedAt(d, leg, states, events).value.definition == leg.definition
  {
  }

  /** Projecting a projection again changes nothing. */
  lemma ProjectionIdempotent(p: Plan, states: seq<L.State>, events: seq<L.ExecutionEvent>)
    ensures ProjectedPlan(p, states, events).Ok? ==>
              ProjectedPlan(ProjectedPlan(p, states, events).value, states, events) == ProjectedPlan(p, states, events)
  {
    hide ValidPlan;
    if ProjectedPlan(p, states, events).Ok? {
      var q := ProjectedPlan(p, states, events).value;
      forall i | 0 <= i < |p.legs|
        ensures ProjectedAt(p.definition, q.legs[i], states, events) == Ok(q.legs[i])
      {
        LegIdempotent(p.definition, p.legs[i], states, events);
      }
      hide ProjectedAt;
      var again := ProjectedLegs(q.definition, q.legs, states, events);
      assert again.Ok? && again.value == q.legs;
      assert q.(legs := again.value) == q;
      assert Summarized(q) == q;
    }
  }

  lemma LegIdempotent(d: PlanDefinition, leg: Leg, states: seq<L.State>, events: seq<L.ExecutionEvent>)
    requires ProjectedAt(d, leg, states, events).Ok?
    ensures ProjectedAt(d, ProjectedAt(d, leg, states, events).value, states, events)
         == ProjectedAt(d, leg, states, events)
  {
  }

  lemma EventsOfStatus(events: seq<L.ExecutionEvent>, leg: nat, status: L.EventStatus)
    ensures HasStatus(EventsOf(events, leg), status)
       <==> exists e :: e in events && e.leg == Some(leg) && e.status == status
  {
    var p := (e: L.ExecutionEvent) => OfLeg(e.leg, leg);
    if HasStatus(EventsOf(events, leg), status) {
      var i :| 0 <= i < |EventsOf(events, leg)| && EventsOf(events, leg)[i].status == status;
      FilterIn(p, events, EventsOf(events, leg)[i]);
    }
    if e :| e in events && e.leg == Some(leg) && e.status == status {
      FilterIn(p, events, e);
      assert e in EventsOf(events, leg);
    }
  }

  /** The status of a successfully projected leg, read off the whole event list. */
  lemma LegStatusIs(d: PlanDefinition, leg: Leg, states: seq<L.State>, events: seq<L.ExecutionEvent>)
    requires ProjectedAt(d, leg, states, events).Ok?
    ensures var s := ProjectedAt(d, leg, states, events).value.status;
            var id := leg.definition.id;
            && ((exists e :: e in events && e.leg == Some(id) && e.status == L.EventFilled) ==> s == Filled)
            && ((exists e :: e in events && e.leg == Some(id) && e.status == L.EventPartiallyFilled) ==> Exposed(s))
  {
    EventsOfStatus(events, leg.definition.id, L.EventFilled);
    EventsOfStatus(events, leg.definition.id, L.EventPartiallyFilled);
    hide Fits, EventsOf, StatesOf, HasStatus, AllFit;
  }

  /**
    Exposure is never forgotten. Every projection over an event list that contains a
    fill of a leg shows the leg as filled or partially filled, whatever the command
    states say and whatever else happened, and lists it among the filled legs; a full
    fill never falls back.
  */
  lemma ExposureIsNeverForgotten(p: Plan, states: seq<L.State>, events: seq<L.ExecutionEvent>,
                                 fill: L.ExecutionEvent, i: nat)
    requires fill in events && L.IsFill(fill.status)
    requires i < |p.legs| && fill.leg == Some(p.legs[i].definition.id)
    ensures ProjectedPlan(p, states, events).Ok? ==>
              var q := ProjectedPlan(p, states, events).value;
              && |q.legs| == |p.legs| && q.legs[i].definition == p.legs[i].definition
              && Exposed(q.legs[i].status) && (fill.status.EventFilled? ==> q.legs[i].status == Filled)
              && p.legs[i].definition.id in q.filledLegs
              && (q.status == PlanPartial || q.status == PlanCompleted || q.status == PlanManual)
  {
    hide ValidPlan, ProjectedAt;
    if ProjectedPlan(p, states, events).Ok? {
      var q := ProjectedPlan(p, states, events).value;
      LegStatusIs(p.definition, p.legs[i], states, events);
      LegDefinitionKept(p.definition, p.legs[i], states, events);
      hide ProjectedLegs;
      SummaryLists(q.legs, Exposed, i);
      ExposedPlan(q.legs, i);
    }
  }

  lemma SummaryLists(legs: seq<Leg>, which: LegStatus -> bool, i: nat)
    requires i < |legs| && which(legs[i].status)
    ensures legs[i].definition.id in Summary(legs, which)
  {
    if i != 0 {
      SummaryLists(legs[1..], which, i - 1);
    }
  }

  lemma ExposedPlan(legs: seq<Leg>, i: nat)
    requires i < |legs| && Exposed(legs[i].status)
    ensures var s := DerivedStatus(legs); s == PlanPartial || s == PlanCompleted || s == PlanManual
  {
  }

  // ---------------------------------------------------------------------
  // Order does not matter.

  lemma DistinctIdsPermute(a: seq<L.ExecutionEvent>, b: seq<L.ExecutionEvent>)
    requires multiset(a) == multiset(b)
    ensures Distinct(EventIds(a)) <==> Distinct(EventIds(b))
  {
    SameMembers(a, b);
    DistinctIffCount(EventIds(a));
    DistinctIffCount(EventIds(b));
    hide Distinct;
    forall n ensures n in Elements(EventIds(a)) <==> n in Elements(EventIds(b)) {
      IdMember(a, n);
      IdMember(b, n);
    }
    assert Elements(EventIds(a)) == Elements(EventIds(b));
  }

  lemma IdMember(a: seq<L.ExecutionEvent>, n: nat)
    ensures n in Elements(EventIds(a)) <==> exists e :: e in a && e.id == n
  {
    if e :| e in a && e.id == n {
      var i :| 0 <= i < |a| && a[i] == e;
      assert EventIds(a)[i] == n;
    }
  }

  lemma LegPermutes(plan: nat, account: nat, leg: Leg, states: seq<L.State>, a: seq<L.ExecutionEvent>,
                    others: seq<L.State>, b: seq<L.ExecutionEvent>)
    requires multiset(states) == multiset(others) && multiset(a) == multiset(b)
    ensures ProjectedLeg(plan, account, leg, states, a) == ProjectedLeg(plan, account, leg, others, b)
  {
    SameMembers(states, others);
    SameMembers(a, b);
    DistinctIdsPermute(a, b);
    if |states| == 1 {
      assert states[0] in others && others[0] == states[0];
      SameFit(plan, account, leg.definition, states[0], a, b);
      SameStatus(a, b);
      hide HasStatus, AllFit, EventIds, Fits, Distinct;
    }
  }

  lemma SameFit(plan: nat, account: nat, leg: LegDefinition, c: L.State, a: seq<L.ExecutionEvent>,
                b: seq<L.ExecutionEvent>)
    requires forall x :: x in a <==> x in b
    ensures AllFit(plan, account, leg, c, a) <==> AllFit(plan, account, leg, c, b)
  {
    hide Fits;
    assert AllFit(plan, account, leg, c, a) <==> forall x :: x in a ==> Fits(plan, account, leg, c, x);
    assert AllFit(plan, account, leg, c, b) <==> forall x :: x in b ==> Fits(plan, account, leg, c, x);
  }

  lemma SameStatus(a: seq<L.ExecutionEvent>, b: seq<L.ExecutionEvent>)
    requires forall x :: x in a <==> x in b
    ensures forall s :: HasStatus(a, s) <==> HasStatus(b, s)
  {
    forall s ensures HasStatus(a, s) <==> HasStatus(b, s) {
      assert HasStatus(a, s) <==> exists x :: x in a && x.status == s;
      assert HasStatus(b, s) <==> exists x :: x in b && x.status == s;
    }
  }

  /** Permuting the events and the command states changes neither success nor the projection. */
  lemma ProjectionIgnoresOrder(p: Plan, states: seq<L.State>, a: seq<L.ExecutionEvent>,
                               others: seq<L.State>, b: seq<L.ExecutionEvent>)
    requires multiset(states) == multiset(others) && multiset(a) == multiset(b)
    ensures ProjectedPlan(p, states, a) == ProjectedPlan(p, others, b)
  {
    SameMembers(states, others);
    SameMembers(a, b);
    forall leg ensures ProjectedAt(p.definition, leg, states, a) == ProjectedAt(p.definition, leg, others, b) {
      var id := leg.definition.id;
      FilterPermutes((s: L.State) => OfLeg(s.leg, id), states, others);
      FilterPermutes((e: L.ExecutionEvent) => OfLeg(e.leg, id), a, b);
      LegPermutes(p.definition.id, p.definition.account, leg, StatesOf(states, id), EventsOf(a, id),
                  StatesOf(others, id), EventsOf(b, id));
    }
    SameLegs(p.definition, p.legs, states, a, others, b);
    assert StatesOwned(p.definition, states) <==> StatesOwned(p.definition, others) by {
      SameOwned(p.definition, states, others);
    }
    hide ProjectedLegs, ProjectedAt, ValidPlan, StatesOwned;
    forall legs: seq<Leg> ensures EventsInside(legs, a) <==> EventsInside(legs, b) {
      SameInside(legs, a, b);
    }
  }

  lemma SameOwned(d: PlanDefinition, a: seq<L.State>, b: seq<L.State>)
    requires forall x :: x in a <==> x in b
    ensures StatesOwned(d, a) <==> StatesOwned(d, b)
  {
    assert StatesOwned(d, a) <==> forall x :: x in a ==> x.account == d.account && x.plan == Some(d.id);
    assert StatesOwned(d, b) <==> forall x :: x in b ==> x.account == d.account && x.plan == Some(d.id);
  }

  lemma SameInside(legs: seq<Leg>, a: seq<L.ExecutionEvent>, b: seq<L.ExecutionEvent>)
    requires forall x :: x in a <==> x in b
    ensures EventsInside(legs, a) <==> EventsInside(legs, b)
  {
    hide HasLeg;
    assert EventsInside(legs, a) <==> forall x :: x in a ==> HasLeg(legs, x.leg);
    assert EventsInside(legs, b) <==> forall x :: x in b ==> HasLeg(legs, x.leg);
  }

  lemma {:induction false} SameLegs(d: PlanDefinition, legs: seq<Leg>, states: seq<L.State>, a: seq<L.ExecutionEvent>,
                                    others: seq<L.State>, b: seq<L.ExecutionEvent>)
    requires forall leg :: ProjectedAt(d, leg, states, a) == ProjectedAt(d, leg, others, b)
    ensures ProjectedLegs(d, legs, states, a) == ProjectedLegs(d, legs, others, b)
  {
    hide ProjectedAt;
    if legs != [] {
      SameLegs(d, legs[1..], states, a, others, b);
    }
  }

  // ---------------------------------------------------------------------
  // Recovery.

  datatype Recovery = NoRecovery | CloseFilled(legs: seq<nat>) | LeavePartial | ManualReview

  function DecideRecovery(p: Plan): Recovery {
    if !p.status.PlanPartial? then NoRecovery
    else match p.definition.rollback
      case Some(CloseFilledLegs) => if p.filledLegs != [] then CloseFilled(p.filledLegs) else ManualReview
      case Some(NoRollback) => LeavePartial
      case None => if p.definition.failurePolicy.PartialFill? then LeavePartial else ManualReview
  }

  lemma SummaryMembers(legs: seq<Leg>, which: LegStatus -> bool, id: nat)
    ensures id in Summary(legs, which)
       <==> exists i :: 0 <= i < |legs| && which(legs[i].status) && legs[i].definition.id == id
  {
  }

  /** On a valid plan, closing filled legs closes exactly the exposed ones, and there is always one to close. */
  lemma RecoveryClosesExposure(p: Plan)
    requires ValidPlan(p) && p.status.PlanPartial? && p.definition.rollback == Some(CloseFilledLegs)
    ensures DecideRecovery(p) == CloseFilled(p.filledLegs)
    ensures forall id :: id in p.filledLegs <==> ExposedLeg(p.legs, id)
  {
    hide ValidDefinitions, Summary;
    forall id ensures id in p.filledLegs <==> ExposedLeg(p.legs, id) {
      SummaryMembers(p.legs, Exposed, id);
    }
    var i := PartialHasExposure(p.legs);
    SummaryLists(p.legs, Exposed, i);
  }

  predicate ExposedLeg(legs: seq<Leg>, id: nat) {
    exists i :: 0 <= i < |legs| && Exposed(legs[i].status) && legs[i].definition.id == id
  }

  lemma PartialHasExposure(legs: seq<Leg>) returns (i: nat)
    requires DerivedStatus(legs).PlanPartial?
    ensures i < |legs| && Exposed(legs[i].status)
  {
    if Any(legs, PartiallyFilled) {
      i :| 0 <= i < |legs| && legs[i].status == PartiallyFilled;
    } else {
      i :| 0 <= i < |legs| && legs[i].status == Filled;
    }
  }

  // ---------------------------------------------------------------------
  // What a projection shows.

  /** The leg status that shows a command's lifecycle when nothing was filled. */
  const Stages: set<(LegStatus, L.Status)> :=
    {(Pending, L.Created), (Sent, L.Dispatched), (DeliveryUnconfirmed, L.DeliveryUnconfirmed),
     (Reconciling, L.Reconciling), (ManualReconciliationRequired, L.ManualReconciliationRequired),
     (CommandReceived, L.CommandReceived), (Accepted, L.Accepted), (Rejected, L.Rejected), (OrderSent, L.OrderSent),
     (PartiallyFilled, L.PartiallyFilled), (Filled, L.Filled), (Failed, L.Failed), (Expired, L.Expired),
     (Cancelled, L.Cancelled)}

  /** A leg shows its fills, else the stage of its command, and each stage has its own status. */
  lemma LegShows(c: L.State, events: seq<L.ExecutionEvent>)
    requires c.status != L.DeliveryFailed
    ensures var full := exists i :: 0 <= i < |events| && events[i].status == L.EventFilled;
            var part := exists i :: 0 <= i < |events| && events[i].status == L.EventPartiallyFilled;
            var shown := StatusFrom(c, events);
            && (full ==> shown == Filled)
            && (!full && part ==> shown == PartiallyFilled)
            && (!full && !part ==> (shown, c.status) in Stages)
    ensures forall a, b, s :: (a, s) in Stages && (b, s) in Stages ==> a == b
  {
    assert HasStatus(events, L.EventFilled) <==> exists i :: 0 <= i < |events| && events[i].status == L.EventFilled;
    assert HasStatus(events, L.EventPartiallyFilled) <==>
        exists i :: 0 <= i < |events| && events[i].status == L.EventPartiallyFilled;
  }

  /** The event is one of this leg's command, in its life, with sound quantities. */
  predicate EventBelongs(plan: nat, account: nat, leg: LegDefinition, c: L.State, e: L.ExecutionEvent) {
    && e.id != 0 && (e.command, e.account, e.symbol) == (c.id, account, leg.symbol)
    && (e.plan, e.leg) == (Some(plan), c.leg) && c.createdAt <= e.eventAt
    && (e.filledAt.Some? <==> e.status in {L.EventFilled, L.EventPartiallyFilled})
    && (e.filledAt.Some? ==>
          c.createdAt <= e.filledAt.value <= e.eventAt && e.filledLots.Some? && e.filledLots.value.kind == L.Positive)
    && (forall a :: a in [e.requestedLots, e.fillPrice, e.filledLots, e.remainingLots] && a.Some? ==>
          a.value.kind in {L.Zero, L.Positive})
  }

  lemma FitsIs(plan: nat, account: nat, leg: LegDefinition, c: L.State, e: L.ExecutionEvent)
    ensures Fits(plan, account, leg, c, e) <==> EventBelongs(plan, account, leg, c, e)
  {
    assert forall a :: a in [e.requestedLots, e.fillPrice, e.filledLots, e.remainingLots] <==>
        a == e.requestedLots || a == e.fillPrice || a == e.filledLots || a == e.remainingLots;
  }

  /** When a leg projects, and what each refusal means. */
  lemma LegProjects(plan: nat, account: nat, leg: Leg, states: seq<L.State>, events: seq<L.ExecutionEvent>)
    ensures var r := ProjectedLeg(plan, account, leg, states, events);
            && (r == Err(UnsupportedCardinality) <==> |states| != 1)
            && (|states| == 1 ==>
                  var c := states[0];
                  var belongs := (c.account, c.plan, c.leg) == (account, Some(plan), Some(leg.definition.id))
                                 && (forall e :: e in events ==> EventBelongs(plan, account, leg.definition, c, e))
                                 && forall i, j :: 0 <= i < j < |events| ==> events[i].id != events[j].id;
                  && (r == Err(IdentityMismatch) <==> !belongs)
                  && (r == Err(DeliveryFailedDeferred) <==> belongs && c.status == L.DeliveryFailed)
                  && (r.Ok? ==> r.value.definition == leg.definition && r.value.status == StatusFrom(c, events)))
            && (r.Err? ==> r.error in {UnsupportedCardinality, IdentityMismatch, DeliveryFailedDeferred})
  {
    if |states| == 1 {
      var c := states[0];
      forall e ensures Fits(plan, account, leg.definition, c, e)
                  <==> EventBelongs(plan, account, leg.definition, c, e) {
        FitsIs(plan, account, leg.definition, c, e);
      }
      assert Distinct(EventIds(events)) <==>
          forall i, j :: 0 <= i < j < |events| ==> events[i].id != events[j].id by {
        assert forall i :: 0 <= i < |events| ==> EventIds(events)[i] == events[i].id;
      }
      hide Fits, EventBelongs, Distinct, EventIds, StatusFrom;
      assert AllFit(plan, account, leg.definition, c, events) <==>
          forall e :: e in events ==> EventBelongs(plan, account, leg.definition, c, e);
    }
  }

  function Statuses(legs: seq<Leg>): set<LegStatus> {
    set i | 0 <= i < |legs| :: legs[i].status
  }

  /** A plan shows what its set of leg statuses amounts to, and nothing else about its legs. */
  lemma PlanShows(legs: seq<Leg>)
    ensures legs == [] ==> DerivedStatus(legs) == PlanPending
    ensures legs != [] ==> Amounts(Statuses(legs), DerivedStatus(legs))
  {
    if legs != [] {
      NonEmptyShows(legs);
    }
  }

  lemma NonEmptyShows(legs: seq<Leg>)
    requires legs != []
    ensures Amounts(Statuses(legs), DerivedStatus(legs))
  {
    var s := Statuses(legs);
    assert legs[0].status in s;
    forall x ensures All(legs, x) <==> s == {x} {
      if All(legs, x) {
        assert s == {x};
      }
      if s == {x} {
        assert forall i :: 0 <= i < |legs| ==> legs[i].status in s;
      }
    }
    forall x ensures Any(legs, x) <==> x in s {
    }
    assert (forall i :: 0 <= i < |legs| ==> TerminalLeg(legs[i].status)) <==>
        s <= {Rejected, Filled, Failed, Expired, Cancelled} by {
      assert forall i :: 0 <= i < |legs| ==> legs[i].status in s;
    }
    hide All, Any, Statuses, Amounts;
    DerivedFromSet(legs, s);
    SetAmounts(s);
  }

  /** The plan status a set of leg statuses stands for, status by status. */
  predicate Amounts(s: set<LegStatus>, shown: PlanStatus) {
    var exposed := Filled in s || PartiallyFilled in s;
    var manual, doubtful := ManualReconciliationRequired in s, DeliveryUnconfirmed in s || Reconciling in s;
    var underway := Pending in s || Sent in s || CommandReceived in s || Accepted in s || OrderSent in s;
    && (shown == PlanCompleted <==> s == {Filled})
    && (shown == PlanCancelled <==> s == {Cancelled})
    && (shown == PlanExpired <==> s == {Expired})
    && (shown == PlanManual <==> manual)
    && (shown == PlanPartial <==> exposed && !manual && s != {Filled})
    && (shown == PlanFailed <==> !exposed && !manual && !doubtful && !underway && s != {Expired} && s != {Cancelled})
    && (shown == PlanReconciling <==> !exposed && !manual && doubtful)
    && (shown == PlanPending <==> !exposed && !manual && !doubtful && underway)
  }

  /** The same as a chain of tests. */
  function Chain(s: set<LegStatus>): PlanStatus {
    if s == {Filled} then PlanCompleted
    else if s == {Cancelled} then PlanCancelled
    else if s == {Expired} then PlanExpired
    else if ManualReconciliationRequired in s then PlanManual
    else if PartiallyFilled in s || Filled in s then PlanPartial
    else if s <= {Rejected, Filled, Failed, Expired, Cancelled} then PlanFailed
    else if DeliveryUnconfirmed in s || Reconciling in s then PlanReconciling
    else PlanPending
  }

  lemma SetAmounts(s: set<LegStatus>)
    requires s != {}
    ensures Amounts(s, Chain(s))
  {
    Subset(s);
    assert ManualReconciliationRequired in s ==> s != {Filled} && s != {Cancelled} && s != {Expired};
    assert PartiallyFilled in s ==> s != {Filled} && s != {Cancelled} && s != {Expired};
    assert Filled in s ==> s != {Cancelled} && s != {Expired};
    assert DeliveryUnconfirmed in s || Reconciling in s ==> s != {Filled} && s != {Cancelled} && s != {Expired};
    assert Pending in s || Sent in s || CommandReceived in s || Accepted in s || OrderSent in s ==>
        s != {Filled} && s != {Cancelled} && s != {Expired};
  }

  lemma Subset(s: set<LegStatus>)
    ensures s <= {Rejected, Filled, Failed, Expired, Cancelled} <==>
              && Pending !in s && Sent !in s && DeliveryUnconfirmed !in s && Reconciling !in s
              && ManualReconciliationRequired !in s && CommandReceived !in s && Accepted !in s && OrderSent !in s
              && PartiallyFilled !in s
  {
    if !(s <= {Rejected, Filled, Failed, Expired, Cancelled}) {
      var x :| x in s && x !in {Rejected, Filled, Failed, Expired, Cancelled};
      assert x.Pending? || x.Sent? || x.DeliveryUnconfirmed? || x.Reconciling? || x.ManualReconciliationRequired?
             || x.CommandReceived? || x.Accepted? || x.OrderSent? || x.PartiallyFilled?;
    }
  }

  lemma DerivedFromSet(legs: seq<Leg>, s: set<LegStatus>)
    requires legs != [] && s != {}
    requires forall x :: All(legs, x) <==> s == {x}
    requires forall x :: Any(legs, x) <==> x in s
    requires (forall i :: 0 <= i < |legs| ==> TerminalLeg(legs[i].status)) <==>
               s <= {Rejected, Filled, Failed, Expired, Cancelled}
    ensures DerivedStatus(legs) == Chain(s)
  {
    hide All, Any, TerminalLeg;
  }

  /** The summaries list, in plan order, exactly the exposed and the lost legs. */
  lemma SummariesList(p: Plan)
    ensures var q := Summarized(p);
            && q.legs == p.legs && q.definition == p.definition && q.status == DerivedStatus(p.legs)
            && (forall id :: id in q.filledLegs <==>
                  exists i :: 0 <= i < |p.legs| && p.legs[i].definition.id == id
                              && p.legs[i].status in {PartiallyFilled, Filled})
            && (forall id :: id in q.failedLegs <==>
                  exists i :: 0 <= i < |p.legs| && p.legs[i].definition.id == id
                              && p.legs[i].status in {Rejected, Failed})
  {
    forall id ensures id in Summary(p.legs, Exposed) <==>
        exists i :: 0 <= i < |p.legs| && p.legs[i].definition.id == id
                    && p.legs[i].status in {PartiallyFilled, Filled} {
      SummaryMembers(p.legs, Exposed, id);
    }
    forall id ensures id in Summary(p.legs, Lost) <==>
        exists i :: 0 <= i < |p.legs| && p.legs[i].definition.id == id && p.legs[i].status in {Rejected, Failed} {
      SummaryMembers(p.legs, Lost, id);
    }
    hide Summary;
  }

  /** What each recovery policy does with a partial plan; any other plan needs no recovery. */
  lemma RecoveryPolicies(p: Plan)
    ensures var d := DecideRecovery(p);
            && (d == NoRecovery <==> p.status != PlanPartial)
            && (d.CloseFilled? <==>
                  p.status == PlanPartial && p.definition.rollback == Some(CloseFilledLegs) && p.filledLegs != [])
            && (d.CloseFilled? ==> d.legs == p.filledLegs)
            && (d == LeavePartial <==>
                  && p.status == PlanPartial
                  && (|| p.definition.rollback == Some(NoRollback)
                      || (p.definition.rollback == None && p.definition.failurePolicy == PartialFill)))
            && (d == ManualReview <==>
                  && p.status == PlanPartial
                  && (|| (p.definition.rollback == Some(CloseFilledLegs) && p.filledLegs == [])
                      || (p.definition.rollback == None && p.definition.failurePolicy in {CancelAll, RetryLegs})))
  {
  }

  /** What a valid leg must define. */
  lemma ValidLegs(d: LegDefinition)
    ensures ValidLeg(d) <==>
              && 0 !in {d.id, d.symbol} && d.ratio.kind == L.Positive && (d.lots.None? ==> !d.trades)
              && forall a :: a in [d.lots, d.sl, d.tp] && a.Some? ==> a.value.kind == L.Positive
  {
    assert forall a :: a in [d.lots, d.sl, d.tp] <==> a == d.lots || a == d.sl || a == d.tp;
  }

  /** No event may speak of a leg the plan does not have. */
  lemma ForeignEvents(legs: seq<Leg>, events: seq<L.ExecutionEvent>)
    ensures EventsInside(legs, events) <==>
              forall e :: e in events ==> exists leg :: leg in legs && e.leg == Some(leg.definition.id)
  {
    forall e: L.ExecutionEvent
      ensures HasLeg(legs, e.leg) <==> exists leg :: leg in legs && e.leg == Some(leg.definition.id)
    {
      if leg :| leg in legs && e.leg == Some(leg.definition.id) {
        var i :| 0 <= i < |legs| && legs[i] == leg;
        assert HasLeg(legs, e.leg);
      }
    }
    hide HasLeg;
  }

  /** When a whole plan is refused before its legs are looked at, and what a foreign event does. */
  lemma PlanRefusals(p: Plan, states: seq<L.State>, events: seq<L.ExecutionEvent>)
    ensures var r := ProjectedPlan(p, states, events);
            && (r == Err(EmptyPlan) <==> p.legs == [])
            && (p.legs != [] && |states| != |p.legs| ==> r == Err(UnsupportedCardinality))
            && (r.Ok? ==> forall s :: s in states ==>
                  s.account == p.definition.account && s.plan == Some(p.definition.id))
            && (r.Ok? ==> forall e :: e in events ==>
                  exists i :: 0 <= i < |p.legs| && e.leg == Some(p.legs[i].definition.id))
  {
    hide ValidPlan, Summarized, ProjectedAt;
    if ProjectedPlan(p, states, events).Ok? {
      var legs := ProjectedLegs(p.definition, p.legs, states, events).value;
      forall i | 0 <= i < |legs| ensures legs[i].definition == p.legs[i].definition {
        LegDefinitionKept(p.definition, p.legs[i], states, events);
      }
      hide ProjectedLegs;
      forall e | e in events ensures exists i :: 0 <= i < |p.legs| && e.leg == Some(p.legs[i].definition.id) {
        var k :| 0 <= k < |events| && events[k] == e;
        assert HasLeg(legs, events[k].leg);
      }
    } else {
      LegErrors(p.definition, p.legs, states, events);
      hide ProjectedLegs;
    }
  }

  lemma {:induction false} LegErrors(d: PlanDefinition, legs: seq<Leg>, states: seq<L.State>,
                                     events: seq<L.ExecutionEvent>)
    ensures var r := ProjectedLegs(d, legs, states, events); r.Err? ==> r.error != EmptyPlan
  {
    if legs != [] {
      LegErrors(d, legs[1..], states, events);
      hide Fits, AllFit, Owned, StatusFrom, EventsOf, StatesOf;
    }
  }
}
