/**
  Durable recovery dispatch: admitted messages and session resumes are claimed
  under a lease, handled in one transaction with their completion, or failed. Any
  number of workers may crash, time out or have their lease reclaimed.
*/
module Recovery {
  import opened Prelude

  datatype Item = Inbound(id: nat) | Resume(id: nat)

  datatype Status = Pending | Processing(owner: nat, expires: int) | Handled | Failed

  datatype Row = Row(status: Status, revision: nat, updatedAt: int, receivedAt: int)

  /** A claim held by a worker: the row as it was when claimed. */
  datatype Claim = Claim(item: Item, revision: nat, reclaimed: bool)

  /** `effects` lists the items whose handler effects were committed, `deadletters` the ones with a deadletter. */
  datatype World = World(rows: map<Item, Row>, claims: map<nat, Claim>, effects: seq<Item>, deadletters: set<Item>)

  datatype Ending = Succeeds | DeadLetters | TimesOut

  datatype Event =
    | Admit(item: Item, receivedAt: int, at: int)
    | Take(worker: nat, item: Item, now: int, expires: int)
    | Finish(worker: nat, ending: Ending, at: int)
    | Abandon(worker: nat)

  function Init(): World {
    World(map[], map[], [], {})
  }

  function Dropped(claims: map<nat, Claim>, worker: nat): map<nat, Claim> {
    map v | v in claims && v != worker :: claims[v]
  }

  /** Pending rows wait for a worker, processing ones once their lease is over. */
  predicate Waiting(r: Row, now: int) {
    r.status.Pending? || (r.status.Processing? && r.status.expires <= now)
  }

  predicate Claimable(r: Row, now: int) {
    r.updatedAt <= now && Waiting(r, now)
  }

  /** The compare-and-swap of `finish_inbound_on`: same revision, same owner, lease still running. */
  predicate Owned(r: Row, worker: nat, revision: nat, at: int) {
    && r.status.Processing? && r.status.owner == worker && r.revision == revision
    && r.updatedAt <= at < r.status.expires
  }

  function Taken(w: World, worker: nat, item: Item, now: int, expires: int): World
    requires item in w.rows
  {
    var r := w.rows[item];
    w.(rows := w.rows[item := r.(status := Processing(worker, expires), revision := r.revision + 1, updatedAt := now)],
       claims := w.claims[worker := Claim(item, r.revision + 1, r.status.Processing?)])
  }

  /** One transaction: the handler's effects with the completion, or the failure with its deadletter. */
  function Finished(w: World, worker: nat, ending: Ending, at: int): World
    requires worker in w.claims && w.claims[worker].item in w.rows
  {
    var item := w.claims[worker].item;
    var r := w.rows[item];
    var status := if ending.Succeeds? then Handled else Failed;
    w.(rows := w.rows[item := r.(status := status, revision := r.revision + 1, updatedAt := at)],
       claims := Dropped(w.claims, worker),
       effects := if ending.Succeeds? then w.effects + [item] else w.effects,
       deadletters := if ending.DeadLetters? && item.Inbound? then w.deadletters + {item} else w.deadletters)
  }

  predicate CanFinish(w: World, worker: nat, at: int) {
    && worker in w.claims && w.claims[worker].item in w.rows
    && Owned(w.rows[w.claims[worker].item], worker, w.claims[worker].revision, at)
  }

  function Apply(w: World, e: Event): World {
    match e
    case Admit(item, receivedAt, at) =>
      if item in w.rows then w else w.(rows := w.rows[item := Row(Pending, 0, at, receivedAt)])
    case Take(worker, item, now, expires) =>
      if item in w.rows && Claimable(w.rows[item], now) && now < expires then Taken(w, worker, item, now, expires)
      else w
    case Finish(worker, ending, at) =>
      if CanFinish(w, worker, at) then Finished(w, worker, ending, at)
      else w.(claims := Dropped(w.claims, worker))
    case Abandon(worker) => w.(claims := Dropped(w.claims, worker))
  }

  function Run(w: World, events: seq<Event>): World
    decreases |events|
  {
    if events == [] then w else Run(Apply(w, events[0]), events[1..])
  }

  /** Committed effects are exactly the handled rows, each once; deadletters belong to failed rows. */
  ghost predicate Inv(w: World) {
    && Distinct(w.effects)
    && (forall x :: x in w.effects <==> x in w.rows && w.rows[x].status.Handled?)
    && (forall x :: x in w.deadletters ==> x in w.rows && w.rows[x].status.Failed?)
  }

  lemma StepKeepsInv(w: World, e: Event)
    requires Inv(w)
    ensures Inv(Apply(w, e))
  {
  }

  /** Nothing leaves a finished status, so a committed item stays committed. */
  lemma StepKeepsFinished(w: World, e: Event)
    ensures forall x :: x in w.rows && (w.rows[x].status.Handled? || w.rows[x].status.Failed?) ==>
              x in Apply(w, e).rows && Apply(w, e).rows[x] == w.rows[x]
    ensures w.effects <= Apply(w, e).effects && w.deadletters <= Apply(w, e).deadletters
  {
  }

  lemma {:induction false} RunKeeps(w: World, events: seq<Event>)
    requires Inv(w)
    ensures Inv(Run(w, events))
    ensures w.effects <= Run(w, events).effects && w.deadletters <= Run(w, events).deadletters
    ensures forall x :: x in w.rows && (w.rows[x].status.Handled? || w.rows[x].status.Failed?) ==>
              x in Run(w, events).rows && Run(w, events).rows[x] == w.rows[x]
    decreases |events|
  {
    hide Inv, Apply;
    if events != [] {
      StepKeepsInv(w, events[0]);
      StepKeepsFinished(w, events[0]);
      RunKeeps(Apply(w, events[0]), events[1..]);
    }
  }

  /**
    Across workers, timeouts, crashes and lease reclaims: the effects of an admission
    are committed at most once, and never together with its deadletter.
  */
  lemma EffectsCommitOnce(events: seq<Event>)
    ensures var w := Run(Init(), events);
            && Distinct(w.effects)
            && (forall x :: x in w.effects ==> x !in w.deadletters)
            && (forall x :: x in w.effects <==> x in w.rows && w.rows[x].status.Handled?)
  {
    RunKeeps(Init(), events);
    hide Run, Distinct;
  }

  lemma {:induction false} RunAppend(w: World, a: seq<Event>, b: seq<Event>)
    ensures Run(w, a + b) == Run(Run(w, a), b)
    decreases |a|
  {
    if a == [] {
      assert a + b == b;
    } else {
      assert (a + b)[1..] == a[1..] + b;
      RunAppend(Apply(w, a[0]), a[1..], b);
    }
  }

  /**
    What one finish does: a handled item has its effects committed with its row; a
    terminal failure of an inbound message leaves a deadletter, a timeout or a failed
    resume leaves none; a worker that lost its lease changes nothing but its own claim.
  */
  lemma FinishMeans(w: World, worker: nat, ending: Ending, at: int)
    ensures var t := Apply(w, Finish(worker, ending, at));
            && worker !in t.claims && (forall v :: v in w.claims && v != worker ==> v in t.claims)
            && (!CanFinish(w, worker, at) ==>
                  t.rows == w.rows && t.effects == w.effects && t.deadletters == w.deadletters)
            && (CanFinish(w, worker, at) ==>
                  var item := w.claims[worker].item;
                  && t.rows.Keys == w.rows.Keys
                  && (forall x :: x in w.rows && x != item ==> t.rows[x] == w.rows[x])
                  && t.rows[item].revision == w.rows[item].revision + 1 && t.rows[item].updatedAt == at
                  && t.rows[item].receivedAt == w.rows[item].receivedAt
                  && t.rows[item].status == (if ending == Succeeds then Handled else Failed)
                  && t.effects == (if ending == Succeeds then w.effects + [item] else w.effects)
                  && t.deadletters
                     == w.deadletters + (if ending == DeadLetters && item.Inbound? then {item} else {}))
  {
  }

  /** Who may finish: the owner of the row at the claimed revision, while its lease runs. */
  lemma FinishNeedsLease(w: World, worker: nat, at: int)
    ensures CanFinish(w, worker, at) <==>
              && worker in w.claims && w.claims[worker].item in w.rows
              && var r := w.rows[w.claims[worker].item];
                 && r.status.Processing? && r.status.owner == worker && r.revision == w.claims[worker].revision
                 && r.updatedAt <= at && at < r.status.expires
  {
  }

  /** An item is admitted once, as pending work; abandoning it only drops the claim. */
  lemma AdmitMeans(w: World, item: Item, receivedAt: int, at: int, worker: nat)
    ensures Apply(w, Admit(item, receivedAt, at))
         == if item in w.rows then w else w.(rows := w.rows[item := Row(Pending, 0, at, receivedAt)])
    ensures var t := Apply(w, Abandon(worker));
            t == w.(claims := t.claims) && t.claims.Keys == w.claims.Keys - {worker}
  {
  }

  /** What a claim does to its row, and when it is possible. */
  lemma TakeMeans(w: World, worker: nat, item: Item, now: int, expires: int)
    ensures var t := Apply(w, Take(worker, item, now, expires));
            if item in w.rows && now < expires && w.rows[item].updatedAt <= now
               && (|| w.rows[item].status == Pending
                   || (w.rows[item].status.Processing? && w.rows[item].status.expires <= now)) then
              var r := w.rows[item];
              && t == w.(rows := w.rows[item := Row(Processing(worker, expires), r.revision + 1, now, r.receivedAt)],
                         claims := w.claims[worker := Claim(item, r.revision + 1, r.status.Processing?)])
            else t == w
  {
  }

  // ---------------------------------------------------------------------
  // Who finished what.

  datatype Done = Done(worker: nat, item: Item, ending: Ending)

  /** The finishes of a run that took effect, in order. */
  function Log(w: World, events: seq<Event>): seq<Done>
    decreases |events|
  {
    if events == [] then [] else Finish1(w, events[0]) + Log(Apply(w, events[0]), events[1..])
  }

  function Finish1(w: World, e: Event): seq<Done> {
    if e.Finish? && CanFinish(w, e.worker, e.at) then [Done(e.worker, w.claims[e.worker].item, e.ending)] else []
  }

  function By(log: seq<Done>, worker: nat): seq<Done> {
    Filter((d: Done) => d.worker == worker, log)
  }

  function Items(log: seq<Done>): seq<Item> {
    seq(|log|, i requires 0 <= i < |log| => log[i].item)
  }

  /** The items whose handler succeeded. */
  function Effective(log: seq<Done>): seq<Item> {
    Items(Filter((d: Done) => d.ending.Succeeds?, log))
  }

  lemma {:induction false} LogAppend(w: World, a: seq<Event>, b: seq<Event>)
    ensures Log(w, a + b) == Log(w, a) + Log(Run(w, a), b)
    decreases |a|
  {
    hide Apply, Finish1;
    if a == [] {
      assert a + b == b;
    } else {
      assert (a + b)[1..] == a[1..] + b;
      LogAppend(Apply(w, a[0]), a[1..], b);
    }
  }

  lemma EffectStep(w: World, e: Event)
    ensures Apply(w, e).effects == w.effects + Effective(Finish1(w, e))
  {
    assert w.effects + [] == w.effects;
    if Finish1(w, e) != [] {
      var d := Finish1(w, e)[0];
      FilterCons((d: Done) => d.ending.Succeeds?, d, []);
      assert [d] + [] == [d];
    }
  }

  lemma EffectiveAppend(a: seq<Done>, b: seq<Done>)
    ensures Effective(a + b) == Effective(a) + Effective(b)
  {
    FilterAppend((d: Done) => d.ending.Succeeds?, a, b);
  }

  /** The committed effects of a run are those of its successful finishes, whoever made them, in order. */
  lemma {:induction false} EffectsAreLogged(w: World, events: seq<Event>)
    ensures Run(w, events).effects == w.effects + Effective(Log(w, events))
    decreases |events|
  {
    hide Apply, Finish1, Effective;
    if events == [] {
      NothingEffective();
    } else {
      var t := Apply(w, events[0]);
      EffectStep(w, events[0]);
      EffectsAreLogged(t, events[1..]);
      EffectiveAppend(Finish1(w, events[0]), Log(t, events[1..]));
    }
  }

  lemma NothingEffective()
    ensures Effective([]) == []
  {
  }

  predicate Over(w: World, x: Item) {
    x in w.rows && (w.rows[x].status.Handled? || w.rows[x].status.Failed?)
  }

  /** An item is finished at most once, by one worker and with one ending; finished items were open before. */
  lemma {:induction false} FinishedOnce(w: World, events: seq<Event>)
    ensures Distinct(Items(Log(w, events)))
    ensures forall d :: d in Log(w, events) ==>
              !Over(w, d.item) && Over(Run(w, events), d.item)
              && (Run(w, events).rows[d.item].status.Handled? <==> d.ending.Succeeds?)
    decreases |events|
  {
    hide Apply, Finish1, Distinct;
    if events == [] {
      assert Items(Log(w, events)) == [];
      DistinctNone();
    } else {
      var e, t, rest := events[0], Apply(w, events[0]), events[1..];
      FinishedOnce(t, rest);
      FinishStep(w, e);
      StepKeepsFinished(w, e);
      RunKeepsFinished(t, rest);
      assert Log(w, events) == Finish1(w, e) + Log(t, rest);
      if Finish1(w, e) == [] {
        assert Log(w, events) == Log(t, rest);
      } else {
        var d := Finish1(w, e)[0];
        assert Finish1(w, e) == [d];
        assert Items(Log(w, events)) == [d.item] + Items(Log(t, rest));
        DistinctFirst(d.item, Items(Log(t, rest)));
      }
    }
  }

  lemma FinishStep(w: World, e: Event)
    ensures |Finish1(w, e)| <= 1
    ensures forall d :: d in Finish1(w, e) ==>
              !Over(w, d.item) && Over(Apply(w, e), d.item)
              && (Apply(w, e).rows[d.item].status.Handled? <==> d.ending.Succeeds?)
  {
  }

  lemma DistinctNone()
    ensures Distinct<Item>([])
  {
  }

  lemma DistinctFirst(x: Item, s: seq<Item>)
    requires x !in s && Distinct(s)
    ensures Distinct([x] + s)
  {
  }

  lemma {:induction false} RunKeepsFinished(w: World, events: seq<Event>)
    ensures forall x :: Over(w, x) ==> Over(Run(w, events), x) && Run(w, events).rows[x] == w.rows[x]
    decreases |events|
  {
    hide Apply;
    if events != [] {
      StepKeepsFinished(w, events[0]);
      RunKeepsFinished(Apply(w, events[0]), events[1..]);
    }
  }

  // ---------------------------------------------------------------------
  // What the other workers do in between.

  predicate ByOthers(worker: nat, events: seq<Event>) {
    forall i :: 0 <= i < |events| ==> events[i].Admit? || events[i].worker != worker
  }

  /** Others leave a worker's claim alone (not the row it names) and finish nothing in its name. */
  lemma {:induction false} OthersKeepClaim(w: World, worker: nat, events: seq<Event>)
    requires ByOthers(worker, events)
    ensures var t := Run(w, events);
            && (worker in w.claims ==> worker in t.claims && t.claims[worker] == w.claims[worker])
            && (forall x :: x in w.rows ==> x in t.rows)
            && By(Log(w, events), worker) == []
    decreases |events|
  {
    hide Apply, Finish1, By;
    if events == [] {
      NothingBy(worker);
    } else {
      OtherStep(w, worker, events[0]);
      OthersKeepClaim(Apply(w, events[0]), worker, events[1..]);
      ByAppend(Finish1(w, events[0]), Log(Apply(w, events[0]), events[1..]), worker);
    }
  }

  lemma OtherStep(w: World, worker: nat, e: Event)
    requires e.Admit? || e.worker != worker
    ensures var t := Apply(w, e);
            && (worker in w.claims ==> worker in t.claims && t.claims[worker] == w.claims[worker])
            && (forall x :: x in w.rows ==> x in t.rows)
            && By(Finish1(w, e), worker) == []
  {
    if Finish1(w, e) != [] {
      ByOne(Finish1(w, e)[0], worker);
    }
  }

  lemma ByOne(d: Done, worker: nat)
    ensures By([d], worker) == if d.worker == worker then [d] else []
  {
    FilterCons((d: Done) => d.worker == worker, d, []);
    assert [d] + [] == [d];
  }

  lemma NothingBy(worker: nat)
    ensures By([], worker) == []
  {
  }

  lemma ByAppend(a: seq<Done>, b: seq<Done>, worker: nat)
    ensures By(a + b, worker) == By(a, worker) + By(b, worker)
  {
    FilterAppend((d: Done) => d.worker == worker, a, b);
  }

  /** The events lead from one state to the other, and the worker's own finishes among them are `ends`. */
  ghost predicate Leads(w: World, events: seq<Event>, t: World, worker: nat, ends: seq<Done>) {
    Run(w, events) == t && By(Log(w, events), worker) == ends
  }

  lemma LeadsOn(w: World, a: seq<Event>, t: World, x: seq<Done>, b: seq<Event>, u: World, y: seq<Done>, worker: nat)
    requires Leads(w, a, t, worker, x) && Leads(t, b, u, worker, y)
    ensures Leads(w, a + b, u, worker, x + y)
    ensures y == [] ==> Leads(w, a + b, u, worker, x)
  {
    hide Run, Log, By;
    assert x + [] == x;
    RunAppend(w, a, b);
    LogAppend(w, a, b);
    ByAppend(Log(w, a), Log(t, b), worker);
  }

  lemma LeadsNowhere(w: World, worker: nat)
    ensures Leads(w, [], w, worker, [])
  {
  }

  lemma LeadsOne(w: World, e: Event, worker: nat)
    ensures Leads(w, [e], Apply(w, e), worker, By(Finish1(w, e), worker))
  {
    hide Apply, Finish1, By;
    var rest := [e][1..];
    assert rest == [];
    RunNothing(Apply(w, e));
    assert Run(w, [e]) == Run(Apply(w, e), rest);
    assert Log(w, [e]) == Finish1(w, e) + Log(Apply(w, e), rest);
    assert Finish1(w, e) + [] == Finish1(w, e);
  }

  lemma RunNothing(w: World)
    ensures Run(w, []) == w
  {
  }

  // ---------------------------------------------------------------------
  // The store's choice.

  predicate Candidate(r: Row, expired: bool, now: int) {
    Waiting(r, now) && r.status.Processing? == expired
  }

  /** The candidates of one query: pending work, or work whose lease is over. */
  function Candidates(rows: map<Item, Row>, inbound: bool, expired: bool, now: int): set<Item> {
    set x | x in rows && x.Inbound? == inbound && Candidate(rows[x], expired, now)
  }

  /** `ORDER BY`: the lease's end for expired work, then arrival, then the id. */
  predicate Before(rows: map<Item, Row>, x: Item, y: Item)
    requires x in rows && y in rows
  {
    var r, s := rows[x], rows[y];
    if r.status.Processing? && s.status.Processing? && r.status.expires != s.status.expires then
      r.status.expires < s.status.expires
    else if r.receivedAt != s.receivedAt then r.receivedAt < s.receivedAt
    else x.id < y.id
  }

  /** The row the query returns. */
  predicate First(rows: map<Item, Row>, inbound: bool, expired: bool, now: int, x: Item) {
    && x in Candidates(rows, inbound, expired, now)
    && forall y :: y in Candidates(rows, inbound, expired, now) && y != x ==> Before(rows, x, y)
  }

  /** The order of a query: pending work by arrival, expired work by the end of its lease first; ids break ties. */
  lemma QueryOrder(rows: map<Item, Row>, x: Item, y: Item)
    requires x in rows && y in rows
    ensures rows[x].status == Pending && rows[y].status == Pending ==>
              (Before(rows, x, y) <==>
                 || rows[x].receivedAt < rows[y].receivedAt
                 || (rows[x].receivedAt == rows[y].receivedAt && x.id < y.id))
    ensures rows[x].status.Processing? && rows[y].status.Processing? ==>
              (Before(rows, x, y) <==>
                 || rows[x].status.expires < rows[y].status.expires
                 || (rows[x].status.expires == rows[y].status.expires
                     && (|| rows[x].receivedAt < rows[y].receivedAt
                         || (rows[x].receivedAt == rows[y].receivedAt && x.id < y.id))))
  {
  }

  /** The candidates of a query, in the store's terms. */
  lemma QueryCandidates(rows: map<Item, Row>, inbound: bool, expired: bool, now: int, x: Item)
    ensures x in Candidates(rows, inbound, expired, now) <==>
              && x in rows && x.Inbound? == inbound
              && (if expired then rows[x].status.Processing? && rows[x].status.expires <= now
                  else rows[x].status == Pending)
  {
  }

  lemma {:induction false} Least(rows: map<Item, Row>, inbound: bool, expired: bool, some: set<Item>)
    returns (x: Item)
    requires some != {}
    requires forall x :: x in some ==> x in rows && x.Inbound? == inbound && rows[x].status.Processing? == expired
    ensures x in some && forall y :: y in some && y != x ==> Before(rows, x, y)
    decreases some
  {
    hide Before;
    var a :| a in some;
    var others := some - {a};
    x := a;
    if others != {} {
      var b := Least(rows, inbound, expired, others);
      BeforeTotal(rows, a, b);
      x := if Before(rows, a, b) then a else b;
      forall y | y in some && y != x ensures Before(rows, x, y) {
        if x == a && y != b {
          assert y in others;
          BeforeTransitive(rows, a, b, y);
        }
      }
    } else {
      assert forall y :: y in some ==> y == a || y in others;
    }
  }

  lemma BeforeTotal(rows: map<Item, Row>, x: Item, y: Item)
    requires x in rows && y in rows && x != y && x.Inbound? == y.Inbound?
    ensures Before(rows, x, y) || Before(rows, y, x)
  {
  }

  lemma BeforeTransitive(rows: map<Item, Row>, x: Item, y: Item, z: Item)
    requires x in rows && y in rows && z in rows && Before(rows, x, y) && Before(rows, y, z)
    requires rows[x].status.Processing? == rows[y].status.Processing? == rows[z].status.Processing?
    ensures Before(rows, x, z)
  {
  }

  // ---------------------------------------------------------------------
  // One worker's batch.

  datatype Handler = HandlerOk | HandlerTerminal | HandlerTimeout | HandlerRetryable

  /** A terminal error leaves a deadletter, a timeout does not. */
  function EndingOf(h: Handler): Ending {
    match h
    case HandlerOk => Succeeds
    case HandlerTerminal => DeadLetters
    case _ => TimesOut
  }

  /** What the environment supplies for one turn: the clock, the handler, and the steps of
      others before each of the four claiming transactions and before the finishing one. */
  datatype Turn = Turn(now: int, handler: Handler, finishedAt: int, gaps: seq<seq<Event>>, during: seq<Event>)

  predicate Fair(turn: Turn, worker: nat) {
    && |turn.gaps| == 4 && ByOthers(worker, turn.during)
    && forall i :: 0 <= i < 4 ==> ByOthers(worker, turn.gaps[i])
  }

  predicate Undisturbed(turn: Turn) {
    turn.gaps == [[], [], [], []]
  }

  datatype Report = Report(claimed: nat, reclaimed: nat, handled: nat, failed: nat, timedOut: nat)

  datatype BatchError = StaleWrite | RetryableHandler | InvalidRecord | InvalidServerTime | TimestampOverflow

  /** How the turn ends: a retryable error, or a clock that cannot be read, leaves the row leased. */
  function Ends(worker: nat, turn: Turn): Event {
    if turn.handler.HandlerRetryable? || turn.finishedAt < 0 then Abandon(worker)
    else Finish(worker, EndingOf(turn.handler), turn.finishedAt)
  }

  function Count(log: seq<Done>, ending: Ending): nat {
    |Filter((d: Done) => d.ending == ending, log)|
  }

  lemma CountOne(log: seq<Done>, d: Done, ending: Ending)
    ensures Count(log + [d], ending) == Count(log, ending) + (if d.ending == ending then 1 else 0)
  {
    FilterAppend((d: Done) => d.ending == ending, log, [d]);
  }

  /** One more finished item in the report. */
  function Counted(report: Report, ending: Ending): Report {
    if ending.Succeeds? then report.(handled := report.handled + 1)
    else report.(failed := report.failed + 1, timedOut := report.timedOut + if ending.TimesOut? then 1 else 0)
  }

  /** A report counts what the worker finished, ending by ending. */
  predicate Tallies(report: Report, ends: seq<Done>) {
    && report.handled == Count(ends, Succeeds) && report.timedOut == Count(ends, TimesOut)
    && report.failed == Count(ends, DeadLetters) + Count(ends, TimesOut)
    && report.claimed == |ends| == report.handled + report.failed && report.reclaimed <= report.claimed
  }

  /**
    The exact result of one claiming query from `w` to `t`: nothing without
    candidates, the store's first candidate under a lease, or an error when that
    row is newer than the clock, whatever comes after it.
  */
  ghost predicate Chosen(worker: nat, lease: nat, w: World, inbound: bool, expired: bool, now: int,
                         r: Result<Option<Claim>, BatchError>, t: World)
  {
    match r
    case Ok(None) => Candidates(w.rows, inbound, expired, now) == {} && t == w
    case Err(error) =>
      && error == InvalidRecord && t == w
      && exists x :: First(w.rows, inbound, expired, now, x) && now < w.rows[x].updatedAt
    case Ok(Some(claim)) =>
      && First(w.rows, inbound, expired, now, claim.item) && w.rows[claim.item].updatedAt <= now
      && claim == Claim(claim.item, w.rows[claim.item].revision + 1, expired)
      && t == Apply(w, Take(worker, claim.item, now, now + lease)) && Holds(t, worker, claim)
  }

  /** The worker holds this claim. */
  predicate Holds(w: World, worker: nat, claim: Claim) {
    worker in w.claims && w.claims[worker] == claim && claim.item in w.rows
  }

  lemma ChosenLeads(worker: nat, lease: nat, w: World, inbound: bool, expired: bool, now: int,
                    r: Result<Option<Claim>, BatchError>, t: World) returns (trace: seq<Event>)
    requires Chosen(worker, lease, w, inbound, expired, now, r, t)
    ensures Leads(w, trace, t, worker, [])
  {
    if r.Ok? && r.value.Some? {
      trace := [Take(worker, r.value.value.item, now, now + lease)];
      LeadsOne(w, trace[0], worker);
      NothingBy(worker);
    } else {
      trace := [];
      LeadsNowhere(w, worker);
    }
  }

  lemma FirstIsCandidate(rows: map<Item, Row>, inbound: bool, expired: bool, now: int)
    ensures forall x :: First(rows, inbound, expired, now, x) ==> x in Candidates(rows, inbound, expired, now)
  {
  }

  lemma FirstIsOfKind(inbound: bool, now: int)
    ensures forall rows, expired, x :: First(rows, inbound, expired, now, x) ==> x.Inbound? == inbound
  {
  }

  lemma NoneWaits(rows: map<Item, Row>, inbound: bool, now: int)
    requires Candidates(rows, inbound, true, now) == {} && Candidates(rows, inbound, false, now) == {}
    ensures forall x :: x in rows && x.Inbound? == inbound ==> !Waiting(rows[x], now)
  {
    forall x | x in rows && x.Inbound? == inbound ensures !Waiting(rows[x], now) {
      assert x !in Candidates(rows, inbound, true, now) && x !in Candidates(rows, inbound, false, now);
    }
  }

  lemma TallyOne(report: Report, ends: seq<Done>, d: Done, reclaimed: bool)
    requires Tallies(report, ends)
    ensures var claimed := report.(claimed := report.claimed + 1,
                                   reclaimed := report.reclaimed + if reclaimed then 1 else 0);
            Tallies(Counted(claimed, d.ending), ends + [d])
  {
    CountOne(ends, d, Succeeds);
    CountOne(ends, d, DeadLetters);
    CountOne(ends, d, TimesOut);
    hide Count;
  }

  lemma TallyNone()
    ensures Tallies(Report(0, 0, 0, 0, 0), [])
  {
  }

  /** A worker's own finishes are part of the log, each item once. */
  lemma {:induction false} ByDistinct(log: seq<Done>, worker: nat)
    requires Distinct(Items(log))
    ensures Distinct(Items(By(log, worker)))
    ensures forall d :: d in By(log, worker) ==> d in log && d.worker == worker
  {
    if log == [] {
      NothingBy(worker);
      assert Items(By(log, worker)) == [];
    } else {
      var d, rest := log[0], log[1..];
      assert log == [d] + rest && Items(log) == [d.item] + Items(rest);
      assert Items(rest) == Items(log)[1..];
      ByDistinct(rest, worker);
      ByOne(d, worker);
      ByAppend([d], rest, worker);
      hide By;
      var own := By(rest, worker);
      if d.worker == worker {
        assert forall i :: 0 <= i < |own| ==> own[i] in rest;
        NotAmong(d, rest, own);
        DistinctFirst(d.item, Items(own));
        assert Items([d] + own) == [d.item] + Items(own);
      } else {
        assert [] + own == own;
      }
    }
  }

  lemma NotAmong(d: Done, rest: seq<Done>, own: seq<Done>)
    requires Distinct([d.item] + Items(rest)) && forall x :: x in own ==> x in rest
    ensures d.item !in Items(own)
  {
    forall i | 0 <= i < |own| ensures own[i].item != d.item {
      assert own[i] in rest;
      var j :| 0 <= j < |rest| && rest[j] == own[i];
      var all := [d.item] + Items(rest);
      assert all[j + 1] == rest[j].item && all[0] == d.item;
    }
  }

  /** What a worker finished during a run, seen in the final state. */
  lemma OwnEnds(w: World, events: seq<Event>, worker: nat)
    requires Inv(w)
    ensures var t, ends := Run(w, events), By(Log(w, events), worker);
            && Inv(t) && Distinct(Items(ends))
            && forall d :: d in ends ==>
                 && !Over(w, d.item) && Over(t, d.item)
                 && (d.item in t.effects <==> d.ending.Succeeds?)
  {
    FinishedOnce(w, events);
    ByDistinct(Log(w, events), worker);
    RunKeeps(w, events);
    hide Run, Log, By, Distinct;
  }

  lemma Concluded(w: World, events: seq<Event>, worker: nat, ends: seq<Done>, t: World)
    requires Inv(w) && Leads(w, events, t, worker, ends)
    ensures Run(w, events) == t && By(Log(w, events), worker) == ends
    ensures Inv(t) && Distinct(Items(ends))
    ensures forall d :: d in ends ==>
              !Over(w, d.item) && Over(t, d.item) && (d.item in t.effects <==> d.ending.Succeeds?)
  {
    OwnEnds(w, events, worker);
  }

  class Dispatcher {
    const worker: nat
    const maxItems: nat
    const lease: nat
    var rows: map<Item, Row>
    var claims: map<nat, Claim>
    var effects: seq<Item>
    var deadletters: set<Item>

    /** The shared state. */
    function Value(): World
      reads this
    {
      World(rows, claims, effects, deadletters)
    }

    constructor (worker: nat, maxItems: nat, lease: nat)
      requires 0 < lease
      ensures Value() == Init() && this.lease == lease && this.maxItems == maxItems && this.worker == worker
    {
      this.worker, this.maxItems, this.lease := worker, maxItems, lease;
      rows, claims, effects, deadletters := map[], map[], [], {};
    }

    /** Others act between two transactions of this worker. */
    method Interfere(events: seq<Event>)
      requires ByOthers(worker, events)
      modifies this
      ensures Value() == Run(old(Value()), events)
      ensures Leads(old(Value()), events, Value(), worker, [])
      ensures worker in old(claims) ==> worker in claims && claims[worker] == old(claims)[worker]
      ensures forall x :: x in old(rows) ==> x in rows
    {
      OthersKeepClaim(Value(), worker, events);
      hide Run, Log, By;
      var w := Run(Value(), events);
      rows, claims, effects, deadletters := w.rows, w.claims, w.effects, w.deadletters;
    }

    /** `claim_inbound_on` and `claim_resume_on`: the row is leased under a fresh revision. */
    method Lease(x: Item, now: int) returns (claim: Claim)
      requires 0 < lease && x in rows && Claimable(rows[x], now)
      modifies this`rows, this`claims
      ensures claim == Claim(x, old(rows)[x].revision + 1, old(rows)[x].status.Processing?)
      ensures Value() == Apply(old(Value()), Take(worker, x, now, now + lease))
      ensures worker in claims && claims[worker] == claim && x in rows && Owned(rows[x], worker, claim.revision, now)
    {
      var row := rows[x];
      claim := Claim(x, row.revision + 1, row.status.Processing?);
      var leased := Processing(worker, now + lease);
      rows := rows[x := row.(status := leased, revision := row.revision + 1, updatedAt := now)];
      claims := claims[worker := claim];
    }

    /**
      `claim_next_inbound`, `reclaim_expired_inbound` and their session twins: one
      transaction that takes the first candidate in the store's order, and fails
      when that row is newer than the clock, whatever comes after it.
    */
    method ClaimFirst(inbound: bool, expired: bool, now: int) returns (r: Result<Option<Claim>, BatchError>)
      requires 0 < lease
      modifies this`rows, this`claims
      ensures Chosen(worker, lease, old(Value()), inbound, expired, now, r, Value())
    {
      var candidates := Candidates(rows, inbound, expired, now);
      if candidates == {} {
        return Ok(None);
      }
      ghost var least := Least(rows, inbound, expired, candidates);
      var x :| x in candidates && forall y :: y in candidates && y != x ==> Before(rows, x, y);
      assert First(rows, inbound, expired, now, x);
      assert forall y :: First(rows, inbound, expired, now, y) ==> y == x;
      hide Before, First, Apply, Owned;
      if now < rows[x].updatedAt {
        return Err(InvalidRecord);
      }
      var claim := Lease(x, now);
      return Ok(Some(claim));
    }

    /** `claim_inbound` and `claim_resume`: expired work first, then pending work, in two transactions. */
    method ClaimKind(inbound: bool, now: int, before: seq<Event>, between: seq<Event>)
      returns (r: Result<Option<Claim>, BatchError>, ghost trace: seq<Event>)
      requires 0 < lease && ByOthers(worker, before) && ByOthers(worker, between)
      modifies this
      ensures var w := Run(old(Value()), before);
              if Candidates(w.rows, inbound, true, now) != {} then
                Chosen(worker, lease, w, inbound, true, now, r, Value())
              else Chosen(worker, lease, Run(w, between), inbound, false, now, r, Value())
      ensures Leads(old(Value()), trace, Value(), worker, [])
    {
      hide Run, Leads, Apply, Candidates, First;
      Interfere(before);
      ghost var w := Value();
      r := ClaimFirst(inbound, true, now);
      ghost var more := ChosenLeads(worker, lease, w, inbound, true, now, r, Value());
      LeadsOn(old(Value()), before, w, [], more, Value(), [], worker);
      trace := before + more;
      if r.Err? || r.value.Some? {
        FirstIsCandidate(w.rows, inbound, true, now);
        return;
      }
      ghost var v := Value();
      Interfere(between);
      LeadsOn(old(Value()), trace, v, [], between, Value(), [], worker);
      trace := trace + between;
      v := Value();
      r := ClaimFirst(inbound, false, now);
      more := ChosenLeads(worker, lease, v, inbound, false, now, r, Value());
      LeadsOn(old(Value()), trace, v, [], more, Value(), [], worker);
      trace := trace + more;
    }

    /** Inbound and resume work take turns in being preferred; the other kind is tried when there is none. */
    method ClaimNext(preferInbound: bool, turn: Turn)
      returns (r: Result<Option<Claim>, BatchError>, ghost trace: seq<Event>)
      requires 0 < lease && Fair(turn, worker)
      modifies this
      ensures Leads(old(Value()), trace, Value(), worker, [])
      ensures r.Ok? && r.value.Some? ==> Holds(Value(), worker, r.value.value)
      ensures r.Err? ==> r.error == InvalidRecord
      ensures Undisturbed(turn) && r.Ok? && r.value.Some? && r.value.value.item.Inbound? != preferInbound ==>
                forall x :: x in old(rows) && x.Inbound? == preferInbound ==> !Waiting(old(rows)[x], turn.now)
      ensures Undisturbed(turn) && r == Ok(None) ==> forall x :: x in rows ==> !Waiting(rows[x], turn.now)
    {
      hide Run, Leads, Apply, First, Candidates, Waiting;
      RunNothing(old(Value()));
      r, trace := ClaimKind(preferInbound, turn.now, turn.gaps[0], turn.gaps[1]);
      if r.Err? || r.value.Some? {
        FirstIsOfKind(preferInbound, turn.now);
        return;
      }
      ghost var w := Value();
      ghost var more;
      if Undisturbed(turn) {
        NoneWaits(w.rows, preferInbound, turn.now);
      }
      r, more := ClaimKind(!preferInbound, turn.now, turn.gaps[2], turn.gaps[3]);
      RunNothing(w);
      if Undisturbed(turn) && r == Ok(None) {
        NoneWaits(w.rows, !preferInbound, turn.now);
      }
      LeadsOn(old(Value()), trace, w, [], more, Value(), [], worker);
      trace := trace + more;
    }

    /**
      `handle_item`, after others had their turn: effects and completion commit
      together, or the row fails, or it was lost to another worker; a retryable
      error leaves it leased.
    */
    method HandleItem(claim: Claim, turn: Turn, report0: Report)
      returns (r: Result<Report, BatchError>, ghost trace: seq<Event>)
      requires Holds(Value(), worker, claim) && ByOthers(worker, turn.during)
      modifies this
      ensures trace == turn.during + [Ends(worker, turn)]
      ensures Value() == Apply(Run(old(Value()), turn.during), Ends(worker, turn))
      ensures var w, e := Run(old(Value()), turn.during), Ends(worker, turn);
              && (r.Ok? <==> e.Finish? && CanFinish(w, worker, turn.finishedAt))
              && Leads(old(Value()), trace, Value(), worker,
                       if r.Ok? then [Done(worker, claim.item, EndingOf(turn.handler))] else [])
      ensures r.Ok? ==>
                && r.value == Counted(report0, EndingOf(turn.handler))
                && (turn.handler == HandlerOk ==> r.value == report0.(handled := report0.handled + 1))
                && (turn.handler == HandlerTerminal ==> r.value == report0.(failed := report0.failed + 1))
                && (turn.handler == HandlerTimeout ==>
                      r.value == report0.(failed := report0.failed + 1, timedOut := report0.timedOut + 1))
      ensures r.Ok? ==>
                var w := Run(old(Value()), turn.during);
                && claim.item in rows
                && rows[claim.item].status == (if turn.handler == HandlerOk then Handled else Failed)
                && effects == (if turn.handler == HandlerOk then w.effects + [claim.item] else w.effects)
                && var lost := turn.handler == HandlerTerminal && claim.item.Inbound?;
                   deadletters == w.deadletters + (if lost then {claim.item} else {})
      ensures r.Err? ==> r.error == (if turn.handler.HandlerRetryable? then RetryableHandler
                                     else if turn.finishedAt < 0 then InvalidServerTime else StaleWrite)
    {
      hide Run, Leads, By, Log;
      Interfere(turn.during);
      ghost var w, e := Value(), Ends(worker, turn);
      trace := turn.during + [e];
      LeadsOne(w, e, worker);
      LeadsOn(old(Value()), turn.during, w, [], [e], Apply(w, e), By(Finish1(w, e), worker), worker);
      ghost var d := Done(worker, claim.item, EndingOf(turn.handler));
      ByOne(d, worker);
      assert [] + [d] == [d];
      NothingBy(worker);
      if turn.handler.HandlerRetryable? || turn.finishedAt < 0 {
        claims := Dropped(claims, worker);
        return Err(if turn.handler.HandlerRetryable? then RetryableHandler else InvalidServerTime), trace;
      }
      var row, ending := rows[claim.item], EndingOf(turn.handler);
      claims := Dropped(claims, worker);
      if !Owned(row, worker, claim.revision, turn.finishedAt) {
        return Err(StaleWrite), trace;
      }
      rows := rows[claim.item := row.(status := if ending.Succeeds? then Handled else Failed,
                                      revision := row.revision + 1, updatedAt := turn.finishedAt)];
      if ending.Succeeds? {
        effects := effects + [claim.item];
        return Ok(report0.(handled := report0.handled + 1)), trace;
      }
      if ending.DeadLetters? && claim.item.Inbound? {
        deadletters := deadletters + {claim.item};
      }
      return Ok(report0.(failed := report0.failed + 1,
                         timedOut := report0.timedOut + if ending.TimesOut? then 1 else 0)), trace;
    }

    /**
      `dispatch_batch`, with other workers acting between any two transactions. The
      items this worker finished, each once, are `ends`: a batch that returns
      normally reports exactly those, item for item claimed, and stops before its
      maximum only when nothing was waiting. A batch that fails reports nothing but
      keeps the items finished before.
    */
    method DispatchBatch(turns: seq<Turn>)
      returns (r: Result<Report, BatchError>, ghost trace: seq<Event>, ghost ends: seq<Done>)
      requires 0 < lease && maxItems <= |turns| && Inv(Value())
      requires forall i :: 0 <= i < |turns| ==> Fair(turns[i], worker)
      modifies this
      ensures Run(old(Value()), trace) == Value() && By(Log(old(Value()), trace), worker) == ends && Inv(Value())
      ensures |ends| <= maxItems && Distinct(Items(ends))
      ensures forall d :: d in ends ==>
                && !Over(old(Value()), d.item) && Over(Value(), d.item)
                && (d.item in effects <==> d.ending.Succeeds?)
      ensures r.Ok? ==> Tallies(r.value, ends)
      ensures r.Ok? && |ends| < maxItems && Undisturbed(turns[|ends|]) ==>
                forall x :: x in rows ==> !Waiting(rows[x], turns[|ends|].now)
    {
      hide Inv, Run, Log, By, Leads, Tallies, Undisturbed, Apply, Counted, Over, Ends;
      ghost var start := Value();
      var report := Report(0, 0, 0, 0, 0);
      trace, ends := [], [];
      LeadsNowhere(start, worker);
      TallyNone();
      for index := 0 to maxItems
        invariant Leads(start, trace, Value(), worker, ends)
        invariant |ends| == index && Tallies(report, ends)
      {
        var turn := turns[index];
        if turn.now < 0 || turn.now + lease > I64_MAX {
          Concluded(start, trace, worker, ends, Value());
          return Err(if turn.now < 0 then InvalidServerTime else TimestampOverflow), trace, ends;
        }
        ghost var w := Value();
        var claim, taken := ClaimNext(index % 2 == 0, turn);
        LeadsOn(start, trace, w, ends, taken, Value(), [], worker);
        trace := trace + taken;
        if claim.Err? || claim.value.None? {
          Concluded(start, trace, worker, ends, Value());
          return if claim.Err? then Err(claim.error) else Ok(report), trace, ends;
        }
        w := Value();
        ghost var before, d := report, Done(worker, claim.value.value.item, EndingOf(turn.handler));
        report := report.(claimed := report.claimed + 1,
                          reclaimed := report.reclaimed + if claim.value.value.reclaimed then 1 else 0);
        var outcome, finished := HandleItem(claim.value.value, turn, report);
        LeadsOn(start, trace, w, ends, finished, Value(), if outcome.Ok? then [d] else [], worker);
        trace := trace + finished;
        if outcome.Err? {
          Concluded(start, trace, worker, ends, Value());
          return Err(outcome.error), trace, ends;
        }
        TallyOne(before, ends, d, claim.value.value.reclaimed);
        ends := ends + [d];
        report := outcome.value;
      }
      Concluded(start, trace, worker, ends, Value());
      return Ok(report), trace, ends;
    }
  }
}
