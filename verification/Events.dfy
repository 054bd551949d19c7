/**
  Replay-to-live event subscription: a durable log with a database-assigned
  sequence, a bounded fanout ring, publishers that append and then send under a
  lock, retention, and a subscriber that listens first, snapshots second and
  de-duplicates at the boundary.

  `World` holds the shared stream, one subscriber (subscribers do not affect each
  other) and what it was given so far. `Apply` performs one atomic step; any
  interleaving of publishers, retention and the subscriber is a list of `Event`s.
*/
module Events {
  import opened Prelude

  datatype Topic = MarketSnapshot | RiskSummary | ExecutionSummary | SystemEvent | DeadletterSummary

  /** Ids, accounts and event types are opaque; 0 is the empty string. */
  datatype NewRecord = NewRecord(id: nat, topic: Topic, account: Option<nat>, kind: nat, payload: nat, createdAt: int)

  datatype Record = Record(sequence: nat, event: NewRecord)

  datatype EventFilter = EventFilter(topics: set<Topic>, scope: set<nat>)

  predicate IsGlobal(topic: Topic) {
    topic.SystemEvent? || topic.DeadletterSummary?
  }

  predicate Visible(topic: Topic, account: Option<nat>, scope: set<nat>) {
    match account
    case Some(id) => id in scope
    case None => IsGlobal(topic)
  }

  predicate Matches(f: EventFilter, r: Record) {
    r.event.topic in f.topics && Visible(r.event.topic, r.event.account, f.scope)
  }

  /** The row condition of the replay query. A NULL account is in no list. */
  predicate QuerySelects(f: EventFilter, r: Record) {
    && r.event.topic in f.topics
    && (|| (r.event.account.None? && r.event.topic in {SystemEvent, DeadletterSummary})
        || (f.scope != {} && r.event.account.Some? && r.event.account.value in f.scope))
  }

  /** The matching records of `s` above sequence `low`, in order. */
  function Selected(f: EventFilter, low: nat, s: seq<Record>): seq<Record> {
    if s == [] then []
    else (if low < s[0].sequence && Matches(f, s[0]) then [s[0]] else []) + Selected(f, low, s[1..])
  }

  lemma SelectedAppend(f: EventFilter, low: nat, a: seq<Record>, b: seq<Record>)
    ensures Selected(f, low, a + b) == Selected(f, low, a) + Selected(f, low, b)
  {
    if a == [] {
      assert a + b == b;
    } else {
      assert (a + b)[1..] == a[1..] + b;
      SelectedAppend(f, low, a[1..], b);
    }
  }

  lemma SelectedNone(f: EventFilter, low: nat, s: seq<Record>)
    requires forall r :: r in s ==> r.sequence <= low
    ensures Selected(f, low, s) == []
  {
  }

  lemma SelectedLower(f: EventFilter, low: nat, other: nat, s: seq<Record>)
    requires forall r :: r in s ==> (low < r.sequence <==> other < r.sequence)
    ensures Selected(f, low, s) == Selected(f, other, s)
  {
  }

  lemma SelectedMember(f: EventFilter, low: nat, s: seq<Record>, r: Record)
    ensures r in Selected(f, low, s) <==> r in s && low < r.sequence && Matches(f, r)
  {
  }

  /** Sequences are positive and strictly rising. */
  predicate Rising(s: seq<Record>) {
    && (forall i :: 0 <= i < |s| ==> 0 < s[i].sequence)
    && (forall i, j :: 0 <= i < j < |s| ==> s[i].sequence < s[j].sequence)
  }

  function Top(s: seq<Record>): nat {
    if s == [] then 0 else s[|s| - 1].sequence
  }

  predicate CreatedInOrder(s: seq<Record>) {
    forall i, j :: 0 <= i < j < |s| ==> s[i].event.createdAt <= s[j].event.createdAt
  }

  predicate SuffixOf(s: seq<Record>, whole: seq<Record>) {
    |s| <= |whole| && s == whole[|whole| - |s|..]
  }

  // ---------------------------------------------------------------------
  // The durable log.

  datatype Append = Inserted(record: Record) | Duplicate(record: Record) | Conflict | Invalid

  predicate ValidNew(e: NewRecord) {
    e.id != 0 && e.kind != 0 && e.account != Some(0) && (e.account.None? ==> IsGlobal(e.topic))
  }

  function Find(log: seq<Record>, id: nat): (r: Option<Record>)
    ensures r.Some? ==> r.value in log && r.value.event.id == id
    ensures r.None? ==> forall x :: x in log ==> x.event.id != id
  {
    if log == [] then None else if log[0].event.id == id then Some(log[0]) else Find(log[1..], id)
  }

  function AppendOutcome(log: seq<Record>, e: NewRecord, sequence: nat): Append {
    if !ValidNew(e) then Invalid
    else match Find(log, e.id)
      case None => Inserted(Record(sequence, e))
      case Some(stored) => if stored.event == e then Duplicate(stored) else Conflict
  }

  /** An event is stored once under its id: what an append answers, exactly. */
  lemma AppendAnswers(log: seq<Record>, e: NewRecord, sequence: nat)
    ensures var a := AppendOutcome(log, e, sequence);
            && (a == Invalid <==>
                  e.id == 0 || e.kind == 0 || e.account == Some(0)
                  || (e.account == None && e.topic !in {SystemEvent, DeadletterSummary}))
            && (a.Inserted? ==> a.record == Record(sequence, e) && forall r :: r in log ==> r.event.id != e.id)
            && (a.Duplicate? ==> a.record in log && a.record.event == e)
            && (a == Conflict ==> exists r :: r in log && r.event.id == e.id && r.event != e)
            && (a != Invalid && (forall r :: r in log ==> r.event.id != e.id) ==> a.Inserted?)
  {
  }

  datatype Retention = Retention(retainLatest: Option<nat>, createdAtOrAfter: Option<int>)

  predicate ValidRetention(p: Retention) {
    (p.retainLatest.Some? || p.createdAtOrAfter.Some?) && p.retainLatest != Some(0)
  }

  function Cutoff(log: seq<Record>, p: Retention): Option<nat> {
    if p.retainLatest.Some? && p.retainLatest.value < |log| then
      Some(log[|log| - 1 - p.retainLatest.value].sequence)
    else None
  }

  predicate Expired(r: Record, cutoff: Option<nat>, p: Retention) {
    || (cutoff.Some? && r.sequence <= cutoff.value)
    || (p.createdAtOrAfter.Some? && r.event.createdAt < p.createdAtOrAfter.value)
  }

  function Retained(log: seq<Record>, cutoff: Option<nat>, p: Retention): (kept: seq<Record>)
    ensures forall r :: r in kept <==> r in log && !Expired(r, cutoff, p)
    ensures |kept| <= |log|
  {
    if log == [] then []
    else (if Expired(log[0], cutoff, p) then [] else [log[0]]) + Retained(log[1..], cutoff, p)
  }

  predicate ExpiresInOrder(log: seq<Record>, cutoff: Option<nat>, p: Retention) {
    forall i, j :: 0 <= i < j < |log| && Expired(log[j], cutoff, p) ==> Expired(log[i], cutoff, p)
  }

  /** Retention drops a prefix of the log exactly when no expired row follows one that stays. */
  lemma {:induction false} RetentionDropsPrefix(log: seq<Record>, cutoff: Option<nat>, p: Retention)
    requires Rising(log)
    ensures SuffixOf(Retained(log, cutoff, p), log) <==> ExpiresInOrder(log, cutoff, p)
  {
    if log != [] {
      RisingTail(log);
      hide Rising, Expired;
      if Expired(log[0], cutoff, p) {
        RetentionDropsPrefix(log[1..], cutoff, p);
        var kept := Retained(log, cutoff, p);
        assert kept == Retained(log[1..], cutoff, p);
        assert |kept| < |log| && log[|log| - |kept|..] == log[1..][|log| - 1 - |kept|..];
        ExpiresInOrderTail(log, cutoff, p);
      } else {
        FirstRetained(log, cutoff, p);
      }
    }
  }

  lemma RisingTail(log: seq<Record>)
    requires Rising(log) && log != []
    ensures Rising(log[1..])
  {
  }

  /** A log whose first row stays keeps a suffix only by keeping everything. */
  lemma FirstRetained(log: seq<Record>, cutoff: Option<nat>, p: Retention)
    requires Rising(log) && log != [] && !Expired(log[0], cutoff, p)
    ensures SuffixOf(Retained(log, cutoff, p), log) <==> ExpiresInOrder(log, cutoff, p)
  {
    hide Expired;
    var kept := Retained(log, cutoff, p);
    if SuffixOf(kept, log) {
      assert kept[0] == log[0] == log[|log| - |kept|];
      assert kept == log;
      forall j | 0 <= j < |log| ensures !Expired(log[j], cutoff, p) {
        assert log[j] in kept;
      }
    }
    hide Rising;
    if ExpiresInOrder(log, cutoff, p) {
      AllRetained(log, cutoff, p);
    }
  }

  lemma ExpiresInOrderTail(log: seq<Record>, cutoff: Option<nat>, p: Retention)
    requires log != [] && Expired(log[0], cutoff, p)
    ensures ExpiresInOrder(log, cutoff, p) <==> ExpiresInOrder(log[1..], cutoff, p)
  {
  }

  lemma AllRetained(log: seq<Record>, cutoff: Option<nat>, p: Retention)
    requires forall j :: 0 <= j < |log| ==> !Expired(log[j], cutoff, p)
    ensures Retained(log, cutoff, p) == log
  {
  }

  /** So with creation times in log order retention can only shorten the log from its old end. */
  lemma OrderedRetention(log: seq<Record>, p: Retention)
    requires Rising(log) && CreatedInOrder(log)
    ensures SuffixOf(Retained(log, Cutoff(log, p), p), log)
  {
    RetentionDropsPrefix(log, Cutoff(log, p), p);
  }

  /** The latest `n` rows of a log, or all of them. */
  function LatestRows(log: seq<Record>, n: Option<nat>): seq<Record> {
    if n.Some? && n.value < |log| then log[|log| - n.value..] else log
  }

  predicate RecentEnough(r: Record, date: Option<int>) {
    date.Some? ==> date.value <= r.event.createdAt
  }

  /** What retention leaves: the latest rows of the wanted number, less those older than the date. */
  function Remaining(log: seq<Record>, p: Retention): seq<Record> {
    Filter((r: Record) => RecentEnough(r, p.createdAtOrAfter), LatestRows(log, p.retainLatest))
  }

  lemma RetentionKeepsLatest(log: seq<Record>, p: Retention)
    requires Rising(log)
    ensures Retained(log, Cutoff(log, p), p) == Remaining(log, p)
    ensures p.createdAtOrAfter.None? ==> Remaining(log, p) == LatestRows(log, p.retainLatest)
  {
    var cutoff, latest := Cutoff(log, p), LatestRows(log, p.retainLatest);
    var dropped := log[..|log| - |latest|];
    assert log == dropped + latest;
    assert forall r :: r in dropped ==> Expired(r, cutoff, p);
    assert forall r :: r in latest ==> !(cutoff.Some? && r.sequence <= cutoff.value);
    hide Rising, Cutoff;
    RetainedAppend(dropped, latest, cutoff, p);
    NoneRetained(dropped, cutoff, p);
    RetainedByDate(latest, cutoff, p);
    if p.createdAtOrAfter.None? {
      AllRecent(latest, p);
    }
  }

  lemma {:induction false} RetainedAppend(a: seq<Record>, b: seq<Record>, cutoff: Option<nat>, p: Retention)
    ensures Retained(a + b, cutoff, p) == Retained(a, cutoff, p) + Retained(b, cutoff, p)
  {
    hide Expired;
    if a == [] {
      assert a + b == b;
    } else {
      assert (a + b)[1..] == a[1..] + b;
      RetainedAppend(a[1..], b, cutoff, p);
    }
  }

  lemma NoneRetained(log: seq<Record>, cutoff: Option<nat>, p: Retention)
    requires forall r :: r in log ==> Expired(r, cutoff, p)
    ensures Retained(log, cutoff, p) == []
  {
  }

  lemma {:induction false} RetainedByDate(log: seq<Record>, cutoff: Option<nat>, p: Retention)
    requires forall r :: r in log ==> !(cutoff.Some? && r.sequence <= cutoff.value)
    ensures Retained(log, cutoff, p) == Filter((r: Record) => RecentEnough(r, p.createdAtOrAfter), log)
  {
    if log != [] {
      RetainedByDate(log[1..], cutoff, p);
      FilterFirst((r: Record) => RecentEnough(r, p.createdAtOrAfter), log);
      assert log[0] in log;
    }
  }

  lemma {:induction false} AllRecent(log: seq<Record>, p: Retention)
    requires p.createdAtOrAfter.None?
    ensures Filter((r: Record) => RecentEnough(r, p.createdAtOrAfter), log) == log
  {
    if log != [] {
      AllRecent(log[1..], p);
      FilterFirst((r: Record) => RecentEnough(r, p.createdAtOrAfter), log);
    }
  }

  lemma RetainedRising(log: seq<Record>, cutoff: Option<nat>, p: Retention)
    requires Rising(log)
    ensures Rising(Retained(log, cutoff, p))
  {
    if log != [] {
      RisingTail(log);
      RetainedRising(log[1..], cutoff, p);
      var rest := Retained(log[1..], cutoff, p);
      assert forall r :: r in rest ==> r in log[1..];
      hide Expired, Retained;
      RisingCons(log[0], rest);
      RetainedStep(log, cutoff, p);
    }
  }

  lemma RetainedStep(log: seq<Record>, cutoff: Option<nat>, p: Retention)
    requires log != []
    ensures var rest := Retained(log[1..], cutoff, p);
            Retained(log, cutoff, p) == rest || Retained(log, cutoff, p) == [log[0]] + rest
  {
  }

  lemma RisingCons(x: Record, s: seq<Record>)
    requires Rising(s) && 0 < x.sequence && forall r :: r in s ==> x.sequence < r.sequence
    ensures Rising([x] + s)
  {
  }

  // ---------------------------------------------------------------------
  // Subscribing.

  datatype Request = Request(topics: seq<Topic>, account: Option<nat>, cursor: Option<nat>)

  datatype Refusal =
    | EmptyTopics
    | DuplicateTopic
    | UnauthorizedAccount
    | EmptyCursor
    | CursorExpired
    | ReplayLimitExceeded
    | InvalidLimit

  function FilterOf(q: Request, principal: set<nat>): Result<EventFilter, Refusal> {
    if q.topics == [] then Err(EmptyTopics)
    else if !Distinct(q.topics) then Err(DuplicateTopic)
    else if q.cursor == Some(0) then Err(EmptyCursor)
    else match q.account
      case None => Ok(EventFilter((set t | t in q.topics), principal))
      case Some(account) =>
        if account !in principal then Err(UnauthorizedAccount)
        else Ok(EventFilter((set t | t in q.topics), {account}))
  }

  /** `subscription_filter`: topics are collected into a set one by one. */
  method SubscriptionFilter(q: Request, principal: set<nat>) returns (r: Result<EventFilter, Refusal>)
    ensures r == FilterOf(q, principal)
    ensures r == Err(EmptyTopics) <==> q.topics == []
    ensures r == Err(DuplicateTopic) <==> !Distinct(q.topics)
    ensures r == Err(EmptyCursor) <==> q.topics != [] && Distinct(q.topics) && q.cursor == Some(0)
    ensures r == Err(UnauthorizedAccount) <==>
              && q.topics != [] && Distinct(q.topics) && q.cursor != Some(0)
              && q.account.Some? && q.account.value !in principal
    ensures r.Err? ==> r.error in {EmptyTopics, DuplicateTopic, EmptyCursor, UnauthorizedAccount}
    ensures r.Ok? ==>
              && (forall t :: t in r.value.topics <==> t in q.topics) && r.value.scope <= principal
              && r.value.scope == if q.account.Some? then {q.account.value} else principal
  {
    if q.topics == [] {
      return Err(EmptyTopics);
    }
    var topics: set<Topic> := {};
    for i := 0 to |q.topics|
      invariant topics == set t | t in q.topics[..i]
      invariant Distinct(q.topics[..i])
    {
      assert q.topics[..i + 1] == q.topics[..i] + [q.topics[i]];
      if q.topics[i] in topics {
        assert exists j :: 0 <= j < i && q.topics[j] == q.topics[i];
        return Err(DuplicateTopic);
      }
      topics := topics + {q.topics[i]};
    }
    assert q.topics[..|q.topics|] == q.topics;
    if q.cursor == Some(0) {
      return Err(EmptyCursor);
    }
    match q.account {
      case None => return Ok(EventFilter(topics, principal));
      case Some(account) =>
        if account !in principal {
          return Err(UnauthorizedAccount);
        }
        return Ok(EventFilter(topics, {account}));
    }
  }

  /** The replay query: rows after the cursor, up to the high water, at most `limit + 1` of them. */
  function Query(f: EventFilter, after: nat, upTo: nat, log: seq<Record>): seq<Record> {
    if log == [] then []
    else
      (if after < log[0].sequence <= upTo && QuerySelects(f, log[0]) then [log[0]] else [])
      + Query(f, after, upTo, log[1..])
  }

  datatype Window = Window(highWater: Option<nat>, records: seq<Record>, hasMore: bool)

  /** One read snapshot: the high water and the rows after the cursor. */
  function Replay(log: seq<Record>, cursor: Option<nat>, f: EventFilter, limit: nat): Result<Window, Refusal> {
    if limit == 0 then Err(InvalidLimit)
    else
      var highWater := if log == [] then None else Some(Top(log));
      match cursor
      case None => Ok(Window(highWater, [], false))
      case Some(id) =>
        match Find(log, id)
        case None => Err(CursorExpired)
        case Some(row) =>
          if !Visible(row.event.topic, row.event.account, f.scope) || highWater.None? then Err(CursorExpired)
          else if f.topics == {} || row.sequence >= highWater.value then Ok(Window(highWater, [], false))
          else if limit + 1 > I64_MAX then Err(InvalidLimit)
          else
            var rows := Query(f, row.sequence, highWater.value, log);
            if |rows| > limit then Ok(Window(highWater, rows[..limit], true))
            else Ok(Window(highWater, rows, false))
  }

  /** The query and the in-memory filter agree on every row. */
  lemma QueryIsSelection(f: EventFilter, after: nat, upTo: nat, log: seq<Record>)
    requires forall r :: r in log ==> r.sequence <= upTo
    ensures Query(f, after, upTo, log) == Selected(f, after, log)
  {
  }

  datatype CloseReason = SlowConsumer(skipped: nat) | ManagerClosed

  datatype Subscription = Subscription(
    replay: seq<Record>,
    next: nat,
    filter: EventFilter,
    highWater: nat,
    lastDelivered: nat,
    terminal: Option<CloseReason>)

  datatype Outcome = Deliver(record: Record) | Skipped | Waiting | Closed(reason: CloseReason)

  /** The fanout ring as one receiver sees it: everything sent, of which the last `capacity` are kept. */
  datatype Ring = Ring(sent: seq<Record>, capacity: nat, open: bool)

  predicate Wanted(s: Subscription, r: Record) {
    s.highWater < r.sequence && s.lastDelivered < r.sequence && Matches(s.filter, r)
  }

  /** One turn of `recv`; `Skipped` when its loop goes round. */
  function Poll(s: Subscription, ring: Ring): (Subscription, Outcome) {
    if s.terminal.Some? then (s, Closed(s.terminal.value))
    else if s.replay != [] then
      (s.(replay := s.replay[1..], lastDelivered := s.replay[0].sequence), Deliver(s.replay[0]))
    else if s.next + ring.capacity < |ring.sent| then
      var reason := SlowConsumer(|ring.sent| - ring.capacity - s.next);
      (s.(next := |ring.sent| - ring.capacity, terminal := Some(reason)), Closed(reason))
    else if s.next < |ring.sent| then
      var r := ring.sent[s.next];
      if Wanted(s, r) then (s.(next := s.next + 1, lastDelivered := r.sequence), Deliver(r))
      else (s.(next := s.next + 1), Skipped)
    else if ring.open then (s, Waiting)
    else (s.(terminal := Some(ManagerClosed)), Closed(ManagerClosed))
  }

  // ---------------------------------------------------------------------
  // The interleaved system.

  datatype Subscriber =
    | Absent
    | Listening(filter: EventFilter, cursor: Option<nat>, next: nat)
    | Live(subscription: Subscription)
    | Refused(reason: Refusal)

  /**
    `history` is every record ever committed, `log` the rows still stored, `sent`
    what entered the ring. `held` is the committed record of the publisher that
    holds the lock and has not sent yet. `bypassed` tells whether some append did
    not go through `publish`. `joined`, `snapshot`, `mark` and `from` remember the
    subscriber's moments: ring position when it began to listen, log and history
    length at its snapshot, and the sequence its replay starts after.
  */
  datatype World = World(
    limit: nat,
    capacity: nat,
    history: seq<Record>,
    log: seq<Record>,
    held: Option<Record>,
    sent: seq<Record>,
    open: bool,
    bypassed: bool,
    subscriber: Subscriber,
    delivered: seq<Record>,
    joined: nat,
    snapshot: seq<Record>,
    mark: nat,
    from: nat)

  datatype Event =
    | Commit(event: NewRecord, gap: nat)
    | Send
    | AppendOutside(event: NewRecord, gap: nat)
    | Prune(policy: Retention)
    | CloseManager
    | Listen(request: Request, principal: set<nat>)
    | TakeSnapshot
    | Receive

  function Init(limit: nat, capacity: nat): World {
    World(limit, capacity, [], [], None, [], true, false, Absent, [], 0, [], 0, 0)
  }

  function Appended(w: World, e: NewRecord, gap: nat): Option<Record> {
    match AppendOutcome(w.log, e, Top(w.history) + 1 + gap)
    case Inserted(r) => Some(r)
    case _ => None
  }

  function TheRing(w: World): Ring {
    Ring(w.sent, w.capacity, w.open)
  }

  function Subscribed(w: World, f: EventFilter, next: nat, window: Window, cursor: Option<nat>): World {
    var highWater := if window.highWater.Some? then window.highWater.value else 0;
    w.(subscriber := Live(Subscription(window.records, next, f, highWater, 0, None)),
       snapshot := w.log, mark := |w.history|,
       from := if cursor.None? then highWater
               else match Find(w.log, cursor.value) case Some(row) => row.sequence case None => highWater)
  }

  function Apply(w: World, e: Event): World {
    match e
    case Commit(event, gap) =>
      if w.held.Some? || !w.open then w
      else (match Appended(w, event, gap)
        case None => w
        case Some(r) => w.(history := w.history + [r], log := w.log + [r], held := Some(r)))
    case Send =>
      if w.held.None? then w else w.(sent := w.sent + [w.held.value], held := None)
    case AppendOutside(event, gap) =>
      (match Appended(w, event, gap)
        case None => w
        case Some(r) => w.(history := w.history + [r], log := w.log + [r], bypassed := true))
    case Prune(policy) =>
      if ValidRetention(policy) then w.(log := Retained(w.log, Cutoff(w.log, policy), policy)) else w
    case CloseManager =>
      if w.held.None? then w.(open := false) else w
    case Listen(request, principal) =>
      if !w.subscriber.Absent? || !w.open then w
      else (match FilterOf(request, principal)
        case Err(reason) => w.(subscriber := Refused(reason))
        case Ok(f) => w.(subscriber := Listening(f, request.cursor, |w.sent|), joined := |w.sent|))
    case TakeSnapshot =>
      (match w.subscriber
        case Listening(f, cursor, next) =>
          (match Replay(w.log, cursor, f, w.limit)
            case Err(reason) => w.(subscriber := Refused(reason))
            case Ok(window) =>
              if window.hasMore then w.(subscriber := Refused(ReplayLimitExceeded))
              else Subscribed(w, f, next, window, cursor))
        case _ => w)
    case Receive =>
      if !w.subscriber.Live? then w
      else
        var (s, outcome) := Poll(w.subscriber.subscription, TheRing(w));
        w.(subscriber := Live(s),
           delivered := if outcome.Deliver? then w.delivered + [outcome.record] else w.delivered)
  }

  function Run(w: World, events: seq<Event>): World
    decreases |events|
  {
    if events == [] then w else Run(Apply(w, events[0]), events[1..])
  }

  /** What the publishers' and the operator's steps do to the stream. */
  lemma StreamTurns(w: World, e: NewRecord, gap: nat, p: Retention)
    requires Rising(w.log)
    ensures var t := Apply(w, Prune(p));
            if (p.retainLatest.Some? || p.createdAtOrAfter.Some?) && p.retainLatest != Some(0) then
              t == w.(log := Remaining(w.log, p))
            else t == w
    ensures Apply(w, CloseManager) == if w.held.None? then w.(open := false) else w
    ensures Apply(w, Send) == if w.held.None? then w else w.(sent := w.sent + [w.held.value], held := None)
    ensures var t, a := Apply(w, Commit(e, gap)), AppendOutcome(w.log, e, Top(w.history) + 1 + gap);
            if w.open && w.held.None? && a.Inserted? then
              && t.history == w.history + [a.record] && t.log == w.log + [a.record] && t.held == Some(a.record)
              && t.sent == w.sent && t.bypassed == w.bypassed
            else t == w
  {
    RetentionKeepsLatest(w.log, p);
    hide Rising, Remaining, Retained, Cutoff, AppendOutcome;
  }

  /** How a subscription comes about: it listens from the ring's end, or is refused with the reason of its step. */
  lemma SubscriberTurns(w: World, q: Request, principal: set<nat>)
    ensures var t, f := Apply(w, Listen(q, principal)), FilterOf(q, principal);
            if w.subscriber != Absent || !w.open then t == w
            else if f.Err? then t == w.(subscriber := Refused(f.error))
            else t == w.(subscriber := Listening(f.value, q.cursor, |w.sent|), joined := |w.sent|)
    ensures w.subscriber.Listening? ==>
              var t, s := Apply(w, TakeSnapshot), w.subscriber;
              var window := Replay(w.log, s.cursor, s.filter, w.limit);
              && (window.Err? ==> t == w.(subscriber := Refused(window.error)))
              && (window.Ok? && window.value.hasMore ==> t == w.(subscriber := Refused(ReplayLimitExceeded)))
              && (window.Ok? && !window.value.hasMore ==>
                    && t.subscriber.Live?
                    && t.subscriber.subscription
                       == Subscription(window.value.records, s.next, s.filter, Top(w.log), 0, None))
    ensures !w.subscriber.Listening? ==> Apply(w, TakeSnapshot) == w
  {
    hide FilterOf;
  }

  // ---------------------------------------------------------------------
  // The invariant.

  function Held(w: World): seq<Record> {
    if w.held.Some? then [w.held.value] else []
  }

  ghost predicate Stored(w: World) {
    && Rising(w.history) && Rising(w.log)
    && (forall r :: r in w.log ==> r in w.history)
    && Rising(w.sent + Held(w))
    && (forall r :: r in w.sent + Held(w) ==> r in w.history)
    && (!w.bypassed ==> w.sent + Held(w) == w.history)
    && (CreatedInOrder(w.history) ==> SuffixOf(w.log, w.history))
  }

  /** Everything the subscriber is owed given its snapshot and what has been sent. */
  function Owed(w: World, s: Subscription): seq<Record>
    requires w.joined <= |w.sent|
  {
    Selected(s.filter, w.from, w.snapshot) + Selected(s.filter, s.highWater, w.sent[w.joined..])
  }

  /** Nothing still to come is at or below what was delivered. */
  predicate Caught(w: World, s: Subscription)
    requires s.next <= |w.sent|
  {
    s.lastDelivered <= s.highWater || s.lastDelivered <= Top(w.sent[..s.next])
  }

  ghost predicate Tracking(w: World, s: Subscription) {
    && w.joined <= s.next <= |w.sent| && (s.terminal.None? ==> Caught(w, s))
    && (forall r :: r in s.replay ==> r.sequence <= s.highWater)
    && (if s.terminal.None? then
          w.delivered + s.replay + Selected(s.filter, s.highWater, w.sent[s.next..]) == Owed(w, s)
        else w.delivered <= Owed(w, s))
  }

  /** What the snapshot fixed: the high water is the top of the log, and the log a suffix of the history. */
  ghost predicate Snapped(w: World, s: Subscription) {
    && Rising(w.snapshot) && s.highWater == Top(w.snapshot) && w.from <= s.highWater
    && (w.snapshot != [] ==> w.snapshot[0].sequence <= w.from)
    && w.mark <= |w.history| && (forall r :: r in w.snapshot ==> r in w.history[..w.mark])
    && (CreatedInOrder(w.history) ==> SuffixOf(w.snapshot, w.history[..w.mark]))
    && (!w.bypassed ==> w.joined <= w.mark <= |w.sent + Held(w)|)
  }

  ghost predicate Inv(w: World) {
    && Stored(w)
    && (match w.subscriber
        case Absent => w.delivered == []
        case Refused(_) => w.delivered == []
        case Listening(f, _, next) => w.delivered == [] && next == w.joined <= |w.sent|
        case Live(s) => Tracking(w, s) && Snapped(w, s))
  }

  lemma RisingSnoc(s: seq<Record>, r: Record)
    requires Rising(s) && Top(s) < r.sequence
    ensures Rising(s + [r])
  {
  }

  lemma RisingBelowTop(s: seq<Record>, r: Record)
    requires Rising(s) && r in s
    ensures r.sequence <= Top(s)
  {
  }

  /** A record entering the history and the log. */
  lemma AppendStored(w: World, r: Record)
    requires Stored(w) && Top(w.history) < r.sequence
    ensures Rising(w.history + [r]) && Rising(w.log + [r])
    ensures CreatedInOrder(w.history + [r]) ==> SuffixOf(w.log + [r], w.history + [r])
    ensures forall x :: x in w.sent + Held(w) ==> x.sequence < r.sequence
  {
    hide Rising, CreatedInOrder, SuffixOf;
    RisingSnoc(w.history, r);
    if w.log != [] {
      assert w.log[|w.log| - 1] in w.history;
      RisingBelowTop(w.history, w.log[|w.log| - 1]);
    }
    RisingSnoc(w.log, r);
    forall x | x in w.sent + Held(w) ensures x.sequence < r.sequence {
      RisingBelowTop(w.history, x);
    }
    if CreatedInOrder(w.history + [r]) {
      SuffixGrows(w.log, w.history, r);
    }
  }

  lemma SuffixGrows(s: seq<Record>, whole: seq<Record>, r: Record)
    requires CreatedInOrder(whole + [r]) && (CreatedInOrder(whole) ==> SuffixOf(s, whole))
    ensures SuffixOf(s + [r], whole + [r])
  {
    var more := whole + [r];
    assert forall i :: 0 <= i < |whole| ==> more[i] == whole[i];
    assert CreatedInOrder(whole);
    var k := |whole| - |s|;
    assert more[k..] == whole[k..] + [r];
  }

  lemma CommitKeeps(w: World, r: Record, t: World)
    requires Inv(w) && Top(w.history) < r.sequence && w.held.None?
    requires t == w.(history := w.history + [r], log := w.log + [r], held := Some(r))
    ensures Inv(t)
  {
    CommitStored(w, r, t);
    hide Selected, Stored, Rising, Snapped, Tracking;
    HistoryGrows(w, r, t);
  }

  lemma CommitStored(w: World, r: Record, t: World)
    requires Stored(w) && Top(w.history) < r.sequence && w.held.None?
    requires t == w.(history := w.history + [r], log := w.log + [r], held := Some(r))
    ensures Stored(t)
  {
    AppendStored(w, r);
    HoldNext(w, r);
    assert Held(t) == [r];
    hide Rising, CreatedInOrder, SuffixOf, AppendOutcome;
  }

  lemma HoldNext(w: World, r: Record)
    requires Rising(w.sent + Held(w)) && w.held.None?
    requires forall x :: x in w.sent + Held(w) ==> x.sequence < r.sequence
    requires 0 < r.sequence
    ensures w.sent + Held(w) == w.sent && Rising(w.sent + [r])
  {
  }

  lemma OutsideKeeps(w: World, r: Record, t: World)
    requires Inv(w) && Top(w.history) < r.sequence
    requires t == w.(history := w.history + [r], log := w.log + [r], bypassed := true)
    ensures Inv(t)
  {
    AppendStored(w, r);
    hide Selected;
    HistoryGrows(w, r, t);
  }

  lemma HistoryGrows(w: World, r: Record, t: World)
    requires t.history == w.history + [r] && t.sent == w.sent && t.subscriber == w.subscriber
    requires t.delivered == w.delivered && t.joined == w.joined && t.snapshot == w.snapshot
    requires t.mark == w.mark && t.from == w.from && |Held(w)| <= |Held(t)| && (w.bypassed ==> t.bypassed)
    requires w.subscriber.Live? ==> Tracking(w, w.subscriber.subscription) && Snapped(w, w.subscriber.subscription)
    ensures w.subscriber.Live? ==> Tracking(t, w.subscriber.subscription) && Snapped(t, w.subscriber.subscription)
  {
    if w.subscriber.Live? {
      assert t.history[..w.mark] == w.history[..w.mark];
      assert CreatedInOrder(t.history) ==> CreatedInOrder(w.history) by {
        assert forall i :: 0 <= i < |w.history| ==> t.history[i] == w.history[i];
      }
    }
  }

  lemma SendKeeps(w: World)
    requires Inv(w) && w.held.Some?
    ensures Inv(Apply(w, Send))
  {
    var t := Apply(w, Send);
    SendStored(w);
    hide Stored, Selected;
    if w.subscriber.Live? {
      SendTracking(w, w.subscriber.subscription);
      hide Tracking;
      assert t.sent + Held(t) == w.sent + Held(w);
    }
  }

  lemma SendStored(w: World)
    requires Stored(w) && w.held.Some?
    ensures Stored(Apply(w, Send))
  {
    var t := Apply(w, Send);
    assert t.sent + Held(t) == w.sent + Held(w);
    hide Rising;
  }

  lemma SendTracking(w: World, s: Subscription)
    requires Tracking(w, s) && w.held.Some?
    ensures Tracking(Apply(w, Send), s)
  {
    var t := Apply(w, Send);
    var r := w.held.value;
    assert t.sent[..s.next] == w.sent[..s.next];
    if s.terminal.None? {
      SendOwes(w, s, s.next);
    }
    SendOwes(w, s, w.joined);
    hide Selected;
    var more := Selected(s.filter, s.highWater, [r]);
    assert Owed(t, s) == Owed(w, s) + more;
    if s.terminal.None? {
      assert w.delivered + s.replay + Selected(s.filter, s.highWater, t.sent[s.next..])
          == w.delivered + s.replay + Selected(s.filter, s.highWater, w.sent[s.next..]) + more;
    }
  }

  lemma SendOwes(w: World, s: Subscription, i: nat)
    requires i <= |w.sent| && w.held.Some?
    ensures Selected(s.filter, s.highWater, Apply(w, Send).sent[i..])
         == Selected(s.filter, s.highWater, w.sent[i..]) + Selected(s.filter, s.highWater, [w.held.value])
  {
    assert (w.sent + [w.held.value])[i..] == w.sent[i..] + [w.held.value];
    SelectedAppend(s.filter, s.highWater, w.sent[i..], [w.held.value]);
  }

  lemma PruneKeeps(w: World, policy: Retention)
    requires Inv(w)
    ensures Inv(Apply(w, Prune(policy)))
  {
    hide Selected, ValidRetention, Rising, Cutoff, Expired;
    PruneStored(w, policy);
    assert w.subscriber.Live? ==> Snapped(w, w.subscriber.subscription);
    hide Stored;
  }

  lemma PruneStored(w: World, policy: Retention)
    requires Stored(w)
    ensures Stored(w.(log := Retained(w.log, Cutoff(w.log, policy), policy)))
  {
    hide Rising, Cutoff, Expired, Retained;
    var kept := Retained(w.log, Cutoff(w.log, policy), policy);
    RetainedRising(w.log, Cutoff(w.log, policy), policy);
    if CreatedInOrder(w.history) {
      PruneSuffix(w.history, w.log, policy);
    }
    hide CreatedInOrder, SuffixOf;
    assert Held(w.(log := kept)) == Held(w);
  }

  lemma PruneSuffix(history: seq<Record>, log: seq<Record>, policy: Retention)
    requires Rising(log) && CreatedInOrder(history) && SuffixOf(log, history)
    ensures SuffixOf(Retained(log, Cutoff(log, policy), policy), history)
  {
    assert CreatedInOrder(log);
    OrderedRetention(log, policy);
    hide CreatedInOrder, Rising, Cutoff, Expired;
    var kept := Retained(log, Cutoff(log, policy), policy);
    assert log[|log| - |kept|..] == history[|history| - |kept|..];
  }

  lemma SnapshotKeeps(w: World)
    requires Inv(w)
    ensures Inv(Apply(w, TakeSnapshot))
  {
    hide Replay, Tracking, Snapped, Stored;
    if w.subscriber.Listening? {
      var f, cursor, next := w.subscriber.filter, w.subscriber.cursor, w.subscriber.next;
      var replay := Replay(w.log, cursor, f, w.limit);
      if replay.Ok? && !replay.value.hasMore {
        SnapshotTracks(w, f, next, replay.value, cursor);
        SnapshotTaken(w, f, next, replay.value, cursor);
      }
      StoredFrame(w, Apply(w, TakeSnapshot));
    }
  }

  lemma StoredFrame(w: World, t: World)
    requires Stored(w) && t.history == w.history && t.log == w.log && t.sent == w.sent && t.held == w.held
    requires t.bypassed == w.bypassed
    ensures Stored(t)
  {
  }

  lemma SnapshotTaken(w: World, f: EventFilter, next: nat, window: Window, cursor: Option<nat>)
    requires Stored(w) && next == w.joined <= |w.sent|
    requires Replay(w.log, cursor, f, w.limit) == Ok(window) && !window.hasMore
    ensures var t := Subscribed(w, f, next, window, cursor);
            Snapped(t, t.subscriber.subscription)
  {
    ReplayWindow(w.log, cursor, f, w.limit);
    hide Replay, Selected, Rising, CreatedInOrder, SuffixOf;
    var t := Subscribed(w, f, next, window, cursor);
    assert w.history[..|w.history|] == w.history && Held(t) == Held(w);
  }

  lemma SnapshotTracks(w: World, f: EventFilter, next: nat, window: Window, cursor: Option<nat>)
    requires Stored(w) && w.delivered == [] && next == w.joined <= |w.sent|
    requires Replay(w.log, cursor, f, w.limit) == Ok(window) && !window.hasMore
    ensures var t := Subscribed(w, f, next, window, cursor);
            Tracking(t, t.subscriber.subscription)
  {
    hide Replay, Selected, Rising, CreatedInOrder, SuffixOf, Visible;
    ReplayWindow(w.log, cursor, f, w.limit);
    var t := Subscribed(w, f, next, window, cursor);
    var s := t.subscriber.subscription;
    assert w.delivered + s.replay + Selected(f, s.highWater, w.sent[next..])
        == s.replay + Selected(f, s.highWater, w.sent[next..]);
  }

  /** The rows a snapshot returns are exactly the matching ones after the cursor, or none without a cursor. */
  lemma ReplayWindow(log: seq<Record>, cursor: Option<nat>, f: EventFilter, limit: nat)
    requires Rising(log) && Replay(log, cursor, f, limit).Ok? && !Replay(log, cursor, f, limit).value.hasMore
    ensures var window := Replay(log, cursor, f, limit).value;
            var from := if cursor.None? then Top(log) else Find(log, cursor.value).value.sequence;
            && (cursor.Some? ==> Find(log, cursor.value).Some?)
            && (window.highWater == if log == [] then None else Some(Top(log)))
            && from <= Top(log) && (log != [] ==> log[0].sequence <= from)
            && window.records == Selected(f, from, log)
            && forall r :: r in window.records ==> r.sequence <= Top(log)
  {
    forall r | r in log ensures r.sequence <= Top(log) {
      RisingBelowTop(log, r);
    }
    SelectedNone(f, Top(log), log);
    if cursor.Some? {
      var row := Find(log, cursor.value).value;
      QueryIsSelection(f, row.sequence, Top(log), log);
      NoTopics(f, row.sequence, log);
      forall r | r in Selected(f, row.sequence, log) ensures r.sequence <= Top(log) {
        SelectedMember(f, row.sequence, log, r);
      }
    }
  }

  /** When a snapshot is refused, and what a limit does: the first `limit` rows, and the news that there are more. */
  lemma ReplayAnswers(log: seq<Record>, cursor: Option<nat>, f: EventFilter, limit: nat)
    requires Rising(log) && limit < I64_MAX
    ensures var r := Replay(log, cursor, f, limit);
            var row := if cursor.Some? then Find(log, cursor.value) else None;
            && (r == Err(InvalidLimit) <==> limit == 0)
            && (r == Err(CursorExpired) <==>
                  && limit != 0 && cursor.Some?
                  && (row.None? || (if row.value.event.account.Some? then row.value.event.account.value !in f.scope
                                    else row.value.event.topic !in {SystemEvent, DeadletterSummary})))
            && (r.Err? ==> r.error in {InvalidLimit, CursorExpired})
            && (r.Ok? && row.Some? ==>
                  var owed := Selected(f, row.value.sequence, log);
                  && r.value.hasMore == (limit < |owed|)
                  && r.value.records == (if limit < |owed| then owed[..limit] else owed))
            && (r.Ok? && cursor.None? ==> r.value.records == [] && !r.value.hasMore)
  {
    forall r | r in log ensures r.sequence <= Top(log) {
      RisingBelowTop(log, r);
    }
    if cursor.Some? && Find(log, cursor.value).Some? {
      var row := Find(log, cursor.value).value;
      QueryIsSelection(f, row.sequence, Top(log), log);
      NoTopics(f, row.sequence, log);
      if Top(log) <= row.sequence {
        SelectedNone(f, row.sequence, log);
      }
    }
    hide Rising, Query, Selected, Find;
  }

  /** A limit that cannot be counted past is refused as soon as rows have to be fetched. */
  lemma HugeLimit(log: seq<Record>, id: nat, f: EventFilter, limit: nat)
    requires I64_MAX <= limit && Find(log, id).Some? && f.topics != {} && Find(log, id).value.sequence < Top(log)
    requires Visible(Find(log, id).value.event.topic, Find(log, id).value.event.account, f.scope)
    ensures Replay(log, Some(id), f, limit) == Err(InvalidLimit)
  {
  }

  lemma NoTopics(f: EventFilter, low: nat, s: seq<Record>)
    ensures f.topics == {} ==> Selected(f, low, s) == []
  {
  }

  lemma PollKeeps(w: World)
    requires Inv(w) && w.subscriber.Live?
    ensures Inv(Apply(w, Receive))
  {
    var s := w.subscriber.subscription;
    var t := Apply(w, Receive);
    assert TheRing(w).sent == w.sent;
    PollTracks(w, s);
    PollFrame(s, TheRing(w));
    StoredFrame(w, t);
    assert Snapped(t, t.subscriber.subscription);
    hide Poll, Stored, Snapped, Tracking;
  }

  lemma PollFrame(s: Subscription, ring: Ring)
    ensures Poll(s, ring).0.highWater == s.highWater && Poll(s, ring).0.filter == s.filter
  {
  }

  lemma PollTracks(w: World, s: Subscription)
    requires Stored(w) && Tracking(w, s) && w.subscriber == Live(s)
    ensures Tracking(Apply(w, Receive), Poll(s, TheRing(w)).0)
  {
    hide Selected, Stored, Rising, Matches;
    if s.terminal.None? && s.replay != [] {
      ReplayTracks(w, s);
    } else if s.terminal.None? && s.next < |w.sent| <= s.next + w.capacity {
      LiveTracks(w, s);
    }
  }

  lemma ReplayTracks(w: World, s: Subscription)
    requires Tracking(w, s) && w.subscriber == Live(s) && s.terminal.None? && s.replay != []
    ensures Tracking(Apply(w, Receive), Poll(s, TheRing(w)).0)
  {
    hide Selected, Matches;
    assert w.delivered + s.replay == w.delivered + [s.replay[0]] + s.replay[1..];
  }

  lemma LiveTracks(w: World, s: Subscription)
    requires Stored(w) && Tracking(w, s) && w.subscriber == Live(s) && s.terminal.None? && s.replay == []
    requires s.next < |w.sent| <= s.next + w.capacity
    ensures Tracking(Apply(w, Receive), Poll(s, TheRing(w)).0)
  {
    hide Selected, Stored, Rising, Matches, Wanted;
    PollLive(w, s);
  }

  /** Taking the next record of the ring keeps delivered and pending in step. */
  lemma PollLive(w: World, s: Subscription)
    requires Stored(w) && Tracking(w, s) && s.terminal.None? && s.replay == [] && s.next < |w.sent|
    ensures var r := w.sent[s.next];
            && Wanted(s, r) == (s.highWater < r.sequence && Matches(s.filter, r))
            && Selected(s.filter, s.highWater, w.sent[s.next..])
               == (if Wanted(s, r) then [r] else []) + Selected(s.filter, s.highWater, w.sent[s.next + 1..])
            && Top(w.sent[..s.next + 1]) == r.sequence
            && (0 < s.next ==> Top(w.sent[..s.next]) < r.sequence)
  {
    assert w.sent[s.next..][1..] == w.sent[s.next + 1..];
    assert (w.sent + Held(w))[s.next] == w.sent[s.next];
    if 0 < s.next {
      assert (w.sent + Held(w))[s.next - 1] == w.sent[s.next - 1];
    }
  }

  lemma StepKeepsInv(w: World, e: Event)
    requires Inv(w)
    ensures Inv(Apply(w, e))
  {
    hide Stored, Tracking, Snapped, Selected, Poll, Replay;
    match e
    case Commit(event, gap) =>
      if w.held.None? && w.open && Appended(w, event, gap).Some? {
        CommitKeeps(w, Appended(w, event, gap).value, Apply(w, e));
      }
    case Send => if w.held.Some? { SendKeeps(w); }
    case AppendOutside(event, gap) =>
      if Appended(w, event, gap).Some? {
        OutsideKeeps(w, Appended(w, event, gap).value, Apply(w, e));
      }
    case Prune(policy) => PruneKeeps(w, policy);
    case CloseManager => CloseKeeps(w);
    case Listen(request, principal) => ListenKeeps(w, request, principal);
    case TakeSnapshot => SnapshotKeeps(w);
    case Receive => if w.subscriber.Live? { PollKeeps(w); }
  }

  lemma CloseKeeps(w: World)
    requires Inv(w)
    ensures Inv(Apply(w, CloseManager))
  {
  }

  lemma ListenKeeps(w: World, request: Request, principal: set<nat>)
    requires Inv(w)
    ensures Inv(Apply(w, Listen(request, principal)))
  {
    hide Selected, FilterOf;
  }

  lemma {:induction false} RunKeepsInv(w: World, events: seq<Event>)
    requires Inv(w)
    ensures Inv(Run(w, events))
    decreases |events|
  {
    hide Inv, Apply;
    if events != [] {
      StepKeepsInv(w, events[0]);
      RunKeepsInv(Apply(w, events[0]), events[1..]);
    }
  }

  lemma InitInv(limit: nat, capacity: nat)
    ensures Inv(Init(limit, capacity))
  {
  }

  // ---------------------------------------------------------------------
  // What holds in every interleaving.

  lemma SelectedRising(f: EventFilter, low: nat, s: seq<Record>)
    requires Rising(s)
    ensures Rising(Selected(f, low, s))
  {
    if s != [] {
      RisingTail(s);
      SelectedRising(f, low, s[1..]);
      var rest := Selected(f, low, s[1..]);
      forall r | r in rest ensures s[0].sequence < r.sequence {
        SelectedMember(f, low, s[1..], r);
      }
      hide Selected, Matches;
      RisingCons(s[0], rest);
      SelectedStep(f, low, s);
    }
  }

  lemma SelectedStep(f: EventFilter, low: nat, s: seq<Record>)
    requires s != []
    ensures Selected(f, low, s) == Selected(f, low, s[1..])
            || Selected(f, low, s) == [s[0]] + Selected(f, low, s[1..])
  {
  }

  lemma RisingConcat(a: seq<Record>, b: seq<Record>, boundary: nat)
    requires Rising(a) && Rising(b)
    requires (forall r :: r in a ==> r.sequence <= boundary) && (forall r :: r in b ==> boundary < r.sequence)
    ensures Rising(a + b)
  {
  }

  lemma SentRising(w: World)
    requires Stored(w) && w.joined <= |w.sent|
    ensures Rising(w.sent[w.joined..])
  {
    forall i, j | 0 <= i < j < |w.sent[w.joined..]|
      ensures w.sent[w.joined..][i].sequence < w.sent[w.joined..][j].sequence
    {
      assert w.sent[w.joined..][i] == (w.sent + Held(w))[w.joined + i];
      assert w.sent[w.joined..][j] == (w.sent + Held(w))[w.joined + j];
    }
    forall i | 0 <= i < |w.sent[w.joined..]| ensures 0 < w.sent[w.joined..][i].sequence {
      assert w.sent[w.joined..][i] == (w.sent + Held(w))[w.joined + i];
    }
  }

  /** What is owed rises strictly, so it holds nothing twice, and every part of it matches. */
  lemma OwedRising(w: World, s: Subscription)
    requires Stored(w) && Tracking(w, s) && Snapped(w, s)
    ensures Rising(Owed(w, s))
    ensures forall r :: r in Owed(w, s) ==> Matches(s.filter, r)
  {
    var stored, carried := Selected(s.filter, w.from, w.snapshot), Selected(s.filter, s.highWater, w.sent[w.joined..]);
    SelectedRising(s.filter, w.from, w.snapshot);
    SentRising(w);
    SelectedRising(s.filter, s.highWater, w.sent[w.joined..]);
    forall r | r in stored ensures r.sequence <= s.highWater && Matches(s.filter, r) {
      SelectedMember(s.filter, w.from, w.snapshot, r);
      RisingBelowTop(w.snapshot, r);
    }
    forall r | r in carried ensures s.highWater < r.sequence && Matches(s.filter, r) {
      SelectedMember(s.filter, s.highWater, w.sent[w.joined..], r);
    }
    hide Rising, Selected, Matches;
    RisingConcat(stored, carried, s.highWater);
  }

  /**
    Every interleaving, with no assumption on publishers or retention: the records
    handed out are, in order and without repetition, a prefix of the matching rows
    the snapshot held after the cursor followed by the matching records sent since.
  */
  lemma DeliversInOrder(limit: nat, capacity: nat, events: seq<Event>)
    ensures var w := Run(Init(limit, capacity), events);
            match w.subscriber
            case Live(s) =>
              && w.joined <= |w.sent| && w.delivered <= Owed(w, s)
              && Rising(w.delivered) && (forall r :: r in w.delivered ==> Matches(s.filter, r))
              && (s.terminal.None? && s.replay == [] && s.next == |w.sent| ==> w.delivered == Owed(w, s))
            case _ => w.delivered == []
  {
    InitInv(limit, capacity);
    RunKeepsInv(Init(limit, capacity), events);
    var w := Run(Init(limit, capacity), events);
    hide Run, Rising, Selected, Matches;
    if w.subscriber.Live? {
      var s := w.subscriber.subscription;
      OwedRising(w, s);
      DeliveredPrefix(w, s);
      RisingPrefix(w.delivered, Owed(w, s));
      hide Tracking, Snapped, Stored;
      assert forall r :: r in w.delivered ==> r in Owed(w, s);
    }
  }

  lemma RisingPrefix(a: seq<Record>, b: seq<Record>)
    requires a <= b && Rising(b)
    ensures Rising(a)
  {
  }

  lemma DeliveredPrefix(w: World, s: Subscription)
    requires Tracking(w, s)
    ensures w.delivered <= Owed(w, s)
    ensures s.terminal.None? && s.replay == [] && s.next == |w.sent| ==> w.delivered == Owed(w, s)
  {
  }

  /** Everything a subscriber should see: the matching history after its cursor, or after it joined an empty log. */
  function Due(w: World, s: Subscription): seq<Record>
    requires w.joined <= |w.history|
  {
    if w.snapshot != [] then Selected(s.filter, w.from, w.history)
    else Selected(s.filter, 0, w.history[w.joined..])
  }

  /** When all appends are published and creation times follow the sequence, exactly that is owed. */
  lemma OwedIsDue(w: World, s: Subscription)
    requires Stored(w) && Tracking(w, s) && Snapped(w, s)
    requires !w.bypassed && CreatedInOrder(w.history)
    ensures w.joined <= |w.history| && Owed(w, s) <= Due(w, s)
    ensures w.held.None? ==> Owed(w, s) == Due(w, s)
    ensures w.snapshot != [] ==> s.highWater == Top(w.history[..w.mark])
  {
    hide CreatedInOrder, Rising, Selected;
    SentBeforeHeld(w, s);
    var late := Selected(s.filter, s.highWater, Held(w));
    if w.snapshot == [] {
      NothingSelected(s.filter, w.from);
    } else {
      DueSplits(w, s);
    }
    assert Due(w, s) == Owed(w, s) + late;
    if w.held.None? {
      NothingSelected(s.filter, s.highWater);
    }
  }

  lemma NothingSelected(f: EventFilter, low: nat)
    ensures Selected(f, low, []) == []
  {
  }

  lemma SentBeforeHeld(w: World, s: Subscription)
    requires w.sent + Held(w) == w.history && w.joined <= |w.sent|
    ensures w.joined <= |w.history|
    ensures Selected(s.filter, s.highWater, w.history[w.joined..])
         == Selected(s.filter, s.highWater, w.sent[w.joined..]) + Selected(s.filter, s.highWater, Held(w))
  {
    SelectedAppend(s.filter, s.highWater, w.sent[w.joined..], Held(w));
    assert w.sent[w.joined..] + Held(w) == w.history[w.joined..];
  }

  /** With rows in the snapshot, what is due is the stored rows after the cursor and all that the ring carried since. */
  lemma DueSplits(w: World, s: Subscription)
    requires Stored(w) && Snapped(w, s) && w.snapshot != []
    requires !w.bypassed && CreatedInOrder(w.history) && w.joined <= |w.sent|
    ensures w.joined <= |w.history| && s.highWater == Top(w.history[..w.mark])
    ensures Selected(s.filter, w.from, w.history)
         == Selected(s.filter, w.from, w.snapshot) + Selected(s.filter, s.highWater, w.history[w.joined..])
  {
    hide CreatedInOrder, Selected;
    var past := w.history[..w.mark];
    assert w.history == past + w.history[w.mark..];
    SelectedAppend(s.filter, w.from, past, w.history[w.mark..]);
    RisingPrefix(past, w.history);
    hide Rising;
    BeforeMark(s.filter, w.from, past, w.snapshot);
    AfterMark(s.filter, w.from, s.highWater, w.history, w.joined, w.mark);
  }

  /** A stored suffix holds everything above its own start. */
  lemma BeforeMark(f: EventFilter, from: nat, past: seq<Record>, snapshot: seq<Record>)
    requires Rising(past) && SuffixOf(snapshot, past) && snapshot != [] && snapshot[0].sequence <= from
    ensures Top(snapshot) == Top(past)
    ensures Selected(f, from, past) == Selected(f, from, snapshot)
  {
  }

  /** After the snapshot, the ring from the joining position carries exactly the rest above the high water. */
  lemma AfterMark(f: EventFilter, from: nat, highWater: nat, history: seq<Record>, joined: nat, mark: nat)
    requires Rising(history) && joined <= mark <= |history| && highWater == Top(history[..mark]) && from <= highWater
    ensures Selected(f, highWater, history[joined..]) == Selected(f, from, history[mark..])
  {
    hide Rising, Selected;
    var between, after := history[joined..mark], history[mark..];
    assert history[joined..] == between + after;
    MarkSplits(history, joined, mark);
    SelectedAppend(f, highWater, between, after);
    SelectedNone(f, highWater, between);
    SelectedLower(f, highWater, from, after);
    assert [] + Selected(f, from, after) == Selected(f, from, after);
  }

  lemma MarkSplits(history: seq<Record>, joined: nat, mark: nat)
    requires Rising(history) && joined <= mark <= |history|
    ensures forall r :: r in history[joined..mark] ==> r.sequence <= Top(history[..mark])
    ensures forall r :: r in history[mark..] ==> Top(history[..mark]) < r.sequence
  {
    forall r | r in history[joined..mark] ensures r.sequence <= Top(history[..mark]) {
      var i :| joined <= i < mark && history[i] == r;
      assert history[..mark][mark - 1] == history[mark - 1];
    }
    forall r | r in history[mark..] ensures Top(history[..mark]) < r.sequence {
      var i :| mark <= i < |history| && history[i] == r;
      assert 0 < mark ==> history[..mark][mark - 1] == history[mark - 1];
    }
  }

  /**
    No gap and no repeat. Over every interleaving in which all appends go through
    `publish` and creation times follow the stream sequence, the records handed out
    are a prefix of the matching records after the subscriber's starting point; a
    subscriber that has caught up has been given all of them.
  */
  lemma NoGapNoRepeat(limit: nat, capacity: nat, events: seq<Event>)
    ensures var w := Run(Init(limit, capacity), events);
            w.subscriber.Live? && !w.bypassed && CreatedInOrder(w.history) ==>
              var s := w.subscriber.subscription;
              && w.joined <= |w.history| && w.mark <= |w.history|
              && w.delivered <= Due(w, s)
              && (s.terminal.None? && s.replay == [] && s.next == |w.sent| && w.held.None? ==> w.delivered == Due(w, s))
              && (w.snapshot != [] ==> s.highWater == Top(w.history[..w.mark]))
  {
    InitInv(limit, capacity);
    RunKeepsInv(Init(limit, capacity), events);
    var w := Run(Init(limit, capacity), events);
    hide Run, Rising, Selected, Stored, CreatedInOrder, Due;
    if w.subscriber.Live? && !w.bypassed && CreatedInOrder(w.history) {
      var s := w.subscriber.subscription;
      OwedIsDue(w, s);
      DeliveredPrefix(w, s);
    }
  }

  /** After a close nothing more is handed out, whatever happens next. */
  lemma {:induction false} SilentAfterClose(w: World, events: seq<Event>)
    requires w.subscriber.Live? && w.subscriber.subscription.terminal.Some?
    ensures Run(w, events).delivered == w.delivered && Run(w, events).subscriber == w.subscriber
    decreases |events|
  {
    if events != [] {
      ClosedStep(w, events[0]);
      hide Apply;
      SilentAfterClose(Apply(w, events[0]), events[1..]);
    }
  }

  lemma ClosedStep(w: World, e: Event)
    requires w.subscriber.Live? && w.subscriber.subscription.terminal.Some?
    ensures Apply(w, e).delivered == w.delivered && Apply(w, e).subscriber == w.subscriber
  {
  }

  lemma RisingEqual(a: seq<Record>, b: seq<Record>)
    requires Rising(a) && Rising(b) && forall r :: r in a <==> r in b
    ensures a == b
  {
    assert a != [] ==> a[0] in a;
    assert b != [] ==> b[0] in b;
    if a != [] && b != [] {
      assert a[0] in b && b[0] in a;
      assert a[0] == b[0];
      RisingTail(a);
      RisingTail(b);
      forall r ensures r in a[1..] <==> r in b[1..] {
        TailMember(a, r);
        TailMember(b, r);
      }
      RisingEqual(a[1..], b[1..]);
      assert a == [a[0]] + a[1..] && b == [b[0]] + b[1..];
    }
  }

  lemma TailMember(s: seq<Record>, r: Record)
    requires Rising(s) && s != []
    ensures r in s[1..] <==> r in s && r != s[0]
  {
  }

  /** Still stored at the snapshot, or carried past its high water by the ring. */
  predicate Reaches(w: World, s: Subscription, r: Record)
    requires w.joined <= |w.sent|
  {
    r in w.snapshot || (r in w.sent[w.joined..] && s.highWater < r.sequence)
  }

  /**
    Without those assumptions: a caught-up subscriber has all matching records after
    its cursor exactly when each of them was still stored at the snapshot or was
    carried by the ring afterwards.
  */
  lemma CompleteIffNothingLost(w: World, s: Subscription)
    requires Inv(w) && w.subscriber == Live(s)
    requires s.terminal.None? && s.replay == [] && s.next == |w.sent|
    ensures w.delivered == Selected(s.filter, w.from, w.history)
       <==> forall r :: r in w.history && w.from < r.sequence && Matches(s.filter, r) ==> Reaches(w, s, r)
  {
    DeliveredPrefix(w, s);
    OwedRising(w, s);
    SelectedRising(s.filter, w.from, w.history);
    var all := Selected(s.filter, w.from, w.history);
    forall r ensures r in all <==> r in w.history && w.from < r.sequence && Matches(s.filter, r) {
      SelectedMember(s.filter, w.from, w.history, r);
    }
    forall r ensures r in Owed(w, s) <==> w.from < r.sequence && Matches(s.filter, r) && Reaches(w, s, r) {
      OwedMember(w, s, r);
    }
    OwedStored(w, s);
    hide Rising, Selected, Inv, Matches, Reaches;
    if forall r :: r in w.history && w.from < r.sequence && Matches(s.filter, r) ==> Reaches(w, s, r) {
      RisingEqual(w.delivered, all);
    }
  }

  lemma OwedStored(w: World, s: Subscription)
    requires Stored(w) && Snapped(w, s) && w.joined <= |w.sent|
    ensures forall r :: Reaches(w, s, r) ==> r in w.history
  {
  }

  lemma OwedMember(w: World, s: Subscription, r: Record)
    requires w.joined <= |w.sent| && w.from <= s.highWater
    ensures r in Owed(w, s) <==> w.from < r.sequence && Matches(s.filter, r) && Reaches(w, s, r)
  {
    SelectedMember(s.filter, w.from, w.snapshot, r);
    SelectedMember(s.filter, s.highWater, w.sent[w.joined..], r);
  }

  function SystemNotice(id: nat, createdAt: int): NewRecord {
    NewRecord(id, SystemEvent, None, 1, 1, createdAt)
  }

  function Notice(id: nat, createdAt: int): Record {
    Record(id, SystemNotice(id, createdAt))
  }

  const SystemOnly := EventFilter({SystemEvent}, {})

  lemma RunFirst(w: World, e: Event, rest: seq<Event>)
    ensures Run(w, [e] + rest) == Run(Apply(w, e), rest)
  {
  }

  function Noticed(w: World, createdAt: int): World {
    var r := Notice(Top(w.history) + 1, createdAt);
    w.(history := w.history + [r], log := w.log + [r], sent := w.sent + [r])
  }

  /** Publishing a notice with the next id to a quiet stream. */
  lemma PublishNotice(w: World, createdAt: int, rest: seq<Event>)
    requires w.open && w.held.None?
    requires forall x :: x in w.log ==> x.event.id <= Top(w.history)
    ensures Run(w, [Commit(SystemNotice(Top(w.history) + 1, createdAt), 0)] + ([Send] + rest))
         == Run(Noticed(w, createdAt), rest)
  {
  }

  function LateDated(): seq<Event> {
    [Commit(SystemNotice(1, 10), 0)] + ([Send] +
    ([Commit(SystemNotice(2, 1), 0)] + ([Send] +
    ([Commit(SystemNotice(3, 10), 0)] + ([Send] +
    ([Prune(Retention(None, Some(5)))] + Resume(1)))))))
  }

  function Resume(id: nat): seq<Event> {
    [Listen(Request([SystemEvent], None, Some(id)), {})] + ([TakeSnapshot] + ([Receive] + []))
  }

  function ThreeNotices(): World {
    var all := [Notice(1, 10), Notice(2, 1), Notice(3, 10)];
    Init(10, 8).(history := all, log := all, sent := all)
  }

  lemma ThreePublished()
    ensures Run(Init(10, 8), LateDated()) == Run(ThreeNotices(), [Prune(Retention(None, Some(5)))] + Resume(1))
  {
    hide Run, Resume, Apply;
    var w := Init(10, 8);
    var tail := [Prune(Retention(None, Some(5)))] + Resume(1);
    PublishNotice(w, 10, [Commit(SystemNotice(2, 1), 0)]
                         + ([Send] + ([Commit(SystemNotice(3, 10), 0)] + ([Send] + tail))));
    var w1 := Noticed(w, 10);
    assert Top(w1.history) == 1;
    PublishNotice(w1, 1, [Commit(SystemNotice(3, 10), 0)] + ([Send] + tail));
    var w2 := Noticed(w1, 1);
    assert Top(w2.history) == 2;
    PublishNotice(w2, 10, tail);
    assert Noticed(w2, 10) == ThreeNotices();
  }

  lemma SecondExpires()
    ensures var p := Retention(None, Some(5));
            Retained([Notice(1, 10), Notice(2, 1), Notice(3, 10)], None, p) == [Notice(1, 10), Notice(3, 10)]
  {
  }

  /** A subscriber with a cursor on the first of two stored notices is handed the second. */
  lemma ResumeDelivers(w: World, a: Record, c: Record)
    requires w.log == [a, c] && 0 < a.event.id != c.event.id && a.sequence < c.sequence
    requires Matches(SystemOnly, a) && Matches(SystemOnly, c)
    requires w.open && w.subscriber.Absent? && w.limit == 10 && w.delivered == []
    ensures var t := Run(w, Resume(a.event.id));
            && t.subscriber.Live? && t.subscriber.subscription.filter == SystemOnly
            && t.delivered == [c] && t.from == a.sequence && t.history == w.history && t.bypassed == w.bypassed
  {
    var id := a.event.id;
    var request := Request([SystemEvent], None, Some(id));
    RunFirst(w, Listen(request, {}), [TakeSnapshot] + ([Receive] + []));
    var w1 := w.(subscriber := Listening(SystemOnly, Some(id), |w.sent|), joined := |w.sent|);
    assert (set x | x in [SystemEvent]) == {SystemEvent};
    assert Apply(w, Listen(request, {})) == w1;
    RunFirst(w1, TakeSnapshot, [Receive] + []);
    ResumeWindow(a, c);
    hide Replay;
    var s := Subscription([c], |w.sent|, SystemOnly, c.sequence, 0, None);
    var w2 := w1.(subscriber := Live(s), snapshot := w.log, mark := |w.history|, from := a.sequence);
    assert Apply(w1, TakeSnapshot) == w2;
    RunFirst(w2, Receive, []);
  }

  lemma ResumeWindow(a: Record, c: Record)
    requires a.event.id != c.event.id && a.sequence < c.sequence
    requires Matches(SystemOnly, a) && Matches(SystemOnly, c)
    ensures Find([a, c], a.event.id) == Some(a)
    ensures Replay([a, c], Some(a.event.id), SystemOnly, 10) == Ok(Window(Some(c.sequence), [c], false))
  {
    assert [a, c][1..] == [c] && [c][1..] == [];
    assert QuerySelects(SystemOnly, c) == Matches(SystemOnly, c);
    var rows := Query(SystemOnly, a.sequence, c.sequence, [c]);
    assert rows == [c] + Query(SystemOnly, a.sequence, c.sequence, []) == [c];
    assert Query(SystemOnly, a.sequence, c.sequence, [a, c]) == rows;
    assert SystemEvent in SystemOnly.topics && Top([a, c]) == c.sequence;
    hide Query;

  }

  /** Creation times out of sequence order do open a gap: retention removes a record between two that stay. */
  lemma RetentionCanOpenAGap()
    ensures var w := Run(Init(10, 8), LateDated());
            && w.subscriber.Live? && !w.bypassed && w.from == 1
            && w.delivered == [Notice(3, 10)] && Notice(2, 1) in w.history
            && Matches(w.subscriber.subscription.filter, Notice(2, 1))
  {
    ThreePublished();
    SecondExpires();
    hide Run, Resume, Retained;
    var w := ThreeNotices();
    RunFirst(w, Prune(Retention(None, Some(5))), Resume(1));
    ResumeDelivers(w.(log := [Notice(1, 10), Notice(3, 10)]), Notice(1, 10), Notice(3, 10));
    assert w.history[1] == Notice(2, 1);
  }

  /** Committed, not in the live subscriber's snapshot, and no longer on its way to the ring. */
  predicate Lost(w: World, r: Record) {
    w.subscriber.Live? && r in w.history && r !in w.snapshot && r !in w.sent && w.held != Some(r)
  }

  lemma LostStep(w: World, e: Event, r: Record)
    requires Inv(w) && Lost(w, r)
    ensures Lost(Apply(w, e), r)
  {
    RisingBelowTop(w.history, r);
    hide Rising, Selected, Poll, Tracking, Snapped, Retained;
  }

  /** A record lost to a subscriber is never handed to it, whatever follows. */
  lemma {:induction false} LostForever(w: World, events: seq<Event>, r: Record)
    requires Inv(w) && Lost(w, r)
    ensures r in Run(w, events).history && r !in Run(w, events).delivered
    decreases |events|
  {
    if events == [] {
      LostIsNotDelivered(w, r);
    } else {
      StepKeepsInv(w, events[0]);
      LostStep(w, events[0], r);
      hide Inv, Apply, Lost;
      LostForever(Apply(w, events[0]), events[1..], r);
    }
  }

  lemma LostIsNotDelivered(w: World, r: Record)
    requires Inv(w) && Lost(w, r)
    ensures r in w.history && r !in w.delivered
  {
    var s := w.subscriber.subscription;
    DeliveredPrefix(w, s);
    OwedMember(w, s, r);
    hide Rising, Selected, Tracking;
    var owed := Owed(w, s);
    assert forall x :: x in w.delivered ==> x in owed;
  }

  /**
    An append that is committed without being published is missed for good by every
    subscriber already live, matching or not: it lies after the subscriber's start and
    is not handed out by any continuation.
  */
  lemma UnpublishedAppendIsMissed(w: World, e: NewRecord, events: seq<Event>)
    requires Inv(w) && w.subscriber.Live? && Appended(w, e, 0).Some?
    ensures var t := Apply(w, AppendOutside(e, 0));
            var r := Appended(w, e, 0).value;
            t.from < r.sequence && r in Run(t, events).history && r !in Run(t, events).delivered
  {
    var r, t := Appended(w, e, 0).value, Apply(w, AppendOutside(e, 0));
    UnpublishedIsLost(w, e);
    StepKeepsInv(w, AppendOutside(e, 0));
    hide Inv, Apply, Lost;
    LostForever(t, events, r);
  }

  lemma UnpublishedIsLost(w: World, e: NewRecord)
    requires Inv(w) && w.subscriber.Live? && Appended(w, e, 0).Some?
    ensures var t := Apply(w, AppendOutside(e, 0));
            Lost(t, Appended(w, e, 0).value) && t.from < Appended(w, e, 0).value.sequence
  {
    hide Stored, Tracking, Snapped, Rising, Selected;
    var r := Appended(w, e, 0).value;
    AppendedAbove(w, e);
    hide AppendOutcome;
    NewIsLost(w, r, Apply(w, AppendOutside(e, 0)));
  }

  lemma AppendedAbove(w: World, e: NewRecord)
    requires Appended(w, e, 0).Some?
    ensures Top(w.history) < Appended(w, e, 0).value.sequence
  {
  }

  /** A record above everything committed, and not sent, is lost at once. */
  lemma NewIsLost(w: World, r: Record, t: World)
    requires Inv(w) && w.subscriber.Live? && Top(w.history) < r.sequence && r in t.history
    requires t.subscriber == w.subscriber && t.snapshot == w.snapshot && t.sent == w.sent && t.held == w.held
    requires t.from == w.from
    ensures Lost(t, r) && t.from < r.sequence
  {
    hide Tracking, Snapped, Selected, Stored;
    KnownRecords(w, w.subscriber.subscription);
    assert Rising(w.history) by { StoredRises(w); }
    forall x | x in w.history ensures x.sequence < r.sequence {
      RisingBelowTop(w.history, x);
    }
  }

  lemma StoredRises(w: World)
    requires Stored(w)
    ensures Rising(w.history)
  {
  }

  /** Everything the stream or the subscriber holds was committed before. */
  lemma KnownRecords(w: World, s: Subscription)
    requires Stored(w) && Snapped(w, s)
    ensures (forall x :: x in w.sent ==> x in w.history) && (w.held.Some? ==> w.held.value in w.history)
    ensures forall x :: x in w.snapshot ==> x in w.history
    ensures w.from <= Top(w.history)
  {
    assert forall x :: x in w.sent ==> x in w.sent + Held(w);
    assert w.held.Some? ==> w.held.value in w.sent + Held(w);
    if w.snapshot != [] {
      var top := w.snapshot[|w.snapshot| - 1];
      assert top in w.snapshot && top in w.history[..w.mark] && top in w.history;
      RisingBelowTop(w.history, top);
    }
    hide Rising, CreatedInOrder, SuffixOf;
  }

  // ---------------------------------------------------------------------
  // The objects.

  /** Records of the ring up to here are skipped. */
  function Floor(s: Subscription): nat {
    if s.highWater < s.lastDelivered then s.lastDelivered else s.highWater
  }

  /** What `recv` still has to hand out, given the ring. */
  function Pending(s: Subscription, ring: Ring): seq<Record>
    requires s.next <= |ring.sent|
  {
    s.replay + Selected(s.filter, Floor(s), ring.sent[s.next..])
  }

  /** `recv` is polled until a turn does not skip. */
  function Received(s: Subscription, ring: Ring): (Subscription, Outcome)
    requires s.next <= |ring.sent|
    decreases |ring.sent| - s.next
  {
    var (t, outcome) := Poll(s, ring);
    if outcome.Skipped? then Received(t, ring) else (t, outcome)
  }

  class EventSubscription {
    var replay: seq<Record>
    var next: nat
    const filter: EventFilter
    const highWater: nat
    var lastDelivered: nat
    var terminal: Option<CloseReason>

    function Value(): Subscription
      reads this
    {
      Subscription(replay, next, filter, highWater, lastDelivered, terminal)
    }

    constructor (replay: seq<Record>, next: nat, filter: EventFilter, highWater: nat)
      ensures Value() == Subscription(replay, next, filter, highWater, 0, None)
    {
      this.replay, this.next, this.filter, this.highWater := replay, next, filter, highWater;
      lastDelivered, terminal := 0, None;
    }

    /** `recv` up to its next await on an empty ring. */
    method Recv(ring: Ring) returns (outcome: Outcome)
      requires next <= |ring.sent|
      modifies this
      ensures (Value(), outcome) == Received(old(Value()), ring)
      ensures next <= |ring.sent| && !outcome.Skipped?
    {
      if terminal.Some? {
        return Closed(terminal.value);
      }
      if replay != [] {
        var record := replay[0];
        replay := replay[1..];
        lastDelivered := record.sequence;
        return Deliver(record);
      }
      while true
        invariant next <= |ring.sent| && replay == [] && terminal.None?
        invariant Received(Value(), ring) == Received(old(Value()), ring)
        decreases |ring.sent| - next
      {
        if next + ring.capacity < |ring.sent| {
          var reason := SlowConsumer(|ring.sent| - ring.capacity - next);
          next := |ring.sent| - ring.capacity;
          terminal := Some(reason);
          return Closed(reason);
        }
        if next == |ring.sent| {
          if ring.open {
            return Waiting;
          }
          terminal := Some(ManagerClosed);
          return Closed(ManagerClosed);
        }
        var record := ring.sent[next];
        next := next + 1;
        if record.sequence <= highWater || record.sequence <= lastDelivered || !Matches(filter, record) {
          continue;
        }
        lastDelivered := record.sequence;
        return Deliver(record);
      }
    }
  }

  /**
    What one call of `recv` means: it hands out the first pending record and leaves
    the rest pending, waits only when nothing is pending, and closes on a lagging
    ring only when replay is exhausted.
  */
  lemma {:induction false} RecvHandsOutPending(s: Subscription, ring: Ring)
    requires s.next <= |ring.sent| && s.terminal.None? && Rising(ring.sent)
    requires forall i :: 0 <= i < |s.replay| ==> s.lastDelivered < s.replay[i].sequence <= s.highWater
    ensures var (t, outcome) := Received(s, ring);
            && t.next <= |ring.sent|
            && match outcome
               case Deliver(r) =>
                 Pending(s, ring) == [r] + Pending(t, ring) && t.terminal.None? && t.lastDelivered == r.sequence
               case Waiting => Pending(s, ring) == [] && ring.open && t == s.(next := |ring.sent|)
               case Closed(ManagerClosed) => Pending(s, ring) == [] && !ring.open && t.terminal == Some(ManagerClosed)
               case Closed(SlowConsumer(n)) => s.replay == [] && s.next + ring.capacity + n <= |ring.sent| && 0 < n
               case Skipped => false
    decreases |ring.sent| - s.next
  {
    hide Matches, Selected, Rising, Wanted;
    if s.replay != [] {
      assert s.replay == [s.replay[0]] + s.replay[1..];
    } else if s.next == |ring.sent| {
      assert ring.sent[s.next..] == [];
      SelectedNothing(s.filter, Floor(s));
    } else if |ring.sent| <= s.next + ring.capacity {
      FirstPending(s, ring);
      if Wanted(s, ring.sent[s.next]) {
        LaterAbove(s, ring);
      } else {
        RecvHandsOutPending(s.(next := s.next + 1), ring);
      }
    }
  }

  /** A receiver that fell behind is closed with the number of records it lost and stays behind the kept ones. */
  lemma LagCloses(s: Subscription, ring: Ring)
    requires s.next + ring.capacity < |ring.sent| && s.terminal.None? && s.replay == []
    ensures var (t, outcome), lost := Received(s, ring), |ring.sent| - ring.capacity - s.next;
            && outcome == Closed(SlowConsumer(lost))
            && t == s.(next := s.next + lost, terminal := Some(SlowConsumer(lost)))
  {
  }

  lemma SelectedNothing(f: EventFilter, low: nat)
    ensures Selected(f, low, []) == []
  {
  }

  lemma FirstPending(s: Subscription, ring: Ring)
    requires s.next < |ring.sent|
    ensures var r := ring.sent[s.next];
            Selected(s.filter, Floor(s), ring.sent[s.next..])
            == (if Wanted(s, r) then [r] else []) + Selected(s.filter, Floor(s), ring.sent[s.next + 1..])
  {
    assert ring.sent[s.next..][1..] == ring.sent[s.next + 1..];
  }

  lemma LaterAbove(s: Subscription, ring: Ring)
    requires s.next < |ring.sent| && Rising(ring.sent) && Wanted(s, ring.sent[s.next])
    ensures var r := ring.sent[s.next];
            && s.highWater < r.sequence
            && Selected(s.filter, Floor(s), ring.sent[s.next + 1..])
               == Selected(s.filter, r.sequence, ring.sent[s.next + 1..])
  {
    var later := ring.sent[s.next + 1..];
    assert forall r :: r in later ==> ring.sent[s.next].sequence < r.sequence;
    hide Rising;
    SelectedLower(s.filter, Floor(s), ring.sent[s.next].sequence, later);
  }

  /** The machine steps one call of `recv` makes. */
  function Turns(s: Subscription, ring: Ring): seq<Event>
    requires s.next <= |ring.sent|
    decreases |ring.sent| - s.next
  {
    var (t, outcome) := Poll(s, ring);
    [Receive] + if outcome.Skipped? then Turns(t, ring) else []
  }

  /** So a call of `recv` on the object is a run of the machine, and what holds of runs holds of it. */
  lemma {:induction false} RecvIsSteps(w: World, s: Subscription)
    requires w.subscriber == Live(s) && s.next <= |w.sent|
    ensures var (t, outcome) := Received(s, TheRing(w));
            Run(w, Turns(s, TheRing(w)))
            == w.(subscriber := Live(t),
                  delivered := if outcome.Deliver? then w.delivered + [outcome.record] else w.delivered)
    decreases |w.sent| - s.next
  {
    var (t, outcome) := Poll(s, TheRing(w));
    var turns := Turns(s, TheRing(w));
    assert turns == [Receive] + turns[1..];
    RunFirst(w, Receive, turns[1..]);
    if outcome.Skipped? {
      assert turns[1..] == Turns(t, TheRing(w));
      assert TheRing(w.(subscriber := Live(t))) == TheRing(w);
      RecvIsSteps(w.(subscriber := Live(t)), t);
    }
  }

  class EventStreamManager {
    const limit: nat
    const capacity: nat
    var top: nat
    var log: seq<Record>
    var sent: seq<Record>

    /** The counter behind the stream sequence is never below a stored row. */
    ghost predicate Valid()
      reads this
    {
      Rising(log) && Rising(sent) && Top(log) <= top && Top(sent) <= top
    }

    constructor (limit: nat, capacity: nat)
      requires 0 < limit && 0 < capacity
      ensures Valid() && top == 0 && log == [] && sent == [] && this.limit == limit && this.capacity == capacity
    {
      this.limit, this.capacity, top, log, sent := limit, capacity, 0, [], [];
    }

    /** Append and fanout under the publish lock; only an insertion is fanned out. */
    method Publish(event: NewRecord) returns (outcome: Append)
      requires Valid()
      modifies this`top, this`log, this`sent
      ensures Valid() && outcome == AppendOutcome(old(log), event, old(top) + 1)
      ensures match outcome
              case Inserted(r) => log == old(log) + [r] && sent == old(sent) + [r] && top == r.sequence
              case _ => log == old(log) && sent == old(sent) && top == old(top)
    {
      outcome := AppendOutcome(log, event, top + 1);
      if outcome.Inserted? {
        RisingSnoc(log, outcome.record);
        RisingSnoc(sent, outcome.record);
        top := top + 1;
        log := log + [outcome.record];
        sent := sent + [outcome.record];
      }
    }

    /** Deletes rows by count and by age; the sequence counter is not reused. */
    method PruneRows(policy: Retention) returns (deleted: Option<nat>)
      requires Valid()
      modifies this`log
      ensures Valid()
      ensures deleted.None? ==> log == old(log)
      ensures deleted.Some? <==>
                (policy.retainLatest.Some? || policy.createdAtOrAfter.Some?) && policy.retainLatest != Some(0)
      ensures deleted.Some? ==> log == Remaining(old(log), policy) && |log| + deleted.value == |old(log)|
    {
      if !ValidRetention(policy) {
        return None;
      }
      RetentionKeepsLatest(log, policy);
      hide Rising, Remaining;
      var kept := Retained(log, Cutoff(log, policy), policy);
      RetainedRising(log, Cutoff(log, policy), policy);
      RetainedTop(log, Cutoff(log, policy), policy);
      deleted := Some(|log| - |kept|);
      log := kept;
    }

    /** Listens first, takes the replay snapshot second. */
    method Subscribe(q: Request, principal: set<nat>) returns (r: Result<EventSubscription, Refusal>)
      requires Valid() && 0 < limit
      ensures match StartedSubscription(log, |sent|, q, principal, limit)
              case Err(reason) => r == Err(reason)
              case Ok(s) => r.Ok? && fresh(r.value) && r.value.Value() == s
      ensures r.Ok? ==> (q.cursor.Some? ==> Find(log, q.cursor.value).Some?) && r.value.highWater == Top(log)
      ensures r.Ok? ==> r.value.replay == if q.cursor.None? then []
                                          else Selected(r.value.filter, Find(log, q.cursor.value).value.sequence, log)
    {
      var filter := SubscriptionFilter(q, principal);
      if filter.Err? {
        return Err(filter.error);
      }
      var next := |sent|;
      var window := Replay(log, q.cursor, filter.value, limit);
      if window.Err? {
        return Err(window.error);
      }
      if window.value.hasMore {
        return Err(ReplayLimitExceeded);
      }
      ReplayWindow(log, q.cursor, filter.value, limit);
      hide Replay, Selected, Rising;
      if q.cursor.None? {
        assert window.value.records == [] by { NoReplay(log, filter.value, limit); }
      }
      var highWater := if window.value.highWater.Some? then window.value.highWater.value else 0;
      var subscription := new EventSubscription(window.value.records, next, filter.value, highWater);
      return Ok(subscription);
    }
  }

  /** What a subscription request comes to: the first refusal, or the subscription it starts. */
  function StartedSubscription(log: seq<Record>, next: nat, q: Request, principal: set<nat>, limit: nat)
    : Result<Subscription, Refusal>
  {
    match FilterOf(q, principal)
    case Err(reason) => Err(reason)
    case Ok(f) =>
      match Replay(log, q.cursor, f, limit)
      case Err(reason) => Err(reason)
      case Ok(window) =>
        if window.hasMore then Err(ReplayLimitExceeded)
        else
          var highWater := if window.highWater.Some? then window.highWater.value else 0;
          Ok(Subscription(window.records, next, f, highWater, 0, None))
  }

  lemma NoReplay(log: seq<Record>, f: EventFilter, limit: nat)
    requires 0 < limit
    ensures Replay(log, None, f, limit).Ok? && Replay(log, None, f, limit).value.records == []
  {
  }

  lemma RetainedTop(log: seq<Record>, cutoff: Option<nat>, p: Retention)
    requires Rising(log)
    ensures Top(Retained(log, cutoff, p)) <= Top(log)
  {
  }
}
