/**
  Session fencing. A live handle packs its writer count and a fence bit into one
  word; the registry maps sessions and routes to handles; activation, close and
  startup fencing change registry and store step by step under a mutex, and any
  store call may fail and any caller may be dropped between two steps.
*/
module Sessions {
  import opened Prelude

  // ---------------------------------------------------------------------
  // The packed word.

  const FENCED_BIT: nat := 0x8000_0000_0000_0000
  const WRITER_MASK: nat := FENCED_BIT - 1

  predicate IsFenced(word: nat) {
    FENCED_BIT <= word
  }

  function Writers(word: nat): nat {
    word % FENCED_BIT
  }

  /** A fenced word, or one whose count is at its maximum, admits nobody. */
  predicate Refuses(word: nat) {
    IsFenced(word) || Writers(word) == WRITER_MASK
  }

  function FetchOr(word: nat): nat {
    if IsFenced(word) then word else word + FENCED_BIT
  }

  /** A thread between the load and its compare-and-swap, or holding a permit. */
  datatype Thread = Loaded(seen: nat) | Permitted

  /** The word, the threads using it, and how many permits were granted while the bit was set. */
  datatype Admission = Admission(word: nat, threads: map<nat, Thread>, late: nat)

  datatype WordEvent =
    | Load(thread: nat)
    | Swap(thread: nat, spurious: bool)
    | Drop(thread: nat)
    | Fence

  function Gone(threads: map<nat, Thread>, t: nat): map<nat, Thread> {
    map k | k in threads && k != t :: threads[k]
  }

  /** One atomic instruction of `acquire_write`, of a permit's drop, or of `fence`. */
  function Instruction(a: Admission, e: WordEvent): Admission {
    match e
    case Load(t) => if t in a.threads then a else a.(threads := a.threads[t := Loaded(a.word)])
    case Swap(t, spurious) =>
      if t !in a.threads || !a.threads[t].Loaded? then a
      else
        var seen := a.threads[t].seen;
        if Refuses(seen) then a.(threads := Gone(a.threads, t))
        else if a.word != seen || spurious then a.(threads := a.threads[t := Loaded(a.word)])
        else a.(word := a.word + 1, threads := a.threads[t := Permitted],
                late := a.late + if IsFenced(a.word) then 1 else 0)
    case Drop(t) =>
      if t in a.threads && a.threads[t].Permitted? && 0 < a.word then
        a.(word := a.word - 1, threads := Gone(a.threads, t))
      else a
    case Fence => a.(word := FetchOr(a.word))
  }

  function Instructions(a: Admission, events: seq<WordEvent>): Admission
    decreases |events|
  {
    if events == [] then a else Instructions(Instruction(a, events[0]), events[1..])
  }

  function Permits(a: Admission): set<nat> {
    set t | t in a.threads && a.threads[t].Permitted?
  }

  /** The low bits count the permits exactly, and none was granted behind the fence. */
  predicate Counting(a: Admission) {
    a.word < 2 * FENCED_BIT && Writers(a.word) == |Permits(a)| && a.late == 0
  }

  lemma PermitsFrame(a: Admission, t: nat, s: Thread)
    requires !s.Permitted? && (t in a.threads ==> !a.threads[t].Permitted?)
    ensures Permits(a.(threads := a.threads[t := s])) == Permits(a)
    ensures Permits(a.(threads := Gone(a.threads, t))) == Permits(a)
  {
  }

  lemma PermitsChange(a: Admission, t: nat)
    ensures Permits(a.(threads := a.threads[t := Permitted])) == Permits(a) + {t}
    ensures Permits(a.(threads := Gone(a.threads, t))) == Permits(a) - {t}
  {
  }

  lemma WordUp(word: nat)
    requires !Refuses(word)
    ensures !IsFenced(word + 1) && Writers(word + 1) == Writers(word) + 1 && word + 1 < 2 * FENCED_BIT
  {
  }

  lemma WordDown(word: nat)
    requires word < 2 * FENCED_BIT && 0 < Writers(word)
    ensures 0 < word && IsFenced(word - 1) == IsFenced(word) && Writers(word - 1) == Writers(word) - 1
  {
  }

  lemma WordFence(word: nat)
    requires word < 2 * FENCED_BIT
    ensures FetchOr(word) < 2 * FENCED_BIT && IsFenced(FetchOr(word)) && Writers(FetchOr(word)) == Writers(word)
  {
  }

  lemma SwapCounts(a: Admission, t: nat, spurious: bool)
    requires Counting(a) && t in a.threads && a.threads[t].Loaded?
    ensures var b := Instruction(a, Swap(t, spurious));
            Counting(b) && (IsFenced(a.word) ==> b.word == a.word && Permits(b) == Permits(a))
  {
    hide Writers, IsFenced, Permits;
    var b := Instruction(a, Swap(t, spurious));
    PermitsFrame(a, t, Loaded(a.word));
    PermitsChange(a, t);
    NotPermitted(a, t);
    SamePermits(a.(threads := b.threads), b);
    if b.threads == a.threads[t := Permitted] {
      WordUp(a.word);
    }
  }

  lemma NotPermitted(a: Admission, t: nat)
    requires t in a.threads
    ensures t in Permits(a) <==> a.threads[t].Permitted?
  {
  }

  lemma SamePermits(a: Admission, b: Admission)
    requires a.threads == b.threads
    ensures Permits(a) == Permits(b)
  {
  }

  lemma DropCounts(a: Admission, t: nat)
    requires Counting(a) && t in a.threads && a.threads[t].Permitted? && 0 < a.word
    ensures var b := Instruction(a, Drop(t));
            Counting(b) && IsFenced(b.word) == IsFenced(a.word) && Permits(b) <= Permits(a)
  {
    hide Writers, IsFenced, Permits;
    var b := Instruction(a, Drop(t));
    PermitsChange(a, t);
    NotPermitted(a, t);
    SamePermits(a.(threads := b.threads), b);
    WordDown(a.word);
  }

  /** Every instruction keeps the count; in particular a drop never borrows from the fence bit. */
  lemma InstructionCounts(a: Admission, e: WordEvent)
    requires Counting(a)
    ensures Counting(Instruction(a, e))
    ensures IsFenced(a.word) ==> IsFenced(Instruction(a, e).word) && Permits(Instruction(a, e)) <= Permits(a)
  {
    hide Writers, IsFenced, Permits, FetchOr;
    match e
    case Load(t) =>
      if t !in a.threads {
        PermitsFrame(a, t, Loaded(a.word));
      }
    case Swap(t, spurious) =>
      if t in a.threads && a.threads[t].Loaded? {
        SwapCounts(a, t, spurious);
      }
    case Drop(t) =>
      if t in a.threads && a.threads[t].Permitted? && 0 < a.word {
        DropCounts(a, t);
      }
    case Fence =>
      WordFence(a.word);
      SamePermits(a, a.(word := FetchOr(a.word)));
  }

  /**
    In every interleaving of writers and fences the word counts the permits in use,
    no permit is granted after the fence bit is set, and the bit never clears.
  */
  lemma {:induction false} FenceAdmitsNoWrite(a: Admission, events: seq<WordEvent>)
    requires Counting(a)
    ensures Counting(Instructions(a, events))
    ensures IsFenced(a.word) ==>
              IsFenced(Instructions(a, events).word) && Permits(Instructions(a, events)) <= Permits(a)
    decreases |events|
  {
    hide Counting, Instruction, IsFenced, Permits;
    if events != [] {
      InstructionCounts(a, events[0]);
      FenceAdmitsNoWrite(Instruction(a, events[0]), events[1..]);
    }
  }

  /** The instruction is another thread's. */
  predicate NotBy(e: WordEvent, t: nat) {
    e.Fence? || e.thread != t
  }

  class LiveSessionHandle {
    const session: nat
    var state: nat
    var threads: map<nat, Thread>
    var sinkClosed: bool
    ghost var late: nat

    /** The word with the threads that use it. */
    ghost function Value(): Admission
      reads this
    {
      Admission(state, threads, late)
    }

    /** The word counts the permits in use, and the sink is closed with the fence. */
    ghost predicate Valid()
      reads this
    {
      Counting(Value()) && (sinkClosed <==> IsFenced(state))
    }

    constructor (session: nat)
      ensures Valid() && this.session == session && Value() == Admission(0, map[], 0)
    {
      this.session, state, threads, sinkClosed, late := session, 0, map[], false, 0;
    }

    method FenceHandle()
      requires Valid()
      modifies this
      ensures Valid() && IsFenced(state) && Value() == Instruction(old(Value()), Fence)
    {
      InstructionCounts(Value(), Fence);
      WordFence(state);
      var previous := state;
      state := FetchOr(state);
      if !IsFenced(previous) {
        sinkClosed := true;
      }
    }

    /** What other threads do between two instructions of this one. */
    method Interfere(events: seq<WordEvent>)
      requires Valid()
      modifies this
      ensures Valid() && Value() == Instructions(old(Value()), events)
    {
      hide Counting, Instruction, IsFenced;
      FenceAdmitsNoWrite(Value(), events);
      var after := Instructions(Admission(state, threads, 0), events);
      NoLate(Value(), events);
      state, threads := after.word, after.threads;
      sinkClosed := IsFenced(state);
    }

    /**
      `acquire_write` of thread `t`: a load, then swaps that may fail spuriously or
      because `others[i]` changed the word before the i-th of them. A refusal means
      that the word was fenced or full at some moment of the call. `None` when the list
      of interferences ends before the loop does.
    */
    method AcquireWrite(t: nat, others: seq<seq<WordEvent>>, spurious: seq<bool>)
      returns (admitted: Option<bool>, ghost trace: seq<WordEvent>)
      requires Valid() && t !in threads && |others| == |spurious|
      requires forall i :: 0 <= i < |others| ==> forall k :: 0 <= k < |others[i]| ==> NotBy(others[i][k], t)
      modifies this
      ensures Valid() && Value() == Instructions(old(Value()), trace)
      ensures match admitted
              case None => t in threads && threads[t].Loaded?
              case Some(true) => t in threads && threads[t].Permitted? && !IsFenced(state) && 0 < Writers(state)
              case Some(false) => t !in threads && exists p :: p <= trace && Refuses(Instructions(old(Value()), p).word)
    {
      hide Counting, IsFenced, Writers, Instructions;
      ghost var start := Value();
      InstructionCounts(Value(), Load(t));
      threads := threads[t := Loaded(state)];
      trace := [Load(t)];
      OneInstruction(start, Load(t));
      ghost var loaded := trace;
      for i := 0 to |others|
        invariant Valid() && Value() == Instructions(start, trace) && t in threads && threads[t].Loaded?
        invariant loaded <= trace && Instructions(start, loaded).word == threads[t].seen
      {
        var current := threads[t].seen;
        ghost var before := Value();
        if Refuses(current) {
          InstructionCounts(before, Swap(t, false));
          threads := Gone(threads, t);
          NextInstruction(start, trace, before, Swap(t, false));
          trace := trace + [Swap(t, false)];
          return Some(false), trace;
        }
        Interfere(others[i]);
        OthersLeave(before, others[i], t);
        InstructionsAppend(start, trace, others[i]);
        trace := trace + others[i];
        ghost var now := Value();
        InstructionCounts(now, Swap(t, spurious[i]));
        NextInstruction(start, trace, now, Swap(t, spurious[i]));
        trace := trace + [Swap(t, spurious[i])];
        if state == current && !spurious[i] {
          WordUp(state);
          LateStays(now, t);
          state := current + 1;
          threads := threads[t := Permitted];
          return Some(true), trace;
        }
        threads := threads[t := Loaded(state)];
        loaded := trace;
      }
      return None, trace;
    }

    /** Dropping the permit of thread `t`. */
    method DropPermit(t: nat)
      requires Valid() && t in threads && threads[t].Permitted?
      modifies this
      ensures Valid() && Value() == Instruction(old(Value()), Drop(t)) && IsFenced(state) == IsFenced(old(state))
      ensures Writers(state) + 1 == Writers(old(state)) && t !in threads
    {
      PermitInUse(Value(), t);
      DropCounts(Value(), t);
      WordDown(state);
      state := state - 1;
      threads := Gone(threads, t);
    }
  }

  lemma PermitInUse(a: Admission, t: nat)
    requires Counting(a) && t in a.threads && a.threads[t].Permitted?
    ensures 0 < a.word && 0 < Writers(a.word)
  {
    assert t in Permits(a);
  }

  lemma LateStays(a: Admission, t: nat)
    requires t in a.threads && a.threads[t].Loaded? && a.threads[t].seen == a.word && !IsFenced(a.word)
    requires Writers(a.word) != WRITER_MASK
    ensures Instruction(a, Swap(t, false)) == a.(word := a.word + 1, threads := a.threads[t := Permitted])
  {
  }

  /** Nothing is ever counted as late. */
  lemma NoLate(a: Admission, events: seq<WordEvent>)
    requires Counting(a)
    ensures a.late == 0 == Instructions(a, events).late
    ensures Instructions(a, events) == Instructions(a.(late := 0), events)
  {
    FenceAdmitsNoWrite(a, events);
    assert a.(late := 0) == a;
  }

  lemma OneInstruction(a: Admission, e: WordEvent)
    ensures Instructions(a, [e]) == Instruction(a, e)
  {
    assert [e][1..] == [];
  }

  lemma {:induction false} InstructionsAppend(a: Admission, x: seq<WordEvent>, y: seq<WordEvent>)
    ensures Instructions(a, x + y) == Instructions(Instructions(a, x), y)
    decreases |x|
  {
    hide Instruction;
    if x == [] {
      assert x + y == y;
    } else {
      assert (x + y)[1..] == x[1..] + y && (x + y)[0] == x[0];
      InstructionsAppend(Instruction(a, x[0]), x[1..], y);
    }
  }

  lemma NextInstruction(start: Admission, trace: seq<WordEvent>, a: Admission, e: WordEvent)
    requires a == Instructions(start, trace)
    ensures Instructions(start, trace + [e]) == Instruction(a, e)
  {
    InstructionsAppend(start, trace, [e]);
    OneInstruction(a, e);
  }

  /** Other threads' instructions leave this thread where it is. */
  lemma {:induction false} OthersLeave(a: Admission, events: seq<WordEvent>, t: nat)
    requires t in a.threads && forall k :: 0 <= k < |events| ==> NotBy(events[k], t)
    ensures t in Instructions(a, events).threads && Instructions(a, events).threads[t] == a.threads[t]
    decreases |events|
  {
    hide IsFenced, Writers, FetchOr;
    if events != [] {
      assert NotBy(events[0], t);
      OthersLeave(Instruction(a, events[0]), events[1..], t);
    }
  }

  // ---------------------------------------------------------------------
  // Live bindings.

  /** Handles are named by their index; a removed handle may still be referenced by a writer. */
  datatype Handle = Handle(session: nat, fenced: bool)

  datatype Live = Live(handles: seq<Handle>, bySession: map<nat, nat>, byRoute: map<nat, nat>)

  function Fenced(handles: seq<Handle>, h: nat): seq<Handle> {
    if h < |handles| then handles[h := handles[h].(fenced := true)] else handles
  }

  function Remove<T>(m: map<nat, T>, k: nat): map<nat, T> {
    map x | x in m && x != k :: m[x]
  }

  /** Fences the handle of a session, if it is attached. */
  function FenceSession(l: Live, session: nat): Live {
    if session in l.bySession then l.(handles := Fenced(l.handles, l.bySession[session])) else l
  }

  function Detach(l: Live, session: nat): Live {
    var f := FenceSession(l, session);
    f.(bySession := Remove(f.bySession, session))
  }

  /** `LiveSessionRegistry::activate`. */
  function Publish(l: Live, route: nat, session: nat, replaced: Option<nat>): Live {
    var a := if route in l.byRoute then Detach(l, l.byRoute[route]) else l;
    var b := if replaced.Some? then Detach(a, replaced.value) else a;
    Live(b.handles + [Handle(session, false)], b.bySession[session := |b.handles|], b.byRoute[route := session])
  }

  /** `LiveSessionRegistry::disconnect`. */
  function Disconnect(l: Live, session: nat): Live {
    if session !in l.bySession then l
    else
      var d := Detach(l, session);
      d.(byRoute := map r | r in d.byRoute && d.byRoute[r] != session :: d.byRoute[r])
  }

  /** `LiveSessionRegistry::clear`. */
  function Clear(l: Live): Live {
    Live(seq(|l.handles|, h requires 0 <= h < |l.handles| =>
               l.handles[h].(fenced := l.handles[h].fenced || exists s :: s in l.bySession && l.bySession[s] == h)),
         map[], map[])
  }

  // ---------------------------------------------------------------------
  // The protocol.

  datatype Row = Row(route: nat, active: bool)

  /** What the holder of the activation mutex is about to do. */
  datatype Task =
    | Replacing(route: nat, session: nat, sameRegistration: bool, preFenced: Option<nat>)
    | Publishing(route: nat, session: nat, replaced: Option<nat>)
    | FailingClosed(session: nat)
    | Closing(session: nat)
    | Disconnecting(session: nat)
    | Recovering

  datatype World = World(rows: map<nat, Row>, live: Live, task: Option<Task>)

  datatype Event =
    | Activate(route: nat, session: nat, sameRegistration: bool)
    | Close(session: nat)
    | FenceStartup
    | Proceed(storeOk: bool)
    | Cancel

  function Init(): World {
    World(map[], Live([], map[], map[]), None)
  }

  predicate ActiveOn(rows: map<nat, Row>, route: nat, s: nat) {
    s in rows && rows[s].active && rows[s].route == route
  }

  predicate HasActive(rows: map<nat, Row>, route: nat) {
    exists s :: s in rows && ActiveOn(rows, route, s)
  }

  function TheActive(rows: map<nat, Row>, route: nat): nat
    requires HasActive(rows, route) && OneActive(rows)
  {
    var s :| s in rows && ActiveOn(rows, route, s);
    s
  }

  /** The store keeps at most one active session per route. */
  predicate OneActive(rows: map<nat, Row>) {
    forall s, t :: s in rows && t in rows && rows[s].active && rows[t].active && rows[s].route == rows[t].route ==>
      s == t
  }

  function Retire(rows: map<nat, Row>, s: nat): map<nat, Row> {
    if s in rows then rows[s := rows[s].(active := false)] else rows
  }

  /** `replace_active_session`; `None` is an error and changes nothing. */
  function ReplaceRow(rows: map<nat, Row>, route: nat, session: nat, sameRegistration: bool)
    : Option<(map<nat, Row>, Option<nat>)>
    requires OneActive(rows)
  {
    if HasActive(rows, route) then
      var existing := TheActive(rows, route);
      if existing == session then (if sameRegistration then Some((rows, None)) else None)
      else if session in rows then None
      else Some((Retire(rows, existing)[session := Row(route, true)], Some(existing)))
    else if session in rows then None
    else Some((rows[session := Row(route, true)], None))
  }

  function RetireAll(rows: map<nat, Row>): map<nat, Row> {
    map s | s in rows :: rows[s].(active := false)
  }

  function Step(w: World, t: Task, storeOk: bool): World
    requires OneActive(w.rows)
  {
    match t
    case Replacing(route, session, sameRegistration, preFenced) =>
      if !storeOk then w.(task := None)
      else (match ReplaceRow(w.rows, route, session, sameRegistration)
        case None => w.(task := None)
        case Some((rows, replaced)) =>
          w.(rows := rows,
             task := Some(if preFenced.Some? && preFenced != replaced then FailingClosed(session)
                          else Publishing(route, session, replaced))))
    case Publishing(route, session, replaced) =>
      w.(live := Publish(w.live, route, session, replaced), task := None)
    case FailingClosed(session) =>
      if storeOk then w.(rows := Retire(w.rows, session), task := None) else w.(task := None)
    case Closing(session) =>
      if storeOk then w.(rows := Retire(w.rows, session), task := Some(Disconnecting(session))) else w.(task := None)
    case Disconnecting(session) => w.(live := Disconnect(w.live, session), task := None)
    case Recovering => if storeOk then w.(rows := RetireAll(w.rows), task := None) else w.(task := None)
  }

  /** One step of whoever may move: callers wait for the mutex, its holder proceeds or is dropped. */
  function Apply(w: World, e: Event): World
    requires OneActive(w.rows)
  {
    match e
    case Activate(route, session, sameRegistration) =>
      if w.task.Some? then w
      else if route in w.live.byRoute && w.live.byRoute[route] in w.live.bySession then
        w.(live := FenceSession(w.live, w.live.byRoute[route]),
           task := Some(Replacing(route, session, sameRegistration, Some(w.live.byRoute[route]))))
      else w.(task := Some(Replacing(route, session, sameRegistration, None)))
    case Close(session) =>
      if w.task.Some? then w else w.(live := FenceSession(w.live, session), task := Some(Closing(session)))
    case FenceStartup => if w.task.Some? then w else w.(live := Clear(w.live), task := Some(Recovering))
    case Proceed(storeOk) => if w.task.Some? then Step(w, w.task.value, storeOk) else w
    case Cancel => w.(task := None)
  }

  // ---------------------------------------------------------------------
  // The invariant.

  /** Sessions and routes name each other; every attached handle is its session's own. */
  predicate Paired(rows: map<nat, Row>, l: Live) {
    && (forall s :: s in l.bySession ==>
          && l.bySession[s] < |l.handles| && l.handles[l.bySession[s]].session == s
          && s in rows && rows[s].route in l.byRoute && l.byRoute[rows[s].route] == s)
    && (forall r :: r in l.byRoute ==>
          l.byRoute[r] in l.bySession && l.byRoute[r] in rows && rows[l.byRoute[r]].route == r)
  }

  /** A handle that still admits writes is the attached handle of a durably active session. */
  predicate Eligible(rows: map<nat, Row>, l: Live) {
    forall h :: 0 <= h < |l.handles| && !l.handles[h].fenced ==>
      var s := l.handles[h].session;
      s in l.bySession && l.bySession[s] == h && s in rows && rows[s].active
  }

  /** No attached handle of this session admits writes. */
  predicate Quiet(l: Live, s: nat) {
    s in l.bySession && l.bySession[s] < |l.handles| ==> l.handles[l.bySession[s]].fenced
  }

  predicate TaskHolds(w: World, t: Task) {
    match t
    case Replacing(route, session, _, preFenced) =>
      && (route in w.live.byRoute <==> preFenced.Some?)
      && (preFenced.Some? ==> w.live.byRoute[route] == preFenced.value && Quiet(w.live, preFenced.value))
    case Publishing(route, session, replaced) =>
      && ActiveOn(w.rows, route, session)
      && (replaced.Some? ==>
            replaced.value in w.rows && w.rows[replaced.value].route == route && replaced.value != session)
      && (route in w.live.byRoute ==> Quiet(w.live, w.live.byRoute[route]) && replaced == Some(w.live.byRoute[route]))
      && session !in w.live.bySession
    case FailingClosed(session) => Quiet(w.live, session)
    case Closing(session) => Quiet(w.live, session)
    case Disconnecting(session) => Quiet(w.live, session)
    case Recovering => w.live.bySession == map[]
  }

  predicate Inv(w: World) {
    && OneActive(w.rows) && Paired(w.rows, w.live) && Eligible(w.rows, w.live)
    && (w.task.Some? ==> TaskHolds(w, w.task.value))
  }

  lemma ReplaceKeepsOne(rows: map<nat, Row>, route: nat, session: nat, sameRegistration: bool)
    requires OneActive(rows)
    ensures match ReplaceRow(rows, route, session, sameRegistration)
            case None => true
            case Some((after, replaced)) =>
              && OneActive(after) && ActiveOn(after, route, session)
              && (forall s :: s in rows ==> s in after && after[s].route == rows[s].route)
              && (forall s :: s in rows && rows[s].active && !after[s].active ==> replaced == Some(s))
              && (forall s :: s in rows && s == session ==> after == rows && replaced.None?)
              && (replaced.Some? ==>
                    replaced.value in rows && ActiveOn(rows, route, replaced.value) && replaced.value != session)
  {
  }

  /** Retiring a session whose handle is quiet leaves every open handle eligible. */
  lemma RetireEligible(rows: map<nat, Row>, after: map<nat, Row>, l: Live, quiet: nat)
    requires Eligible(rows, l) && Quiet(l, quiet)
    requires forall s :: s in rows ==> s in after && (s != quiet && rows[s].active ==> after[s].active)
    ensures Eligible(after, l)
  {
  }

  lemma PairedRows(rows: map<nat, Row>, after: map<nat, Row>, l: Live)
    requires Paired(rows, l) && forall s :: s in rows ==> s in after && after[s].route == rows[s].route
    ensures Paired(after, l)
  {
  }

  lemma ActivateKeeps(w: World, route: nat, session: nat, sameRegistration: bool)
    requires Inv(w)
    ensures Inv(Apply(w, Activate(route, session, sameRegistration)))
  {
  }

  lemma CloseKeeps(w: World, session: nat)
    requires Inv(w)
    ensures Inv(Apply(w, Close(session)))
  {
  }

  lemma ClearKeeps(w: World)
    requires Inv(w)
    ensures Inv(Apply(w, FenceStartup))
  {
  }

  lemma ReplacingKeeps(w: World, t: Task)
    requires Inv(w) && w.task == Some(t) && t.Replacing?
    ensures Inv(Step(w, t, true))
  {
    ReplaceKeepsOne(w.rows, t.route, t.session, t.sameRegistration);
    var r := ReplaceRow(w.rows, t.route, t.session, t.sameRegistration);
    hide ReplaceRow, OneActive;
    if r.Some? {
      var after, replaced := r.value.0, r.value.1;
      PairedRows(w.rows, after, w.live);
      if replaced.Some? {
        ReplacedIsQuiet(w, t, replaced.value);
        RetireEligible(w.rows, after, w.live, replaced.value);
      } else {
        assert Eligible(after, w.live);
      }
      if t.preFenced.Some? && t.preFenced != replaced {
        SessionIsQuiet(w, t);
      } else {
        NotAttached(w, t);
      }
      hide Eligible, Paired, Quiet;
    }
  }

  /** The replaced session's handle, if attached, is the one fenced beforehand. */
  lemma ReplacedIsQuiet(w: World, t: Task, replaced: nat)
    requires Inv(w) && w.task == Some(t) && t.Replacing? && ActiveOn(w.rows, t.route, replaced)
    ensures Quiet(w.live, replaced)
  {
  }

  lemma SessionIsQuiet(w: World, t: Task)
    requires Inv(w) && w.task == Some(t) && t.Replacing?
    requires t.session in w.rows ==> ActiveOn(w.rows, t.route, t.session)
    ensures Quiet(w.live, t.session)
  {
  }

  lemma NotAttached(w: World, t: Task)
    requires Inv(w) && w.task == Some(t) && t.Replacing? && (t.session in w.rows ==> t.preFenced.None?)
    requires t.session in w.rows ==> ActiveOn(w.rows, t.route, t.session)
    ensures t.session !in w.live.bySession
  {
  }

  /** Detaching a session keeps the rest, except that its route still names it. */
  lemma PublishKeeps(w: World, t: Task)
    requires Inv(w) && w.task == Some(t) && t.Publishing?
    ensures Inv(Step(w, t, true)) && Inv(Step(w, t, false))
  {
    var l := Publish(w.live, t.route, t.session, t.replaced);
    PublishShape(w, t);
    PublishPaired(w, t);
    PublishEligible(w, t);
    hide Paired, Eligible, OneActive, Publish;
  }

  /** The session on the route before, if any, is gone from the registry; nothing else is. */
  lemma PublishShape(w: World, t: Task)
    requires Inv(w) && w.task == Some(t) && t.Publishing?
    ensures var l := Publish(w.live, t.route, t.session, t.replaced);
            && |l.handles| == |w.live.handles| + 1
            && l.handles[|w.live.handles|] == Handle(t.session, false)
            && (forall h :: 0 <= h < |w.live.handles| ==>
                  && l.handles[h].session == w.live.handles[h].session
                  && (w.live.handles[h].fenced ==> l.handles[h].fenced))
            && (forall s :: s in l.bySession <==>
                  || s == t.session
                  || (s in w.live.bySession && !(t.route in w.live.byRoute && w.live.byRoute[t.route] == s)))
            && (forall s :: s in l.bySession && s != t.session ==> l.bySession[s] == w.live.bySession[s])
            && l.bySession[t.session] == |w.live.handles|
            && l.byRoute == w.live.byRoute[t.route := t.session]
            && (forall h :: 0 <= h < |w.live.handles| && !l.handles[h].fenced ==> !w.live.handles[h].fenced)
  {
    if t.replaced.Some? && t.route !in w.live.byRoute {
      assert t.replaced.value !in w.live.bySession;
    }
  }

  lemma PublishPaired(w: World, t: Task)
    requires Inv(w) && w.task == Some(t) && t.Publishing?
    ensures Paired(w.rows, Publish(w.live, t.route, t.session, t.replaced))
  {
    PublishShape(w, t);
    hide Publish, Eligible, OneActive, Quiet;
  }

  lemma PublishEligible(w: World, t: Task)
    requires Inv(w) && w.task == Some(t) && t.Publishing?
    ensures Eligible(w.rows, Publish(w.live, t.route, t.session, t.replaced))
  {
  }

  lemma DisconnectKeeps(w: World, session: nat)
    requires Inv(w) && w.task == Some(Disconnecting(session))
    ensures Inv(Step(w, Disconnecting(session), true)) && Inv(Step(w, Disconnecting(session), false))
  {
    hide OneActive;
    var l := Disconnect(w.live, session);
    if session in w.live.bySession {
      forall h | 0 <= h < |l.handles| && !l.handles[h].fenced
        ensures var s := l.handles[h].session;
                s in l.bySession && l.bySession[s] == h && s in w.rows && w.rows[s].active
      {
        assert !w.live.handles[h].fenced;
      }
      assert Paired(w.rows, l);
    }
  }

  lemma RetiringKeeps(w: World, session: nat, next: Option<Task>)
    requires Inv(w) && Quiet(w.live, session) && (next.None? || next == Some(Disconnecting(session)))
    ensures Inv(w.(rows := Retire(w.rows, session), task := next))
  {
  }

  lemma RecoveringKeeps(w: World)
    requires Inv(w) && w.task == Some(Recovering)
    ensures Inv(w.(rows := RetireAll(w.rows), task := None))
  {
  }

  /** Every step of activation, close and startup fencing keeps the invariant, whether the store succeeds or not. */
  lemma StepKeepsInv(w: World, e: Event)
    requires Inv(w)
    ensures Inv(Apply(w, e))
  {
    hide OneActive, Paired, Eligible, Quiet, Publish, Disconnect, Clear, ReplaceRow;
    match e
    case Activate(route, session, sameRegistration) => ActivateKeeps(w, route, session, sameRegistration);
    case Close(session) => CloseKeeps(w, session);
    case FenceStartup => ClearKeeps(w);
    case Cancel =>
    case Proceed(storeOk) =>
      if w.task.Some? {
        var t := w.task.value;
        match t
        case Replacing(_, _, _, _) => if storeOk { ReplacingKeeps(w, t); }
        case Publishing(_, _, _) => PublishKeeps(w, t);
        case FailingClosed(session) => RetiringKeeps(w, session, None);
        case Closing(session) => RetiringKeeps(w, session, Some(Disconnecting(session)));
        case Disconnecting(session) => DisconnectKeeps(w, session);
        case Recovering => RecoveringKeeps(w);
      }
  }

  /** The step relation keeps its own precondition, so runs are defined. */
  function Run(w: World, events: seq<Event>): (t: World)
    requires Inv(w)
    ensures Inv(t)
    decreases |events|
  {
    if events == [] then w
    else
      StepKeepsInv(w, events[0]);
      Run(Apply(w, events[0]), events[1..])
  }

  lemma InitInv()
    ensures Inv(Init())
  {
  }

  /**
    Safety of fencing. After any interleaving of activations, closes and startup
    fencing, with store failures and dropped callers at any step: a handle that
    still admits writes, attached or merely held by a writer, is the attached
    handle of the one durably active session of its route; routes and attached
    sessions stay in one-to-one correspondence.
  */
  lemma OpenHandlesAreActive(events: seq<Event>)
    ensures Inv(Init())
    ensures var w := Run(Init(), events);
            && (forall h :: 0 <= h < |w.live.handles| && !w.live.handles[h].fenced ==>
                  var s := w.live.handles[h].session;
                  s in w.rows && ActiveOn(w.rows, w.rows[s].route, s) && w.rows[s].route in w.live.byRoute
                  && w.live.byRoute[w.rows[s].route] == s && s in w.live.bySession && w.live.bySession[s] == h)
            && (forall r :: r in w.live.byRoute ==> w.live.byRoute[r] in w.live.bySession)
            && (forall r, q :: r in w.live.byRoute && q in w.live.byRoute && w.live.byRoute[r] == w.live.byRoute[q] ==>
                  r == q)
            && (forall s :: s in w.live.bySession ==> exists r :: r in w.live.byRoute && w.live.byRoute[r] == s)
            && OneActive(w.rows)
  {
  }

  predicate StaysFenced(l: Live, m: Live) {
    |l.handles| <= |m.handles| && forall h :: 0 <= h < |l.handles| && l.handles[h].fenced ==> m.handles[h].fenced
  }

  lemma StepKeepsFences(w: World, e: Event)
    requires OneActive(w.rows)
    ensures StaysFenced(w.live, Apply(w, e).live)
  {
    hide OneActive, ReplaceRow;
  }

  /** A fence never clears over a whole run. */
  lemma {:induction false} FencesAreForever(w: World, events: seq<Event>)
    requires Inv(w)
    ensures StaysFenced(w.live, Run(w, events).live)
    decreases |events|
  {
    if events != [] {
      StepKeepsInv(w, events[0]);
      StepKeepsFences(w, events[0]);
      hide Apply, TaskHolds, OneActive, Paired, Eligible;
      FencesAreForever(Apply(w, events[0]), events[1..]);
    }
  }

  /**
    When an activation gets as far as publishing, given a working store: exactly
    when the registered id is new (or repeats the active registration of a route
    without a live handle) and the live session of the route, if any, is the durably
    active one.
  */
  lemma ActivationPublishes(w: World, route: nat, session: nat, sameRegistration: bool)
    requires Inv(w) && w.task.None?
    ensures var begun := Apply(w, Activate(route, session, sameRegistration));
            && OneActive(begun.rows)
            && var t := Apply(begun, Proceed(true)).task;
               (t.Some? && t.value.Publishing?) <==>
                 && (session !in w.rows
                     || (sameRegistration && route !in w.live.byRoute && ActiveOn(w.rows, route, session)))
                 && (route in w.live.byRoute ==> ActiveOn(w.rows, route, w.live.byRoute[route]))
  {
    hide Eligible;
  }

  // ---------------------------------------------------------------------
  // What the protocol's turns do.

  /** The one row change of a retirement: this session is no longer active, if it is known at all. */
  predicate RetiredOnly(rows: map<nat, Row>, after: map<nat, Row>, session: nat) {
    && after.Keys == rows.Keys
    && (forall s :: s in rows && s != session ==> after[s] == rows[s])
    && (session in rows ==> after[session] == Row(rows[session].route, false))
  }

  /** Durable replacement, exactly: when it is refused, whom it replaces and what it writes. */
  lemma ReplacementIs(rows: map<nat, Row>, route: nat, session: nat, sameRegistration: bool)
    requires OneActive(rows)
    ensures var r := ReplaceRow(rows, route, session, sameRegistration);
            && (r.None? <==> session in rows && !(sameRegistration && ActiveOn(rows, route, session)))
            && (r.Some? && session in rows ==> r.value == (rows, None))
            && (r.Some? && session !in rows ==>
                  var (after, replaced) := r.value;
                  && after.Keys == rows.Keys + {session} && after[session] == Row(route, true)
                  && (forall s: nat :: ActiveOn(rows, route, s) <==> replaced == Some(s))
                  && (forall s :: s in rows ==>
                        after[s] == if ActiveOn(rows, route, s) then Row(route, false) else rows[s]))
  {
    if HasActive(rows, route) {
      var existing := TheActive(rows, route);
      assert forall s: nat :: ActiveOn(rows, route, s) ==> s == existing;
    } else {
      forall s: nat ensures !ActiveOn(rows, route, s) {
        assert s in rows && ActiveOn(rows, route, s) ==> HasActive(rows, route);
      }
    }
  }

  /** What the holder of the mutex does next, whether the store works or not, and that it lets go at the end. */
  lemma TaskTurns(w: World, t: Task, storeOk: bool)
    requires OneActive(w.rows) && w.task == Some(t)
    ensures var u := Apply(w, Proceed(storeOk));
            match t
            case Replacing(route, session, sameRegistration, preFenced) =>
              var r := ReplaceRow(w.rows, route, session, sameRegistration);
              && u.live == w.live
              && (!storeOk || r.None? ==> u.rows == w.rows && u.task == None)
              && (storeOk && r.Some? ==>
                    var (after, replaced) := r.value;
                    && u.rows == after
                    && u.task == if preFenced in {None, replaced} then Some(Publishing(route, session, replaced))
                                 else Some(FailingClosed(session)))
            case Publishing(route, session, replaced) =>
              u == World(w.rows, Publish(w.live, route, session, replaced), None)
            case FailingClosed(session) =>
              && u.live == w.live && u.task == None
              && (if storeOk then RetiredOnly(w.rows, u.rows, session) else u.rows == w.rows)
            case Closing(session) =>
              && u.live == w.live
              && (storeOk ==> RetiredOnly(w.rows, u.rows, session) && u.task == Some(Disconnecting(session)))
              && (!storeOk ==> u.rows == w.rows && u.task == None)
            case Disconnecting(session) =>
              && u.rows == w.rows && u.task == None
              && session !in u.live.bySession
              && (forall k :: k in w.live.bySession && k != session ==>
                    k in u.live.bySession && u.live.bySession[k] == w.live.bySession[k])
              && (session in w.live.bySession ==> forall r :: r in u.live.byRoute <==>
                    r in w.live.byRoute && w.live.byRoute[r] != session)
            case Recovering =>
              && u.live == w.live && u.task == None && u.rows.Keys == w.rows.Keys
              && (forall s :: s in w.rows ==>
                    u.rows[s] == if storeOk then Row(w.rows[s].route, false) else w.rows[s])
  {
    hide OneActive, ReplaceRow, Publish;
  }

  /** The mutex: while someone holds it nobody else begins; a dropped holder only lets go. */
  lemma OneHolder(w: World, e: Event)
    requires OneActive(w.rows)
    ensures Apply(w, Cancel) == w.(task := None)
    ensures w.task.Some? && (e.Activate? || e.Close? || e.FenceStartup?) ==> Apply(w, e) == w
    ensures w.task.None? && e.Proceed? ==> Apply(w, e) == w
  {
  }

  /** What a caller does on taking the mutex: it fences what it will replace, close or clear before any store call. */
  lemma BeginningTurns(w: World, route: nat, session: nat, sameRegistration: bool)
    requires Inv(w) && w.task.None?
    ensures var t := Apply(w, Activate(route, session, sameRegistration));
            var attached := if route in w.live.byRoute then Some(w.live.byRoute[route]) else None;
            && t.rows == w.rows && t.task == Some(Replacing(route, session, sameRegistration, attached))
            && t.live.bySession == w.live.bySession && t.live.byRoute == w.live.byRoute
            && (attached.None? ==> t.live == w.live)
            && (attached.Some? ==>
                  && attached.value in w.live.bySession
                  && w.live.bySession[attached.value] < |t.live.handles|
                  && t.live.handles[w.live.bySession[attached.value]].fenced)
    ensures var t := Apply(w, Close(session));
            && t.rows == w.rows && t.task == Some(Closing(session))
            && t.live.bySession == w.live.bySession && t.live.byRoute == w.live.byRoute
            && (session in w.live.bySession ==>
                  && w.live.bySession[session] < |t.live.handles|
                  && t.live.handles[w.live.bySession[session]].fenced)
            && (session !in w.live.bySession ==> t.live == w.live)
    ensures var t := Apply(w, FenceStartup);
            && t.rows == w.rows && t.task == Some(Recovering) && t.live.bySession == map[] && t.live.byRoute == map[]
            && |t.live.handles| == |w.live.handles|
            && (forall s :: s in w.live.bySession ==>
                  w.live.bySession[s] < |t.live.handles| && t.live.handles[w.live.bySession[s]].fenced)
  {
    hide OneActive, Eligible;
  }

  /** Publishing leaves the route on the new session, whose handle is the only new one and open. */
  lemma PublishedTurn(l: Live, route: nat, session: nat, replaced: Option<nat>)
    ensures var p := Publish(l, route, session, replaced);
            && |p.handles| == |l.handles| + 1 && p.handles[|l.handles|] == Handle(session, false)
            && session in p.bySession && p.bySession[session] == |l.handles|
            && p.byRoute == l.byRoute[route := session]
            && (replaced.Some? && replaced.value != session ==> replaced.value !in p.bySession)
            && (route in l.byRoute && l.byRoute[route] != session ==> l.byRoute[route] !in p.bySession)
  {
  }

  // ---------------------------------------------------------------------
  // Words and flags.

  /** The protocol together with the word of every handle ever created. */
  datatype Gateway = Gateway(world: World, words: seq<Admission>)

  datatype GatewayEvent = Protocol(event: Event) | Writer(handle: nat, instruction: WordEvent)

  /** A fence of the protocol is the fence instruction on the handle's word; a new handle starts with an empty word. */
  function Words(words: seq<Admission>, before: Live, after: Live): seq<Admission>
    requires |words| == |before.handles| <= |after.handles|
  {
    seq(|after.handles|, h requires 0 <= h < |after.handles| =>
      if |words| <= h then Admission(0, map[], 0)
      else if after.handles[h].fenced && !before.handles[h].fenced then Instruction(words[h], Fence)
      else words[h])
  }

  ghost predicate InStep(g: Gateway) {
    && Inv(g.world) && |g.words| == |g.world.live.handles|
    && forall h :: 0 <= h < |g.words| ==>
         Counting(g.words[h]) && (g.world.live.handles[h].fenced <==> IsFenced(g.words[h].word))
  }

  /** Writers execute only loads, swaps and drops; fencing is the protocol's. */
  function GatewayStep(g: Gateway, e: GatewayEvent): Gateway
    requires InStep(g)
  {
    match e
    case Protocol(event) =>
      StepKeepsFences(g.world, event);
      var after := Apply(g.world, event);
      Gateway(after, Words(g.words, g.world.live, after.live))
    case Writer(h, instruction) =>
      if h < |g.words| && !instruction.Fence? then
        g.(words := g.words[h := Instruction(g.words[h], instruction)])
      else g
  }

  /** Every step keeps each handle's flag equal to the fence bit of its word. */
  lemma GatewayKeepsStep(g: Gateway, e: GatewayEvent)
    requires InStep(g)
    ensures InStep(GatewayStep(g, e))
  {
    assert OneActive(g.world.rows);
    hide Counting, Inv, Apply, Permits, FetchOr, OneActive;
    match e
    case Protocol(event) =>
      StepKeepsInv(g.world, event);
      StepKeepsFences(g.world, event);
      NewHandlesAreOpen(g.world, event);
      var t := GatewayStep(g, e);
      forall h | 0 <= h < |t.words|
        ensures Counting(t.words[h]) && (t.world.live.handles[h].fenced <==> IsFenced(t.words[h].word))
      {
        if h < |g.words| {
          FenceSets(g.words[h]);
        } else {
          FreshWord();
        }
      }
    case Writer(h, instruction) =>
      if h < |g.words| && !instruction.Fence? {
        InstructionCounts(g.words[h], instruction);
        WriterKeepsFence(g.words[h], instruction);
      }
  }

  lemma FenceSets(a: Admission)
    requires Counting(a)
    ensures Counting(Instruction(a, Fence)) && IsFenced(Instruction(a, Fence).word)
  {
    InstructionCounts(a, Fence);
    WordFence(a.word);
  }

  lemma FreshWord()
    ensures Counting(Admission(0, map[], 0)) && !IsFenced(0)
  {
  }

  lemma WriterKeepsFence(a: Admission, e: WordEvent)
    requires Counting(a) && !e.Fence?
    ensures IsFenced(Instruction(a, e).word) <==> IsFenced(a.word)
  {
    if e.Drop? && e.thread in a.threads && a.threads[e.thread].Permitted? && 0 < a.word {
      DropCounts(a, e.thread);
    }
  }

  lemma NewHandlesAreOpen(w: World, e: Event)
    requires OneActive(w.rows)
    ensures forall h :: |w.live.handles| <= h < |Apply(w, e).live.handles| ==> !Apply(w, e).live.handles[h].fenced
  {
    hide OneActive, ReplaceRow;
  }

  /** A writer's instruction acts on the word of its handle and on nothing else; it cannot fence. */
  lemma WriterTurn(g: Gateway, h: nat, instruction: WordEvent)
    requires InStep(g)
    ensures var t := GatewayStep(g, Writer(h, instruction));
            && t.world == g.world && |t.words| == |g.words|
            && (forall k :: 0 <= k < |g.words| && k != h ==> t.words[k] == g.words[k])
            && (h < |g.words| ==>
                  t.words[h] == if instruction == Fence then g.words[h] else Instruction(g.words[h], instruction))
  {
    hide InStep, Instruction;
  }

  function GatewayRun(g: Gateway, events: seq<GatewayEvent>): (t: Gateway)
    requires InStep(g)
    ensures InStep(t)
    decreases |events|
  {
    if events == [] then g
    else
      GatewayKeepsStep(g, events[0]);
      GatewayRun(GatewayStep(g, events[0]), events[1..])
  }

  /** A run takes its events one after the other. */
  lemma GatewayRunStep(g: Gateway, e: GatewayEvent, rest: seq<GatewayEvent>)
    requires InStep(g)
    ensures InStep(GatewayStep(g, e)) && GatewayRun(g, [e] + rest) == GatewayRun(GatewayStep(g, e), rest)
    ensures GatewayRun(g, []) == g
  {
    hide InStep, GatewayStep;
    GatewayKeepsStep(g, e);
    assert ([e] + rest)[1..] == rest;
  }

  /**
    Over every interleaving of the session protocol with the writers' instructions on
    every handle: whenever an instruction grants a permit, the handle's session is
    the durably active one of its route.
  */
  lemma WritesAreAdmittedOnlyToActiveSessions(events: seq<GatewayEvent>, h: nat, instruction: WordEvent)
    ensures InStep(Gateway(Init(), []))
    ensures var g := GatewayRun(Gateway(Init(), []), events);
            var t := GatewayStep(g, Writer(h, instruction));
            h < |g.words| && !(Permits(t.words[h]) <= Permits(g.words[h])) ==>
              var s := g.world.live.handles[h].session;
              s in g.world.rows && ActiveOn(g.world.rows, g.world.rows[s].route, s)
  {
    InitInv();
    var g := GatewayRun(Gateway(Init(), []), events);
    if h < |g.words| {
      hide GatewayRun, Counting, Permits, Paired, TaskHolds, OneActive;
      InstructionCounts(g.words[h], instruction);
    }
  }

  // ---------------------------------------------------------------------
  // A blocked route.

  /** The route's live session is no longer durably active, and nobody is about to remove it. */
  predicate BlockedBy(w: World, route: nat, stale: nat) {
    && route in w.live.byRoute && w.live.byRoute[route] == stale && stale in w.rows && !w.rows[stale].active
    && (w.task.Some? ==>
          match w.task.value
          case Replacing(r, _, _, preFenced) => r == route ==> preFenced == Some(stale)
          case Publishing(r, _, _) => r != route
          case FailingClosed(_) => true
          case Closing(s) => s != stale
          case Disconnecting(s) => s != stale
          case Recovering => false)
  }

  /** An activation dropped between the durable replacement and the publication. */
  function DroppedActivation(route: nat, first: nat, second: nat): seq<Event> {
    [Activate(route, first, false), Proceed(true), Proceed(true), Activate(route, second, false), Proceed(true), Cancel]
  }

  /** Such a state is reached by every route: its first session blocks it although the second is active. */
  lemma DroppedActivationBlocks(route: nat, first: nat, second: nat)
    requires first != second
    ensures Inv(Init())
    ensures var w := Run(Init(), DroppedActivation(route, first, second));
            w.task.None? && BlockedBy(w, route, first) && ActiveOn(w.rows, route, second)
  {
    InitInv();
    var published := Live([Handle(first, false)], map[first := 0], map[route := first]);
    var fenced := Live([Handle(first, true)], map[first := 0], map[route := first]);
    var w1 := World(map[], Live([], map[], map[]), Some(Replacing(route, first, false, None)));
    var w2 := World(map[first := Row(route, true)], Live([], map[], map[]), Some(Publishing(route, first, None)));
    var w3 := World(map[first := Row(route, true)], published, None);
    var w4 := World(map[first := Row(route, true)], fenced, Some(Replacing(route, second, false, Some(first))));
    var w5 := World(map[first := Row(route, false), second := Row(route, true)], fenced,
                    Some(Publishing(route, second, Some(first))));
    FirstActivation(route, first, w1, w2, w3);
    SecondActivation(route, first, second, w3, w4, w5);
    hide Apply, Inv;
    var events := DroppedActivation(route, first, second);
    RunTail(Init(), events);
    RunTail(w1, events[1..]);
    RunTail(w2, events[2..]);
    RunTail(w3, events[3..]);
    RunTail(w4, events[4..]);
    RunTail(w5, events[5..]);
    assert events[6..] == [];
    CancelLeaves(w5);
  }

  lemma RunTail(w: World, events: seq<Event>)
    requires Inv(w) && events != []
    ensures Inv(Apply(w, events[0])) && Run(w, events) == Run(Apply(w, events[0]), events[1..])
  {
    hide Inv, Apply;
    StepKeepsInv(w, events[0]);
  }

  lemma CancelLeaves(w: World)
    requires OneActive(w.rows)
    ensures Apply(w, Cancel) == w.(task := None)
  {
  }

  lemma FirstActivation(route: nat, first: nat, w1: World, w2: World, w3: World)
    requires var none := Live([], map[], map[]);
             && w1 == World(map[], none, Some(Replacing(route, first, false, None)))
             && w2 == World(map[first := Row(route, true)], none, Some(Publishing(route, first, None)))
             && w3 == World(map[first := Row(route, true)],
                            Live([Handle(first, false)], map[first := 0], map[route := first]), None)
    ensures Apply(Init(), Activate(route, first, false)) == w1
    ensures OneActive(w1.rows) && Apply(w1, Proceed(true)) == w2
    ensures OneActive(w2.rows) && Apply(w2, Proceed(true)) == w3
  {
    assert !HasActive(map[], route);
  }

  lemma SecondActivation(route: nat, first: nat, second: nat, w3: World, w4: World, w5: World)
    requires first != second
    requires var fenced := Live([Handle(first, true)], map[first := 0], map[route := first]);
             && w3 == World(map[first := Row(route, true)],
                            Live([Handle(first, false)], map[first := 0], map[route := first]), None)
             && w4 == World(w3.rows, fenced, Some(Replacing(route, second, false, Some(first))))
             && w5 == World(map[first := Row(route, false), second := Row(route, true)], fenced,
                            Some(Publishing(route, second, Some(first))))
    ensures OneActive(w3.rows) && Apply(w3, Activate(route, second, false)) == w4
    ensures OneActive(w4.rows) && Apply(w4, Proceed(true)) == w5
    ensures OneActive(w5.rows)
  {
    assert ActiveOn(w4.rows, route, first) && HasActive(w4.rows, route) && TheActive(w4.rows, route) == first;
  }

  /** One step that neither closes the blocking session nor fences everything leaves the route blocked. */
  lemma BlockedStep(w: World, route: nat, stale: nat, e: Event)
    requires Inv(w) && BlockedBy(w, route, stale) && e != Close(stale) && !e.FenceStartup?
    ensures BlockedBy(Apply(w, e), route, stale)
  {
    if e.Proceed? && w.task.Some? {
      BlockedTask(w, route, stale, w.task.value, e.storeOk);
    }
  }

  lemma BlockedTask(w: World, route: nat, stale: nat, t: Task, storeOk: bool)
    requires Inv(w) && BlockedBy(w, route, stale) && w.task == Some(t)
    ensures BlockedBy(Step(w, t, storeOk), route, stale)
  {
    hide Eligible, Quiet;
    match t
    case Replacing(r, session, sameRegistration, _) => BlockedReplacing(w, route, stale, t, storeOk);
    case Publishing(r, session, replaced) => BlockedPublishing(w, route, stale, t, storeOk);
    case _ => hide OneActive, Publish, ReplaceRow;
  }

  lemma BlockedReplacing(w: World, route: nat, stale: nat, t: Task, storeOk: bool)
    requires Inv(w) && BlockedBy(w, route, stale) && w.task == Some(t) && t.Replacing?
    ensures BlockedBy(Step(w, t, storeOk), route, stale)
  {
    hide Eligible, Quiet, Paired;
    ReplaceKeepsOne(w.rows, t.route, t.session, t.sameRegistration);
    hide ReplaceRow;
  }

  lemma BlockedPublishing(w: World, route: nat, stale: nat, t: Task, storeOk: bool)
    requires Inv(w) && BlockedBy(w, route, stale) && w.task == Some(t) && t.Publishing?
    ensures BlockedBy(Step(w, t, storeOk), route, stale)
  {
    hide Publish, Eligible, OneActive, Quiet, Paired;
    PublishShape(w, t);
  }

  /**
    Until the blocking session is closed or everything is fenced at startup, no
    activation of the route is ever published, whatever else happens.
  */
  lemma {:induction false} BlockedUntilClosed(w: World, route: nat, stale: nat, events: seq<Event>)
    requires Inv(w) && BlockedBy(w, route, stale)
    requires forall i :: 0 <= i < |events| ==> events[i] != Close(stale) && !events[i].FenceStartup?
    ensures BlockedBy(Run(w, events), route, stale)
    ensures var t := Run(w, events).task; !(t.Some? && t.value.Publishing? && t.value.route == route)
    decreases |events|
  {
    if events != [] {
      StepKeepsInv(w, events[0]);
      BlockedStep(w, route, stale, events[0]);
      hide Apply, Inv;
      BlockedUntilClosed(Apply(w, events[0]), route, stale, events[1..]);
    }
  }

  /** Closing the blocking session, or fencing at startup, frees the route. */
  lemma CloseFreesRoute(w: World, route: nat, stale: nat)
    requires Inv(w) && BlockedBy(w, route, stale) && w.task.None?
    ensures route !in Run(w, [Close(stale), Proceed(true), Proceed(true)]).live.byRoute
    ensures route !in Run(w, [FenceStartup]).live.byRoute
  {
    RunTail(w, [FenceStartup]);
    assert [FenceStartup][1..] == [];
    var events := [Close(stale), Proceed(true), Proceed(true)];
    RunTail(w, events);
    var w1 := Apply(w, events[0]);
    RunTail(w1, events[1..]);
    var w2 := Apply(w1, Proceed(true));
    RunTail(w2, events[2..]);
    assert events[3..] == [];
    CloseDetaches(w, w1, w2, route, stale);
  }

  lemma CloseDetaches(w: World, w1: World, w2: World, route: nat, stale: nat)
    requires Inv(w) && BlockedBy(w, route, stale) && w.task.None?
    requires w1 == Apply(w, Close(stale)) && OneActive(w1.rows) && w2 == Apply(w1, Proceed(true)) && OneActive(w2.rows)
    ensures route !in Apply(w2, Proceed(true)).live.byRoute
  {
    hide Eligible, OneActive, Quiet;
  }

  /** The registry as the program holds it. */
  class LiveSessionRegistry {
    var handles: seq<Handle>
    var bySession: map<nat, nat>
    var byRoute: map<nat, nat>

    function Value(): Live
      reads this
    {
      Live(handles, bySession, byRoute)
    }

    constructor ()
      ensures Value() == Live([], map[], map[])
    {
      handles, bySession, byRoute := [], map[], map[];
    }

    method FenceRoute(route: nat) returns (fenced: Option<nat>)
      requires forall s :: s in bySession ==> bySession[s] < |handles|
      modifies this`handles
      ensures fenced == if route in byRoute && byRoute[route] in bySession then Some(byRoute[route]) else None
      ensures Value() == if fenced.Some? then FenceSession(old(Value()), fenced.value) else old(Value())
    {
      if route !in byRoute || byRoute[route] !in bySession {
        return None;
      }
      var session := byRoute[route];
      var h := bySession[session];
      handles := handles[h := handles[h].(fenced := true)];
      return Some(session);
    }

    method DetachSession(session: nat)
      requires forall s :: s in bySession ==> bySession[s] < |handles|
      modifies this`handles, this`bySession
      ensures Value() == Detach(old(Value()), session)
      ensures forall s :: s in bySession ==> bySession[s] < |handles|
    {
      if session in bySession {
        var h := bySession[session];
        bySession := Remove(bySession, session);
        handles := handles[h := handles[h].(fenced := true)];
      } else {
        assert Remove(bySession, session) == bySession;
      }
    }

    method ActivateSession(route: nat, session: nat, replaced: Option<nat>) returns (handle: nat)
      requires forall s :: s in bySession ==> bySession[s] < |handles|
      modifies this
      ensures Value() == Publish(old(Value()), route, session, replaced)
      ensures handle == |handles| - 1 && bySession[session] == handle && !handles[handle].fenced
    {
      if route in byRoute {
        DetachSession(byRoute[route]);
      }
      if replaced.Some? {
        DetachSession(replaced.value);
      }
      handle := |handles|;
      handles := handles + [Handle(session, false)];
      byRoute := byRoute[route := session];
      bySession := bySession[session := handle];
    }

    method DisconnectSession(session: nat) returns (found: bool)
      requires forall s :: s in bySession ==> bySession[s] < |handles|
      modifies this
      ensures found == (session in old(bySession)) && Value() == Disconnect(old(Value()), session)
    {
      if session !in bySession {
        return false;
      }
      DetachSession(session);
      byRoute := map r | r in byRoute && byRoute[r] != session :: byRoute[r];
      return true;
    }

    method ClearAll()
      requires forall s :: s in bySession ==> bySession[s] < |handles|
      modifies this
      ensures Value() == Clear(old(Value()))
    {
      ghost var before := handles;
      var rest := bySession.Keys;
      while rest != {}
        invariant bySession == old(bySession) && rest <= bySession.Keys && |handles| == |before|
        invariant forall h :: 0 <= h < |handles| ==>
          handles[h] == before[h].(fenced := before[h].fenced
                                             || exists s :: s in bySession && s !in rest && bySession[s] == h)
        decreases |rest|
      {
        var session :| session in rest;
        var h := bySession[session];
        handles := handles[h := handles[h].(fenced := true)];
        rest := rest - {session};
      }
      bySession, byRoute := map[], map[];
    }
  }
}
