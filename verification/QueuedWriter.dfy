/**
  The writer as the program holds it: fields changed in place by the sink handles
  and by the writer task. Every method is one atomic section and is proved to
  perform exactly the corresponding step of the `Writer` machine, so everything
  proved there about interleavings holds of these objects.
*/
module QueuedWriter {
  import opened Prelude
  import opened Framing
  import opened Writer

  class QueuedWriter {
    const capacity: nat
    const maxFrame: nat
    const maxMessage: nat
    var phase: Phase
    var writes: seq<Write>
    var bootstrap: seq<nat>
    var admitting: set<nat>
    var channel: seq<nat>
    var permits: nat
    var reordered: map<nat, nat>
    var nextSequence: nat
    var gapArmed: bool
    var closed: bool
    var task: Task
    var done: map<nat, Outcome>
    var accepted: seq<Accepted>
    var wire: Bytes
    var aborted: bool

    /** The machine state these fields stand for. */
    function Value(): State
      reads this
    {
      State(capacity, maxFrame, maxMessage, phase, writes, bootstrap, admitting, channel, permits, reordered,
            nextSequence, gapArmed, closed, task, done, accepted, wire, aborted)
    }

    constructor (capacity: nat, maxFrame: nat, maxMessage: nat)
      ensures Value() == Init(capacity, maxFrame, maxMessage)
      ensures Inv(Value())
    {
      this.capacity, this.maxFrame, this.maxMessage := capacity, maxFrame, maxMessage;
      phase, writes, bootstrap, admitting, channel, permits := Staging, [], [], {}, [], capacity;
      reordered, nextSequence, gapArmed, closed, task := map[], 1, false, false, Idle;
      done, accepted, wire, aborted := map[], [], [], false;
      new;
      InitInv(capacity, maxFrame, maxMessage);
    }

    method Complete(id: nat, outcome: Outcome)
      requires id < |writes|
      modifies this`done, this`permits
      ensures Value() == Writer.Complete(old(Value()), id, outcome)
    {
      done := done[id := outcome];
      if writes[id].permit {
        permits := permits + 1;
      }
    }

    /** Fails a list of requests that all own a permit, or none does. */
    method FailAll(ids: seq<nat>, owned: bool)
      requires forall id :: id in ids ==> id < |writes| && writes[id].permit == owned
      modifies this`done, this`permits
      ensures permits == old(permits) + if owned then |ids| else 0
      ensures done == old(done) + UnwrittenAll(ids)
    {
      NoneUnwritten(done);
      hide UnwrittenAll;
      for i := 0 to |ids|
        invariant permits == old(permits) + if owned then i else 0
        invariant done == old(done) + UnwrittenAll(ids[..i])
      {
        assert ids[i] in ids;
        Complete(ids[i], DefinitelyNotWritten);
        FailNext(old(done), ids, i);
      }
      assert ids[..|ids|] == ids;
      assert ids[..0] == [];
    }

    /** `WriterState::close`. */
    method ClosePhase()
      requires forall id :: id in bootstrap ==> id < |writes| && !writes[id].permit
      modifies this`phase, this`bootstrap, this`done, this`permits
      ensures Value() == Writer.ClosePhase(old(Value()))
    {
      if phase.Closed? {
        return;
      }
      phase := Closed;
      var pending := bootstrap;
      bootstrap := [];
      FailAll(pending, false);
    }

    /** `fail_pending`: drains the reorder buffer, then the channel. */
    method FailPending()
      requires Drainable(Value())
      modifies this`task, this`closed, this`reordered, this`channel, this`permits, this`done
      ensures Value() == Writer.FailPending(old(Value()))
    {
      hide Unsent, Keyed;
      Undrained(Value());
      task := Ended;
      if !closed {
        closed := true;
        DrainAll();
      }
    }

    method DrainAll()
      requires Keyed(writes, reordered) && forall id :: id in channel ==> id < |writes| && writes[id].permit
      modifies this`reordered, this`channel, this`permits, this`done
      ensures reordered == map[] && channel == [] && permits == old(permits + |reordered| + |channel|)
      ensures done == old(done) + Unsent(old(Value()))
    {
      hide InReorder, Unsent, Keyed, Unwritten, UnwrittenAll;
      ghost var s := Value();
      ghost var failed := DrainReordered();
      var queue := channel;
      channel := [];
      FailAll(queue, true);
      FailedTogether(s, failed);
    }

    method DrainReordered() returns (ghost failed: set<nat>)
      requires Keyed(writes, reordered)
      modifies this`reordered, this`permits, this`done
      ensures reordered == map[] && permits == old(permits) + |old(reordered)|
      ensures done == old(done) + Unwritten(failed)
      ensures forall id: nat :: id in failed <==> Buffered(writes, old(reordered), id)
    {
      ghost var all, before, free := reordered, done, permits;
      failed := {};
      while reordered != map[]
        invariant forall k :: k in reordered ==> k in all && reordered[k] == all[k]
        invariant permits + |reordered| == free + |all|
        invariant done == before + Unwritten(failed)
        invariant forall id: nat :: id in failed <==> Buffered(writes, all, id) && writes[id].sequence !in reordered
        decreases |reordered|
      {
        var k :| k in reordered;
        var id := reordered[k];
        var rest := reordered - {k};
        assert rest.Keys == reordered.Keys - {k};
        reordered := rest;
        Complete(id, DefinitelyNotWritten);
        FailOneMore(before, failed, id);
        failed := failed + {id};
      }
    }

    /** `accept_expected`; on a refusal the writer goes on to close. */
    method AcceptExpected(id: nat)
      requires id < |writes|
      modifies this
      ensures Value() == Accept(old(Value()), id)
    {
      if writes[id].sequence != nextSequence || nextSequence == U64_MAX {
        Complete(id, DefinitelyNotWritten);
        task := Failing;
        return;
      }
      nextSequence := nextSequence + 1;
      gapArmed := false;
      accepted := accepted + [Accepted(id, writes[id])];
      if writes[id].skip {
        Complete(id, DefinitelyNotWritten);
        task := Idle;
      } else {
        task := Writing(id);
      }
    }

    /** `fail_closed`: closes the phase, then fails what is pending. */
    method FailClosed() returns (ghost trace: seq<Event>)
      requires Inv(Value()) && task.Failing?
      modifies this
      ensures trace == [Shut, Drain] && Value() == Run(old(Value()), trace) && task.Ended?
    {
      hide Inv, Writer.ClosePhase, Writer.FailPending, Keyed;
      ghost var s := Value();
      InvQueues(s);
      ShutDrain(s);
      ClosePhase();
      task := Draining;
      FailPending();
      trace := [Shut, Drain];
    }

    /** One round of the loop in `next`. */
    method Round()
      requires Inv(Value()) && task.Idle? && !phase.Staging?
      modifies this
      ensures Indexed(old(Value())) && Value() == Writer.Advance(old(Value()))
    {
      hide Accept, Writer.FailPending, Inv, Indexed, Keyed;
      ghost var s := Value();
      InvIndexed(s);
      RoundSound(s);
      if reordered != map[] && !gapArmed {
        gapArmed := true;
      }
      if phase.Closed? {
        FailPending();
      } else if bootstrap != [] {
        var id := bootstrap[0];
        bootstrap := bootstrap[1..];
        AcceptExpected(id);
      } else if nextSequence in reordered {
        var id := reordered[nextSequence];
        reordered := reordered - {nextSequence};
        AcceptExpected(id);
      } else {
        task := Blocked;
      }
    }

    /**
      `next` from its call up to its next await: rounds until a frame is handed out,
      the writer ends or it blocks. Each round and each half of a fail-closed is a
      step of the machine.
    */
    method Next() returns (ghost trace: seq<Event>)
      requires Inv(Value()) && task.Idle? && !phase.Staging?
      modifies this
      ensures Inv(Value()) && Value() == Run(old(Value()), trace)
      ensures task.Writing? || task.Blocked? || task.Ended?
    {
      hide Inv, Writer.Advance, Indexed;
      trace := [];
      ghost var start := Value();
      IdleRuns(start);
      while task.Idle?
        invariant Inv(Value()) && Value() == Run(start, trace)
        invariant task.Idle? ==> !phase.Staging? && !closed
        invariant task.Idle? || task.Writing? || task.Blocked? || task.Ended? || task.Failing?
        decreases task.Idle?, |bootstrap| + |reordered|
      {
        ghost var s := Value();
        IdleRuns(s);
        AdvanceShrinks(s);
        Round();
        NextStep(start, trace, s);
        trace := trace + [CallNext];
      }
      if task.Failing? {
        ghost var s := Value();
        ghost var more := FailClosed();
        RunAppend(start, trace, more);
        trace := trace + more;
      }
    }

    /** `stage_bootstrap`: queued while staging, refused afterwards. */
    method StageBootstrap(payload: Payload) returns (id: nat)
      requires Indexed(Value())
      modifies this`writes, this`bootstrap, this`done, this`permits
      ensures id == old(|writes|) && Value() == Apply(old(Value()), Event.StageBootstrap(payload))
    {
      hide Indexed;
      id := |writes|;
      writes := writes + [Write(1, payload, false, false)];
      if phase.Staging? {
        bootstrap := bootstrap + [id];
      } else {
        Complete(id, DefinitelyNotWritten);
      }
    }

    /** The first half of an enqueue: a permit is taken, or the writer is closed for want of one. */
    method Admit(sequence: nat, payload: Payload, skip: bool) returns (admitted: bool)
      requires Inv(Value()) && Indexed(Value()) && sequence <= U64_MAX
      modifies this`writes, this`admitting, this`permits, this`phase, this`bootstrap, this`done
      ensures admitted == (0 < old(permits))
      ensures Value() == Apply(old(Value()), Event.Admit(sequence, payload, skip))
    {
      hide Indexed, Base, Controlled, Sequenced, Transported, Writer.ClosePhase;
      if permits == 0 {
        BaseQueues(Value());
        ClosePhase();
        return false;
      }
      permits := permits - 1;
      admitting := admitting + {|writes|};
      writes := writes + [Write(sequence, payload, skip, true)];
      return true;
    }

    /** The second half: the admitted request enters the channel, unless its receiver is gone. */
    method Offer(id: nat) returns (sent: bool)
      requires Inv(Value()) && Indexed(Value()) && id in admitting && id < |writes|
      modifies this`admitting, this`channel, this`permits, this`phase, this`bootstrap, this`done
      ensures sent == !closed
      ensures Value() == Apply(old(Value()), Event.Offer(id))
    {
      hide Indexed, Base, Controlled, Sequenced, Transported, Writer.ClosePhase, ChannelFull;
      BaseQueues(Value());
      ChannelHasRoom(Value(), id);
      admitting := admitting - {id};
      if closed {
        ClosePhase();
        Complete(id, DefinitelyNotWritten);
        return false;
      }
      channel := channel + [id];
      return true;
    }

    /** The receive arm of the select in `next`: one message is taken from the channel. */
    method Receive()
      requires Inv(Value()) && Indexed(Value()) && task.Blocked? && channel != []
      modifies this
      ensures Value() == Writer.Receive(old(Value()))
    {
      hide Accept, Inv;
      var id := channel[0];
      channel := channel[1..];
      task := Idle;
      if writes[id].sequence == nextSequence {
        AcceptExpected(id);
      } else if writes[id].sequence < nextSequence || writes[id].sequence in reordered || |reordered| >= capacity {
        Complete(id, DefinitelyNotWritten);
        task := Failing;
      } else {
        reordered := reordered[writes[id].sequence := id];
      }
    }
  }

  predicate Keyed(writes: seq<Write>, reordered: map<nat, nat>) {
    forall k :: k in reordered ==>
      reordered[k] < |writes| && writes[reordered[k]].permit && writes[reordered[k]].sequence == k
  }

  predicate Buffered(writes: seq<Write>, reordered: map<nat, nat>, id: nat) {
    id < |writes| && writes[id].sequence in reordered && reordered[writes[id].sequence] == id
  }

  function Unwritten(ids: set<nat>): map<nat, Outcome> {
    map id | id in ids :: DefinitelyNotWritten
  }

  lemma NoneUnwritten(before: map<nat, Outcome>)
    ensures before + UnwrittenAll([]) == before
  {
  }

  lemma FailNext(before: map<nat, Outcome>, ids: seq<nat>, i: nat)
    requires i < |ids|
    ensures (before + UnwrittenAll(ids[..i]))[ids[i] := DefinitelyNotWritten] == before + UnwrittenAll(ids[..i + 1])
  {
  }

  lemma FailOneMore(before: map<nat, Outcome>, failed: set<nat>, id: nat)
    ensures (before + Unwritten(failed))[id := DefinitelyNotWritten] == before + Unwritten(failed + {id})
  {
  }

  lemma BaseQueues(s: State)
    requires Base(s, None)
    ensures forall id :: id in s.bootstrap ==> id < |s.writes| && !s.writes[id].permit
    ensures forall id :: id in s.channel ==> id < |s.writes| && s.writes[id].permit
    ensures Keyed(s.writes, s.reordered)
  {
    BaseIndexed(s);
  }

  /** Buffered and queued requests exist and own a permit. */
  predicate Drainable(s: State) {
    Keyed(s.writes, s.reordered) && forall id :: id in s.channel ==> id < |s.writes| && s.writes[id].permit
  }

  lemma Undrained(s: State)
    ensures Unsent(s.(task := Ended, closed := true)) == Unsent(s)
  {
  }

  lemma FailedTogether(s: State, failed: set<nat>)
    requires forall id: nat :: id in failed <==> Buffered(s.writes, s.reordered, id)
    requires forall id :: id in s.channel ==> id < |s.writes|
    ensures s.done + Unwritten(failed) + UnwrittenAll(s.channel) == s.done + Unsent(s)
  {
  }

  lemma InvQueues(s: State)
    requires Inv(s)
    ensures forall id :: id in s.bootstrap ==> id < |s.writes| && !s.writes[id].permit
    ensures Drainable(s)
  {
    BaseQueues(s);
  }

  /** Closing and draining are two steps, between which producers may act. */
  lemma ShutDrain(s: State)
    requires Inv(s) && s.task.Failing?
    ensures Run(s, [Shut, Drain]) == Writer.FailPending(Writer.ClosePhase(s).(task := Draining))
    ensures Run(s, [Shut, Drain]).task.Ended?
  {
    hide Inv, Writer.ClosePhase, Writer.FailPending, Run;
    RunOne(s, Shut);
    var t := Run(s, [Shut]);
    RunOne(t, Drain);
    RunAppend(s, [Shut], [Drain]);
    assert [Shut] + [Drain] == [Shut, Drain];
    FailPendingEnds(t);
  }

  lemma RunOne(s: State, e: Event)
    requires Inv(s)
    ensures Indexed(s) && Inv(Apply(s, e)) && Run(s, [e]) == Apply(s, e)
  {
    hide Inv, Apply, Indexed;
    StepKeepsInv(s, e);
    assert [e][1..] == [];
  }

  lemma RoundSound(s: State)
    requires Inv(s) && s.task.Idle? && !s.phase.Staging?
    ensures Drainable(s.(gapArmed := s.gapArmed || s.reordered != map[]))
    ensures s.bootstrap != [] ==> s.bootstrap[0] < |s.writes|
    ensures s.nextSequence in s.reordered ==> s.reordered[s.nextSequence] < |s.writes|
  {
    InvQueues(s);
    InvIndexed(s);
    hide Inv;
  }

  lemma IdleRuns(s: State)
    requires Inv(s) && s.task.Idle?
    ensures !s.closed && Indexed(s) && (!s.phase.Staging? ==> Apply(s, CallNext) == Writer.Advance(s))
  {
    InvIndexed(s);
  }

  /** A round that goes round has taken a request out of a queue. */
  lemma AdvanceShrinks(s: State)
    requires Indexed(s) && s.task.Idle? && !s.closed && !s.phase.Staging?
    ensures var t := Writer.Advance(s);
            && (t.task.Idle? ==> |t.bootstrap| + |t.reordered| < |s.bootstrap| + |s.reordered|)
            && (t.task.Idle? ==> !t.phase.Staging? && !t.closed)
            && (t.task.Idle? || t.task.Writing? || t.task.Blocked? || t.task.Ended? || t.task.Failing?)
  {
    var rest := s.reordered - {s.nextSequence};
    assert s.nextSequence in s.reordered ==> rest.Keys == s.reordered.Keys - {s.nextSequence};
  }

  lemma NextStep(start: State, trace: seq<Event>, s: State)
    requires Inv(start) && s == Run(start, trace) && s.task.Idle? && !s.phase.Staging?
    ensures Indexed(s) && Inv(Writer.Advance(s)) && Run(start, trace + [CallNext]) == Writer.Advance(s)
  {
    hide Inv, Apply, Indexed, Writer.Advance, Run;
    IdleRuns(s);
    RunOne(s, CallNext);
    RunAppend(start, trace, [CallNext]);
  }

  lemma {:induction false} RunAppend(s: State, a: seq<Event>, b: seq<Event>)
    requires Inv(s)
    ensures Run(s, a + b) == Run(Run(s, a), b)
    decreases |a|
  {
    hide Inv, Apply, Indexed;
    if a == [] {
      assert a + b == b;
    } else {
      assert (a + b)[1..] == a[1..] + b && (a + b)[0] == a[0];
      StepKeepsInv(s, a[0]);
      RunAppend(Apply(s, a[0]), a[1..], b);
    }
  }
}
