/**
  Plan topology: the leg dependency check of the execution builder. Edges are
  counted into indegrees, then legs without unmet dependencies are taken from a
  queue until none is left; a plan is accepted when as many legs were taken as are
  intended. Resolved legs may repeat an id, omit one, or name one that is not
  intended: nothing about them is assumed. The builder then indexes the resolved
  legs and looks every intended one up.
*/
module Topology {
  import opened Prelude

  datatype Leg = Leg(id: nat, dependency: seq<nat>)

  datatype Rejection = DuplicateLeg | SimultaneousDependency | BadDependency | CyclicDependency

  function Ids(legs: seq<Leg>): seq<nat> {
    seq(|legs|, i requires 0 <= i < |legs| => legs[i].id)
  }

  /** The intended ids and every id that waits for something. */
  function Nodes(ids: set<nat>, legs: seq<Leg>): set<nat> {
    if legs == [] then ids
    else
      var last := legs[|legs| - 1];
      Nodes(ids, legs[..|legs| - 1]) + if last.dependency == [] then {} else {last.id}
  }

  /** What an id waits for, over all legs that carry it. */
  function Needs(legs: seq<Leg>, id: nat): set<nat> {
    if legs == [] then {}
    else
      var last := legs[|legs| - 1];
      Needs(legs[..|legs| - 1], id) + if last.id == id then Elements(last.dependency) else {}
  }

  function Graph(ids: set<nat>, legs: seq<Leg>): map<nat, set<nat>> {
    map id | id in Nodes(ids, legs) :: Needs(legs, id)
  }

  predicate Waits(g: map<nat, set<nat>>, dependency: nat, id: nat) {
    id in g && dependency in g[id]
  }

  /** Every leg of the path waits for the one before it. */
  predicate Path(g: map<nat, set<nat>>, p: seq<nat>) {
    forall i :: 0 < i < |p| ==> Waits(g, p[i - 1], p[i])
  }

  ghost predicate Cyclic(g: map<nat, set<nat>>) {
    exists p: seq<nat> :: 2 <= |p| && Path(g, p) && p[0] == p[|p| - 1]
  }

  predicate Revisits(p: seq<nat>) {
    exists i, j :: 0 <= i < j < |p| && p[i] == p[j]
  }

  /** Some path that ends in `id` passes through a cycle. */
  ghost predicate Tangled(g: map<nat, set<nat>>, id: nat) {
    exists p: seq<nat> :: p != [] && Path(g, p) && Revisits(p) && p[|p| - 1] == id
  }

  ghost function Untangled(g: map<nat, set<nat>>): set<nat> {
    set id | id in g && !Tangled(g, id)
  }

  predicate LocallySound(leg: Leg, ids: set<nat>) {
    && Distinct(leg.dependency)
    && forall d :: d in leg.dependency ==> d != leg.id && d in ids
  }

  predicate AllSound(legs: seq<Leg>, ids: set<nat>) {
    forall i :: 0 <= i < |legs| ==> LocallySound(legs[i], ids)
  }

  // ---------------------------------------------------------------------
  // Graphs.

  /** Each leg of `order` stands after everything it waits for. */
  predicate Topological(g: map<nat, set<nat>>, order: seq<nat>) {
    forall i :: 0 <= i < |order| && order[i] in g ==> forall d :: d in g[order[i]] ==> d in order[..i]
  }

  lemma PathSlice(g: map<nat, set<nat>>, p: seq<nat>, i: nat, j: nat)
    requires Path(g, p) && i <= j <= |p|
    ensures Path(g, p[i..j])
  {
    forall k | 0 < k < |p[i..j]| ensures Waits(g, p[i..j][k - 1], p[i..j][k]) {
      assert p[i..j][k] == p[i + k] && p[i..j][k - 1] == p[i + k - 1];
    }
  }

  lemma {:induction false} PathRises(g: map<nat, set<nat>>, order: seq<nat>, p: seq<nat>, i: nat)
    requires Topological(g, order) && Path(g, p) && 0 < |p|
    requires i < |order| && p[|p| - 1] == order[i]
    ensures exists j :: 0 <= j <= i && order[j] == p[0] && (1 < |p| ==> j < i)
    decreases |p|
  {
    if 1 < |p| {
      var d := p[|p| - 2];
      assert d in order[..i];
      var j :| 0 <= j < i && order[j] == d;
      PathSlice(g, p, 0, |p| - 1);
      assert p[0..|p| - 1] == p[..|p| - 1];
      PathRises(g, order, p[..|p| - 1], j);
    }
  }

  /** What stands in topological order is not tangled. */
  lemma OrderedIsUntangled(g: map<nat, set<nat>>, order: seq<nat>, i: nat)
    requires Topological(g, order) && Distinct(order) && i < |order|
    ensures !Tangled(g, order[i])
  {
    if Tangled(g, order[i]) {
      var p: seq<nat> :| p != [] && Path(g, p) && Revisits(p) && p[|p| - 1] == order[i];
      var a, b :| 0 <= a < b < |p| && p[a] == p[b];
      PathSlice(g, p, b, |p|);
      PathRises(g, order, p[b..], i);
      var k :| 0 <= k <= i && order[k] == p[b];
      PathSlice(g, p, a, b + 1);
      PathRises(g, order, p[a..b + 1], k);
    }
  }

  predicate WaitsInside(g: map<nat, set<nat>>, stuck: set<nat>, id: nat) {
    exists d :: d in stuck && Waits(g, d, id)
  }

  lemma PathCons(g: map<nat, set<nat>>, d: nat, q: seq<nat>)
    requires Path(g, q) && q != [] && Waits(g, d, q[0])
    ensures Path(g, [d] + q)
  {
    var p := [d] + q;
    forall i | 0 < i < |p| ensures Waits(g, p[i - 1], p[i]) {
      assert p[i] == q[i - 1];
      if 1 < i {
        assert p[i - 1] == q[i - 2];
      }
    }
  }

  /** In a set where everybody waits for a member, chains of any length lead to each member. */
  lemma {:induction false} LongChain(g: map<nat, set<nat>>, stuck: set<nat>, id: nat, n: nat) returns (p: seq<nat>)
    requires id in stuck && forall x :: x in stuck ==> WaitsInside(g, stuck, x)
    ensures |p| == n + 1 && Path(g, p) && p[n] == id && forall i :: 0 <= i < |p| ==> p[i] in stuck
  {
    if n == 0 {
      p := [id];
    } else {
      var q := LongChain(g, stuck, id, n - 1);
      assert WaitsInside(g, stuck, q[0]);
      var d :| d in stuck && Waits(g, d, q[0]);
      p := [d] + q;
      PathCons(g, d, q);
      hide Path;
    }
  }

  /** More elements than the set holds means one of them repeats. */
  lemma {:induction false} Pigeonhole(p: seq<nat>, s: set<nat>)
    requires |s| < |p| && forall i :: 0 <= i < |p| ==> p[i] in s
    ensures Revisits(p)
  {
    var last := p[|p| - 1];
    var front := p[..|p| - 1];
    if last in front {
      var i :| 0 <= i < |front| && front[i] == last;
      assert p[i] == p[|p| - 1];
    } else {
      Pigeonhole(front, s - {last});
      var i, j :| 0 <= i < j < |front| && front[i] == front[j];
      assert p[i] == p[j];
    }
  }

  /** Legs that all wait for one another are all tangled. */
  lemma StuckIsTangled(g: map<nat, set<nat>>, stuck: set<nat>, id: nat)
    requires id in stuck && forall x :: x in stuck ==> WaitsInside(g, stuck, x)
    ensures Tangled(g, id)
  {
    hide WaitsInside, Path, Revisits;
    var p := LongChain(g, stuck, id, |stuck|);
    Pigeonhole(p, stuck);
  }

  /** A graph has a cycle exactly when some node of it is tangled. */
  lemma CyclicMeansTangled(g: map<nat, set<nat>>)
    ensures Cyclic(g) <==> exists id :: id in g && Tangled(g, id)
  {
    if Cyclic(g) {
      var p: seq<nat> :| 2 <= |p| && Path(g, p) && p[0] == p[|p| - 1];
      var k := |p| - 1;
      assert Waits(g, p[k - 1], p[k]);
      assert p != [] && Path(g, p) && Revisits(p) && p[k] in g && Tangled(g, p[k]);
    }
    if id :| id in g && Tangled(g, id) {
      var p: seq<nat> :| p != [] && Path(g, p) && Revisits(p) && p[|p| - 1] == id;
      var i, j :| 0 <= i < j < |p| && p[i] == p[j];
      PathSlice(g, p, i, j + 1);
      var q := p[i..j + 1];
      assert 2 <= |q| && Path(g, q) && q[0] == q[|q| - 1];
    }
  }

  // ---------------------------------------------------------------------
  // Counting the edges.

  function Out(outgoing: map<nat, seq<nat>>, d: nat): seq<nat> {
    if d in outgoing then outgoing[d] else []
  }

  function In(indegree: map<nat, nat>, id: nat): nat {
    if id in indegree then indegree[id] else 0
  }

  /** The ids of the legs that wait for `d`, in leg order, one entry per leg. */
  function Dependents(legs: seq<Leg>, d: nat): seq<nat> {
    if legs == [] then []
    else
      var last := legs[|legs| - 1];
      Dependents(legs[..|legs| - 1], d) + if d in last.dependency then [last.id] else []
  }

  function Degree(legs: seq<Leg>, id: nat): nat {
    if legs == [] then 0
    else
      var last := legs[|legs| - 1];
      Degree(legs[..|legs| - 1], id) + if last.id == id then |last.dependency| else 0
  }

  ghost predicate Counted(ids: set<nat>, legs: seq<Leg>, indegree: map<nat, nat>, outgoing: map<nat, seq<nat>>) {
    && indegree.Keys == Nodes(ids, legs)
    && (forall id: nat :: In(indegree, id) == Degree(legs, id))
    && (forall d: nat :: Out(outgoing, d) == Dependents(legs, d))
  }

  /** What one more leg adds to each of the counts. */
  lemma OneMoreLeg(ids: set<nat>, legs: seq<Leg>, leg: Leg, k: nat)
    ensures Nodes(ids, legs + [leg]) == Nodes(ids, legs) + if leg.dependency == [] then {} else {leg.id}
    ensures Needs(legs + [leg], k) == Needs(legs, k) + if leg.id == k then Elements(leg.dependency) else {}
    ensures Degree(legs + [leg], k) == Degree(legs, k) + if leg.id == k then |leg.dependency| else 0
    ensures Dependents(legs + [leg], k) == Dependents(legs, k) + if k in leg.dependency then [leg.id] else []
  {
    assert (legs + [leg])[..|legs|] == legs;
  }

  lemma CountedNextLeg(ids: set<nat>, legs: seq<Leg>, id: nat, indegree: map<nat, nat>, outgoing: map<nat, seq<nat>>)
    requires Counted(ids, legs, indegree, outgoing)
    ensures Counted(ids, legs + [Leg(id, [])], indegree, outgoing)
  {
    hide Nodes, Degree, Dependents, Needs;
    OneMoreLeg(ids, legs, Leg(id, []), 0);
    forall k: nat ensures Degree(legs + [Leg(id, [])], k) == Degree(legs, k)
                       && Dependents(legs + [Leg(id, [])], k) == Dependents(legs, k) {
      OneMoreLeg(ids, legs, Leg(id, []), k);
    }
  }

  lemma CountedNextEdge(ids: set<nat>, legs: seq<Leg>, id: nat, dependency: seq<nat>, d: nat,
                        indegree: map<nat, nat>, outgoing: map<nat, seq<nat>>)
    requires Counted(ids, legs + [Leg(id, dependency)], indegree, outgoing) && d !in dependency
    ensures Counted(ids, legs + [Leg(id, dependency + [d])], indegree[id := In(indegree, id) + 1],
                    outgoing[d := Out(outgoing, d) + [id]])
  {
    hide Nodes, Degree, Dependents, Needs, Counted;
    var before, after := legs + [Leg(id, dependency)], legs + [Leg(id, dependency + [d])];
    OneMoreLeg(ids, legs, Leg(id, dependency), 0);
    OneMoreLeg(ids, legs, Leg(id, dependency + [d]), 0);
    forall k: nat ensures Degree(after, k) == Degree(before, k) + (if k == id then 1 else 0)
                       && Dependents(after, k) == Dependents(before, k) + if k == d then [id] else [] {
      OneMoreEdge(legs, id, dependency, d, k);
    }
    assert Nodes(ids, after) == Nodes(ids, before) + {id};
    CountedMore(ids, before, after, id, d, indegree, outgoing);
  }

  lemma OneMoreEdge(legs: seq<Leg>, id: nat, dependency: seq<nat>, d: nat, k: nat)
    requires d !in dependency
    ensures var before, after := legs + [Leg(id, dependency)], legs + [Leg(id, dependency + [d])];
            && Degree(after, k) == Degree(before, k) + (if k == id then 1 else 0)
            && Dependents(after, k) == Dependents(before, k) + if k == d then [id] else []
  {
    hide Nodes, Degree, Dependents, Needs;
    OneMoreLeg({}, legs, Leg(id, dependency), k);
    OneMoreLeg({}, legs, Leg(id, dependency + [d]), k);
    assert k in dependency + [d] <==> k in dependency || k == d;
    assert Dependents(legs, k) + [] == Dependents(legs, k);
  }

  /** The maps follow the counts of one more edge. */
  lemma CountedMore(ids: set<nat>, before: seq<Leg>, after: seq<Leg>, id: nat, d: nat,
                    indegree: map<nat, nat>, outgoing: map<nat, seq<nat>>)
    requires Counted(ids, before, indegree, outgoing) && Nodes(ids, after) == Nodes(ids, before) + {id}
    requires forall k: nat :: Degree(after, k) == Degree(before, k) + (if k == id then 1 else 0)
    requires forall k: nat :: Dependents(after, k) == Dependents(before, k) + if k == d then [id] else []
    ensures Counted(ids, after, indegree[id := In(indegree, id) + 1], outgoing[d := Out(outgoing, d) + [id]])
  {
    hide Nodes, Degree, Dependents;
    var more := outgoing[d := Out(outgoing, d) + [id]];
    forall k: nat ensures Out(more, k) == Dependents(after, k) {
      assert Out(outgoing, k) == Dependents(before, k);
      assert Dependents(before, k) + [] == Dependents(before, k);
    }
  }

  /** The inner loop: one leg's dependency list. An id that is not intended gets its own count. */
  method CountLeg(ids: set<nat>, ghost legs: seq<Leg>, leg: Leg, indegree0: map<nat, nat>,
                  outgoing0: map<nat, seq<nat>>)
    returns (sound: bool, indegree: map<nat, nat>, outgoing: map<nat, seq<nat>>)
    requires Counted(ids, legs, indegree0, outgoing0)
    ensures sound <==> LocallySound(leg, ids)
    ensures sound ==> Counted(ids, legs + [leg], indegree, outgoing)
  {
    hide Counted;
    indegree, outgoing := indegree0, outgoing0;
    var unique: set<nat> := {};
    CountedNextLeg(ids, legs, leg.id, indegree, outgoing);
    assert leg.dependency[..0] == [];
    for j := 0 to |leg.dependency|
      invariant Counted(ids, legs + [Leg(leg.id, leg.dependency[..j])], indegree, outgoing)
      invariant unique == Elements(leg.dependency[..j])
      invariant LocallySound(Leg(leg.id, leg.dependency[..j]), ids)
    {
      var d := leg.dependency[j];
      assert leg.dependency[..j + 1] == leg.dependency[..j] + [d];
      SoundNext(leg, ids, j);
      if d == leg.id || d !in ids || d in unique {
        return false, indegree, outgoing;
      }
      CountedNextEdge(ids, legs, leg.id, leg.dependency[..j], d, indegree, outgoing);
      unique := unique + {d};
      indegree := indegree[leg.id := In(indegree, leg.id) + 1];
      outgoing := outgoing[d := Out(outgoing, d) + [leg.id]];
    }
    assert Leg(leg.id, leg.dependency[..|leg.dependency|]) == leg;
    sound := true;
  }

  lemma SoundNext(leg: Leg, ids: set<nat>, j: nat)
    requires j < |leg.dependency| && LocallySound(Leg(leg.id, leg.dependency[..j]), ids)
    ensures var d := leg.dependency[j];
            var bad := d == leg.id || d !in ids || d in Elements(leg.dependency[..j]);
            && (bad ==> !LocallySound(leg, ids))
            && (!bad ==> LocallySound(Leg(leg.id, leg.dependency[..j + 1]), ids))
  {
    var front := leg.dependency[..j];
    assert leg.dependency[..j + 1] == front + [leg.dependency[j]];
    assert leg.dependency[j] in leg.dependency;
    if leg.dependency[j] in front {
      var i :| 0 <= i < j && leg.dependency[i] == leg.dependency[j];
    } else {
      DistinctSnoc(front, leg.dependency[j]);
    }
  }

  /** The first loop: checks each dependency list and counts its edges. */
  method CountEdges(ids: set<nat>, legs: seq<Leg>)
    returns (sound: bool, indegree: map<nat, nat>, outgoing: map<nat, seq<nat>>)
    ensures sound <==> AllSound(legs, ids)
    ensures sound ==> Counted(ids, legs, indegree, outgoing)
  {
    indegree, outgoing := map id | id in ids :: 0, map[];
    assert legs[..0] == [];
    assert Counted(ids, [], indegree, outgoing);
    hide Counted, LocallySound;
    for i := 0 to |legs|
      invariant Counted(ids, legs[..i], indegree, outgoing)
      invariant forall k :: 0 <= k < i ==> LocallySound(legs[k], ids)
    {
      sound, indegree, outgoing := CountLeg(ids, legs[..i], legs[i], indegree, outgoing);
      if !sound {
        return;
      }
      assert legs[..i + 1] == legs[..i] + [legs[i]];
    }
    assert legs[..|legs|] == legs;
    sound := true;
  }

  // ---------------------------------------------------------------------
  // Unmet dependencies.

  /** How many dependencies of `id`, over all its legs, are not done. */
  function Unmet(legs: seq<Leg>, done: set<nat>, id: nat): nat {
    if legs == [] then 0
    else
      var last := legs[|legs| - 1];
      Unmet(legs[..|legs| - 1], done, id) + if last.id == id then |Elements(last.dependency) - done| else 0
  }

  lemma {:induction false} UnmetAtFirst(legs: seq<Leg>, ids: set<nat>, id: nat)
    requires AllSound(legs, ids)
    ensures Degree(legs, id) == Unmet(legs, {}, id)
  {
    if legs != [] {
      var last := legs[|legs| - 1];
      UnmetAtFirst(legs[..|legs| - 1], ids, id);
      assert LocallySound(last, ids);
      DistinctCount(last.dependency);
      assert Elements(last.dependency) - {} == Elements(last.dependency);
    }
  }

  /** Doing `x` meets one dependency for every leg that waits for it. */
  lemma {:induction false} UnmetLess(legs: seq<Leg>, done: set<nat>, x: nat, id: nat)
    requires x !in done
    ensures Unmet(legs, done, id) == Unmet(legs, done + {x}, id) + multiset(Dependents(legs, x))[id]
  {
    if legs != [] {
      var front, last := legs[..|legs| - 1], legs[|legs| - 1];
      UnmetLess(front, done, x, id);
      var more := if x in last.dependency then [last.id] else [];
      assert multiset(Dependents(front, x) + more) == multiset(Dependents(front, x)) + multiset(more);
      var left := Elements(last.dependency) - done;
      assert Elements(last.dependency) - (done + {x}) == left - {x};
      assert x in last.dependency <==> x in left;
    }
  }

  lemma {:induction false} UnmetNone(legs: seq<Leg>, done: set<nat>, id: nat)
    ensures Unmet(legs, done, id) == 0 <==> Needs(legs, id) <= done
  {
    if legs != [] {
      var last := legs[|legs| - 1];
      UnmetNone(legs[..|legs| - 1], done, id);
      var left := Elements(last.dependency) - done;
      if Elements(last.dependency) <= done {
        assert left == {};
      } else {
        var d :| d in Elements(last.dependency) && d !in done;
        assert d in left;
      }
    }
  }

  lemma {:induction false} DependentsAreNodes(ids: set<nat>, legs: seq<Leg>, d: nat, id: nat)
    ensures id in Dependents(legs, d) ==> id in Nodes(ids, legs)
  {
    if legs != [] {
      DependentsAreNodes(ids, legs[..|legs| - 1], d, id);
    }
  }

  lemma {:induction false} NodesInclude(ids: set<nat>, legs: seq<Leg>)
    ensures ids <= Nodes(ids, legs)
  {
    if legs != [] {
      NodesInclude(ids, legs[..|legs| - 1]);
    }
  }

  lemma {:induction false} NeedsInside(ids: set<nat>, legs: seq<Leg>, id: nat)
    requires AllSound(legs, ids)
    ensures Needs(legs, id) <= ids
  {
    if legs != [] {
      NeedsInside(ids, legs[..|legs| - 1], id);
      assert LocallySound(legs[|legs| - 1], ids);
    }
  }

  // ---------------------------------------------------------------------
  // Taking legs from the queue.

  /** `taken` and `queue` list, without repetition, exactly the nodes whose count is zero. */
  predicate Queued(nodes: set<nat>, indegree: map<nat, nat>, taken: seq<nat>, queue: seq<nat>) {
    && indegree.Keys == nodes && Distinct(taken + queue)
    && (forall id :: id in taken + queue ==> id in nodes && indegree[id] == 0)
    && (forall id :: id in nodes && indegree[id] == 0 ==> id in taken + queue)
  }

  ghost predicate Progress(ids: set<nat>, legs: seq<Leg>, indegree: map<nat, nat>, taken: seq<nat>, queue: seq<nat>) {
    && Queued(Nodes(ids, legs), indegree, taken, queue)
    && (forall id :: id in indegree ==> indegree[id] == Unmet(legs, Elements(taken), id))
    && Topological(Graph(ids, legs), taken)
  }

  /** While the dependents of `x` are released, each entry still ahead is counted once more. */
  ghost predicate Releasing(ids: set<nat>, legs: seq<Leg>, indegree: map<nat, nat>, taken: seq<nat>, queue: seq<nat>,
                            x: nat, ahead: seq<nat>) {
    && Queued(Nodes(ids, legs), indegree, taken + [x], queue)
    && (forall id :: id in ahead ==> id in indegree)
    && (forall id :: id in indegree ==>
          indegree[id] == Unmet(legs, Elements(taken) + {x}, id) + multiset(ahead)[id])
  }

  lemma QueuedPop(nodes: set<nat>, indegree: map<nat, nat>, taken: seq<nat>, queue: seq<nat>)
    requires Queued(nodes, indegree, taken, queue) && queue != []
    ensures Queued(nodes, indegree, taken + [queue[0]], queue[1..])
    ensures queue[0] in nodes && indegree[queue[0]] == 0 && queue[0] !in Elements(taken)
  {
    assert taken + [queue[0]] + queue[1..] == taken + queue;
    assert (taken + queue)[|taken|] == queue[0];
    assert forall i :: 0 <= i < |taken| ==> (taken + queue)[i] == taken[i];
  }

  lemma ReleaseStarts(ids: set<nat>, legs: seq<Leg>, indegree: map<nat, nat>, taken: seq<nat>, queue: seq<nat>)
    requires Progress(ids, legs, indegree, taken, queue) && queue != []
    ensures Releasing(ids, legs, indegree, taken, queue[1..], queue[0], Dependents(legs, queue[0]))
    ensures Topological(Graph(ids, legs), taken + [queue[0]])
  {
    hide Queued, Topological, Distinct, Unmet, Dependents, Nodes;
    var x := queue[0];
    var nodes := Nodes(ids, legs);
    assert indegree.Keys == nodes by { QueuedKeys(nodes, indegree, taken, queue); }
    QueuedPop(nodes, indegree, taken, queue);
    TakenNext(ids, legs, taken, x);
    forall id | id in indegree
      ensures indegree[id] == Unmet(legs, Elements(taken) + {x}, id) + multiset(Dependents(legs, x))[id]
    {
      UnmetLess(legs, Elements(taken), x, id);
    }
    forall id | id in Dependents(legs, x) ensures id in indegree {
      DependentsAreNodes(ids, legs, x, id);
    }
  }

  lemma QueuedKeys(nodes: set<nat>, indegree: map<nat, nat>, taken: seq<nat>, queue: seq<nat>)
    requires Queued(nodes, indegree, taken, queue)
    ensures indegree.Keys == nodes
  {
  }

  lemma TakenNext(ids: set<nat>, legs: seq<Leg>, taken: seq<nat>, x: nat)
    requires Topological(Graph(ids, legs), taken) && x in Nodes(ids, legs) && Unmet(legs, Elements(taken), x) == 0
    ensures Topological(Graph(ids, legs), taken + [x])
  {
    UnmetNone(legs, Elements(taken), x);
    var g, next := Graph(ids, legs), taken + [x];
    hide Unmet, Nodes, Needs;
    forall i, d | 0 <= i < |next| && next[i] in g && d in g[next[i]] ensures d in next[..i] {
      if i < |taken| {
        assert next[..i] == taken[..i];
      } else {
        assert next[..i] == taken && next[i] == x;
        assert d in Elements(taken);
      }
    }
  }

  lemma ReleaseOne(ids: set<nat>, legs: seq<Leg>, indegree: map<nat, nat>, taken: seq<nat>, queue: seq<nat>,
                   x: nat, ahead: seq<nat>)
    requires Releasing(ids, legs, indegree, taken, queue, x, ahead) && ahead != []
    ensures ahead[0] in indegree && 0 < indegree[ahead[0]]
    ensures var t := ahead[0];
            var less := indegree[t := indegree[t] - 1];
            Releasing(ids, legs, less, taken, if less[t] == 0 then queue + [t] else queue, x, ahead[1..])
  {
    hide Unmet, Distinct, Nodes;
    var t, rest := ahead[0], ahead[1..];
    assert ahead == [t] + rest && t in ahead;
    assert multiset(ahead) == multiset{t} + multiset(rest);
    QueuedKeys(Nodes(ids, legs), indegree, taken + [x], queue);
    QueuedRelease(Nodes(ids, legs), indegree, taken + [x], queue, t);
    hide Queued;
  }

  lemma QueuedRelease(nodes: set<nat>, indegree: map<nat, nat>, taken: seq<nat>, queue: seq<nat>, t: nat)
    requires Queued(nodes, indegree, taken, queue) && t in nodes && 0 < indegree[t]
    ensures var less := indegree[t := indegree[t] - 1];
            Queued(nodes, less, taken, if less[t] == 0 then queue + [t] else queue)
  {
    var less := indegree[t := indegree[t] - 1];
    assert t !in taken + queue;
    if less[t] == 0 {
      assert taken + (queue + [t]) == taken + queue + [t];
      DistinctSnoc(taken + queue, t);
      hide Distinct;
    }
  }

  lemma ReleaseEnds(ids: set<nat>, legs: seq<Leg>, indegree: map<nat, nat>, taken: seq<nat>, queue: seq<nat>, x: nat)
    requires Releasing(ids, legs, indegree, taken, queue, x, []) && Topological(Graph(ids, legs), taken + [x])
    ensures Progress(ids, legs, indegree, taken + [x], queue)
  {
    hide Queued, Topological, Unmet;
    assert Elements(taken + [x]) == Elements(taken) + {x};
  }

  /** The inner loop: every leg waiting for `x` waits for one less. The count never underflows. */
  method Release(ids: set<nat>, ghost legs: seq<Leg>, indegree0: map<nat, nat>, ghost taken: seq<nat>, queue0: seq<nat>,
                 x: nat, targets: seq<nat>)
    returns (indegree: map<nat, nat>, queue: seq<nat>)
    requires Releasing(ids, legs, indegree0, taken, queue0, x, targets)
    ensures Releasing(ids, legs, indegree, taken, queue, x, [])
  {
    hide Releasing;
    indegree, queue := indegree0, queue0;
    assert targets[0..] == targets;
    for k := 0 to |targets|
      invariant Releasing(ids, legs, indegree, taken, queue, x, targets[k..])
    {
      var t := targets[k];
      ReleaseOne(ids, legs, indegree, taken, queue, x, targets[k..]);
      assert targets[k..][1..] == targets[k + 1..];
      indegree := indegree[t := indegree[t] - 1];
      if indegree[t] == 0 {
        queue := queue + [t];
      }
    }
    assert targets[|targets|..] == [];
  }

  lemma ProgressBound(ids: set<nat>, legs: seq<Leg>, indegree: map<nat, nat>, taken: seq<nat>, queue: seq<nat>)
    requires Progress(ids, legs, indegree, taken, queue)
    ensures |taken| + |queue| <= |Nodes(ids, legs)|
  {
    hide Topological, Unmet, Nodes;
    DistinctCount(taken + queue);
    assert Elements(taken + queue) <= Nodes(ids, legs);
    hide Distinct;
    SubsetCount(Elements(taken + queue), Nodes(ids, legs));
  }

  /** When the queue runs dry, what was taken is exactly what no cycle leads to. */
  lemma DryQueueDecides(ids: set<nat>, legs: seq<Leg>, indegree: map<nat, nat>, taken: seq<nat>)
    requires Progress(ids, legs, indegree, taken, []) && AllSound(legs, ids)
    ensures Elements(taken) == Untangled(Graph(ids, legs)) && |taken| == |Untangled(Graph(ids, legs))|
  {
    var g := Graph(ids, legs);
    assert taken + [] == taken;
    forall i | 0 <= i < |taken| ensures !Tangled(g, taken[i]) {
      OrderedIsUntangled(g, taken, i);
    }
    var stuck := g.Keys - Elements(taken);
    forall id | id in stuck ensures WaitsInside(g, stuck, id) {
      StuckWaits(ids, legs, indegree, taken, id);
    }
    hide WaitsInside, Topological, Unmet, Nodes, Needs;
    forall id | id in stuck ensures Tangled(g, id) {
      StuckIsTangled(g, stuck, id);
    }
    hide Tangled;
    assert Elements(taken) == Untangled(g);
    DistinctCount(taken);
  }

  lemma StuckWaits(ids: set<nat>, legs: seq<Leg>, indegree: map<nat, nat>, taken: seq<nat>, id: nat)
    requires Progress(ids, legs, indegree, taken, []) && AllSound(legs, ids)
    requires id in Nodes(ids, legs) && id !in taken
    ensures var g := Graph(ids, legs); WaitsInside(g, g.Keys - Elements(taken), id)
  {
    assert taken + [] == taken;
    UnmetNone(legs, Elements(taken), id);
    NeedsInside(ids, legs, id);
    NodesInclude(ids, legs);
    hide Unmet, Needs, Nodes, Topological;
    var d :| d in Needs(legs, id) && d !in Elements(taken);
    assert Waits(Graph(ids, legs), d, id);
  }

  /** The nodes without dependencies, in whatever order the map yields them. */
  method InitialQueue(indegree: map<nat, nat>) returns (queue: seq<nat>)
    ensures Queued(indegree.Keys, indegree, [], queue)
  {
    queue := [];
    var rest := indegree.Keys;
    while rest != {}
      invariant rest <= indegree.Keys && Distinct(queue)
      invariant forall id :: id in queue <==> id in indegree && id !in rest && indegree[id] == 0
      decreases |rest|
    {
      var id :| id in rest;
      if indegree[id] == 0 {
        queue := queue + [id];
      }
      rest := rest - {id};
    }
    assert [] + queue == queue;
  }

  lemma StartsCounted(ids: set<nat>, legs: seq<Leg>, indegree: map<nat, nat>, outgoing: map<nat, seq<nat>>,
                      queue: seq<nat>)
    requires AllSound(legs, ids) && Counted(ids, legs, indegree, outgoing) && Queued(indegree.Keys, indegree, [], queue)
    ensures Progress(ids, legs, indegree, [], queue)
  {
    hide Queued, Nodes;
    forall id | id in indegree ensures indegree[id] == Unmet(legs, Elements([]), id) {
      UnmetAtFirst(legs, ids, id);
      assert In(indegree, id) == Degree(legs, id);
      assert Elements<nat>([]) == {};
    }
  }

  /**
    Kahn's loop, for every list of sound legs and every iteration order of the map: it
    terminates, takes each node at most once in topological order, and takes exactly
    the nodes that no cycle leads to.
  */
  method Kahn(ids: set<nat>, ghost legs: seq<Leg>, indegree0: map<nat, nat>, outgoing: map<nat, seq<nat>>)
    returns (visited: nat, ghost taken: seq<nat>)
    requires AllSound(legs, ids) && Counted(ids, legs, indegree0, outgoing)
    ensures visited == |Untangled(Graph(ids, legs))|
    ensures Distinct(taken) && Topological(Graph(ids, legs), taken) && Elements(taken) == Untangled(Graph(ids, legs))
  {
    var indegree := indegree0;
    var queue := InitialQueue(indegree);
    visited, taken := 0, [];
    StartsCounted(ids, legs, indegree, outgoing, queue);
    OutIs(ids, legs, indegree, outgoing);
    hide Progress, Counted, Releasing, Topological, Untangled, Queued, Graph, Dependents, Out, AllSound;
    ProgressBound(ids, legs, indegree, taken, queue);
    while queue != []
      invariant Progress(ids, legs, indegree, taken, queue) && visited == |taken|
      invariant |taken| + |queue| <= |Nodes(ids, legs)|
      decreases |Nodes(ids, legs)| - |taken|
    {
      var x := queue[0];
      ReleaseStarts(ids, legs, indegree, taken, queue);
      visited := visited + 1;
      indegree, queue := Release(ids, legs, indegree, taken, queue[1..], x, Out(outgoing, x));
      ReleaseEnds(ids, legs, indegree, taken, queue, x);
      taken := taken + [x];
      ProgressBound(ids, legs, indegree, taken, queue);
    }
    DryQueueDecides(ids, legs, indegree, taken);
    ProgressOrder(ids, legs, indegree, taken, queue);
  }

  lemma OutIs(ids: set<nat>, legs: seq<Leg>, indegree: map<nat, nat>, outgoing: map<nat, seq<nat>>)
    requires Counted(ids, legs, indegree, outgoing)
    ensures forall d: nat :: Out(outgoing, d) == Dependents(legs, d)
  {
  }

  lemma ProgressOrder(ids: set<nat>, legs: seq<Leg>, indegree: map<nat, nat>, taken: seq<nat>, queue: seq<nat>)
    requires Progress(ids, legs, indegree, taken, queue)
    ensures Distinct(taken) && Topological(Graph(ids, legs), taken)
  {
    assert forall i :: 0 <= i < |taken| ==> (taken + queue)[i] == taken[i];
  }

  /** No leg outside the intended ids waits for anything. */
  predicate NoForeignWaits(ids: set<nat>, legs: seq<Leg>) {
    forall i :: 0 <= i < |legs| && legs[i].dependency != [] ==> legs[i].id in ids
  }

  predicate NoDependencies(legs: seq<Leg>) {
    forall i :: 0 <= i < |legs| ==> legs[i].dependency == []
  }

  /** What `validate_topology` accepts. */
  ghost predicate Accepted(simultaneous: bool, intended: seq<nat>, legs: seq<Leg>) {
    && Distinct(intended) && (simultaneous ==> NoDependencies(legs)) && AllSound(legs, Elements(intended))
    && CountMet(Elements(intended), legs)
  }

  /** As many nodes are free of cycles as legs are intended. */
  ghost predicate CountMet(ids: set<nat>, legs: seq<Leg>) {
    |Untangled(Graph(ids, legs))| == |ids|
  }

  /**
    `validate_topology`, for every list of resolved legs: it accepts exactly the plans
    with distinct intended legs, no dependency in a simultaneous plan, sound
    dependency lists and as many untangled nodes as intended legs. An accepted plan is
    free of cycles exactly when no foreign leg waits for anything; where none does,
    the count rejects exactly the cycles; where one does, it rejects every plan
    without a cycle.
  */
  method ValidateTopology(simultaneous: bool, intended: seq<nat>, legs: seq<Leg>) returns (r: Result<(), Rejection>)
    ensures var ids := Elements(intended);
            && (r == Err(DuplicateLeg) <==> !Distinct(intended))
            && (r == Err(SimultaneousDependency) <==>
                  Distinct(intended) && simultaneous && exists l :: l in legs && l.dependency != [])
            && (r == Err(BadDependency) <==>
                  Distinct(intended) && (simultaneous ==> NoDependencies(legs)) && !AllSound(legs, ids))
            && (r.Ok? <==> Accepted(simultaneous, intended, legs))
            && (r.Ok? ==> (!Cyclic(Graph(ids, legs)) <==> NoForeignWaits(ids, legs)))
            && (r == Err(CyclicDependency) ==> Cyclic(Graph(ids, legs)) || !NoForeignWaits(ids, legs))
  {
    var ids := Elements(intended);
    DistinctIffCount(intended);
    AnyTwoGiveTheThird(ids, legs);
    assert NoDependencies(legs) <==> forall l :: l in legs ==> l.dependency == [];
    hide Cyclic, LocallySound, Untangled, Graph, Distinct, Counted;
    if |ids| != |intended| {
      return Err(DuplicateLeg);
    }
    if simultaneous && !NoDependencies(legs) {
      return Err(SimultaneousDependency);
    }
    var sound, indegree, outgoing := CountEdges(ids, legs);
    if !sound {
      return Err(BadDependency);
    }
    var visited, _ := Kahn(ids, legs, indegree, outgoing);
    if visited != |ids| {
      return Err(CyclicDependency);
    }
    return Ok(());
  }

  lemma {:induction false} OwnNodes(ids: set<nat>, legs: seq<Leg>)
    requires NoForeignWaits(ids, legs)
    ensures Nodes(ids, legs) == ids
  {
    if legs != [] {
      assert legs[|legs| - 1].dependency != [] ==> legs[|legs| - 1].id in ids;
      OwnNodes(ids, legs[..|legs| - 1]);
    }
  }

  /** A leg that waits is a node, whether it is intended or not. */
  lemma {:induction false} WaitingIsNode(ids: set<nat>, legs: seq<Leg>, i: nat)
    requires i < |legs| && legs[i].dependency != []
    ensures legs[i].id in Nodes(ids, legs)
  {
    if i < |legs| - 1 {
      WaitingIsNode(ids, legs[..|legs| - 1], i);
    }
  }

  /**
    The count is met, the graph has no cycle, no foreign leg waits: any two of these
    give the third. So the count finds exactly the cycles when no foreign leg waits,
    and a plan that passes beside a waiting foreign leg always has one.
  */
  lemma AnyTwoGiveTheThird(ids: set<nat>, legs: seq<Leg>)
    ensures NoForeignWaits(ids, legs) ==> (CountMet(ids, legs) <==> !Cyclic(Graph(ids, legs)))
    ensures CountMet(ids, legs) ==> (!Cyclic(Graph(ids, legs)) <==> NoForeignWaits(ids, legs))
    ensures !Cyclic(Graph(ids, legs)) ==> (CountMet(ids, legs) <==> NoForeignWaits(ids, legs))
  {
    var g := Graph(ids, legs);
    CyclicMeansTangled(g);
    NodesInclude(ids, legs);
    hide Tangled, Cyclic, Nodes, Needs;
    if NoForeignWaits(ids, legs) {
      OwnNodes(ids, legs);
      SubsetCount(Untangled(g), ids);
      assert Untangled(g) == ids <==> forall id :: id in g ==> !Tangled(g, id);
    } else if !Cyclic(g) {
      var i :| 0 <= i < |legs| && legs[i].dependency != [] && legs[i].id !in ids;
      WaitingIsNode(ids, legs, i);
      assert Untangled(g) == g.Keys == Nodes(ids, legs);
      SubsetCount(ids, Nodes(ids, legs));
    }
  }

  // ---------------------------------------------------------------------
  // The index of the resolved legs.

  /** A resolved leg with the identities the index checks; 0 stands for a blank text. */
  datatype Resolved = Resolved(leg: Leg, command: nat, key: nat, terminal: Option<nat>, client: Option<nat>)

  datatype IndexError = WrongCount | BlankField | RepeatedIdentity

  function Legs(resolved: seq<Resolved>): seq<Leg> {
    seq(|resolved|, i requires 0 <= i < |resolved| => resolved[i].leg)
  }

  function Commands(resolved: seq<Resolved>): seq<nat> {
    seq(|resolved|, i requires 0 <= i < |resolved| => resolved[i].command)
  }

  function Keys(resolved: seq<Resolved>): seq<nat> {
    seq(|resolved|, i requires 0 <= i < |resolved| => resolved[i].key)
  }

  predicate Named(r: Resolved) {
    r.leg.id != 0 && r.command != 0 && r.key != 0 && r.terminal != Some(0) && r.client != Some(0)
  }

  /** No identity is blank, and neither is a terminal or client that is given. */
  lemma NamedMeans(r: Resolved)
    ensures Named(r) <==> 0 !in {r.leg.id, r.command, r.key} && Some(0) !in {r.terminal, r.client}
  {
  }

  /** Every leg is named, and no leg, command or idempotency identity occurs twice. */
  predicate Indexable(resolved: seq<Resolved>) {
    && (forall i :: 0 <= i < |resolved| ==> Named(resolved[i]))
    && Distinct(Ids(Legs(resolved))) && Distinct(Commands(resolved)) && Distinct(Keys(resolved))
  }

  /** The first offending leg decides the error. */
  predicate OffendsAt(resolved: seq<Resolved>, i: nat) {
    i < |resolved| && Indexable(resolved[..i]) && !Indexable(resolved[..i + 1])
  }

  lemma SnocDistinct(s: seq<nat>, x: nat)
    ensures Distinct(s + [x]) <==> Distinct(s) && x !in Elements(s)
  {
    if Distinct(s + [x]) {
      assert forall i :: 0 <= i < |s| ==> (s + [x])[i] == s[i];
      assert forall i :: 0 <= i < |s| ==> (s + [x])[i] != (s + [x])[|s|];
    }
  }

  lemma NextIndexable(resolved: seq<Resolved>, i: nat)
    requires i < |resolved|
    ensures var front, r := resolved[..i], resolved[i];
            && Ids(Legs(resolved[..i + 1])) == Ids(Legs(front)) + [r.leg.id]
            && Commands(resolved[..i + 1]) == Commands(front) + [r.command]
            && Keys(resolved[..i + 1]) == Keys(front) + [r.key]
            && (Indexable(resolved[..i + 1]) <==>
                  && Indexable(front) && Named(r) && r.leg.id !in Elements(Ids(Legs(front)))
                  && r.command !in Elements(Commands(front)) && r.key !in Elements(Keys(front)))
  {
    var front, r := resolved[..i], resolved[i];
    assert resolved[..i + 1] == front + [r];
    SnocDistinct(Ids(Legs(front)), r.leg.id);
    SnocDistinct(Commands(front), r.command);
    SnocDistinct(Keys(front), r.key);
    hide Distinct, Named;
    assert Ids(Legs(front + [r])) == Ids(Legs(front)) + [r.leg.id];
    assert Commands(front + [r]) == Commands(front) + [r.command];
    assert Keys(front + [r]) == Keys(front) + [r.key];
    assert (forall k :: 0 <= k < |front + [r]| ==> Named((front + [r])[k]))
      <==> (forall k :: 0 <= k < |front| ==> Named(front[k])) && Named(r);
  }

  /**
    `index_resolved`: as many legs as intended, all named, no identity twice. It never
    asks whether the legs are the intended ones.
  */
  method IndexResolved(intended: seq<nat>, resolved: seq<Resolved>) returns (r: Result<map<nat, Resolved>, IndexError>)
    ensures r == Err(WrongCount) <==> |resolved| != |intended|
    ensures r.Ok? <==> |resolved| == |intended| && Indexable(resolved)
    ensures r.Ok? ==>
              && r.value.Keys == Elements(Ids(Legs(resolved)))
              && forall i :: 0 <= i < |resolved| ==>
                   resolved[i].leg.id in r.value && r.value[resolved[i].leg.id] == resolved[i]
    ensures r == Err(BlankField) ==> exists i: nat :: OffendsAt(resolved, i) && !Named(resolved[i])
    ensures r == Err(RepeatedIdentity) ==> exists i: nat :: OffendsAt(resolved, i) && Named(resolved[i])
  {
    if |resolved| != |intended| {
      return Err(WrongCount);
    }
    hide Indexable, Named, Distinct;
    var commands: set<nat>, keys: set<nat>, index: map<nat, Resolved> := {}, {}, map[];
    NothingIndexed(resolved);
    for i := 0 to |resolved|
      invariant Indexable(resolved[..i]) && index.Keys == Elements(Ids(Legs(resolved[..i])))
      invariant commands == Elements(Commands(resolved[..i])) && keys == Elements(Keys(resolved[..i]))
      invariant forall k :: 0 <= k < i ==> resolved[k].leg.id in index && index[resolved[k].leg.id] == resolved[k]
    {
      var x := resolved[i];
      NextIndexable(resolved, i);
      if !Named(x) {
        StopsIndexable(resolved, i);
        return Err(BlankField);
      }
      if x.command in commands || x.key in keys || x.leg.id in index {
        StopsIndexable(resolved, i);
        return Err(RepeatedIdentity);
      }
      commands, keys, index := commands + {x.command}, keys + {x.key}, index[x.leg.id := x];
    }
    assert resolved[..|resolved|] == resolved;
    return Ok(index);
  }

  lemma NothingIndexed(resolved: seq<Resolved>)
    ensures Indexable(resolved[..0]) && Elements(Ids(Legs(resolved[..0]))) == {}
    ensures Elements(Commands(resolved[..0])) == {} && Elements(Keys(resolved[..0])) == {}
  {
  }

  lemma StopsIndexable(resolved: seq<Resolved>, i: nat)
    requires i < |resolved| && Indexable(resolved[..i]) && !Indexable(resolved[..i + 1])
    ensures OffendsAt(resolved, i) && !Indexable(resolved)
  {
    if Indexable(resolved) {
      PrefixIndexable(resolved, i + 1);
    }
  }

  lemma PrefixIndexable(resolved: seq<Resolved>, n: nat)
    requires n <= |resolved| && Indexable(resolved)
    ensures Indexable(resolved[..n])
  {
    assert Ids(Legs(resolved[..n])) == Ids(Legs(resolved))[..n];
    assert Commands(resolved[..n]) == Commands(resolved)[..n] && Keys(resolved[..n]) == Keys(resolved)[..n];
  }

  /** The lookups of the build loop; `None` where the source indexes a missing key and panics. */
  method LookUp(intended: seq<nat>, index: map<nat, Resolved>) returns (r: Option<seq<Resolved>>)
    ensures r.Some? <==> Elements(intended) <= index.Keys
    ensures r.Some? ==> |r.value| == |intended| && forall i :: 0 <= i < |intended| ==>
              intended[i] in index && r.value[i] == index[intended[i]]
  {
    var found: seq<Resolved> := [];
    for i := 0 to |intended|
      invariant |found| == i
      invariant forall k :: 0 <= k < i ==> intended[k] in index && found[k] == index[intended[k]]
    {
      if intended[i] !in index {
        assert intended[i] in Elements(intended);
        return None;
      }
      found := found + [index[intended[i]]];
    }
    return Some(found);
  }

  datatype Building =
    | TopologyRefused(reason: Rejection)
    | IndexRefused(error: IndexError)
    | Panics
    | Found(legs: seq<Resolved>)

  /**
    The two checks and the lookups of `build_execution`, in its order. When both
    checks pass, the lookups succeed exactly when the resolved ids are the intended
    ones, and then the graph has no cycle; a plan that only passed beside a foreign
    leg never gets past them.
  */
  method ResolveLegs(simultaneous: bool, intended: seq<nat>, resolved: seq<Resolved>) returns (r: Building)
    ensures var legs, ids := Legs(resolved), Elements(intended);
            && (r.TopologyRefused? <==> !Accepted(simultaneous, intended, legs))
            && (r.IndexRefused? <==>
                  Accepted(simultaneous, intended, legs) && !(|resolved| == |intended| && Indexable(resolved)))
            && (r.Panics? <==>
                  && Accepted(simultaneous, intended, legs) && |resolved| == |intended| && Indexable(resolved)
                  && Elements(Ids(legs)) != ids)
            && (r.Found? <==>
                  && Accepted(simultaneous, intended, legs) && |resolved| == |intended| && Indexable(resolved)
                  && Elements(Ids(legs)) == ids)
            && (r.Found? ==>
                  && !Cyclic(Graph(ids, legs)) && |r.legs| == |intended|
                  && forall i :: 0 <= i < |intended| ==> r.legs[i] in resolved && r.legs[i].leg.id == intended[i])
  {
    hide Accepted, Cyclic, Graph, Indexable;
    var legs := Legs(resolved);
    var topology := ValidateTopology(simultaneous, intended, legs);
    if topology.Err? {
      return TopologyRefused(topology.error);
    }
    var index := IndexResolved(intended, resolved);
    if index.Err? {
      return IndexRefused(index.error);
    }
    IntendedFound(simultaneous, intended, resolved);
    var found := LookUp(intended, index.value);
    if found.None? {
      return Panics;
    }
    forall i | 0 <= i < |intended| ensures found.value[i] in resolved && found.value[i].leg.id == intended[i] {
      IndexedLeg(resolved, intended[i]);
    }
    return Found(found.value);
  }

  lemma IndexedLeg(resolved: seq<Resolved>, id: nat)
    requires id in Elements(Ids(Legs(resolved)))
    ensures exists k :: 0 <= k < |resolved| && resolved[k].leg.id == id
  {
    var k :| 0 <= k < |Ids(Legs(resolved))| && Ids(Legs(resolved))[k] == id;
    assert resolved[k].leg.id == id;
  }

  /** With equal numbers of distinct ids, all intended ones are resolved exactly when no others are. */
  lemma IntendedFound(simultaneous: bool, intended: seq<nat>, resolved: seq<Resolved>)
    requires Accepted(simultaneous, intended, Legs(resolved)) && |resolved| == |intended| && Indexable(resolved)
    ensures var ids := Elements(Ids(Legs(resolved)));
            && (Elements(intended) <= ids <==> ids == Elements(intended))
            && (ids == Elements(intended) ==> NoForeignWaits(Elements(intended), Legs(resolved)))
  {
    var legs, ids := Legs(resolved), Elements(Ids(Legs(resolved)));
    DistinctIffCount(intended);
    DistinctIffCount(Ids(legs));
    hide AllSound, CountMet, Distinct, NoDependencies;
    if Elements(intended) <= ids {
      SubsetCount(Elements(intended), ids);
    }
    forall i | 0 <= i < |legs| ensures legs[i].id in ids {
      assert Ids(legs)[i] == legs[i].id;
    }
  }

  // ---------------------------------------------------------------------
  // The failing family.

  /** Two legs that wait for each other, and two foreign legs that wait for a third one. */
  function HidingLegs(a: nat, b: nat, c: nat, x: nat, y: nat): seq<Leg> {
    [Leg(a, [b])] + [Leg(b, [a])] + [Leg(x, [c])] + [Leg(y, [c])]
  }

  /**
    As many distinct legs as are intended, sound lists and the count is met, so both
    checks pass; yet the graph has a cycle and two intended legs are missing.
  */
  lemma ForeignLegsHideACycle(a: nat, b: nat, c: nat, d: nat, x: nat, y: nat)
    requires Distinct([a, b, c, d, x, y])
    ensures var intended, legs := [a, b, c, d], HidingLegs(a, b, c, x, y);
            && Accepted(false, intended, legs) && |legs| == |intended| && Distinct(Ids(legs))
            && Cyclic(Graph(Elements(intended), legs)) && c !in Ids(legs) && d !in Ids(legs)
  {
    var s := [a, b, c, d, x, y];
    SixApart(s);
    HidingSound(s);
    HidingMeetsCount(s);
    hide Distinct, Cyclic, AllSound, CountMet;
  }

  predicate Apart(s: seq<nat>) {
    && |s| == 6
    && s[0] !in {s[1], s[2], s[3], s[4], s[5]} && s[1] !in {s[2], s[3], s[4], s[5]} && s[2] !in {s[3], s[4], s[5]}
    && s[3] !in {s[4], s[5]} && s[4] != s[5]
  }

  lemma SixApart(s: seq<nat>)
    requires |s| == 6 && Distinct(s)
    ensures Apart(s) && Distinct([s[0], s[1], s[2], s[3]]) && Distinct([s[2], s[3], s[4], s[5]])
  {
  }

  lemma HidingMeetsCount(s: seq<nat>)
    requires Apart(s) && Distinct([s[0], s[1], s[2], s[3]]) && Distinct([s[2], s[3], s[4], s[5]])
    ensures var ids, legs := Elements([s[0], s[1], s[2], s[3]]), HidingLegs(s[0], s[1], s[2], s[4], s[5]);
            CountMet(ids, legs) && Cyclic(Graph(ids, legs))
  {
    hide Tangled, Cyclic, Graph, HidingLegs, Distinct;
    var intended, free := [s[0], s[1], s[2], s[3]], [s[2], s[3], s[4], s[5]];
    var g := Graph(Elements(intended), HidingLegs(s[0], s[1], s[2], s[4], s[5]));
    HidingGraph(s);
    TwoTangled(g, s[0], s[1]);
    TwoTangled(g, s[1], s[0]);
    FreeFour(g, s[2], s[3], s[4], s[5]);
    CyclicMeansTangled(g);
    assert Untangled(g) == Elements(free);
    DistinctIffCount(intended);
    DistinctIffCount(free);
  }

  lemma HidingSound(s: seq<nat>)
    requires Apart(s)
    ensures var legs := HidingLegs(s[0], s[1], s[2], s[4], s[5]);
            && AllSound(legs, Elements([s[0], s[1], s[2], s[3]])) && Distinct(Ids(legs)) && |legs| == 4
            && s[2] !in Ids(legs) && s[3] !in Ids(legs)
  {
    var legs := HidingLegs(s[0], s[1], s[2], s[4], s[5]);
    assert Ids(legs) == [s[0], s[1], s[4], s[5]];
  }

  lemma HidingGraph(s: seq<nat>)
    requires Apart(s)
    ensures var a, b, c, d, x, y := s[0], s[1], s[2], s[3], s[4], s[5];
            var g := Graph(Elements([a, b, c, d]), HidingLegs(a, b, c, x, y));
            && g.Keys == {a, b, c, d, x, y} && g[a] == {b} && g[b] == {a} && g[c] == {} && g[d] == {}
            && g[x] == {c} && g[y] == {c}
  {
    hide Nodes, Needs, Degree, Dependents;
    var a, b, c, d, x, y := s[0], s[1], s[2], s[3], s[4], s[5];
    var ids := Elements([a, b, c, d]);
    var l1 := [] + [Leg(a, [b])];
    var l2 := l1 + [Leg(b, [a])];
    var l3 := l2 + [Leg(x, [c])];
    assert l3 + [Leg(y, [c])] == HidingLegs(a, b, c, x, y);
    assert Elements([a]) == {a} && Elements([b]) == {b} && Elements([c]) == {c};
    forall id ensures Needs(l3 + [Leg(y, [c])], id)
                   == if id == a then {b} else if id == b then {a} else if id == x || id == y then {c} else {} {
      NoLegs(ids, id);
      OneMoreLeg(ids, [], Leg(a, [b]), id);
      OneMoreLeg(ids, l1, Leg(b, [a]), id);
      OneMoreLeg(ids, l2, Leg(x, [c]), id);
      OneMoreLeg(ids, l3, Leg(y, [c]), id);
    }
    NoLegs(ids, 0);
    OneMoreLeg(ids, [], Leg(a, [b]), 0);
    OneMoreLeg(ids, l1, Leg(b, [a]), 0);
    OneMoreLeg(ids, l2, Leg(x, [c]), 0);
    OneMoreLeg(ids, l3, Leg(y, [c]), 0);
    assert Nodes(ids, l3 + [Leg(y, [c])]) == {a, b, c, d, x, y};
  }

  lemma TwoTangled(g: map<nat, set<nat>>, a: nat, b: nat)
    requires Waits(g, a, b) && Waits(g, b, a)
    ensures Tangled(g, a)
  {
    var p := [a, b, a];
    assert p != [] && Path(g, p) && p[0] == p[2] && Revisits(p) && p[|p| - 1] == a;
  }

  lemma FreeFour(g: map<nat, set<nat>>, c: nat, d: nat, x: nat, y: nat)
    requires c in g && d in g && x in g && y in g && g[c] == {} && g[d] == {} && g[x] == {c} && g[y] == {c}
    requires c != d && c != x && c != y && d != x && d != y && x != y
    ensures !Tangled(g, c) && !Tangled(g, d) && !Tangled(g, x) && !Tangled(g, y)
  {
    var order := [c, d, x, y];
    assert order[..0] == [] && order[..1] == [c] && order[..2] == [c, d] && order[..3] == [c, d, x];
    assert Topological(g, order) && Distinct(order);
    hide Tangled, Topological, Distinct;
    OrderedIsUntangled(g, order, 0);
    OrderedIsUntangled(g, order, 1);
    OrderedIsUntangled(g, order, 2);
    OrderedIsUntangled(g, order, 3);
  }

  lemma NoLegs(ids: set<nat>, id: nat)
    ensures Nodes(ids, []) == ids && Needs([], id) == {}
  {
  }
}
