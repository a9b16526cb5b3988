/**
 The stage graph: ordering stages after their dependencies, finding cycles, and the stages a
 failure blocks. The plans built for a run are at the end.
*/
module StageGraph {
  import opened Common

  type Name = string

  datatype Kind = Emulation | Baseline | Mappings | BlocksciParse | BlocksciUpdate | BlocksciWork | Report

  datatype Runner = Local | Kubernetes | Pbs

  datatype Stage = Stage(name: Name, kind: Kind, runner: Runner, dependencies: seq<Name>)

  datatype GraphError = DuplicateName | AbsentDependency | Cycle

  function Names(stages: seq<Stage>): set<Name> {
    set s | s in stages :: s.name
  }

  predicate UniqueNames(stages: seq<Stage>) {
    forall i, j | 0 <= i < j < |stages| :: stages[i].name != stages[j].name
  }

  predicate DependenciesPresent(stages: seq<Stage>) {
    forall s, d | s in stages && d in s.dependencies :: d in Names(stages)
  }

  predicate Ready(stage: Stage, completed: set<Name>) {
    forall d | d in stage.dependencies :: d in completed
  }

  /** The first stage whose dependencies are completed, as its position; the length if there is none. */
  function FirstReady(pending: seq<Stage>, completed: set<Name>): (k: nat)
    ensures k <= |pending|
    ensures forall i | 0 <= i < k :: !Ready(pending[i], completed)
    ensures k < |pending| ==> Ready(pending[k], completed)
  {
    if pending == [] then 0
    else if Ready(pending[0], completed) then 0
    else
      var k := FirstReady(pending[1..], completed);
      assert forall i | 1 <= i < k + 1 :: pending[i] == pending[1..][i - 1];
      k + 1
  }

  function Without(pending: seq<Stage>, k: nat): seq<Stage>
    requires k < |pending|
  {
    pending[..k] + pending[k + 1..]
  }

  /** What the loop appends from here on; None when it gets stuck. */
  function Continuation(pending: seq<Stage>, completed: set<Name>): Option<seq<Stage>>
    decreases |pending|
  {
    if pending == [] then Some([])
    else
      var k := FirstReady(pending, completed);
      if k == |pending| then None
      else
        var rest := Continuation(Without(pending, k), completed + {pending[k].name});
        if rest == None then None else Some([pending[k]] + rest.value)
  }

  function OrderOf(stages: seq<Stage>): Result<seq<Stage>, GraphError> {
    if !UniqueNames(stages) then Err(DuplicateName)
    else if !DependenciesPresent(stages) then Err(AbsentDependency)
    else match Continuation(stages, {})
         case Some(order) => Ok(order)
         case None => Err(Cycle)
  }

  /** `ordered`: repeatedly take the first stage whose dependencies are completed. */
  method Ordered(stages: seq<Stage>) returns (result: Result<seq<Stage>, GraphError>)
    ensures result == OrderOf(stages)
  {
    if !UniqueNames(stages) { return Err(DuplicateName); }
    if !DependenciesPresent(stages) { return Err(AbsentDependency); }
    var pending, ordered, completed: set<Name> := stages, [], {};
    while pending != []
      invariant (Continuation(stages, {}).None? <==> Continuation(pending, completed).None?)
      invariant Continuation(pending, completed).Some? ==>
                  Continuation(stages, {}).value == ordered + Continuation(pending, completed).value
      decreases |pending|
    {
      var k := 0;
      while k < |pending| && !Ready(pending[k], completed)
        invariant k <= |pending| && forall i | 0 <= i < k :: !Ready(pending[i], completed)
      {
        k := k + 1;
      }
      assert k == FirstReady(pending, completed);
      if k == |pending| { return Err(Cycle); }
      ordered := ordered + [pending[k]];
      completed := completed + {pending[k].name};
      pending := Without(pending, k);
    }
    assert ordered + [] == ordered;
    return Ok(ordered);
  }

  // ------------------------------------------------------------------- a legal order

  /** Every stage comes after all it depends on, given what was completed before. */
  predicate Topological(order: seq<Stage>, completed: set<Name>) {
    forall k | 0 <= k < |order| :: Ready(order[k], completed + Names(order[..k]))
  }

  lemma NamesPrepend(first: Stage, rest: seq<Stage>)
    ensures Names([first] + rest) == {first.name} + Names(rest)
  {
    assert first in [first] + rest;
    forall s | s in rest
      ensures s in [first] + rest
    {
    }
  }

  lemma TopologicalPrepend(first: Stage, rest: seq<Stage>, completed: set<Name>)
    requires Ready(first, completed) && Topological(rest, completed + {first.name})
    ensures Topological([first] + rest, completed)
  {
    var order := [first] + rest;
    forall k | 0 <= k < |order|
      ensures Ready(order[k], completed + Names(order[..k]))
    {
      if k == 0 {
        assert order[0] == first;
      } else {
        assert rest[k - 1] == order[k];
        NamesPrepend(first, rest[..k - 1]);
        assert order[..k] == [first] + rest[..k - 1];
      }
    }
  }

  lemma {:induction false} ContinuationIsLegal(pending: seq<Stage>, completed: set<Name>)
    requires Continuation(pending, completed).Some?
    ensures Topological(Continuation(pending, completed).value, completed)
    decreases |pending|
  {
    if pending != [] {
      var k := FirstReady(pending, completed);
      var rest := Continuation(Without(pending, k), completed + {pending[k].name}).value;
      ContinuationIsLegal(Without(pending, k), completed + {pending[k].name});
      TopologicalPrepend(pending[k], rest, completed);
    }
  }

  lemma TakenOut(pending: seq<Stage>, k: nat)
    requires k < |pending|
    ensures multiset(pending) == multiset([pending[k]]) + multiset(Without(pending, k))
  {
    assert pending == pending[..k] + [pending[k]] + pending[k + 1..];
  }

  lemma {:induction false} ContinuationIsPermutation(pending: seq<Stage>, completed: set<Name>)
    requires Continuation(pending, completed).Some?
    ensures multiset(Continuation(pending, completed).value) == multiset(pending)
    decreases |pending|
  {
    if pending != [] {
      var k := FirstReady(pending, completed);
      var rest := Continuation(Without(pending, k), completed + {pending[k].name}).value;
      ContinuationIsPermutation(Without(pending, k), completed + {pending[k].name});
      TakenOut(pending, k);
      assert multiset([pending[k]] + rest) == multiset([pending[k]]) + multiset(rest);
    }
  }

  lemma FirstIsReady(order: seq<Stage>, completed: set<Name>)
    requires order != [] && Topological(order, completed)
    ensures Ready(order[0], completed) && FirstReady(order, completed) == 0
  {
    assert completed + Names(order[..0]) == completed;
  }

  lemma TopologicalTail(order: seq<Stage>, completed: set<Name>)
    requires order != [] && Topological(order, completed)
    ensures Topological(order[1..], completed + {order[0].name})
  {
    var rest := order[1..];
    forall k | 0 <= k < |rest|
      ensures Ready(rest[k], completed + {order[0].name} + Names(rest[..k]))
    {
      assert rest[k] == order[k + 1];
      assert order[..k + 1] == [order[0]] + rest[..k];
      NamesPrepend(order[0], rest[..k]);
    }
  }

  /** A list that is already in order is taken from the front, stage by stage. */
  lemma {:induction false} LegalListIsKept(pending: seq<Stage>, completed: set<Name>)
    requires Topological(pending, completed)
    ensures Continuation(pending, completed) == Some(pending)
    decreases |pending|
  {
    if pending != [] {
      FirstIsReady(pending, completed);
      TopologicalTail(pending, completed);
      LegalListIsKept(pending[1..], completed + {pending[0].name});
      assert Without(pending, 0) == pending[1..];
      assert [pending[0]] + pending[1..] == pending;
    }
  }

  // --------------------------------------------------------------------------- walks

  /** Some stage called `a` depends on `b`. */
  ghost predicate DependsOn(stages: seq<Stage>, a: Name, b: Name) {
    exists s :: s in stages && s.name == a && b in s.dependencies
  }

  ghost predicate Walk(stages: seq<Stage>, walk: seq<Name>) {
    |walk| >= 2 && forall i | 0 <= i < |walk| - 1 :: DependsOn(stages, walk[i], walk[i + 1])
  }

  ghost predicate WalkBetween(stages: seq<Stage>, walk: seq<Name>, a: Name, b: Name) {
    Walk(stages, walk) && walk[0] == a && walk[|walk| - 1] == b
  }

  /** `a` depends on `b`, directly or through others. */
  ghost predicate Reaches(stages: seq<Stage>, a: Name, b: Name) {
    exists walk :: WalkBetween(stages, walk, a, b)
  }

  ghost predicate Cyclic(stages: seq<Stage>) {
    exists a :: Reaches(stages, a, a)
  }

  lemma SubgraphWalk(part: seq<Stage>, whole: seq<Stage>, walk: seq<Name>)
    requires Walk(part, walk) && forall s | s in part :: s in whole
    ensures Walk(whole, walk)
  {
    forall i | 0 <= i < |walk| - 1
      ensures DependsOn(whole, walk[i], walk[i + 1])
    {
      assert DependsOn(part, walk[i], walk[i + 1]);
    }
  }

  // ---------------------------------------------------- stuck exactly when there is a cycle

  /** The position of a name in a legal order, where its stage's dependencies come before. */
  ghost function Position(order: seq<Stage>, name: Name): (k: nat)
    requires name in Names(order)
    ensures k < |order| && order[k].name == name
  {
    var s :| s in order && s.name == name;
    var k :| 0 <= k < |order| && order[k] == s;
    k
  }

  lemma PositionOf(order: seq<Stage>, k: nat)
    requires UniqueNames(order) && k < |order|
    ensures order[k].name in Names(order) && Position(order, order[k].name) == k
  {
    assert order[k] in order;
  }

  lemma StageNamed(order: seq<Stage>, name: Name) returns (k: nat)
    requires name in Names(order)
    ensures k < |order| && order[k].name == name
  {
    var s :| s in order && s.name == name;
    k :| 0 <= k < |order| && order[k] == s;
  }

  lemma DependencyComesBefore(order: seq<Stage>, a: Name, b: Name)
    requires UniqueNames(order) && Topological(order, {}) && DependsOn(order, a, b)
    ensures a in Names(order) && b in Names(order) && Position(order, b) < Position(order, a)
  {
    var s :| s in order && s.name == a && b in s.dependencies;
    var k: nat :| k < |order| && order[k] == s;
    PositionOf(order, k);
    assert Ready(order[k], {} + Names(order[..k]));
    var m := StageNamed(order[..k], b);
    PositionOf(order, m);
  }

  /** Along a walk through a legal order the positions fall. */
  lemma {:induction false} WalksDescend(order: seq<Stage>, walk: seq<Name>, last: nat)
    requires UniqueNames(order) && Topological(order, {}) && Walk(order, walk) && 0 < last < |walk|
    ensures walk[0] in Names(order) && walk[last] in Names(order)
    ensures Position(order, walk[last]) < Position(order, walk[0])
    decreases last
  {
    assert DependsOn(order, walk[last - 1], walk[last]);
    DependencyComesBefore(order, walk[last - 1], walk[last]);
    if last > 1 { WalksDescend(order, walk, last - 1); }
  }

  lemma LegalIsAcyclic(order: seq<Stage>)
    requires UniqueNames(order) && Topological(order, {})
    ensures !Cyclic(order)
  {
    forall a, walk | WalkBetween(order, walk, a, a)
      ensures false
    {
      WalksDescend(order, walk, |walk| - 1);
    }
  }

  /** No stage can go next, although every dependency is completed or still pending. */
  ghost predicate Stuck(pending: seq<Stage>, completed: set<Name>) {
    && pending != []
    && (forall s | s in pending :: !Ready(s, completed))
    && (forall s, d | s in pending && d in s.dependencies :: d in completed || d in Names(pending))
  }

  /** From any pending stage one can go on to another pending one, as often as one likes. */
  lemma {:induction false} StuckWalk(pending: seq<Stage>, completed: set<Name>, length: nat) returns (walk: seq<Name>)
    requires Stuck(pending, completed) && length >= 1
    ensures |walk| == length && forall i | 0 <= i < length :: walk[i] in Names(pending)
    ensures forall i | 0 <= i < length - 1 :: DependsOn(pending, walk[i], walk[i + 1])
    decreases length
  {
    if length == 1 {
      assert pending[0] in pending;
      walk := [pending[0].name];
    } else {
      var before := StuckWalk(pending, completed, length - 1);
      var last := before[length - 2];
      var s :| s in pending && s.name == last;
      assert !Ready(s, completed);
      var d :| d in s.dependencies && d !in completed;
      walk := before + [d];
      assert DependsOn(pending, last, d);
    }
  }

  lemma {:induction false} Pigeonhole(values: seq<Name>, allowed: set<Name>) returns (i: nat, j: nat)
    requires forall k | 0 <= k < |values| :: values[k] in allowed
    requires |values| > |allowed|
    ensures i < j < |values| && values[i] == values[j]
    decreases |values|
  {
    var last := |values| - 1;
    if k :| 0 <= k < last && values[k] == values[last] {
      i, j := k, last;
    } else {
      assert allowed == (allowed - {values[last]}) + {values[last]};
      i, j := Pigeonhole(values[..last], allowed - {values[last]});
    }
  }

  lemma StuckIsCyclic(pending: seq<Stage>, completed: set<Name>)
    requires Stuck(pending, completed)
    ensures Cyclic(pending)
  {
    var walk := StuckWalk(pending, completed, |Names(pending)| + 1);
    var i, j := Pigeonhole(walk, Names(pending));
    var cycle := walk[i..j + 1];
    assert WalkBetween(pending, cycle, walk[i], walk[i]);
    assert Reaches(pending, walk[i], walk[i]);
  }

  lemma {:induction false} NoContinuationIsCyclic(pending: seq<Stage>, completed: set<Name>)
    requires Continuation(pending, completed) == None
    requires forall s, d | s in pending && d in s.dependencies :: d in completed || d in Names(pending)
    ensures Cyclic(pending)
    decreases |pending|
  {
    var k := FirstReady(pending, completed);
    if k == |pending| {
      StuckIsCyclic(pending, completed);
    } else {
      var rest := Without(pending, k);
      forall s, d | s in rest && d in s.dependencies
        ensures d in completed + {pending[k].name} || d in Names(rest)
      {
        assert s in pending;
        if d in Names(pending) {
          var t :| t in pending && t.name == d;
          assert t == pending[k] || t in rest;
        }
      }
      NoContinuationIsCyclic(rest, completed + {pending[k].name});
      var a :| Reaches(rest, a, a);
      var walk :| WalkBetween(rest, walk, a, a);
      SubgraphWalk(rest, pending, walk);
      assert WalkBetween(pending, walk, a, a);
      assert Reaches(pending, a, a);
    }
  }

  // -------------------------------------------------------------------- ordered: main results

  lemma PermutationKeepsNames(a: seq<Stage>, b: seq<Stage>)
    requires multiset(a) == multiset(b)
    ensures Names(a) == Names(b)
    ensures forall s :: s in a <==> s in b
  {
    forall s
      ensures s in a <==> s in b
    {
      assert s in a <==> s in multiset(a);
      assert s in b <==> s in multiset(b);
    }
  }

  lemma SamePositionTwice(stages: seq<Stage>, i: nat, j: nat)
    requires i < j < |stages| && stages[i] == stages[j]
    ensures multiset(stages)[stages[i]] >= 2
  {
    assert stages == stages[..j] + [stages[j]] + stages[j + 1..];
    assert stages[i] in stages[..j];
  }

  lemma UniqueOnce(stages: seq<Stage>, s: Stage)
    requires UniqueNames(stages)
    ensures multiset(stages)[s] <= 1
  {
    if s in stages {
      var j :| 0 <= j < |stages| && stages[j] == s;
      TakenOut(stages, j);
      forall i | 0 <= i < |Without(stages, j)|
        ensures Without(stages, j)[i] != s
      {
        assert Without(stages, j)[i] == stages[if i < j then i else i + 1];
      }
      assert s !in multiset(Without(stages, j));
    }
  }

  lemma PermutationKeepsUniqueness(a: seq<Stage>, b: seq<Stage>)
    requires multiset(a) == multiset(b) && UniqueNames(a)
    ensures UniqueNames(b)
  {
    PermutationKeepsNames(a, b);
    forall i, j | 0 <= i < j < |b|
      ensures b[i].name != b[j].name
    {
      if b[i].name == b[j].name {
        assert b[i] in a && b[j] in a;
        assert b[i] == b[j];
        SamePositionTwice(b, i, j);
        UniqueOnce(a, b[i]);
      }
    }
  }

  lemma SameGraphSameCycles(a: seq<Stage>, b: seq<Stage>)
    requires (forall s | s in a :: s in b) && Cyclic(a)
    ensures Cyclic(b)
  {
    var n :| Reaches(a, n, n);
    var walk :| WalkBetween(a, walk, n, n);
    SubgraphWalk(a, b, walk);
    assert WalkBetween(b, walk, n, n);
    assert Reaches(b, n, n);
  }

  /** The order is a permutation in which every stage follows all it depends on. */
  lemma OrderIsLegal(stages: seq<Stage>)
    requires OrderOf(stages).Ok?
    ensures multiset(OrderOf(stages).value) == multiset(stages)
    ensures UniqueNames(OrderOf(stages).value) && Topological(OrderOf(stages).value, {})
  {
    ContinuationIsLegal(stages, {});
    ContinuationIsPermutation(stages, {});
    PermutationKeepsUniqueness(stages, OrderOf(stages).value);
  }

  /** The cycle error is raised exactly when some stage depends on itself, directly or through others. */
  lemma CycleErrorIffCyclic(stages: seq<Stage>)
    requires UniqueNames(stages) && DependenciesPresent(stages)
    ensures OrderOf(stages) == Err(Cycle) <==> Cyclic(stages)
  {
    if OrderOf(stages).Ok? {
      var order := OrderOf(stages).value;
      OrderIsLegal(stages);
      LegalIsAcyclic(order);
      PermutationKeepsNames(stages, order);
      if Cyclic(stages) { SameGraphSameCycles(stages, order); }
    } else {
      NoContinuationIsCyclic(stages, {});
    }
  }

  /** A list already in order is returned as it is. */
  lemma LegalOrderIsKept(stages: seq<Stage>)
    requires UniqueNames(stages) && Topological(stages, {})
    ensures OrderOf(stages) == Ok(stages)
  {
    forall s, d | s in stages && d in s.dependencies
      ensures d in Names(stages)
    {
      var k :| 0 <= k < |stages| && stages[k] == s;
      assert Ready(stages[k], {} + Names(stages[..k]));
      var t :| t in stages[..k] && t.name == d;
      assert t in stages;
    }
    LegalListIsKept(stages, {});
  }

  // ---------------------------------------------------------------------- dependents_of

  /** What the loop of `dependents_of` adds from here on. */
  function DependentsAfter(order: seq<Stage>, blocked: set<Name>): seq<Stage>
    decreases |order|
  {
    if order == [] then []
    else if order[0].name !in blocked && (exists d | d in order[0].dependencies :: d in blocked) then
      [order[0]] + DependentsAfter(order[1..], blocked + {order[0].name})
    else DependentsAfter(order[1..], blocked)
  }

  /** `dependents_of`: one pass over the ordered stages. */
  method DependentsOf(order: seq<Stage>, name: Name) returns (dependents: seq<Stage>)
    ensures dependents == DependentsAfter(order, {name})
  {
    var blocked, k := {name}, 0;
    dependents := [];
    while k < |order|
      invariant k <= |order|
      invariant DependentsAfter(order, {name}) == dependents + DependentsAfter(order[k..], blocked)
    {
      var stage := order[k];
      assert order[k..][1..] == order[k + 1..];
      if stage.name !in blocked && exists d | d in stage.dependencies :: d in blocked {
        blocked := blocked + {stage.name};
        dependents := dependents + [stage];
      }
      k := k + 1;
    }
  }

  /** The names blocked after the pass: the failed stage and all that were added. */
  lemma {:induction false} DependentsInOrder(order: seq<Stage>, blocked: set<Name>, s: Stage)
    requires s in DependentsAfter(order, blocked)
    ensures s in order && s.name !in blocked
    decreases |order|
  {
    var first := order[0];
    if first.name !in blocked && (exists d | d in first.dependencies :: d in blocked) {
      if s != first { DependentsInOrder(order[1..], blocked + {first.name}, s); }
    } else {
      DependentsInOrder(order[1..], blocked, s);
    }
  }

  /** One walk for each member: it leads to a blocked name. */
  lemma {:induction false} DependentsReach(order: seq<Stage>, blocked: set<Name>, s: Stage) returns (b: Name)
    requires s in DependentsAfter(order, blocked)
    ensures b in blocked && Reaches(order, s.name, b)
    decreases |order|
  {
    var first, rest := order[0], order[1..];
    if first.name !in blocked && (exists d | d in first.dependencies :: d in blocked) {
      var d :| d in first.dependencies && d in blocked;
      assert DependsOn(order, first.name, d);
      if s == first {
        b := d;
        assert WalkBetween(order, [first.name, d], first.name, d);
      } else {
        b := DependentsReach(rest, blocked + {first.name}, s);
        var walk :| WalkBetween(rest, walk, s.name, b);
        SubgraphWalk(rest, order, walk);
        if b == first.name {
          b := d;
          assert WalkBetween(order, walk + [d], s.name, d);
        } else {
          assert WalkBetween(order, walk, s.name, b);
        }
      }
    } else {
      b := DependentsReach(rest, blocked, s);
      var walk :| WalkBetween(rest, walk, s.name, b);
      SubgraphWalk(rest, order, walk);
      assert WalkBetween(order, walk, s.name, b);
    }
  }

  /** A stage with a blocked dependency, or one on a stage that is added, is added itself. */
  lemma {:induction false} BlockedIsAdded(order: seq<Stage>, blocked: set<Name>, k: nat, d: Name)
    requires k < |order| && order[k].name !in blocked && d in order[k].dependencies
    requires UniqueNames(order)
    requires d in blocked || exists s :: s in DependentsAfter(order[..k], blocked) && s.name == d
    ensures order[k] in DependentsAfter(order, blocked)
    decreases k
  {
    var first, rest := order[0], order[1..];
    var more := if first.name !in blocked && (exists e | e in first.dependencies :: e in blocked)
                then blocked + {first.name} else blocked;
    if k > 0 {
      assert rest[k - 1] == order[k];
      assert order[..k] == [first] + rest[..k - 1];
      assert order[..k][1..] == rest[..k - 1];
      BlockedIsAdded(rest, more, k - 1, d);
    }
  }

  lemma {:induction false} FoundInPrefix(order: seq<Stage>, blocked: set<Name>, m: nat, k: nat)
    requires m < k <= |order| && UniqueNames(order) && order[m] in DependentsAfter(order, blocked)
    ensures order[m] in DependentsAfter(order[..k], blocked)
    decreases m
  {
    var first, rest := order[0], order[1..];
    var added := first.name !in blocked && exists e | e in first.dependencies :: e in blocked;
    var more := if added then blocked + {first.name} else blocked;
    assert order[..k][0] == first && order[..k][1..] == rest[..k - 1];
    if m > 0 {
      assert rest[m - 1] == order[m] && order[m].name != first.name;
      FoundInPrefix(rest, more, m - 1, k - 1);
    } else if !added {
      DependentsInOrder(rest, blocked, first);
    }
  }

  lemma {:induction false} ReachingIsDependent(order: seq<Stage>, name: Name, k: nat, walk: seq<Name>)
    requires UniqueNames(order) && Topological(order, {}) && k < |order|
    requires WalkBetween(order, walk, order[k].name, name)
    ensures order[k] in DependentsAfter(order, {name})
    decreases k
  {
    if order[k].name == name {
      assert Reaches(order, name, name);
      LegalIsAcyclic(order);
    } else {
      var d := walk[1];
      assert DependsOn(order, walk[0], walk[1]);
      var s :| s in order && s.name == order[k].name && d in s.dependencies;
      assert s == order[k];
      if d != name {
        assert Ready(order[k], {} + Names(order[..k]));
        var t :| t in order[..k] && t.name == d;
        var m :| 0 <= m < k && order[m] == t;
        var rest := walk[1..];
        forall i | 0 <= i < |rest| - 1
          ensures DependsOn(order, rest[i], rest[i + 1])
        {
          assert DependsOn(order, walk[i + 1], walk[i + 2]);
        }
        ReachingIsDependent(order, name, m, rest);
        FoundInPrefix(order, {name}, m, k);
      }
      BlockedIsAdded(order, {name}, k, d);
    }
  }

  lemma SameGraphSameReach(a: seq<Stage>, b: seq<Stage>, from: Name, to: Name)
    requires (forall s | s in a :: s in b) && Reaches(a, from, to)
    ensures Reaches(b, from, to)
  {
    var walk :| WalkBetween(a, walk, from, to);
    SubgraphWalk(a, b, walk);
    assert WalkBetween(b, walk, from, to);
  }

  /** `dependents_of` for any graph the constructor accepts. */
  function DependentsIn(stages: seq<Stage>, name: Name): seq<Stage>
    requires OrderOf(stages).Ok?
  {
    DependentsAfter(OrderOf(stages).value, {name})
  }

  /** One pass finds exactly the stages that depend on the name, directly or through others. */
  lemma DependentsAreTransitive(stages: seq<Stage>, name: Name, s: Stage)
    requires OrderOf(stages).Ok?
    ensures s in DependentsIn(stages, name) <==> s in stages && Reaches(stages, s.name, name)
  {
    var order := OrderOf(stages).value;
    OrderIsLegal(stages);
    PermutationKeepsNames(stages, order);
    if s in DependentsIn(stages, name) {
      var b := DependentsReach(order, {name}, s);
      SameGraphSameReach(order, stages, s.name, name);
      DependentsInOrder(order, {name}, s);
    }
    if s in stages && Reaches(stages, s.name, name) {
      SameGraphSameReach(stages, order, s.name, name);
      var walk :| WalkBetween(order, walk, s.name, name);
      var k :| 0 <= k < |order| && order[k] == s;
      ReachingIsDependent(order, name, k, walk);
    }
  }

  lemma {:induction false} DependentsComeOnce(order: seq<Stage>, blocked: set<Name>)
    requires UniqueNames(order)
    ensures UniqueNames(DependentsAfter(order, blocked))
    decreases |order|
  {
    if order != [] {
      var first, rest := order[0], order[1..];
      assert forall j | 0 <= j < |rest| :: rest[j] == order[j + 1];
      var added := first.name !in blocked && exists d | d in first.dependencies :: d in blocked;
      var more := if added then blocked + {first.name} else blocked;
      DependentsComeOnce(rest, more);
      if added {
        forall s | s in DependentsAfter(rest, more)
          ensures s.name != first.name
        {
          DependentsInOrder(rest, more, s);
        }
      }
    }
  }

  // ---------------------------------------------------------------- scheduler queries

  /** `scheduled`: the stages submitted to the batch scheduler, in wait order. */
  function Scheduled(order: seq<Stage>): seq<Stage> {
    if order == [] then []
    else (if order[0].runner == Pbs then [order[0]] else []) + Scheduled(order[1..])
  }

  /** `dependency_ids`: the submitted job IDs among a stage's dependencies, in their order. */
  function DependencyIds(dependencies: seq<Name>, jobs: map<Name, string>): seq<string> {
    if dependencies == [] then []
    else (if dependencies[0] in jobs then [jobs[dependencies[0]]] else []) + DependencyIds(dependencies[1..], jobs)
  }

  lemma {:induction false} ScheduledStages(order: seq<Stage>, s: Stage)
    ensures s in Scheduled(order) <==> s in order && s.runner == Pbs
    decreases |order|
  {
    if order != [] { ScheduledStages(order[1..], s); }
  }

  lemma {:induction false} DependencyIdsAreOfJobs(dependencies: seq<Name>, jobs: map<Name, string>, id: string)
    ensures id in DependencyIds(dependencies, jobs) <==> exists d :: d in dependencies && d in jobs && jobs[d] == id
    decreases |dependencies|
  {
    if dependencies != [] { DependencyIdsAreOfJobs(dependencies[1..], jobs, id); }
  }

  // ------------------------------------------------------------------------- the plans

  datatype Workflow = Combined | Reusable | Cached

  function MappingsStage(after: Name): Stage {
    Stage("coinjoin-mappings", Mappings, Pbs, [after])
  }

  function NamesOf(stages: seq<Stage>): seq<Name> {
    seq(|stages|, i requires 0 <= i < |stages| => stages[i].name)
  }

  function ReportStage(runner: Runner, analyzers: seq<Stage>): Stage {
    Stage("unified-report", Report, runner, NamesOf(analyzers))
  }

  function Present(stage: Option<Stage>): seq<Stage> {
    if stage.Some? then [stage.value] else []
  }

  function AnalysisPlan(analysisPbs: bool, blocksciPbs: bool, mappingsPbs: bool): seq<Stage> {
    var baseline := Stage("coinjoin-analysis", Baseline, if analysisPbs then Pbs else Local, []);
    var blocksci := Stage("blocksci", BlocksciWork, if blocksciPbs then Pbs else Local, []);
    var analyzers := [baseline, blocksci] + if mappingsPbs then [MappingsStage("coinjoin-analysis")] else [];
    analyzers + [ReportStage(if blocksciPbs then Pbs else Local, analyzers)]
  }

  /** The parse stage and the work stage of BlockSci, if there are any. */
  function BlocksciStages(blocksciPbs: bool, workflow: Workflow, task: string): (Option<Stage>, Option<Stage>) {
    var emulation := "kubernetes-emulation";
    if !blocksciPbs then (None, None)
    else if task == "update" then (None, Some(Stage("blocksci-update", BlocksciUpdate, Pbs, [emulation])))
    else if workflow == Combined then (None, Some(Stage("blocksci", BlocksciWork, Pbs, [emulation])))
    else
      var parse := if workflow == Reusable then Some(Stage("blocksci-parse", BlocksciParse, Pbs, [emulation]))
          else None;
      if task == "parse" then (parse, None)
      else (parse, Some(Stage("blocksci-" + if task == "detect" then "analyze" else task, BlocksciWork, Pbs,
                              [if parse.Some? then "blocksci-parse" else emulation])))
  }

  function EmulationStage(): Stage {
    Stage("kubernetes-emulation", Emulation, Kubernetes, [])
  }

  function BaselineIf(analysisPbs: bool): Option<Stage> {
    if analysisPbs then Some(Stage("coinjoin-analysis", Baseline, Pbs, ["kubernetes-emulation"])) else None
  }

  function MappingsIf(mappingsPbs: bool, analysisPbs: bool): Option<Stage> {
    if mappingsPbs then Some(MappingsStage(if analysisPbs then "coinjoin-analysis" else "kubernetes-emulation"))
        else None
  }

  /** The full-run plan before the report, in the order it is built. */
  function Analyzers(mappingsPbs: bool, workflow: Workflow, analysisPbs: bool, blocksciPbs: bool,
                     task: string): seq<Stage> {
    var (parse, work) := BlocksciStages(blocksciPbs, workflow, task);
    [EmulationStage()] + Present(BaselineIf(analysisPbs)) + Present(parse) + Present(work)
    + Present(MappingsIf(mappingsPbs, analysisPbs))
  }

  function FullRunPlan(mappingsPbs: bool, workflow: Workflow, analysisPbs: bool, blocksciPbs: bool, task: string,
                       unifiedReport: bool): seq<Stage> {
    var work := BlocksciStages(blocksciPbs, workflow, task).1;
    Analyzers(mappingsPbs, workflow, analysisPbs, blocksciPbs, task)
    + if unifiedReport && blocksciPbs && task == "detect"
      then [ReportStage(Pbs, Present(BaselineIf(analysisPbs)) + Present(work)
                        + Present(MappingsIf(mappingsPbs, analysisPbs)))]
      else []
  }

  /** Appending a stage with a new name whose dependencies are in the list keeps it in order. */
  lemma Append(stages: seq<Stage>, s: Stage)
    requires UniqueNames(stages) && Topological(stages, {})
    requires s.name !in Names(stages) && Ready(s, Names(stages))
    ensures UniqueNames(stages + [s]) && Topological(stages + [s], {})
    ensures Names(stages + [s]) == Names(stages) + {s.name}
  {
    var all := stages + [s];
    forall k | 0 <= k < |all|
      ensures Ready(all[k], {} + Names(all[..k]))
    {
      assert all[..k] == stages[..k];
      assert {} + Names(stages[..k]) == Names(stages[..k]);
      if k < |stages| { assert Ready(stages[k], {} + Names(stages[..k])); } else { assert stages[..k] == stages; }
    }
    forall i, j | 0 <= i < j < |all|
      ensures all[i].name != all[j].name
    {
      assert all[i] in stages;
    }
    assert s in all;
    forall t | t in stages
      ensures t in all
    {
    }
  }

  predicate Legal(stages: seq<Stage>) {
    UniqueNames(stages) && Topological(stages, {})
  }

  function NameIf(stage: Option<Stage>): set<Name> {
    if stage.Some? then {stage.value.name} else {}
  }

  lemma AppendIfPresent(stages: seq<Stage>, s: Option<Stage>)
    requires Legal(stages)
    requires s.Some? ==> s.value.name !in Names(stages) && Ready(s.value, Names(stages))
    ensures Legal(stages + Present(s))
    ensures Names(stages + Present(s)) == Names(stages) + NameIf(s)
  {
    if s.Some? { Append(stages, s.value); } else { assert stages + [] == stages; }
  }

  lemma WorkNameIsNew(task: string)
    requires task != "parse"
    ensures var name := "blocksci-" + task;
            && name != "blocksci-parse" && name != "kubernetes-emulation" && name != "coinjoin-analysis"
            && name != "coinjoin-mappings" && name != "unified-report"
  {
    var name := "blocksci-" + task;
    assert name[..9] == "blocksci-" && name[9..] == task;
    assert "blocksci-parse"[9..] == "parse";
    assert name[0] == 'b' && "kubernetes-emulation"[0] == 'k' && "coinjoin-analysis"[0] == 'c';
    assert "coinjoin-mappings"[0] == 'c' && "unified-report"[0] == 'u';
  }

  lemma FixedNamesDiffer()
    ensures "kubernetes-emulation"[0] == 'k' && "coinjoin-analysis"[0] == 'c' && "coinjoin-mappings"[0] == 'c'
    ensures "unified-report"[0] == 'u' && "blocksci"[0] == 'b' && "blocksci-parse"[0] == 'b'
              && "blocksci-update"[0] == 'b'
    ensures "coinjoin-analysis"[9] == 'a' && "coinjoin-mappings"[9] == 'm'
  {
  }

  lemma NamesOfPresent(stages: seq<Stage>, name: Name)
    ensures name in NamesOf(stages) <==> name in Names(stages)
  {
    if name in Names(stages) {
      var s :| s in stages && s.name == name;
      var i :| 0 <= i < |stages| && stages[i] == s;
      assert NamesOf(stages)[i] == name;
    }
  }

  lemma BlocksciNames(blocksciPbs: bool, workflow: Workflow, task: string)
    ensures var (parse, work) := BlocksciStages(blocksciPbs, workflow, task);
            && (parse.Some? ==>
                 parse.value.name == "blocksci-parse" && parse.value.dependencies == ["kubernetes-emulation"])
            && (work.Some? ==>
                 && work.value.name != "blocksci-parse" && work.value.name != "kubernetes-emulation"
                 && work.value.name != "coinjoin-analysis" && work.value.name != "coinjoin-mappings"
                 && work.value.name != "unified-report"
                 && work.value.dependencies == [if parse.Some? then "blocksci-parse" else "kubernetes-emulation"])
  {
    FixedNamesDiffer();
    if task != "parse" { WorkNameIsNew(if task == "detect" then "analyze" else task); }
  }

  /** A stage whose name is new and whose dependencies are among `before`. */
  predicate Follows(stage: Option<Stage>, before: set<Name>) {
    stage.Some? ==> stage.value.name !in before && Ready(stage.value, before)
  }

  lemma PartsAreLegal(first: Stage, second: Option<Stage>, third: Option<Stage>, fourth: Option<Stage>,
                      fifth: Option<Stage>)
    requires first.dependencies == []
    requires Follows(second, {first.name})
    requires Follows(third, {first.name} + NameIf(second))
    requires Follows(fourth, {first.name} + NameIf(second) + NameIf(third))
    requires Follows(fifth, {first.name} + NameIf(second) + NameIf(third) + NameIf(fourth))
    ensures var plan := [first] + Present(second) + Present(third) + Present(fourth) + Present(fifth);
            && Legal(plan)
            && Names(plan) == {first.name} + NameIf(second) + NameIf(third) + NameIf(fourth) + NameIf(fifth)
  {
    assert first in [first] && Names([first]) == {first.name};
    AppendIfPresent([first], second);
    AppendIfPresent([first] + Present(second), third);
    AppendIfPresent([first] + Present(second) + Present(third), fourth);
    AppendIfPresent([first] + Present(second) + Present(third) + Present(fourth), fifth);
  }

  lemma BlocksciFollows(analysisPbs: bool, blocksciPbs: bool, workflow: Workflow, task: string)
    ensures var (parse, work) := BlocksciStages(blocksciPbs, workflow, task);
            var before := {"kubernetes-emulation"} + NameIf(BaselineIf(analysisPbs));
            Follows(parse, before) && Follows(work, before + NameIf(parse))
  {
    FixedNamesDiffer();
    BlocksciNames(blocksciPbs, workflow, task);
  }

  lemma MappingsFollow(mappingsPbs: bool, analysisPbs: bool, others: set<Name>)
    requires "coinjoin-mappings" !in others
    ensures Follows(BaselineIf(analysisPbs), {"kubernetes-emulation"})
    ensures Follows(MappingsIf(mappingsPbs, analysisPbs),
                    {"kubernetes-emulation"} + NameIf(BaselineIf(analysisPbs)) + others)
  {
    FixedNamesDiffer();
  }

  lemma BlocksciNamesAreOthers(blocksciPbs: bool, workflow: Workflow, task: string)
    ensures var (parse, work) := BlocksciStages(blocksciPbs, workflow, task);
            "coinjoin-mappings" !in NameIf(parse) + NameIf(work) && "unified-report" !in NameIf(parse) + NameIf(work)
  {
    FixedNamesDiffer();
    BlocksciNames(blocksciPbs, workflow, task);
  }

  lemma ReportIsNew(mappingsPbs: bool, analysisPbs: bool)
    ensures "unified-report" !in {"kubernetes-emulation"} + NameIf(BaselineIf(analysisPbs))
              + NameIf(MappingsIf(mappingsPbs, analysisPbs))
  {
    FixedNamesDiffer();
  }

  lemma AnalyzersAreLegal(mappingsPbs: bool, workflow: Workflow, analysisPbs: bool, blocksciPbs: bool, task: string)
    ensures var plan := Analyzers(mappingsPbs, workflow, analysisPbs, blocksciPbs, task);
            var work := BlocksciStages(blocksciPbs, workflow, task).1;
            && Legal(plan) && "unified-report" !in Names(plan)
            && NameIf(BaselineIf(analysisPbs)) + NameIf(work)
                + NameIf(MappingsIf(mappingsPbs, analysisPbs)) <= Names(plan)
  {
    var (parse, work) := BlocksciStages(blocksciPbs, workflow, task);
    var baseline, mappings := BaselineIf(analysisPbs), MappingsIf(mappingsPbs, analysisPbs);
    BlocksciFollows(analysisPbs, blocksciPbs, workflow, task);
    BlocksciNamesAreOthers(blocksciPbs, workflow, task);
    MappingsFollow(mappingsPbs, analysisPbs, NameIf(parse) + NameIf(work));
    ReportIsNew(mappingsPbs, analysisPbs);
    assert {"kubernetes-emulation"} + NameIf(baseline) + NameIf(parse) + NameIf(work)
        == {"kubernetes-emulation"} + NameIf(baseline) + (NameIf(parse) + NameIf(work));
    PartsAreLegal(EmulationStage(), baseline, parse, work, mappings);
  }

  /** Every plan of a full run is already in its own legal order, whatever the parameters. */
  lemma FullRunPlanIsLegal(mappingsPbs: bool, workflow: Workflow, analysisPbs: bool, blocksciPbs: bool, task: string,
                           unifiedReport: bool)
    ensures var plan := FullRunPlan(mappingsPbs, workflow, analysisPbs, blocksciPbs, task, unifiedReport);
            OrderOf(plan) == Ok(plan)
  {
    var plan := Analyzers(mappingsPbs, workflow, analysisPbs, blocksciPbs, task);
    var work := BlocksciStages(blocksciPbs, workflow, task).1;
    AnalyzersAreLegal(mappingsPbs, workflow, analysisPbs, blocksciPbs, task);
    if unifiedReport && blocksciPbs && task == "detect" {
      var joined := Present(BaselineIf(analysisPbs)) + Present(work) + Present(MappingsIf(mappingsPbs, analysisPbs));
      forall d | d in NamesOf(joined)
        ensures d in Names(plan)
      {
        NamesOfPresent(joined, d);
      }
      Append(plan, ReportStage(Pbs, joined));
      LegalOrderIsKept(plan + [ReportStage(Pbs, joined)]);
    } else {
      assert plan + [] == plan;
      LegalOrderIsKept(plan);
    }
  }

  /** So is every plan of a local analysis. */
  lemma AnalysisPlanIsLegal(analysisPbs: bool, blocksciPbs: bool, mappingsPbs: bool)
    ensures var plan := AnalysisPlan(analysisPbs, blocksciPbs, mappingsPbs);
            OrderOf(plan) == Ok(plan)
  {
    FixedNamesDiffer();
    var baseline := Stage("coinjoin-analysis", Baseline, if analysisPbs then Pbs else Local, []);
    var blocksci := Stage("blocksci", BlocksciWork, if blocksciPbs then Pbs else Local, []);
    var mappings := if mappingsPbs then Some(MappingsStage("coinjoin-analysis")) else None;
    assert baseline in [baseline];
    Append([baseline], blocksci);
    assert [baseline] + [blocksci] == [baseline, blocksci];
    AppendIfPresent([baseline, blocksci], mappings);
    var plan := [baseline, blocksci] + Present(mappings);
    forall d | d in NamesOf(plan)
      ensures d in Names(plan)
    {
      NamesOfPresent(plan, d);
    }
    var report := ReportStage(if blocksciPbs then Pbs else Local, plan);
    Append(plan, report);
    LegalOrderIsKept(plan + [report]);
  }
}
