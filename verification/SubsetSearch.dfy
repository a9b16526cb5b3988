/**
 The JoinMarket subset search: depth-limited backtracking that decides whether grouped
 input values can fill a list of bucket goals.

 `Searcher.Search` is the search with its shared depth counter; `Explore` is the function it
 computes. The declarative meaning is `Fills`: an assignment that gives every value to at
 most one bucket and reaches every goal.
*/
module SubsetSearch {
  import opened Common

  datatype Reason = TargetExceedsInput | AllFilled | InputsExhausted | DepthTimeout | NoPartition

  datatype Bucket = Bucket(goal: int, current: int)

  datatype Verdict = Verdict(answer: Option<bool>, reason: Reason, depth: int)

  // ---------------------------------------------------------------- the search

  function Remaining(goal: int, current: int): (r: int)
    ensures r >= 0
  {
    if goal > current then goal - current else 0
  }

  /** The buckets still below their goal, in order. */
  function Active(buckets: seq<Bucket>): seq<Bucket> {
    if buckets == [] then []
    else
      var rest := Active(buckets[..|buckets| - 1]);
      var last := buckets[|buckets| - 1];
      if last.current < last.goal then rest + [last] else rest
  }

  /** Insert after every bucket that still needs at least as much. */
  function InsertByRemaining(b: Bucket, sorted: seq<Bucket>): seq<Bucket> {
    if sorted == [] || Remaining(sorted[0].goal, sorted[0].current) < Remaining(b.goal, b.current) then [b] + sorted
    else [sorted[0]] + InsertByRemaining(b, sorted[1..])
  }

  /** The stable sort by what is still needed, largest first. */
  function ByRemaining(buckets: seq<Bucket>): seq<Bucket> {
    if buckets == [] then []
    else InsertByRemaining(buckets[|buckets| - 1], ByRemaining(buckets[..|buckets| - 1]))
  }

  function InsertAscending(v: int, sorted: seq<int>): seq<int> {
    if sorted == [] || sorted[|sorted| - 1] <= v then sorted + [v]
    else InsertAscending(v, sorted[..|sorted| - 1]) + [sorted[|sorted| - 1]]
  }

  function Ascending(values: seq<int>): seq<int> {
    if values == [] then [] else InsertAscending(values[|values| - 1], Ascending(values[..|values| - 1]))
  }

  function Descending(values: seq<int>): seq<int> {
    Reversed(Ascending(values))
  }

  function Place(buckets: seq<Bucket>, index: nat, value: int): seq<Bucket>
    requires index < |buckets|
  {
    buckets[index := Bucket(buckets[index].goal, buckets[index].current + value)]
  }

  function TotalAfter(buckets: seq<Bucket>, index: nat, value: int, total: int): int
    requires index < |buckets|
  {
    var b := buckets[index];
    total - Remaining(b.goal, b.current) + Remaining(b.goal, b.current + value)
  }

  /** One call of the recursive search, with the shared depth counter passed in and out. */
  function Explore(values: seq<int>, buckets: seq<Bucket>, total: int, left: int, depth: int, maxDepth: int): Verdict
    decreases |values|, 1, 0
  {
    if total > left then Verdict(Some(false), TargetExceedsInput, depth)
    else if Active(buckets) == [] then Verdict(Some(true), AllFilled, depth)
    else if values == [] then Verdict(Some(false), InputsExhausted, depth)
    else if maxDepth != 0 && depth + 1 > maxDepth then Verdict(None, DepthTimeout, depth + 1)
    else TryBuckets(values, ByRemaining(Active(buckets)), 0, total, left, depth + 1, maxDepth)
  }

  /** The loop over the active buckets, from `index` on. */
  function TryBuckets(values: seq<int>, active: seq<Bucket>, index: nat, total: int, left: int,
                      depth: int, maxDepth: int): Verdict
    requires values != [] && index <= |active|
    decreases |values|, 0, |active| - index
  {
    if index == |active| then Verdict(Some(false), NoPartition, depth)
    else
      var value := values[|values| - 1];
      var v := Explore(values[..|values| - 1], Place(active, index, value),
                      TotalAfter(active, index, value, total), left - value, depth, maxDepth);
      if v.answer != Some(false) then v
      else TryBuckets(values, active, index + 1, total, left, v.depth, maxDepth)
  }

  function Empty(goals: seq<int>): seq<Bucket> {
    seq(|goals|, i requires 0 <= i < |goals| => Bucket(goals[i], 0))
  }

  /** The whole call: values ascending, goals descending, counter at zero. */
  function SubsetResult(values: seq<int>, goals: seq<int>, maxDepth: int): Verdict {
    Explore(Ascending(values), Empty(Descending(goals)), Sum(Descending(goals)), Sum(Ascending(values)), 0, maxDepth)
  }

  /** The enclosing call's variables: the depth counter is shared by every nested call. */
  class Searcher {
    const maxDepth: int
    var depth: int

    constructor (maxDepth: int)
      ensures this.maxDepth == maxDepth && depth == 0
    {
      this.maxDepth := maxDepth;
      depth := 0;
    }

    method Search(values: seq<int>, buckets: seq<Bucket>, total: int, left: int)
      returns (answer: Option<bool>, reason: Reason)
      modifies this`depth
      ensures Verdict(answer, reason, depth) == Explore(values, buckets, total, left, old(depth), maxDepth)
      decreases |values|
    {
      if total > left {
        return Some(false), TargetExceedsInput;
      }
      var active := Active(buckets);
      if active == [] {
        return Some(true), AllFilled;
      }
      if values == [] {
        return Some(false), InputsExhausted;
      }
      depth := depth + 1;
      if maxDepth != 0 && depth > maxDepth {
        return None, DepthTimeout;
      }
      active := ByRemaining(active);
      var value := values[|values| - 1];
      var index := 0;
      while index < |active|
        invariant index <= |active|
        invariant TryBuckets(values, active, index, total, left, depth, maxDepth)
               == TryBuckets(values, active, 0, total, left, old(depth) + 1, maxDepth)
      {
        var nested, why := Search(values[..|values| - 1], Place(active, index, value),
                                  TotalAfter(active, index, value, total), left - value);
        if nested != Some(false) {
          return nested, why;
        }
        index := index + 1;
      }
      return Some(false), NoPartition;
    }
  }

  method JoinmarketSubsetResult(values: seq<int>, goals: seq<int>, maxDepth: int)
    returns (answer: Option<bool>, reason: Reason, depth: int)
    ensures Verdict(answer, reason, depth) == SubsetResult(values, goals, maxDepth)
  {
    var sorted, targets := Ascending(values), Descending(goals);
    var searcher := new Searcher(maxDepth);
    answer, reason := searcher.Search(sorted, Empty(targets), Sum(targets), Sum(sorted));
    depth := searcher.depth;
  }

  // ---------------------------------------------------------------- meaning

  ghost predicate NonNegative(values: seq<int>) {
    forall i | 0 <= i < |values| :: values[i] >= 0
  }

  /** What bucket `b` receives when value i goes to bucket `to[i]`; -1 leaves a value unused. */
  function Load(values: seq<int>, to: seq<int>, b: int): int
    requires |to| == |values|
  {
    if values == [] then 0
    else
      var n := |values| - 1;
      Load(values[..n], to[..n], b) + if to[n] == b then values[n] else 0
  }

  /** `to` gives every value to at most one bucket, and every goal is reached. */
  ghost predicate Fills(values: seq<int>, goals: seq<int>, to: seq<int>) {
    && |to| == |values|
    && (forall i | 0 <= i < |to| :: -1 <= to[i] < |goals|)
    && (forall b | 0 <= b < |goals| :: Load(values, to, b) >= goals[b])
  }

  ghost predicate Fillable(values: seq<int>, goals: seq<int>) {
    exists to :: Fills(values, goals, to)
  }

  // The same question asked value by value, last value first.
  ghost predicate CanFill(values: seq<int>, needs: seq<int>)
    decreases |values|, 1
  {
    if values == [] then forall b | 0 <= b < |needs| :: needs[b] <= 0
    else exists b :: FillsVia(values, needs, b)
  }

  /** The last value goes to bucket `b`, or nowhere for -1, and the others fill the rest. */
  ghost predicate FillsVia(values: seq<int>, needs: seq<int>, b: int)
    requires values != []
    decreases |values|, 0
  {
    var n := |values| - 1;
    -1 <= b < |needs| && CanFill(values[..n], if b == -1 then needs else needs[b := needs[b] - values[n]])
  }

  lemma {:induction false} FillsThenCanFill(values: seq<int>, needs: seq<int>, to: seq<int>)
    requires Fills(values, needs, to)
    ensures CanFill(values, needs)
    decreases |values|
  {
    if values != [] {
      var n := |values| - 1;
      var b := to[n];
      FillsThenCanFill(values[..n], if b == -1 then needs else needs[b := needs[b] - values[n]], to[..n]);
      assert FillsVia(values, needs, b);
    }
  }

  lemma {:induction false} CanFillThenFillable(values: seq<int>, needs: seq<int>)
    requires CanFill(values, needs)
    ensures Fillable(values, needs)
    decreases |values|
  {
    if values == [] {
      assert Fills(values, needs, []);
    } else {
      var n := |values| - 1;
      var b :| FillsVia(values, needs, b);
      var rest := if b == -1 then needs else needs[b := needs[b] - values[n]];
      CanFillThenFillable(values[..n], rest);
      var to :| Fills(values[..n], rest, to);
      Extend(values, needs, to, b);
    }
  }

  lemma Extend(values: seq<int>, needs: seq<int>, to: seq<int>, b: int)
    requires values != [] && -1 <= b < |needs|
    requires var n := |values| - 1;
             Fills(values[..n], if b == -1 then needs else needs[b := needs[b] - values[n]], to)
    ensures Fillable(values, needs)
  {
    var n := |values| - 1;
    var more := to + [b];
    assert more[..n] == to;
    forall c | 0 <= c < |needs|
      ensures Load(values, more, c) >= needs[c]
    {
      assert Load(values[..n], to, c) >= (if b == -1 then needs else needs[b := needs[b] - values[n]])[c];
    }
    assert Fills(values, needs, more);
  }

  lemma {:induction false} CanFillMonotone(values: seq<int>, needs: seq<int>, fewer: seq<int>)
    requires |needs| == |fewer| && forall b | 0 <= b < |needs| :: fewer[b] <= needs[b]
    requires CanFill(values, needs)
    ensures CanFill(values, fewer)
    decreases |values|
  {
    if values != [] {
      var n := |values| - 1;
      var b :| FillsVia(values, needs, b);
      if b == -1 {
        CanFillMonotone(values[..n], needs, fewer);
      } else {
        CanFillMonotone(values[..n], needs[b := needs[b] - values[n]], fewer[b := fewer[b] - values[n]]);
      }
      assert FillsVia(values, fewer, b);
    }
  }

  lemma CanFillNothingNeeded(values: seq<int>, needs: seq<int>)
    requires forall b | 0 <= b < |needs| :: needs[b] <= 0
    ensures CanFill(values, needs)
    decreases |values|
  {
    if values != [] {
      CanFillNothingNeeded(values[..|values| - 1], needs);
      assert FillsVia(values, needs, -1);
    }
  }

  // ------------------------------------------------ order of the values is irrelevant

  /** Where the last value goes: -1 when it is not needed. */
  lemma {:induction false} LastValue(values: seq<int>, v: int, needs: seq<int>) returns (b: int)
    requires CanFill(values + [v], needs)
    ensures -1 <= b < |needs|
    ensures CanFill(values, if b == -1 then needs else needs[b := needs[b] - v])
  {
    assert (values + [v])[..|values|] == values;
    b :| FillsVia(values + [v], needs, b);
  }

  lemma {:induction false} AddValue(values: seq<int>, v: int, needs: seq<int>, b: int)
    requires -1 <= b < |needs|
    requires CanFill(values, if b == -1 then needs else needs[b := needs[b] - v])
    ensures CanFill(values + [v], needs)
  {
    assert (values + [v])[..|values|] == values;
    assert FillsVia(values + [v], needs, b);
  }

  /** The last two values can be exchanged. */
  lemma {:induction false} SwapLast(values: seq<int>, v: int, w: int, needs: seq<int>)
    requires CanFill(values + [v] + [w], needs)
    ensures CanFill(values + [w] + [v], needs)
  {
    var c := LastValue(values + [v], w, needs);
    var afterW := if c == -1 then needs else needs[c := needs[c] - w];
    var b := LastValue(values, v, afterW);
    var afterV := if b == -1 then needs else needs[b := needs[b] - v];
    assert (if b == -1 then afterW else afterW[b := afterW[b] - v])
        == (if c == -1 then afterV else afterV[c := afterV[c] - w]);
    AddValue(values, w, afterV, c);
    AddValue(values + [w], v, needs, b);
  }

  /** Whatever fills with the values `left` also fills with the values `right`. */
  ghost predicate FillsWhenever(left: seq<int>, right: seq<int>, count: nat) {
    forall needs: seq<int> | |needs| == count && CanFill(left, needs) :: CanFill(right, needs)
  }

  lemma {:induction false} SnocWhenever(left: seq<int>, right: seq<int>, v: int, count: nat)
    requires FillsWhenever(left, right, count)
    ensures FillsWhenever(left + [v], right + [v], count)
  {
    forall needs: seq<int> | |needs| == count && CanFill(left + [v], needs)
      ensures CanFill(right + [v], needs)
    {
      var b := LastValue(left, v, needs);
      AddValue(right, v, needs, b);
    }
  }

  lemma {:induction false} SwapWhenever(values: seq<int>, v: int, w: int, count: nat)
    ensures FillsWhenever(values + [v] + [w], values + [w] + [v], count)
  {
    forall needs: seq<int> | |needs| == count && CanFill(values + [v] + [w], needs)
      ensures CanFill(values + [w] + [v], needs)
    {
      SwapLast(values, v, w, needs);
    }
  }

  lemma {:induction false} InsertionKeepsFill(v: int, sorted: seq<int>, count: nat)
    ensures FillsWhenever(InsertAscending(v, sorted), sorted + [v], count)
    ensures FillsWhenever(sorted + [v], InsertAscending(v, sorted), count)
    decreases |sorted|
  {
    if !(sorted == [] || sorted[|sorted| - 1] <= v) {
      var init, last := sorted[..|sorted| - 1], sorted[|sorted| - 1];
      InsertionKeepsFill(v, init, count);
      SnocWhenever(InsertAscending(v, init), init + [v], last, count);
      SnocWhenever(init + [v], InsertAscending(v, init), last, count);
      SwapWhenever(init, v, last, count);
      SwapWhenever(init, last, v, count);
      assert sorted + [v] == init + [last] + [v];
    }
  }

  lemma {:induction false} SortingKeepsFill(values: seq<int>, count: nat)
    ensures FillsWhenever(Ascending(values), values, count)
    ensures FillsWhenever(values, Ascending(values), count)
    decreases |values|
  {
    if values != [] {
      var init, last := values[..|values| - 1], values[|values| - 1];
      SortingKeepsFill(init, count);
      SnocWhenever(Ascending(init), init, last, count);
      SnocWhenever(init, Ascending(init), last, count);
      InsertionKeepsFill(last, Ascending(init), count);
      assert init + [last] == values;
    }
  }

  // ------------------------------ order of the buckets, and filled buckets, are irrelevant

  /** The positive needs as a multiset. */
  ghost function Open(needs: seq<int>): multiset<int> {
    if needs == [] then multiset{}
    else
      var init, last := needs[..|needs| - 1], needs[|needs| - 1];
      if last > 0 then Open(init) + multiset{last} else Open(init)
  }

  lemma {:induction false} OpenCounts(needs: seq<int>)
    ensures forall x :: Open(needs)[x] == if x > 0 then multiset(needs)[x] else 0
    decreases |needs|
  {
    if needs != [] {
      OpenCounts(needs[..|needs| - 1]);
      assert needs == needs[..|needs| - 1] + [needs[|needs| - 1]];
    }
  }

  lemma SameMultisetSameOpen(needs: seq<int>, other: seq<int>)
    requires multiset(needs) == multiset(other)
    ensures Open(needs) == Open(other)
  {
    OpenCounts(needs);
    OpenCounts(other);
    forall x
      ensures Open(needs)[x] == Open(other)[x]
    {
    }
  }

  ghost function Reduce(open: multiset<int>, need: int, v: int): multiset<int> {
    open - multiset{need} + if need - v > 0 then multiset{need - v} else multiset{}
  }

  lemma {:induction false} OpenOfSnoc(needs: seq<int>, x: int)
    ensures Open(needs + [x]) == if x > 0 then Open(needs) + multiset{x} else Open(needs)
  {
    assert (needs + [x])[..|needs|] == needs;
  }

  lemma ReduceKeepsOthers(open: multiset<int>, need: int, v: int, other: int)
    requires need in open
    ensures Reduce(open + multiset{other}, need, v) == Reduce(open, need, v) + multiset{other}
  {
  }

  lemma ReduceAdded(open: multiset<int>, need: int, v: int)
    ensures Reduce(open + multiset{need}, need, v) == if need - v > 0 then open + multiset{need - v} else open
  {
    assert open + multiset{need} - multiset{need} == open;
  }

  lemma {:induction false} OpenAfterPlacing(needs: seq<int>, b: int, v: int)
    requires 0 <= b < |needs| && v >= 0
    ensures Open(needs[b := needs[b] - v]) == if needs[b] > 0 then Reduce(Open(needs), needs[b], v) else Open(needs)
    ensures needs[b] > 0 ==> needs[b] in Open(needs)
    decreases |needs|
  {
    var init, last, after := needs[..|needs| - 1], needs[|needs| - 1], needs[b := needs[b] - v];
    if b == |init| {
      assert needs == init + [last] && after == init + [last - v];
      OpenOfSnoc(init, last);
      OpenOfSnoc(init, last - v);
      ReduceAdded(Open(init), last, v);
    } else {
      assert needs == init + [last] && after == init[b := init[b] - v] + [last];
      OpenOfSnoc(init, last);
      OpenOfSnoc(init[b := init[b] - v], last);
      OpenAfterPlacing(init, b, v);
      if needs[b] > 0 {
        ReduceKeepsOthers(Open(init), needs[b], v, last);
      }
    }
  }

  /** Fillability of the open needs alone. */
  ghost predicate CanFillOpen(values: seq<int>, open: multiset<int>)
    decreases |values|, 1
  {
    if values == [] then open == multiset{} else exists need :: FillsOpenVia(values, open, need)
  }

  /** The last value goes to a bucket with the open need `need`, or nowhere when there is none. */
  ghost predicate FillsOpenVia(values: seq<int>, open: multiset<int>, need: int)
    requires values != []
    decreases |values|, 0
  {
    var n := |values| - 1;
    CanFillOpen(values[..n], if need in open then Reduce(open, need, values[n]) else open)
  }

  lemma {:induction false} NoOpenNeeds(needs: seq<int>)
    ensures Open(needs) == multiset{} <==> forall b | 0 <= b < |needs| :: needs[b] <= 0
    decreases |needs|
  {
    if needs != [] {
      var init, last := needs[..|needs| - 1], needs[|needs| - 1];
      NoOpenNeeds(init);
      if last > 0 {
        assert last in Open(needs);
      } else {
        assert forall b | 0 <= b < |init| :: needs[b] == init[b];
      }
    }
  }

  lemma {:induction false} BucketOfNeed(needs: seq<int>, need: int, v: int) returns (b: nat)
    requires v >= 0 && need in Open(needs)
    ensures b < |needs| && Open(needs[b := needs[b] - v]) == Reduce(Open(needs), need, v)
  {
    OpenCounts(needs);
    assert need in multiset(needs);
    b :| 0 <= b < |needs| && needs[b] == need;
    OpenAfterPlacing(needs, b, v);
  }

  lemma {:induction false} OpenNeedsSuffice(values: seq<int>, needs: seq<int>, open: multiset<int>)
    requires NonNegative(values) && open == Open(needs) && CanFillOpen(values, open)
    ensures CanFill(values, needs)
    decreases |values|
  {
    if values == [] {
      NoOpenNeeds(needs);
    } else {
      var init, v := values[..|values| - 1], values[|values| - 1];
      assert values == init + [v];
      var need :| FillsOpenVia(values, open, need);
      if need in open {
        var b := BucketOfNeed(needs, need, v);
        OpenNeedsSuffice(init, needs[b := needs[b] - v], Reduce(open, need, v));
        AddValue(init, v, needs, b);
      } else {
        OpenNeedsSuffice(init, needs, open);
        AddValue(init, v, needs, -1);
      }
    }
  }

  lemma {:induction false} OpenNeedsNecessary(values: seq<int>, needs: seq<int>)
    requires NonNegative(values) && CanFill(values, needs)
    ensures CanFillOpen(values, Open(needs))
    decreases |values|
  {
    if values == [] {
      NoOpenNeeds(needs);
    } else {
      var n := |values| - 1;
      var v := values[n];
      assert values == values[..n] + [v];
      var b := LastValue(values[..n], v, needs);
      OpenCounts(needs);
      if b == -1 {
        OpenNeedsNecessary(values[..n], needs);
        assert FillsOpenVia(values, Open(needs), 0);
      } else {
        OpenAfterPlacing(needs, b, v);
        OpenNeedsNecessary(values[..n], needs[b := needs[b] - v]);
        assert FillsOpenVia(values, Open(needs), needs[b]);
      }
    }
  }

  lemma {:induction false} SameOpenSameFill(values: seq<int>, needs: seq<int>, other: seq<int>)
    requires NonNegative(values) && Open(needs) == Open(other)
    ensures CanFill(values, needs) <==> CanFill(values, other)
  {
    if CanFill(values, needs) {
      OpenNeedsNecessary(values, needs);
      OpenNeedsSuffice(values, other, Open(other));
    }
    if CanFill(values, other) {
      OpenNeedsNecessary(values, other);
      OpenNeedsSuffice(values, needs, Open(needs));
    }
  }

  function Needs(buckets: seq<Bucket>): seq<int> {
    seq(|buckets|, i requires 0 <= i < |buckets| => buckets[i].goal - buckets[i].current)
  }

  function TotalRemaining(buckets: seq<Bucket>): (t: int)
    ensures t >= 0
  {
    if buckets == [] then 0
    else
      var n := |buckets| - 1;
      TotalRemaining(buckets[..n]) + Remaining(buckets[n].goal, buckets[n].current)
  }

  lemma TotalRemainingOfConcat(left: seq<Bucket>, right: seq<Bucket>)
    ensures TotalRemaining(left + right) == TotalRemaining(left) + TotalRemaining(right)
    decreases |right|
  {
    if right == [] {
      assert left + right == left;
    } else {
      var n := |right| - 1;
      assert (left + right)[..|left + right| - 1] == left + right[..n];
      TotalRemainingOfConcat(left, right[..n]);
    }
  }

  lemma {:induction false} TotalAfterPlacing(buckets: seq<Bucket>, index: nat, value: int)
    requires index < |buckets|
    ensures TotalRemaining(Place(buckets, index, value)) == TotalAfter(buckets, index, value, TotalRemaining(buckets))
    decreases |buckets|
  {
    var n := |buckets| - 1;
    if index == n {
      assert Place(buckets, index, value)[..n] == buckets[..n];
    } else {
      assert Place(buckets, index, value)[..n] == Place(buckets[..n], index, value);
      TotalAfterPlacing(buckets[..n], index, value);
    }
  }

  lemma NeedsOfCons(b: Bucket, rest: seq<Bucket>)
    ensures multiset(Needs([b] + rest)) == multiset(Needs(rest)) + multiset{b.goal - b.current}
    ensures TotalRemaining([b] + rest) == Remaining(b.goal, b.current) + TotalRemaining(rest)
  {
    assert Needs([b] + rest) == [b.goal - b.current] + Needs(rest);
    TotalRemainingOfConcat([b], rest);
  }

  lemma {:induction false} InsertByRemainingKeeps(b: Bucket, sorted: seq<Bucket>)
    ensures multiset(Needs(InsertByRemaining(b, sorted))) == multiset(Needs(sorted)) + multiset{b.goal - b.current}
    ensures TotalRemaining(InsertByRemaining(b, sorted)) == TotalRemaining(sorted) + Remaining(b.goal, b.current)
    decreases |sorted|
  {
    if sorted == [] || Remaining(sorted[0].goal, sorted[0].current) < Remaining(b.goal, b.current) {
      NeedsOfCons(b, sorted);
    } else {
      var head, tail := sorted[0], sorted[1..];
      var inserted := InsertByRemaining(b, tail);
      InsertByRemainingKeeps(b, tail);
      NeedsOfCons(head, inserted);
      NeedsOfCons(head, tail);
      assert sorted == [head] + tail;
      assert InsertByRemaining(b, sorted) == [head] + inserted;
    }
  }

  lemma {:induction false} ByRemainingKeeps(buckets: seq<Bucket>)
    ensures multiset(Needs(ByRemaining(buckets))) == multiset(Needs(buckets))
    ensures TotalRemaining(ByRemaining(buckets)) == TotalRemaining(buckets)
  {
    if buckets != [] {
      var init, last := buckets[..|buckets| - 1], buckets[|buckets| - 1];
      ByRemainingKeeps(init);
      InsertByRemainingKeeps(last, ByRemaining(init));
      assert Needs(buckets) == Needs(init) + [last.goal - last.current];
    }
  }

  lemma NeedsOfSnoc(buckets: seq<Bucket>, b: Bucket)
    ensures Needs(buckets + [b]) == Needs(buckets) + [b.goal - b.current]
    ensures TotalRemaining(buckets + [b]) == TotalRemaining(buckets) + Remaining(b.goal, b.current)
  {
    assert (buckets + [b])[..|buckets|] == buckets;
  }

  lemma {:induction false} ActiveKeeps(buckets: seq<Bucket>)
    ensures Open(Needs(Active(buckets))) == Open(Needs(buckets))
    ensures TotalRemaining(Active(buckets)) == TotalRemaining(buckets)
  {
    if buckets != [] {
      var init, last := buckets[..|buckets| - 1], buckets[|buckets| - 1];
      ActiveKeeps(init);
      assert buckets == init + [last];
      NeedsOfSnoc(init, last);
      OpenOfSnoc(Needs(init), last.goal - last.current);
      NeedsOfSnoc(Active(init), last);
      OpenOfSnoc(Needs(Active(init)), last.goal - last.current);
    }
  }

  lemma {:induction false} NoneActive(buckets: seq<Bucket>)
    requires Active(buckets) == []
    ensures forall i | 0 <= i < |buckets| :: buckets[i].goal <= buckets[i].current
  {
    if buckets != [] {
      NoneActive(buckets[..|buckets| - 1]);
    }
  }

  /** Dropping filled buckets and sorting the rest changes neither the question nor the total. */
  lemma SortedActiveKeeps(values: seq<int>, buckets: seq<Bucket>)
    requires NonNegative(values)
    ensures CanFill(values, Needs(ByRemaining(Active(buckets)))) <==> CanFill(values, Needs(buckets))
    ensures TotalRemaining(ByRemaining(Active(buckets))) == TotalRemaining(buckets)
    ensures |ByRemaining(Active(buckets))| == 0 <==> Active(buckets) == []
  {
    ActiveKeeps(buckets);
    var active := Active(buckets);
    ByRemainingKeeps(active);
    assert |Needs(ByRemaining(active))| == |multiset(Needs(ByRemaining(active)))|;
    assert |Needs(active)| == |multiset(Needs(active))|;
    SameMultisetSameOpen(Needs(ByRemaining(active)), Needs(active));
    SameOpenSameFill(values, Needs(ByRemaining(active)), Needs(buckets));
  }

  // ------------------------------------------------------------ pruning bound

  lemma FillNeedsEnough(values: seq<int>, buckets: seq<Bucket>)
    requires NonNegative(values) && CanFill(values, Needs(buckets))
    ensures TotalRemaining(buckets) <= Sum(values)
    decreases |values|
  {
    if values == [] {
      forall i | 0 <= i < |buckets|
        ensures buckets[i].goal - buckets[i].current <= 0
      {
        assert Needs(buckets)[i] <= 0;
      }
      NothingRemains(buckets);
    } else {
      var n := |values| - 1;
      var b :| FillsVia(values, Needs(buckets), b);
      if b == -1 {
        FillNeedsEnough(values[..n], buckets);
      } else {
        assert Needs(Place(buckets, b, values[n])) == Needs(buckets)[b := Needs(buckets)[b] - values[n]];
        FillNeedsEnough(values[..n], Place(buckets, b, values[n]));
        TotalAfterPlacing(buckets, b, values[n]);
      }
    }
  }

  lemma NothingRemains(buckets: seq<Bucket>)
    requires forall i | 0 <= i < |buckets| :: buckets[i].goal - buckets[i].current <= 0
    ensures TotalRemaining(buckets) == 0
  {
  }

  lemma SomethingRemains(buckets: seq<Bucket>)
    requires Active(buckets) != []
    ensures TotalRemaining(buckets) > 0
  {
    if Active(buckets[..|buckets| - 1]) != [] {
      SomethingRemains(buckets[..|buckets| - 1]);
    }
  }

  // ------------------------------------------------------------ correctness

  /** What a verdict has to say about the question it answers. */
  ghost predicate Honest(v: Verdict, fillable: bool, depth: int, maxDepth: int) {
    && (v.answer == Some(true) ==> fillable)
    && (v.answer == Some(false) ==> !fillable)
    && (v.answer == None <==> v.reason == DepthTimeout)
    && (v.answer == None ==> maxDepth != 0 && v.depth == Max(depth, Max(maxDepth, 0)) + 1)
    && (maxDepth != 0 && v.answer != None ==> v.depth <= Max(depth, maxDepth))
    && v.depth >= depth
    && v.reason != InputsExhausted
  }

  lemma {:induction false} ExploreIsHonest(values: seq<int>, buckets: seq<Bucket>, total: int, left: int,
                                           depth: int, maxDepth: int)
    requires NonNegative(values) && total == TotalRemaining(buckets) && left == Sum(values)
    requires depth >= 0 && (maxDepth != 0 ==> depth <= Max(maxDepth, 0))
    ensures Honest(Explore(values, buckets, total, left, depth, maxDepth), CanFill(values, Needs(buckets)), depth,
                   maxDepth)
    decreases |values|, 1, 0
  {
    if total > left {
      if CanFill(values, Needs(buckets)) {
        FillNeedsEnough(values, buckets);
      }
    } else if Active(buckets) == [] {
      NoneActive(buckets);
      CanFillNothingNeeded(values, Needs(buckets));
    } else if values == [] {
      SomethingRemains(buckets);
    } else if !(maxDepth != 0 && depth + 1 > maxDepth) {
      SortedActiveKeeps(values, buckets);
      SortedActiveKeeps(values[..|values| - 1], buckets);
      TryBucketsIsHonest(values, ByRemaining(Active(buckets)), 0, total, left, depth + 1, maxDepth);
    }
  }

  /** Whatever is filled without a value is filled with it in the first bucket. */
  lemma {:induction false} FirstBucketTakesAny(values: seq<int>, needs: seq<int>)
    requires values != [] && NonNegative(values) && needs != []
    ensures FillsVia(values, needs, -1) ==> FillsVia(values, needs, 0)
  {
    var n := |values| - 1;
    if FillsVia(values, needs, -1) { CanFillMonotone(values[..n], needs, needs[0 := needs[0] - values[n]]); }
  }

  /** When no bucket can take the last value, leaving it out cannot help either. */
  lemma {:induction false} NoBucketFills(values: seq<int>, needs: seq<int>)
    requires values != [] && NonNegative(values) && needs != []
    requires forall b | 0 <= b < |needs| :: !FillsVia(values, needs, b)
    ensures !CanFill(values, needs)
  {
    FirstBucketTakesAny(values, needs);
    forall b
      ensures !FillsVia(values, needs, b)
    {
    }
  }

  lemma {:induction false} TryBucketsIsHonest(values: seq<int>, active: seq<Bucket>, index: nat, total: int, left: int,
                                              depth: int, maxDepth: int)
    requires values != [] && index <= |active| && |active| > 0
    requires NonNegative(values) && total == TotalRemaining(active) && left == Sum(values)
    requires depth >= 0 && (maxDepth != 0 ==> depth <= Max(maxDepth, 0))
    requires forall b | 0 <= b < index :: !FillsVia(values, Needs(active), b)
    ensures Honest(TryBuckets(values, active, index, total, left, depth, maxDepth),
                   CanFill(values, Needs(active)), depth, maxDepth)
    decreases |values|, 0, |active| - index
  {
    var n := |values| - 1;
    if index == |active| {
      NoBucketFills(values, Needs(active));
    } else {
      var next := Place(active, index, values[n]);
      TotalAfterPlacing(active, index, values[n]);
      assert Needs(next) == Needs(active)[index := Needs(active)[index] - values[n]];
      ExploreIsHonest(values[..n], next, TotalAfter(active, index, values[n], total), left - values[n], depth,
                      maxDepth);
      var v := Explore(values[..n], next, TotalAfter(active, index, values[n], total), left - values[n], depth,
                       maxDepth);
      assert FillsVia(values, Needs(active), index) == CanFill(values[..n], Needs(next));
      if v.answer == Some(false) {
        TryBucketsIsHonest(values, active, index + 1, total, left, v.depth, maxDepth);
      }
    }
  }

  // ---------------------------------------------------- sorted arguments and totals

  lemma {:induction false} InsertAscendingKeeps(v: int, sorted: seq<int>)
    ensures multiset(InsertAscending(v, sorted)) == multiset(sorted) + multiset{v}
    ensures |InsertAscending(v, sorted)| == |sorted| + 1
    decreases |sorted|
  {
    if !(sorted == [] || sorted[|sorted| - 1] <= v) {
      InsertAscendingKeeps(v, sorted[..|sorted| - 1]);
      assert sorted == sorted[..|sorted| - 1] + [sorted[|sorted| - 1]];
    }
  }

  lemma {:induction false} AscendingKeeps(values: seq<int>)
    ensures multiset(Ascending(values)) == multiset(values) && |Ascending(values)| == |values|
    decreases |values|
  {
    if values != [] {
      var init, last := values[..|values| - 1], values[|values| - 1];
      AscendingKeeps(init);
      InsertAscendingKeeps(last, Ascending(init));
      assert values == init + [last];
    }
  }

  lemma {:induction false} ReversedKeeps(values: seq<int>)
    ensures multiset(Reversed(values)) == multiset(values) && |Reversed(values)| == |values|
    decreases |values|
  {
    if values != [] {
      ReversedKeeps(values[..|values| - 1]);
      assert values == values[..|values| - 1] + [values[|values| - 1]];
    }
  }

  ghost predicate Sorted(values: seq<int>) {
    forall i, j | 0 <= i < j < |values| :: values[i] <= values[j]
  }

  lemma {:induction false} InsertAscendingSorted(v: int, sorted: seq<int>)
    requires Sorted(sorted)
    ensures Sorted(InsertAscending(v, sorted))
    decreases |sorted|
  {
    if !(sorted == [] || sorted[|sorted| - 1] <= v) {
      var init, last := sorted[..|sorted| - 1], sorted[|sorted| - 1];
      InsertAscendingSorted(v, init);
      InsertAscendingKeeps(v, init);
      var r := InsertAscending(v, init);
      forall i | 0 <= i < |r|
        ensures r[i] <= last
      {
        assert r[i] in multiset(r);
      }
      assert InsertAscending(v, sorted) == r + [last];
    }
  }

  /** The library sort: the same values, in order. */
  lemma {:induction false} AscendingSorts(values: seq<int>)
    ensures Sorted(Ascending(values)) && multiset(Ascending(values)) == multiset(values)
    decreases |values|
  {
    AscendingKeeps(values);
    if values != [] {
      AscendingSorts(values[..|values| - 1]);
      InsertAscendingSorted(values[|values| - 1], Ascending(values[..|values| - 1]));
    }
  }

  lemma SortedNonNegative(values: seq<int>)
    requires NonNegative(values)
    ensures NonNegative(Ascending(values))
  {
    AscendingKeeps(values);
    forall i | 0 <= i < |Ascending(values)|
      ensures Ascending(values)[i] >= 0
    {
      assert Ascending(values)[i] in multiset(Ascending(values));
    }
  }

  lemma {:induction false} EmptyTotal(goals: seq<int>)
    requires NonNegative(goals)
    ensures TotalRemaining(Empty(goals)) == Sum(goals)
    decreases |goals|
  {
    if goals != [] {
      EmptyTotal(goals[..|goals| - 1]);
      assert Empty(goals)[..|goals| - 1] == Empty(goals[..|goals| - 1]);
    }
  }

  lemma DescendingNonNegative(goals: seq<int>)
    requires NonNegative(goals)
    ensures NonNegative(Descending(goals)) && multiset(Descending(goals)) == multiset(goals)
  {
    AscendingKeeps(goals);
    ReversedKeeps(Ascending(goals));
    forall i | 0 <= i < |Descending(goals)|
      ensures Descending(goals)[i] >= 0
    {
      assert Descending(goals)[i] in multiset(Descending(goals));
    }
  }

  lemma SameFillability(values: seq<int>, goals: seq<int>)
    requires NonNegative(values) && NonNegative(goals)
    ensures CanFill(Ascending(values), Needs(Empty(Descending(goals)))) <==> Fillable(values, goals)
  {
    var sorted, targets := Ascending(values), Descending(goals);
    DescendingNonNegative(goals);
    assert Needs(Empty(targets)) == targets;
    SameMultisetSameOpen(targets, goals);
    SameOpenSameFill(values, targets, goals);
    SortingKeepsFill(values, |targets|);
    if CanFill(values, goals) {
      CanFillThenFillable(values, goals);
    }
    if Fillable(values, goals) {
      var to :| Fills(values, goals, to);
      FillsThenCanFill(values, goals, to);
    }
  }

  // ------------------------------------------------------------------ main results

  /**
   The verdict is never wrong, with or without a limit; it is undecided only on a depth
   timeout, the counter stays within one of the limit, and the inputs never run out first.
   */
  lemma SubsetResultIsHonest(values: seq<int>, goals: seq<int>, maxDepth: int)
    requires NonNegative(values) && NonNegative(goals)
    ensures Honest(SubsetResult(values, goals, maxDepth), Fillable(values, goals), 0, maxDepth)
  {
    SortedNonNegative(values);
    DescendingNonNegative(goals);
    EmptyTotal(Descending(goals));
    ExploreIsHonest(Ascending(values), Empty(Descending(goals)), Sum(Descending(goals)), Sum(Ascending(values)), 0,
                    maxDepth);
    SameFillability(values, goals);
  }

  /** Without a limit the search decides: True exactly when some assignment fills every goal. */
  lemma UnlimitedSearchDecides(values: seq<int>, goals: seq<int>)
    requires NonNegative(values) && NonNegative(goals)
    ensures SubsetResult(values, goals, 0).answer == Some(Fillable(values, goals))
  {
    SubsetResultIsHonest(values, goals, 0);
    match SubsetResult(values, goals, 0).answer {
      case None =>
      case Some(filled) =>
    }
  }

  /** The unlimited verdict, cut off where its counter passes the limit. */
  function CutOff(v: Verdict, limit: int): Verdict {
    if v.depth <= Max(limit, 0) then v else Verdict(None, DepthTimeout, Max(limit, 0) + 1)
  }

  lemma {:induction false} ExploreWithLimit(values: seq<int>, buckets: seq<Bucket>, total: int, left: int,
                                            depth: int, maxDepth: int)
    requires maxDepth != 0 && 0 <= depth <= Max(maxDepth, 0)
    ensures Explore(values, buckets, total, left, depth, maxDepth)
         == CutOff(Explore(values, buckets, total, left, depth, 0), maxDepth)
    ensures Explore(values, buckets, total, left, depth, 0).depth >= depth
    ensures Explore(values, buckets, total, left, depth, 0).answer != None
    decreases |values|, 1, 0
  {
    if total <= left && Active(buckets) != [] && values != [] {
      if depth + 1 > maxDepth {
        TryBucketsCounts(values, ByRemaining(Active(buckets)), 0, total, left, depth + 1);
      } else {
        TryBucketsWithLimit(values, ByRemaining(Active(buckets)), 0, total, left, depth + 1, maxDepth);
      }
    }
  }

  lemma {:induction false} TryBucketsWithLimit(values: seq<int>, active: seq<Bucket>, index: nat, total: int, left: int,
                                               depth: int, maxDepth: int)
    requires values != [] && index <= |active|
    requires maxDepth != 0 && 0 <= depth <= Max(maxDepth, 0)
    ensures TryBuckets(values, active, index, total, left, depth, maxDepth)
         == CutOff(TryBuckets(values, active, index, total, left, depth, 0), maxDepth)
    ensures TryBuckets(values, active, index, total, left, depth, 0).depth >= depth
    ensures TryBuckets(values, active, index, total, left, depth, 0).answer != None
    decreases |values|, 0, |active| - index
  {
    if index < |active| {
      var n := |values| - 1;
      var next, rest := Place(active, index, values[n]), TotalAfter(active, index, values[n], total);
      ExploreWithLimit(values[..n], next, rest, left - values[n], depth, maxDepth);
      var v := Explore(values[..n], next, rest, left - values[n], depth, 0);
      if v.answer == Some(false) {
        if v.depth <= Max(maxDepth, 0) {
          TryBucketsWithLimit(values, active, index + 1, total, left, v.depth, maxDepth);
        } else {
          TryBucketsCounts(values, active, index + 1, total, left, v.depth);
        }
      }
    }
  }

  /** Without a limit the counter only grows and a verdict is always reached. */
  lemma {:induction false} ExploreCounts(values: seq<int>, buckets: seq<Bucket>, total: int, left: int, depth: int)
    ensures Explore(values, buckets, total, left, depth, 0).depth >= depth
    ensures Explore(values, buckets, total, left, depth, 0).answer != None
    decreases |values|, 1, 0
  {
    if total <= left && Active(buckets) != [] && values != [] {
      TryBucketsCounts(values, ByRemaining(Active(buckets)), 0, total, left, depth + 1);
    }
  }

  lemma {:induction false} TryBucketsCounts(values: seq<int>, active: seq<Bucket>, index: nat, total: int, left: int,
                                            depth: int)
    requires values != [] && index <= |active|
    ensures TryBuckets(values, active, index, total, left, depth, 0).depth >= depth
    ensures TryBuckets(values, active, index, total, left, depth, 0).answer != None
    decreases |values|, 0, |active| - index
  {
    if index < |active| {
      var n := |values| - 1;
      var next, rest := Place(active, index, values[n]), TotalAfter(active, index, values[n], total);
      ExploreCounts(values[..n], next, rest, left - values[n], depth);
      var v := Explore(values[..n], next, rest, left - values[n], depth, 0);
      if v.answer == Some(false) {
        TryBucketsCounts(values, active, index + 1, total, left, v.depth);
      }
    }
  }

  /**
   A limit only cuts the search off: on any input whatsoever, the limited call returns the
   unlimited verdict when that needs no more steps than the limit, and times out otherwise.
   */
  lemma LimitOnlyCutsOff(values: seq<int>, goals: seq<int>, maxDepth: int)
    requires maxDepth != 0
    ensures SubsetResult(values, goals, maxDepth) == CutOff(SubsetResult(values, goals, 0), maxDepth)
  {
    ExploreWithLimit(Ascending(values), Empty(Descending(goals)), Sum(Descending(goals)), Sum(Ascending(values)), 0,
                     maxDepth);
  }

  /** A decided answer is unchanged by any larger limit, and by none. */
  lemma DecidedAnswerIsStable(values: seq<int>, goals: seq<int>, maxDepth: int, larger: int)
    requires SubsetResult(values, goals, maxDepth).answer != None
    requires maxDepth != 0 && (larger == 0 || larger >= maxDepth)
    ensures SubsetResult(values, goals, larger) == SubsetResult(values, goals, maxDepth)
  {
    LimitOnlyCutsOff(values, goals, maxDepth);
    if larger != 0 {
      LimitOnlyCutsOff(values, goals, larger);
    }
  }

  // -------------------------------------------------------- every value in some bucket

  function PlaceUnused(to: seq<int>): seq<int> {
    seq(|to|, i requires 0 <= i < |to| => if to[i] == -1 then 0 else to[i])
  }

  lemma {:induction false} PlacingUnusedOnlyAdds(values: seq<int>, to: seq<int>, b: int)
    requires |to| == |values| && NonNegative(values) && b >= 0
    ensures Load(values, PlaceUnused(to), b) >= Load(values, to, b)
    decreases |values|
  {
    if values != [] {
      var n := |values| - 1;
      assert PlaceUnused(to)[..n] == PlaceUnused(to[..n]);
      PlacingUnusedOnlyAdds(values[..n], to[..n], b);
    }
  }

  /** With a bucket to put it in, leaving a value unused is never needed. */
  lemma EveryValueCanBePlaced(values: seq<int>, goals: seq<int>)
    requires NonNegative(values) && goals != []
    ensures Fillable(values, goals) <==> exists to :: Fills(values, goals, to) && -1 !in to
  {
    if Fillable(values, goals) {
      var to :| Fills(values, goals, to);
      var placed := PlaceUnused(to);
      forall b | 0 <= b < |goals|
        ensures Load(values, placed, b) >= goals[b]
      {
        PlacingUnusedOnlyAdds(values, to, b);
      }
      assert Fills(values, goals, placed) && -1 !in placed;
    }
  }

  // ------------------------------------------------------------ the values searched

  datatype InputRecord = InputRecord(address: Option<string>, value: Option<int>)

  /** What one address contributes: the values of its records that have one. */
  function AddressTotal(inputs: seq<InputRecord>, address: string): int {
    if inputs == [] then 0
    else
      var n := |inputs| - 1;
      AddressTotal(inputs[..n], address)
      + if inputs[n].address == Some(address) && inputs[n].value.Some? then inputs[n].value.value else 0
  }

  ghost predicate Contributes(inputs: seq<InputRecord>, address: string) {
    exists i | 0 <= i < |inputs| :: inputs[i].address == Some(address) && inputs[i].value.Some?
  }

  method GroupedInputValuesByAddress(inputs: seq<InputRecord>) returns (grouped: map<string, int>)
    ensures forall a :: a in grouped <==> Contributes(inputs, a)
    ensures forall a | a in grouped :: grouped[a] == AddressTotal(inputs, a)
  {
    grouped := map[];
    for i := 0 to |inputs|
      invariant forall a :: a in grouped <==> Contributes(inputs[..i], a)
      invariant forall a | a in grouped :: grouped[a] == AddressTotal(inputs[..i], a)
      invariant forall a | a !in grouped :: AddressTotal(inputs[..i], a) == 0
    {
      assert inputs[..i + 1][..i] == inputs[..i];
      var record := inputs[i];
      if record.address.Some? && record.value.Some? {
        var address := record.address.value;
        grouped := grouped[address := (if address in grouped then grouped[address] else 0) + record.value.value];
        assert inputs[..i + 1][i] == record;
      }
      forall a
        ensures Contributes(inputs[..i + 1], a)
           <==> Contributes(inputs[..i], a) || (record.address == Some(a) && record.value.Some?)
      {
        ContributesStep(inputs, i, a);
      }
    }
    assert inputs[..|inputs|] == inputs;
  }

  lemma ContributesStep(inputs: seq<InputRecord>, i: nat, a: string)
    requires i < |inputs|
    ensures Contributes(inputs[..i + 1], a)
       <==> Contributes(inputs[..i], a) || (inputs[i].address == Some(a) && inputs[i].value.Some?)
  {
    if Contributes(inputs[..i], a) {
      var k :| 0 <= k < i && inputs[..i][k].address == Some(a) && inputs[..i][k].value.Some?;
      assert inputs[..i + 1][k] == inputs[..i][k];
    }
    assert inputs[..i + 1][i] == inputs[i];
    if Contributes(inputs[..i + 1], a) {
      var k :| 0 <= k < i + 1 && inputs[..i + 1][k].address == Some(a) && inputs[..i + 1][k].value.Some?;
      if k < i { assert inputs[..i][k] == inputs[..i + 1][k]; }
    }
  }

  /** Non-negative records give the search the non-negative values its results need. */
  lemma {:induction false} AddressTotalNonNegative(inputs: seq<InputRecord>, address: string)
    requires forall i | 0 <= i < |inputs| && inputs[i].value.Some? :: inputs[i].value.value >= 0
    ensures AddressTotal(inputs, address) >= 0
    decreases |inputs|
  {
    if inputs != [] {
      AddressTotalNonNegative(inputs[..|inputs| - 1], address);
    }
  }
}
