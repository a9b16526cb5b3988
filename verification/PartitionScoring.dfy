/**
 Scoring predicted address clusters against wallets by pairs: the pairs of a partition, how
 many there are, and what zero false positives and false negatives mean.

 An address stands for its place in Python's order of strings.
*/
module PartitionScoring {
  import opened MapSums

  type Address = nat
  type Label = string

  /** The pairs that share a label, the smaller address first. */
  function PairsOf(labels: map<Address, Label>): set<(Address, Address)> {
    set a, b | a in labels.Keys && b in labels.Keys && a < b && labels[a] == labels[b] :: (a, b)
  }

  function PairsWithin(addresses: set<Address>): set<(Address, Address)> {
    set a, b | a in addresses && b in addresses && a < b :: (a, b)
  }

  function Group(labels: map<Address, Label>, owner: Label): set<Address> {
    set a | a in labels && labels[a] == owner
  }

  // ---------------------------------------------------------------- the pairs of a group

  predicate Ascending(addresses: seq<Address>) {
    forall i, j | 0 <= i < j < |addresses| :: addresses[i] < addresses[j]
  }

  predicate NoRepeats<T(==)>(items: seq<T>) {
    forall i, j | 0 <= i < j < |items| :: items[i] != items[j]
  }

  function Insert(addresses: seq<Address>, a: Address): seq<Address> {
    if addresses == [] || addresses[|addresses| - 1] < a then addresses + [a]
    else Insert(addresses[..|addresses| - 1], a) + [addresses[|addresses| - 1]]
  }

  lemma {:induction false} InsertMembers(addresses: seq<Address>, a: Address, x: Address)
    ensures x in Insert(addresses, a) <==> x in addresses || x == a
    decreases |addresses|
  {
    if addresses != [] {
      var before, last := addresses[..|addresses| - 1], addresses[|addresses| - 1];
      assert addresses == before + [last];
      if last >= a { InsertMembers(before, a, x); }
    }
  }

  lemma LastIsHighest(addresses: seq<Address>, x: Address)
    requires Ascending(addresses) && x in addresses
    ensures x <= addresses[|addresses| - 1]
  {
    var i :| 0 <= i < |addresses| && addresses[i] == x;
  }

  lemma {:induction false} InsertKeepsOrder(addresses: seq<Address>, a: Address)
    requires Ascending(addresses) && a !in addresses
    ensures Ascending(Insert(addresses, a))
    decreases |addresses|
  {
    if addresses != [] {
      var before, last := addresses[..|addresses| - 1], addresses[|addresses| - 1];
      assert last in addresses;
      if last >= a {
        InsertKeepsOrder(before, a);
        forall i | 0 <= i < |Insert(before, a)|
          ensures Insert(before, a)[i] < last
        {
          var x := Insert(before, a)[i];
          InsertMembers(before, a, x);
          if x in before { var j :| 0 <= j < |before| && before[j] == x; }
        }
      } else {
        forall i | 0 <= i < |addresses|
          ensures addresses[i] < a
        {
          LastIsHighest(addresses, addresses[i]);
        }
      }
    }
  }

  /** `sorted` on a group's items, which are distinct. */
  method SortGroup(items: seq<Address>) returns (ordered: seq<Address>)
    requires NoRepeats(items)
    ensures Ascending(ordered) && forall a :: a in ordered <==> a in items
  {
    ordered := [];
    for k := 0 to |items|
      invariant Ascending(ordered) && forall a :: a in ordered <==> a in items[..k]
    {
      assert items[..k + 1] == items[..k] + [items[k]];
      assert items[k] !in items[..k];
      InsertKeepsOrder(ordered, items[k]);
      forall a
        ensures a in Insert(ordered, items[k]) <==> a in items[..k + 1]
      {
        InsertMembers(ordered, items[k], a);
      }
      ordered := Insert(ordered, items[k]);
    }
    assert items[..|items|] == items;
  }

  /** The two loops over a sorted group: every item with each item after it. */
  method GroupPairs(ordered: seq<Address>) returns (pairs: set<(Address, Address)>)
    requires Ascending(ordered)
    ensures forall a, b :: (a, b) in pairs <==> a in ordered && b in ordered && a < b
  {
    pairs := {};
    for i := 0 to |ordered|
      invariant forall a, b :: (a, b) in pairs <==> a in ordered[..i] && b in ordered && a < b
    {
      ghost var before := pairs;
      for j := i + 1 to |ordered|
        invariant forall a, b :: (a, b) in pairs <==>
                    (a, b) in before || (a == ordered[i] && b in ordered[i + 1..j])
      {
        assert ordered[i + 1..j + 1] == ordered[i + 1..j] + [ordered[j]];
        pairs := pairs + {(ordered[i], ordered[j])};
      }
      LaterIsGreater(ordered, i);
      assert ordered[..i + 1] == ordered[..i] + [ordered[i]];
    }
    assert ordered[..|ordered|] == ordered;
  }

  lemma LaterIsGreater(ordered: seq<Address>, i: nat)
    requires Ascending(ordered) && i < |ordered|
    ensures forall b :: b in ordered[i + 1..] <==> b in ordered && ordered[i] < b
    ensures ordered[i + 1..|ordered|] == ordered[i + 1..]
  {
    forall b | b in ordered && ordered[i] < b
      ensures b in ordered[i + 1..]
    {
      var k :| 0 <= k < |ordered| && ordered[k] == b;
      assert ordered[i + 1..][k - i - 1] == b;
    }
  }

  lemma SameTuples(some: set<(Address, Address)>, others: set<(Address, Address)>)
    requires forall a, b :: (a, b) in some <==> (a, b) in others
    ensures some == others
  {
    forall p
      ensures p in some <==> p in others
    {
      assert p == (p.0, p.1);
    }
  }

  /** The pairs of some of the groups. */
  function PairsAmong(labels: map<Address, Label>, owners: set<Label>): set<(Address, Address)> {
    set a, b | a in labels.Keys && b in labels.Keys && a < b && labels[a] == labels[b] && labels[a] in owners :: (a, b)
  }

  lemma OneMoreGroup(labels: map<Address, Label>, owners: set<Label>, owner: Label)
    ensures PairsAmong(labels, owners + {owner}) == PairsAmong(labels, owners) + PairsWithin(Group(labels, owner))
    ensures owner !in owners ==> PairsAmong(labels, owners) !! PairsWithin(Group(labels, owner))
  {
    SameTuples(PairsAmong(labels, owners + {owner}), PairsAmong(labels, owners) + PairsWithin(Group(labels, owner)));
  }

  lemma AllGroups(labels: map<Address, Label>, owners: set<Label>)
    requires labels.Values <= owners
    ensures PairsAmong(labels, owners) == PairsOf(labels)
  {
    SameTuples(PairsAmong(labels, owners), PairsOf(labels));
  }

  /** `pairs_by_partition`: group the items by label, then pair up each sorted group. */
  method PairsByPartition(items: seq<Address>, labels: map<Address, Label>) returns (pairs: set<(Address, Address)>)
    requires NoRepeats(items) && forall a :: a in items <==> a in labels
    ensures pairs == PairsOf(labels)
  {
    var grouped := GroupByLabel(items, labels);
    pairs := {};
    var remaining := grouped.Keys;
    ghost var covered: set<Label> := {};
    while remaining != {}
      invariant covered + remaining == grouped.Keys
      invariant pairs == PairsAmong(labels, covered)
      decreases |remaining|
    {
      var owner :| owner in remaining;
      var more := PairsOfItems(grouped[owner], Group(labels, owner));
      OneMoreGroup(labels, covered, owner);
      pairs, remaining, covered := pairs + more, remaining - {owner}, covered + {owner};
    }
    AllLabelsGrouped(items, labels, grouped);
    AllGroups(labels, covered);
  }

  lemma AllLabelsGrouped(items: seq<Address>, labels: map<Address, Label>, grouped: map<Label, seq<Address>>)
    requires forall a :: a in items <==> a in labels
    requires forall owner, a :: owner in grouped && a in grouped[owner] <==> a in items && labels[a] == owner
    ensures labels.Values <= grouped.Keys
  {
    forall owner | owner in labels.Values
      ensures owner in grouped
    {
      var a :| a in labels && labels[a] == owner;
      assert a in items;
    }
  }

  /** One group: sort it, pair it up. */
  method PairsOfItems(items: seq<Address>, ghost addresses: set<Address>) returns (pairs: set<(Address, Address)>)
    requires NoRepeats(items) && forall a :: a in items <==> a in addresses
    ensures pairs == PairsWithin(addresses)
  {
    var ordered := SortGroup(items);
    pairs := GroupPairs(ordered);
    SameTuples(pairs, PairsWithin(addresses));
  }

  /** The dictionary of groups: for each label its items, in the order they come. */
  method GroupByLabel(items: seq<Address>, labels: map<Address, Label>) returns (grouped: map<Label, seq<Address>>)
    requires NoRepeats(items) && forall a | a in items :: a in labels
    ensures forall owner | owner in grouped :: NoRepeats(grouped[owner])
    ensures forall owner, a :: owner in grouped && a in grouped[owner] <==> a in items && labels[a] == owner
  {
    grouped := map[];
    for k := 0 to |items|
      invariant forall owner | owner in grouped :: NoRepeats(grouped[owner])
      invariant forall owner, a :: owner in grouped && a in grouped[owner] <==> a in items[..k] && labels[a] == owner
    {
      assert items[..k + 1] == items[..k] + [items[k]];
      assert items[k] !in items[..k];
      var owner := labels[items[k]];
      if owner in grouped {
        grouped := grouped[owner := grouped[owner] + [items[k]]];
      } else {
        grouped := grouped[owner := [items[k]]];
      }
    }
    assert items[..|items|] == items;
  }

  // ------------------------------------------------------------------- counting pairs

  function Choose2(n: nat): nat {
    n * (n - 1) / 2
  }

  /** 0 + 1 + ... + (n - 1). */
  function Triangle(n: nat): nat {
    if n == 0 then 0 else Triangle(n - 1) + (n - 1)
  }

  lemma {:induction false} TriangleIsChoose2(n: nat)
    ensures Triangle(n) == Choose2(n)
    decreases n
  {
    if n > 0 {
      TriangleIsChoose2(n - 1);
      assert n * (n - 1) == (n - 1) * (n - 2) + 2 * (n - 1);
    }
  }

  function WithTop(addresses: set<Address>, top: Address): set<(Address, Address)> {
    set a | a in addresses :: (a, top)
  }

  lemma {:induction false} WithTopCount(addresses: set<Address>, top: Address)
    ensures |WithTop(addresses, top)| == |addresses|
    decreases |addresses|
  {
    if addresses == {} {
      assert WithTop(addresses, top) == {};
    } else {
      var a :| a in addresses;
      WithTopCount(addresses - {a}, top);
      SameTuples(WithTop(addresses, top), WithTop(addresses - {a}, top) + {(a, top)});
    }
  }

  lemma {:induction false} Highest(addresses: set<Address>) returns (top: Address)
    requires addresses != {}
    ensures top in addresses && forall a | a in addresses :: a <= top
    decreases |addresses|
  {
    var a :| a in addresses;
    var others := addresses - {a};
    if others == {} {
      assert addresses == {a};
      top := a;
    } else {
      var rest := Highest(others);
      top := if rest > a then rest else a;
      assert addresses == others + {a};
    }
  }

  lemma PairsSplitAtTop(rest: set<Address>, top: Address)
    requires top !in rest && forall a | a in rest :: a < top
    ensures PairsWithin(rest + {top}) == PairsWithin(rest) + WithTop(rest, top)
    ensures PairsWithin(rest) !! WithTop(rest, top)
  {
    SameTuples(PairsWithin(rest + {top}), PairsWithin(rest) + WithTop(rest, top));
  }

  lemma DisjointCount(some: set<(Address, Address)>, others: set<(Address, Address)>)
    requires some !! others
    ensures |some + others| == |some| + |others|
  {
  }

  lemma PairsWithOneMore(rest: set<Address>, top: Address)
    requires top !in rest && forall a | a in rest :: a < top
    ensures |PairsWithin(rest + {top})| == |PairsWithin(rest)| + |rest|
  {
    PairsSplitAtTop(rest, top);
    DisjointCount(PairsWithin(rest), WithTop(rest, top));
    WithTopCount(rest, top);
  }

  lemma {:induction false} PairsPileUp(addresses: set<Address>)
    ensures |PairsWithin(addresses)| == Triangle(|addresses|)
    decreases |addresses|
  {
    if addresses == {} {
      assert PairsWithin(addresses) == {};
    } else {
      var top := Highest(addresses);
      var rest := addresses - {top};
      PairsPileUp(rest);
      PairsWithOneMore(rest, top);
      assert addresses == rest + {top};
    }
  }

  /** A group of n items has n(n-1)/2 pairs. */
  lemma PairsOfGroupCount(addresses: set<Address>)
    ensures |PairsWithin(addresses)| == Choose2(|addresses|)
  {
    PairsPileUp(addresses);
    TriangleIsChoose2(|addresses|);
  }

  /** The group sizes, chosen two by two. */
  function GroupChoices(labels: map<Address, Label>, owners: set<Label>): map<Label, int> {
    map owner | owner in owners :: Choose2(|Group(labels, owner)|)
  }

  lemma {:induction false} PairsAmongCount(labels: map<Address, Label>, owners: set<Label>)
    ensures |PairsAmong(labels, owners)| == MapSum(GroupChoices(labels, owners))
    decreases |owners|
  {
    if owners == {} {
      assert PairsAmong(labels, owners) == {};
    } else {
      var owner :| owner in owners;
      var rest := owners - {owner};
      PairsAmongCount(labels, rest);
      PairsOfGroupCount(Group(labels, owner));
      OneMoreGroup(labels, rest, owner);
      assert rest + {owner} == owners;
      MapSumInsert(GroupChoices(labels, rest), owner, Choose2(|Group(labels, owner)|));
      assert GroupChoices(labels, rest)[owner := Choose2(|Group(labels, owner)|)] == GroupChoices(labels, owners);
    }
  }

  /** A partition has as many pairs as its groups have together: the sum of n(n-1)/2. */
  lemma PairCount(labels: map<Address, Label>)
    ensures |PairsOf(labels)| == MapSum(GroupChoices(labels, labels.Values))
  {
    PairsAmongCount(labels, labels.Values);
    AllGroups(labels, labels.Values);
  }

  // ---------------------------------------------------------------------- the scores

  /** The two partitions restricted to the addresses both know. */
  function Comparable(labels: map<Address, Label>, others: map<Address, Label>): map<Address, Label> {
    map a | a in labels && a in others :: labels[a]
  }

  /** The labels of one partition that occur within a group of the other. */
  function LabelsWithin(groups: map<Address, Label>, labels: map<Address, Label>, group: Label): set<Label> {
    set a | a in groups && a in labels && groups[a] == group :: labels[a]
  }

  /** The groups that mix several labels: overmerged clusters, or undermerged wallets. */
  function Mixed(groups: map<Address, Label>, labels: map<Address, Label>): set<Label> {
    set a | a in groups && |LabelsWithin(groups, labels, groups[a])| > 1 :: groups[a]
  }

  datatype Scores = Scores(
    truePositives: nat,
    falsePositives: nat,
    falseNegatives: nat,
    overmerged: set<Label>,
    undermerged: set<Label>)

  /** The dictionary from each group to the labels found in it. */
  method LabelsByGroup(items: seq<Address>, groups: map<Address, Label>, labels: map<Address, Label>)
    returns (found: map<Label, set<Label>>)
    requires forall a | a in items :: a in groups && a in labels
    requires forall a | a in groups :: a in items
    ensures found.Keys == groups.Values
    ensures forall group | group in found :: found[group] == LabelsWithin(groups, labels, group)
  {
    found := map[];
    for k := 0 to |items|
      invariant forall group :: group in found <==> exists i :: 0 <= i < k && groups[items[i]] == group
      invariant forall group, l :: group in found && l in found[group] <==>
                  exists i :: 0 <= i < k && groups[items[i]] == group && labels[items[i]] == l
    {
      var group, l := groups[items[k]], labels[items[k]];
      found := found[group := (if group in found then found[group] else {}) + {l}];
    }
    forall group | group in found
      ensures found[group] == LabelsWithin(groups, labels, group)
    {
      forall l | l in LabelsWithin(groups, labels, group)
        ensures l in found[group]
      {
        var a :| a in groups && a in labels && groups[a] == group && labels[a] == l;
        var i :| 0 <= i < |items| && items[i] == a;
      }
    }
    forall group | group in groups.Values
      ensures group in found
    {
      var a :| a in groups && groups[a] == group;
      var i :| 0 <= i < |items| && items[i] == a;
    }
  }

  /** The groups whose found labels are more than one. */
  method MixedGroups(found: map<Label, set<Label>>) returns (mixed: set<Label>)
    ensures mixed == set group | group in found && |found[group]| > 1
  {
    mixed := set group | group in found && |found[group]| > 1;
  }

  /** `evaluate_cluster_assignments` on the comparable addresses. */
  method EvaluateClusters(items: seq<Address>, wallets: map<Address, Label>, clusters: map<Address, Label>)
    returns (scores: Scores)
    requires NoRepeats(items) && forall a :: a in items <==> a in wallets && a in clusters
    ensures var truth, predicted := Comparable(wallets, clusters), Comparable(clusters, wallets);
            && scores.truePositives + scores.falsePositives == |PairsOf(predicted)|
            && scores.truePositives + scores.falseNegatives == |PairsOf(truth)|
            && scores.truePositives == |PairsOf(truth) * PairsOf(predicted)|
            && scores.overmerged == Mixed(predicted, truth)
            && scores.undermerged == Mixed(truth, predicted)
  {
    var truth, predicted := Comparable(wallets, clusters), Comparable(clusters, wallets);
    var truthPairs := PairsByPartition(items, truth);
    var predictedPairs := PairsByPartition(items, predicted);
    var walletsByCluster := LabelsByGroup(items, predicted, truth);
    var clustersByWallet := LabelsByGroup(items, truth, predicted);
    var overmerged := MixedGroups(walletsByCluster);
    var undermerged := MixedGroups(clustersByWallet);
    scores := Scores(|truthPairs * predictedPairs|, |predictedPairs - truthPairs|, |truthPairs - predictedPairs|,
                     overmerged, undermerged);
    SplitCount(predictedPairs, truthPairs);
    SplitCount(truthPairs, predictedPairs);
    assert truthPairs * predictedPairs == predictedPairs * truthPairs;
    MixedAgain(predicted, truth, walletsByCluster, overmerged);
    MixedAgain(truth, predicted, clustersByWallet, undermerged);
  }

  lemma MixedAgain(groups: map<Address, Label>, labels: map<Address, Label>, found: map<Label, set<Label>>,
                   mixed: set<Label>)
    requires found.Keys == groups.Values
    requires forall group | group in found :: found[group] == LabelsWithin(groups, labels, group)
    requires mixed == set group | group in found && |found[group]| > 1
    ensures mixed == Mixed(groups, labels)
  {
    forall group | group in mixed
      ensures group in Mixed(groups, labels)
    {
      assert group in groups.Values;
      var a :| a in groups && groups[a] == group;
    }
  }

  lemma SplitCount(some: set<(Address, Address)>, others: set<(Address, Address)>)
    ensures |some| == |some * others| + |some - others|
  {
    assert some == some * others + (some - others);
  }

  // ----------------------------------------------------------------- what zero means

  /** Addresses together in `finer` are together in `coarser`. */
  ghost predicate Respects(finer: map<Address, Label>, coarser: map<Address, Label>) {
    forall a, b | a in finer && b in finer && a in coarser && b in coarser && finer[a] == finer[b] ::
      coarser[a] == coarser[b]
  }

  lemma PairsInclusion(finer: map<Address, Label>, coarser: map<Address, Label>)
    requires finer.Keys == coarser.Keys
    ensures PairsOf(finer) <= PairsOf(coarser) <==> Respects(finer, coarser)
  {
    if PairsOf(finer) <= PairsOf(coarser) {
      forall a, b | a in finer && b in finer && finer[a] == finer[b]
        ensures coarser[a] == coarser[b]
      {
        if a < b { assert (a, b) in PairsOf(finer); }
        if b < a { assert (b, a) in PairsOf(finer); }
      }
    }
  }

  lemma OnlyOne<T>(s: set<T>, x: T, y: T)
    requires |s| <= 1 && x in s && y in s
    ensures x == y
  {
    assert s == {x, y} + (s - {x, y});
  }

  lemma AllTheSame<T>(s: set<T>)
    requires forall x, y | x in s && y in s :: x == y
    ensures |s| <= 1
  {
    if s != {} {
      var x :| x in s;
      assert s == {x};
    }
  }

  /** No group mixes labels exactly when addresses together in a group share their label. */
  lemma NothingMixed(groups: map<Address, Label>, labels: map<Address, Label>)
    requires groups.Keys == labels.Keys
    ensures Mixed(groups, labels) == {} <==> Respects(groups, labels)
  {
    if Mixed(groups, labels) == {} {
      forall a, b | a in groups && b in groups && groups[a] == groups[b]
        ensures labels[a] == labels[b]
      {
        var within := LabelsWithin(groups, labels, groups[a]);
        assert labels[a] in within && labels[b] in within;
        assert groups[a] !in Mixed(groups, labels);
        OnlyOne(within, labels[a], labels[b]);
      }
    }
    if Respects(groups, labels) {
      forall a | a in groups
        ensures |LabelsWithin(groups, labels, groups[a])| <= 1
      {
        AllTheSame(LabelsWithin(groups, labels, groups[a]));
      }
    }
  }

  lemma NothingLeft(some: set<(Address, Address)>, others: set<(Address, Address)>)
    ensures |some - others| == 0 <==> some <= others
  {
    if some - others == {} {
      forall p | p in some
        ensures p in others
      {
        assert p !in some - others;
      }
    }
  }

  /** No false positive pair exactly when no cluster is overmerged. */
  lemma NoFalsePositives(truth: map<Address, Label>, predicted: map<Address, Label>)
    requires truth.Keys == predicted.Keys
    ensures |PairsOf(predicted) - PairsOf(truth)| == 0 <==> Mixed(predicted, truth) == {}
  {
    PairsInclusion(predicted, truth);
    NothingMixed(predicted, truth);
    NothingLeft(PairsOf(predicted), PairsOf(truth));
  }

  /** No false negative pair exactly when no wallet is undermerged. */
  lemma NoFalseNegatives(truth: map<Address, Label>, predicted: map<Address, Label>)
    requires truth.Keys == predicted.Keys
    ensures |PairsOf(truth) - PairsOf(predicted)| == 0 <==> Mixed(truth, predicted) == {}
  {
    NoFalsePositives(predicted, truth);
  }

  /** The same addresses are together in both. */
  ghost predicate SamePartition(truth: map<Address, Label>, predicted: map<Address, Label>) {
    forall a, b | a in truth && b in truth && a in predicted && b in predicted ::
      truth[a] == truth[b] <==> predicted[a] == predicted[b]
  }

  /** Both are zero exactly when the two partitions coincide, whatever their groups are called. */
  lemma PerfectScoreIsSamePartition(truth: map<Address, Label>, predicted: map<Address, Label>)
    requires truth.Keys == predicted.Keys
    ensures |PairsOf(predicted) - PairsOf(truth)| == 0 && |PairsOf(truth) - PairsOf(predicted)| == 0
       <==> SamePartition(truth, predicted)
  {
    NoFalsePositives(truth, predicted);
    NoFalseNegatives(truth, predicted);
    NothingMixed(predicted, truth);
    NothingMixed(truth, predicted);
  }
}
