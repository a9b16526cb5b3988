/**
 Conservation of the pool: at every prefix the interim liquidity is the fees paid so far
 plus the outputs that stay or are still to be remixed, and the unmoved window is the value
 of the slow ones among them.
*/
module LiquidityConservation {
  import opened Common
  import opened Liquidity
  import opened MapSums

  // ------------------------------------------------------------- history of outpoints

  /** Every output created so far, by outpoint. */
  function Created(coinjoins: seq<Coinjoin>): map<Outpoint, OutItem> {
    if coinjoins == [] then map[]
    else
      var n := |coinjoins| - 1;
      Created(coinjoins[..n]) + CreatedBy(coinjoins[n].txid, coinjoins[n].outputs)
  }

  function CreatedBy(txid: string, outputs: seq<OutItem>): map<Outpoint, OutItem> {
    if outputs == [] then map[]
    else
      var n := |outputs| - 1;
      CreatedBy(txid, outputs[..n])[(txid, outputs[n].index) := outputs[n]]
  }

  /** The outpoints the selected inputs spend. */
  function InputKeys(inputs: seq<InItem>, owners: Option<set<string>>): set<Outpoint> {
    if inputs == [] then {}
    else
      var n := |inputs| - 1;
      InputKeys(inputs[..n], owners)
      + if Owned(inputs[n].wallet, owners) && Key(inputs[n]).Some? then {Key(inputs[n]).value} else {}
  }

  function SpentKeys(coinjoins: seq<Coinjoin>, owners: Option<set<string>>): set<Outpoint> {
    if coinjoins == [] then {}
    else
      var n := |coinjoins| - 1;
      SpentKeys(coinjoins[..n], owners) + InputKeys(coinjoins[n].inputs, owners)
  }

  /** The value of the selected outputs of a group that are not among the spent outpoints. */
  function OutstandingOf(txid: string, outputs: seq<OutItem>, spent: set<Outpoint>, field: Field,
                         owners: Option<set<string>>, group: Group): int
  {
    if outputs == [] then 0
    else
      var n := |outputs| - 1;
      OutstandingOf(txid, outputs[..n], spent, field, owners, group)
      + if Owned(outputs[n].wallet, owners) && InGroup(outputs[n], field, group) && (txid, outputs[n].index) !in spent
        then ValueOf(outputs[n].value) else 0
  }

  function Outstanding(coinjoins: seq<Coinjoin>, spent: set<Outpoint>, field: Field, owners: Option<set<string>>,
                       group: Group): int
  {
    if coinjoins == [] then 0
    else
      var n := |coinjoins| - 1;
      Outstanding(coinjoins[..n], spent, field, owners, group)
      + OutstandingOf(coinjoins[n].txid, coinjoins[n].outputs, spent, field, owners, group)
  }

  // ---------------------------------------------------------------------- premises

  ghost predicate DistinctIndexes(outputs: seq<OutItem>) {
    forall i, j | 0 <= i < j < |outputs| :: outputs[i].index != outputs[j].index
  }

  /** The outputs are new, and nothing so far has spent them. */
  ghost predicate FreshOutputs(before: seq<Coinjoin>, cj: Coinjoin) {
    && DistinctIndexes(cj.outputs)
    && forall i | 0 <= i < |cj.outputs| ::
         && (cj.txid, cj.outputs[i].index) !in Created(before)
         && (cj.txid, cj.outputs[i].index) !in SpentKeys(before, None)
         && (cj.txid, cj.outputs[i].index) !in InputKeys(cj.inputs, None)
  }

  /** Unique outpoints, created before they are spent. */
  ghost predicate Ordered(coinjoins: seq<Coinjoin>) {
    coinjoins == [] || (Ordered(coinjoins[..|coinjoins| - 1])
                        && FreshOutputs(coinjoins[..|coinjoins| - 1], coinjoins[|coinjoins| - 1]))
  }

  ghost predicate FreshInputs(before: seq<Coinjoin>, cj: Coinjoin) {
    && (forall i, j | 0 <= i < j < |cj.inputs| && Key(cj.inputs[i]).Some? :: Key(cj.inputs[i]) != Key(cj.inputs[j]))
    && forall i | 0 <= i < |cj.inputs| && Key(cj.inputs[i]).Some? :: Key(cj.inputs[i]).value !in SpentKeys(before, None)
  }

  /** A remixed input carries the value of the coinjoin output it spends; no other spends one. */
  ghost predicate Resolved(before: seq<Coinjoin>, item: InItem) {
    match item.events.truth
    case Remix =>
      && Key(item).Some?
      && Key(item).value in Created(before)
      && Created(before)[Key(item).value].events.truth == Remix
      && ValueOf(Created(before)[Key(item).value].value) == ValueOf(item.value)
    case Enter => Key(item).Some? ==> Key(item).value !in Created(before)
    case _ => false
  }

  ghost predicate SoundStep(before: seq<Coinjoin>, cj: Coinjoin) {
    && FreshOutputs(before, cj)
    && FreshInputs(before, cj)
    && (forall i | 0 <= i < |cj.inputs| :: Resolved(before, cj.inputs[i]))
    && forall i | 0 <= i < |cj.outputs| :: cj.outputs[i].events.truth in {Stay, Remix, Leave}
  }

  /** A classified history as the exported blocks yield it. */
  ghost predicate Sound(coinjoins: seq<Coinjoin>) {
    coinjoins == [] || (Sound(coinjoins[..|coinjoins| - 1])
                        && SoundStep(coinjoins[..|coinjoins| - 1], coinjoins[|coinjoins| - 1]))
  }

  lemma {:induction false} SoundIsOrdered(coinjoins: seq<Coinjoin>)
    requires Sound(coinjoins)
    ensures Ordered(coinjoins)
    decreases |coinjoins|
  {
    if coinjoins != [] {
      SoundIsOrdered(coinjoins[..|coinjoins| - 1]);
    }
  }

  lemma {:induction false} SoundPrefix(coinjoins: seq<Coinjoin>, k: nat)
    requires Sound(coinjoins) && k <= |coinjoins|
    ensures Sound(coinjoins[..k])
    decreases |coinjoins|
  {
    if k == |coinjoins| {
      assert coinjoins[..k] == coinjoins;
    } else {
      SoundPrefix(coinjoins[..|coinjoins| - 1], k);
      assert coinjoins[..|coinjoins| - 1][..k] == coinjoins[..k];
    }
  }

  // --------------------------------------------------- the map behind the running total

  /** The outstanding outputs of a group, popped and stored coinjoin by coinjoin. */
  function Track(coinjoins: seq<Coinjoin>, field: Field, owners: Option<set<string>>, group: Group)
    : map<Outpoint, int>
  {
    if coinjoins == [] then map[]
    else
      var n := |coinjoins| - 1;
      Stored(coinjoins[n].txid, coinjoins[n].outputs, field, owners, group,
             Popped(coinjoins[n].inputs, owners, Track(coinjoins[..n], field, owners, group)))
  }

  lemma {:induction false} PoppedRemovesKeys(inputs: seq<InItem>, owners: Option<set<string>>, m: map<Outpoint, int>)
    ensures Popped(inputs, owners, m) == m - InputKeys(inputs, owners)
    decreases |inputs|
  {
    if inputs != [] {
      PoppedRemovesKeys(inputs[..|inputs| - 1], owners, m);
    }
  }

  lemma {:induction false} PoppedValueLeaves(inputs: seq<InItem>, owners: Option<set<string>>, m: map<Outpoint, int>)
    ensures MapSum(Popped(inputs, owners, m)) == MapSum(m) - PoppedValue(inputs, owners, m)
    decreases |inputs|
  {
    if inputs != [] {
      var n := |inputs| - 1;
      PoppedValueLeaves(inputs[..n], owners, m);
      if Owned(inputs[n].wallet, owners) && Key(inputs[n]).Some? {
        MapSumWithout(Popped(inputs[..n], owners, m), Key(inputs[n]).value);
      }
    }
  }

  /** Storing adds only keys of this coinjoin and keeps the rest. */
  lemma {:induction false} StoredKeys(txid: string, outputs: seq<OutItem>, field: Field, owners: Option<set<string>>,
                                      group: Group, m: map<Outpoint, int>)
    ensures forall key | key in Stored(txid, outputs, field, owners, group, m) ::
              key in m || exists i | 0 <= i < |outputs| :: key == (txid, outputs[i].index)
    decreases |outputs|
  {
    if outputs != [] {
      var n := |outputs| - 1;
      StoredKeys(txid, outputs[..n], field, owners, group, m);
      forall key | key in Stored(txid, outputs, field, owners, group, m)
        ensures key in m || exists i | 0 <= i < |outputs| :: key == (txid, outputs[i].index)
      {
        if key in Stored(txid, outputs[..n], field, owners, group, m) {
          if key !in m {
            var i :| 0 <= i < n && key == (txid, outputs[..n][i].index);
            assert outputs[i] == outputs[..n][i];
          }
        } else {
          assert key == (txid, outputs[n].index);
        }
      }
    }
  }

  /** Seen past a set of spent outpoints, storing adds exactly the outstanding outputs. */
  lemma {:induction false} StoredValue(txid: string, outputs: seq<OutItem>, spent: set<Outpoint>, field: Field,
                                       owners: Option<set<string>>, group: Group, m: map<Outpoint, int>)
    requires DistinctIndexes(outputs)
    requires forall i | 0 <= i < |outputs| :: (txid, outputs[i].index) !in m
    ensures MapSum(Stored(txid, outputs, field, owners, group, m) - spent)
         == MapSum(m - spent) + OutstandingOf(txid, outputs, spent, field, owners, group)
    decreases |outputs|
  {
    if outputs != [] {
      var n := |outputs| - 1;
      var before := Stored(txid, outputs[..n], field, owners, group, m);
      var key := (txid, outputs[n].index);
      StoredValue(txid, outputs[..n], spent, field, owners, group, m);
      StoredKeys(txid, outputs[..n], field, owners, group, m);
      assert key !in before;
      if Owned(outputs[n].wallet, owners) && InGroup(outputs[n], field, group) {
        var v := ValueOf(outputs[n].value);
        if key in spent {
          assert before[key := v] - spent == before - spent;
        } else {
          assert before[key := v] - spent == (before - spent)[key := v];
          MapSumInsert(before - spent, key, v);
        }
      }
    }
  }

  lemma {:induction false} OutstandingOfNoneSpent(txid: string, outputs: seq<OutItem>, spent: set<Outpoint>,
                                                  field: Field,
                                                  owners: Option<set<string>>, group: Group)
    requires forall i | 0 <= i < |outputs| :: (txid, outputs[i].index) !in spent
    ensures OutstandingOf(txid, outputs, spent, field, owners, group) == OutSum(outputs, field, owners, group)
    decreases |outputs|
  {
    if outputs != [] {
      OutstandingOfNoneSpent(txid, outputs[..|outputs| - 1], spent, field, owners, group);
    }
  }

  lemma {:induction false} CreatedByKeys(txid: string, outputs: seq<OutItem>)
    ensures forall i | 0 <= i < |outputs| :: (txid, outputs[i].index) in CreatedBy(txid, outputs)
    decreases |outputs|
  {
    if outputs != [] {
      CreatedByKeys(txid, outputs[..|outputs| - 1]);
      forall i | 0 <= i < |outputs|
        ensures (txid, outputs[i].index) in CreatedBy(txid, outputs)
      {
        if i < |outputs| - 1 {
          assert outputs[..|outputs| - 1][i] == outputs[i];
        }
      }
    }
  }

  lemma {:induction false} TrackedWereCreated(coinjoins: seq<Coinjoin>, field: Field, owners: Option<set<string>>,
                                              group: Group)
    ensures Track(coinjoins, field, owners, group).Keys <= Created(coinjoins).Keys
    decreases |coinjoins|
  {
    if coinjoins != [] {
      var n := |coinjoins| - 1;
      var cj := coinjoins[n];
      var before := Track(coinjoins[..n], field, owners, group);
      TrackedWereCreated(coinjoins[..n], field, owners, group);
      PoppedRemovesKeys(cj.inputs, owners, before);
      StoredKeys(cj.txid, cj.outputs, field, owners, group, Popped(cj.inputs, owners, before));
      CreatedByKeys(cj.txid, cj.outputs);
    }
  }

  lemma {:induction false} SelectedKeys(inputs: seq<InItem>, owners: Option<set<string>>)
    ensures InputKeys(inputs, owners) <= InputKeys(inputs, None)
    decreases |inputs|
  {
    if inputs != [] {
      SelectedKeys(inputs[..|inputs| - 1], owners);
    }
  }

  lemma {:induction false} SelectedSpent(coinjoins: seq<Coinjoin>, owners: Option<set<string>>)
    ensures SpentKeys(coinjoins, owners) <= SpentKeys(coinjoins, None)
    decreases |coinjoins|
  {
    if coinjoins != [] {
      SelectedSpent(coinjoins[..|coinjoins| - 1], owners);
      SelectedKeys(coinjoins[|coinjoins| - 1].inputs, owners);
    }
  }

  /** What is tracked after a prefix, less what is spent later, is outstanding. */
  lemma {:induction false} TrackValue(coinjoins: seq<Coinjoin>, spent: set<Outpoint>, field: Field,
                                      owners: Option<set<string>>, group: Group)
    requires Ordered(coinjoins) && SpentKeys(coinjoins, owners) <= spent
    ensures MapSum(Track(coinjoins, field, owners, group) - spent)
              == Outstanding(coinjoins, spent, field, owners, group)
    decreases |coinjoins|
  {
    if coinjoins != [] {
      var n := |coinjoins| - 1;
      var cj, before := coinjoins[n], Track(coinjoins[..n], field, owners, group);
      var popped := Popped(cj.inputs, owners, before);
      TrackValue(coinjoins[..n], spent, field, owners, group);
      PoppedRemovesKeys(cj.inputs, owners, before);
      assert popped - spent == before - spent;
      TrackedWereCreated(coinjoins[..n], field, owners, group);
      StoredValue(cj.txid, cj.outputs, spent, field, owners, group, popped);
    } else {
      assert Track(coinjoins, field, owners, group) - spent == map[];
    }
  }

  /** Nothing tracked has been spent. */
  lemma {:induction false} TrackedAreUnspent(coinjoins: seq<Coinjoin>, field: Field, owners: Option<set<string>>,
                                             group: Group)
    requires Ordered(coinjoins)
    ensures Track(coinjoins, field, owners, group).Keys !! SpentKeys(coinjoins, owners)
    decreases |coinjoins|
  {
    if coinjoins != [] {
      var n := |coinjoins| - 1;
      var cj, before := coinjoins[n], Track(coinjoins[..n], field, owners, group);
      TrackedAreUnspent(coinjoins[..n], field, owners, group);
      PoppedRemovesKeys(cj.inputs, owners, before);
      StoredKeys(cj.txid, cj.outputs, field, owners, group, Popped(cj.inputs, owners, before));
      SelectedSpent(coinjoins[..n], owners);
      SelectedKeys(cj.inputs, owners);
    }
  }

  lemma TrackIsOutstanding(coinjoins: seq<Coinjoin>, field: Field, owners: Option<set<string>>, group: Group)
    requires Ordered(coinjoins)
    ensures MapSum(Track(coinjoins, field, owners, group))
         == Outstanding(coinjoins, SpentKeys(coinjoins, owners), field, owners, group)
  {
    TrackedAreUnspent(coinjoins, field, owners, group);
    var m := Track(coinjoins, field, owners, group);
    assert m - SpentKeys(coinjoins, owners) == m;
    TrackValue(coinjoins, SpentKeys(coinjoins, owners), field, owners, group);
  }

  /** One coinjoin's effect on the tracked total. */
  lemma TrackStep(coinjoins: seq<Coinjoin>, field: Field, owners: Option<set<string>>, group: Group)
    requires coinjoins != [] && Ordered(coinjoins)
    ensures MapSum(Track(coinjoins, field, owners, group))
         == MapSum(Track(coinjoins[..|coinjoins| - 1], field, owners, group))
            - PoppedValue(coinjoins[|coinjoins| - 1].inputs, owners,
                          Track(coinjoins[..|coinjoins| - 1], field, owners, group))
            + OutSum(coinjoins[|coinjoins| - 1].outputs, field, owners, group)
  {
    var n := |coinjoins| - 1;
    var cj, before := coinjoins[n], Track(coinjoins[..n], field, owners, group);
    var popped := Popped(cj.inputs, owners, before);
    PoppedValueLeaves(cj.inputs, owners, before);
    PoppedRemovesKeys(cj.inputs, owners, before);
    TrackedWereCreated(coinjoins[..n], field, owners, group);
    StoredValue(cj.txid, cj.outputs, {}, field, owners, group, popped);
    OutstandingOfNoneSpent(cj.txid, cj.outputs, {}, field, owners, group);
    assert popped - {} == popped;
    assert Stored(cj.txid, cj.outputs, field, owners, group, popped) - {} == Track(coinjoins, field, owners, group);
  }

  /**
   The running unmoved total is at every moment the sum of the map of outstanding outputs,
   and both are the value of the selected slow outputs nothing selected has spent.
   */
  lemma {:induction false} UnmovedIsOutstanding(coinjoins: seq<Coinjoin>, field: Field, owners: Option<set<string>>)
    requires Ordered(coinjoins)
    ensures After(coinjoins, field, owners).unmoved == Track(coinjoins, field, owners, Unmoved)
    ensures After(coinjoins, field, owners).unmovedTotal == MapSum(After(coinjoins, field, owners).unmoved)
    ensures After(coinjoins, field, owners).unmovedTotal
         == Outstanding(coinjoins, SpentKeys(coinjoins, owners), field, owners, Unmoved)
    decreases |coinjoins|
  {
    if coinjoins != [] {
      UnmovedIsOutstanding(coinjoins[..|coinjoins| - 1], field, owners);
      TrackStep(coinjoins, field, owners, Unmoved);
    }
    TrackIsOutstanding(coinjoins, field, owners, Unmoved);
  }

  // ------------------------------------------------------------------- conservation

  function InTotal(inputs: seq<InItem>): int {
    if inputs == [] then 0 else InTotal(inputs[..|inputs| - 1]) + ValueOf(inputs[|inputs| - 1].value)
  }

  function OutTotal(outputs: seq<OutItem>): int {
    if outputs == [] then 0 else OutTotal(outputs[..|outputs| - 1]) + ValueOf(outputs[|outputs| - 1].value)
  }

  /** What the coinjoins pay: everything they consume less everything they create. */
  function Fees(coinjoins: seq<Coinjoin>): int {
    if coinjoins == [] then 0
    else
      var n := |coinjoins| - 1;
      Fees(coinjoins[..n]) + InTotal(coinjoins[n].inputs) - OutTotal(coinjoins[n].outputs)
  }

  lemma {:induction false} OutputsSplit(outputs: seq<OutItem>)
    requires forall i | 0 <= i < |outputs| :: outputs[i].events.truth in {Stay, Remix, Leave}
    ensures OutTotal(outputs) == OutSum(outputs, Truth, None, Leaving) + OutSum(outputs, Truth, None, Kept)
    decreases |outputs|
  {
    if outputs != [] {
      OutputsSplit(outputs[..|outputs| - 1]);
    }
  }

  lemma {:induction false} InputKeyOrigin(inputs: seq<InItem>, owners: Option<set<string>>)
    ensures forall key | key in InputKeys(inputs, owners) ::
              exists i | 0 <= i < |inputs| :: Key(inputs[i]) == Some(key) && Owned(inputs[i].wallet, owners)
    decreases |inputs|
  {
    if inputs != [] {
      var n := |inputs| - 1;
      InputKeyOrigin(inputs[..n], owners);
      forall key | key in InputKeys(inputs, owners)
        ensures exists i | 0 <= i < |inputs| :: Key(inputs[i]) == Some(key) && Owned(inputs[i].wallet, owners)
      {
        if key in InputKeys(inputs[..n], owners) {
          var i :| 0 <= i < n && Key(inputs[..n][i]) == Some(key) && Owned(inputs[..n][i].wallet, owners);
          assert inputs[i] == inputs[..n][i];
        } else {
          assert Key(inputs[n]) == Some(key);
        }
      }
    }
  }

  /** A created output of the group that nothing has spent yet is still tracked, with its value. */
  lemma {:induction false} UnspentIsTracked(coinjoins: seq<Coinjoin>, key: Outpoint, field: Field,
                                            owners: Option<set<string>>, group: Group)
    requires Ordered(coinjoins)
    requires key in Created(coinjoins) && key !in SpentKeys(coinjoins, owners)
    requires InGroup(Created(coinjoins)[key], field, group) && Owned(Created(coinjoins)[key].wallet, owners)
    ensures key in Track(coinjoins, field, owners, group)
    ensures Track(coinjoins, field, owners, group)[key] == ValueOf(Created(coinjoins)[key].value)
    decreases |coinjoins|
  {
    var n := |coinjoins| - 1;
    var cj, before := coinjoins[n], Track(coinjoins[..n], field, owners, group);
    var popped := Popped(cj.inputs, owners, before);
    PoppedRemovesKeys(cj.inputs, owners, before);
    if key in CreatedBy(cj.txid, cj.outputs) {
      StoredHolds(cj.txid, cj.outputs, key, field, owners, group, popped);
    } else {
      UnspentIsTracked(coinjoins[..n], key, field, owners, group);
      CreatedByKeys(cj.txid, cj.outputs);
      StoredKeeps(cj.txid, cj.outputs, key, field, owners, group, popped);
    }
  }

  lemma {:induction false} StoredKeeps(txid: string, outputs: seq<OutItem>, key: Outpoint, field: Field,
                                       owners: Option<set<string>>, group: Group, m: map<Outpoint, int>)
    requires forall i | 0 <= i < |outputs| :: (txid, outputs[i].index) != key
    ensures key in m <==> key in Stored(txid, outputs, field, owners, group, m)
    ensures key in m ==> Stored(txid, outputs, field, owners, group, m)[key] == m[key]
    decreases |outputs|
  {
    if outputs != [] {
      StoredKeeps(txid, outputs[..|outputs| - 1], key, field, owners, group, m);
    }
  }

  lemma {:induction false} StoredHolds(txid: string, outputs: seq<OutItem>, key: Outpoint, field: Field,
                                       owners: Option<set<string>>, group: Group, m: map<Outpoint, int>)
    requires DistinctIndexes(outputs) && key in CreatedBy(txid, outputs)
    requires InGroup(CreatedBy(txid, outputs)[key], field, group) && Owned(CreatedBy(txid, outputs)[key].wallet, owners)
    ensures key in Stored(txid, outputs, field, owners, group, m)
    ensures Stored(txid, outputs, field, owners, group, m)[key] == ValueOf(CreatedBy(txid, outputs)[key].value)
    decreases |outputs|
  {
    var n := |outputs| - 1;
    if key != (txid, outputs[n].index) {
      StoredHolds(txid, outputs[..n], key, field, owners, group, m);
    }
  }

  /** An input is worth what it pops when it is remixed, and pops nothing when it enters. */
  lemma {:induction false} PopsItsValue(before: seq<Coinjoin>, cj: Coinjoin, i: nat)
    requires Ordered(before) && SoundStep(before, cj) && i < |cj.inputs|
    ensures var item, m := cj.inputs[i], Track(before, Truth, None, Kept);
            var left := Popped(cj.inputs[..i], None, m);
            if item.events.truth == Remix
            then Key(item).Some? && Key(item).value in left && left[Key(item).value] == ValueOf(item.value)
            else item.events.truth == Enter && (Key(item).Some? ==> Key(item).value !in left)
  {
    var item, m := cj.inputs[i], Track(before, Truth, None, Kept);
    assert Resolved(before, item);
    PoppedRemovesKeys(cj.inputs[..i], None, m);
    if item.events.truth == Remix {
      InputKeyOrigin(cj.inputs[..i], None);
      UnspentIsTracked(before, Key(item).value, Truth, None, Kept);
    } else {
      TrackedWereCreated(before, Truth, None, Kept);
    }
  }

  /** The inputs that pop tracked outputs are exactly the remixed ones, with the same value. */
  lemma {:induction false} PoppedIsRemixed(before: seq<Coinjoin>, cj: Coinjoin, count: nat)
    requires Ordered(before) && SoundStep(before, cj) && count <= |cj.inputs|
    ensures InTotal(cj.inputs[..count])
         == EnterSum(cj.inputs[..count], Truth, None)
            + PoppedValue(cj.inputs[..count], None, Track(before, Truth, None, Kept))
    decreases count
  {
    if count > 0 {
      assert cj.inputs[..count][..count - 1] == cj.inputs[..count - 1];
      PoppedIsRemixed(before, cj, count - 1);
      PopsItsValue(before, cj, count - 1);
    }
  }

  /**
   Conservation: after any sound history the interim liquidity equals the fees so far plus
   the value of the outputs that stay or will be remixed and have not been consumed.
   */
  lemma {:induction false} InterimIsFeesPlusOutstanding(coinjoins: seq<Coinjoin>)
    requires Sound(coinjoins)
    ensures After(coinjoins, Truth, None).interim
         == Fees(coinjoins) + Outstanding(coinjoins, SpentKeys(coinjoins, None), Truth, None, Kept)
    decreases |coinjoins|
  {
    InterimIsFeesPlusTracked(coinjoins);
    SoundIsOrdered(coinjoins);
    TrackIsOutstanding(coinjoins, Truth, None, Kept);
  }

  lemma {:induction false} InterimIsFeesPlusTracked(coinjoins: seq<Coinjoin>)
    requires Sound(coinjoins)
    ensures After(coinjoins, Truth, None).interim == Fees(coinjoins) + MapSum(Track(coinjoins, Truth, None, Kept))
    decreases |coinjoins|
  {
    SoundIsOrdered(coinjoins);
    if coinjoins != [] {
      var n := |coinjoins| - 1;
      var cj := coinjoins[n];
      InterimIsFeesPlusTracked(coinjoins[..n]);
      TrackStep(coinjoins, Truth, None, Kept);
      OutputsSplit(cj.outputs);
      PoppedIsRemixed(coinjoins[..n], cj, |cj.inputs|);
      assert cj.inputs[..|cj.inputs|] == cj.inputs;
    }
  }

  lemma {:induction false} KeptSplitsOf(txid: string, outputs: seq<OutItem>, spent: set<Outpoint>, field: Field,
                                        owners: Option<set<string>>)
    ensures OutstandingOf(txid, outputs, spent, field, owners, Kept)
         == OutstandingOf(txid, outputs, spent, field, owners, Unmoved)
            + OutstandingOf(txid, outputs, spent, field, owners, FastKept)
    decreases |outputs|
  {
    if outputs != [] {
      KeptSplitsOf(txid, outputs[..|outputs| - 1], spent, field, owners);
    }
  }

  lemma {:induction false} KeptSplits(coinjoins: seq<Coinjoin>, spent: set<Outpoint>, field: Field,
                                      owners: Option<set<string>>)
    ensures Outstanding(coinjoins, spent, field, owners, Kept)
         == Outstanding(coinjoins, spent, field, owners, Unmoved)
             + Outstanding(coinjoins, spent, field, owners, FastKept)
    decreases |coinjoins|
  {
    if coinjoins != [] {
      var n := |coinjoins| - 1;
      KeptSplits(coinjoins[..n], spent, field, owners);
      KeptSplitsOf(coinjoins[n].txid, coinjoins[n].outputs, spent, field, owners);
    }
  }

  /** Active liquidity is the fees so far plus the outstanding fast remixes. */
  lemma ActiveIsFeesPlusFastRemixes(coinjoins: seq<Coinjoin>)
    requires Sound(coinjoins)
    ensures After(coinjoins, Truth, None).interim - After(coinjoins, Truth, None).unmovedTotal
         == Fees(coinjoins) + Outstanding(coinjoins, SpentKeys(coinjoins, None), Truth, None, FastKept)
  {
    InterimIsFeesPlusOutstanding(coinjoins);
    SoundIsOrdered(coinjoins);
    UnmovedIsOutstanding(coinjoins, Truth, None);
    KeptSplits(coinjoins, SpentKeys(coinjoins, None), Truth, None);
  }

  ghost predicate NonNegativeOutputs(coinjoins: seq<Coinjoin>) {
    forall j, i | 0 <= j < |coinjoins| && 0 <= i < |coinjoins[j].outputs| :: ValueOf(coinjoins[j].outputs[i].value) >= 0
  }

  lemma {:induction false} OutstandingOfNonNegative(txid: string, outputs: seq<OutItem>, spent: set<Outpoint>,
                                                    field: Field,
                                                    owners: Option<set<string>>, group: Group)
    requires forall i | 0 <= i < |outputs| :: ValueOf(outputs[i].value) >= 0
    ensures OutstandingOf(txid, outputs, spent, field, owners, group) >= 0
    decreases |outputs|
  {
    if outputs != [] {
      OutstandingOfNonNegative(txid, outputs[..|outputs| - 1], spent, field, owners, group);
    }
  }

  lemma {:induction false} OutstandingNonNegative(coinjoins: seq<Coinjoin>, spent: set<Outpoint>, field: Field,
                                                  owners: Option<set<string>>, group: Group)
    requires NonNegativeOutputs(coinjoins)
    ensures Outstanding(coinjoins, spent, field, owners, group) >= 0
    decreases |coinjoins|
  {
    if coinjoins != [] {
      var n := |coinjoins| - 1;
      assert forall i | 0 <= i < |coinjoins[n].outputs| :: ValueOf(coinjoins[n].outputs[i].value) >= 0;
      OutstandingNonNegative(coinjoins[..n], spent, field, owners, group);
      OutstandingOfNonNegative(coinjoins[n].txid, coinjoins[n].outputs, spent, field, owners, group);
    }
  }

  // ------------------------------------------------------------------------- window

  /** A remixed output names the later coinjoin that spends it and how many lie between. */
  ghost predicate RemixScheduled(coinjoins: seq<Coinjoin>, j: nat, item: OutItem)
    requires j < |coinjoins|
  {
    && item.distance.Some?
    && item.distance.value >= 0
    && var p := j + 1 + item.distance.value;
       p < |coinjoins| && (coinjoins[j].txid, item.index) in InputKeys(coinjoins[p].inputs, None)
  }

  ghost predicate Scheduled(coinjoins: seq<Coinjoin>) {
    forall j, i | 0 <= j < |coinjoins| && 0 <= i < |coinjoins[j].outputs| ::
      && (coinjoins[j].outputs[i].events.truth == Remix ==> RemixScheduled(coinjoins, j, coinjoins[j].outputs[i]))
      && (coinjoins[j].outputs[i].events.truth == Stay ==> coinjoins[j].outputs[i].distance == None)
  }

  lemma {:induction false} SpentAt(coinjoins: seq<Coinjoin>, p: nat)
    requires p < |coinjoins|
    ensures InputKeys(coinjoins[p].inputs, None) <= SpentKeys(coinjoins, None)
    decreases |coinjoins|
  {
    if p < |coinjoins| - 1 {
      SpentAt(coinjoins[..|coinjoins| - 1], p);
    }
  }

  lemma {:induction false} OldFastOutputsAreSpent(coinjoins: seq<Coinjoin>, k: nat, j: nat, count: nat)
    requires Scheduled(coinjoins) && k < |coinjoins| && j + WINDOW_COINJOINS <= k && count <= |coinjoins[j].outputs|
    ensures OutstandingOf(coinjoins[j].txid, coinjoins[j].outputs[..count], SpentKeys(coinjoins[..k + 1], None),
                          Truth, None, FastKept) == 0
    decreases count
  {
    if count > 0 {
      var outputs, item := coinjoins[j].outputs[..count], coinjoins[j].outputs[count - 1];
      assert outputs[..count - 1] == coinjoins[j].outputs[..count - 1];
      OldFastOutputsAreSpent(coinjoins, k, j, count - 1);
      if InGroup(item, Truth, FastKept) {
        assert RemixScheduled(coinjoins, j, item);
        var p := j + 1 + item.distance.value;
        assert coinjoins[..k + 1][p] == coinjoins[p];
        SpentAt(coinjoins[..k + 1], p);
      }
    }
  }

  /** No fast remix created more than a window of coinjoins ago is outstanding. */
  lemma {:induction false} FastRemixesAreRecent(coinjoins: seq<Coinjoin>, k: nat, early: nat)
    requires Scheduled(coinjoins) && k < |coinjoins| && early + WINDOW_COINJOINS <= k + 1
    ensures Outstanding(coinjoins[..early], SpentKeys(coinjoins[..k + 1], None), Truth, None, FastKept) == 0
    decreases early
  {
    if early > 0 {
      FastRemixesAreRecent(coinjoins, k, early - 1);
      assert coinjoins[..early][..early - 1] == coinjoins[..early - 1];
      OldFastOutputsAreSpent(coinjoins, k, early - 1, |coinjoins[early - 1].outputs|);
      assert coinjoins[early - 1].outputs[..|coinjoins[early - 1].outputs|] == coinjoins[early - 1].outputs;
    }
  }

  /** The outstanding value splits at any coinjoin. */
  lemma {:induction false} OutstandingSplits(coinjoins: seq<Coinjoin>, at: nat, spent: set<Outpoint>, field: Field,
                                             owners: Option<set<string>>, group: Group)
    requires at <= |coinjoins|
    ensures Outstanding(coinjoins, spent, field, owners, group)
         == Outstanding(coinjoins[..at], spent, field, owners, group)
             + Outstanding(coinjoins[at..], spent, field, owners, group)
    decreases |coinjoins|
  {
    if at == |coinjoins| {
      assert coinjoins[..at] == coinjoins;
    } else {
      var n := |coinjoins| - 1;
      OutstandingSplits(coinjoins[..n], at, spent, field, owners, group);
      assert coinjoins[..n][..at] == coinjoins[..at];
      assert coinjoins[at..][..n - at] == coinjoins[..n][at..];
    }
  }

  // --------------------------------------------------------------------- main result

  /** The totals after the first k + 1 coinjoins of a sound history. */
  lemma PoolTotalsConserve(coinjoins: seq<Coinjoin>, k: nat)
    requires Sound(coinjoins) && Scheduled(coinjoins) && k < |coinjoins|
    ensures var now, upTo := After(coinjoins[..k + 1], Truth, None), coinjoins[..k + 1];
            var spent, recent := SpentKeys(upTo, None), Max(k + 1 - WINDOW_COINJOINS, 0);
            && now.interim == Fees(upTo) + Outstanding(upTo, spent, Truth, None, Kept)
            && now.unmovedTotal == Outstanding(upTo, spent, Truth, None, Unmoved)
            && now.interim - now.unmovedTotal == Fees(upTo) + Outstanding(upTo[recent..], spent, Truth, None, FastKept)
  {
    var upTo := coinjoins[..k + 1];
    var spent, recent := SpentKeys(upTo, None), Max(k + 1 - WINDOW_COINJOINS, 0);
    SoundPrefix(coinjoins, k + 1);
    SoundIsOrdered(upTo);
    InterimIsFeesPlusOutstanding(upTo);
    UnmovedIsOutstanding(upTo, Truth, None);
    ActiveIsFeesPlusFastRemixes(upTo);
    OutstandingSplits(upTo, recent, spent, Truth, None, FastKept);
    assert upTo[..recent] == coinjoins[..recent];
    if recent > 0 {
      FastRemixesAreRecent(coinjoins, k, recent);
    }
  }

  /**
   The series of the whole pool, coinjoin by coinjoin: interim is fees plus what stays or is
   still to be remixed, unmoved is the slow part of it, and active is fees plus the fast
   part, which only the last window of coinjoins can have created.
   */
  lemma PoolSeriesConserve(coinjoins: seq<Coinjoin>, k: nat)
    requires Sound(coinjoins) && Scheduled(coinjoins) && k < |coinjoins|
    ensures var s, upTo := SeriesOf(coinjoins, Truth, None), coinjoins[..k + 1];
            var spent, recent := SpentKeys(upTo, None), Max(k + 1 - WINDOW_COINJOINS, 0);
            && |s.interim| == |s.unmovedWindow| == |s.activeRemix| == |coinjoins|
            && s.interim[k] == Fees(upTo) + Outstanding(upTo, spent, Truth, None, Kept)
            && s.unmovedWindow[k] == Outstanding(upTo, spent, Truth, None, Unmoved)
            && s.activeRemix[k] == Fees(upTo) + Outstanding(upTo[recent..], spent, Truth, None, FastKept)
  {
    SeriesAt(coinjoins, Truth, None, k);
    PoolTotalsConserve(coinjoins, k);
  }

  lemma ActiveIsNonNegative(coinjoins: seq<Coinjoin>, k: nat)
    requires Sound(coinjoins) && Scheduled(coinjoins) && k < |coinjoins|
    requires NonNegativeOutputs(coinjoins) && Fees(coinjoins[..k + 1]) >= 0
    ensures k < |SeriesOf(coinjoins, Truth, None).activeRemix| && SeriesOf(coinjoins, Truth, None).activeRemix[k] >= 0
  {
    var upTo := coinjoins[..k + 1];
    PoolSeriesConserve(coinjoins, k);
    OutstandingNonNegative(upTo[Max(k + 1 - WINDOW_COINJOINS, 0)..], SpentKeys(upTo, None), Truth, None, FastKept);
  }
}
