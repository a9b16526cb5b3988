/**
 Decomposition by ownership: the series of a union of disjoint owner sets is the pointwise
 sum of the parts, and the pool is the sum over all wallets.
*/
module WalletDecomposition {
  import opened Common
  import opened Liquidity
  import opened LiquidityConservation

  /** Every input belongs to the owner of the coinjoin output it spends. */
  ghost predicate OwnersAgree(coinjoins: seq<Coinjoin>) {
    coinjoins == []
    || (OwnersAgree(coinjoins[..|coinjoins| - 1])
        && InputOwnersAgree(coinjoins[..|coinjoins| - 1], coinjoins[|coinjoins| - 1]))
  }

  ghost predicate InputOwnersAgree(before: seq<Coinjoin>, cj: Coinjoin) {
    forall i | 0 <= i < |cj.inputs| && Key(cj.inputs[i]).Some? && Key(cj.inputs[i]).value in Created(before) ::
      cj.inputs[i].wallet == Created(before)[Key(cj.inputs[i]).value].wallet
  }

  lemma {:induction false} OwnersAgreePrefix(coinjoins: seq<Coinjoin>, k: nat)
    requires OwnersAgree(coinjoins) && k <= |coinjoins|
    ensures OwnersAgree(coinjoins[..k])
    decreases |coinjoins|
  {
    if k == |coinjoins| {
      assert coinjoins[..k] == coinjoins;
    } else {
      OwnersAgreePrefix(coinjoins[..|coinjoins| - 1], k);
      assert coinjoins[..|coinjoins| - 1][..k] == coinjoins[..k];
    }
  }

  lemma {:induction false} OrderedPrefix(coinjoins: seq<Coinjoin>, k: nat)
    requires Ordered(coinjoins) && k <= |coinjoins|
    ensures Ordered(coinjoins[..k])
    decreases |coinjoins|
  {
    if k == |coinjoins| {
      assert coinjoins[..k] == coinjoins;
    } else {
      OrderedPrefix(coinjoins[..|coinjoins| - 1], k);
      assert coinjoins[..|coinjoins| - 1][..k] == coinjoins[..k];
    }
  }

  lemma {:induction false} InputKeyListed(inputs: seq<InItem>, owners: Option<set<string>>, i: nat)
    requires i < |inputs| && Key(inputs[i]).Some? && Owned(inputs[i].wallet, owners)
    ensures Key(inputs[i]).value in InputKeys(inputs, owners)
    decreases |inputs|
  {
    if i < |inputs| - 1 {
      InputKeyListed(inputs[..|inputs| - 1], owners, i);
    }
  }

  lemma {:induction false} CreatedByOrigin(txid: string, outputs: seq<OutItem>)
    ensures forall key | key in CreatedBy(txid, outputs) :: exists i | 0 <= i < |outputs| ::
              key == (txid, outputs[i].index)
    decreases |outputs|
  {
    if outputs != [] {
      var n := |outputs| - 1;
      CreatedByOrigin(txid, outputs[..n]);
      forall key | key in CreatedBy(txid, outputs)
        ensures exists i | 0 <= i < |outputs| :: key == (txid, outputs[i].index)
      {
        if key in CreatedBy(txid, outputs[..n]) {
          var i :| 0 <= i < n && key == (txid, outputs[..n][i].index);
          assert outputs[i] == outputs[..n][i];
        } else {
          assert key == (txid, outputs[n].index);
        }
      }
    }
  }

  /** Whoever owns an output is the one who spends it. */
  lemma {:induction false} OwnerSpends(coinjoins: seq<Coinjoin>, key: Outpoint, owners: Option<set<string>>)
    requires Ordered(coinjoins) && OwnersAgree(coinjoins)
    requires key in Created(coinjoins) && Owned(Created(coinjoins)[key].wallet, owners)
    requires key in SpentKeys(coinjoins, None)
    ensures key in SpentKeys(coinjoins, owners)
    decreases |coinjoins|
  {
    var n := |coinjoins| - 1;
    var before, cj := coinjoins[..n], coinjoins[n];
    CreatedByOrigin(cj.txid, cj.outputs);
    assert key !in CreatedBy(cj.txid, cj.outputs);
    if key in SpentKeys(before, None) {
      OwnerSpends(before, key, owners);
    } else {
      InputKeyOrigin(cj.inputs, None);
      var i :| 0 <= i < |cj.inputs| && Key(cj.inputs[i]) == Some(key);
      InputKeyListed(cj.inputs, owners, i);
    }
  }

  lemma {:induction false} CreatedByHolds(txid: string, outputs: seq<OutItem>, i: nat)
    requires i < |outputs| && DistinctIndexes(outputs)
    ensures (txid, outputs[i].index) in CreatedBy(txid, outputs)
    ensures CreatedBy(txid, outputs)[(txid, outputs[i].index)] == outputs[i]
    decreases |outputs|
  {
    if i < |outputs| - 1 {
      CreatedByHolds(txid, outputs[..|outputs| - 1], i);
    }
  }

  lemma {:induction false} CreatedHolds(coinjoins: seq<Coinjoin>, j: nat, i: nat)
    requires Ordered(coinjoins) && j < |coinjoins| && i < |coinjoins[j].outputs|
    ensures (coinjoins[j].txid, coinjoins[j].outputs[i].index) in Created(coinjoins)
    ensures Created(coinjoins)[(coinjoins[j].txid, coinjoins[j].outputs[i].index)] == coinjoins[j].outputs[i]
    decreases |coinjoins|
  {
    var n := |coinjoins| - 1;
    if j == n {
      CreatedByHolds(coinjoins[n].txid, coinjoins[n].outputs, i);
    } else {
      CreatedHolds(coinjoins[..n], j, i);
      CreatedByOrigin(coinjoins[n].txid, coinjoins[n].outputs);
    }
  }

  /** For owned outputs it makes no difference whether all inputs count or only the owner's. */
  lemma {:induction false} OwnSpendsSuffice(all: seq<Coinjoin>, j: nat, count: nat, field: Field,
                                            owners: Option<set<string>>, group: Group)
    requires Ordered(all) && OwnersAgree(all) && j < |all| && count <= |all[j].outputs|
    ensures OutstandingOf(all[j].txid, all[j].outputs[..count], SpentKeys(all, owners), field, owners, group)
         == OutstandingOf(all[j].txid, all[j].outputs[..count], SpentKeys(all, None), field, owners, group)
    decreases count
  {
    if count > 0 {
      assert all[j].outputs[..count][..count - 1] == all[j].outputs[..count - 1];
      OwnSpendsSuffice(all, j, count - 1, field, owners, group);
      var item := all[j].outputs[count - 1];
      var key := (all[j].txid, item.index);
      CreatedHolds(all, j, count - 1);
      SelectedSpent(all, owners);
      if Owned(item.wallet, owners) && key in SpentKeys(all, None) {
        OwnerSpends(all, key, owners);
      }
    }
  }

  lemma {:induction false} OwnSpendsSufficeUpTo(all: seq<Coinjoin>, upTo: nat, field: Field,
                                                owners: Option<set<string>>, group: Group)
    requires Ordered(all) && OwnersAgree(all) && upTo <= |all|
    ensures Outstanding(all[..upTo], SpentKeys(all, owners), field, owners, group)
         == Outstanding(all[..upTo], SpentKeys(all, None), field, owners, group)
    decreases upTo
  {
    if upTo > 0 {
      assert all[..upTo][..upTo - 1] == all[..upTo - 1];
      OwnSpendsSufficeUpTo(all, upTo - 1, field, owners, group);
      OwnSpendsSuffice(all, upTo - 1, |all[upTo - 1].outputs|, field, owners, group);
      assert all[upTo - 1].outputs[..|all[upTo - 1].outputs|] == all[upTo - 1].outputs;
    }
  }

  // ---------------------------------------------------------------- sums over a union

  ghost predicate Together(union: Option<set<string>>, a: set<string>, b: set<string>) {
    a !! b && union == Some(a + b)
  }

  lemma {:induction false} EnterSumSplits(inputs: seq<InItem>, field: Field, union: Option<set<string>>, a: set<string>,
                                          b: set<string>)
    requires Together(union, a, b)
    ensures EnterSum(inputs, field, union) == EnterSum(inputs, field, Some(a)) + EnterSum(inputs, field, Some(b))
    decreases |inputs|
  {
    if inputs != [] {
      EnterSumSplits(inputs[..|inputs| - 1], field, union, a, b);
    }
  }

  lemma {:induction false} OutSumSplits(outputs: seq<OutItem>, field: Field, group: Group, union: Option<set<string>>,
                                        a: set<string>, b: set<string>)
    requires Together(union, a, b)
    ensures OutSum(outputs, field, union, group) == OutSum(outputs, field, Some(a), group)
              + OutSum(outputs, field, Some(b), group)
    decreases |outputs|
  {
    if outputs != [] {
      OutSumSplits(outputs[..|outputs| - 1], field, group, union, a, b);
    }
  }

  lemma {:induction false} OutstandingOfSplits(txid: string, outputs: seq<OutItem>, spent: set<Outpoint>, field: Field,
                                               group: Group, union: Option<set<string>>, a: set<string>, b: set<string>)
    requires Together(union, a, b)
    ensures OutstandingOf(txid, outputs, spent, field, union, group)
         == OutstandingOf(txid, outputs, spent, field, Some(a), group)
             + OutstandingOf(txid, outputs, spent, field, Some(b), group)
    decreases |outputs|
  {
    if outputs != [] {
      OutstandingOfSplits(txid, outputs[..|outputs| - 1], spent, field, group, union, a, b);
    }
  }

  lemma {:induction false} OutstandingSplitsByOwner(coinjoins: seq<Coinjoin>, spent: set<Outpoint>, field: Field,
                                                    group: Group,
                                                    union: Option<set<string>>, a: set<string>, b: set<string>)
    requires Together(union, a, b)
    ensures Outstanding(coinjoins, spent, field, union, group)
         == Outstanding(coinjoins, spent, field, Some(a), group) + Outstanding(coinjoins, spent, field, Some(b), group)
    decreases |coinjoins|
  {
    if coinjoins != [] {
      var n := |coinjoins| - 1;
      OutstandingSplitsByOwner(coinjoins[..n], spent, field, group, union, a, b);
      OutstandingOfSplits(coinjoins[n].txid, coinjoins[n].outputs, spent, field, group, union, a, b);
    }
  }

  lemma {:induction false} FlowsSplit(coinjoins: seq<Coinjoin>, field: Field, union: Option<set<string>>,
                                      a: set<string>, b: set<string>)
    requires Together(union, a, b)
    ensures After(coinjoins, field, union).interim
         == After(coinjoins, field, Some(a)).interim + After(coinjoins, field, Some(b)).interim
    ensures After(coinjoins, field, union).fast
         == After(coinjoins, field, Some(a)).fast + After(coinjoins, field, Some(b)).fast
    decreases |coinjoins|
  {
    if coinjoins != [] {
      var n := |coinjoins| - 1;
      FlowsSplit(coinjoins[..n], field, union, a, b);
      EnterSumSplits(coinjoins[n].inputs, field, union, a, b);
      OutSumSplits(coinjoins[n].outputs, field, Leaving, union, a, b);
      OutSumSplits(coinjoins[n].outputs, field, FastLeaving, union, a, b);
    }
  }

  /** A wallet's unmoved total: its own slow outputs that nobody has spent. */
  lemma UnmovedOfOwners(coinjoins: seq<Coinjoin>, field: Field, owners: Option<set<string>>)
    requires Ordered(coinjoins) && OwnersAgree(coinjoins)
    ensures After(coinjoins, field, owners).unmovedTotal
         == Outstanding(coinjoins, SpentKeys(coinjoins, None), field, owners, Unmoved)
  {
    UnmovedIsOutstanding(coinjoins, field, owners);
    OwnSpendsSufficeUpTo(coinjoins, |coinjoins|, field, owners, Unmoved);
    assert coinjoins[..|coinjoins|] == coinjoins;
  }

  lemma UnmovedSplits(coinjoins: seq<Coinjoin>, field: Field, union: Option<set<string>>, a: set<string>,
                      b: set<string>)
    requires Together(union, a, b) && Ordered(coinjoins) && OwnersAgree(coinjoins)
    ensures After(coinjoins, field, union).unmovedTotal
         == After(coinjoins, field, Some(a)).unmovedTotal + After(coinjoins, field, Some(b)).unmovedTotal
  {
    UnmovedOfOwners(coinjoins, field, union);
    UnmovedOfOwners(coinjoins, field, Some(a));
    UnmovedOfOwners(coinjoins, field, Some(b));
    OutstandingSplitsByOwner(coinjoins, SpentKeys(coinjoins, None), field, Unmoved, union, a, b);
  }

  // ------------------------------------------------------------------- pointwise sums

  /** Entry k of all seven lists. */
  datatype Entry = Entry(enter: int, leave: int, stay: int, interim: int, fast: int, unmoved: int, active: int)

  function EntryAt(s: Series, k: nat): Entry
    requires k < |s.enter| == |s.leave| == |s.stay| == |s.interim|
    requires |s.enter| == |s.interimFastLeave| == |s.unmovedWindow| == |s.activeRemix|
  {
    Entry(s.enter[k], s.leave[k], s.stay[k], s.interim[k], s.interimFastLeave[k], s.unmovedWindow[k], s.activeRemix[k])
  }

  function Plus(x: Entry, y: Entry): Entry {
    Entry(x.enter + y.enter, x.leave + y.leave, x.stay + y.stay, x.interim + y.interim, x.fast + y.fast,
          x.unmoved + y.unmoved, x.active + y.active)
  }

  /** Entry k of the series of a selection of owners. */
  function OwnerEntry(coinjoins: seq<Coinjoin>, field: Field, owners: Option<set<string>>, k: nat): Entry
    requires k < |coinjoins|
  {
    SeriesLengths(coinjoins, field, owners);
    EntryAt(SeriesOf(coinjoins, field, owners), k)
  }

  /** The entry a coinjoin appends when it leaves the totals `now`. */
  function EntryOf(cj: Coinjoin, now: Ledger, field: Field, owners: Option<set<string>>): Entry {
    Entry(EnterSum(cj.inputs, field, owners), OutSum(cj.outputs, field, owners, Leaving),
          OutSum(cj.outputs, field, owners, Staying), now.interim, now.fast, now.unmovedTotal,
          now.interim - now.unmovedTotal)
  }

  lemma OwnerEntryFromTotals(coinjoins: seq<Coinjoin>, field: Field, owners: Option<set<string>>, k: nat)
    requires k < |coinjoins|
    ensures OwnerEntry(coinjoins, field, owners, k)
         == EntryOf(coinjoins[k], After(coinjoins[..k + 1], field, owners), field, owners)
  {
    SeriesAt(coinjoins, field, owners, k);
  }

  lemma EntryOfUnion(cj: Coinjoin, coinjoins: seq<Coinjoin>, field: Field, union: Option<set<string>>, a: set<string>,
                     b: set<string>)
    requires Together(union, a, b) && Ordered(coinjoins) && OwnersAgree(coinjoins)
    ensures EntryOf(cj, After(coinjoins, field, union), field, union)
         == Plus(EntryOf(cj, After(coinjoins, field, Some(a)), field, Some(a)),
                 EntryOf(cj, After(coinjoins, field, Some(b)), field, Some(b)))
  {
    EnterSumSplits(cj.inputs, field, union, a, b);
    OutSumSplits(cj.outputs, field, Leaving, union, a, b);
    OutSumSplits(cj.outputs, field, Staying, union, a, b);
    FlowsSplit(coinjoins, field, union, a, b);
    UnmovedSplits(coinjoins, field, union, a, b);
  }

  /** All seven lists of a union of disjoint owner sets are the sums of the lists of the parts. */
  lemma SeriesOfUnion(coinjoins: seq<Coinjoin>, field: Field, a: set<string>, b: set<string>, k: nat)
    requires a !! b && Ordered(coinjoins) && OwnersAgree(coinjoins) && k < |coinjoins|
    ensures OwnerEntry(coinjoins, field, Some(a + b), k)
         == Plus(OwnerEntry(coinjoins, field, Some(a), k), OwnerEntry(coinjoins, field, Some(b), k))
  {
    OwnerEntryFromTotals(coinjoins, field, Some(a + b), k);
    OwnerEntryFromTotals(coinjoins, field, Some(a), k);
    OwnerEntryFromTotals(coinjoins, field, Some(b), k);
    OrderedPrefix(coinjoins, k + 1);
    OwnersAgreePrefix(coinjoins, k + 1);
    EntryOfUnion(coinjoins[k], coinjoins[..k + 1], field, Some(a + b), a, b);
  }

  // ------------------------------------------------------------------- the whole pool

  /** Every item belongs to one of the wallets. */
  ghost predicate AllOwned(coinjoins: seq<Coinjoin>, wallets: set<string>) {
    forall j | 0 <= j < |coinjoins| ::
      && (forall i | 0 <= i < |coinjoins[j].inputs| :: Owned(coinjoins[j].inputs[i].wallet, Some(wallets)))
      && (forall i | 0 <= i < |coinjoins[j].outputs| :: Owned(coinjoins[j].outputs[i].wallet, Some(wallets)))
  }

  lemma {:induction false} SameInputs(inputs: seq<InItem>, field: Field, owners: Option<set<string>>,
                                      m: map<Outpoint, int>)
    requires forall i | 0 <= i < |inputs| :: Owned(inputs[i].wallet, owners)
    ensures EnterSum(inputs, field, owners) == EnterSum(inputs, field, None)
    ensures Popped(inputs, owners, m) == Popped(inputs, None, m)
    ensures PoppedValue(inputs, owners, m) == PoppedValue(inputs, None, m)
    decreases |inputs|
  {
    if inputs != [] {
      SameInputs(inputs[..|inputs| - 1], field, owners, m);
    }
  }

  lemma {:induction false} SameOutputs(txid: string, outputs: seq<OutItem>, field: Field, owners: Option<set<string>>,
                                       group: Group, m: map<Outpoint, int>)
    requires forall i | 0 <= i < |outputs| :: Owned(outputs[i].wallet, owners)
    ensures OutSum(outputs, field, owners, group) == OutSum(outputs, field, None, group)
    ensures Stored(txid, outputs, field, owners, group, m) == Stored(txid, outputs, field, None, group, m)
    decreases |outputs|
  {
    if outputs != [] {
      SameOutputs(txid, outputs[..|outputs| - 1], field, owners, group, m);
    }
  }

  lemma SameAdvance(before: Ledger, cj: Coinjoin, field: Field, owners: Option<set<string>>)
    requires forall i | 0 <= i < |cj.inputs| :: Owned(cj.inputs[i].wallet, owners)
    requires forall i | 0 <= i < |cj.outputs| :: Owned(cj.outputs[i].wallet, owners)
    ensures Advance(before, cj, field, owners) == Advance(before, cj, field, None)
  {
    SameInputs(cj.inputs, field, owners, before.unmoved);
    var popped := Popped(cj.inputs, None, before.unmoved);
    SameOutputs(cj.txid, cj.outputs, field, owners, Leaving, popped);
    SameOutputs(cj.txid, cj.outputs, field, owners, FastLeaving, popped);
    SameOutputs(cj.txid, cj.outputs, field, owners, Unmoved, popped);
  }

  lemma {:induction false} SameTotals(coinjoins: seq<Coinjoin>, field: Field, wallets: set<string>)
    requires AllOwned(coinjoins, wallets)
    ensures After(coinjoins, field, Some(wallets)) == After(coinjoins, field, None)
    decreases |coinjoins|
  {
    if coinjoins != [] {
      var n := |coinjoins| - 1;
      SameTotals(coinjoins[..n], field, wallets);
      SameAdvance(After(coinjoins[..n], field, None), coinjoins[n], field, Some(wallets));
    }
  }

  lemma PoolIsEveryone(coinjoins: seq<Coinjoin>, field: Field, wallets: set<string>, k: nat)
    requires AllOwned(coinjoins, wallets) && k < |coinjoins|
    ensures OwnerEntry(coinjoins, field, Some(wallets), k) == OwnerEntry(coinjoins, field, None, k)
  {
    OwnerEntryFromTotals(coinjoins, field, Some(wallets), k);
    OwnerEntryFromTotals(coinjoins, field, None, k);
    SameTotals(coinjoins[..k + 1], field, wallets);
    SameInputs(coinjoins[k].inputs, field, Some(wallets), map[]);
    SameOutputs(coinjoins[k].txid, coinjoins[k].outputs, field, Some(wallets), Leaving, map[]);
    SameOutputs(coinjoins[k].txid, coinjoins[k].outputs, field, Some(wallets), Staying, map[]);
  }

  function Members(wallets: seq<string>): set<string> {
    if wallets == [] then {} else Members(wallets[..|wallets| - 1]) + {wallets[|wallets| - 1]}
  }

  /** The sum over a list of wallets, each on its own. */
  function WalletSum(coinjoins: seq<Coinjoin>, field: Field, wallets: seq<string>, k: nat): Entry
    requires k < |coinjoins|
  {
    if wallets == [] then Entry(0, 0, 0, 0, 0, 0, 0)
    else
      var n := |wallets| - 1;
      Plus(WalletSum(coinjoins, field, wallets[..n], k), OwnerEntry(coinjoins, field, Some({wallets[n]}), k))
  }

  lemma {:induction false} NobodyOwnsNothing(coinjoins: seq<Coinjoin>, field: Field)
    ensures After(coinjoins, field, Some({})) == Ledger(0, 0, 0, map[])
    decreases |coinjoins|
  {
    if coinjoins != [] {
      var n := |coinjoins| - 1;
      NobodyOwnsNothing(coinjoins[..n], field);
      NothingFlows(coinjoins[n], field);
    }
  }

  lemma NothingFlows(cj: Coinjoin, field: Field)
    ensures EnterSum(cj.inputs, field, Some({})) == 0
    ensures forall group :: OutSum(cj.outputs, field, Some({}), group) == 0
    ensures Popped(cj.inputs, Some({}), map[]) == map[] && PoppedValue(cj.inputs, Some({}), map[]) == 0
    ensures Stored(cj.txid, cj.outputs, field, Some({}), Unmoved, map[]) == map[]
  {
    NoInputs(cj.inputs, field);
    NoOutputs(cj.txid, cj.outputs, field);
  }

  lemma {:induction false} NoInputs(inputs: seq<InItem>, field: Field)
    ensures EnterSum(inputs, field, Some({})) == 0
    ensures Popped(inputs, Some({}), map[]) == map[] && PoppedValue(inputs, Some({}), map[]) == 0
    decreases |inputs|
  {
    if inputs != [] {
      NoInputs(inputs[..|inputs| - 1], field);
    }
  }

  lemma {:induction false} NoOutputs(txid: string, outputs: seq<OutItem>, field: Field)
    ensures forall group :: OutSum(outputs, field, Some({}), group) == 0
    ensures Stored(txid, outputs, field, Some({}), Unmoved, map[]) == map[]
    decreases |outputs|
  {
    if outputs != [] {
      NoOutputs(txid, outputs[..|outputs| - 1], field);
    }
  }

  ghost predicate Distinct(wallets: seq<string>) {
    wallets == [] || (Distinct(wallets[..|wallets| - 1])
                      && wallets[|wallets| - 1] !in Members(wallets[..|wallets| - 1]))
  }

  lemma NobodysEntry(coinjoins: seq<Coinjoin>, field: Field, k: nat)
    requires k < |coinjoins|
    ensures OwnerEntry(coinjoins, field, Some({}), k) == Entry(0, 0, 0, 0, 0, 0, 0)
  {
    OwnerEntryFromTotals(coinjoins, field, Some({}), k);
    NobodyOwnsNothing(coinjoins[..k + 1], field);
    NothingFlows(coinjoins[k], field);
  }

  lemma {:induction false} WalletSumIsUnion(coinjoins: seq<Coinjoin>, field: Field, wallets: seq<string>, k: nat)
    requires Ordered(coinjoins) && OwnersAgree(coinjoins) && k < |coinjoins| && Distinct(wallets)
    ensures WalletSum(coinjoins, field, wallets, k) == OwnerEntry(coinjoins, field, Some(Members(wallets)), k)
    decreases |wallets|
  {
    if wallets == [] {
      NobodysEntry(coinjoins, field, k);
    } else {
      var n := |wallets| - 1;
      WalletSumIsUnion(coinjoins, field, wallets[..n], k);
      SeriesOfUnion(coinjoins, field, Members(wallets[..n]), {wallets[n]}, k);
    }
  }

  /** When every coin belongs to a listed wallet, the pool is the sum over the wallets. */
  lemma PoolIsSumOfWallets(coinjoins: seq<Coinjoin>, field: Field, wallets: seq<string>, k: nat)
    requires Ordered(coinjoins) && OwnersAgree(coinjoins) && k < |coinjoins|
    requires Distinct(wallets)
    requires AllOwned(coinjoins, Members(wallets))
    ensures OwnerEntry(coinjoins, field, None, k) == WalletSum(coinjoins, field, wallets, k)
  {
    WalletSumIsUnion(coinjoins, field, wallets, k);
    PoolIsEveryone(coinjoins, field, Members(wallets), k);
  }
}
