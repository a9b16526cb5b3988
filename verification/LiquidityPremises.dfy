/**
 From transactions to classified coinjoins: on any chain of transactions that spends each
 output once, and any coinjoin order that respects spending, the classification yields the
 history the conservation and decomposition results need.
*/
module LiquidityPremises {
  import opened Common
  import opened Liquidity
  import opened LiquidityConservation
  import opened WalletDecomposition

  // ------------------------------------------------------------------------ premises

  ghost predicate IsInput(txs: seq<Transaction>, t: int, i: int) {
    0 <= t < |txs| && 0 <= i < |txs[t].inputs|
  }

  ghost predicate IsOutput(txs: seq<Transaction>, t: int, o: int) {
    0 <= t < |txs| && 0 <= o < |txs[t].outputs|
  }

  function Outputpoint(txs: seq<Transaction>, t: nat, o: nat): Outpoint
    requires t < |txs| && o < |txs[t].outputs|
  {
    (txs[t].txid, txs[t].outputs[o].index)
  }

  ghost predicate UniqueTxids(txs: seq<Transaction>) {
    forall s, t | 0 <= s < |txs| && 0 <= t < |txs| && txs[s].txid == txs[t].txid :: s == t
  }

  ghost predicate UniqueOutputs(txs: seq<Transaction>) {
    forall t, o, o' | IsOutput(txs, t, o) && IsOutput(txs, t, o')
        && txs[t].outputs[o].index == txs[t].outputs[o'].index :: o == o'
  }

  ghost predicate SpentOnce(txs: seq<Transaction>) {
    forall t, i, t', i' | IsInput(txs, t, i) && IsInput(txs, t', i')
      && SpentBy(txs[t], i).Some? && SpentBy(txs[t], i) == SpentBy(txs[t'], i') :: t == t' && i == i'
  }

  /** An input carries the value and the owner of the output it spends. */
  ghost predicate InputsCarryOutputs(txs: seq<Transaction>) {
    forall t, i, s, o | IsInput(txs, t, i) && IsOutput(txs, s, o)
        && SpentBy(txs[t], i) == Some(Outputpoint(txs, s, o)) ::
      txs[t].inputs[i].value == txs[s].outputs[o].value && txs[t].inputs[i].wallet == txs[s].outputs[o].wallet
  }

  /** An input that names a listed transaction spends one of its outputs. */
  ghost predicate InputsExist(txs: seq<Transaction>) {
    forall t, i, s | IsInput(txs, t, i) && 0 <= s < |txs| && txs[t].inputs[i].prevTxid == Some(txs[s].txid) ::
      SpendsSome(txs, t, i, s)
  }

  ghost predicate SpendsSome(txs: seq<Transaction>, t: nat, i: nat, s: nat)
    requires IsInput(txs, t, i) && s < |txs|
  {
    exists o :: IsOutput(txs, s, o) && SpentBy(txs[t], i) == Some(Outputpoint(txs, s, o))
  }

  ghost predicate Chain(txs: seq<Transaction>) {
    UniqueTxids(txs) && UniqueOutputs(txs) && SpentOnce(txs) && InputsCarryOutputs(txs) && InputsExist(txs)
  }

  /** `at[j]` is where the j-th coinjoin stands in the list; a coinjoin comes after those it spends. */
  ghost predicate SpendingOrder(order: seq<string>, txs: seq<Transaction>, at: seq<nat>) {
    && |at| == |order|
    && (forall j | 0 <= j < |order| :: at[j] < |txs| && txs[at[j]].txid == order[j])
    && (forall p, j | 0 <= p < |order| && 0 <= j < |order| && order[p] == order[j] :: p == j)
    && forall p, j, i | 0 <= p < |order| && 0 <= j < |order| && IsInput(txs, at[j], i)
         && txs[at[j]].inputs[i].prevTxid == Some(order[p]) :: p < j
  }

  /** The same transactions, or some of them, in another order. */
  ghost predicate Rearranged(txs: seq<Transaction>, original: seq<Transaction>, place: seq<nat>) {
    && |place| == |txs|
    && (forall t | 0 <= t < |txs| :: place[t] < |original| && txs[t] == original[place[t]])
    && (forall s, t | 0 <= s < |txs| && 0 <= t < |txs| && place[s] == place[t] :: s == t)
  }

  /** A chain does not depend on the order of the list; the export is written sorted by ID. */
  lemma ChainRearranged(txs: seq<Transaction>, original: seq<Transaction>, place: seq<nat>)
    requires Chain(original) && Rearranged(txs, original, place)
    ensures Chain(txs)
  {
    forall t, i, s | IsInput(txs, t, i) && 0 <= s < |txs| && txs[t].inputs[i].prevTxid == Some(txs[s].txid)
      ensures SpendsSome(txs, t, i, s)
    {
      assert SpendsSome(original, place[t], i, place[s]);
      var o :| IsOutput(original, place[s], o) && SpentBy(original[place[t]], i)
          == Some(Outputpoint(original, place[s], o));
      assert IsOutput(txs, s, o) && SpentBy(txs[t], i) == Some(Outputpoint(txs, s, o));
    }
  }

  // --------------------------------------------------------------------- lookups

  lemma {:induction false} LookupFinds(txs: seq<Transaction>, t: nat)
    requires UniqueTxids(txs) && t < |txs|
    ensures Lookup(txs, txs[t].txid) == Some(txs[t])
    decreases |txs|
  {
    var n := |txs| - 1;
    if t != n {
      assert txs[n].txid != txs[t].txid;
      assert UniqueTxids(txs[..n]);
      LookupFinds(txs[..n], t);
    }
  }

  ghost predicate SpendsKey(txs: seq<Transaction>, t: int, i: int, key: Outpoint) {
    IsInput(txs, t, i) && SpentBy(txs[t], i) == Some(key)
  }

  /** The index names a transaction that spends the output, and misses no spent output. */
  lemma {:induction false} SpenderFound(txs: seq<Transaction>, key: Outpoint)
    ensures key in Spenders(txs) ==> exists t, i :: SpendsKey(txs, t, i, key) && Spenders(txs)[key] == txs[t].txid
    ensures key !in Spenders(txs) ==> forall t, i :: !SpendsKey(txs, t, i, key)
    decreases |txs|
  {
    if txs != [] {
      var n := |txs| - 1;
      SpenderFound(txs[..n], key);
      RecordedSpends(Spenders(txs[..n]), txs[n], |txs[n].inputs|, key);
      if i :| 0 <= i < |txs[n].inputs| && SpentBy(txs[n], i) == Some(key) {
        assert SpendsKey(txs, n, i, key);
      } else {
        if key in Spenders(txs) {
          var t, i :| SpendsKey(txs[..n], t, i, key) && Spenders(txs[..n])[key] == txs[..n][t].txid;
          assert SpendsKey(txs, t, i, key);
        }
        forall t, i | key !in Spenders(txs)
          ensures !SpendsKey(txs, t, i, key)
        {
          assert !SpendsKey(txs[..n], t, i, key);
        }
      }
    }
  }

  lemma TheSpender(txs: seq<Transaction>, t: nat, i: nat, key: Outpoint)
    requires SpentOnce(txs) && SpendsKey(txs, t, i, key)
    ensures key in Spenders(txs) && Spenders(txs)[key] == txs[t].txid
  {
    SpenderFound(txs, key);
    var s, k :| SpendsKey(txs, s, k, key) && Spenders(txs)[key] == txs[s].txid;
  }

  // ----------------------------------------------------------- classified coinjoins

  ghost predicate Setting(order: seq<string>, txs: seq<Transaction>, at: seq<nat>) {
    Chain(txs) && SpendingOrder(order, txs, at)
  }

  lemma AllFound(order: seq<string>, txs: seq<Transaction>, at: seq<nat>)
    requires Setting(order, txs, at)
    ensures forall j | 0 <= j < |order| :: Lookup(txs, order[j]) == Some(txs[at[j]])
  {
    forall j | 0 <= j < |order|
      ensures Lookup(txs, order[j]) == Some(txs[at[j]])
    {
      LookupFinds(txs, at[j]);
    }
  }

  /** The j-th classified coinjoin mirrors its transaction. */
  lemma Mirrors(order: seq<string>, txs: seq<Transaction>, at: seq<nat>, reports: Reports, j: nat)
    requires Setting(order, txs, at) && j < |order|
    requires forall p | 0 <= p < |order| :: Lookup(txs, order[p]).Some?
    ensures var cj, tx := Classified(order, txs, reports)[j], txs[at[j]];
            && cj.txid == order[j] == tx.txid && |cj.inputs| == |tx.inputs| && |cj.outputs| == |tx.outputs|
            && (forall i | 0 <= i < |tx.inputs| ::
                 cj.inputs[i] == ClassifyInput(tx.inputs[i], order[j], order, reports))
            && (forall i | 0 <= i < |tx.outputs| :: cj.outputs[i]
                  == ClassifyOutput(tx.outputs[i], order[j], j, order, txs, CoinjoinHeights(order, txs), Spenders(txs),
                                    reports))
  {
    AllFound(order, txs, at);
  }

  lemma {:induction false} CreatedOrigin(coinjoins: seq<Coinjoin>, key: Outpoint)
    requires key in Created(coinjoins)
    ensures exists p, o :: 0 <= p < |coinjoins| && 0 <= o < |coinjoins[p].outputs|
              && key == (coinjoins[p].txid, coinjoins[p].outputs[o].index)
    decreases |coinjoins|
  {
    var n := |coinjoins| - 1;
    if key in CreatedBy(coinjoins[n].txid, coinjoins[n].outputs) {
      CreatedByOrigin(coinjoins[n].txid, coinjoins[n].outputs);
      var o :| 0 <= o < |coinjoins[n].outputs| && key == (coinjoins[n].txid, coinjoins[n].outputs[o].index);
    } else {
      CreatedOrigin(coinjoins[..n], key);
      var p, o :| 0 <= p < n && 0 <= o < |coinjoins[..n][p].outputs|
               && key == (coinjoins[..n][p].txid, coinjoins[..n][p].outputs[o].index);
      assert coinjoins[p] == coinjoins[..n][p];
    }
  }

  lemma {:induction false} SpentOrigin(coinjoins: seq<Coinjoin>, key: Outpoint)
    requires key in SpentKeys(coinjoins, None)
    ensures exists p, i :: 0 <= p < |coinjoins| && 0 <= i < |coinjoins[p].inputs|
              && Key(coinjoins[p].inputs[i]) == Some(key)
    decreases |coinjoins|
  {
    var n := |coinjoins| - 1;
    if key in SpentKeys(coinjoins[..n], None) {
      SpentOrigin(coinjoins[..n], key);
      var p, i :| 0 <= p < n && 0 <= i < |coinjoins[..n][p].inputs| && Key(coinjoins[..n][p].inputs[i]) == Some(key);
      assert coinjoins[p] == coinjoins[..n][p];
    } else {
      InputKeyOrigin(coinjoins[n].inputs, None);
    }
  }

  /** Whatever is spent by the first coinjoins is spent by an input of one of their transactions. */
  lemma SpentEarlier(order: seq<string>, txs: seq<Transaction>, at: seq<nat>, reports: Reports, j: nat, key: Outpoint)
    returns (p: nat, i: nat)
    requires Setting(order, txs, at) && j <= |order|
    requires forall p | 0 <= p < |order| :: Lookup(txs, order[p]).Some?
    requires key in SpentKeys(Classified(order, txs, reports)[..j], None)
    ensures p < j && SpendsKey(txs, at[p], i, key)
  {
    var before := Classified(order, txs, reports)[..j];
    SpentOrigin(before, key);
    p, i :| 0 <= p < j && 0 <= i < |before[p].inputs| && Key(before[p].inputs[i]) == Some(key);
    Mirrors(order, txs, at, reports, p);
  }

  lemma CreatedEarlier(order: seq<string>, txs: seq<Transaction>, at: seq<nat>, reports: Reports, j: nat, key: Outpoint)
    returns (p: nat)
    requires Setting(order, txs, at) && j <= |order|
    requires forall p | 0 <= p < |order| :: Lookup(txs, order[p]).Some?
    requires key in Created(Classified(order, txs, reports)[..j])
    ensures p < j && key.0 == order[p]
  {
    var before := Classified(order, txs, reports)[..j];
    CreatedOrigin(before, key);
    var o;
    p, o :| 0 <= p < j && 0 <= o < |before[p].outputs| && key == (before[p].txid, before[p].outputs[o].index);
    Mirrors(order, txs, at, reports, p);
  }

  lemma OutputIsFresh(order: seq<string>, txs: seq<Transaction>, at: seq<nat>, reports: Reports, j: nat, index: int)
    requires Setting(order, txs, at) && j < |order|
    requires forall p | 0 <= p < |order| :: Lookup(txs, order[p]).Some?
    ensures (order[j], index) !in Created(Classified(order, txs, reports)[..j])
    ensures (order[j], index) !in SpentKeys(Classified(order, txs, reports)[..j], None)
    ensures (order[j], index) !in InputKeys(Classified(order, txs, reports)[j].inputs, None)
  {
    var all, key := Classified(order, txs, reports), (order[j], index);
    if key in Created(all[..j]) {
      var p := CreatedEarlier(order, txs, at, reports, j, key);
    }
    if key in SpentKeys(all[..j], None) {
      var p, i := SpentEarlier(order, txs, at, reports, j, key);
    }
    if key in InputKeys(all[j].inputs, None) {
      Mirrors(order, txs, at, reports, j);
      InputKeyOrigin(all[j].inputs, None);
      var i :| 0 <= i < |all[j].inputs| && Key(all[j].inputs[i]) == Some(key);
      assert IsInput(txs, at[j], i);
    }
  }

  /** The outputs of a coinjoin are new and unspent when it confirms. */
  lemma OutputsAreFresh(order: seq<string>, txs: seq<Transaction>, at: seq<nat>, reports: Reports, j: nat)
    requires Setting(order, txs, at) && j < |order|
    requires forall p | 0 <= p < |order| :: Lookup(txs, order[p]).Some?
    ensures FreshOutputs(Classified(order, txs, reports)[..j], Classified(order, txs, reports)[j])
  {
    var all := Classified(order, txs, reports);
    var cj := all[j];
    Mirrors(order, txs, at, reports, j);
    forall o, o' | 0 <= o < o' < |cj.outputs|
      ensures cj.outputs[o].index != cj.outputs[o'].index
    {
      assert IsOutput(txs, at[j], o) && IsOutput(txs, at[j], o');
    }
    forall o | 0 <= o < |cj.outputs|
      ensures (cj.txid, cj.outputs[o].index) !in Created(all[..j])
      ensures (cj.txid, cj.outputs[o].index) !in SpentKeys(all[..j], None)
      ensures (cj.txid, cj.outputs[o].index) !in InputKeys(cj.inputs, None)
    {
      OutputIsFresh(order, txs, at, reports, j, cj.outputs[o].index);
    }
  }

  /** The inputs of a coinjoin spend distinct outputs nobody spent before. */
  lemma InputsAreFresh(order: seq<string>, txs: seq<Transaction>, at: seq<nat>, reports: Reports, j: nat)
    requires Setting(order, txs, at) && j < |order|
    requires forall p | 0 <= p < |order| :: Lookup(txs, order[p]).Some?
    ensures FreshInputs(Classified(order, txs, reports)[..j], Classified(order, txs, reports)[j])
  {
    var all := Classified(order, txs, reports);
    var cj := all[j];
    Mirrors(order, txs, at, reports, j);
    forall i, i' | 0 <= i < i' < |cj.inputs| && Key(cj.inputs[i]).Some?
      ensures Key(cj.inputs[i]) != Key(cj.inputs[i'])
    {
      assert IsInput(txs, at[j], i) && IsInput(txs, at[j], i');
    }
    forall i | 0 <= i < |cj.inputs| && Key(cj.inputs[i]).Some?
      ensures Key(cj.inputs[i]).value !in SpentKeys(all[..j], None)
    {
      if Key(cj.inputs[i]).value in SpentKeys(all[..j], None) {
        assert IsInput(txs, at[j], i);
        var p, i' := SpentEarlier(order, txs, at, reports, j, Key(cj.inputs[i]).value);
      }
    }
  }

  /** The output a remixed input spends: created earlier, with the same value and owner. */
  lemma RemixedFrom(order: seq<string>, txs: seq<Transaction>, at: seq<nat>, reports: Reports, j: nat, i: nat, p: nat)
    returns (o: nat)
    requires Setting(order, txs, at) && j < |order| && p < |order|
    requires forall q | 0 <= q < |order| :: Lookup(txs, order[q]).Some?
    requires i < |txs[at[j]].inputs| && txs[at[j]].inputs[i].prevTxid == Some(order[p])
    ensures p < j
    ensures var all := Classified(order, txs, reports);
            && i < |all[j].inputs|
            && o < |all[p].outputs|
            && Key(all[j].inputs[i]) == Some((all[p].txid, all[p].outputs[o].index))
            && all[j].inputs[i].value == all[p].outputs[o].value
            && all[j].inputs[i].wallet == all[p].outputs[o].wallet
            && all[p].outputs[o].events.truth == Remix
  {
    Mirrors(order, txs, at, reports, j);
    Mirrors(order, txs, at, reports, p);
    assert IsInput(txs, at[j], i);
    assert SpendsSome(txs, at[j], i, at[p]);
    o :| IsOutput(txs, at[p], o) && SpentBy(txs[at[j]], i) == Some(Outputpoint(txs, at[p], o));
    TheSpender(txs, at[j], i, Outputpoint(txs, at[p], o));
  }

  lemma InputsResolve(order: seq<string>, txs: seq<Transaction>, at: seq<nat>, reports: Reports, j: nat, i: nat)
    requires Setting(order, txs, at) && j < |order|
    requires forall p | 0 <= p < |order| :: Lookup(txs, order[p]).Some?
    requires i < |Classified(order, txs, reports)[j].inputs|
    requires Ordered(Classified(order, txs, reports)[..j])
    ensures Resolved(Classified(order, txs, reports)[..j], Classified(order, txs, reports)[j].inputs[i])
    ensures var all := Classified(order, txs, reports);
            var item := all[j].inputs[i];
            Key(item).Some? && Key(item).value in Created(all[..j]) ==>
              item.wallet == Created(all[..j])[Key(item).value].wallet
  {
    var all := Classified(order, txs, reports);
    var item := all[j].inputs[i];
    Mirrors(order, txs, at, reports, j);
    if item.events.truth == Remix {
      var p := IndexIn(order, item.prevTxid.value);
      var o := RemixedFrom(order, txs, at, reports, j, i, p);
      CreatedHolds(all[..j], p, o);
    } else if Key(item).Some? && Key(item).value in Created(all[..j]) {
      var p := CreatedEarlier(order, txs, at, reports, j, Key(item).value);
    }
  }

  lemma IndexIn(order: seq<string>, txid: string) returns (p: nat)
    requires txid in order
    ensures p < |order| && order[p] == txid
  {
    p :| 0 <= p < |order| && order[p] == txid;
  }

  /** The classification of the first coinjoins is sound, and owners agree. */
  lemma {:induction false} PrefixIsSound(order: seq<string>, txs: seq<Transaction>, at: seq<nat>, reports: Reports,
                                         j: nat)
    requires Setting(order, txs, at) && j <= |order|
    requires forall p | 0 <= p < |order| :: Lookup(txs, order[p]).Some?
    ensures Sound(Classified(order, txs, reports)[..j]) && OwnersAgree(Classified(order, txs, reports)[..j])
    decreases j
  {
    if j > 0 {
      var all, n := Classified(order, txs, reports), j - 1;
      PrefixIsSound(order, txs, at, reports, n);
      SoundIsOrdered(all[..n]);
      assert all[..j][..n] == all[..n] && all[..j][n] == all[n];
      OutputsAreFresh(order, txs, at, reports, n);
      InputsAreFresh(order, txs, at, reports, n);
      forall i | 0 <= i < |all[n].inputs|
        ensures Resolved(all[..n], all[n].inputs[i])
      {
        InputsResolve(order, txs, at, reports, n, i);
      }
      forall i | 0 <= i < |all[n].inputs| && Key(all[n].inputs[i]).Some?
          && Key(all[n].inputs[i]).value in Created(all[..n])
        ensures all[n].inputs[i].wallet == Created(all[..n])[Key(all[n].inputs[i]).value].wallet
      {
        InputsResolve(order, txs, at, reports, n, i);
      }
      assert InputOwnersAgree(all[..n], all[n]);
      assert SoundStep(all[..n], all[n]);
    }
  }

  lemma {:induction false} PositionOf(order: seq<string>, p: nat)
    requires p < |order| && forall q, j | 0 <= q < |order| && 0 <= j < |order| && order[q] == order[j] :: q == j
    ensures Position(order, order[p]) == Some(p)
  {
    var q := Position(order, order[p]);
  }

  /** The coinjoin that spends an output the index assigns to a coinjoin. */
  lemma SpendingCoinjoin(order: seq<string>, txs: seq<Transaction>, at: seq<nat>, key: Outpoint)
    returns (p: nat, i: nat)
    requires Setting(order, txs, at) && key in Spenders(txs) && Spenders(txs)[key] in order
    ensures p < |order| && order[p] == Spenders(txs)[key] && SpendsKey(txs, at[p], i, key)
  {
    SpenderFound(txs, key);
    var t, k :| SpendsKey(txs, t, k, key) && Spenders(txs)[key] == txs[t].txid;
    p := IndexIn(order, txs[t].txid);
    i := k;
    assert at[p] == t;
  }

  /** A remixed output is scheduled for the coinjoin that spends it. */
  lemma RemixIsScheduled(order: seq<string>, txs: seq<Transaction>, at: seq<nat>, reports: Reports, j: nat, o: nat)
    requires Setting(order, txs, at) && j < |order|
    requires forall p | 0 <= p < |order| :: Lookup(txs, order[p]).Some?
    requires o < |Classified(order, txs, reports)[j].outputs|
    requires Classified(order, txs, reports)[j].outputs[o].events.truth == Remix
    ensures RemixScheduled(Classified(order, txs, reports), j, Classified(order, txs, reports)[j].outputs[o])
  {
    var all := Classified(order, txs, reports);
    var item := all[j].outputs[o];
    Mirrors(order, txs, at, reports, j);
    var key := (order[j], item.index);
    var p, i := SpendingCoinjoin(order, txs, at, key);
    PositionOf(order, p);
    Mirrors(order, txs, at, reports, p);
    InputKeyListed(all[p].inputs, None, i);
  }

  // --------------------------------------------------------------------- main result

  /** Every chain and every order that respects spending give a sound, scheduled history. */
  lemma ClassifiedHistory(order: seq<string>, txs: seq<Transaction>, at: seq<nat>, reports: Reports)
    requires Setting(order, txs, at)
    ensures forall j | 0 <= j < |order| :: Lookup(txs, order[j]).Some?
    ensures Sound(Classified(order, txs, reports)) && Scheduled(Classified(order, txs, reports))
    ensures OwnersAgree(Classified(order, txs, reports))
  {
    AllFound(order, txs, at);
    var all := Classified(order, txs, reports);
    PrefixIsSound(order, txs, at, reports, |order|);
    assert all[..|order|] == all;
    forall j, o | 0 <= j < |all| && 0 <= o < |all[j].outputs|
      ensures all[j].outputs[o].events.truth == Remix ==> RemixScheduled(all, j, all[j].outputs[o])
      ensures all[j].outputs[o].events.truth == Stay ==> all[j].outputs[o].distance == None
    {
      Mirrors(order, txs, at, reports, j);
      if all[j].outputs[o].events.truth == Remix {
        RemixIsScheduled(order, txs, at, reports, j, o);
      }
    }
  }
}
