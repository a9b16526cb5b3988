/**
 The order in which the liquidity report takes the coinjoins: by confirmation height, then by
 broadcast time, then by ID; and exactly when that order respects spending.
*/
module CoinjoinOrder {
  import opened Common
  import opened Liquidity
  import opened LiquidityConservation
  import opened LiquidityPremises
  import opened ExportedTransactions

  /** An unconfirmed transaction sorts after every confirmed one; times and IDs compare as text. */
  datatype SortKey = SortKey(height: Option<int>, broadcast: string, txid: string)

  predicate TextLess(a: string, b: string) {
    if b == [] then false
    else if a == [] then true
    else a[0] < b[0] || (a[0] == b[0] && TextLess(a[1..], b[1..]))
  }

  predicate HeightLess(a: Option<int>, b: Option<int>) {
    a.Some? && (b.None? || a.value < b.value)
  }

  predicate KeyLess(a: SortKey, b: SortKey) {
    || HeightLess(a.height, b.height)
    || (a.height == b.height
        && (TextLess(a.broadcast, b.broadcast) || (a.broadcast == b.broadcast && TextLess(a.txid, b.txid))))
  }

  function KeyOf(tx: Transaction, broadcasts: map<string, string>): SortKey {
    SortKey(tx.height, if tx.txid in broadcasts then broadcasts[tx.txid] else "", tx.txid)
  }

  /** The keys of the coinjoins, in the order of the list. */
  function Selected(txs: seq<Transaction>, coinjoins: set<string>, broadcasts: map<string, string>): seq<SortKey> {
    if txs == [] then []
    else
      var n := |txs| - 1;
      Selected(txs[..n], coinjoins, broadcasts) + if txs[n].txid in coinjoins then [KeyOf(txs[n], broadcasts)] else []
  }

  function Insert(key: SortKey, keys: seq<SortKey>): seq<SortKey> {
    if keys == [] || KeyLess(key, keys[0]) then [key] + keys else [keys[0]] + Insert(key, keys[1..])
  }

  function Sort(keys: seq<SortKey>): seq<SortKey> {
    if keys == [] then [] else Insert(keys[|keys| - 1], Sort(keys[..|keys| - 1]))
  }

  function Order(txs: seq<Transaction>, coinjoins: set<string>, broadcasts: map<string, string>): seq<string> {
    var keys := Sort(Selected(txs, coinjoins, broadcasts));
    seq(|keys|, j requires 0 <= j < |keys| => keys[j].txid)
  }

  // ------------------------------------------------------------------ comparing keys

  lemma {:induction false} TextTotal(a: string, b: string)
    ensures !(TextLess(a, b) && TextLess(b, a))
    ensures TextLess(a, b) || a == b || TextLess(b, a)
    decreases |a| + |b|
  {
    if a != [] && b != [] && a[0] == b[0] {
      TextTotal(a[1..], b[1..]);
      assert a == [a[0]] + a[1..] && b == [b[0]] + b[1..];
    }
  }

  lemma {:induction false} TextTransitive(a: string, b: string, c: string)
    requires TextLess(a, b) && TextLess(b, c)
    ensures TextLess(a, c)
    decreases |a|
  {
    if a != [] && a[0] == b[0] && b[0] == c[0] { TextTransitive(a[1..], b[1..], c[1..]); }
  }

  lemma KeyTotal(a: SortKey, b: SortKey)
    ensures !(KeyLess(a, b) && KeyLess(b, a))
    ensures KeyLess(a, b) || a == b || KeyLess(b, a)
  {
    TextTotal(a.broadcast, b.broadcast);
    TextTotal(a.txid, b.txid);
  }

  lemma KeyTransitive(a: SortKey, b: SortKey, c: SortKey)
    requires KeyLess(a, b) && KeyLess(b, c)
    ensures KeyLess(a, c)
  {
    if TextLess(a.broadcast, b.broadcast) && TextLess(b.broadcast, c.broadcast) {
      TextTransitive(a.broadcast, b.broadcast, c.broadcast);
    }
    if TextLess(a.txid, b.txid) && TextLess(b.txid, c.txid) { TextTransitive(a.txid, b.txid, c.txid); }
  }

  // ----------------------------------------------------------------------- the sort

  ghost predicate Sorted(keys: seq<SortKey>) {
    forall p, j | 0 <= p < j < |keys| :: keys[p] == keys[j] || KeyLess(keys[p], keys[j])
  }

  lemma {:induction false} InsertSorts(key: SortKey, keys: seq<SortKey>)
    requires Sorted(keys)
    ensures Sorted(Insert(key, keys)) && multiset(Insert(key, keys)) == multiset(keys) + multiset{key}
    decreases |keys|
  {
    if keys == [] {
    } else if KeyLess(key, keys[0]) {
      forall j | 0 < j < |keys|
        ensures KeyLess(key, keys[j])
      {
        if keys[0] != keys[j] { KeyTransitive(key, keys[0], keys[j]); }
      }
    } else {
      var rest := Insert(key, keys[1..]);
      InsertSorts(key, keys[1..]);
      KeyTotal(key, keys[0]);
      forall j | 0 <= j < |rest|
        ensures keys[0] == rest[j] || KeyLess(keys[0], rest[j])
      {
        assert rest[j] in multiset(keys[1..]) + multiset{key};
      }
      assert keys == [keys[0]] + keys[1..];
    }
  }

  lemma {:induction false} SortSorts(keys: seq<SortKey>)
    ensures Sorted(Sort(keys)) && multiset(Sort(keys)) == multiset(keys)
    decreases |keys|
  {
    if keys != [] {
      var n := |keys| - 1;
      SortSorts(keys[..n]);
      InsertSorts(keys[n], Sort(keys[..n]));
      assert keys == keys[..n] + [keys[n]];
    }
  }

  // ------------------------------------------------------------ what the order lists

  ghost predicate IsCoinjoin(txs: seq<Transaction>, coinjoins: set<string>, t: int) {
    0 <= t < |txs| && txs[t].txid in coinjoins
  }

  /** The selected keys are those of the coinjoins, each once. */
  lemma {:induction false} SelectedOnce(txs: seq<Transaction>, coinjoins: set<string>, broadcasts: map<string, string>,
                                        key: SortKey)
    requires UniqueTxids(txs)
    ensures key in Selected(txs, coinjoins, broadcasts)
            <==> exists t :: IsCoinjoin(txs, coinjoins, t) && KeyOf(txs[t], broadcasts) == key
    ensures multiset(Selected(txs, coinjoins, broadcasts))[key] <= 1
    decreases |txs|
  {
    if txs != [] {
      var n := |txs| - 1;
      var before := txs[..n];
      assert UniqueTxids(before);
      SelectedOnce(before, coinjoins, broadcasts, key);
      assert forall t | 0 <= t < n :: before[t] == txs[t] && txs[t].txid != txs[n].txid;
      assert forall t | IsCoinjoin(before, coinjoins, t) :: IsCoinjoin(txs, coinjoins, t);
      if KeyOf(txs[n], broadcasts) == key && txs[n].txid in coinjoins {
        assert IsCoinjoin(txs, coinjoins, n);
        assert key !in Selected(before, coinjoins, broadcasts);
      } else if t :| IsCoinjoin(txs, coinjoins, t) && KeyOf(txs[t], broadcasts) == key {
        assert IsCoinjoin(before, coinjoins, t);
      }
    }
  }

  lemma {:induction false} DistinctOnce(keys: seq<SortKey>, p: nat, j: nat)
    requires p < j < |keys| && multiset(keys)[keys[p]] <= 1
    ensures keys[p] != keys[j]
  {
    assert keys == keys[..j] + keys[j..];
    assert keys[p] == keys[..j][p] && keys[j] == keys[j..][0];
    assert keys[p] in multiset(keys[..j]) && keys[j] in multiset(keys[j..]);
  }

  /** The sorted keys are strictly increasing, and each is that of a coinjoin. */
  lemma KeysIncrease(txs: seq<Transaction>, coinjoins: set<string>, broadcasts: map<string, string>, p: nat, j: nat)
    requires UniqueTxids(txs) && p < j < |Sort(Selected(txs, coinjoins, broadcasts))|
    ensures var keys := Sort(Selected(txs, coinjoins, broadcasts)); KeyLess(keys[p], keys[j])
  {
    var keys := Sort(Selected(txs, coinjoins, broadcasts));
    SortSorts(Selected(txs, coinjoins, broadcasts));
    SelectedOnce(txs, coinjoins, broadcasts, keys[p]);
    DistinctOnce(keys, p, j);
  }

  lemma ListedFrom(txs: seq<Transaction>, coinjoins: set<string>, broadcasts: map<string, string>, j: nat)
    returns (t: nat)
    requires UniqueTxids(txs) && j < |Order(txs, coinjoins, broadcasts)|
    ensures IsCoinjoin(txs, coinjoins, t) && txs[t].txid == Order(txs, coinjoins, broadcasts)[j]
    ensures KeyOf(txs[t], broadcasts) == Sort(Selected(txs, coinjoins, broadcasts))[j]
  {
    var selected := Selected(txs, coinjoins, broadcasts);
    var keys := Sort(selected);
    SortSorts(selected);
    assert keys[j] in multiset(selected);
    SelectedOnce(txs, coinjoins, broadcasts, keys[j]);
    t :| IsCoinjoin(txs, coinjoins, t) && KeyOf(txs[t], broadcasts) == keys[j];
  }

  /** Every coinjoin has its place in the order. */
  lemma ListedSomewhere(txs: seq<Transaction>, coinjoins: set<string>, broadcasts: map<string, string>, t: nat)
    returns (j: nat)
    requires UniqueTxids(txs) && IsCoinjoin(txs, coinjoins, t)
    ensures j < |Order(txs, coinjoins, broadcasts)| && Order(txs, coinjoins, broadcasts)[j] == txs[t].txid
    ensures Sort(Selected(txs, coinjoins, broadcasts))[j] == KeyOf(txs[t], broadcasts)
  {
    var selected, key := Selected(txs, coinjoins, broadcasts), KeyOf(txs[t], broadcasts);
    SortSorts(selected);
    SelectedOnce(txs, coinjoins, broadcasts, key);
    assert key in multiset(Sort(selected));
    j :| 0 <= j < |Sort(selected)| && Sort(selected)[j] == key;
  }

  // ------------------------------------------------------------ heights in the order

  ghost predicate Ascends(heights: seq<int>) {
    forall p, j | 0 <= p < j < |heights| :: heights[p] <= heights[j]
  }

  ghost predicate AllConfirmed(txs: seq<Transaction>, coinjoins: set<string>) {
    forall t | IsCoinjoin(txs, coinjoins, t) :: txs[t].height.Some?
  }

  ghost predicate NonePositive(txs: seq<Transaction>, coinjoins: set<string>) {
    forall t | IsCoinjoin(txs, coinjoins, t) && txs[t].height.Some? :: txs[t].height.value <= 0
  }

  /** The height the distances are counted by; an unconfirmed coinjoin, sorted last, counts as height 0. */
  lemma HeightAt(txs: seq<Transaction>, coinjoins: set<string>, broadcasts: map<string, string>, j: nat)
    requires UniqueTxids(txs) && j < |Order(txs, coinjoins, broadcasts)|
    ensures var height := Sort(Selected(txs, coinjoins, broadcasts))[j].height;
            CoinjoinHeights(Order(txs, coinjoins, broadcasts), txs)[j] == if height.Some? then height.value else 0
  {
    var t := ListedFrom(txs, coinjoins, broadcasts, j);
    LookupFinds(txs, t);
  }

  lemma HeightsInOrder(txs: seq<Transaction>, coinjoins: set<string>, broadcasts: map<string, string>)
    requires UniqueTxids(txs) && (AllConfirmed(txs, coinjoins) || NonePositive(txs, coinjoins))
    ensures Ascends(CoinjoinHeights(Order(txs, coinjoins, broadcasts), txs))
  {
    var heights := CoinjoinHeights(Order(txs, coinjoins, broadcasts), txs);
    forall p, j | 0 <= p < j < |heights|
      ensures heights[p] <= heights[j]
    {
      KeysIncrease(txs, coinjoins, broadcasts, p, j);
      HeightAt(txs, coinjoins, broadcasts, p);
      HeightAt(txs, coinjoins, broadcasts, j);
      var s := ListedFrom(txs, coinjoins, broadcasts, p);
      var t := ListedFrom(txs, coinjoins, broadcasts, j);
    }
  }

  lemma UnconfirmedComesLate(txs: seq<Transaction>, coinjoins: set<string>, broadcasts: map<string, string>,
                             s: nat, t: nat)
    requires UniqueTxids(txs) && IsCoinjoin(txs, coinjoins, s) && IsCoinjoin(txs, coinjoins, t)
    requires txs[s].height.Some? && txs[s].height.value > 0 && txs[t].height.None?
    ensures !Ascends(CoinjoinHeights(Order(txs, coinjoins, broadcasts), txs))
  {
    var p := ListedSomewhere(txs, coinjoins, broadcasts, s);
    var j := ListedSomewhere(txs, coinjoins, broadcasts, t);
    if j < p { KeysIncrease(txs, coinjoins, broadcasts, j, p); }
    HeightAt(txs, coinjoins, broadcasts, p);
    HeightAt(txs, coinjoins, broadcasts, j);
  }

  /**
   The heights the bisection runs over ascend exactly when every coinjoin is confirmed, or none
   of the confirmed ones lies above height 0.
   */
  lemma OrderHeightsAscendExactlyWhen(txs: seq<Transaction>, coinjoins: set<string>, broadcasts: map<string, string>)
    requires UniqueTxids(txs)
    ensures Ascends(CoinjoinHeights(Order(txs, coinjoins, broadcasts), txs))
            <==> AllConfirmed(txs, coinjoins) || NonePositive(txs, coinjoins)
  {
    if AllConfirmed(txs, coinjoins) || NonePositive(txs, coinjoins) {
      HeightsInOrder(txs, coinjoins, broadcasts);
    } else {
      var t :| IsCoinjoin(txs, coinjoins, t) && txs[t].height.None?;
      var s :| IsCoinjoin(txs, coinjoins, s) && txs[s].height.Some? && txs[s].height.value > 0;
      UnconfirmedComesLate(txs, coinjoins, broadcasts, s, t);
    }
  }

  /** In the report's own order, a spend outside the mix is as far away as coinjoins confirm before it. */
  lemma ReportDistanceCounts(txs: seq<Transaction>, coinjoins: set<string>, broadcasts: map<string, string>,
                             created: nat, spender: nat)
    requires UniqueTxids(txs) && AllConfirmed(txs, coinjoins)
    requires spender < |txs| && txs[spender].txid !in coinjoins && txs[spender].height.Some?
    ensures var order := Order(txs, coinjoins, broadcasts);
            var heights := CoinjoinHeights(order, txs);
            SpendDistance(created, txs[spender].txid, order, txs, heights)
            == Some(ConfirmedBy(heights, created, |heights|, txs[spender].height.value))
  {
    var order := Order(txs, coinjoins, broadcasts);
    if txs[spender].txid in order {
      var j :| 0 <= j < |order| && order[j] == txs[spender].txid;
      var t := ListedFrom(txs, coinjoins, broadcasts, j);
      assert false;
    }
    HeightsInOrder(txs, coinjoins, broadcasts);
    LookupFinds(txs, spender);
    SpendDistanceCounts(created, txs[spender].txid, order, txs, CoinjoinHeights(order, txs));
  }

  // ---------------------------------------------------------------- respecting spending

  /** Coinjoin `t` spends an output of coinjoin `s`. */
  ghost predicate SpendsCoinjoin(txs: seq<Transaction>, coinjoins: set<string>, t: int, i: int, s: int) {
    && IsCoinjoin(txs, coinjoins, t) && IsCoinjoin(txs, coinjoins, s)
    && IsInput(txs, t, i) && txs[t].inputs[i].prevTxid == Some(txs[s].txid)
  }

  /** A coinjoin sorts after those it spends. */
  ghost predicate SpentSortsFirst(txs: seq<Transaction>, coinjoins: set<string>, broadcasts: map<string, string>) {
    forall t, i, s | SpendsCoinjoin(txs, coinjoins, t, i, s) ::
        KeyLess(KeyOf(txs[s], broadcasts), KeyOf(txs[t], broadcasts))
  }

  ghost predicate Places(txs: seq<Transaction>, coinjoins: set<string>, order: seq<string>, at: seq<nat>) {
    |at| == |order| && forall j | 0 <= j < |order| :: IsCoinjoin(txs, coinjoins, at[j]) && txs[at[j]].txid == order[j]
  }

  lemma PlacesFound(txs: seq<Transaction>, coinjoins: set<string>, broadcasts: map<string, string>, count: nat)
    returns (at: seq<nat>)
    requires UniqueTxids(txs) && count <= |Order(txs, coinjoins, broadcasts)|
    ensures Places(txs, coinjoins, Order(txs, coinjoins, broadcasts)[..count], at)
  {
    at := [];
    for j := 0 to count
      invariant Places(txs, coinjoins, Order(txs, coinjoins, broadcasts)[..j], at)
    {
      var t := ListedFrom(txs, coinjoins, broadcasts, j);
      at := at + [t];
    }
  }

  lemma KeyAt(txs: seq<Transaction>, coinjoins: set<string>, broadcasts: map<string, string>, at: seq<nat>, j: nat)
    requires UniqueTxids(txs) && Places(txs, coinjoins, Order(txs, coinjoins, broadcasts), at) && j < |at|
    ensures KeyOf(txs[at[j]], broadcasts) == Sort(Selected(txs, coinjoins, broadcasts))[j]
  {
    var t := ListedFrom(txs, coinjoins, broadcasts, j);
    assert t == at[j];
  }

  lemma SortedOrderSpends(txs: seq<Transaction>, coinjoins: set<string>, broadcasts: map<string, string>, at: seq<nat>)
    requires UniqueTxids(txs) && Places(txs, coinjoins, Order(txs, coinjoins, broadcasts), at)
    requires SpentSortsFirst(txs, coinjoins, broadcasts)
    ensures SpendingOrder(Order(txs, coinjoins, broadcasts), txs, at)
  {
    var order, keys := Order(txs, coinjoins, broadcasts), Sort(Selected(txs, coinjoins, broadcasts));
    forall p, j | 0 <= p < |order| && 0 <= j < |order| && order[p] == order[j]
      ensures p == j
    {
      KeyAt(txs, coinjoins, broadcasts, at, p);
      KeyAt(txs, coinjoins, broadcasts, at, j);
      KeyTotal(keys[p], keys[j]);
      if p < j { KeysIncrease(txs, coinjoins, broadcasts, p, j); }
      if j < p { KeysIncrease(txs, coinjoins, broadcasts, j, p); }
    }
    forall p, j, i | 0 <= p < |order| && 0 <= j < |order| && IsInput(txs, at[j], i)
        && txs[at[j]].inputs[i].prevTxid == Some(order[p])
      ensures p < j
    {
      assert SpendsCoinjoin(txs, coinjoins, at[j], i, at[p]);
      KeyAt(txs, coinjoins, broadcasts, at, p);
      KeyAt(txs, coinjoins, broadcasts, at, j);
      KeyTotal(keys[p], keys[j]);
      if j < p { KeysIncrease(txs, coinjoins, broadcasts, j, p); }
    }
  }

  lemma SpendingOrderIsSorted(txs: seq<Transaction>, coinjoins: set<string>, broadcasts: map<string, string>,
                              at: seq<nat>)
    requires UniqueTxids(txs) && SpendingOrder(Order(txs, coinjoins, broadcasts), txs, at)
    ensures SpentSortsFirst(txs, coinjoins, broadcasts)
  {
    forall t, i, s | SpendsCoinjoin(txs, coinjoins, t, i, s)
      ensures KeyLess(KeyOf(txs[s], broadcasts), KeyOf(txs[t], broadcasts))
    {
      var j := ListedSomewhere(txs, coinjoins, broadcasts, t);
      var p := ListedSomewhere(txs, coinjoins, broadcasts, s);
      assert at[j] == t;
      KeysIncrease(txs, coinjoins, broadcasts, p, j);
    }
  }

  /** The order of the report respects spending exactly when every coinjoin sorts after those it spends. */
  lemma OrderRespectsSpendingExactlyWhen(txs: seq<Transaction>, coinjoins: set<string>, broadcasts: map<string, string>)
    requires UniqueTxids(txs)
    ensures (exists at :: SpendingOrder(Order(txs, coinjoins, broadcasts), txs, at))
            <==> SpentSortsFirst(txs, coinjoins, broadcasts)
  {
    var order := Order(txs, coinjoins, broadcasts);
    var found := PlacesFound(txs, coinjoins, broadcasts, |order|);
    assert order[..|order|] == order;
    if SpentSortsFirst(txs, coinjoins, broadcasts) {
      SortedOrderSpends(txs, coinjoins, broadcasts, found);
    }
    if at :| SpendingOrder(order, txs, at) {
      SpendingOrderIsSorted(txs, coinjoins, broadcasts, at);
    }
  }

  // ------------------------------------------------------------------ in an emulation

  /** Blocks are listed by height. */
  ghost predicate HeightsAscend(listed: seq<(RawTx, Option<int>)>) {
    forall s, t | 0 <= s < t < |listed| :: !HeightLess(listed[t].1, listed[s].1)
  }

  /** A coinjoin sorts after those of its own height that it spends. */
  ghost predicate SiblingsSortFirst(txs: seq<Transaction>, coinjoins: set<string>, broadcasts: map<string, string>) {
    forall t, i, s | SpendsCoinjoin(txs, coinjoins, t, i, s) && txs[s].height == txs[t].height ::
      KeyLess(KeyOf(txs[s], broadcasts), KeyOf(txs[t], broadcasts))
  }

  lemma SpendersAreNotLower(blocks: seq<Block>, wallets: map<string, string>, txs: seq<Transaction>, place: seq<nat>,
                            t: nat, i: nat, s: nat)
    requires Readable(Listed(blocks)) && HeightsAscend(Listed(blocks))
    requires Rearranged(txs, Exported(Listed(blocks), wallets).transactions, place)
    requires s < |txs| && IsInput(txs, t, i) && txs[t].inputs[i].prevTxid == Some(txs[s].txid)
    ensures !HeightLess(txs[t].height, txs[s].height)
  {
    var listed := Listed(blocks);
    var rt := RecordedFrom(listed, wallets, place[t]);
    var rs := RecordedFrom(listed, wallets, place[s]);
    assert IsVin(listed, rt, i);
    SpendsLater(listed, rt, i, rs);
  }

  /** A coinjoin that spends one of another height comes after it anyway. */
  lemma SiblingsDecide(txs: seq<Transaction>, coinjoins: set<string>, broadcasts: map<string, string>)
    requires forall t, i, s | SpendsCoinjoin(txs, coinjoins, t, i, s) :: !HeightLess(txs[t].height, txs[s].height)
    ensures SpentSortsFirst(txs, coinjoins, broadcasts) <==> SiblingsSortFirst(txs, coinjoins, broadcasts)
  {
  }

  /**
   For blocks listed by height the report's order respects spending exactly when no coinjoin
   spends one of its own height that sorts after it.
   */
  lemma EmulationOrderExactlyWhen(blocks: seq<Block>, wallets: map<string, string>, txs: seq<Transaction>,
                                  place: seq<nat>, coinjoins: set<string>, broadcasts: map<string, string>)
    requires Readable(Listed(blocks)) && HeightsAscend(Listed(blocks))
    requires Rearranged(txs, Exported(Listed(blocks), wallets).transactions, place)
    ensures (exists at :: SpendingOrder(Order(txs, coinjoins, broadcasts), txs, at))
            <==> SiblingsSortFirst(txs, coinjoins, broadcasts)
  {
    ExportIsChain(Listed(blocks), wallets);
    ChainRearranged(txs, Exported(Listed(blocks), wallets).transactions, place);
    OrderRespectsSpendingExactlyWhen(txs, coinjoins, broadcasts);
    forall t, i, s | SpendsCoinjoin(txs, coinjoins, t, i, s)
      ensures !HeightLess(txs[t].height, txs[s].height)
    {
      SpendersAreNotLower(blocks, wallets, txs, place, t, i, s);
    }
    SiblingsDecide(txs, coinjoins, broadcasts);
  }

  /** From blocks to report, with the order the report really uses. */
  lemma ReportConserves(blocks: seq<Block>, wallets: map<string, string>, txs: seq<Transaction>, place: seq<nat>,
                        coinjoins: set<string>, broadcasts: map<string, string>, reports: Reports, k: nat)
    requires Readable(Listed(blocks)) && HeightsAscend(Listed(blocks))
    requires Rearranged(txs, Exported(Listed(blocks), wallets).transactions, place)
    requires SiblingsSortFirst(txs, coinjoins, broadcasts) && k < |Order(txs, coinjoins, broadcasts)|
    ensures var order := Order(txs, coinjoins, broadcasts);
            && (forall j | 0 <= j < |order| :: Lookup(txs, order[j]).Some?)
            && var cjs := Classified(order, txs, reports);
               var s, upTo := SeriesOf(cjs, Truth, None), cjs[..k + 1];
               var spent, recent := SpentKeys(upTo, None), Max(k + 1 - WINDOW_COINJOINS, 0);
               && |s.interim| == |s.unmovedWindow| == |s.activeRemix| == |order|
               && s.interim[k] == Fees(upTo) + Outstanding(upTo, spent, Truth, None, Kept)
               && s.unmovedWindow[k] == Outstanding(upTo, spent, Truth, None, Unmoved)
               && s.activeRemix[k] == Fees(upTo) + Outstanding(upTo[recent..], spent, Truth, None, FastKept)
  {
    EmulationOrderExactlyWhen(blocks, wallets, txs, place, coinjoins, broadcasts);
    var at :| SpendingOrder(Order(txs, coinjoins, broadcasts), txs, at);
    EmulationConserves(blocks, wallets, txs, place, Order(txs, coinjoins, broadcasts), at, reports, k);
  }
}
