/**
 Two coinjoins of one block whose spender sorts first: neither has a broadcast time, so their
 IDs decide. The report then starts with a coinjoin that only remixes, and its active liquidity
 is below zero.
*/
module CoinjoinOrderLimits {
  import opened Common
  import opened Liquidity
  import opened LiquidityConservation
  import opened LiquidityPremises
  import opened ExportedTransactions
  import opened CoinjoinOrder

  const FUND := "c"
  const PARENT := "b"
  const CHILD := "a"
  const OWN: set<string> := {PARENT, CHILD}
  const SILENT := Reports(map[], map[])

  function Pays(txid: string, vin: seq<RawInput>, v: nat): RawTx {
    RawTx(txid, vin == [], vin, [RawOutput(Some(0), None, Some(v))])
  }

  function SpendsOutputOf(txid: string): seq<RawInput> {
    [RawInput(Some(txid), Some(0))]
  }

  /** A coinbase, a coinjoin that spends it, and a coinjoin that spends that one. */
  function OneBlock(v: nat): Block {
    Block(Some(1), [Pays(FUND, [], v), Pays(PARENT, SpendsOutputOf(FUND), v), Pays(CHILD, SpendsOutputOf(PARENT), v)])
  }

  function Spending(txid: string, parent: string, v: nat): Transaction {
    Transaction(txid, Some(1), [TxInput(0, None, Some(v), Some(parent), Some(0))], [TxOutput(0, None, Some(v))])
  }

  /** What is exported of the block. */
  function Both(v: nat): seq<Transaction> {
    [Spending(PARENT, FUND, v), Spending(CHILD, PARENT, v)]
  }

  lemma BlockIsListed(v: nat)
    ensures Listed([OneBlock(v)]) == ListedIn(OneBlock(v))
  {
    assert [OneBlock(v)][..0] == [];
    assert Listed([]) == [];
  }

  /** Each spends the only output of the one before. */
  ghost predicate ChainOfThree(listed: seq<(RawTx, Option<int>)>) {
    && |listed| == 3 && listed[0].0.vin == []
    && (forall t | 0 <= t < 3 :: listed[t].0.txid != "" && |listed[t].0.vout| == 1
          && listed[t].0.vout[0].n == Some(0) && listed[t].1 == Some(1))
    && listed[0].0.txid != listed[1].0.txid && listed[0].0.txid != listed[2].0.txid
    && listed[1].0.txid != listed[2].0.txid
    && listed[1].0.vin == SpendsOutputOf(listed[0].0.txid) && listed[2].0.vin == SpendsOutputOf(listed[1].0.txid)
  }

  lemma ChainIsReadable(listed: seq<(RawTx, Option<int>)>)
    requires ChainOfThree(listed)
    ensures Readable(listed) && HeightsAscend(listed)
  {
    forall t, i | IsVin(listed, t, i)
      ensures i == 0 && (t == 1 || t == 2) && listed[t].0.vin[i] == RawInput(Some(listed[t - 1].0.txid), Some(0))
    {
    }
    forall t, i, s | IsVin(listed, t, i) && 0 <= s < |listed|
        && listed[t].0.vin[i].txid == Some(listed[s].0.txid)
      ensures s < t && exists o :: IsVout(listed, s, o) && listed[t].0.vin[i].vout == listed[s].0.vout[o].n
    {
      assert IsVout(listed, s, 0);
    }
  }

  lemma BlockIsChain(v: nat)
    ensures ChainOfThree(ListedIn(OneBlock(v)))
  {
    var listed := ListedIn(OneBlock(v));
    assert listed[0].0 == Pays(FUND, [], v);
    assert listed[1].0 == Pays(PARENT, SpendsOutputOf(FUND), v);
    assert listed[2].0 == Pays(CHILD, SpendsOutputOf(PARENT), v);
    assert FUND[0] != PARENT[0] && FUND[0] != CHILD[0] && PARENT[0] != CHILD[0];
  }

  /** The output of a transaction joins the index. */
  lemma IndexedOne(index: map<Outpoint, Coin>, txid: string, v: nat)
    ensures Indexed(index, txid, [RawOutput(Some(0), None, Some(v))]) == index[(txid, 0) := Coin(None, Some(v))]
  {
    assert [RawOutput(Some(0), None, Some(v))][..0] == [];
    assert Indexed(index, txid, []) == index;
  }

  /** A transaction that spends an indexed output of the same value is recorded. */
  lemma AddsOne(before: Export, txid: string, parent: string, v: nat)
    requires txid != "" && txid != parent && (parent, 0) in before.index
    requires before.index[(parent, 0)] == Coin(None, Some(v))
    requires forall t | 0 <= t < |before.transactions| :: before.transactions[t].txid != txid
    ensures AddTx(before, Pays(txid, SpendsOutputOf(parent), v), Some(1), map[])
         == Export(before.index[(txid, 0) := Coin(None, Some(v))], before.transactions + [Spending(txid, parent, v)])
  {
    var index := before.index[(txid, 0) := Coin(None, Some(v))];
    IndexedOne(before.index, txid, v);
    assert index[(parent, 0)] == Coin(None, Some(v));
    assert Record(Pays(txid, SpendsOutputOf(parent), v), Some(1), index, map[]) == Spending(txid, parent, v);
    PutAppends(before.transactions, Spending(txid, parent, v));
  }

  lemma BothAreRecorded(v: nat, listed: seq<(RawTx, Option<int>)>)
    requires listed == ListedIn(OneBlock(v))
    ensures Exported(listed, map[]).transactions == Both(v)
  {
    var one, two := listed[..1], listed[..2];
    assert two[..1] == one && one[..0] == [];
    var funded := Export(map[(FUND, 0) := Coin(None, Some(v))], []);
    IndexedOne(map[], FUND, v);
    assert Exported(one, map[]) == funded by {
      assert Exported([], map[]) == Export(map[], []);
    }
    AddsOne(funded, PARENT, FUND, v);
    AddsOne(Exported(two, map[]), CHILD, PARENT, v);
  }

  lemma BothAreExported(v: nat)
    ensures Exported(Listed([OneBlock(v)]), map[]).transactions == Both(v)
    ensures Readable(Listed([OneBlock(v)])) && HeightsAscend(Listed([OneBlock(v)]))
  {
    BlockIsListed(v);
    BlockIsChain(v);
    ChainIsReadable(ListedIn(OneBlock(v)));
    BothAreRecorded(v, ListedIn(OneBlock(v)));
  }

  // ------------------------------------------------------------------------ the order

  lemma SelectsTwo(txs: seq<Transaction>, coinjoins: set<string>, broadcasts: map<string, string>)
    requires |txs| == 2 && txs[0].txid in coinjoins && txs[1].txid in coinjoins
    ensures Selected(txs, coinjoins, broadcasts) == [KeyOf(txs[0], broadcasts), KeyOf(txs[1], broadcasts)]
  {
    assert txs[..1] == [txs[0]] && txs[..1][..0] == [];
    assert Selected([], coinjoins, broadcasts) == [];
    assert Selected(txs[..1], coinjoins, broadcasts) == [KeyOf(txs[0], broadcasts)];
  }

  lemma SortsTwo(a: SortKey, b: SortKey)
    requires KeyLess(a, b)
    ensures Sort([b, a]) == [a, b]
  {
    assert [b, a][..1] == [b] && [b][..0] == [];
    assert Sort([]) == [] && Insert(b, []) == [b];
    assert Sort([b]) == [b];
    assert Insert(a, [b]) == [a, b];
  }

  /** Of two selected transactions the one with the smaller key comes first. */
  lemma SmallerComesFirst(txs: seq<Transaction>, coinjoins: set<string>, broadcasts: map<string, string>)
    requires |txs| == 2 && txs[0].txid in coinjoins && txs[1].txid in coinjoins
    requires KeyLess(KeyOf(txs[1], broadcasts), KeyOf(txs[0], broadcasts))
    ensures Order(txs, coinjoins, broadcasts) == [txs[1].txid, txs[0].txid]
  {
    SelectsTwo(txs, coinjoins, broadcasts);
    SortsTwo(KeyOf(txs[1], broadcasts), KeyOf(txs[0], broadcasts));
  }

  lemma ChildIsSmaller(v: nat)
    ensures KeyLess(KeyOf(Both(v)[1], map[]), KeyOf(Both(v)[0], map[]))
  {
    assert TextLess(CHILD, PARENT);
  }

  lemma NoSpendingOrder(v: nat)
    ensures Order(Both(v), OWN, map[]) == [CHILD, PARENT]
    ensures !exists at :: SpendingOrder(Order(Both(v), OWN, map[]), Both(v), at)
  {
    var txs := Both(v);
    ChildIsSmaller(v);
    SmallerComesFirst(txs, OWN, map[]);
    assert SpendsCoinjoin(txs, OWN, 1, 0, 0);
    KeyTotal(KeyOf(txs[0], map[]), KeyOf(txs[1], map[]));
    OrderRespectsSpendingExactlyWhen(txs, OWN, map[]);
  }

  // ----------------------------------------------------------------------- the report

  lemma BothAreFound(v: nat)
    ensures Lookup(Both(v), CHILD) == Some(Both(v)[1]) && Lookup(Both(v), PARENT) == Some(Both(v)[0])
  {
    LookupFinds(Both(v), 0);
    LookupFinds(Both(v), 1);
  }

  lemma NobodySpendsTheChild(v: nat)
    ensures (CHILD, 0) !in Spenders(Both(v))
  {
    SpenderIsLast(Both(v), (CHILD, 0));
  }

  /** The child is listed first: its input is a remix, and its output stays. */
  function Child(v: nat): Coinjoin {
    Coinjoin(CHILD, [InItem(None, Some(v), Some(PARENT), Some(0), Events(Remix, None, None))],
             [OutItem(0, None, Some(v), Events(Stay, None, None), None, None)])
  }

  lemma FirstIsRemix(v: nat, order: seq<string>)
    requires order == [CHILD, PARENT] && Lookup(Both(v), order[0]).Some?
    ensures ClassifyOne(0, order, Both(v), SILENT) == Child(v)
  {
    BothAreFound(v);
    NobodySpendsTheChild(v);
    assert order[1] == PARENT;
  }

  /** Taken alone, the child brings nothing in and leaves an unmoved output. */
  lemma ChildAlone(v: nat)
    ensures After([Child(v)], Truth, None).interim == 0 && After([Child(v)], Truth, None).unmovedTotal == v
  {
    var cj := Child(v);
    assert [cj][..0] == [] && cj.inputs[..0] == [] && cj.outputs[..0] == [];
    assert EnterSum(cj.inputs, Truth, None) == 0;
    assert OutSum(cj.outputs, Truth, None, Leaving) == 0;
    assert OutSum(cj.outputs, Truth, None, Unmoved) == v;
    assert PoppedValue(cj.inputs, None, map[]) == 0;
  }

  lemma StartsBelowZero(v: nat, order: seq<string>)
    requires order == [CHILD, PARENT]
    ensures forall j | 0 <= j < |order| :: Lookup(Both(v), order[j]).Some?
    ensures var s := SeriesOf(Classified(order, Both(v), SILENT), Truth, None);
            |s.activeRemix| == 2 && s.activeRemix[0] == 0 - v
  {
    BothAreFound(v);
    var cjs := Classified(order, Both(v), SILENT);
    FirstIsRemix(v, order);
    ChildAlone(v);
    SeriesAt(cjs, Truth, None, 0);
    assert cjs[..1] == [Child(v)];
  }

  /**
   The order of the report need not respect spending, and then the report is wrong: for a block
   in which one coinjoin spends another and neither has a broadcast time, the spender may come
   first, and the active liquidity then starts below zero by the value of its output.
   */
  lemma SpenderMayComeFirst(v: nat)
    ensures Readable(Listed([OneBlock(v)])) && HeightsAscend(Listed([OneBlock(v)]))
    ensures Exported(Listed([OneBlock(v)]), map[]).transactions == Both(v)
    ensures !exists at :: SpendingOrder(Order(Both(v), OWN, map[]), Both(v), at)
    ensures var order := Order(Both(v), OWN, map[]);
            && (forall j | 0 <= j < |order| :: Lookup(Both(v), order[j]).Some?)
            && var s := SeriesOf(Classified(order, Both(v), SILENT), Truth, None);
               |s.activeRemix| == 2 && s.activeRemix[0] == 0 - v
  {
    BothAreExported(v);
    NoSpendingOrder(v);
    StartsBelowZero(v, Order(Both(v), OWN, map[]));
  }
}
