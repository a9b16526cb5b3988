/**
 The exported blocks of an emulation, read in order: every output is indexed, and every
 non-coinbase transaction is recorded with its inputs resolved against the outputs so far.

 Amounts are whole satoshis here; the source converts the block's decimal amounts once, on
 both the indexing and the recording path.
*/
module ExportedTransactions {
  import opened Common
  import opened Liquidity
  import opened LiquidityConservation
  import opened WalletDecomposition
  import opened LiquidityPremises

  datatype RawInput = RawInput(txid: Option<string>, vout: Option<int>)

  datatype RawOutput = RawOutput(n: Option<int>, address: Option<string>, value: Option<int>)

  datatype RawTx = RawTx(txid: string, coinbase: bool, vin: seq<RawInput>, vout: seq<RawOutput>)

  datatype Block = Block(height: Option<int>, txs: seq<RawTx>)

  /** What the output index remembers of an output. */
  datatype Coin = Coin(address: Option<string>, value: Option<int>)

  datatype Export = Export(index: map<Outpoint, Coin>, transactions: seq<Transaction>)

  function Owner(address: Option<string>, wallets: map<string, string>): Option<string> {
    if address.Some? && address.value in wallets then Some(wallets[address.value]) else None
  }

  function Indexed(index: map<Outpoint, Coin>, txid: string, vout: seq<RawOutput>): map<Outpoint, Coin> {
    if vout == [] then index
    else
      var n := |vout| - 1;
      var before := Indexed(index, txid, vout[..n]);
      if vout[n].n.None? then before
      else before[(txid, vout[n].n.value) := Coin(vout[n].address, vout[n].value)]
  }

  function ResolveInput(i: int, input: RawInput, index: map<Outpoint, Coin>, wallets: map<string, string>): TxInput {
    var key := PrevKey(input.txid, input.vout);
    if key.Some? && key.value in index
    then TxInput(i, Owner(index[key.value].address, wallets), index[key.value].value, input.txid, input.vout)
    else TxInput(i, None, None, input.txid, input.vout)
  }

  function RecordOutput(i: int, output: RawOutput, wallets: map<string, string>): TxOutput {
    TxOutput(if output.n.Some? then output.n.value else i, Owner(output.address, wallets), output.value)
  }

  function Record(tx: RawTx, height: Option<int>, index: map<Outpoint, Coin>,
                  wallets: map<string, string>): Transaction {
    Transaction(tx.txid, height,
      seq(|tx.vin|, i requires 0 <= i < |tx.vin| => ResolveInput(i, tx.vin[i], index, wallets)),
      seq(|tx.vout|, i requires 0 <= i < |tx.vout| => RecordOutput(i, tx.vout[i], wallets)))
  }

  /** A dictionary assignment: a repeated ID replaces the record in place. */
  function Put(transactions: seq<Transaction>, record: Transaction): seq<Transaction> {
    if transactions == [] then [record]
    else if transactions[0].txid == record.txid then [record] + transactions[1..]
    else [transactions[0]] + Put(transactions[1..], record)
  }

  function AddTx(before: Export, tx: RawTx, height: Option<int>, wallets: map<string, string>): Export {
    if tx.txid == "" then before
    else
      var index := Indexed(before.index, tx.txid, tx.vout);
      Export(index, if tx.coinbase then before.transactions
             else Put(before.transactions, Record(tx, height, index, wallets)))
  }

  /** The transactions of all blocks, in reading order, with their heights. */
  function Listed(blocks: seq<Block>): seq<(RawTx, Option<int>)> {
    if blocks == [] then []
    else
      var last := blocks[|blocks| - 1];
      Listed(blocks[..|blocks| - 1]) + ListedIn(last)
  }

  function ListedIn(block: Block): seq<(RawTx, Option<int>)> {
    seq(|block.txs|, t requires 0 <= t < |block.txs| => (block.txs[t], block.height))
  }

  function Exported(listed: seq<(RawTx, Option<int>)>, wallets: map<string, string>): Export {
    if listed == [] then Export(map[], [])
    else
      var n := |listed| - 1;
      AddTx(Exported(listed[..n], wallets), listed[n].0, listed[n].1, wallets)
  }

  method IndexOutputs(index: map<Outpoint, Coin>, tx: RawTx) returns (extended: map<Outpoint, Coin>)
    ensures extended == Indexed(index, tx.txid, tx.vout)
  {
    extended := index;
    for i := 0 to |tx.vout|
      invariant extended == Indexed(index, tx.txid, tx.vout[..i])
    {
      assert tx.vout[..i + 1][..i] == tx.vout[..i];
      var output := tx.vout[i];
      if output.n.Some? {
        extended := extended[(tx.txid, output.n.value) := Coin(output.address, output.value)];
      }
    }
    assert tx.vout[..|tx.vout|] == tx.vout;
  }

  method ResolveInputs(vin: seq<RawInput>, index: map<Outpoint, Coin>, wallets: map<string, string>)
    returns (inputs: seq<TxInput>)
    ensures |inputs| == |vin| && forall i | 0 <= i < |vin| :: inputs[i] == ResolveInput(i, vin[i], index, wallets)
  {
    inputs := [];
    for i := 0 to |vin|
      invariant |inputs| == i && forall k | 0 <= k < i :: inputs[k] == ResolveInput(k, vin[k], index, wallets)
    {
      inputs := inputs + [ResolveInput(i, vin[i], index, wallets)];
    }
  }

  method ReadTransaction(before: Export, tx: RawTx, height: Option<int>, wallets: map<string, string>)
    returns (now: Export)
    ensures now == AddTx(before, tx, height, wallets)
  {
    if tx.txid == "" {
      return before;
    }
    var index := IndexOutputs(before.index, tx);
    if tx.coinbase {
      return Export(index, before.transactions);
    }
    var inputs := ResolveInputs(tx.vin, index, wallets);
    var outputs := seq(|tx.vout|, i requires 0 <= i < |tx.vout| => RecordOutput(i, tx.vout[i], wallets));
    var record := Transaction(tx.txid, height, inputs, outputs);
    assert record == Record(tx, height, index, wallets);
    now := Export(index, Put(before.transactions, record));
  }

  method ReadBlock(before: Export, ghost listed: seq<(RawTx, Option<int>)>, block: Block, wallets: map<string, string>)
    returns (now: Export)
    requires before == Exported(listed, wallets)
    ensures now == Exported(listed + ListedIn(block), wallets)
  {
    now := before;
    ghost var own := ListedIn(block);
    assert listed + own[..0] == listed;
    for t := 0 to |block.txs|
      invariant now == Exported(listed + own[..t], wallets)
    {
      ghost var upTo := listed + own[..t + 1];
      assert upTo[..|upTo| - 1] == listed + own[..t] && upTo[|upTo| - 1] == own[t];
      now := ReadTransaction(now, block.txs[t], block.height, wallets);
    }
    assert own[..|block.txs|] == own;
  }

  method ExportedBlocks(blocks: seq<Block>, wallets: map<string, string>) returns (transactions: seq<Transaction>)
    ensures transactions == Exported(Listed(blocks), wallets).transactions
  {
    var state := Export(map[], []);
    for b := 0 to |blocks|
      invariant state == Exported(Listed(blocks[..b]), wallets)
    {
      assert blocks[..b + 1][..b] == blocks[..b];
      state := ReadBlock(state, Listed(blocks[..b]), blocks[b], wallets);
    }
    assert blocks[..|blocks|] == blocks;
    transactions := state.transactions;
  }

  // ------------------------------------------------------------------------ premises

  ghost predicate IsVin(listed: seq<(RawTx, Option<int>)>, t: int, i: int) {
    0 <= t < |listed| && 0 <= i < |listed[t].0.vin|
  }

  ghost predicate IsVout(listed: seq<(RawTx, Option<int>)>, t: int, o: int) {
    0 <= t < |listed| && 0 <= o < |listed[t].0.vout|
  }

  function VinKey(listed: seq<(RawTx, Option<int>)>, t: nat, i: nat): Option<Outpoint>
    requires t < |listed| && i < |listed[t].0.vin|
  {
    PrevKey(listed[t].0.vin[i].txid, listed[t].0.vin[i].vout)
  }

  /** Block files as a node writes them: named transactions with distinct IDs and numbered outputs. */
  ghost predicate WellNamed(listed: seq<(RawTx, Option<int>)>) {
    && (forall t | 0 <= t < |listed| :: listed[t].0.txid != "")
    && (forall s, t | 0 <= s < t < |listed| :: listed[s].0.txid != listed[t].0.txid)
    && (forall t, o | IsVout(listed, t, o) :: listed[t].0.vout[o].n.Some?)
    && (forall t, o, o' | IsVout(listed, t, o) && IsVout(listed, t, o')
        && listed[t].0.vout[o].n == listed[t].0.vout[o'].n :: o == o')
  }

  /** Each output is spent at most once, by a later transaction, and every named output exists. */
  ghost predicate SpendsInOrder(listed: seq<(RawTx, Option<int>)>) {
    && (forall t, i, t', i' | IsVin(listed, t, i) && IsVin(listed, t', i')
          && VinKey(listed, t, i).Some? && VinKey(listed, t, i) == VinKey(listed, t', i') :: t == t' && i == i')
    && (forall t, i, s | IsVin(listed, t, i) && 0 <= s < |listed|
        && listed[t].0.vin[i].txid == Some(listed[s].0.txid) ::
          s < t && exists o :: IsVout(listed, s, o) && listed[t].0.vin[i].vout == listed[s].0.vout[o].n)
  }

  // ------------------------------------------------------------ what the export records

  lemma {:induction false} PutAppends(transactions: seq<Transaction>, record: Transaction)
    requires forall t | 0 <= t < |transactions| :: transactions[t].txid != record.txid
    ensures Put(transactions, record) == transactions + [record]
    decreases |transactions|
  {
    if transactions != [] {
      PutAppends(transactions[1..], record);
    }
  }

  /** Where the recorded transactions stand among the listed ones: the non-coinbase ones, in order. */
  function Recorded(listed: seq<(RawTx, Option<int>)>): seq<nat> {
    if listed == [] then []
    else
      var n := |listed| - 1;
      Recorded(listed[..n]) + if listed[n].0.txid == "" || listed[n].0.coinbase then [] else [n]
  }

  lemma {:induction false} RecordedBounds(listed: seq<(RawTx, Option<int>)>)
    ensures forall r | 0 <= r < |Recorded(listed)| :: Recorded(listed)[r] < |listed|
              && !listed[Recorded(listed)[r]].0.coinbase
    ensures forall r, r' | 0 <= r < r' < |Recorded(listed)| :: Recorded(listed)[r] < Recorded(listed)[r']
    decreases |listed|
  {
    if listed != [] {
      RecordedBounds(listed[..|listed| - 1]);
    }
  }

  lemma WellNamedPrefix(listed: seq<(RawTx, Option<int>)>, n: nat)
    requires WellNamed(listed) && n <= |listed|
    ensures WellNamed(listed[..n])
  {
    forall t, o | IsVout(listed[..n], t, o)
      ensures listed[..n][t].0.vout[o].n.Some?
    {
      assert IsVout(listed, t, o);
    }
    forall t, o, o' | IsVout(listed[..n], t, o) && IsVout(listed[..n], t, o')
        && listed[..n][t].0.vout[o].n == listed[..n][t].0.vout[o'].n
      ensures o == o'
    {
      assert IsVout(listed, t, o) && IsVout(listed, t, o');
    }
  }

  /** The record of the r-th listed transaction, resolved against everything up to itself. */
  function RecordAt(listed: seq<(RawTx, Option<int>)>, wallets: map<string, string>, r: nat): Transaction
    requires r < |listed|
  {
    Record(listed[r].0, listed[r].1, Exported(listed[..r + 1], wallets).index, wallets)
  }

  lemma RecordAtPrefix(listed: seq<(RawTx, Option<int>)>, wallets: map<string, string>, n: nat, r: nat)
    requires r < n <= |listed|
    ensures RecordAt(listed[..n], wallets, r) == RecordAt(listed, wallets, r)
  {
    assert listed[..n][..r + 1] == listed[..r + 1];
  }

  ghost predicate RecordsMatch(transactions: seq<Transaction>, listed: seq<(RawTx, Option<int>)>,
                               wallets: map<string, string>) {
    && |transactions| == |Recorded(listed)|
    && forall k | 0 <= k < |transactions| :: Recorded(listed)[k] < |listed|
        && transactions[k] == RecordAt(listed, wallets, Recorded(listed)[k])
  }

  lemma {:induction false} RecordsInOrder(listed: seq<(RawTx, Option<int>)>, wallets: map<string, string>)
    requires WellNamed(listed)
    ensures RecordsMatch(Exported(listed, wallets).transactions, listed, wallets)
    decreases |listed|
  {
    if listed != [] {
      var n := |listed| - 1;
      var before := Exported(listed[..n], wallets);
      WellNamedPrefix(listed, n);
      RecordsInOrder(listed[..n], wallets);
      RecordsExtend(before.transactions, listed, wallets);
      assert listed[..n + 1] == listed;
      if !listed[n].0.coinbase {
        forall k | 0 <= k < |before.transactions|
          ensures before.transactions[k].txid != listed[n].0.txid
        {
          assert before.transactions[k] == RecordAt(listed[..n], wallets, Recorded(listed[..n])[k]);
        }
        PutAppends(before.transactions, RecordAt(listed, wallets, n));
      }
    }
  }

  lemma RecordsExtend(transactions: seq<Transaction>, listed: seq<(RawTx, Option<int>)>, wallets: map<string, string>)
    requires listed != [] && RecordsMatch(transactions, listed[..|listed| - 1], wallets)
    ensures var n := |listed| - 1;
            RecordsMatch(if listed[n].0.txid == "" || listed[n].0.coinbase then transactions
                         else transactions + [RecordAt(listed, wallets, n)],
                         listed, wallets)
  {
    var n := |listed| - 1;
    forall k | 0 <= k < |transactions|
      ensures Recorded(listed)[k] < |listed| && transactions[k] == RecordAt(listed, wallets, Recorded(listed)[k])
    {
      RecordAtPrefix(listed, wallets, n, Recorded(listed[..n])[k]);
    }
  }

  lemma {:induction false} IndexedHolds(index: map<Outpoint, Coin>, txid: string, vout: seq<RawOutput>, o: nat)
    requires o < |vout| && forall k | 0 <= k < |vout| :: vout[k].n.Some?
    requires forall k, l | 0 <= k < l < |vout| :: vout[k].n != vout[l].n
    ensures (txid, vout[o].n.value) in Indexed(index, txid, vout)
    ensures Indexed(index, txid, vout)[(txid, vout[o].n.value)] == Coin(vout[o].address, vout[o].value)
    decreases |vout|
  {
    if o < |vout| - 1 {
      IndexedHolds(index, txid, vout[..|vout| - 1], o);
    }
  }

  lemma {:induction false} IndexedKeeps(index: map<Outpoint, Coin>, txid: string, vout: seq<RawOutput>, key: Outpoint)
    requires key.0 != txid
    ensures key in Indexed(index, txid, vout) <==> key in index
    ensures key in index ==> Indexed(index, txid, vout)[key] == index[key]
    decreases |vout|
  {
    if vout != [] {
      IndexedKeeps(index, txid, vout[..|vout| - 1], key);
    }
  }

  /** The index holds every output listed so far. */
  lemma {:induction false} IndexHolds(listed: seq<(RawTx, Option<int>)>, wallets: map<string, string>, s: nat, o: nat)
    requires WellNamed(listed) && IsVout(listed, s, o)
    ensures var key := (listed[s].0.txid, listed[s].0.vout[o].n.value);
            && key in Exported(listed, wallets).index
            && Exported(listed, wallets).index[key] == Coin(listed[s].0.vout[o].address, listed[s].0.vout[o].value)
    decreases |listed|
  {
    var n := |listed| - 1;
    WellNamedPrefix(listed, n);
    var tx := listed[n].0;
    if s == n {
      forall k, l | 0 <= k < l < |tx.vout|
        ensures tx.vout[k].n != tx.vout[l].n
      {
        assert IsVout(listed, n, k) && IsVout(listed, n, l);
      }
      forall k | 0 <= k < |tx.vout|
        ensures tx.vout[k].n.Some?
      {
        assert IsVout(listed, n, k);
      }
      IndexedHolds(Exported(listed[..n], wallets).index, tx.txid, tx.vout, o);
    } else {
      assert IsVout(listed[..n], s, o);
      IndexHolds(listed[..n], wallets, s, o);
      IndexedKeeps(Exported(listed[..n], wallets).index, tx.txid, tx.vout,
                   (listed[s].0.txid, listed[s].0.vout[o].n.value));
    }
  }

  lemma {:induction false} IndexedNames(index: map<Outpoint, Coin>, txid: string, vout: seq<RawOutput>, key: Outpoint)
    requires key in Indexed(index, txid, vout)
    ensures key in index || key.0 == txid
    decreases |vout|
  {
    if vout != [] && key in Indexed(index, txid, vout[..|vout| - 1]) {
      IndexedNames(index, txid, vout[..|vout| - 1], key);
    }
  }

  /** Only outputs of listed transactions are indexed. */
  lemma {:induction false} IndexNames(listed: seq<(RawTx, Option<int>)>, wallets: map<string, string>, key: Outpoint)
    requires key in Exported(listed, wallets).index
    ensures exists s :: 0 <= s < |listed| && listed[s].0.txid == key.0
    decreases |listed|
  {
    var n := |listed| - 1;
    var before := Exported(listed[..n], wallets).index;
    if listed[n].0.txid != "" { IndexedNames(before, listed[n].0.txid, listed[n].0.vout, key); }
    if key in before {
      IndexNames(listed[..n], wallets, key);
      var s :| 0 <= s < n && listed[..n][s].0.txid == key.0;
      assert listed[s].0.txid == key.0;
    } else {
      assert listed[n].0.txid == key.0;
    }
  }

  /** Reading on changes nothing that was exported: records stay in place, and outputs stay indexed. */
  lemma {:induction false} ExportsExtend(listed: seq<(RawTx, Option<int>)>, wallets: map<string, string>, n: nat)
    requires WellNamed(listed) && n <= |listed|
    ensures Exported(listed[..n], wallets).transactions <= Exported(listed, wallets).transactions
    ensures forall key | key in Exported(listed[..n], wallets).index ::
              key in Exported(listed, wallets).index
              && Exported(listed, wallets).index[key] == Exported(listed[..n], wallets).index[key]
    decreases |listed|
  {
    if n == |listed| {
      assert listed[..n] == listed;
    } else {
      var m := |listed| - 1;
      WellNamedPrefix(listed, m);
      ExportsExtend(listed[..m], wallets, n);
      assert listed[..m][..n] == listed[..n];
      OneMoreExport(listed, wallets);
    }
  }

  lemma OneMoreExport(listed: seq<(RawTx, Option<int>)>, wallets: map<string, string>)
    requires WellNamed(listed) && listed != []
    ensures var before, now := Exported(listed[..|listed| - 1], wallets), Exported(listed, wallets);
            && before.transactions <= now.transactions
            && forall key | key in before.index :: key in now.index && now.index[key] == before.index[key]
  {
    var m := |listed| - 1;
    var before := Exported(listed[..m], wallets);
    WellNamedPrefix(listed, m);
    RecordsInOrder(listed[..m], wallets);
    forall k | 0 <= k < |before.transactions|
      ensures before.transactions[k].txid != listed[m].0.txid
    {
      assert before.transactions[k] == RecordAt(listed[..m], wallets, Recorded(listed[..m])[k]);
    }
    PutAppends(before.transactions, Record(listed[m].0, listed[m].1, Exported(listed, wallets).index, wallets));
    forall key | key in before.index
      ensures key in Exported(listed, wallets).index && Exported(listed, wallets).index[key] == before.index[key]
    {
      IndexNames(listed[..m], wallets, key);
      IndexedKeeps(before.index, listed[m].0.txid, listed[m].0.vout, key);
    }
  }

  // ------------------------------------------------------------------- a valid chain

  ghost predicate Readable(listed: seq<(RawTx, Option<int>)>) {
    WellNamed(listed) && SpendsInOrder(listed)
  }

  /** The k-th recorded transaction and the listed one it comes from. */
  lemma RecordedFrom(listed: seq<(RawTx, Option<int>)>, wallets: map<string, string>, k: nat) returns (r: nat)
    requires WellNamed(listed) && k < |Exported(listed, wallets).transactions|
    ensures k < |Recorded(listed)| && r == Recorded(listed)[k] && r < |listed|
    ensures var tx := Exported(listed, wallets).transactions[k];
            && tx == RecordAt(listed, wallets, r)
            && tx.txid == listed[r].0.txid && |tx.inputs| == |listed[r].0.vin| && |tx.outputs| == |listed[r].0.vout|
            && (forall i | 0 <= i < |tx.inputs| :: IsVin(listed, r, i) && SpentBy(tx, i) == VinKey(listed, r, i))
            && (forall o | 0 <= o < |tx.outputs| ::
                 IsVout(listed, r, o) && listed[r].0.vout[o].n == Some(tx.outputs[o].index))
  {
    RecordsInOrder(listed, wallets);
    r := Recorded(listed)[k];
    var tx := Exported(listed, wallets).transactions[k];
    forall o | 0 <= o < |tx.outputs|
      ensures IsVout(listed, r, o) && listed[r].0.vout[o].n == Some(tx.outputs[o].index)
    {
      assert IsVout(listed, r, o);
    }
  }

  lemma SameRecord(listed: seq<(RawTx, Option<int>)>, k: nat, k': nat)
    requires k < |Recorded(listed)| && k' < |Recorded(listed)| && Recorded(listed)[k] == Recorded(listed)[k']
    ensures k == k'
  {
    RecordedBounds(listed);
  }

  lemma RecordedTxidsAreUnique(listed: seq<(RawTx, Option<int>)>, wallets: map<string, string>)
    requires Readable(listed)
    ensures UniqueTxids(Exported(listed, wallets).transactions)
  {
    var txs := Exported(listed, wallets).transactions;
    forall s, t | 0 <= s < |txs| && 0 <= t < |txs| && txs[s].txid == txs[t].txid
      ensures s == t
    {
      var rs := RecordedFrom(listed, wallets, s);
      var rt := RecordedFrom(listed, wallets, t);
      SameRecord(listed, s, t);
    }
  }

  lemma RecordedOutputsAreUnique(listed: seq<(RawTx, Option<int>)>, wallets: map<string, string>)
    requires Readable(listed)
    ensures UniqueOutputs(Exported(listed, wallets).transactions)
  {
    var txs := Exported(listed, wallets).transactions;
    forall t, o, o' | IsOutput(txs, t, o) && IsOutput(txs, t, o') && txs[t].outputs[o].index == txs[t].outputs[o'].index
      ensures o == o'
    {
      var r := RecordedFrom(listed, wallets, t);
      assert IsVout(listed, r, o) && IsVout(listed, r, o');
    }
  }

  lemma RecordedSpendsAreUnique(listed: seq<(RawTx, Option<int>)>, wallets: map<string, string>)
    requires Readable(listed)
    ensures SpentOnce(Exported(listed, wallets).transactions)
  {
    var txs := Exported(listed, wallets).transactions;
    forall t, i, t', i' | IsInput(txs, t, i) && IsInput(txs, t', i')
        && SpentBy(txs[t], i).Some? && SpentBy(txs[t], i) == SpentBy(txs[t'], i')
      ensures t == t' && i == i'
    {
      var r := RecordedFrom(listed, wallets, t);
      var r' := RecordedFrom(listed, wallets, t');
      assert IsVin(listed, r, i) && IsVin(listed, r', i');
      assert r == r' && i == i';
      SameRecord(listed, t, t');
    }
  }

  lemma SpendsLater(listed: seq<(RawTx, Option<int>)>, t: nat, i: nat, s: nat)
    requires SpendsInOrder(listed) && IsVin(listed, t, i) && s < |listed|
    requires listed[t].0.vin[i].txid == Some(listed[s].0.txid)
    ensures s < t
  {
  }

  /** An input naming a listed output resolves to its value and its owner. */
  lemma ResolvesTo(listed: seq<(RawTx, Option<int>)>, wallets: map<string, string>, t: nat, i: nat, s: nat, o: nat)
    requires Readable(listed) && IsVin(listed, t, i) && IsVout(listed, s, o) && listed[s].0.vout[o].n.Some?
    requires VinKey(listed, t, i) == Some((listed[s].0.txid, listed[s].0.vout[o].n.value))
    ensures var input := ResolveInput(i, listed[t].0.vin[i], Exported(listed[..t + 1], wallets).index, wallets);
            input.value == listed[s].0.vout[o].value && input.wallet == Owner(listed[s].0.vout[o].address, wallets)
  {
    SpendsLater(listed, t, i, s);
    WellNamedPrefix(listed, t + 1);
    assert listed[..t + 1][s] == listed[s] && IsVout(listed[..t + 1], s, o);
    IndexHolds(listed[..t + 1], wallets, s, o);
  }

  lemma RecordedInput(listed: seq<(RawTx, Option<int>)>, wallets: map<string, string>, t: nat, i: nat) returns (r: nat)
    requires WellNamed(listed) && IsInput(Exported(listed, wallets).transactions, t, i)
    ensures IsVin(listed, r, i)
    ensures Exported(listed, wallets).transactions[t].inputs[i]
         == ResolveInput(i, listed[r].0.vin[i], Exported(listed[..r + 1], wallets).index, wallets)
    ensures SpentBy(Exported(listed, wallets).transactions[t], i) == VinKey(listed, r, i)
  {
    r := RecordedFrom(listed, wallets, t);
  }

  lemma RecordedOutput(listed: seq<(RawTx, Option<int>)>, wallets: map<string, string>, s: nat, o: nat) returns (r: nat)
    requires WellNamed(listed) && IsOutput(Exported(listed, wallets).transactions, s, o)
    ensures IsVout(listed, r, o) && listed[r].0.vout[o].n.Some?
    ensures Outputpoint(Exported(listed, wallets).transactions, s, o) == (listed[r].0.txid, listed[r].0.vout[o].n.value)
    ensures var output := Exported(listed, wallets).transactions[s].outputs[o];
            output.value == listed[r].0.vout[o].value && output.wallet == Owner(listed[r].0.vout[o].address, wallets)
  {
    r := RecordedFrom(listed, wallets, s);
  }

  /** The value and the owner of an input are those of the output it spends. */
  lemma InputCarriesOutput(listed: seq<(RawTx, Option<int>)>, wallets: map<string, string>, t: nat, i: nat, s: nat,
                           o: nat)
    requires Readable(listed)
    requires IsInput(Exported(listed, wallets).transactions, t, i)
               && IsOutput(Exported(listed, wallets).transactions, s, o)
    requires SpentBy(Exported(listed, wallets).transactions[t], i)
          == Some(Outputpoint(Exported(listed, wallets).transactions, s, o))
    ensures var input, output := Exported(listed, wallets).transactions[t].inputs[i],
              Exported(listed, wallets).transactions[s].outputs[o];
            input.value == output.value && input.wallet == output.wallet
  {
    var rt := RecordedInput(listed, wallets, t, i);
    var rs := RecordedOutput(listed, wallets, s, o);
    ResolvesTo(listed, wallets, rt, i, rs, o);
  }

  lemma InputFindsOutput(listed: seq<(RawTx, Option<int>)>, wallets: map<string, string>, t: nat, i: nat, s: nat)
    returns (o: nat)
    requires Readable(listed)
    requires IsInput(Exported(listed, wallets).transactions, t, i) && s < |Exported(listed, wallets).transactions|
    requires Exported(listed, wallets).transactions[t].inputs[i].prevTxid
          == Some(Exported(listed, wallets).transactions[s].txid)
    ensures var txs := Exported(listed, wallets).transactions;
            IsOutput(txs, s, o) && SpentBy(txs[t], i) == Some(Outputpoint(txs, s, o))
  {
    var rt := RecordedFrom(listed, wallets, t);
    var rs := RecordedFrom(listed, wallets, s);
    assert IsVin(listed, rt, i);
    o :| IsVout(listed, rs, o) && listed[rt].0.vin[i].vout == listed[rs].0.vout[o].n;
  }

  lemma RecordedInputsCarry(listed: seq<(RawTx, Option<int>)>, wallets: map<string, string>)
    requires Readable(listed)
    ensures InputsCarryOutputs(Exported(listed, wallets).transactions)
  {
    var txs := Exported(listed, wallets).transactions;
    forall t, i, s, o | IsInput(txs, t, i) && IsOutput(txs, s, o) && SpentBy(txs[t], i) == Some(Outputpoint(txs, s, o))
      ensures txs[t].inputs[i].value == txs[s].outputs[o].value && txs[t].inputs[i].wallet == txs[s].outputs[o].wallet
    {
      InputCarriesOutput(listed, wallets, t, i, s, o);
    }
  }

  lemma RecordedInputsExist(listed: seq<(RawTx, Option<int>)>, wallets: map<string, string>)
    requires Readable(listed)
    ensures InputsExist(Exported(listed, wallets).transactions)
  {
    var txs := Exported(listed, wallets).transactions;
    forall t, i, s | IsInput(txs, t, i) && 0 <= s < |txs| && txs[t].inputs[i].prevTxid == Some(txs[s].txid)
      ensures SpendsSome(txs, t, i, s)
    {
      var o := InputFindsOutput(listed, wallets, t, i, s);
    }
  }

  /** The exported transactions of readable blocks form a chain. */
  lemma ExportIsChain(listed: seq<(RawTx, Option<int>)>, wallets: map<string, string>)
    requires Readable(listed)
    ensures Chain(Exported(listed, wallets).transactions)
  {
    RecordedTxidsAreUnique(listed, wallets);
    RecordedOutputsAreUnique(listed, wallets);
    RecordedSpendsAreUnique(listed, wallets);
    RecordedInputsCarry(listed, wallets);
    RecordedInputsExist(listed, wallets);
  }

  // --------------------------------------------------------------------- main result

  /**
   From exported blocks to the report: for any readable blocks, their transactions in whatever
   order the export is written, and any coinjoin order that respects spending, the pool series
   conserve value and the wallet series add up.
   */
  lemma EmulationConserves(blocks: seq<Block>, wallets: map<string, string>, txs: seq<Transaction>, place: seq<nat>,
                           order: seq<string>, at: seq<nat>, reports: Reports, k: nat)
    requires Readable(Listed(blocks)) && k < |order|
    requires Rearranged(txs, Exported(Listed(blocks), wallets).transactions, place) && SpendingOrder(order, txs, at)
    ensures forall j | 0 <= j < |order| :: Lookup(txs, order[j]).Some?
    ensures var cjs := Classified(order, txs, reports);
            var s, upTo := SeriesOf(cjs, Truth, None), cjs[..k + 1];
            var spent, recent := SpentKeys(upTo, None), Max(k + 1 - WINDOW_COINJOINS, 0);
            && |s.interim| == |s.unmovedWindow| == |s.activeRemix| == |order|
            && s.interim[k] == Fees(upTo) + Outstanding(upTo, spent, Truth, None, Kept)
            && s.unmovedWindow[k] == Outstanding(upTo, spent, Truth, None, Unmoved)
            && s.activeRemix[k] == Fees(upTo) + Outstanding(upTo[recent..], spent, Truth, None, FastKept)
  {
    ExportIsChain(Listed(blocks), wallets);
    ChainRearranged(txs, Exported(Listed(blocks), wallets).transactions, place);
    ClassifiedHistory(order, txs, at, reports);
    PoolSeriesConserve(Classified(order, txs, reports), k);
  }

  lemma EmulationDecomposes(blocks: seq<Block>, wallets: map<string, string>, txs: seq<Transaction>, place: seq<nat>,
                            order: seq<string>, at: seq<nat>, reports: Reports, field: Field,
                            a: set<string>, b: set<string>, k: nat)
    requires Readable(Listed(blocks)) && k < |order| && a !! b
    requires Rearranged(txs, Exported(Listed(blocks), wallets).transactions, place) && SpendingOrder(order, txs, at)
    ensures forall j | 0 <= j < |order| :: Lookup(txs, order[j]).Some?
    ensures var cjs := Classified(order, txs, reports);
            OwnerEntry(cjs, field, Some(a + b), k) == Plus(OwnerEntry(cjs, field, Some(a), k),
                                                           OwnerEntry(cjs, field, Some(b), k))
  {
    ExportIsChain(Listed(blocks), wallets);
    ChainRearranged(txs, Exported(Listed(blocks), wallets).transactions, place);
    ClassifiedHistory(order, txs, at, reports);
    SoundIsOrdered(Classified(order, txs, reports));
    SeriesOfUnion(Classified(order, txs, reports), field, a, b, k);
  }
}
