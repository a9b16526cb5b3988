/**
 Pool liquidity: every coinjoin input and output is classified as entering, remixed,
 leaving or staying, and the classified coinjoins are folded into cumulative series.

 Output indexes are numbers here; the source renders them as text, which keeps them apart
 just as well. An input whose previous output is unknown has no key and pops nothing.
*/
module Liquidity {
  import opened Common

  const WINDOW_COINJOINS := 3

  datatype Event = Enter | Remix | Leave | Stay | RemixFriends | RemixFriendsWw1 | Other(name: string)

  datatype Field = Truth | Observed | BlockSci

  datatype Events = Events(truth: Event, observed: Option<Event>, blocksci: Option<Event>)

  datatype Side = Inputs | Outputs

  type Outpoint = (string, int)

  // ------------------------------------------------------------------- transactions

  datatype TxInput = TxInput(index: int, wallet: Option<string>, value: Option<int>,
                             prevTxid: Option<string>, prevVout: Option<int>)

  datatype TxOutput = TxOutput(index: int, wallet: Option<string>, value: Option<int>)

  /** One exported transaction; a run is a list of them, in dictionary order. */
  datatype Transaction = Transaction(txid: string, height: Option<int>, inputs: seq<TxInput>, outputs: seq<TxOutput>)

  function PrevKey(prevTxid: Option<string>, prevVout: Option<int>): Option<Outpoint> {
    if prevTxid.Some? && prevVout.Some? then Some((prevTxid.value, prevVout.value)) else None
  }

  function SpentBy(tx: Transaction, i: nat): Option<Outpoint>
    requires i < |tx.inputs|
  {
    PrevKey(tx.inputs[i].prevTxid, tx.inputs[i].prevVout)
  }

  function RecordSpends(spenders: map<Outpoint, string>, tx: Transaction, count: nat): map<Outpoint, string>
    requires count <= |tx.inputs|
  {
    if count == 0 then spenders
    else
      var before := RecordSpends(spenders, tx, count - 1);
      var key := SpentBy(tx, count - 1);
      if key.Some? then before[key.value := tx.txid] else before
  }

  function Spenders(transactions: seq<Transaction>): map<Outpoint, string> {
    if transactions == [] then map[]
    else
      var last := transactions[|transactions| - 1];
      RecordSpends(Spenders(transactions[..|transactions| - 1]), last, |last.inputs|)
  }

  predicate Spends(tx: Transaction, key: Outpoint) {
    exists i: nat | i < |tx.inputs| :: SpentBy(tx, i) == Some(key)
  }

  lemma {:induction false} RecordedSpends(spenders: map<Outpoint, string>, tx: Transaction, count: nat, key: Outpoint)
    requires count <= |tx.inputs|
    ensures var r := RecordSpends(spenders, tx, count);
            if exists i: nat | i < count :: SpentBy(tx, i) == Some(key)
            then key in r && r[key] == tx.txid
            else (key in r <==> key in spenders) && (key in r ==> r[key] == spenders[key])
    decreases count
  {
    if count > 0 { RecordedSpends(spenders, tx, count - 1, key); }
  }

  /** Transaction `t` spends the output, and none after it does. */
  predicate LastSpender(transactions: seq<Transaction>, key: Outpoint, t: nat) {
    && t < |transactions| && Spends(transactions[t], key)
    && forall later | t < later < |transactions| :: !Spends(transactions[later], key)
  }

  /** Whatever the transactions are: the index has exactly the spent outputs, each with its last spender. */
  lemma {:induction false} SpenderIsLast(transactions: seq<Transaction>, key: Outpoint)
    ensures key in Spenders(transactions) <==> exists t: nat :: LastSpender(transactions, key, t)
    ensures forall t: nat | LastSpender(transactions, key, t) ::
              key in Spenders(transactions) && Spenders(transactions)[key] == transactions[t].txid
    decreases |transactions|
  {
    if transactions != [] {
      var n := |transactions| - 1;
      var before := transactions[..n];
      SpenderIsLast(before, key);
      RecordedSpends(Spenders(before), transactions[n], |transactions[n].inputs|, key);
      if Spends(transactions[n], key) {
        assert LastSpender(transactions, key, n);
      } else {
        forall t: nat | t < n
          ensures LastSpender(transactions, key, t) <==> LastSpender(before, key, t)
        {
          assert transactions[..n][t] == transactions[t];
        }
      }
    }
  }

  /** Which transaction spends each output; the last one wins. */
  method SpenderIndex(transactions: seq<Transaction>) returns (spenders: map<Outpoint, string>)
    ensures spenders == Spenders(transactions)
    ensures forall key :: key in spenders <==> exists t: nat :: LastSpender(transactions, key, t)
    ensures forall key, t: nat | LastSpender(transactions, key, t) ::
              key in spenders && spenders[key] == transactions[t].txid
  {
    spenders := map[];
    for t := 0 to |transactions|
      invariant spenders == Spenders(transactions[..t])
    {
      assert transactions[..t + 1][..t] == transactions[..t];
      var tx := transactions[t];
      for i := 0 to |tx.inputs|
        invariant spenders == RecordSpends(Spenders(transactions[..t]), tx, i)
      {
        var item := tx.inputs[i];
        if item.prevTxid.Some? && item.prevVout.Some? {
          spenders := spenders[(item.prevTxid.value, item.prevVout.value) := tx.txid];
        }
      }
    }
    assert transactions[..|transactions|] == transactions;
    forall key
      ensures key in spenders <==> exists t: nat :: LastSpender(transactions, key, t)
      ensures forall t: nat | LastSpender(transactions, key, t) ::
                key in spenders && spenders[key] == transactions[t].txid
    {
      SpenderIsLast(transactions, key);
    }
  }

  /** The record of a transaction; the source looks it up by its ID. */
  function Lookup(transactions: seq<Transaction>, txid: string): Option<Transaction> {
    if transactions == [] then None
    else if transactions[|transactions| - 1].txid == txid then Some(transactions[|transactions| - 1])
    else Lookup(transactions[..|transactions| - 1], txid)
  }

  // ------------------------------------------------------------------ spend distance

  /** Position of a transaction in the coinjoin order; for a repeated ID the last one counts. */
  function Position(order: seq<string>, txid: string): (p: Option<nat>)
    ensures p.Some? ==> p.value < |order| && order[p.value] == txid
    ensures p.None? <==> txid !in order
  {
    if order == [] then None
    else if order[|order| - 1] == txid then Some(|order| - 1)
    else Position(order[..|order| - 1], txid)
  }

  /** The bisection of the standard library: where `h` would go after its equals. */
  function BisectRight(heights: seq<int>, h: int, lo: nat, hi: nat): (r: nat)
    requires lo <= hi <= |heights|
    ensures lo <= r <= hi
    decreases hi - lo
  {
    if lo == hi then lo
    else
      var mid := (lo + hi) / 2;
      if h < heights[mid] then BisectRight(heights, h, lo, mid) else BisectRight(heights, h, mid + 1, hi)
  }

  /** On sorted heights the bisection separates those up to `h` from the later ones. */
  lemma {:induction false} BisectRightSeparates(heights: seq<int>, h: int, lo: nat, hi: nat)
    requires lo <= hi <= |heights| && forall i, j | 0 <= i < j < |heights| :: heights[i] <= heights[j]
    requires (forall i | 0 <= i < lo :: heights[i] <= h) && (forall i | hi <= i < |heights| :: heights[i] > h)
    ensures var r := BisectRight(heights, h, lo, hi);
            (forall i | 0 <= i < r :: heights[i] <= h) && (forall i | r <= i < |heights| :: heights[i] > h)
    decreases hi - lo
  {
    if lo < hi {
      var mid := (lo + hi) / 2;
      if h < heights[mid] {
        BisectRightSeparates(heights, h, lo, mid);
      } else {
        BisectRightSeparates(heights, h, mid + 1, hi);
      }
    }
  }

  function SpendDistance(created: nat, spender: string, order: seq<string>, transactions: seq<Transaction>,
                         heights: seq<int>): Option<int>
  {
    var p := Position(order, spender);
    if p.Some? then Some(p.value - created - 1)
    else
      var record := Lookup(transactions, spender);
      if record.None? || record.value.height.None? then None
      else Some(Max(BisectRight(heights, record.value.height.value, 0, |heights|) - created - 1, 0))
  }

  /** How many of the coinjoins after `created`, up to `upTo`, confirm no later than height `h`. */
  function ConfirmedBy(heights: seq<int>, created: nat, upTo: nat, h: int): nat
    requires upTo <= |heights|
    decreases upTo
  {
    if upTo <= created + 1 then 0
    else ConfirmedBy(heights, created, upTo - 1, h) + if heights[upTo - 1] <= h then 1 else 0
  }

  lemma {:induction false} ConfirmedByBoundary(heights: seq<int>, created: nat, upTo: nat, h: int, r: nat)
    requires upTo <= |heights| && r <= |heights|
    requires (forall i | 0 <= i < r :: heights[i] <= h) && (forall i | r <= i < |heights| :: heights[i] > h)
    ensures ConfirmedBy(heights, created, upTo, h) == Max(Min(r, upTo) - created - 1, 0)
    decreases upTo
  {
    if upTo > created + 1 {
      ConfirmedByBoundary(heights, created, upTo - 1, h, r);
    }
  }

  /**
   Spent outside the mix, an output's distance is the number of coinjoins confirmed after its
   own and no later than its spender; spent by a coinjoin, those that lie between.
   */
  lemma SpendDistanceCounts(created: nat, spender: string, order: seq<string>, transactions: seq<Transaction>,
                            heights: seq<int>)
    requires forall i, j | 0 <= i < j < |heights| :: heights[i] <= heights[j]
    ensures spender in order ==>
              exists p :: 0 <= p < |order| && order[p] == spender
                && SpendDistance(created, spender, order, transactions, heights) == Some(p - created - 1)
    ensures spender !in order && Lookup(transactions, spender).Some?
              && Lookup(transactions, spender).value.height.Some? ==>
              SpendDistance(created, spender, order, transactions, heights)
              == Some(ConfirmedBy(heights, created, |heights|, Lookup(transactions, spender).value.height.value))
  {
    var record := Lookup(transactions, spender);
    if spender in order {
      var p := Position(order, spender).value;
      assert order[p] == spender;
    } else if record.Some? && record.value.height.Some? {
      var h := record.value.height.value;
      BisectRightSeparates(heights, h, 0, |heights|);
      ConfirmedByBoundary(heights, created, |heights|, h, BisectRight(heights, h, 0, |heights|));
    }
  }

  // ------------------------------------------------------------------ classification

  datatype InItem = InItem(wallet: Option<string>, value: Option<int>, prevTxid: Option<string>, prevVout: Option<int>,
                           events: Events)

  datatype OutItem = OutItem(index: int, wallet: Option<string>, value: Option<int>, events: Events,
                             spentBy: Option<string>, distance: Option<int>)

  datatype Coinjoin = Coinjoin(txid: string, inputs: seq<InItem>, outputs: seq<OutItem>)

  /** What the analyzers reported: coinjoin-analysis by index, BlockSci as ordered lists. */
  datatype Reports = Reports(observed: map<(string, Side, int), Event>,
                             blocksci: map<(string, Side), seq<Option<Event>>>)

  function ObservedEvent(reports: Reports, txid: string, side: Side, index: int): Option<Event> {
    if (txid, side, index) in reports.observed then Some(reports.observed[(txid, side, index)]) else None
  }

  function BlockSciEvent(reports: Reports, txid: string, side: Side, index: int): Option<Event> {
    if (txid, side) in reports.blocksci && 0 <= index < |reports.blocksci[(txid, side)]|
    then reports.blocksci[(txid, side)][index]
    else None
  }

  function ReportedEvents(truth: Event, reports: Reports, txid: string, side: Side, index: int): Events {
    Events(truth, ObservedEvent(reports, txid, side, index), BlockSciEvent(reports, txid, side, index))
  }

  function ClassifyInput(item: TxInput, txid: string, order: seq<string>, reports: Reports): InItem {
    var truth := if item.prevTxid.Some? && item.prevTxid.value in order then Remix else Enter;
    InItem(item.wallet, item.value, item.prevTxid, item.prevVout,
           ReportedEvents(truth, reports, txid, Inputs, item.index))
  }

  function ClassifyOutput(item: TxOutput, txid: string, created: nat, order: seq<string>,
                          transactions: seq<Transaction>,
                          heights: seq<int>, spenders: map<Outpoint, string>, reports: Reports): OutItem
  {
    var spender := if (txid, item.index) in spenders then Some(spenders[(txid, item.index)]) else None;
    var truth := if spender.None? then Stay else if spender.value in order then Remix else Leave;
    var distance := if spender.None? then None else SpendDistance(created, spender.value, order, transactions, heights);
    OutItem(item.index, item.wallet, item.value, ReportedEvents(truth, reports, txid, Outputs, item.index),
            spender, distance)
  }

  function CoinjoinHeights(order: seq<string>, transactions: seq<Transaction>): seq<int> {
    seq(|order|, j requires 0 <= j < |order| =>
      var record := Lookup(transactions, order[j]);
      if record.Some? && record.value.height.Some? then record.value.height.value else 0)
  }

  function ClassifyOne(created: nat, order: seq<string>, transactions: seq<Transaction>, reports: Reports): Coinjoin
    requires created < |order| && Lookup(transactions, order[created]).Some?
  {
    var tx := Lookup(transactions, order[created]).value;
    var heights, spenders := CoinjoinHeights(order, transactions), Spenders(transactions);
    Coinjoin(order[created],
      seq(|tx.inputs|, i requires 0 <= i < |tx.inputs| => ClassifyInput(tx.inputs[i], order[created], order, reports)),
      seq(|tx.outputs|, i requires 0 <= i < |tx.outputs| =>
        ClassifyOutput(tx.outputs[i], order[created], created, order, transactions, heights, spenders, reports)))
  }

  function Classified(order: seq<string>, transactions: seq<Transaction>, reports: Reports): seq<Coinjoin>
    requires forall j | 0 <= j < |order| :: Lookup(transactions, order[j]).Some?
  {
    seq(|order|, j requires 0 <= j < |order| => ClassifyOne(j, order, transactions, reports))
  }

  method ClassifyCoinjoins(order: seq<string>, transactions: seq<Transaction>, reports: Reports)
    returns (coinjoins: seq<Coinjoin>)
    requires forall j | 0 <= j < |order| :: Lookup(transactions, order[j]).Some?
    ensures coinjoins == Classified(order, transactions, reports)
  {
    var heights := CoinjoinHeights(order, transactions);
    var spenders := SpenderIndex(transactions);
    coinjoins := [];
    for j := 0 to |order|
      invariant |coinjoins| == j
      invariant forall k | 0 <= k < j :: coinjoins[k] == ClassifyOne(k, order, transactions, reports)
    {
      var txid := order[j];
      var tx := Lookup(transactions, txid).value;
      var inputs: seq<InItem>, outputs: seq<OutItem> := [], [];
      for i := 0 to |tx.inputs|
        invariant |inputs| == i
        invariant forall k | 0 <= k < i :: inputs[k] == ClassifyInput(tx.inputs[k], txid, order, reports)
      {
        inputs := inputs + [ClassifyInput(tx.inputs[i], txid, order, reports)];
      }
      for i := 0 to |tx.outputs|
        invariant |outputs| == i
        invariant forall k | 0 <= k < i ::
          outputs[k] == ClassifyOutput(tx.outputs[k], txid, j, order, transactions, heights, spenders, reports)
      {
        outputs := outputs + [ClassifyOutput(tx.outputs[i], txid, j, order, transactions, heights, spenders, reports)];
      }
      var coinjoin := Coinjoin(txid, inputs, outputs);
      assert coinjoin == ClassifyOne(j, order, transactions, reports);
      coinjoins := coinjoins + [coinjoin];
    }
  }

  // -------------------------------------------------------------------------- series

  datatype Series = Series(enter: seq<int>, leave: seq<int>, stay: seq<int>, interim: seq<int>,
                           interimFastLeave: seq<int>, unmovedWindow: seq<int>, activeRemix: seq<int>)

  function EventOf(events: Events, field: Field): Option<Event> {
    match field
    case Truth => Some(events.truth)
    case Observed => events.observed
    case BlockSci => events.blocksci
  }

  function ValueOf(value: Option<int>): int {
    if value.Some? then value.value else 0
  }

  /** Everything without an owner selection, otherwise the items of a selected wallet. */
  predicate Owned(wallet: Option<string>, owners: Option<set<string>>) {
    owners.None? || (wallet.Some? && wallet.value in owners.value)
  }

  predicate Inflow(item: InItem, field: Field) {
    var event := EventOf(item.events, field);
    event.Some? && (event.value == Enter || (field.Observed?
                                             && (event.value == RemixFriends || event.value == RemixFriendsWw1)))
  }

  predicate Fast(item: OutItem) {
    item.distance.Some? && item.distance.value < WINDOW_COINJOINS
  }

  /** The groups of outputs the series add up. */
  datatype Group = Leaving | FastLeaving | Staying | Kept | Unmoved | FastKept

  predicate InGroup(item: OutItem, field: Field, group: Group) {
    var event := EventOf(item.events, field);
    match group
    case Leaving => event == Some(Leave)
    case FastLeaving => event == Some(Leave) && Fast(item)
    case Staying => event == Some(Stay)
    case Kept => event == Some(Stay) || event == Some(Remix)
    case Unmoved => (event == Some(Stay) || event == Some(Remix)) && !Fast(item)
    case FastKept => (event == Some(Stay) || event == Some(Remix)) && Fast(item)
  }

  function EnterSum(inputs: seq<InItem>, field: Field, owners: Option<set<string>>): int {
    if inputs == [] then 0
    else
      var n := |inputs| - 1;
      EnterSum(inputs[..n], field, owners)
      + if Owned(inputs[n].wallet, owners) && Inflow(inputs[n], field) then ValueOf(inputs[n].value) else 0
  }

  function OutSum(outputs: seq<OutItem>, field: Field, owners: Option<set<string>>, group: Group): int {
    if outputs == [] then 0
    else
      var n := |outputs| - 1;
      OutSum(outputs[..n], field, owners, group)
      + if Owned(outputs[n].wallet, owners) && InGroup(outputs[n], field, group) then ValueOf(outputs[n].value) else 0
  }

  function Key(item: InItem): Option<Outpoint> {
    PrevKey(item.prevTxid, item.prevVout)
  }

  /** The outstanding outputs after popping what the selected inputs spend. */
  function Popped(inputs: seq<InItem>, owners: Option<set<string>>, unmoved: map<Outpoint, int>): map<Outpoint, int> {
    if inputs == [] then unmoved
    else
      var n := |inputs| - 1;
      var before := Popped(inputs[..n], owners, unmoved);
      if Owned(inputs[n].wallet, owners) && Key(inputs[n]).Some? then before - {Key(inputs[n]).value} else before
  }

  function PoppedValue(inputs: seq<InItem>, owners: Option<set<string>>, unmoved: map<Outpoint, int>): int {
    if inputs == [] then 0
    else
      var n := |inputs| - 1;
      var before := Popped(inputs[..n], owners, unmoved);
      PoppedValue(inputs[..n], owners, unmoved)
      + if Owned(inputs[n].wallet, owners) && Key(inputs[n]).Some? && Key(inputs[n]).value in before
        then before[Key(inputs[n]).value] else 0
  }

  /** The outstanding outputs after storing the selected outputs of one group. */
  function Stored(txid: string, outputs: seq<OutItem>, field: Field, owners: Option<set<string>>, group: Group,
                  unmoved: map<Outpoint, int>): map<Outpoint, int>
  {
    if outputs == [] then unmoved
    else
      var n := |outputs| - 1;
      var before := Stored(txid, outputs[..n], field, owners, group, unmoved);
      if Owned(outputs[n].wallet, owners) && InGroup(outputs[n], field, group)
      then before[(txid, outputs[n].index) := ValueOf(outputs[n].value)]
      else before
  }

  /** The running totals after a list of coinjoins. */
  datatype Ledger = Ledger(interim: int, fast: int, unmovedTotal: int, unmoved: map<Outpoint, int>)

  function Advance(before: Ledger, cj: Coinjoin, field: Field, owners: Option<set<string>>): Ledger {
    var enter := EnterSum(cj.inputs, field, owners);
    Ledger(before.interim + enter - OutSum(cj.outputs, field, owners, Leaving),
           before.fast + enter - OutSum(cj.outputs, field, owners, FastLeaving),
           before.unmovedTotal - PoppedValue(cj.inputs, owners, before.unmoved)
             + OutSum(cj.outputs, field, owners, Unmoved),
           Stored(cj.txid, cj.outputs, field, owners, Unmoved, Popped(cj.inputs, owners, before.unmoved)))
  }

  function After(coinjoins: seq<Coinjoin>, field: Field, owners: Option<set<string>>): Ledger {
    if coinjoins == [] then Ledger(0, 0, 0, map[])
    else
      var n := |coinjoins| - 1;
      Advance(After(coinjoins[..n], field, owners), coinjoins[n], field, owners)
  }

  /** The seven lists after one more coinjoin, `now` being the totals it leaves. */
  function Append(s: Series, cj: Coinjoin, now: Ledger, field: Field, owners: Option<set<string>>): Series {
    Series(s.enter + [EnterSum(cj.inputs, field, owners)],
           s.leave + [OutSum(cj.outputs, field, owners, Leaving)],
           s.stay + [OutSum(cj.outputs, field, owners, Staying)],
           s.interim + [now.interim],
           s.interimFastLeave + [now.fast],
           s.unmovedWindow + [now.unmovedTotal],
           s.activeRemix + [now.interim - now.unmovedTotal])
  }

  function SeriesOf(coinjoins: seq<Coinjoin>, field: Field, owners: Option<set<string>>): Series {
    if coinjoins == [] then Series([], [], [], [], [], [], [])
    else
      var n := |coinjoins| - 1;
      Append(SeriesOf(coinjoins[..n], field, owners), coinjoins[n], After(coinjoins, field, owners), field, owners)
  }

  method PopSpent(inputs: seq<InItem>, owners: Option<set<string>>, unmoved: map<Outpoint, int>, total: int)
    returns (left: map<Outpoint, int>, current: int)
    ensures left == Popped(inputs, owners, unmoved)
    ensures current == total - PoppedValue(inputs, owners, unmoved)
  {
    left, current := unmoved, total;
    for i := 0 to |inputs|
      invariant left == Popped(inputs[..i], owners, unmoved)
      invariant current == total - PoppedValue(inputs[..i], owners, unmoved)
    {
      assert inputs[..i + 1][..i] == inputs[..i];
      if Owned(inputs[i].wallet, owners) && Key(inputs[i]).Some? {
        var key := Key(inputs[i]).value;
        current := current - if key in left then left[key] else 0;
        left := left - {key};
      }
    }
    assert inputs[..|inputs|] == inputs;
  }

  method StoreUnmoved(txid: string, outputs: seq<OutItem>, field: Field, owners: Option<set<string>>,
                      unmoved: map<Outpoint, int>, total: int)
    returns (stored: map<Outpoint, int>, current: int)
    ensures stored == Stored(txid, outputs, field, owners, Unmoved, unmoved)
    ensures current == total + OutSum(outputs, field, owners, Unmoved)
  {
    stored, current := unmoved, total;
    for i := 0 to |outputs|
      invariant stored == Stored(txid, outputs[..i], field, owners, Unmoved, unmoved)
      invariant current == total + OutSum(outputs[..i], field, owners, Unmoved)
    {
      assert outputs[..i + 1][..i] == outputs[..i];
      if Owned(outputs[i].wallet, owners) && InGroup(outputs[i], field, Unmoved) {
        stored := stored[(txid, outputs[i].index) := ValueOf(outputs[i].value)];
        current := current + ValueOf(outputs[i].value);
      }
    }
    assert outputs[..|outputs|] == outputs;
  }

  /** One turn of the loop: pop, add up, store, append. */
  method Step(cj: Coinjoin, before: Ledger, series: Series, field: Field, owners: Option<set<string>>)
    returns (now: Ledger, extended: Series)
    ensures now == Advance(before, cj, field, owners)
    ensures extended == Append(series, cj, now, field, owners)
  {
    var unmoved, currentUnmoved := PopSpent(cj.inputs, owners, before.unmoved, before.unmovedTotal);
    var stepEnter := EnterSum(cj.inputs, field, owners);
    var stepLeave := OutSum(cj.outputs, field, owners, Leaving);
    var stepFastLeave := OutSum(cj.outputs, field, owners, FastLeaving);
    unmoved, currentUnmoved := StoreUnmoved(cj.txid, cj.outputs, field, owners, unmoved, currentUnmoved);
    var current := before.interim + stepEnter - stepLeave;
    var currentFast := before.fast + stepEnter - stepFastLeave;
    now := Ledger(current, currentFast, currentUnmoved, unmoved);
    extended := Series(series.enter + [stepEnter], series.leave + [stepLeave],
                       series.stay + [OutSum(cj.outputs, field, owners, Staying)],
                       series.interim + [current], series.interimFastLeave + [currentFast],
                       series.unmovedWindow + [currentUnmoved], series.activeRemix + [current - currentUnmoved]);
  }

  method LiquiditySeries(coinjoins: seq<Coinjoin>, field: Field, owners: Option<set<string>>) returns (series: Series)
    ensures series == SeriesOf(coinjoins, field, owners)
  {
    series := Series([], [], [], [], [], [], []);
    var totals := Ledger(0, 0, 0, map[]);
    for j := 0 to |coinjoins|
      invariant series == SeriesOf(coinjoins[..j], field, owners)
      invariant totals == After(coinjoins[..j], field, owners)
    {
      assert coinjoins[..j + 1][..j] == coinjoins[..j];
      totals, series := Step(coinjoins[j], totals, series, field, owners);
    }
    assert coinjoins[..|coinjoins|] == coinjoins;
  }

  /** Entry k of every list, read off the totals after the first k + 1 coinjoins. */
  lemma {:induction false} SeriesAt(coinjoins: seq<Coinjoin>, field: Field, owners: Option<set<string>>, k: nat)
    requires k < |coinjoins|
    ensures var s, now, cj := SeriesOf(coinjoins, field, owners), After(coinjoins[..k + 1], field, owners),
              coinjoins[k];
            && |s.enter| == |s.leave| == |s.stay| == |s.interim| == |coinjoins|
            && |s.interimFastLeave| == |s.unmovedWindow| == |s.activeRemix| == |coinjoins|
            && s.enter[k] == EnterSum(cj.inputs, field, owners)
            && s.leave[k] == OutSum(cj.outputs, field, owners, Leaving)
            && s.stay[k] == OutSum(cj.outputs, field, owners, Staying)
            && s.interim[k] == now.interim
            && s.interimFastLeave[k] == now.fast
            && s.unmovedWindow[k] == now.unmovedTotal
            && s.activeRemix[k] == now.interim - now.unmovedTotal
    decreases |coinjoins|
  {
    var n := |coinjoins| - 1;
    SeriesLengths(coinjoins[..n], field, owners);
    SeriesLengths(coinjoins, field, owners);
    if k == n {
      assert coinjoins[..k + 1] == coinjoins;
    } else {
      SeriesAt(coinjoins[..n], field, owners, k);
      assert coinjoins[..n][..k + 1] == coinjoins[..k + 1];
    }
  }

  lemma {:induction false} SeriesLengths(coinjoins: seq<Coinjoin>, field: Field, owners: Option<set<string>>)
    ensures var s := SeriesOf(coinjoins, field, owners);
            && |s.enter| == |s.leave| == |s.stay| == |s.interim| == |coinjoins|
            && |s.interimFastLeave| == |s.unmovedWindow| == |s.activeRemix| == |coinjoins|
    decreases |coinjoins|
  {
    if coinjoins != [] {
      SeriesLengths(coinjoins[..|coinjoins| - 1], field, owners);
    }
  }

  /** The lists of `s` begin with those of `r`. */
  predicate Extends(s: Series, r: Series) {
    && r.enter <= s.enter && r.leave <= s.leave && r.stay <= s.stay && r.interim <= s.interim
    && r.interimFastLeave <= s.interimFastLeave && r.unmovedWindow <= s.unmovedWindow && r.activeRemix <= s.activeRemix
  }

  /** What is reported of the first coinjoins does not change with those that follow. */
  lemma {:induction false} ReportedStays(coinjoins: seq<Coinjoin>, field: Field, owners: Option<set<string>>, k: nat)
    requires k <= |coinjoins|
    ensures Extends(SeriesOf(coinjoins, field, owners), SeriesOf(coinjoins[..k], field, owners))
    decreases |coinjoins|
  {
    var n := |coinjoins| - 1;
    if k == |coinjoins| {
      assert coinjoins[..k] == coinjoins;
    } else {
      ReportedStays(coinjoins[..n], field, owners, k);
      assert coinjoins[..n][..k] == coinjoins[..k];
    }
  }
}
