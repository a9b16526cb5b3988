/**
 Ground-truth labels of exported transactions: taken from the producer when they are complete
 and agree with everything else, withheld altogether otherwise.
*/
module ProducerLabels {
  import opened Common

  type Txid = nat

  /** Any other type of run has no independent labels at all. */
  datatype RunType = Joinmarket | Wasabi2 | Unsupported

  datatype Status = Confirmed | MultipleMatches | DuplicateDestination | OtherStatus

  /** One JoinMarket round: its status and the transactions its destination matches. */
  datatype Round = Round(status: Status, matches: seq<Txid>)

  /** What the producer left: JoinMarket rounds, Wasabi log lines and the broadcasts in them, or nothing readable. */
  datatype Source = Rounds(rounds: seq<Round>) | Broadcasts(lines: seq<Option<Txid>>) | Unparseable

  datatype Provenance = Provenance(independent: bool, declared: Option<nat>)

  datatype LabelSource = Unknown | Producer | Absence | JoinmarketRound | WasabiBroadcast

  datatype Record = Record(inputs: nat, isCoinjoin: Option<bool>, protocol: Option<RunType>, source: LabelSource)

  const PARSEABILITY_MIN_INPUTS := 5

  // ------------------------------------------------------------------------- parsing

  predicate Conflicting(round: Round) {
    round.status == MultipleMatches || round.status == DuplicateDestination
  }

  function PositivesOf(source: Source): set<Txid>
    requires !source.Unparseable?
  {
    match source
    case Rounds(rounds) => set round | round in rounds && round.status == Confirmed && |round.matches| == 1 ::
        round.matches[0]
    case Broadcasts(lines) => set line | line in lines && line.Some? :: line.value
  }

  /** A conflicting round makes the whole source unusable. */
  predicate Parseable(source: Source) {
    match source
    case Rounds(rounds) => forall round | round in rounds :: !Conflicting(round)
    case Broadcasts(_) => true
    case Unparseable => false
  }

  /** `load_joinmarket_round_labels` and `load_wasabi_round_labels`: the labelled transactions. */
  method ParseLabels(source: Source) returns (labels: Option<set<Txid>>)
    ensures labels.Some? <==> Parseable(source)
    ensures labels.Some? ==> labels.value == PositivesOf(source)
  {
    var found: set<Txid> := {};
    match source
    case Unparseable => return None;
    case Rounds(rounds) =>
      for k := 0 to |rounds|
        invariant forall i | 0 <= i < k :: !Conflicting(rounds[i])
        invariant found == PositivesOf(Rounds(rounds[..k]))
      {
        var round := rounds[k];
        if Conflicting(round) { return None; }
        assert rounds[..k + 1] == rounds[..k] + [round];
        if round.status == Confirmed && |round.matches| == 1 { found := found + {round.matches[0]}; }
        RoundAdded(rounds, k);
      }
      assert rounds[..|rounds|] == rounds;
      return Some(found);
    case Broadcasts(lines) =>
      for k := 0 to |lines|
        invariant found == PositivesOf(Broadcasts(lines[..k]))
      {
        assert lines[..k + 1] == lines[..k] + [lines[k]];
        if lines[k].Some? { found := found + {lines[k].value}; }
        LineAdded(lines, k);
      }
      assert lines[..|lines|] == lines;
      return Some(found);
  }

  lemma RoundAdded(rounds: seq<Round>, k: nat)
    requires k < |rounds|
    ensures PositivesOf(Rounds(rounds[..k + 1]))
         == PositivesOf(Rounds(rounds[..k]))
            + if rounds[k].status == Confirmed && |rounds[k].matches| == 1 then {rounds[k].matches[0]} else {}
  {
    assert rounds[..k + 1] == rounds[..k] + [rounds[k]];
  }

  lemma LineAdded(lines: seq<Option<Txid>>, k: nat)
    requires k < |lines|
    ensures PositivesOf(Broadcasts(lines[..k + 1]))
         == PositivesOf(Broadcasts(lines[..k])) + if lines[k].Some? then {lines[k].value} else {}
  {
    assert lines[..k + 1] == lines[..k] + [lines[k]];
  }

  // ------------------------------------------------------------------ loading and labelling

  /** `load_producer_labels`: the labels, and what is left of the provenance. */
  function Loaded(source: Source, provenance: Provenance): (set<Txid>, Provenance) {
    if !provenance.independent then ({}, provenance)
    else if !Parseable(source) then ({}, provenance.(independent := false))
    else
      var labels := PositivesOf(source);
      if provenance.declared.Some? && |labels| != provenance.declared.value
      then (labels, provenance.(independent := false))
      else (labels, provenance)
  }

  /** The source counts: labels were independent, and it can be parsed. */
  predicate Usable(source: Source, provenance: Provenance) {
    provenance.independent && Parseable(source)
  }

  method LoadProducerLabels(source: Source, provenance: Provenance) returns (labels: set<Txid>, left: Provenance)
    ensures labels == if Usable(source, provenance) then PositivesOf(source) else {}
    ensures left.independent <==>
              Usable(source, provenance) && (provenance.declared.Some? ==> |labels| == provenance.declared.value)
    ensures left.declared == provenance.declared
    ensures (labels, left) == Loaded(source, provenance)
  {
    if !provenance.independent { return {}, provenance; }
    var parsed := ParseLabels(source);
    if parsed == None { return {}, provenance.(independent := false); }
    labels, left := parsed.value, provenance;
    if provenance.declared.Some? && |labels| != provenance.declared.value {
      left := provenance.(independent := false);
    }
  }

  /** `label_transaction`. */
  function Labelled(inputs: nat, positive: bool, runType: RunType, independent: bool): Record {
    var isCoinjoin := if independent then Some(positive) else None;
    var protocol := if isCoinjoin == Some(true) then Some(runType) else None;
    var source :=
      if positive && runType == Joinmarket then JoinmarketRound
      else if positive && runType == Wasabi2 then WasabiBroadcast
      else if isCoinjoin == Some(true) then Producer
      else if independent then Absence
      else Unknown;
    Record(inputs, isCoinjoin, protocol, source)
  }

  /** `_mark_transaction_labels_unavailable` on one record. */
  function Withheld(record: Record): Record {
    Record(record.inputs, None, None, Unknown)
  }

  datatype EmulatorData = EmulatorData(
    provenance: Provenance,
    labels: set<Txid>,
    transactions: map<Txid, Record>,
    positives: nat,
    negatives: nat,
    unknowns: nat)

  function WithLabel(transactions: map<Txid, Record>, l: Option<bool>): set<Txid> {
    set t | t in transactions && transactions[t].isCoinjoin == l
  }

  /** The transactions that show the Wasabi logs to be unreadable when no broadcast was found. */
  function Candidates(exported: map<Txid, nat>, runType: RunType): set<Txid> {
    set t | t in exported && runType == Wasabi2 && exported[t] >= PARSEABILITY_MIN_INPUTS
  }

  /** Labels are withheld when the logs look unreadable or a positive was not exported. */
  predicate Withhold(exported: map<Txid, nat>, runType: RunType, labels: set<Txid>, provenance: Provenance) {
    && provenance.independent
    && ((provenance.declared == None && labels == {} && Candidates(exported, runType) != {})
        || !(labels <= exported.Keys))
  }

  method LabelTransactions(exported: map<Txid, nat>, labels: set<Txid>, runType: RunType, independent: bool)
    returns (transactions: map<Txid, Record>)
    ensures transactions.Keys == exported.Keys
    ensures forall t | t in exported :: transactions[t] == Labelled(exported[t], t in labels, runType, independent)
  {
    transactions := map[];
    var remaining := exported.Keys;
    while remaining != {}
      invariant remaining <= exported.Keys && transactions.Keys == exported.Keys - remaining
      invariant forall t | t in transactions :: transactions[t]
                  == Labelled(exported[t], t in labels, runType, independent)
      decreases |remaining|
    {
      var t :| t in remaining;
      transactions := transactions[t := Labelled(exported[t], t in labels, runType, independent)];
      remaining := remaining - {t};
    }
  }

  method MarkUnavailable(transactions: map<Txid, Record>) returns (marked: map<Txid, Record>)
    ensures marked.Keys == transactions.Keys
    ensures forall t | t in transactions :: marked[t] == Withheld(transactions[t])
  {
    marked := transactions;
    var remaining := transactions.Keys;
    while remaining != {}
      invariant remaining <= transactions.Keys && marked.Keys == transactions.Keys
      invariant forall t | t in transactions ::
                  marked[t] == if t in remaining then transactions[t] else Withheld(transactions[t])
      decreases |remaining|
    {
      var t :| t in remaining;
      marked := marked[t := Withheld(transactions[t])];
      remaining := remaining - {t};
    }
  }

  /** What `build_emulator_data` returns. */
  ghost predicate Built(exported: map<Txid, nat>, runType: RunType, source: Source, given: Provenance,
                        data: EmulatorData) {
    var (labels, loaded) := Loaded(source, given);
    var withhold := Withhold(exported, runType, labels, loaded);
    && data.labels == labels
    && data.provenance == (if withhold then loaded.(independent := false) else loaded)
    && data.transactions.Keys == exported.Keys
    && (forall t | t in exported ::
         data.transactions[t] == var record := Labelled(exported[t], t in labels, runType, loaded.independent);
                                 if withhold then Withheld(record) else record)
    && data.positives == |WithLabel(data.transactions, Some(true))|
    && data.negatives == |WithLabel(data.transactions, Some(false))|
    && data.unknowns == |WithLabel(data.transactions, None)|
  }

  lemma UnmatchedAreMissing(exported: map<Txid, nat>, labels: set<Txid>, runType: RunType,
                            transactions: map<Txid, Record>)
    requires transactions.Keys == exported.Keys
    requires forall t | t in exported :: transactions[t] == Labelled(exported[t], t in labels, runType, true)
    ensures labels - (WithLabel(transactions, Some(true))) == {} <==> labels <= exported.Keys
  {
    assert WithLabel(transactions, Some(true)) == labels * exported.Keys;
    assert labels - labels * exported.Keys == labels - exported.Keys;
    if labels - exported.Keys == {} {
      forall t | t in labels
        ensures t in exported.Keys
      {
        assert t !in labels - exported.Keys;
      }
    }
  }

  method BuildEmulatorData(exported: map<Txid, nat>, runType: RunType, source: Source, given: Provenance)
    returns (data: EmulatorData)
    ensures Built(exported, runType, source, given, data)
  {
    var labels, provenance := LoadProducerLabels(source, given);
    var transactions := LabelTransactions(exported, labels, runType, provenance.independent);
    var matched := WithLabel(transactions, Some(true));
    if provenance.independent { UnmatchedAreMissing(exported, labels, runType, transactions); }
    if provenance.independent && runType == Wasabi2 && provenance.declared == None && labels == {}
       && Candidates(exported, runType) != {} {
      transactions := MarkUnavailable(transactions);
      provenance := provenance.(independent := false);
    } else if provenance.independent && labels - matched != {} {
      transactions := MarkUnavailable(transactions);
      provenance := provenance.(independent := false);
    }
    data := EmulatorData(provenance, labels, transactions,
                         |WithLabel(transactions, Some(true))|, |WithLabel(transactions, Some(false))|,
                         |WithLabel(transactions, None)|);
  }

  // ------------------------------------------------------------------ all known or none

  /**
   If the result stays independent, every transaction is labelled, the positive ones are
   exactly the producer's, and their number is also the declared one, if any.
   */
  lemma IndependentLabelsAreComplete(exported: map<Txid, nat>, runType: RunType, source: Source, given: Provenance,
                                     data: EmulatorData)
    requires Built(exported, runType, source, given, data) && data.provenance.independent
    ensures Parseable(source) && WithLabel(data.transactions, Some(true)) == PositivesOf(source) == data.labels
    ensures data.positives == |data.labels| && data.unknowns == 0
    ensures data.positives + data.negatives == |exported|
    ensures given.declared.Some? ==> data.positives == given.declared.value
  {
    IndependentMeans(exported, runType, source, given, data);
    LabelledSets(exported, data.labels, data.transactions, runType);
    SplitKeys(exported, data.labels);
  }

  lemma IndependentMeans(exported: map<Txid, nat>, runType: RunType, source: Source, given: Provenance,
                         data: EmulatorData)
    requires Built(exported, runType, source, given, data) && data.provenance.independent
    ensures Parseable(source) && data.labels == PositivesOf(source) && data.labels <= exported.Keys
    ensures given.declared.Some? ==> |data.labels| == given.declared.value
    ensures data.transactions.Keys == exported.Keys
    ensures forall t | t in exported :: data.transactions[t] == Labelled(exported[t], t in data.labels, runType, true)
  {
  }

  lemma SplitKeys(exported: map<Txid, nat>, labels: set<Txid>)
    requires labels <= exported.Keys
    ensures |labels| + |exported.Keys - labels| == |exported|
  {
    assert exported.Keys == labels + (exported.Keys - labels);
    assert |exported| == |exported.Keys|;
  }

  /** Which transactions carry which label, once every exported one is labelled. */
  lemma LabelledSets(exported: map<Txid, nat>, labels: set<Txid>, transactions: map<Txid, Record>, runType: RunType)
    requires labels <= exported.Keys && transactions.Keys == exported.Keys
    requires forall t | t in exported :: transactions[t] == Labelled(exported[t], t in labels, runType, true)
    ensures WithLabel(transactions, Some(true)) == labels
    ensures WithLabel(transactions, Some(false)) == exported.Keys - labels
    ensures WithLabel(transactions, None) == {}
  {
  }

  /** Otherwise every transaction is unknown. */
  lemma DependentLabelsAreUnknown(exported: map<Txid, nat>, runType: RunType, source: Source, given: Provenance,
                                  data: EmulatorData)
    requires Built(exported, runType, source, given, data) && !data.provenance.independent
    ensures WithLabel(data.transactions, None) == exported.Keys
    ensures data.unknowns == |exported| && data.positives == 0 && data.negatives == 0
  {
    assert WithLabel(data.transactions, None) == exported.Keys;
    assert WithLabel(data.transactions, Some(true)) == {};
    assert WithLabel(data.transactions, Some(false)) == {};
    assert |exported| == |exported.Keys|;
  }

  /** Labels stay independent exactly when nothing speaks against them. */
  lemma IndependentExactlyWhen(exported: map<Txid, nat>, runType: RunType, source: Source, given: Provenance,
                               data: EmulatorData)
    requires Built(exported, runType, source, given, data)
    ensures data.provenance.independent <==>
              && given.independent && Parseable(source)
              && (given.declared.Some? ==> |PositivesOf(source)| == given.declared.value)
              && PositivesOf(source) <= exported.Keys
              && (given.declared == None && PositivesOf(source) == {} ==> Candidates(exported, runType) == {})
  {
  }

  /** A transaction's record names where its label came from. */
  ghost predicate SourcesWithheld(data: EmulatorData) {
    forall t | t in data.transactions :: data.transactions[t].source == Unknown
  }

  /**
   The label's source is not withheld with it in one case: when only the number of labels
   disagrees with the declared one, exported positives still name the producer's record.
   */
  lemma SourcesWithheldUnlessCountDiffers(exported: map<Txid, nat>, runType: RunType, source: Source, given: Provenance,
                                          data: EmulatorData)
    requires Built(exported, runType, source, given, data) && !data.provenance.independent && runType != Unsupported
    ensures SourcesWithheld(data) <==>
              !(given.independent && Parseable(source)
                && given.declared.Some? && |PositivesOf(source)| != given.declared.value
                && PositivesOf(source) * exported.Keys != {})
  {
    if given.independent && Parseable(source) && given.declared.Some? && |PositivesOf(source)| != given.declared.value {
      if PositivesOf(source) * exported.Keys != {} {
        var t :| t in PositivesOf(source) * exported.Keys;
        assert data.transactions[t].source != Unknown;
      } else {
        forall t | t in data.transactions
          ensures data.transactions[t].source == Unknown
        {
          assert t !in PositivesOf(source) * exported.Keys;
        }
      }
    }
  }

  /** It happens: one confirmed round, exported, where the manifest declares two positives. */
  lemma CountDiffers() returns (exported: map<Txid, nat>, source: Source, given: Provenance, data: EmulatorData)
    ensures Built(exported, Joinmarket, source, given, data) && !data.provenance.independent && !SourcesWithheld(data)
  {
    exported, source, given := map[1 := 5], Rounds([Round(Confirmed, [1])]), Provenance(true, Some(2));
    assert source.rounds[0] in source.rounds && PositivesOf(source) == {1};
    var record := Record(5, None, None, JoinmarketRound);
    data := EmulatorData(Provenance(false, Some(2)), {1}, map[1 := record], 0, 0, 1);
    assert WithLabel(data.transactions, Some(true)) == {} && WithLabel(data.transactions, Some(false)) == {};
    assert WithLabel(data.transactions, None) == {1};
    assert data.transactions[1].source != Unknown;
  }

  // ------------------------------------------------------------- the confusion matrix

  datatype Matrix = Matrix(
    evaluated: nat,
    detectedInScope: nat,
    truePositives: nat,
    falsePositives: nat,
    trueNegatives: nat,
    falseNegatives: nat,
    unknown: nat)

  function Cell(transactions: map<Txid, Record>, l: Option<bool>, detected: set<Txid>, inside: bool): set<Txid> {
    set t | t in transactions && transactions[t].isCoinjoin == l && (t in detected) == inside
  }

  /** `build_detection_confusion_matrix`: one pass over the transactions. */
  method ConfusionMatrix(data: EmulatorData, detected: set<Txid>) returns (matrix: Option<Matrix>)
    ensures matrix.Some? <==> data.provenance.independent
    ensures matrix.Some? ==>
              && matrix.value.evaluated == |data.transactions.Keys|
              && matrix.value.detectedInScope == |detected * data.transactions.Keys|
              && matrix.value.truePositives == |Cell(data.transactions, Some(true), detected, true)|
              && matrix.value.falseNegatives == |Cell(data.transactions, Some(true), detected, false)|
              && matrix.value.falsePositives == |Cell(data.transactions, Some(false), detected, true)|
              && matrix.value.trueNegatives == |Cell(data.transactions, Some(false), detected, false)|
              && matrix.value.unknown == |WithLabel(data.transactions, None)|
  {
    if !data.provenance.independent { return None; }
    var all := data.transactions;
    var remaining := all.Keys;
    var tp, fp, tn, fn, unknown := 0, 0, 0, 0, 0;
    while remaining != {}
      invariant remaining <= all.Keys
      invariant tp == |Cell(all, Some(true), detected, true) - remaining|
      invariant fn == |Cell(all, Some(true), detected, false) - remaining|
      invariant fp == |Cell(all, Some(false), detected, true) - remaining|
      invariant tn == |Cell(all, Some(false), detected, false) - remaining|
      invariant unknown == |WithLabel(all, None) - remaining|
      decreases |remaining|
    {
      var t :| t in remaining;
      var expected, found := all[t].isCoinjoin, t in detected;
      OneLess(Cell(all, Some(true), detected, true), remaining, t);
      OneLess(Cell(all, Some(true), detected, false), remaining, t);
      OneLess(Cell(all, Some(false), detected, true), remaining, t);
      OneLess(Cell(all, Some(false), detected, false), remaining, t);
      OneLess(WithLabel(all, None), remaining, t);
      assert t in WithLabel(all, None) <==> expected != Some(true) && expected != Some(false) by {
        if expected.Some? { assert expected.value || !expected.value; }
      }
      if expected == Some(true) && found { tp := tp + 1; }
      else if expected == Some(true) { fn := fn + 1; }
      else if expected == Some(false) && found { fp := fp + 1; }
      else if expected == Some(false) { tn := tn + 1; }
      else { unknown := unknown + 1; }
      remaining := remaining - {t};
    }
    return Some(Matrix(|all.Keys|, |detected * all.Keys|, tp, fp, tn, fn, unknown));
  }

  lemma OneLess(cell: set<Txid>, remaining: set<Txid>, t: Txid)
    requires t in remaining
    ensures |cell - (remaining - {t})| == |cell - remaining| + if t in cell then 1 else 0
  {
    if t in cell {
      assert cell - (remaining - {t}) == (cell - remaining) + {t};
    } else {
      assert cell - (remaining - {t}) == cell - remaining;
    }
  }

  lemma CellsAddUp(whole: set<Txid>, one: set<Txid>, other: set<Txid>)
    requires whole == one + other && one !! other
    ensures |whole| == |one| + |other|
  {
  }

  ghost predicate AllLabelled(transactions: map<Txid, Record>) {
    forall t | t in transactions :: transactions[t].isCoinjoin == Some(true)
        || transactions[t].isCoinjoin == Some(false)
  }

  lemma CellsPartition(all: map<Txid, Record>, detected: set<Txid>)
    requires AllLabelled(all)
    ensures var tp, fn := Cell(all, Some(true), detected, true), Cell(all, Some(true), detected, false);
            var fp, tn := Cell(all, Some(false), detected, true), Cell(all, Some(false), detected, false);
            && |tp| + |fn| == |WithLabel(all, Some(true))|
            && |tp| + |fp| == |detected * all.Keys|
            && |fn| + |tn| == |all.Keys - detected|
  {
    var tp, fn := Cell(all, Some(true), detected, true), Cell(all, Some(true), detected, false);
    var fp, tn := Cell(all, Some(false), detected, true), Cell(all, Some(false), detected, false);
    CellsAddUp(WithLabel(all, Some(true)), tp, fn);
    CellsAddUp(detected * all.Keys, tp, fp);
    CellsAddUp(all.Keys - detected, fn, tn);
  }

  /**
   On independent data the matrix accounts for everything: nothing is unknown, the positives
   split the producer's labels, and the detections split those in scope.
   */
  lemma MatrixAccountsForEverything(exported: map<Txid, nat>, runType: RunType, source: Source, given: Provenance,
                                    data: EmulatorData, detected: set<Txid>)
    requires Built(exported, runType, source, given, data) && data.provenance.independent
    ensures var all := data.transactions;
            var tp, fn := |Cell(all, Some(true), detected, true)|, |Cell(all, Some(true), detected, false)|;
            var fp, tn := |Cell(all, Some(false), detected, true)|, |Cell(all, Some(false), detected, false)|;
            && |WithLabel(all, None)| == 0
            && tp + fn == |data.labels|
            && tp + fp == |detected * all.Keys|
            && tp + fp + tn + fn == |all.Keys|
  {
    var all := data.transactions;
    IndependentLabelsAreComplete(exported, runType, source, given, data);
    EveryRecordIsLabelled(exported, runType, source, given, data);
    CellsPartition(all, detected);
    CellsAddUp(all.Keys, detected * all.Keys, all.Keys - detected);
  }

  lemma EveryRecordIsLabelled(exported: map<Txid, nat>, runType: RunType, source: Source, given: Provenance,
                              data: EmulatorData)
    requires Built(exported, runType, source, given, data) && data.provenance.independent
    ensures AllLabelled(data.transactions)
  {
  }
}
