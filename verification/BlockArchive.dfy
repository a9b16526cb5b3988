/**
 Choosing files of the block archive for one parse or update, checking that they cover the
 requested heights, and what holds over a chain of one parse and any number of updates.

 A digest over (name, checksum) lines is represented by the list of those lines.
*/
module BlockArchive {
  import opened Common

  const TIP_MARGIN := 6

  /** The description of one block file; its name is its number. */
  datatype Sidecar = Sidecar(number: nat, sha256: nat, ranges: seq<(nat, nat)>)

  datatype ArchiveError =
    | GapBefore(number: nat)
    | NoFile(first: nat)
    | NoHeightUpTo(limit: nat)
    | TargetNotGreater
    | Changed

  type Digest = seq<(nat, nat)>

  /** What the cache of an earlier parse or update recorded. */
  datatype Source = Source(maxBlock: nat, lastFile: nat, digest: Digest)

  /** `read_sidecar` accepts only non-empty lists of ordered ranges. */
  predicate Wellformed(s: Sidecar) {
    s.ranges != [] && forall pair | pair in s.ranges :: pair.0 <= pair.1
  }

  /** `read_sidecars` lists the files by name, and there is one sidecar a name. */
  predicate Listing(sidecars: seq<Sidecar>) {
    && (forall s | s in sidecars :: Wellformed(s))
    && forall i, j | 0 <= i < j < |sidecars| :: sidecars[i].number < sidecars[j].number
  }

  predicate HoldsAny(s: Sidecar, low: int, high: int) {
    exists pair :: pair in s.ranges && pair.0 <= high && pair.1 >= low
  }

  predicate Holds(s: Sidecar, height: int) {
    HoldsAny(s, height, height)
  }

  /** `lowest_height`, over the ranges of a file. */
  function LowestStart(ranges: seq<(nat, nat)>): nat
    requires ranges != []
  {
    var last := ranges[|ranges| - 1].0;
    if |ranges| == 1 then last else Min(LowestStart(ranges[..|ranges| - 1]), last)
  }

  lemma {:induction false} LowestStartIsLowest(ranges: seq<(nat, nat)>, pair: (nat, nat))
    requires pair in ranges
    ensures LowestStart(ranges) <= pair.0
    decreases |ranges|
  {
    if |ranges| > 1 && pair in ranges[..|ranges| - 1] { LowestStartIsLowest(ranges[..|ranges| - 1], pair); }
  }

  // -------------------------------------------------------------------- contiguity

  /** The files from `first` on. */
  function FilesFrom(sidecars: seq<Sidecar>, first: nat): seq<Sidecar> {
    if sidecars == [] then []
    else
      var before := FilesFrom(sidecars[..|sidecars| - 1], first);
      var last := sidecars[|sidecars| - 1];
      if last.number < first then before else before + [last]
  }

  predicate Contiguous(sidecars: seq<Sidecar>, first: nat) {
    var files := FilesFrom(sidecars, first);
    files != [] && forall i | 0 <= i < |files| :: files[i].number == first + i
  }

  /** `require_contiguous`: passes exactly when the files from `first` on are numbered without a gap. */
  method RequireContiguous(sidecars: seq<Sidecar>, first: nat) returns (error: Option<ArchiveError>)
    ensures error == None <==> Contiguous(sidecars, first)
    ensures error.Some? && error.value.NoFile? ==> FilesFrom(sidecars, first) == []
    ensures error.Some? && error.value.GapBefore? ==>
              exists k: nat :: GapAt(sidecars, first, k) && sidecars[k].number == error.value.number
  {
    var expected := first;
    for k := 0 to |sidecars|
      invariant expected == first + |FilesFrom(sidecars[..k], first)|
      invariant forall i | 0 <= i < |FilesFrom(sidecars[..k], first)| ::
                  FilesFrom(sidecars[..k], first)[i].number == first + i
    {
      assert sidecars[..k + 1][..k] == sidecars[..k];
      if sidecars[k].number >= first {
        if sidecars[k].number != expected {
          FilesFromPrefix(sidecars, first, k);
          assert GapAt(sidecars, first, k);
          return Some(GapBefore(sidecars[k].number));
        }
        expected := expected + 1;
      }
    }
    assert sidecars[..|sidecars|] == sidecars;
    if expected == first { return Some(NoFile(first)); }
    return None;
  }

  /** File `k` is not numbered by the count of files from `first` on before it. */
  ghost predicate GapAt(sidecars: seq<Sidecar>, first: nat, k: nat) {
    k < |sidecars| && sidecars[k].number >= first && sidecars[k].number != first + |FilesFrom(sidecars[..k], first)|
  }

  lemma {:induction false} FilesFromPrefix(sidecars: seq<Sidecar>, first: nat, k: nat)
    requires k < |sidecars| && sidecars[k].number >= first
    ensures |FilesFrom(sidecars[..k], first)| < |FilesFrom(sidecars, first)|
    ensures FilesFrom(sidecars, first)[|FilesFrom(sidecars[..k], first)|] == sidecars[k]
    decreases |sidecars|
  {
    var before := sidecars[..|sidecars| - 1];
    if k < |sidecars| - 1 {
      assert before[..k] == sidecars[..k];
      FilesFromPrefix(before, first, k);
    }
  }

  lemma {:induction false} AllFilesFromZero(sidecars: seq<Sidecar>)
    ensures FilesFrom(sidecars, 0) == sidecars
    decreases |sidecars|
  {
    if sidecars != [] {
      AllFilesFromZero(sidecars[..|sidecars| - 1]);
      assert sidecars == sidecars[..|sidecars| - 1] + [sidecars[|sidecars| - 1]];
    }
  }

  /** In a whole archive without gaps the position of a file is its number. */
  lemma NumberIsPosition(sidecars: seq<Sidecar>, k: nat)
    requires Contiguous(sidecars, 0) && k < |sidecars|
    ensures sidecars[k].number == k
  {
    AllFilesFromZero(sidecars);
  }

  // ---------------------------------------------------------------------- selection

  /** The file holds a height up to the limit. */
  predicate UpTo(s: Sidecar, limit: int) {
    Wellformed(s) && LowestStart(s.ranges) <= limit
  }

  /** `last_file_needed`: the last file holding a height up to the target plus the tip margin. */
  function LastFileNeeded(sidecars: seq<Sidecar>, maxBlock: nat): Result<nat, ArchiveError> {
    if sidecars == [] then Err(NoHeightUpTo(maxBlock + TIP_MARGIN))
    else
      var rest := LastFileNeeded(sidecars[..|sidecars| - 1], maxBlock);
      var last := sidecars[|sidecars| - 1];
      if !UpTo(last, maxBlock + TIP_MARGIN) || (rest.Ok? && rest.value > last.number) then rest else Ok(last.number)
  }

  /** It is the highest number among the files with a height up to the limit. */
  lemma {:induction false} LastFileNeededIsHighest(sidecars: seq<Sidecar>, maxBlock: nat, s: Sidecar)
    requires s in sidecars && UpTo(s, maxBlock + TIP_MARGIN)
    ensures LastFileNeeded(sidecars, maxBlock).Ok? && s.number <= LastFileNeeded(sidecars, maxBlock).value
    decreases |sidecars|
  {
    if s in sidecars[..|sidecars| - 1] { LastFileNeededIsHighest(sidecars[..|sidecars| - 1], maxBlock, s); }
  }

  lemma {:induction false} LastFileNeededIsUpTo(sidecars: seq<Sidecar>, maxBlock: nat) returns (k: nat)
    requires LastFileNeeded(sidecars, maxBlock).Ok?
    ensures k < |sidecars| && UpTo(sidecars[k], maxBlock + TIP_MARGIN)
    ensures sidecars[k].number == LastFileNeeded(sidecars, maxBlock).value
    decreases |sidecars|
  {
    var rest := LastFileNeeded(sidecars[..|sidecars| - 1], maxBlock);
    if LastFileNeeded(sidecars, maxBlock) == rest {
      k := LastFileNeededIsUpTo(sidecars[..|sidecars| - 1], maxBlock);
    } else {
      k := |sidecars| - 1;
    }
  }

  /** `index_sha256`: the lines of the files a scan through `last` has indexed. */
  function DigestOf(sidecars: seq<Sidecar>, last: nat): Digest {
    var indexed := sidecars[..if last < |sidecars| then last + 1 else |sidecars|];
    seq(|indexed|, i requires 0 <= i < |indexed| => (indexed[i].number, indexed[i].sha256))
  }

  /** `index_sha256` as the loop that feeds the digest line by line. */
  method IndexSha256(sidecars: seq<Sidecar>, last: nat) returns (digest: Digest)
    ensures digest == DigestOf(sidecars, last)
  {
    var indexed := sidecars[..if last < |sidecars| then last + 1 else |sidecars|];
    digest := [];
    for k := 0 to |indexed|
      invariant |digest| == k && forall i | 0 <= i < k :: digest[i] == (indexed[i].number, indexed[i].sha256)
    {
      digest := digest + [(indexed[k].number, indexed[k].sha256)];
    }
  }

  function Holding(sidecars: seq<Sidecar>, low: int, high: int): seq<Sidecar> {
    if sidecars == [] then []
    else
      var before := Holding(sidecars[..|sidecars| - 1], low, high);
      var last := sidecars[|sidecars| - 1];
      if exists pair | pair in last.ranges :: pair.0 <= high && pair.1 >= low then before + [last] else before
  }

  /** `plan_files`: the files to download for a parse, or for an update of what `source` recorded. */
  function PlanFiles(sidecars: seq<Sidecar>, maxBlock: nat, source: Option<Source>): Result<seq<Sidecar>, ArchiveError>
    requires Listing(sidecars)
  {
    if !Contiguous(sidecars, 0) then
      if sidecars == [] then Err(NoFile(0)) else Err(GapBefore(FirstGap(sidecars, 0)))
    else
      var needed := LastFileNeeded(sidecars, maxBlock);
      if source == None then
        if needed.Err? then Err(needed.error) else Ok(Through(sidecars, needed.value))
      else if maxBlock <= source.value.maxBlock then Err(TargetNotGreater)
      else if source.value.lastFile >= |sidecars| || DigestOf(sidecars, source.value.lastFile) != source.value.digest
          then Err(Changed)
      else if needed.Err? then Err(needed.error)
      else
        Ok(OlderFiles(sidecars, source.value, maxBlock) + NewerFiles(sidecars, source.value, needed.value))
  }

  /** Files scanned before that hold a height of the update. */
  function OlderFiles(sidecars: seq<Sidecar>, source: Source, maxBlock: nat): seq<Sidecar>
    requires source.lastFile < |sidecars|
  {
    Holding(sidecars[..source.lastFile], source.maxBlock + 1, maxBlock)
  }

  /** The last file of the previous scan and those after it that are needed. */
  function NewerFiles(sidecars: seq<Sidecar>, source: Source, needed: nat): seq<Sidecar>
    requires source.lastFile < |sidecars|
  {
    Through(sidecars, Max(source.lastFile, needed))[source.lastFile..]
  }

  /** What an accepted parse has checked, and what it chooses. */
  lemma AcceptedParse(sidecars: seq<Sidecar>, maxBlock: nat)
    requires Listing(sidecars) && PlanFiles(sidecars, maxBlock, None).Ok?
    ensures Contiguous(sidecars, 0) && sidecars != [] && LastFileNeeded(sidecars, maxBlock).Ok?
    ensures PlanFiles(sidecars, maxBlock, None).value == Through(sidecars, LastFileNeeded(sidecars, maxBlock).value)
  {
  }

  /** What an accepted update has checked, and what it chooses. */
  lemma AcceptedUpdate(sidecars: seq<Sidecar>, maxBlock: nat, source: Source)
    requires Listing(sidecars) && PlanFiles(sidecars, maxBlock, Some(source)).Ok?
    ensures Contiguous(sidecars, 0) && LastFileNeeded(sidecars, maxBlock).Ok? && maxBlock > source.maxBlock
    ensures source.lastFile < |sidecars| && DigestOf(sidecars, source.lastFile) == source.digest
    ensures PlanFiles(sidecars, maxBlock, Some(source)).value
         == OlderFiles(sidecars, source, maxBlock) + NewerFiles(sidecars, source,
                                                                LastFileNeeded(sidecars, maxBlock).value)
  {
  }

  /** The files up to number `last`. */
  function Through(sidecars: seq<Sidecar>, last: nat): (files: seq<Sidecar>)
    ensures |files| == if last < |sidecars| then last + 1 else |sidecars|
  {
    sidecars[..if last < |sidecars| then last + 1 else |sidecars|]
  }

  /** The first file not numbered by its position, or the count of files if there is none. */
  function FirstGap(sidecars: seq<Sidecar>, k: nat): nat
    requires k <= |sidecars|
    decreases |sidecars| - k
  {
    if k == |sidecars| then k
    else if sidecars[k].number != k then sidecars[k].number
    else FirstGap(sidecars, k + 1)
  }

  // --------------------------------------------------------------------- coverage kept

  predicate Covered(files: seq<Sidecar>, height: int) {
    exists s :: s in files && Holds(s, height)
  }

  ghost predicate Covers(files: seq<Sidecar>, low: int, high: int) {
    forall h | low <= h <= high :: Covered(files, h)
  }

  lemma {:induction false} HoldingFiles(sidecars: seq<Sidecar>, low: int, high: int, s: Sidecar)
    ensures s in Holding(sidecars, low, high) <==> s in sidecars && HoldsAny(s, low, high)
    decreases |sidecars|
  {
    if sidecars != [] {
      var before, last := sidecars[..|sidecars| - 1], sidecars[|sidecars| - 1];
      HoldingFiles(before, low, high, s);
      assert sidecars == before + [last];
      if exists pair | pair in last.ranges :: pair.0 <= high && pair.1 >= low {
        assert HoldsAny(last, low, high);
      }
    }
  }

  function FromHeight(source: Option<Source>): nat {
    if source == None then 0 else source.value.maxBlock + 1
  }

  function FromFile(source: Option<Source>): nat {
    if source == None then 0 else source.value.lastFile
  }

  /** A file with a height to be verified is not beyond the last file needed. */
  lemma HolderIsNeeded(sidecars: seq<Sidecar>, maxBlock: nat, s: Sidecar, height: nat)
    requires Listing(sidecars) && s in sidecars && Holds(s, height) && height <= maxBlock
    ensures LastFileNeeded(sidecars, maxBlock).Ok? && s.number <= LastFileNeeded(sidecars, maxBlock).value
  {
    var pair :| pair in s.ranges && pair.0 <= height && pair.1 >= height;
    LowestStartIsLowest(s.ranges, pair);
    LastFileNeededIsHighest(sidecars, maxBlock, s);
  }

  lemma ChosenForUpdate(sidecars: seq<Sidecar>, maxBlock: nat, source: Source, k: nat, h: nat)
    requires Listing(sidecars) && PlanFiles(sidecars, maxBlock, Some(source)).Ok?
    requires k < |sidecars| && Holds(sidecars[k], h) && source.maxBlock < h <= maxBlock
    ensures sidecars[k] in PlanFiles(sidecars, maxBlock, Some(source)).value
  {
    AcceptedUpdate(sidecars, maxBlock, source);
    if k < source.lastFile {
      OlderIsChosen(sidecars, maxBlock, source, k, h);
    } else {
      NumberIsPosition(sidecars, k);
      HolderIsNeeded(sidecars, maxBlock, sidecars[k], h);
      NewerIsChosen(sidecars, source, LastFileNeeded(sidecars, maxBlock).value, k);
    }
  }

  lemma OlderIsChosen(sidecars: seq<Sidecar>, maxBlock: nat, source: Source, k: nat, h: nat)
    requires k < source.lastFile < |sidecars| && Holds(sidecars[k], h) && source.maxBlock < h <= maxBlock
    ensures sidecars[k] in OlderFiles(sidecars, source, maxBlock)
  {
    assert sidecars[..source.lastFile][k] == sidecars[k];
    HoldingFiles(sidecars[..source.lastFile], source.maxBlock + 1, maxBlock, sidecars[k]);
    var pair :| pair in sidecars[k].ranges && pair.0 <= h && pair.1 >= h;
    assert HoldsAny(sidecars[k], source.maxBlock + 1, maxBlock);
  }

  lemma NewerIsChosen(sidecars: seq<Sidecar>, source: Source, needed: nat, k: nat)
    requires source.lastFile <= k < |sidecars| && k <= needed
    ensures sidecars[k] in NewerFiles(sidecars, source, needed)
  {
    assert NewerFiles(sidecars, source, needed)[k - source.lastFile] == sidecars[k];
  }

  /** Each file that holds a height to be verified is chosen. */
  lemma HoldersAreChosen(sidecars: seq<Sidecar>, maxBlock: nat, source: Option<Source>, s: Sidecar, h: nat)
    requires Listing(sidecars) && PlanFiles(sidecars, maxBlock, source).Ok?
    requires s in sidecars && FromHeight(source) <= h <= maxBlock && Holds(s, h)
    ensures s in PlanFiles(sidecars, maxBlock, source).value
  {
    var k :| 0 <= k < |sidecars| && sidecars[k] == s;
    if source == None {
      AcceptedParse(sidecars, maxBlock);
      NumberIsPosition(sidecars, k);
      HolderIsNeeded(sidecars, maxBlock, s, h);
      assert Through(sidecars, LastFileNeeded(sidecars, maxBlock).value)[k] == s;
    } else {
      ChosenForUpdate(sidecars, maxBlock, source.value, k, h);
    }
  }

  lemma PrefixFiles(sidecars: seq<Sidecar>, low: int, high: int, from: nat, to: nat, s: Sidecar)
    requires from <= to <= |sidecars|
    ensures s in sidecars[from..to] ==> s in sidecars
    ensures s in Holding(sidecars[..to], low, high) ==> s in sidecars
  {
    HoldingFiles(sidecars[..to], low, high, s);
  }

  /** Nothing but files of the archive is chosen. */
  lemma ChosenAreFiles(sidecars: seq<Sidecar>, maxBlock: nat, source: Option<Source>, s: Sidecar)
    requires Listing(sidecars) && PlanFiles(sidecars, maxBlock, source).Ok?
    requires s in PlanFiles(sidecars, maxBlock, source).value
    ensures s in sidecars
  {
    if source == None {
      AcceptedParse(sidecars, maxBlock);
    } else {
      AcceptedUpdate(sidecars, maxBlock, source.value);
      var first := source.value.lastFile;
      var last := Max(first, LastFileNeeded(sidecars, maxBlock).value);
      PrefixFiles(sidecars, source.value.maxBlock + 1, maxBlock, 0, first, s);
      assert NewerFiles(sidecars, source.value, LastFileNeeded(sidecars, maxBlock).value)
          == sidecars[first..if last < |sidecars| then last + 1 else |sidecars|];
    }
  }

  /** The chosen files cover the heights to be verified exactly when the whole archive does. */
  lemma SelectionKeepsCoverage(sidecars: seq<Sidecar>, maxBlock: nat, source: Option<Source>)
    requires Listing(sidecars) && PlanFiles(sidecars, maxBlock, source).Ok?
    ensures Covers(PlanFiles(sidecars, maxBlock, source).value, FromHeight(source), maxBlock)
       <==> Covers(sidecars, FromHeight(source), maxBlock)
  {
    var chosen := PlanFiles(sidecars, maxBlock, source).value;
    forall h: nat | FromHeight(source) <= h <= maxBlock
      ensures Covered(chosen, h) <==> Covered(sidecars, h)
    {
      if Covered(chosen, h) {
        var s :| s in chosen && Holds(s, h);
        ChosenAreFiles(sidecars, maxBlock, source, s);
      }
      if Covered(sidecars, h) {
        var s :| s in sidecars && Holds(s, h);
        HoldersAreChosen(sidecars, maxBlock, source, s, h);
      }
    }
  }

  // ------------------------------------------------------------ the chosen files' numbers

  lemma {:induction false} FilesFromSplit(a: seq<Sidecar>, b: seq<Sidecar>, first: nat)
    ensures FilesFrom(a + b, first) == FilesFrom(a, first) + FilesFrom(b, first)
    decreases |b|
  {
    if b == [] {
      assert a + b == a;
    } else {
      FilesFromSplit(a, b[..|b| - 1], first);
      assert (a + b)[..|a + b| - 1] == a + b[..|b| - 1];
    }
  }

  lemma {:induction false} FilesAllBefore(files: seq<Sidecar>, first: nat)
    requires forall s | s in files :: s.number < first
    ensures FilesFrom(files, first) == []
    decreases |files|
  {
    if files != [] { FilesAllBefore(files[..|files| - 1], first); }
  }

  lemma {:induction false} FilesAllFrom(files: seq<Sidecar>, first: nat)
    requires forall i | 0 <= i < |files| :: files[i].number >= first
    ensures FilesFrom(files, first) == files
    decreases |files|
  {
    if files != [] {
      FilesAllFrom(files[..|files| - 1], first);
      assert files == files[..|files| - 1] + [files[|files| - 1]];
    }
  }

  lemma SuffixFrom(sidecars: seq<Sidecar>, first: nat, last: nat)
    requires Contiguous(sidecars, 0) && first < |sidecars| && first <= last
    ensures var files := Through(sidecars, last)[first..];
            FilesFrom(files, first) == files && files != [] && forall i | 0 <= i < |files| ::
                files[i].number == first + i
  {
    var files := Through(sidecars, last)[first..];
    forall i | 0 <= i < |files|
      ensures files[i].number == first + i
    {
      NumberIsPosition(sidecars, first + i);
    }
    FilesAllFrom(files, first);
  }

  lemma OlderBefore(sidecars: seq<Sidecar>, first: nat, low: int, high: int)
    requires Contiguous(sidecars, 0) && first < |sidecars|
    ensures FilesFrom(Holding(sidecars[..first], low, high), first) == []
  {
    var older := Holding(sidecars[..first], low, high);
    forall s | s in older
      ensures s.number < first
    {
      HoldingFiles(sidecars[..first], low, high, s);
      var k :| 0 <= k < first && sidecars[..first][k] == s;
      NumberIsPosition(sidecars, k);
    }
    FilesAllBefore(older, first);
  }

  lemma ParseIsContiguous(sidecars: seq<Sidecar>, needed: nat)
    requires Contiguous(sidecars, 0) && sidecars != []
    ensures Contiguous(Through(sidecars, needed), 0)
  {
    SuffixFrom(sidecars, 0, needed);
    assert Through(sidecars, needed)[0..] == Through(sidecars, needed);
  }

  lemma JoinedAreContiguous(older: seq<Sidecar>, newer: seq<Sidecar>, first: nat)
    requires FilesFrom(older, first) == [] && FilesFrom(newer, first) == newer && newer != []
    requires forall i | 0 <= i < |newer| :: newer[i].number == first + i
    ensures Contiguous(older + newer, first)
  {
    FilesFromSplit(older, newer, first);
    assert FilesFrom(older + newer, first) == newer;
  }

  lemma UpdateIsContiguous(sidecars: seq<Sidecar>, maxBlock: nat, source: Source, needed: nat)
    requires Contiguous(sidecars, 0) && source.lastFile < |sidecars|
    ensures Contiguous(OlderFiles(sidecars, source, maxBlock) + NewerFiles(sidecars, source, needed), source.lastFile)
  {
    OlderBefore(sidecars, source.lastFile, source.maxBlock + 1, maxBlock);
    SuffixFrom(sidecars, source.lastFile, Max(source.lastFile, needed));
    JoinedAreContiguous(OlderFiles(sidecars, source, maxBlock), NewerFiles(sidecars, source, needed), source.lastFile);
  }

  /** The chosen files pass the contiguity check that runs after the download. */
  lemma ChosenAreContiguous(sidecars: seq<Sidecar>, maxBlock: nat, source: Option<Source>)
    requires Listing(sidecars) && PlanFiles(sidecars, maxBlock, source).Ok?
    ensures Contiguous(PlanFiles(sidecars, maxBlock, source).value, FromFile(source))
  {
    var needed := LastFileNeeded(sidecars, maxBlock).value;
    if source == None {
      AcceptedParse(sidecars, maxBlock);
      ParseIsContiguous(sidecars, needed);
    } else {
      AcceptedUpdate(sidecars, maxBlock, source.value);
      UpdateIsContiguous(sidecars, maxBlock, source.value, needed);
    }
  }

  // --------------------------------------------------------------------------- the sweep

  function AllRanges(files: seq<Sidecar>): seq<(nat, nat)> {
    if files == [] then [] else AllRanges(files[..|files| - 1]) + files[|files| - 1].ranges
  }

  lemma {:induction false} RangesOfFiles(files: seq<Sidecar>, pair: (nat, nat))
    ensures pair in AllRanges(files) <==> exists s :: s in files && pair in s.ranges
    decreases |files|
  {
    if files != [] {
      var before, last := files[..|files| - 1], files[|files| - 1];
      RangesOfFiles(before, pair);
      assert files == before + [last];
      if pair in last.ranges { assert last in files; }
    }
  }

  /** Python's order of pairs. */
  predicate AtMost(a: (nat, nat), b: (nat, nat)) {
    a.0 < b.0 || (a.0 == b.0 && a.1 <= b.1)
  }

  predicate SortedPairs(pairs: seq<(nat, nat)>) {
    forall i, j | 0 <= i < j < |pairs| :: AtMost(pairs[i], pairs[j])
  }

  function Insert(pairs: seq<(nat, nat)>, pair: (nat, nat)): seq<(nat, nat)> {
    if pairs == [] || AtMost(pairs[|pairs| - 1], pair) then pairs + [pair]
    else Insert(pairs[..|pairs| - 1], pair) + [pairs[|pairs| - 1]]
  }

  function SortPairs(pairs: seq<(nat, nat)>): seq<(nat, nat)> {
    if pairs == [] then [] else Insert(SortPairs(pairs[..|pairs| - 1]), pairs[|pairs| - 1])
  }

  predicate AllAtMost(pairs: seq<(nat, nat)>, bound: (nat, nat)) {
    forall i | 0 <= i < |pairs| :: AtMost(pairs[i], bound)
  }

  lemma {:induction false} InsertBounded(pairs: seq<(nat, nat)>, pair: (nat, nat), bound: (nat, nat))
    requires AllAtMost(pairs, bound) && AtMost(pair, bound)
    ensures AllAtMost(Insert(pairs, pair), bound)
    decreases |pairs|
  {
    if pairs != [] && !AtMost(pairs[|pairs| - 1], pair) { InsertBounded(pairs[..|pairs| - 1], pair, bound); }
  }

  lemma {:induction false} InsertSorts(pairs: seq<(nat, nat)>, pair: (nat, nat))
    requires SortedPairs(pairs)
    ensures SortedPairs(Insert(pairs, pair))
    decreases |pairs|
  {
    if pairs != [] && !AtMost(pairs[|pairs| - 1], pair) {
      var before, last := pairs[..|pairs| - 1], pairs[|pairs| - 1];
      InsertSorts(before, pair);
      InsertBounded(before, pair, last);
    } else if pairs != [] {
      forall i | 0 <= i < |pairs|
        ensures AtMost(pairs[i], pair)
      {
        if i < |pairs| - 1 { assert AtMost(pairs[i], pairs[|pairs| - 1]); }
      }
    }
  }

  lemma {:induction false} InsertAdds(pairs: seq<(nat, nat)>, pair: (nat, nat))
    ensures multiset(Insert(pairs, pair)) == multiset(pairs) + multiset{pair}
    decreases |pairs|
  {
    if pairs != [] && !AtMost(pairs[|pairs| - 1], pair) {
      InsertAdds(pairs[..|pairs| - 1], pair);
      assert pairs == pairs[..|pairs| - 1] + [pairs[|pairs| - 1]];
    }
  }

  lemma {:induction false} SortPairsSorts(pairs: seq<(nat, nat)>)
    ensures SortedPairs(SortPairs(pairs)) && multiset(SortPairs(pairs)) == multiset(pairs)
    decreases |pairs|
  {
    if pairs != [] {
      SortPairsSorts(pairs[..|pairs| - 1]);
      InsertSorts(SortPairs(pairs[..|pairs| - 1]), pairs[|pairs| - 1]);
      InsertAdds(SortPairs(pairs[..|pairs| - 1]), pairs[|pairs| - 1]);
      assert pairs == pairs[..|pairs| - 1] + [pairs[|pairs| - 1]];
    }
  }

  predicate InRange(pair: (nat, nat), height: int) {
    pair.0 <= height <= pair.1
  }

  predicate InSome(ranges: seq<(nat, nat)>, height: int) {
    exists pair :: pair in ranges && InRange(pair, height)
  }

  /** The sweep over sorted ranges: the first height from `low` on that no range holds. */
  method Sweep(ranges: seq<(nat, nat)>, low: nat) returns (next: nat)
    requires forall pair | pair in ranges :: pair.0 <= pair.1
    ensures next >= low && !InSome(ranges, next)
    ensures forall h | low <= h < next :: InSome(ranges, h)
  {
    var pairs := SortPairs(ranges);
    SortPairsSorts(ranges);
    SamePairs(ranges, pairs);
    next := low;
    var k := 0;
    while k < |pairs|
      invariant k <= |pairs| && next >= low
      invariant forall h | low <= h < next :: InSome(ranges, h)
      invariant forall i | 0 <= i < k :: pairs[i].1 < next
    {
      if pairs[k].0 > next {
        NoLaterRange(pairs, k, next);
        return;
      }
      assert pairs[k] in pairs;
      RangeFills(ranges, pairs[k], next);
      next := if next < pairs[k].1 + 1 then pairs[k].1 + 1 else next;
      k := k + 1;
    }
    assert forall pair | pair in pairs :: !InRange(pair, next);
  }

  lemma SamePairs(a: seq<(nat, nat)>, b: seq<(nat, nat)>)
    requires multiset(a) == multiset(b)
    ensures forall pair :: pair in a <==> pair in b
  {
    forall pair
      ensures pair in a <==> pair in b
    {
      assert pair in a <==> pair in multiset(a);
      assert pair in b <==> pair in multiset(b);
    }
  }

  lemma RangeFills(ranges: seq<(nat, nat)>, pair: (nat, nat), next: nat)
    requires pair in ranges && pair.0 <= next
    ensures forall h | next <= h < pair.1 + 1 :: InSome(ranges, h)
  {
    forall h | next <= h < pair.1 + 1
      ensures InSome(ranges, h)
    {
      assert InRange(pair, h);
    }
  }

  /** Ranges that start after the height cannot hold it, nor can those that end before. */
  lemma NoLaterRange(pairs: seq<(nat, nat)>, k: nat, height: nat)
    requires SortedPairs(pairs) && k < |pairs| && pairs[k].0 > height
    requires forall i | 0 <= i < k :: pairs[i].1 < height
    ensures forall pair | pair in pairs :: !InRange(pair, height)
  {
    forall i | 0 <= i < |pairs|
      ensures !InRange(pairs[i], height)
    {
      if i > k { assert AtMost(pairs[k], pairs[i]); }
    }
  }

  /** `verify` on files whose contents match: the missing height it reports, if any. */
  method Verify(files: seq<Sidecar>, maxBlock: nat, source: Option<Source>) returns (missing: Option<nat>)
    requires forall s | s in files :: Wellformed(s)
    ensures missing == None <==> Covers(files, FromHeight(source), maxBlock)
    ensures missing.Some? ==>
              && FromHeight(source) <= missing.value <= maxBlock && !Covered(files, missing.value)
              && Covers(files, FromHeight(source), missing.value - 1)
  {
    var ranges := AllRanges(files);
    forall pair | pair in ranges
      ensures pair.0 <= pair.1
    {
      RangesOfFiles(files, pair);
    }
    var next := Sweep(ranges, FromHeight(source));
    forall h
      ensures InSome(ranges, h) <==> Covered(files, h)
    {
      CoveredByRanges(files, h);
    }
    missing := if next <= maxBlock then Some(next) else None;
  }

  lemma CoveredByRanges(files: seq<Sidecar>, height: int)
    ensures InSome(AllRanges(files), height) <==> Covered(files, height)
  {
    if InSome(AllRanges(files), height) {
      var pair :| pair in AllRanges(files) && InRange(pair, height);
      RangesOfFiles(files, pair);
      var s :| s in files && pair in s.ranges;
      assert Holds(s, height);
    }
    if Covered(files, height) {
      var s :| s in files && Holds(s, height);
      var pair :| pair in s.ranges && pair.0 <= height && pair.1 >= height;
      RangesOfFiles(files, pair);
      assert InRange(pair, height);
    }
  }

  // ------------------------------------------------------- one parse and many updates

  /** One run of `select` and `verify`: the archive as it was then, and the height asked for. */
  datatype Run = Run(archive: seq<Sidecar>, maxBlock: nat)

  /** The run's files were chosen and cover what they must. */
  ghost predicate Accepts(source: Option<Source>, run: Run) {
    && Listing(run.archive)
    && PlanFiles(run.archive, run.maxBlock, source).Ok?
    && Covers(PlanFiles(run.archive, run.maxBlock, source).value, FromHeight(source), run.maxBlock)
  }

  function LastOf(chosen: seq<Sidecar>): nat {
    if chosen == [] then 0 else chosen[|chosen| - 1].number
  }

  /** The last file the run recorded: that of the files it chose. */
  ghost function LastChosen(source: Option<Source>, run: Run): nat
    requires Accepts(source, run)
  {
    LastOf(PlanFiles(run.archive, run.maxBlock, source).value)
  }

  ghost function Recorded(source: Option<Source>, run: Run): Source
    requires Accepts(source, run)
  {
    Source(run.maxBlock, LastChosen(source, run), DigestOf(run.archive, LastChosen(source, run)))
  }

  /** A parse, then updates, each from the cache the one before recorded. */
  ghost predicate Chain(runs: seq<Run>)
    decreases |runs|, 0
  {
    runs == [] || (Chain(runs[..|runs| - 1]) && Accepts(Cache(runs[..|runs| - 1]), runs[|runs| - 1]))
  }

  ghost function Cache(runs: seq<Run>): Option<Source>
    requires Chain(runs)
    decreases |runs|, 1
  {
    if runs == [] then None else Some(Recorded(Cache(runs[..|runs| - 1]), runs[|runs| - 1]))
  }

  ghost function ChosenBy(runs: seq<Run>, k: nat): seq<Sidecar>
    requires Chain(runs) && k < |runs| && Chain(runs[..k]) && Accepts(Cache(runs[..k]), runs[k])
  {
    PlanFiles(runs[k].archive, runs[k].maxBlock, Cache(runs[..k])).value
  }

  lemma NeededIsFile(sidecars: seq<Sidecar>, maxBlock: nat)
    requires Contiguous(sidecars, 0) && LastFileNeeded(sidecars, maxBlock).Ok?
    ensures LastFileNeeded(sidecars, maxBlock).value < |sidecars|
  {
    var k := LastFileNeededIsUpTo(sidecars, maxBlock);
    NumberIsPosition(sidecars, k);
  }

  predicate Numbered(archive: seq<Sidecar>) {
    forall k | 0 <= k < |archive| :: archive[k].number == k
  }

  lemma ContiguousIsNumbered(archive: seq<Sidecar>)
    requires Contiguous(archive, 0)
    ensures Numbered(archive)
  {
    AllFilesFromZero(archive);
  }

  /** Files taken from a stretch of the archive carry its numbers. */
  lemma StretchIsNumbered(archive: seq<Sidecar>, from: nat, to: nat, s: Sidecar)
    requires Numbered(archive) && from <= to <= |archive| && s in archive[from..to]
    ensures from <= s.number < to && archive[s.number] == s
  {
    var j :| 0 <= j < to - from && archive[from..to][j] == s;
    assert archive[from + j] == s;
  }

  lemma UpdateUpToLast(archive: seq<Sidecar>, maxBlock: nat, source: Source, needed: nat, s: Sidecar)
    requires Numbered(archive) && source.lastFile < |archive| && needed < |archive|
    requires s in OlderFiles(archive, source, maxBlock) + NewerFiles(archive, source, needed)
    ensures s.number <= Max(source.lastFile, needed) && archive[s.number] == s
  {
    var first, last := source.lastFile, Max(source.lastFile, needed);
    if s in OlderFiles(archive, source, maxBlock) {
      HoldingFiles(archive[..first], source.maxBlock + 1, maxBlock, s);
      StretchIsNumbered(archive, 0, first, s);
    } else {
      assert Through(archive, last)[first..] == archive[first..last + 1];
      StretchIsNumbered(archive, first, last + 1, s);
    }
  }

  lemma UpdateEndsWithLast(archive: seq<Sidecar>, maxBlock: nat, source: Source, needed: nat)
    requires Numbered(archive) && source.lastFile < |archive| && needed < |archive|
    ensures LastOf(OlderFiles(archive, source, maxBlock) + NewerFiles(archive, source, needed))
              == Max(source.lastFile, needed)
  {
    var last := Max(source.lastFile, needed);
    assert NewerFiles(archive, source, needed)[last - source.lastFile] == archive[last];
  }

  /** The recorded last file is one of the archive, and no chosen file is beyond it. */
  lemma PlanEndsWithLast(archive: seq<Sidecar>, maxBlock: nat, source: Option<Source>)
    requires Listing(archive) && PlanFiles(archive, maxBlock, source).Ok?
    ensures Numbered(archive)
    ensures LastOf(PlanFiles(archive, maxBlock, source).value) < |archive|
    ensures LastOf(PlanFiles(archive, maxBlock, source).value) >= FromFile(source)
  {
    if source == None {
      AcceptedParse(archive, maxBlock);
    } else {
      AcceptedUpdate(archive, maxBlock, source.value);
    }
    NeededIsFile(archive, maxBlock);
    ContiguousIsNumbered(archive);
    if source.Some? { UpdateEndsWithLast(archive, maxBlock, source.value, LastFileNeeded(archive, maxBlock).value); }
  }

  lemma ChosenUpToLast(archive: seq<Sidecar>, maxBlock: nat, source: Option<Source>, s: Sidecar)
    requires Listing(archive) && PlanFiles(archive, maxBlock, source).Ok?
    requires s in PlanFiles(archive, maxBlock, source).value
    ensures s.number <= LastOf(PlanFiles(archive, maxBlock, source).value) < |archive| && archive[s.number] == s
  {
    var needed := LastFileNeeded(archive, maxBlock).value;
    PlanEndsWithLast(archive, maxBlock, source);
    NeededIsFile(archive, maxBlock);
    if source == None {
      AcceptedParse(archive, maxBlock);
      StretchIsNumbered(archive, 0, needed + 1, s);
    } else {
      AcceptedUpdate(archive, maxBlock, source.value);
      UpdateUpToLast(archive, maxBlock, source.value, needed, s);
      UpdateEndsWithLast(archive, maxBlock, source.value, needed);
    }
  }

  /** Over a chain the recorded last file never decreases. */
  lemma LastFileNeverDecreases(runs: seq<Run>)
    requires |runs| >= 2 && Chain(runs)
    ensures Cache(runs).value.lastFile >= Cache(runs[..|runs| - 1]).value.lastFile
  {
    PlanEndsWithLast(runs[|runs| - 1].archive, runs[|runs| - 1].maxBlock, Cache(runs[..|runs| - 1]));
  }

  /** An accepted update sees every file indexed before, with the same checksum. */
  lemma IndexedFilesAreUnchanged(runs: seq<Run>, i: nat)
    requires |runs| >= 2 && Chain(runs) && i <= Cache(runs[..|runs| - 1]).value.lastFile
    ensures var now, before := runs[|runs| - 1].archive, runs[|runs| - 2].archive;
            i < |now| && i < |before| && now[i].number == before[i].number && now[i].sha256 == before[i].sha256
  {
    var earlier := runs[..|runs| - 1];
    var now, before := runs[|runs| - 1], runs[|runs| - 2];
    assert earlier[|earlier| - 1] == before;
    var source := Cache(earlier).value;
    AcceptedUpdate(now.archive, now.maxBlock, source);
    PlanEndsWithLast(before.archive, before.maxBlock, Cache(earlier[..|earlier| - 1]));
    assert DigestOf(now.archive, source.lastFile)[i] == DigestOf(before.archive, source.lastFile)[i];
  }

  /** A file of the indexed part of the archive is still there after the next update. */
  lemma StillIndexed(runs: seq<Run>, s: Sidecar)
    requires |runs| >= 2 && Chain(runs) && s.number <= Cache(runs[..|runs| - 1]).value.lastFile
    requires var before := runs[|runs| - 2].archive;
             s.number < |before| && before[s.number].number == s.number && before[s.number].sha256 == s.sha256
    ensures s.number <= Cache(runs).value.lastFile
    ensures var now := runs[|runs| - 1].archive;
            s.number < |now| && now[s.number].number == s.number && now[s.number].sha256 == s.sha256
  {
    LastFileNeverDecreases(runs);
    IndexedFilesAreUnchanged(runs, s.number);
  }

  lemma JustDownloaded(source: Option<Source>, run: Run, h: nat) returns (s: Sidecar)
    requires Accepts(source, run) && FromHeight(source) <= h <= run.maxBlock
    ensures s in PlanFiles(run.archive, run.maxBlock, source).value && Holds(s, h)
    ensures s.number <= LastChosen(source, run) < |run.archive| && run.archive[s.number] == s
  {
    assert Covered(PlanFiles(run.archive, run.maxBlock, source).value, h);
    s :| s in PlanFiles(run.archive, run.maxBlock, source).value && Holds(s, h);
    ChosenUpToLast(run.archive, run.maxBlock, source, s);
  }

  /**
   Every height from 0 to the cache's maximum was in a file some run of the chain downloaded,
   and that file is still part of the indexed archive, unchanged.
   */
  lemma {:induction false} EveryHeightWasDownloaded(runs: seq<Run>, h: nat) returns (k: nat, s: Sidecar)
    requires runs != [] && Chain(runs) && h <= Cache(runs).value.maxBlock
    ensures k < |runs| && Chain(runs[..k]) && Accepts(Cache(runs[..k]), runs[k])
    ensures s in ChosenBy(runs, k) && Holds(s, h)
    ensures s.number <= Cache(runs).value.lastFile
    ensures var archive := runs[|runs| - 1].archive;
            s.number < |archive| && archive[s.number].number == s.number && archive[s.number].sha256 == s.sha256
    decreases |runs|
  {
    var earlier, run := runs[..|runs| - 1], runs[|runs| - 1];
    if h >= FromHeight(Cache(earlier)) {
      k := |runs| - 1;
      s := JustDownloaded(Cache(earlier), run, h);
    } else {
      k, s := EveryHeightWasDownloaded(earlier, h);
      assert earlier[..k] == runs[..k];
      StillIndexed(runs, s);
    }
  }
}
