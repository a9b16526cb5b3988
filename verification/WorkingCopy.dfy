/**
 The working copy of the persistent index: what a crash between any two effects can leave, and
 what `complete()` may conclude from it.

 One job at a time writes the copy; that is the index lock's result (module `IndexLock`). A
 file has a size and a content. The inventory that `complete()` compares holds sizes only, so
 two different files may look the same to it.
*/
module WorkingCopy {
  import opened Common

  type Name = nat

  datatype File = File(size: nat, content: nat)

  /**
   The rows of `inventory`: the sizes of the configuration, of every file under parsed/ and of
   every file a restore or clear left aside. The three kinds of path never coincide.
   */
  datatype Inventory = Inventory(config: Option<nat>, parsed: map<Name, nat>, aside: map<Name, nat>)

  datatype Pieces = Pieces(config: Option<File>, parsed: map<Name, File>, files: Option<Inventory>,
                           manifest: Option<nat>)

  /** What the job holding the writer lock is doing. */
  datatype Pc =
    | Idle
    | Parsing
    | Publishing(listed: bool, described: bool)
    | Emptying
    | Extracting
    | Placing
    | Discarding

  datatype State = State(
    pieces: Pieces,
    aside: map<Name, nat>,
    writing: bool,
    backup: Option<Pieces>,
    pc: Pc,
    published: seq<Pieces>)

  /** One of the four things a backup holds; parsed/ goes file by file or as a whole. */
  datatype Piece = Config | Parsed(names: set<Name>) | FileList | Manifest

  datatype Step =
    | BeginWrite                                                // touch the marker
    | Write(config: Option<File>, parsed: map<Name, File>)      // the parser writes what it likes
    | BeginPublish(finalConfig: File)                           // copy the run's configuration
    | WriteList                                                 // files.txt from the inventory
    | WriteManifest(manifest: nat)
    | Unmark                                                    // remove the marker: published
    | BeginRestore
    | Drop(piece: Piece)                                        // delete a piece, or move it aside
    | BeginExtract
    | Put(piece: Piece)                                         // unpack or rename a piece of the backup into place
    | FinishExtract                                             // the stream ended and its checksum matched
    | BeginPlace                                                // fill an empty copy by renames, without a marker
    | FinishPlace
    | BeginDiscard
    | FinishDiscard
    | SetAside(aside: map<Name, nat>)                           // leftover directories come and go
    | TakeBackup                                                // back up a complete copy
    | LoseBackup                                                // the old backup goes before the new one
    | Crash

  const NOTHING := Pieces(None, map[], None, None)

  function Init(): State {
    State(NOTHING, map[], false, None, Idle, [])
  }

  function InventoryOf(pieces: Pieces, aside: map<Name, nat>): Inventory {
    Inventory(if pieces.config.Some? then Some(pieces.config.value.size) else None,
              map n | n in pieces.parsed :: pieces.parsed[n].size,
              aside)
  }

  predicate Complete(s: State) {
    && s.pieces.manifest.Some?
    && s.pieces.files.Some?
    && !s.writing
    && InventoryOf(s.pieces, s.aside) == s.pieces.files.value
  }

  function Dropped(pieces: Pieces, piece: Piece): Pieces {
    match piece
    case Config => pieces.(config := None)
    case Parsed(names) => pieces.(parsed := pieces.parsed - names)
    case FileList => pieces.(files := None)
    case Manifest => pieces.(manifest := None)
  }

  function Placed(pieces: Pieces, piece: Piece, from: Pieces): Pieces {
    match piece
    case Config => pieces.(config := from.config)
    case Parsed(names) =>
      pieces.(parsed := pieces.parsed + map n | n in names && n in from.parsed :: from.parsed[n])
    case FileList => pieces.(files := from.files)
    case Manifest => pieces.(manifest := from.manifest)
  }

  predicate Enabled(s: State, step: Step) {
    match step
    case BeginWrite => s.pc == Idle
    case Write(_, _) => s.pc == Parsing
    case BeginPublish(_) => s.pc == Parsing
    case WriteList => s.pc.Publishing?
    case WriteManifest(_) => s.pc.Publishing?
    case Unmark => s.pc == Publishing(true, true)
    case BeginRestore => s.pc == Idle && s.backup.Some?
    case Drop(_) => s.pc == Emptying || s.pc == Discarding || (s.pc == Idle && s.pieces.manifest == None)
    case BeginExtract => s.pc == Emptying && s.backup.Some? && s.pieces == NOTHING
    case Put(_) => (s.pc == Extracting || s.pc == Placing) && s.backup.Some?
    case FinishExtract =>
      && s.pc == Extracting && s.backup.Some?
      && s.pieces.config.Some? && s.pieces.files.Some? && s.pieces.manifest.Some?
      && s.pieces.parsed.Keys == s.backup.value.parsed.Keys
    case BeginPlace => s.pc == Idle && s.backup.Some? && !s.writing && s.pieces == NOTHING
    case FinishPlace => s.pc == Placing
    case BeginDiscard => s.pc == Idle
    case FinishDiscard => s.pc == Discarding && s.pieces == NOTHING
    case SetAside(_) => s.pc == Idle || s.pc == Placing || s.pc == Discarding
    case TakeBackup => s.pc == Idle && Complete(s)
    case LoseBackup => s.pc == Idle
    case Crash => true
  }

  function Next(s: State, step: Step): State
    requires Enabled(s, step)
  {
    match step
    case BeginWrite => s.(writing := true, pc := Parsing)
    case Write(config, parsed) => s.(pieces := s.pieces.(config := config, parsed := parsed))
    case BeginPublish(config) => s.(pieces := s.pieces.(config := Some(config)), pc := Publishing(false, false))
    case WriteList => s.(pieces := s.pieces.(files := Some(InventoryOf(s.pieces, s.aside))),
                         pc := s.pc.(listed := true))
    case WriteManifest(m) => s.(pieces := s.pieces.(manifest := Some(m)), pc := s.pc.(described := true))
    case Unmark => s.(writing := false, pc := Idle, published := s.published + [s.pieces])
    case BeginRestore => s.(writing := true, pc := Emptying)
    case Drop(piece) => s.(pieces := Dropped(s.pieces, piece))
    case BeginExtract => s.(pc := Extracting)
    case Put(piece) => s.(pieces := Placed(s.pieces, piece, s.backup.value))
    case FinishExtract => s.(writing := false, pc := Idle)
    case BeginPlace => s.(pc := Placing)
    case FinishPlace => s.(pc := Idle)
    case BeginDiscard => s.(pc := Discarding)
    case FinishDiscard => s.(writing := false, pc := Idle)
    case SetAside(aside) => s.(aside := aside)
    case TakeBackup => s.(backup := Some(s.pieces))
    case LoseBackup => s.(backup := None)
    case Crash => s.(pc := Idle)
  }

  ghost predicate Run(steps: seq<Step>)
    decreases |steps|, 0
  {
    steps == [] || (Run(steps[..|steps| - 1]) && Enabled(Reached(steps[..|steps| - 1]), steps[|steps| - 1]))
  }

  ghost function Reached(steps: seq<Step>): State
    requires Run(steps)
    decreases |steps|, 1
  {
    if steps == [] then Init() else Next(Reached(steps[..|steps| - 1]), steps[|steps| - 1])
  }

  lemma OneMoreStep(steps: seq<Step>, step: Step)
    requires Run(steps) && Enabled(Reached(steps), step)
    ensures Run(steps + [step]) && Reached(steps + [step]) == Next(Reached(steps), step)
  {
    assert (steps + [step])[..|steps|] == steps;
  }

  // ------------------------------------------------------------------ what every run keeps

  /** Whatever of `whole` is present, and nothing else. */
  ghost predicate PartOf(pieces: Pieces, whole: Pieces) {
    && (pieces.config == None || pieces.config == whole.config)
    && (pieces.files == None || pieces.files == whole.files)
    && (pieces.manifest == None || pieces.manifest == whole.manifest)
    && (forall n | n in pieces.parsed :: n in whole.parsed && pieces.parsed[n] == whole.parsed[n])
  }

  /** A published generation lists each of its files. */
  ghost predicate Consistent(pieces: Pieces) {
    && pieces.config.Some? && pieces.manifest.Some? && pieces.files.Some?
    && pieces.files.value.config.Some?
    && pieces.files.value.parsed.Keys == pieces.parsed.Keys
  }

  ghost predicate PartOfPublished(s: State, k: nat) {
    k < |s.published| && PartOf(s.pieces, s.published[k])
  }

  ghost predicate FromPublished(s: State) {
    exists k :: PartOfPublished(s, k)
  }

  /** Backups are taken of complete copies, so they too hold one generation. */
  ghost predicate GenerationsConsistent(s: State) {
    && (forall k | 0 <= k < |s.published| :: Consistent(s.published[k]))
    && (s.backup.Some? ==> s.backup.value in s.published)
  }

  /** Without the marker nothing from two generations is mixed. */
  ghost predicate UnmarkedIsUnmixed(s: State) {
    !s.writing ==> s.pieces == NOTHING || FromPublished(s)
  }

  ghost predicate MarkerFollowsProgram(s: State) {
    && (s.pc.Parsing? || s.pc.Publishing? || s.pc.Emptying? || s.pc.Extracting? ==> s.writing)
    && (s.pc.Placing? ==> !s.writing)
  }

  ghost predicate FillsFromBackup(s: State) {
    s.pc.Extracting? || s.pc.Placing? ==> s.backup.Some? && PartOf(s.pieces, s.backup.value)
  }

  ghost predicate PublishesWhatItLists(s: State) {
    s.pc.Publishing? ==>
      && s.pieces.config.Some?
      && (s.pc.described ==> s.pieces.manifest.Some?)
      && (s.pc.listed ==> s.pieces.files == Some(InventoryOf(s.pieces, s.aside)))
  }

  ghost predicate Safe(s: State) {
    && GenerationsConsistent(s)
    && UnmarkedIsUnmixed(s)
    && MarkerFollowsProgram(s)
    && FillsFromBackup(s)
    && PublishesWhatItLists(s)
  }

  /** All pieces of a generation are in place as soon as the copy passes for complete. */
  lemma CompletePartIsWhole(s: State, whole: Pieces)
    requires Complete(s) && PartOf(s.pieces, whole) && Consistent(whole)
    ensures s.pieces == whole
  {
    assert InventoryOf(s.pieces, s.aside).parsed.Keys == s.pieces.parsed.Keys;
    assert s.pieces.parsed == whole.parsed;
  }

  lemma CompleteIsPublished(s: State)
    requires GenerationsConsistent(s) && UnmarkedIsUnmixed(s) && Complete(s)
    ensures s.pieces in s.published
  {
    assert s.pieces.manifest.Some?;
    assert FromPublished(s);
    var k: nat :| PartOfPublished(s, k);
    CompletePartIsWhole(s, s.published[k]);
  }

  lemma FullyExtracted(s: State)
    requires Safe(s) && Enabled(s, FinishExtract)
    ensures s.pieces == s.backup.value
  {
    assert s.pieces.parsed == s.backup.value.parsed;
  }

  lemma PlacedIsPart(s: State, piece: Piece)
    requires s.backup.Some? && PartOf(s.pieces, s.backup.value)
    ensures PartOf(Placed(s.pieces, piece, s.backup.value), s.backup.value)
  {
  }

  lemma BackupIsPublished(s: State, step: Step)
    requires GenerationsConsistent(s) && s.backup.Some? && Enabled(s, step)
    requires PartOf(Next(s, step).pieces, s.backup.value)
    ensures FromPublished(Next(s, step))
  {
    var k: nat :| k < |s.published| && s.published[k] == s.backup.value;
    assert PartOfPublished(Next(s, step), k);
  }

  lemma PublishedStays(s: State, step: Step)
    requires Enabled(s, step) && FromPublished(s) && PartOf(Next(s, step).pieces, s.pieces)
    ensures FromPublished(Next(s, step))
  {
    var k: nat :| PartOfPublished(s, k);
    assert PartOfPublished(Next(s, step), k);
  }

  lemma {:induction false} ProgramKept(s: State, step: Step)
    requires MarkerFollowsProgram(s) && FillsFromBackup(s) && PublishesWhatItLists(s) && Enabled(s, step)
    ensures MarkerFollowsProgram(Next(s, step)) && FillsFromBackup(Next(s, step)) && PublishesWhatItLists(Next(s, step))
  {
    match step
    case Put(piece) => PlacedIsPart(s, piece);
    case _ =>
  }

  lemma {:induction false} GenerationsKept(s: State, step: Step)
    requires Safe(s) && Enabled(s, step)
    ensures GenerationsConsistent(Next(s, step))
  {
    match step
    case Unmark => assert InventoryOf(s.pieces, s.aside).parsed.Keys == s.pieces.parsed.Keys;
    case TakeBackup => CompleteIsPublished(s);
    case _ =>
  }

  lemma {:induction false} UnmixedKept(s: State, step: Step)
    requires Safe(s) && Enabled(s, step)
    ensures UnmarkedIsUnmixed(Next(s, step))
  {
    if step.Unmark? {
      assert PartOfPublished(Next(s, step), |s.published|);
    } else if step.Put? {
      PlacedIsPart(s, step.piece);
      BackupIsPublished(s, step);
    } else if step.FinishExtract? {
      FullyExtracted(s);
      BackupIsPublished(s, step);
    } else if FromPublished(s) && PartOf(Next(s, step).pieces, s.pieces) {
      PublishedStays(s, step);
    }
  }

  lemma {:induction false} RunKeepsSafe(steps: seq<Step>)
    requires Run(steps)
    ensures Safe(Reached(steps))
    decreases |steps|
  {
    if steps != [] {
      RunKeepsSafe(steps[..|steps| - 1]);
      var before, step := Reached(steps[..|steps| - 1]), steps[|steps| - 1];
      ProgramKept(before, step);
      GenerationsKept(before, step);
      UnmixedKept(before, step);
    }
  }

  // --------------------------------------------------------------------- main results

  /**
   Crash consistency: whenever `complete()` holds, configuration, parsed files, file list and
   manifest are, content by content, those of one publication. It compares sizes only.
   */
  lemma CompleteIsOneGeneration(steps: seq<Step>) returns (k: nat)
    requires Run(steps) && Complete(Reached(steps))
    ensures k < |Reached(steps).published| && Reached(steps).pieces == Reached(steps).published[k]
  {
    RunKeepsSafe(steps);
    CompleteIsPublished(Reached(steps));
    k :| 0 <= k < |Reached(steps).published| && Reached(steps).published[k] == Reached(steps).pieces;
  }

  /** So does every backup: what a restore brings back is one publication too. */
  lemma BackupIsOneGeneration(steps: seq<Step>) returns (k: nat)
    requires Run(steps) && Reached(steps).backup.Some?
    ensures k < |Reached(steps).published| && Reached(steps).backup == Some(Reached(steps).published[k])
  {
    RunKeepsSafe(steps);
    k :| 0 <= k < |Reached(steps).published| && Reached(steps).published[k] == Reached(steps).backup.value;
  }

  /** The list of a published generation fits its files. */
  ghost predicate ListFits(pieces: Pieces) {
    && pieces.files.Some?
    && InventoryOf(pieces, pieces.files.value.aside) == pieces.files.value
  }

  lemma {:induction false} PublishedListFits(steps: seq<Step>, k: nat)
    requires Run(steps) && k < |Reached(steps).published|
    ensures ListFits(Reached(steps).published[k])
    decreases |steps|
  {
    var before := steps[..|steps| - 1];
    if k < |Reached(before).published| {
      PublishedListFits(before, k);
    } else {
      RunKeepsSafe(before);
    }
  }

  /**
   The check that ends `restore` passes exactly when the leftover files beside the index are
   those the generation was published with; a backup of a copy that listed leftovers, which
   no backup holds, cannot be restored into a clean directory.
   */
  lemma RestoreEndsComplete(steps: seq<Step>)
    requires Run(steps) && Enabled(Reached(steps), FinishExtract)
    ensures var s := Next(Reached(steps), FinishExtract);
            && s.pieces == s.backup.value
            && s.pieces.files.Some?
            && (Complete(s) <==> s.aside == s.pieces.files.value.aside)
  {
    RunKeepsSafe(steps);
    FullyExtracted(Reached(steps));
    var k := BackupIsOneGeneration(steps);
    PublishedListFits(steps, k);
  }

  /** One publication, then a second parse that kept every size. */
  function SameSizes(): seq<Step> {
    [BeginWrite, Write(None, map[7 := File(5, 1)]), BeginPublish(File(3, 1)), WriteList, WriteManifest(1), Unmark,
     BeginWrite, Write(Some(File(3, 1)), map[7 := File(5, 2)])]
  }

  function FirstGeneration(): Pieces {
    Pieces(Some(File(3, 1)), map[7 := File(5, 1)], Some(Inventory(Some(3), map[7 := 5], map[])), Some(1))
  }

  lemma FirstGenerationIsPublished()
    ensures Run(SameSizes()[..6])
    ensures Reached(SameSizes()[..6]) == State(FirstGeneration(), map[], false, None, Idle, [FirstGeneration()])
  {
    var all := SameSizes();
    assert all[..0] == [];
    assert all[..1] == all[..0] + [all[0]] && all[..2] == all[..1] + [all[1]] && all[..3] == all[..2] + [all[2]];
    assert all[..4] == all[..3] + [all[3]] && all[..5] == all[..4] + [all[4]] && all[..6] == all[..5] + [all[5]];
    OneMoreStep(all[..0], all[0]);
    OneMoreStep(all[..1], all[1]);
    OneMoreStep(all[..2], all[2]);
    assert InventoryOf(FirstGeneration(), map[]) == FirstGeneration().files.value;
    OneMoreStep(all[..3], all[3]);
    OneMoreStep(all[..4], all[4]);
    OneMoreStep(all[..5], all[5]);
  }

  /** The marker carries the result: sizes alone would accept files of no publication. */
  lemma SizesCannotTell()
    ensures Run(SameSizes())
    ensures var s := Reached(SameSizes());
            Complete(s.(writing := false)) && !Complete(s) && s.pieces !in s.published
  {
    FirstGenerationIsPublished();
    var all := SameSizes();
    assert all[..7] == all[..6] + [all[6]] && all[..8] == all[..7] + [all[7]] && all[..8] == all;
    OneMoreStep(all[..6], all[6]);
    OneMoreStep(all[..7], all[7]);
    var s := Reached(all);
    assert s.pieces.parsed[7] != FirstGeneration().parsed[7];
  }

  lemma Then(steps: seq<Step>, s: State, step: Step, t: State) returns (more: seq<Step>)
    requires Run(steps) && Reached(steps) == s && Enabled(s, step) && Next(s, step) == t
    ensures Run(more) && Reached(more) == t
  {
    OneMoreStep(steps, step);
    more := steps + [step];
  }

  /** A generation published while file 9, of size 1, lay in a leftover directory, and its backup. */
  function WithLeftovers(): Pieces {
    FirstGeneration().(files := Some(Inventory(Some(3), map[7 := 5], map[9 := 1])))
  }

  function BackedUp(pieces: Pieces, aside: map<Name, nat>, writing: bool, pc: Pc): State {
    State(pieces, aside, writing, Some(WithLeftovers()), pc, [WithLeftovers()])
  }

  function BesideLeftovers(pieces: Pieces, writing: bool, pc: Pc): State {
    State(pieces, map[9 := 1], writing, None, pc, [])
  }

  lemma ParsedBesideLeftovers() returns (steps: seq<Step>)
    ensures Run(steps)
    ensures Reached(steps) == BesideLeftovers(WithLeftovers().(files := None, manifest := None), true,
                                              Publishing(false, false))
  {
    var left := map[9 := 1];
    var s := Init().(aside := left);
    steps := Then([], Init(), SetAside(left), s);
    steps := Then(steps, s, BeginWrite, s.(writing := true, pc := Parsing));
    s := s.(writing := true, pc := Parsing);
    steps := Then(steps, s, Write(None, map[7 := File(5, 1)]), s.(pieces := NOTHING.(parsed := map[7 := File(5, 1)])));
    s := s.(pieces := WithLeftovers().(files := None, manifest := None), pc := Publishing(false, false));
    steps := Then(steps, s.(pieces := NOTHING.(parsed := map[7 := File(5, 1)]), pc := Parsing),
                  BeginPublish(File(3, 1)), s);
  }

  lemma PublishedBesideLeftovers() returns (steps: seq<Step>)
    ensures Run(steps)
    ensures Reached(steps)
            == BesideLeftovers(WithLeftovers(), false, Idle).(published := [WithLeftovers()])
  {
    var left, whole := map[9 := 1], WithLeftovers();
    steps := ParsedBesideLeftovers();
    var s := BesideLeftovers(whole.(files := None, manifest := None), true, Publishing(false, false));
    assert InventoryOf(s.pieces, left) == whole.files.value;
    var listed := BesideLeftovers(whole.(manifest := None), true, Publishing(true, false));
    steps := Then(steps, s, WriteList, listed);
    s := BesideLeftovers(whole, true, Publishing(true, true));
    steps := Then(steps, listed, WriteManifest(1), s);
    var done := s.(writing := false, pc := Idle, published := [WithLeftovers()]);
    steps := Then(steps, s, Unmark, done);
  }

  /** The backup is taken, the leftovers go, and a restore begins. */
  lemma RestoreBegins() returns (steps: seq<Step>)
    ensures Run(steps) && Reached(steps) == BackedUp(WithLeftovers(), map[], true, Emptying)
  {
    var left := map[9 := 1];
    var done := BesideLeftovers(WithLeftovers(), false, Idle).(published := [WithLeftovers()]);
    steps := PublishedBesideLeftovers();
    assert InventoryOf(done.pieces, left) == WithLeftovers().files.value;
    steps := Then(steps, done, TakeBackup, BackedUp(WithLeftovers(), left, false, Idle));
    steps := Then(steps, BackedUp(WithLeftovers(), left, false, Idle), SetAside(map[]),
                  BackedUp(WithLeftovers(), map[], false, Idle));
    steps := Then(steps, BackedUp(WithLeftovers(), map[], false, Idle), BeginRestore,
                  BackedUp(WithLeftovers(), map[], true, Emptying));
  }

  /** The old copy goes piece by piece. */
  lemma OldCopyRemoved() returns (steps: seq<Step>)
    ensures Run(steps) && Reached(steps) == BackedUp(NOTHING, map[], true, Extracting)
  {
    var whole := WithLeftovers();
    steps := RestoreBegins();
    var one := whole.(config := None);
    steps := Then(steps, BackedUp(whole, map[], true, Emptying), Drop(Config), BackedUp(one, map[], true, Emptying));
    assert one.parsed - {7} == map[];
    var two := one.(parsed := map[]);
    steps := Then(steps, BackedUp(one, map[], true, Emptying), Drop(Parsed({7})), BackedUp(two, map[], true, Emptying));
    var three := two.(files := None);
    steps := Then(steps, BackedUp(two, map[], true, Emptying), Drop(FileList), BackedUp(three, map[], true, Emptying));
    steps := Then(steps, BackedUp(three, map[], true, Emptying), Drop(Manifest),
                  BackedUp(NOTHING, map[], true, Emptying));
    steps := Then(steps, BackedUp(NOTHING, map[], true, Emptying), BeginExtract,
                  BackedUp(NOTHING, map[], true, Extracting));
  }

  lemma HalfRestored() returns (steps: seq<Step>)
    ensures Run(steps)
    ensures Reached(steps) == BackedUp(WithLeftovers().(files := None, manifest := None), map[], true, Extracting)
  {
    var whole := WithLeftovers();
    steps := OldCopyRemoved();
    var one := NOTHING.(config := whole.config);
    steps := Then(steps, BackedUp(NOTHING, map[], true, Extracting), Put(Config),
                  BackedUp(one, map[], true, Extracting));
    assert map[] + (map n | n in {7} && n in whole.parsed :: whole.parsed[n]) == whole.parsed;
    var two := one.(parsed := whole.parsed);
    steps := Then(steps, BackedUp(one, map[], true, Extracting), Put(Parsed({7})),
                  BackedUp(two, map[], true, Extracting));
  }

  /** It happens: a backup that lists a leftover directory is restored in full, and the final check refuses it. */
  lemma LeftoversRefuseRestore() returns (steps: seq<Step>)
    ensures Run(steps) && Enabled(Reached(steps), FinishExtract) && !Complete(Next(Reached(steps), FinishExtract))
  {
    var whole := WithLeftovers();
    var two := whole.(files := None, manifest := None);
    steps := HalfRestored();
    var three := two.(files := whole.files);
    steps := Then(steps, BackedUp(two, map[], true, Extracting), Put(FileList),
                  BackedUp(three, map[], true, Extracting));
    steps := Then(steps, BackedUp(three, map[], true, Extracting), Put(Manifest),
                  BackedUp(whole, map[], true, Extracting));
    assert 9 in whole.files.value.aside;
  }

  // ------------------------------------------------------------------------ the program

  lemma PutOneFile(pieces: Pieces, from: Pieces, n: Name)
    requires n in from.parsed
    ensures Placed(pieces, Parsed({n}), from).parsed.Keys == pieces.parsed.Keys + {n}
  {
  }

  lemma OneFewer(whole: set<Name>, part: set<Name>, n: Name)
    requires n in whole - part
    ensures |whole - (part + {n})| < |whole - part|
  {
    assert whole - (part + {n}) == (whole - part) - {n};
  }

  datatype Outcome = Done | NotMatching | NoBackup | Crashed

  /**
   The index store's own operations, effect by effect: after every effect the job may be
   killed. Each execution is a run of the steps above, so the results above hold after it.
   */
  class IndexStore {
    var state: State
    ghost var steps: seq<Step>

    ghost predicate Valid()
      reads this
    {
      Run(steps) && Reached(steps) == state
    }

    constructor ()
      ensures Valid() && state == Init()
    {
      state, steps := Init(), [];
    }

    /** One effect on the disk. */
    method Do(step: Step)
      requires Valid() && Enabled(state, step)
      modifies this
      ensures Valid() && state == Next(old(state), step)
    {
      OneMoreStep(steps, step);
      state, steps := Next(state, step), steps + [step];
    }

    method Publish(config: File, manifest: nat) returns (outcome: Outcome)
      requires Valid() && state.pc.Parsing?
      modifies this
      ensures Valid()
      ensures outcome == Done || outcome == Crashed
      ensures outcome == Done ==>
                && Complete(state)
                && state.pieces == Pieces(Some(config), old(state.pieces.parsed), state.pieces.files, Some(manifest))
                && state.published == old(state.published) + [state.pieces]
      ensures outcome == Crashed ==> state.pc.Idle? && state.writing && state.published == old(state.published)
    {
      RunKeepsSafe(steps);
      Do(BeginPublish(config));
      if * { Do(Crash); return Crashed; }
      Do(WriteList);
      if * { Do(Crash); return Crashed; }
      Do(WriteManifest(manifest));
      if * { Do(Crash); return Crashed; }
      Do(Unmark);
      return Done;
    }

    /** Delete the four members, the files under parsed/ one by one. */
    method Empty() returns (outcome: Outcome)
      requires Valid() && state.pc.Emptying?
      modifies this
      ensures Valid()
      ensures outcome == Done || outcome == Crashed
      ensures state.backup == old(state.backup) && state.aside == old(state.aside)
      ensures outcome == Done ==> state.pc.Emptying? && state.pieces == NOTHING
      ensures outcome == Crashed ==> state.pc.Idle? && state.writing
    {
      RunKeepsSafe(steps);
      while state.pieces.parsed.Keys != {}
        invariant Valid() && state.pc.Emptying? && state.writing
        invariant state.backup == old(state.backup) && state.aside == old(state.aside)
        decreases |state.pieces.parsed.Keys|
      {
        if * { Do(Crash); return Crashed; }
        var n :| n in state.pieces.parsed.Keys;
        ghost var before := state.pieces.parsed.Keys;
        Do(Drop(Parsed({n})));
        assert state.pieces.parsed.Keys == before - {n};
      }
      if * { Do(Crash); return Crashed; }
      Do(Drop(Config));
      if * { Do(Crash); return Crashed; }
      Do(Drop(FileList));
      if * { Do(Crash); return Crashed; }
      Do(Drop(Manifest));
      return Done;
    }

    ghost predicate AllRecords()
      reads this
    {
      state.pieces.config.Some? && state.pieces.files.Some? && state.pieces.manifest.Some?
    }

    method ExtractFile(n: Name)
      requires Valid() && state.pc.Extracting? && state.backup.Some? && n in state.backup.value.parsed
      modifies this
      ensures Valid()
      ensures state == old(state).(pieces := old(state.pieces).(parsed := state.pieces.parsed))
      ensures state.pieces.parsed.Keys == old(state.pieces.parsed.Keys) + {n}
    {
      PutOneFile(state.pieces, state.backup.value, n);
      Do(Put(Parsed({n})));
    }

    /** Unpack the files under parsed/; a broken stream ends the job like a crash. */
    method ExtractParsed() returns (outcome: Outcome)
      requires Valid() && state.pc.Extracting? && state.backup.Some? && state.writing && AllRecords()
      requires state.pieces.parsed.Keys <= state.backup.value.parsed.Keys
      modifies this
      ensures Valid()
      ensures outcome == Done || outcome == Crashed
      ensures state.backup == old(state.backup) && state.aside == old(state.aside)
      ensures outcome == Done ==>
                && state.pc.Extracting? && AllRecords()
                && state.pieces.parsed.Keys == state.backup.value.parsed.Keys
      ensures outcome == Crashed ==> state.pc.Idle? && state.writing
    {
      var members := state.backup.value.parsed.Keys;
      while members - state.pieces.parsed.Keys != {}
        invariant Valid() && state.pc.Extracting? && state.writing && AllRecords()
        invariant state.backup == old(state.backup) && state.aside == old(state.aside)
        invariant state.pieces.parsed.Keys <= members
        decreases |members - state.pieces.parsed.Keys|
      {
        if * { Do(Crash); return Crashed; }
        var n :| n in members - state.pieces.parsed.Keys;
        OneFewer(members, state.pieces.parsed.Keys, n);
        ExtractFile(n);
      }
      return Done;
    }

    /** Unpack the whole backup. */
    method Extract() returns (outcome: Outcome)
      requires Valid() && state.pc.Extracting? && state.pieces == NOTHING
      modifies this
      ensures Valid()
      ensures outcome == Done || outcome == Crashed
      ensures state.backup == old(state.backup) && state.aside == old(state.aside)
      ensures outcome == Done ==> Enabled(state, FinishExtract)
      ensures outcome == Crashed ==> state.pc.Idle? && state.writing
    {
      RunKeepsSafe(steps);
      var k := BackupIsOneGeneration(steps);
      Do(Put(Config));
      if * { Do(Crash); return Crashed; }
      Do(Put(FileList));
      if * { Do(Crash); return Crashed; }
      Do(Put(Manifest));
      outcome := ExtractParsed();
    }

    /** Replace the working copy by the backup. */
    method Restore() returns (outcome: Outcome)
      requires Valid() && state.pc.Idle?
      modifies this
      ensures Valid()
      ensures outcome == NoBackup <==> old(state.backup) == None
      ensures outcome == NoBackup ==> state == old(state)
      ensures outcome == Done ==> Complete(state) && Some(state.pieces) == old(state.backup)
      ensures outcome == NotMatching ==>
                && !Complete(state) && Some(state.pieces) == old(state.backup)
                && state.pieces.files.Some? && state.pieces.files.value.aside != old(state.aside)
      ensures outcome == Crashed ==> state.writing && state.pc.Idle?
    {
      if state.backup == None { return NoBackup; }
      Do(BeginRestore);
      outcome := Empty();
      if outcome == Crashed { return; }
      Do(BeginExtract);
      outcome := Extract();
      if outcome == Crashed { return; }
      RestoreEndsComplete(steps);
      Do(FinishExtract);
      if !Complete(state) { return NotMatching; }
      return Done;
    }

    /** Leave the working copy complete, from the backup if needed. */
    method Reconcile() returns (outcome: Outcome)
      requires Valid() && state.pc.Idle?
      modifies this
      ensures Valid()
      ensures outcome == Done <==> Complete(state)
      ensures old(Complete(state)) ==> outcome == Done && state == old(state)
      ensures outcome == NoBackup ==> state == old(state) && old(state.backup) == None
      ensures outcome == Done ==> state.pieces in state.published
    {
      if Complete(state) {
        outcome := Done;
      } else {
        outcome := Restore();
      }
      RunKeepsSafe(steps);
      if Complete(state) { CompleteIsPublished(state); }
    }
  }
}
