/**
 The six jobs of a mainnet synchronization over one working dataset: restore, producer,
 blocksci, checkpoint, pack and clear.

 Any number of synchronizations take their effects in any order, one effect on the shared
 files or on S3 at a time; a job may die after each. A job starts only when the previous job
 of its chain succeeded, and every job runs at most once. The index lock is taken at once or
 not at all: the jobs wait zero seconds for it (its own protocol is module `IndexLock`).
*/
module MainnetSync {
  import opened Common

  type RunId = nat

  datatype Job = Restore | Producer | Blocksci | Checkpoint | Pack | Clear

  /** What a checkpoint records in each of its three manifests beside the run ID. */
  datatype Info = Info(height: nat, signature: nat)

  datatype Point =
    | Locked                                            // holds the index lock
    | Claiming                                          // made the dataset lock directory
    | Owning                                            // and wrote its owner
    | ResetReady                                        // restore: ready.json is gone
    | ResetDone                                         // restore: done.json is gone too
    | Checking                                          // restore: and restore.json; it decides now
    | Discarding                                        // moving the dataset aside
    | Filling                                           // restore: renaming backups into place
    | Producing                                         // producer: the dataset has been accepted
    | Indexing                                          // blocksci: the index is marked as being written
    | BackingUp(slot: nat, phase: nat, info: Info)      // checkpoint: next effect on a backup
    | Ending                                            // the work is done
    | Released                                          // the dataset lock is gone
    | Recorded                                          // checkpoint: done.json is written

  datatype Pc = Queued(job: Job) | Running(job: Job, point: Point) | Dead | Over

  /** The directory `.sync-active`; `named` once owner.json is in it. */
  datatype DatasetLock = Free | Taken(holder: RunId, named: bool)

  datatype Manifest = Manifest(run: RunId, info: Info)

  /** One backup in S3: its manifest and the run whose data its archive holds, if usable. */
  datatype Slot = Slot(manifest: Option<Manifest>, archive: Option<RunId>)

  /** What is moved or renamed as a whole: Core's directory, the archive's state, Dumplings, the index's entries. */
  datatype Part = Core | ArchiveState | Scanner | Config | FileList | IndexManifest | Parsed

  /** The working dataset. */
  datatype Data = Data(
    parts: set<Part>,
    genesis: bool,                // Core still has its first block file
    unfinished: bool,             // the index has its .writing marker
    index: Option<Manifest>)      // manifest.json of the index

  datatype State = State(
    pcs: map<RunId, Pc>,
    writer: Option<RunId>,
    readers: set<RunId>,
    dataset: DatasetLock,
    ready: Option<Manifest>,      // ready.json: run and height; the signature is not used
    done: Option<RunId>,          // done.json
    first: Option<RunId>,         // the run whose restore.json says that there was nothing to restore at all
    data: Data,
    slots: seq<Slot>,             // the index, Dumplings and Core backups, in the order they are replaced
    unpruned: bool,               // the Core backup has the first block file
    archived: bool,               // S3 holds archived blocks
    backedUp: set<RunId>)         // runs whose checkpoint published its last backup

  datatype Step =
    | Submit(run: RunId)
    | LockIndex(run: RunId)
    | Claim(run: RunId)
    | Name(run: RunId)
    | RemoveReady(run: RunId)
    | RemoveDone(run: RunId)
    | RemoveRestore(run: RunId)
    | SkipRestore(run: RunId)                   // there is a dataset, or nothing was ever synchronized
    | BeginDiscard(run: RunId)
    | MoveAside(run: RunId, part: Part)
    | EndDiscard(run: RunId)
    | BeginFill(run: RunId)
    | FillPiece(run: RunId, part: Part)
    | EndFill(run: RunId)
    | StartProduce(run: RunId)                  // the producer accepts the dataset
    | Grow(run: RunId, part: Part)              // what a first producer, or the parser, creates
    | FirstBlock(run: RunId)                    // the first block file comes, or a checkpoint prunes it
    | Produce(run: RunId, height: nat)
    | MarkIndex(run: RunId)
    | Index(run: RunId, signature: nat)
    | BeginBackups(run: RunId)
    | BackUp(run: RunId)
    | Release(run: RunId)
    | Record(run: RunId)
    | Unlock(run: RunId)
    | PackBlocks(run: RunId)
    | Die(run: RunId)
    | Expire(run: RunId)          // clear the index lock entry of a dead job
    | HandleFailure(run: RunId)   // the failure handler frees a dead job's dataset lock

  const EMPTY_SLOT := Slot(None, None)

  const NO_DATA := Data({}, false, false, None)

  function Init(): State {
    State(map[], None, {}, Free, None, None, None, NO_DATA, [EMPTY_SLOT, EMPTY_SLOT, EMPTY_SLOT], false, false, {})
  }

  // ------------------------------------------------------------ what the jobs see of the data

  predicate HasRoot(d: Data) {
    Core in d.parts && ArchiveState in d.parts && Scanner in d.parts
  }

  predicate NoRoot(d: Data) {
    Core !in d.parts && ArchiveState !in d.parts && Scanner !in d.parts
  }

  predicate HasIndex(d: Data) {
    Config in d.parts && FileList in d.parts && IndexManifest in d.parts && Parsed in d.parts
  }

  predicate Whole(d: Data) {
    HasRoot(d) && HasIndex(d)
  }

  /** A first synchronization that was not finished: every block is there, and no index yet. */
  predicate Begun(d: Data) {
    Core in d.parts && d.genesis && Config !in d.parts
  }

  /** `require_complete_dataset`; `first` says that the run's own restore found nothing to restore. */
  predicate Accepted(d: Data, first: bool) {
    if NoRoot(d) && Config !in d.parts then first else (HasRoot(d) && Config in d.parts) || Begun(d)
  }

  /** What `blocksci` demands before it touches the index. */
  predicate Indexable(d: Data) {
    if Config in d.parts then HasIndex(d) else Parsed !in d.parts && Core in d.parts && d.genesis
  }

  /** Producer and blocksci can both work on this data. */
  predicate Usable(d: Data) {
    Whole(d) || (Begun(d) && Parsed !in d.parts)
  }

  /** No restore will empty this data, and no synchronization can use it. */
  predicate Wedged(d: Data) {
    !d.unfinished && d.parts != {} && !Usable(d)
  }

  /** `discard_dataset` moves the root's entries in any order, then the index's in theirs. */
  predicate MayMove(d: Data, part: Part) {
    && part in d.parts
    && match part
       case Core => true
       case ArchiveState => true
       case Scanner => true
       case Config => NoRoot(d)
       case FileList => NoRoot(d) && Config !in d.parts
       case IndexManifest => NoRoot(d) && Config !in d.parts && FileList !in d.parts
       case Parsed => NoRoot(d) && Config !in d.parts && FileList !in d.parts && IndexManifest !in d.parts
  }

  function Moved(d: Data, part: Part): Data {
    Data(d.parts - {part}, d.genesis && part != Core, d.unfinished, if part == IndexManifest then None else d.index)
  }

  /** The restore renames Core's checkpoint into place, then Dumplings, then the index. */
  predicate MayPlace(d: Data, part: Part) {
    && part !in d.parts
    && match part
       case Core => true
       case ArchiveState => true
       case Scanner => Core in d.parts && ArchiveState in d.parts
       case _ => HasRoot(d)
  }

  function Placed(d: Data, part: Part, unpruned: bool, index: Option<Manifest>): Data {
    Data(d.parts + {part}, if part == Core then unpruned else d.genesis, d.unfinished,
         if part == IndexManifest then index else d.index)
  }

  /** A first synchronization creates Core's directory before its first block file. */
  function Created(d: Data, part: Part): Data {
    Data(d.parts + {part}, d.genesis && part != Core, d.unfinished, d.index)
  }

  // ----------------------------------------------------------------------- the program

  predicate Exclusive(job: Job) {
    job == Restore || job == Blocksci || job == Clear
  }

  function After(job: Job): Pc {
    match job
    case Restore => Queued(Producer)
    case Producer => Queued(Blocksci)
    case Blocksci => Queued(Checkpoint)
    case Checkpoint => Queued(Pack)
    case Pack => Queued(Clear)
    case Clear => Over
  }

  predicate At(s: State, r: RunId, pc: Pc) {
    r in s.pcs && s.pcs[r] == pc
  }

  predicate IsRunning(s: State, r: RunId, point: Point) {
    r in s.pcs && s.pcs[r].Running? && s.pcs[r].point == point
  }

  /** What `restore_dataset` demands of the three manifests before it uses them. */
  predicate BackupsMatch(s: State)
    requires |s.slots| == 3
  {
    && (forall i | 0 <= i < 3 :: s.slots[i].manifest.Some?)
    && s.slots[0].manifest.value.run == s.slots[1].manifest.value.run == s.slots[2].manifest.value.run
    && s.slots[0].manifest.value.info.height == s.slots[1].manifest.value.info.height
        == s.slots[2].manifest.value.info.height
    && s.slots[0].manifest.value.info.signature == s.slots[2].manifest.value.info.signature
  }

  predicate NoBackups(s: State) {
    forall slot | slot in s.slots :: slot.manifest == None
  }

  /** ready.json is the run's: its later jobs may go on. */
  predicate ReadyIs(s: State, r: RunId) {
    s.ready.Some? && s.ready.value.run == r
  }

  /** The steps of the jobs' own programs; the others take and free locks, start jobs and end them. */
  predicate Works(step: Step) {
    || step.RemoveReady? || step.RemoveDone? || step.RemoveRestore? || step.SkipRestore?
    || step.BeginDiscard? || step.MoveAside? || step.EndDiscard? || step.BeginFill? || step.FillPiece? || step.EndFill?
    || step.StartProduce? || step.Grow? || step.FirstBlock? || step.Produce?
    || step.MarkIndex? || step.Index? || step.BeginBackups? || step.BackUp?
  }

  predicate MayWork(s: State, r: RunId, job: Job, point: Point, step: Step) {
    match step
    case RemoveReady(_) => job == Restore && point == Owning
    case RemoveDone(_) => job == Restore && point == ResetReady
    case RemoveRestore(_) => job == Restore && point == ResetDone
    case SkipRestore(_) =>
      job == Restore && point == Checking && !s.data.unfinished && (s.data.parts == {} ==> NoBackups(s) && !s.archived)
    case BeginDiscard(_) =>
      || (job == Restore && point == Checking && s.data.unfinished && |s.slots| == 3 && BackupsMatch(s))
      || (job == Clear && point == Owning && s.done == Some(r))
    case MoveAside(_, part) => point == Discarding && MayMove(s.data, part)
    case EndDiscard(_) => point == Discarding && s.data.parts == {}
    case BeginFill(_) =>
      && job == Restore && point == Checking
      && !s.data.unfinished && s.data.parts == {} && |s.slots| == 3 && BackupsMatch(s)
    case FillPiece(_, part) => point == Filling && MayPlace(s.data, part) && s.slots != []
    case EndFill(_) => point == Filling && Whole(s.data)
    case StartProduce(_) => job == Producer && point == Owning && Accepted(s.data, s.first == Some(r))
    case Grow(_, part) =>
      && part !in s.data.parts
      && point == if part == Core || part == ArchiveState || part == Scanner then Producing else Indexing
    case FirstBlock(_) =>
      || (point == Producing && Core in s.data.parts && Config !in s.data.parts)
      || (point.BackingUp? && point.slot == 2 && point.phase == 0)
    case Produce(_, _) => point == Producing && HasRoot(s.data) && (Config in s.data.parts || s.data.genesis)
    case MarkIndex(_) =>
      job == Blocksci && point == Owning && ReadyIs(s, r) && !s.data.unfinished && Indexable(s.data)
    case Index(_, _) => point == Indexing && s.ready.Some?
    case BeginBackups(_) =>
      && job == Checkpoint && point == Owning && ReadyIs(s, r)
      && s.data.index.Some? && s.data.index.value.run == r && !s.data.unfinished && HasIndex(s.data)
      && s.data.index.value.info.height == s.ready.value.info.height
    case BackUp(_) =>
      && point.BackingUp? && point.slot < |s.slots|
      && (point.slot == 1 ==> Scanner in s.data.parts)
      && (point.slot == 2 ==> Core in s.data.parts && ArchiveState in s.data.parts)
    case _ => false
  }

  predicate Enabled(s: State, step: Step) {
    var r := step.run;
    if Works(step) then r in s.pcs && s.pcs[r].Running? && MayWork(s, r, s.pcs[r].job, s.pcs[r].point, step) else
    match step
    case Submit(_) => r !in s.pcs
    case LockIndex(_) =>
      && r in s.pcs && s.pcs[r].Queued? && s.writer == None
      && ((Exclusive(s.pcs[r].job) && s.readers == {}) || s.pcs[r].job == Checkpoint)
    case Claim(_) => (IsRunning(s, r, Locked) || At(s, r, Queued(Producer))) && s.dataset == Free
    case Name(_) => IsRunning(s, r, Claiming)
    case Release(_) => IsRunning(s, r, Ending)
    case Record(_) => At(s, r, Running(Checkpoint, Released))
    case Unlock(_) =>
      r in s.pcs && s.pcs[r].Running? && s.pcs[r].point == if s.pcs[r].job == Checkpoint then Recorded else Released
    case PackBlocks(_) => At(s, r, Queued(Pack)) && s.done == Some(r)
    case Die(_) => r in s.pcs && s.pcs[r] != Dead && s.pcs[r] != Over
    case Expire(_) => At(s, r, Dead)
    case HandleFailure(_) => At(s, r, Dead) && s.dataset == Taken(r, true)
    case _ => false
  }

  function Go(s: State, r: RunId, pc: Pc): State {
    s.(pcs := s.pcs[r := pc])
  }

  function Unlocked(s: State, r: RunId): State {
    s.(writer := if s.writer == Some(r) then None else s.writer, readers := s.readers - {r})
  }

  /** The four effects of replacing one backup: drop manifest, drop archive, upload, publish. */
  function SlotAfter(slot: Slot, phase: nat, r: RunId, info: Info): Slot {
    match phase
    case 0 => slot.(manifest := None)
    case 1 => slot.(archive := None)
    case 2 => slot.(archive := Some(r))
    case _ => slot.(manifest := Some(Manifest(r, info)))
  }

  function PointAfter(at: Point): Point
    requires at.BackingUp?
  {
    if at.phase < 3 then at.(phase := at.phase + 1)
    else if at.slot < 2 then BackingUp(at.slot + 1, 0, at.info)
    else Ending
  }

  /** Where a job's program continues. */
  function PointNext(s: State, r: RunId, job: Job, point: Point, step: Step): Point
    requires MayWork(s, r, job, point, step)
  {
    match step
    case RemoveReady(_) => ResetReady
    case RemoveDone(_) => ResetDone
    case RemoveRestore(_) => Checking
    case SkipRestore(_) => Ending
    case BeginDiscard(_) => Discarding
    case EndDiscard(_) => if job == Restore then Filling else Ending
    case BeginFill(_) => Filling
    case EndFill(_) => Ending
    case StartProduce(_) => Producing
    case Produce(_, _) => Ending
    case MarkIndex(_) => Indexing
    case Index(_, _) => Ending
    case BeginBackups(_) => BackingUp(0, 0, s.data.index.value.info)
    case BackUp(_) => PointAfter(point)
    case _ => point
  }

  function NextPc(s: State, step: Step): Pc
    requires Enabled(s, step)
  {
    if step.Submit? then Queued(Restore) else
    var pc := s.pcs[step.run];
    if Works(step) then Running(pc.job, PointNext(s, step.run, pc.job, pc.point, step)) else
    match step
    case LockIndex(_) => Running(pc.job, Locked)
    case Claim(_) => Running(pc.job, Claiming)
    case Name(_) => Running(pc.job, Owning)
    case Release(_) => if pc.job == Producer then After(Producer) else Running(pc.job, Released)
    case Record(_) => Running(Checkpoint, Recorded)
    case Unlock(_) => After(pc.job)
    case PackBlocks(_) => After(Pack)
    case Die(_) => Dead
    case _ => pc
  }

  /** The one effect of a job's work on the shared files or on S3. */
  function Worked(s: State, r: RunId, job: Job, point: Point, step: Step): (t: State)
    requires MayWork(s, r, job, point, step)
    ensures t.pcs == s.pcs && t.writer == s.writer && t.readers == s.readers && t.dataset == s.dataset
    ensures !step.BackUp? ==> t.slots == s.slots && t.backedUp == s.backedUp && t.unpruned == s.unpruned
  {
    match step
    case RemoveReady(_) => s.(ready := None)
    case RemoveDone(_) => s.(done := None)
    case RemoveRestore(_) => s.(first := None)
    case SkipRestore(_) => if s.data.parts == {} then s.(first := Some(r)) else s
    case MoveAside(_, part) => s.(data := Moved(s.data, part))
    case EndDiscard(_) => s.(data := NO_DATA)
    case FillPiece(_, part) => s.(data := Placed(s.data, part, s.unpruned, s.slots[0].manifest))
    case Grow(_, part) => s.(data := Created(s.data, part), archived := s.archived || part == ArchiveState)
    case FirstBlock(_) => s.(data := s.data.(genesis := point == Producing))
    case Produce(_, height) => s.(archived := true, ready := Some(Manifest(r, Info(height, 0))))
    case MarkIndex(_) => s.(data := s.data.(unfinished := true))
    case Index(_, signature) =>
      s.(data := Data(s.data.parts + {Config, FileList, IndexManifest, Parsed}, s.data.genesis, false,
                      Some(Manifest(r, Info(s.ready.value.info.height, signature)))))
    case BackUp(_) =>
      s.(slots := s.slots[point.slot := SlotAfter(s.slots[point.slot], point.phase, r, point.info)],
         backedUp := if PointAfter(point) == Ending then s.backedUp + {r} else s.backedUp,
         unpruned := if PointAfter(point) == Ending then s.data.genesis else s.unpruned)
    case _ => s
  }

  /** The one effect on the shared files, the locks or S3. */
  function Effect(s: State, step: Step): (t: State)
    requires Enabled(s, step)
    ensures t.pcs == s.pcs
    ensures !step.BackUp? ==> t.slots == s.slots && t.backedUp == s.backedUp && t.unpruned == s.unpruned
  {
    var r := step.run;
    if Works(step) then Worked(s, r, s.pcs[r].job, s.pcs[r].point, step) else
    match step
    case LockIndex(_) => if s.pcs[r].job == Checkpoint then s.(readers := s.readers + {r}) else s.(writer := Some(r))
    case Claim(_) => s.(dataset := Taken(r, false))
    case Name(_) => s.(dataset := Taken(r, true))
    case Release(_) => s.(dataset := Free)
    case Record(_) => s.(done := Some(r))
    case Unlock(_) => Unlocked(s, r)
    case Expire(_) => Unlocked(s, r)
    case HandleFailure(_) => s.(dataset := Free)
    case _ => s
  }

  function Next(s: State, step: Step): State
    requires Enabled(s, step)
  {
    Go(Effect(s, step), step.run, NextPc(s, step))
  }

  ghost predicate Execution(steps: seq<Step>)
    decreases |steps|, 0
  {
    steps == []
    || (Execution(steps[..|steps| - 1]) && Enabled(Reached(steps[..|steps| - 1]), steps[|steps| - 1]))
  }

  ghost function Reached(steps: seq<Step>): State
    requires Execution(steps)
    decreases |steps|, 1
  {
    if steps == [] then Init() else Next(Reached(steps[..|steps| - 1]), steps[|steps| - 1])
  }

  // ------------------------------------------------------------- what the locks guarantee

  predicate OwnsDataset(pc: Pc) {
    pc.Running? && pc.point != Locked && pc.point != Released && pc.point != Recorded
  }

  predicate HoldsExclusive(pc: Pc) {
    pc.Running? && Exclusive(pc.job)
  }

  predicate HoldsShared(pc: Pc) {
    pc.Running? && pc.job == Checkpoint
  }

  ghost predicate IndexLocked(s: State) {
    && (forall r | r in s.pcs && HoldsExclusive(s.pcs[r]) :: s.writer == Some(r))
    && (forall r | r in s.pcs && HoldsShared(s.pcs[r]) :: r in s.readers)
    && (s.writer.Some? ==> s.readers == {})
  }

  ghost predicate DatasetLocked(s: State) {
    forall r | r in s.pcs && OwnsDataset(s.pcs[r]) :: s.dataset.Taken? && s.dataset.holder == r
  }

  /** Program points belong to the jobs that have them. */
  predicate PointOfJob(pc: Pc) {
    pc.Running? ==>
      match pc.point
      case ResetReady => pc.job == Restore
      case ResetDone => pc.job == Restore
      case Checking => pc.job == Restore
      case Producing => pc.job == Producer
      case Discarding => pc.job == Restore || pc.job == Clear
      case Filling => pc.job == Restore
      case Indexing => pc.job == Blocksci
      case BackingUp(slot, phase, _) => pc.job == Checkpoint && slot < 3 && phase < 4
      case Recorded => pc.job == Checkpoint
      case Locked => pc.job != Producer && pc.job != Pack
      case Released => pc.job != Producer && pc.job != Pack
      case _ => pc.job != Pack
  }

  ghost predicate PointsFit(s: State) {
    && |s.slots| == 3
    && (forall r | r in s.pcs :: PointOfJob(s.pcs[r]))
  }

  /** A step moves the program of its own run only. */
  lemma OthersStay(s: State, step: Step, q: RunId)
    requires Enabled(s, step) && q != step.run
    ensures q in Next(s, step).pcs <==> q in s.pcs
    ensures q in s.pcs ==> Next(s, step).pcs[q] == s.pcs[q]
  {
  }

  lemma OwnPointFits(s: State, step: Step)
    requires Enabled(s, step) && (step.run in s.pcs ==> PointOfJob(s.pcs[step.run]))
    ensures PointOfJob(NextPc(s, step))
  {
  }

  lemma SlotsStayThree(s: State, step: Step)
    requires Enabled(s, step)
    ensures |Next(s, step).slots| == |s.slots|
  {
  }

  lemma {:induction false} PointsKept(s: State, step: Step)
    requires PointsFit(s) && Enabled(s, step)
    ensures PointsFit(Next(s, step))
  {
    SlotsStayThree(s, step);
    forall q | q in Next(s, step).pcs
      ensures PointOfJob(Next(s, step).pcs[q])
    {
      if q != step.run { OthersStay(s, step, q); } else { OwnPointFits(s, step); }
    }
  }

  /** Who may write the index lock's entries, and how. */
  lemma WriterSteps(s: State, step: Step)
    requires Enabled(s, step)
    ensures var now := Next(s, step).writer;
            || now == s.writer
            || (s.writer == None && s.readers == {} && now == Some(step.run))
            || (s.writer == Some(step.run) && now == None)
  {
  }

  lemma ReaderSteps(s: State, step: Step)
    requires Enabled(s, step)
    ensures var now := Next(s, step).readers;
            || now == s.readers
            || (s.writer == None && Next(s, step).writer == None && now == s.readers + {step.run})
            || now == s.readers - {step.run}
    ensures s.writer == None && Next(s, step).writer.Some? ==> Next(s, step).readers == s.readers
  {
  }

  lemma OwnIndexLock(s: State, step: Step)
    requires PointsFit(s) && IndexLocked(s) && Enabled(s, step) && step.run in Next(s, step).pcs
    ensures HoldsExclusive(Next(s, step).pcs[step.run]) ==> Next(s, step).writer == Some(step.run)
    ensures HoldsShared(Next(s, step).pcs[step.run]) ==> step.run in Next(s, step).readers
  {
    var r := step.run;
    if r in s.pcs {
      assert PointOfJob(s.pcs[r]);
      assert HoldsExclusive(s.pcs[r]) ==> s.writer == Some(r);
      assert HoldsShared(s.pcs[r]) ==> r in s.readers;
    }
  }

  lemma {:induction false} IndexLockKept(s: State, step: Step)
    requires PointsFit(s) && IndexLocked(s) && Enabled(s, step)
    ensures IndexLocked(Next(s, step))
  {
    var s' := Next(s, step);
    WriterSteps(s, step);
    ReaderSteps(s, step);
    forall q | q in s'.pcs
      ensures HoldsExclusive(s'.pcs[q]) ==> s'.writer == Some(q)
      ensures HoldsShared(s'.pcs[q]) ==> q in s'.readers
    {
      if q != step.run { OthersStay(s, step, q); } else { OwnIndexLock(s, step); }
    }
  }

  lemma {:induction false} DatasetLockKept(s: State, step: Step)
    requires DatasetLocked(s) && Enabled(s, step)
    ensures DatasetLocked(Next(s, step))
  {
    var s' := Next(s, step);
    forall q | q in s'.pcs && OwnsDataset(s'.pcs[q])
      ensures s'.dataset.Taken? && s'.dataset.holder == q
    {
      if q != step.run { OthersStay(s, step, q); }
    }
  }

  // -------------------------------------------------------------- what the backups hold

  /** A manifest stands for an archive of the same run; the Core manifest comes last. */
  ghost predicate SlotsHonest(s: State) {
    && |s.slots| == 3
    && (forall i | 0 <= i < 3 && s.slots[i].manifest.Some? :: s.slots[i].archive == Some(s.slots[i].manifest.value.run))
    && (s.slots[2].manifest.Some? ==> s.slots[2].manifest.value.run in s.backedUp)
  }

  /** What a checkpoint between two effects has achieved. */
  ghost predicate Achieved(s: State, r: RunId, slot: nat, phase: nat, info: Info) {
    && |s.slots| == 3 && slot < 3
    && (forall i | 0 <= i < slot :: s.slots[i].manifest == Some(Manifest(r, info)))
    && (phase >= 1 ==> s.slots[slot].manifest == None)
    && (phase == 3 ==> s.slots[slot].archive == Some(r))
  }

  ghost predicate BackupsProgress(s: State) {
    forall r | r in s.pcs && s.pcs[r].Running? && s.pcs[r].point.BackingUp? ::
      Achieved(s, r, s.pcs[r].point.slot, s.pcs[r].point.phase, s.pcs[r].point.info)
  }

  lemma OnlyCheckpointsChangeSlots(s: State, step: Step)
    requires Enabled(s, step) && !step.BackUp?
    ensures Next(s, step).slots == s.slots && Next(s, step).backedUp == s.backedUp
  {
  }

  lemma {:induction false} SlotsStayHonest(s: State, step: Step)
    requires PointsFit(s) && SlotsHonest(s) && BackupsProgress(s) && Enabled(s, step)
    ensures SlotsHonest(Next(s, step))
  {
    if step.BackUp? {
      var at := s.pcs[step.run].point;
      assert PointOfJob(s.pcs[step.run]);
      assert Achieved(s, step.run, at.slot, at.phase, at.info);
    } else {
      OnlyCheckpointsChangeSlots(s, step);
    }
  }

  lemma BackupsBeginEmpty(s: State, step: Step)
    requires Enabled(s, step) && !step.BackUp? && !step.FirstBlock?
    requires step.run in Next(s, step).pcs && Next(s, step).pcs[step.run].Running?
    requires Next(s, step).pcs[step.run].point.BackingUp?
    ensures Next(s, step).pcs[step.run].point.slot == 0 && Next(s, step).pcs[step.run].point.phase == 0
  {
  }

  lemma ProgressOfOwn(s: State, step: Step)
    requires PointsFit(s) && BackupsProgress(s) && Enabled(s, step) && step.BackUp?
    requires PointAfter(s.pcs[step.run].point).BackingUp?
    ensures var at := PointAfter(s.pcs[step.run].point);
            Achieved(Next(s, step), step.run, at.slot, at.phase, at.info)
  {
    var at := s.pcs[step.run].point;
    assert PointOfJob(s.pcs[step.run]);
    assert Achieved(s, step.run, at.slot, at.phase, at.info);
  }

  lemma BacksUpAlone(s: State, step: Step, q: RunId)
    requires DatasetLocked(s) && Enabled(s, step) && q in s.pcs && OwnsDataset(s.pcs[q]) && q != step.run
    ensures !step.BackUp?
  {
    assert step.run in s.pcs ==> !OwnsDataset(s.pcs[step.run]);
  }

  lemma {:induction false} ProgressKept(s: State, step: Step)
    requires PointsFit(s) && DatasetLocked(s) && BackupsProgress(s) && Enabled(s, step)
    ensures BackupsProgress(Next(s, step))
  {
    var s' := Next(s, step);
    forall q | q in s'.pcs && s'.pcs[q].Running? && s'.pcs[q].point.BackingUp?
      ensures Achieved(s', q, s'.pcs[q].point.slot, s'.pcs[q].point.phase, s'.pcs[q].point.info)
    {
      if q != step.run {
        OthersStay(s, step, q);
        assert Achieved(s, q, s.pcs[q].point.slot, s.pcs[q].point.phase, s.pcs[q].point.info);
        BacksUpAlone(s, step, q);
        OnlyCheckpointsChangeSlots(s, step);
      } else if step.BackUp? {
        ProgressOfOwn(s, step);
      } else {
        OnlyCheckpointsChangeSlots(s, step);
        if !step.FirstBlock? { BackupsBeginEmpty(s, step); }
      }
    }
  }

  /** The three backups exist, with usable archives, all from run `q`'s checkpoint. */
  ghost predicate BackedBy(s: State, q: RunId) {
    && |s.slots| == 3
    && q in s.backedUp
    && (forall i | 0 <= i < 3 ::
         && s.slots[i].manifest.Some? && s.slots[i].manifest.value.run == q
         && s.slots[i].archive == Some(q))
  }

  lemma MatchingIsBacked(s: State)
    requires SlotsHonest(s) && BackupsMatch(s)
    ensures BackedBy(s, s.slots[2].manifest.value.run)
  {
  }

  // ------------------------------------------------------------ what a working job can rely on

  lemma WorkersOwn(s: State, step: Step)
    requires Enabled(s, step) && Works(step)
    ensures step.run in s.pcs && OwnsDataset(s.pcs[step.run])
  {
  }

  lemma OthersDoNotWork(s: State, step: Step)
    requires Enabled(s, step) && !Works(step)
    ensures var s' := Effect(s, step);
            && s'.data == s.data && s'.ready == s.ready && s'.first == s.first && s'.archived == s.archived
            && s'.slots == s.slots && (s'.done == s.done || step.Record?)
  {
  }

  /** What a restore has cleared stays so while it owns the dataset, and the backups it discards or fills for stand. */
  predicate RestoreHolds(s: State, point: Point) {
    && (point == ResetReady || point == ResetDone ==> s.ready == None)
    && (point == ResetDone ==> s.done == None)
    && (point == Checking || point == Discarding || point == Filling ==>
         s.ready == None && s.done == None && s.first == None)
    && (point == Discarding || point == Filling ==> |s.slots| == 3 && BackupsMatch(s))
    && (point == Discarding ==> s.data.unfinished)
    && (point == Filling ==> !s.data.unfinished)
  }

  /** What a checkpoint has found stays so. */
  predicate CheckpointHolds(s: State, point: Point) {
    && (point.BackingUp? ==> !s.data.unfinished && HasIndex(s.data))
    && (point.BackingUp? && (point.slot == 2 || (point.slot == 1 && point.phase > 0)) ==> Scanner in s.data.parts)
    && (point.BackingUp? && point.slot == 2 && point.phase > 0 ==>
         Core in s.data.parts && ArchiveState in s.data.parts)
    && (point == Ending ==> Whole(s.data) && !s.data.unfinished)
  }

  predicate HoldsAt(s: State, r: RunId, pc: Pc) {
    pc.Running? ==>
      && (pc.job == Restore ==> RestoreHolds(s, pc.point))
      && (pc.job == Blocksci && pc.point == Indexing ==> s.data.unfinished && ReadyIs(s, r))
      && (pc.job == Checkpoint ==> CheckpointHolds(s, pc.point))
      && (pc.job == Clear && pc.point == Discarding ==> s.done == Some(r))
  }

  ghost predicate WorkHolds(s: State) {
    forall r | r in s.pcs :: HoldsAt(s, r, s.pcs[r])
  }

  /** Nothing changes for a run that owns the dataset, but for done.json if it lets checkpoints run. */
  lemma NothingChangesFor(s: State, step: Step, q: RunId)
    requires PointsFit(s) && IndexLocked(s) && DatasetLocked(s) && Enabled(s, step)
    requires q in s.pcs && q != step.run && OwnsDataset(s.pcs[q])
    ensures var s' := Next(s, step);
            && s'.data == s.data && s'.ready == s.ready && s'.first == s.first && s'.archived == s.archived
            && s'.slots == s.slots && (HoldsExclusive(s.pcs[q]) ==> s'.done == s.done)
  {
    if Works(step) { WorkersOwn(s, step); }
    OthersDoNotWork(s, step);
    if step.Record? { assert HoldsShared(s.pcs[step.run]); }
  }

  lemma OthersHold(s: State, s': State, q: RunId, pc: Pc)
    requires HoldsAt(s, q, pc) && OwnsDataset(pc)
    requires s'.data == s.data && s'.ready == s.ready && s'.first == s.first && s'.slots == s.slots
    requires HoldsExclusive(pc) ==> s'.done == s.done
    ensures HoldsAt(s', q, pc)
  {
  }

  lemma IdleHolds(s: State, q: RunId, pc: Pc)
    requires !OwnsDataset(pc)
    ensures HoldsAt(s, q, pc)
  {
  }

  lemma RestoreWorkHolds(s: State, r: RunId, point: Point, step: Step)
    requires Works(step) && MayWork(s, r, Restore, point, step)
    requires PointOfJob(Running(Restore, point)) && RestoreHolds(s, point)
    ensures RestoreHolds(Worked(s, r, Restore, point, step), PointNext(s, r, Restore, point, step))
  {
  }

  lemma CheckpointWorkHolds(s: State, r: RunId, point: Point, step: Step)
    requires Works(step) && MayWork(s, r, Checkpoint, point, step)
    requires PointOfJob(Running(Checkpoint, point)) && CheckpointHolds(s, point)
    ensures CheckpointHolds(Worked(s, r, Checkpoint, point, step), PointNext(s, r, Checkpoint, point, step))
  {
  }

  lemma IndexingWorkHolds(s: State, r: RunId, point: Point, step: Step)
    requires Works(step) && MayWork(s, r, Blocksci, point, step)
    requires PointOfJob(Running(Blocksci, point)) && HoldsAt(s, r, Running(Blocksci, point))
    ensures HoldsAt(Worked(s, r, Blocksci, point, step), r, Running(Blocksci, PointNext(s, r, Blocksci, point, step)))
  {
  }

  lemma ClearWorkHolds(s: State, r: RunId, point: Point, step: Step)
    requires Works(step) && MayWork(s, r, Clear, point, step)
    requires PointOfJob(Running(Clear, point)) && HoldsAt(s, r, Running(Clear, point))
    ensures HoldsAt(Worked(s, r, Clear, point, step), r, Running(Clear, PointNext(s, r, Clear, point, step)))
  {
  }

  /** Nobody relies on anything when it comes by a lock, or gives one back. */
  lemma LockStepHolds(s: State, step: Step)
    requires Enabled(s, step) && !Works(step)
    requires step.run in s.pcs ==> HoldsAt(s, step.run, s.pcs[step.run])
    ensures HoldsAt(Effect(s, step), step.run, NextPc(s, step))
  {
  }

  lemma OwnHolds(s: State, step: Step)
    requires PointsFit(s) && WorkHolds(s) && Enabled(s, step)
    ensures HoldsAt(Next(s, step), step.run, NextPc(s, step))
  {
    if step.run in s.pcs { assert HoldsAt(s, step.run, s.pcs[step.run]) && PointOfJob(s.pcs[step.run]); }
    if !Works(step) {
      LockStepHolds(s, step);
    } else {
      var r, pc := step.run, s.pcs[step.run];
      match pc.job
      case Restore => RestoreWorkHolds(s, r, pc.point, step);
      case Checkpoint => CheckpointWorkHolds(s, r, pc.point, step);
      case Blocksci => IndexingWorkHolds(s, r, pc.point, step);
      case Clear => ClearWorkHolds(s, r, pc.point, step);
      case _ =>
    }
    HoldsElsewhere(Effect(s, step), Next(s, step), step.run, NextPc(s, step));
  }

  lemma HoldsElsewhere(s: State, s': State, r: RunId, pc: Pc)
    requires HoldsAt(s, r, pc) && s' == s.(pcs := s'.pcs)
    ensures HoldsAt(s', r, pc)
  {
  }

  lemma {:induction false} WorkHoldsKept(s: State, step: Step)
    requires PointsFit(s) && IndexLocked(s) && DatasetLocked(s) && WorkHolds(s) && Enabled(s, step)
    ensures WorkHolds(Next(s, step))
  {
    var s' := Next(s, step);
    forall q | q in s'.pcs
      ensures HoldsAt(s', q, s'.pcs[q])
    {
      if q != step.run {
        OthersStay(s, step, q);
        if OwnsDataset(s.pcs[q]) {
          NothingChangesFor(s, step, q);
          OthersHold(s, s', q, s.pcs[q]);
        } else {
          IdleHolds(s', q, s.pcs[q]);
        }
      } else {
        OwnHolds(s, step);
      }
    }
  }

  ghost predicate Guarded(s: State) {
    && PointsFit(s)
    && IndexLocked(s)
    && DatasetLocked(s)
    && SlotsHonest(s)
    && BackupsProgress(s)
    && WorkHolds(s)
  }

  lemma {:induction false} GuardedAlways(steps: seq<Step>)
    requires Execution(steps)
    ensures Guarded(Reached(steps))
    decreases |steps|
  {
    if steps != [] {
      var s, step := Reached(steps[..|steps| - 1]), steps[|steps| - 1];
      GuardedAlways(steps[..|steps| - 1]);
      PointsKept(s, step);
      IndexLockKept(s, step);
      DatasetLockKept(s, step);
      SlotsStayHonest(s, step);
      ProgressKept(s, step);
      WorkHoldsKept(s, step);
    }
  }

  // ------------------------------------------------------------- what the run IDs decide

  /** The run's checkpoint has begun to replace backups, or the run has ended. */
  predicate MayHavePublished(pc: Pc) {
    match pc
    case Queued(job) => job == Pack || job == Clear
    case Running(job, point) =>
      job == Clear || (job == Checkpoint && (point.BackingUp? || point == Ending || point == Released
                                             || point == Recorded))
    case Dead => true
    case Over => true
  }

  ghost predicate PublishedBefore(s: State, i: nat)
    requires i < |s.slots|
  {
    s.slots[i].manifest.Some? ==>
      && var q := s.slots[i].manifest.value.run;
         q in s.pcs && MayHavePublished(s.pcs[q])
         && (s.pcs[q].Running? && s.pcs[q].point.BackingUp? ==> i < s.pcs[q].point.slot)
  }

  ghost predicate ManifestsOrdered(s: State) {
    |s.slots| == 3 && forall i: nat | i < 3 :: PublishedBefore(s, i)
  }

  ghost predicate SameInfo(s: State, i: nat, j: nat)
    requires i < |s.slots| && j < |s.slots|
  {
    s.slots[i].manifest.Some? && s.slots[j].manifest.Some?
    && s.slots[i].manifest.value.run == s.slots[j].manifest.value.run
    ==> s.slots[i].manifest == s.slots[j].manifest
  }

  /** Manifests of one run say the same. */
  ghost predicate ManifestsAgree(s: State) {
    |s.slots| == 3 && forall i: nat, j: nat | i < 3 && j < 3 :: SameInfo(s, i, j)
  }

  lemma OnceStartedAlwaysStarted(s: State, step: Step)
    requires PointsFit(s) && Enabled(s, step) && step.run in s.pcs && MayHavePublished(s.pcs[step.run])
    ensures step.run in Next(s, step).pcs && MayHavePublished(Next(s, step).pcs[step.run])
  {
    assert PointOfJob(s.pcs[step.run]);
  }

  lemma NoNewBackup(s: State, step: Step)
    requires Enabled(s, step) && !step.BackUp? && step.run in s.pcs && MayHavePublished(s.pcs[step.run])
    ensures step.run in Next(s, step).pcs
    ensures var pc := Next(s, step).pcs[step.run]; pc.Running? ==> !pc.point.BackingUp? || pc == s.pcs[step.run]
  {
  }

  lemma {:induction false} ManifestsOrderedKept(s: State, step: Step)
    requires PointsFit(s) && ManifestsOrdered(s) && Enabled(s, step)
    ensures ManifestsOrdered(Next(s, step))
  {
    var s' := Next(s, step);
    PointsKept(s, step);
    forall i: nat | i < 3
      ensures PublishedBefore(s', i)
    {
      assert PublishedBefore(s, i);
      if step.BackUp? {
        assert PointOfJob(s.pcs[step.run]);
        if s'.slots[i].manifest.Some? && s'.slots[i].manifest.value.run != step.run {
          OthersStay(s, step, s'.slots[i].manifest.value.run);
        }
      } else {
        OnlyCheckpointsChangeSlots(s, step);
        if s.slots[i].manifest.Some? {
          var q := s.slots[i].manifest.value.run;
          if q == step.run {
            OnceStartedAlwaysStarted(s, step);
            NoNewBackup(s, step);
          } else {
            OthersStay(s, step, q);
          }
        }
      }
    }
  }

  lemma {:induction false} ManifestsAgreeKept(s: State, step: Step)
    requires PointsFit(s) && BackupsProgress(s) && ManifestsOrdered(s) && ManifestsAgree(s) && Enabled(s, step)
    ensures ManifestsAgree(Next(s, step))
  {
    var s' := Next(s, step);
    if step.BackUp? {
      var r, at := step.run, s.pcs[step.run].point;
      assert PointOfJob(s.pcs[r]);
      assert Achieved(s, r, at.slot, at.phase, at.info);
      forall i: nat, j: nat | i < 3 && j < 3
        ensures SameInfo(s', i, j)
      {
        assert SameInfo(s, i, j) && PublishedBefore(s, i) && PublishedBefore(s, j);
      }
    } else {
      OnlyCheckpointsChangeSlots(s, step);
      forall i: nat, j: nat | i < 3 && j < 3
        ensures SameInfo(s', i, j)
      {
        assert SameInfo(s, i, j);
      }
    }
  }

  lemma {:induction false} ManifestsAgreeAlways(steps: seq<Step>)
    requires Execution(steps)
    ensures ManifestsOrdered(Reached(steps)) && ManifestsAgree(Reached(steps))
    decreases |steps|
  {
    if steps != [] {
      var before := steps[..|steps| - 1];
      ManifestsAgreeAlways(before);
      GuardedAlways(before);
      ManifestsOrderedKept(Reached(before), steps[|steps| - 1]);
      ManifestsAgreeKept(Reached(before), steps[|steps| - 1]);
    }
  }

  /**
   Equal run IDs are enough for three backups to belong together: as long as only these jobs
   write them, the height and signature comparisons of the restore never refuse.
   */
  lemma RunIdsDecide(steps: seq<Step>)
    requires Execution(steps)
    requires forall slot | slot in Reached(steps).slots :: slot.manifest.Some?
    ensures var s := Reached(steps);
            && |s.slots| == 3
            && (BackupsMatch(s) <==>
                s.slots[0].manifest.value.run == s.slots[1].manifest.value.run == s.slots[2].manifest.value.run)
  {
    ManifestsAgreeAlways(steps);
    var s := Reached(steps);
    assert SameInfo(s, 0, 1) && SameInfo(s, 1, 2);
  }
}
