/**
 The lock of the persistent index: one writer or many readers, as directories that are renamed
 into place, with the entries of dead jobs cleared once they expire.

 Any number of jobs take their steps in any order, one effect on the shared directory at a
 time. Removing an entry takes several effects, as `shutil.rmtree` does: the directory is opened
 under its name, its two files go one by one, and then the name goes if the directory standing
 there is empty. Clearing an expired entry takes two more before: the directory is noticed, and
 its expiry is read; an expiry that cannot be read counts as passed.

 The clock may pass a job's expiry only after the job ended: the scheduler kills a job at its
 walltime, and the expiry lies beyond it.
*/
module IndexLock {
  import opened Common

  type Job = nat

  datatype Path = WriterEntry | ReaderEntry(reader: Job)

  datatype File = JobFile | ExpiryFile

  /** One directory: `id` tells apart directories that take the same name one after the other. */
  datatype Entry = Entry(id: nat, job: Job, expires: Option<int>, named: bool)

  /** How far a job is with removing an entry; `target` is the directory it decided to remove, if any. */
  datatype Doing = Idle | Noticed(path: Path) | Condemned(path: Path, target: Option<nat>) | Opened(path: Path, id: nat)

  /** Where a job is in `lock_shared`, `lock_exclusive` or its critical section. */
  datatype Pc =
    | Outside
    | WantsShared | SawNoWriter | EnteredAsReader | Reading
    | WantsExclusive | FoundWriter | EnteredAsWriter | Writing
    | Ended

  /** `mine` is the directory the job created last. */
  datatype JobState = JobState(pc: Pc, expires: int, mine: nat, doing: Doing)

  datatype State = State(now: int, made: nat, entries: map<Path, Entry>, jobs: map<Job, JobState>)

  datatype Step =
    | Tick(time: int)                 // the clock advances
    | Start(job: Job, expires: int)   // a job appears
    | End(job: Job)                   // a job finishes or is killed; its entries stay
    | Want(job: Job, pc: Pc)          // call `lock_shared` or `lock_exclusive`
    | GiveUp(job: Job)                // its deadline passed before it had an entry
    | CheckWriter(job: Job)           // reader: no writer entry
    | EnterReader(job: Job)           // reader: create its entry
    | RecheckWriter(job: Job)         // reader: look again, take the lock or step back
    | EnterWriter(job: Job)           // writer: create the writer entry, or find one
    | Retry(job: Job)                 // writer: try again
    | FindNoReaders(job: Job)         // writer: no reader entry left, take the lock
    | Leave(job: Job)                 // unlock, or give up waiting for the readers
    | Notice(job: Job, path: Path)    // clearing, which readers do first and writers when they have to wait
    | Read(job: Job)                  // clearing: its expiry has passed, or cannot be read
    | Open(job: Job)                  // removing: open what stands under the name
    | Drop(job: Job, file: File)      // removing: one file of the opened directory
    | RemoveName(job: Job)            // removing: the name, if an empty directory stands there

  function Init(): State {
    State(0, 0, map[], map[])
  }

  predicate Live(s: State, j: Job) {
    j in s.jobs && s.jobs[j].pc != Ended
  }

  /** The job takes its next step from `pc`, not in the middle of removing an entry. */
  predicate At(s: State, j: Job, pc: Pc) {
    j in s.jobs && s.jobs[j].pc == pc && s.jobs[j].doing == Idle
  }

  predicate IsEmpty(e: Entry) {
    e.expires == None && !e.named
  }

  function Without(e: Entry, file: File): Entry {
    match file
    case JobFile => e.(named := false)
    case ExpiryFile => e.(expires := None)
  }

  /** The opened directory still stands under its name. */
  predicate Stands(s: State, path: Path, id: nat) {
    path in s.entries && s.entries[path].id == id
  }

  function OwnPath(j: Job, pc: Pc): Path {
    if pc == EnteredAsReader || pc == Reading then ReaderEntry(j) else WriterEntry
  }

  function Moved(s: State, j: Job, pc: Pc): State
    requires j in s.jobs
  {
    s.(jobs := s.jobs[j := s.jobs[j].(pc := pc)])
  }

  function Does(s: State, j: Job, doing: Doing): State
    requires j in s.jobs
  {
    s.(jobs := s.jobs[j := s.jobs[j].(doing := doing)])
  }

  /** A rename into place: it fails on a directory that has files, and replaces an empty one. */
  predicate MayTake(s: State, path: Path) {
    path in s.entries ==> IsEmpty(s.entries[path])
  }

  function Created(s: State, j: Job, path: Path, pc: Pc): State
    requires j in s.jobs
  {
    s.(made := s.made + 1,
       entries := s.entries[path := Entry(s.made, j, Some(s.jobs[j].expires), true)],
       jobs := s.jobs[j := s.jobs[j].(pc := pc, mine := s.made)])
  }

  /** The job gives its place up and begins to remove its entry. */
  function Leaving(s: State, j: Job, pc: Pc): State
    requires j in s.jobs
  {
    Does(Moved(s, j, pc), j, Condemned(OwnPath(j, s.jobs[j].pc), Some(s.jobs[j].mine)))
  }

  predicate Enabled(s: State, step: Step) {
    match step
    case Tick(t) => t >= s.now && forall j | j in s.jobs :: s.jobs[j].pc != Ended ==> t < s.jobs[j].expires
    case Start(j, expires) => j !in s.jobs && s.now < expires
    case End(j) => Live(s, j)
    case Want(j, pc) => At(s, j, Outside) && (pc == WantsShared || pc == WantsExclusive)
    case GiveUp(j) => At(s, j, WantsShared) || At(s, j, FoundWriter)
    case CheckWriter(j) => At(s, j, WantsShared) && WriterEntry !in s.entries
    case EnterReader(j) => At(s, j, SawNoWriter)
    case RecheckWriter(j) => At(s, j, EnteredAsReader)
    case EnterWriter(j) => At(s, j, WantsExclusive)
    case Retry(j) => At(s, j, FoundWriter)
    case FindNoReaders(j) => At(s, j, EnteredAsWriter) && forall path | path in s.entries :: path == WriterEntry
    case Leave(j) => At(s, j, Reading) || At(s, j, EnteredAsWriter) || At(s, j, Writing)
    case Notice(j, path) =>
      (At(s, j, WantsShared) || At(s, j, FoundWriter) || At(s, j, EnteredAsWriter)) && path in s.entries
    case Read(j) => Live(s, j) && s.jobs[j].doing.Noticed?
    case Open(j) => Live(s, j) && s.jobs[j].doing.Condemned?
    case Drop(j, _) => Live(s, j) && s.jobs[j].doing.Opened?
    case RemoveName(j) =>
      && Live(s, j) && s.jobs[j].doing.Opened?
      && (Stands(s, s.jobs[j].doing.path, s.jobs[j].doing.id) ==> IsEmpty(s.entries[s.jobs[j].doing.path]))
  }

  /** What the clearing job makes of the expiry it reads. */
  function Judged(s: State, path: Path): Doing {
    if path !in s.entries then Condemned(path, None)
    else if s.entries[path].expires.Some? && s.now < s.entries[path].expires.value then Idle
    else Condemned(path, Some(s.entries[path].id))
  }

  function Next(s: State, step: Step): State
    requires Enabled(s, step)
  {
    match step
    case Tick(t) => s.(now := t)
    case Start(j, expires) => s.(jobs := s.jobs[j := JobState(Outside, expires, 0, Idle)])
    case End(j) => Moved(s, j, Ended)
    case Want(j, pc) => Moved(s, j, pc)
    case GiveUp(j) => Moved(s, j, Outside)
    case CheckWriter(j) => Moved(s, j, SawNoWriter)
    case EnterReader(j) =>
      if MayTake(s, ReaderEntry(j)) then Created(s, j, ReaderEntry(j), EnteredAsReader) else Moved(s, j, WantsShared)
    case RecheckWriter(j) => if WriterEntry !in s.entries then Moved(s, j, Reading) else Leaving(s, j, WantsShared)
    case EnterWriter(j) =>
      if MayTake(s, WriterEntry) then Created(s, j, WriterEntry, EnteredAsWriter) else Moved(s, j, FoundWriter)
    case Retry(j) => Moved(s, j, WantsExclusive)
    case FindNoReaders(j) => Moved(s, j, Writing)
    case Leave(j) => Leaving(s, j, Outside)
    case Notice(j, path) => Does(s, j, Noticed(path))
    case Read(j) => Does(s, j, Judged(s, s.jobs[j].doing.path))
    case Open(j) =>
      var path := s.jobs[j].doing.path;
      Does(s, j, if path in s.entries then Opened(path, s.entries[path].id) else Idle)
    case Drop(j, file) =>
      var doing := s.jobs[j].doing;
      if Stands(s, doing.path, doing.id)
      then s.(entries := s.entries[doing.path := Without(s.entries[doing.path], file)]) else s
    case RemoveName(j) =>
      var path := s.jobs[j].doing.path;
      Does(if path in s.entries && IsEmpty(s.entries[path]) then s.(entries := s.entries - {path}) else s, j, Idle)
  }

  // ----------------------------------------------------------------------------- runs

  /** The steps are possible one after the other. */
  ghost predicate Possible(s: State, steps: seq<Step>)
    decreases |steps|
  {
    steps == [] || (Enabled(s, steps[0]) && Possible(Next(s, steps[0]), steps[1..]))
  }

  ghost function After(s: State, steps: seq<Step>): State
    requires Possible(s, steps)
    decreases |steps|
  {
    if steps == [] then s else After(Next(s, steps[0]), steps[1..])
  }

  predicate Holds(pc: Pc) {
    pc == EnteredAsReader || pc == Reading || pc == EnteredAsWriter || pc == Writing
  }

  /** The job that created the directory counts on it. */
  predicate Held(s: State, path: Path) {
    && path in s.entries
    && var e := s.entries[path];
       e.job in s.jobs && Holds(s.jobs[e.job].pc) && OwnPath(e.job, s.jobs[e.job].pc) == path
           && s.jobs[e.job].mine == e.id
  }

  /** The step takes the last file out of an entry that its job still counts on. */
  predicate Harms(s: State, step: Step)
    requires Enabled(s, step)
  {
    && step.Drop?
    && var doing := s.jobs[step.job].doing;
       && Stands(s, doing.path, doing.id) && Held(s, doing.path)
       && !IsEmpty(s.entries[doing.path]) && IsEmpty(Without(s.entries[doing.path], step.file))
  }

  ghost predicate Harmless(s: State, steps: seq<Step>)
    requires Possible(s, steps)
    decreases |steps|
  {
    steps == [] || (!Harms(s, steps[0]) && Harmless(Next(s, steps[0]), steps[1..]))
  }

  // ------------------------------------------------------------------------ exclusion

  /** A writer holds the index alone. */
  ghost predicate Exclusive(s: State) {
    forall w, j | w in s.jobs && j in s.jobs && w != j ::
      s.jobs[w].pc == Writing ==> s.jobs[j].pc != Writing && s.jobs[j].pc != Reading
  }

  ghost predicate EntryIntact(s: State, j: Job)
    requires j in s.jobs
  {
    var path := OwnPath(j, s.jobs[j].pc);
    path in s.entries && s.entries[path].job == j && s.entries[path].id == s.jobs[j].mine && !IsEmpty(s.entries[path])
  }

  ghost predicate EntriesIntact(s: State) {
    forall j | j in s.jobs && Holds(s.jobs[j].pc) :: EntryIntact(s, j)
  }

  /** Only waiting jobs and jobs on their way out remove entries. */
  ghost predicate BusyOutside(s: State) {
    forall j | j in s.jobs && s.jobs[j].doing != Idle ::
      !Holds(s.jobs[j].pc) || s.jobs[j].pc == EnteredAsWriter
  }

  ghost predicate Safe(s: State) {
    EntriesIntact(s) && Exclusive(s) && BusyOutside(s)
  }

  lemma {:induction false} EntriesStayIntact(s: State, step: Step)
    requires EntriesIntact(s) && Enabled(s, step) && !Harms(s, step)
    ensures EntriesIntact(Next(s, step))
  {
    var s' := Next(s, step);
    forall j | j in s'.jobs && Holds(s'.jobs[j].pc)
      ensures EntryIntact(s', j)
    {
      if j in s.jobs && Holds(s.jobs[j].pc) { assert EntryIntact(s, j); }
    }
  }

  /** Who reads or writes now did so before, or found no entry in the way. */
  lemma {:induction false} NewHolderFindsNobody(s: State, step: Step, j: Job)
    requires EntriesIntact(s) && Enabled(s, step) && j in Next(s, step).jobs
    requires Next(s, step).jobs[j].pc == Reading || Next(s, step).jobs[j].pc == Writing
    ensures j in s.jobs
    ensures Next(s, step).jobs[j].pc != s.jobs[j].pc ==>
              && Next(s, step).entries == s.entries
              && if Next(s, step).jobs[j].pc == Reading then WriterEntry !in s.entries
                 else s.jobs[j].pc == EnteredAsWriter && forall path | path in s.entries :: path == WriterEntry
  {
  }

  /** A job reads or writes from now on only if nobody else's entry forbids it. */
  lemma {:induction false} ExclusiveStays(s: State, step: Step)
    requires EntriesIntact(s) && Exclusive(s) && Enabled(s, step) && EntriesIntact(Next(s, step))
    ensures Exclusive(Next(s, step))
  {
    var s' := Next(s, step);
    forall w, j | w in s'.jobs && j in s'.jobs && w != j && s'.jobs[w].pc == Writing
      ensures s'.jobs[j].pc != Writing && s'.jobs[j].pc != Reading
    {
      assert EntryIntact(s', w);
      if s'.jobs[j].pc == Reading || s'.jobs[j].pc == Writing {
        NewHolderFindsNobody(s, step, w);
        NewHolderFindsNobody(s, step, j);
      }
    }
  }

  lemma {:induction false} BusyStayOutside(s: State, step: Step)
    requires BusyOutside(s) && Enabled(s, step)
    ensures BusyOutside(Next(s, step))
  {
  }

  lemma {:induction false} SafeKept(s: State, step: Step)
    requires Safe(s) && Enabled(s, step) && !Harms(s, step)
    ensures Safe(Next(s, step))
  {
    EntriesStayIntact(s, step);
    ExclusiveStays(s, step);
    BusyStayOutside(s, step);
  }

  lemma {:induction false} RunKeepsSafe(s: State, steps: seq<Step>)
    requires Safe(s) && Possible(s, steps) && Harmless(s, steps)
    ensures Safe(After(s, steps))
    decreases |steps|
  {
    if steps != [] {
      SafeKept(s, steps[0]);
      RunKeepsSafe(Next(s, steps[0]), steps[1..]);
    }
  }

  /**
   Exclusion: for any number of jobs and any interleaving in which nobody empties an entry that
   a live job counts on, a job that holds the index for writing is the only one that holds it.
   */
  lemma WritersExclude(steps: seq<Step>, w: Job, j: Job)
    requires Possible(Init(), steps) && Harmless(Init(), steps) && w != j
    requires var s := After(Init(), steps); w in s.jobs && j in s.jobs && s.jobs[w].pc == Writing
    ensures After(Init(), steps).jobs[j].pc != Writing && After(Init(), steps).jobs[j].pc != Reading
  {
    RunKeepsSafe(Init(), steps);
  }

  /** While a live writer's entry stands, nobody new starts reading: the readers only leave. */
  lemma NoNewReaders(steps: seq<Step>, step: Step, w: Job, j: Job)
    requires Possible(Init(), steps) && Harmless(Init(), steps) && Enabled(After(Init(), steps), step)
    requires w in After(Init(), steps).jobs && After(Init(), steps).jobs[w].pc == EnteredAsWriter
    requires var s' := Next(After(Init(), steps), step); j in s'.jobs && s'.jobs[j].pc == Reading
    ensures j in After(Init(), steps).jobs && After(Init(), steps).jobs[j].pc == Reading
  {
    RunKeepsSafe(Init(), steps);
    assert EntryIntact(After(Init(), steps), w);
  }

  // ----------------------------------------------- removing what one decided to remove

  /** The directory that is opened for removal is the one the job decided to remove. */
  predicate Punctual(s: State, step: Step)
    requires Enabled(s, step)
  {
    step.Open? ==>
      var doing := s.jobs[step.job].doing;
      doing.path in s.entries ==> doing.target == Some(s.entries[doing.path].id)
  }

  ghost predicate AlwaysPunctual(s: State, steps: seq<Step>)
    requires Possible(s, steps)
    decreases |steps|
  {
    steps == [] || (Punctual(s, steps[0]) && AlwaysPunctual(Next(s, steps[0]), steps[1..]))
  }

  /** Nobody counts on that directory, now or later. */
  ghost predicate Spare(s: State, path: Path, id: nat) {
    id < s.made && (Stands(s, path, id) ==> !Held(s, path))
  }

  ghost predicate DoomedIsSpare(s: State, doing: Doing) {
    match doing
    case Condemned(path, Some(id)) => Spare(s, path, id)
    case Opened(path, id) => Spare(s, path, id)
    case _ => true
  }

  /** A reader's name is its own, and an expiry that can be read is that of the job. */
  ghost predicate EntryKnown(s: State, path: Path)
    requires path in s.entries
  {
    var e := s.entries[path];
    && e.id < s.made && e.job in s.jobs
    && (e.expires.Some? ==> e.expires.value == s.jobs[e.job].expires)
    && (path.ReaderEntry? ==> path.reader == e.job)
  }

  predicate Torn(e: Entry) {
    e.expires == None || !e.named
  }

  ghost predicate TornAreSpare(s: State) {
    forall path | path in s.entries && Torn(s.entries[path]) :: !Held(s, path)
  }

  ghost predicate EntriesKnown(s: State) {
    forall path | path in s.entries :: EntryKnown(s, path)
  }

  ghost predicate ExpiryNotReached(s: State) {
    forall j | j in s.jobs :: s.jobs[j].pc != Ended ==> s.now < s.jobs[j].expires
  }

  ghost predicate RemovalsAreSpare(s: State) {
    forall j | j in s.jobs :: DoomedIsSpare(s, s.jobs[j].doing)
  }

  ghost predicate Orderly(s: State) {
    EntriesKnown(s) && ExpiryNotReached(s) && TornAreSpare(s) && RemovalsAreSpare(s) && Safe(s)
  }

  /** A readable entry found expired belongs to a job that has ended. */
  lemma ReadableExpiredHasEnded(s: State, path: Path)
    requires EntriesKnown(s) && ExpiryNotReached(s) && path in s.entries
    requires s.entries[path].expires.Some? && s.entries[path].expires.value <= s.now
    ensures s.entries[path].job in s.jobs && s.jobs[s.entries[path].job].pc == Ended
  {
    assert EntryKnown(s, path);
  }

  lemma PunctualIsHarmless(s: State, step: Step)
    requires Orderly(s) && Enabled(s, step)
    ensures !Harms(s, step)
  {
    if step.Drop? { assert DoomedIsSpare(s, s.jobs[step.job].doing); }
  }

  lemma {:induction false} SpareStays(s: State, step: Step, path: Path, id: nat)
    requires Spare(s, path, id) && Enabled(s, step)
    ensures Spare(Next(s, step), path, id)
  {
  }

  /** What a job newly decides to remove, or opens, nobody counts on. */
  lemma NewRemovalIsSpare(s: State, step: Step)
    requires Orderly(s) && Enabled(s, step) && Punctual(s, step)
    requires step.Leave? || step.RecheckWriter? || step.Read? || step.Open?
    ensures DoomedIsSpare(Next(s, step), Next(s, step).jobs[step.job].doing)
  {
    var j := step.job;
    match step
    case Leave(_) => assert EntryIntact(s, j); assert EntryKnown(s, OwnPath(j, s.jobs[j].pc));
    case RecheckWriter(_) => assert EntryIntact(s, j); assert EntryKnown(s, OwnPath(j, s.jobs[j].pc));
    case Read(_) => if s.jobs[j].doing.path in s.entries { assert EntryKnown(s, s.jobs[j].doing.path); }
    case Open(_) => assert DoomedIsSpare(s, s.jobs[j].doing);
  }

  lemma {:induction false} RemovalsStaySpare(s: State, step: Step)
    requires Orderly(s) && Enabled(s, step) && Punctual(s, step)
    ensures RemovalsAreSpare(Next(s, step))
  {
    var s' := Next(s, step);
    forall j | j in s'.jobs
      ensures DoomedIsSpare(s', s'.jobs[j].doing)
    {
      if !step.Tick? && j == step.job && (step.Leave? || step.RecheckWriter? || step.Read? || step.Open?) {
        NewRemovalIsSpare(s, step);
      } else if j in s.jobs {
        assert DoomedIsSpare(s, s.jobs[j].doing);
        match s.jobs[j].doing
        case Condemned(path, Some(id)) => SpareStays(s, step, path, id);
        case Opened(path, id) => SpareStays(s, step, path, id);
        case _ =>
      }
    }
  }

  lemma {:induction false} EntriesStayKnown(s: State, step: Step)
    requires EntriesKnown(s) && Enabled(s, step)
    ensures EntriesKnown(Next(s, step))
  {
    var s' := Next(s, step);
    forall path | path in s'.entries
      ensures EntryKnown(s', path)
    {
      if path in s.entries { assert EntryKnown(s, path); }
    }
  }

  /** Only removals tear entries, and those are spare. */
  lemma {:induction false} TornStaySpare(s: State, step: Step)
    requires Orderly(s) && Enabled(s, step)
    ensures TornAreSpare(Next(s, step))
  {
    var s' := Next(s, step);
    forall path | path in s'.entries && Torn(s'.entries[path])
      ensures !Held(s', path)
    {
      if step.Drop? && Stands(s, s.jobs[step.job].doing.path, s.jobs[step.job].doing.id)
          && path == s.jobs[step.job].doing.path {
        assert DoomedIsSpare(s, s.jobs[step.job].doing);
      } else {
        assert path in s.entries && s.entries[path] == s'.entries[path] && EntryKnown(s, path);
        SpareStays(s, step, path, s.entries[path].id);
      }
    }
  }

  lemma {:induction false} ExpiryStaysAhead(s: State, step: Step)
    requires ExpiryNotReached(s) && Enabled(s, step)
    ensures ExpiryNotReached(Next(s, step))
  {
    match step
    case Start(_, _) =>
    case _ =>
  }

  lemma {:induction false} RunKeepsOrderly(s: State, steps: seq<Step>)
    requires Orderly(s) && Possible(s, steps) && AlwaysPunctual(s, steps)
    ensures Harmless(s, steps) && Orderly(After(s, steps))
    decreases |steps|
  {
    if steps != [] {
      PunctualIsHarmless(s, steps[0]);
      SafeKept(s, steps[0]);
      RemovalsStaySpare(s, steps[0]);
      EntriesStayKnown(s, steps[0]);
      TornStaySpare(s, steps[0]);
      ExpiryStaysAhead(s, steps[0]);
      RunKeepsOrderly(Next(s, steps[0]), steps[1..]);
    }
  }

  /**
   As long as what is opened for removal is what the job decided to remove, nobody ever empties
   an entry that a live job counts on: owners remove their own, an entry that is read as expired
   belongs to a job that has ended, and one that cannot be read is on its way out.
   */
  lemma PunctualRunsAreHarmless(steps: seq<Step>)
    requires Possible(Init(), steps) && AlwaysPunctual(Init(), steps)
    ensures Harmless(Init(), steps)
  {
    RunKeepsOrderly(Init(), steps);
  }

  lemma {:induction false} RunKeepsKnown(s: State, steps: seq<Step>)
    requires EntriesKnown(s) && ExpiryNotReached(s) && Possible(s, steps)
    ensures EntriesKnown(After(s, steps)) && ExpiryNotReached(After(s, steps))
    decreases |steps|
  {
    if steps != [] {
      EntriesStayKnown(s, steps[0]);
      ExpiryStaysAhead(s, steps[0]);
      RunKeepsKnown(Next(s, steps[0]), steps[1..]);
    }
  }

  /** In every run an entry whose expiry is read as passed belongs to a job that has ended. */
  lemma SeenJobsHaveEnded(steps: seq<Step>, path: Path)
    requires Possible(Init(), steps)
    requires var s := After(Init(), steps);
             path in s.entries && s.entries[path].expires.Some? && s.entries[path].expires.value <= s.now
    ensures var s := After(Init(), steps); var j := s.entries[path].job; j in s.jobs && s.jobs[j].pc == Ended
  {
    RunKeepsKnown(Init(), steps);
    ReadableExpiredHasEnded(After(Init(), steps), path);
  }

  /** In every run a reader's name is taken by that reader only, so a late removal can hit nobody else's. */
  lemma ReaderNamesAreOwn(steps: seq<Step>, path: Path)
    requires Possible(Init(), steps) && path in After(Init(), steps).entries && path.ReaderEntry?
    ensures After(Init(), steps).entries[path].job == path.reader
  {
    RunKeepsKnown(Init(), steps);
    assert EntryKnown(After(Init(), steps), path);
  }
}
