/**
 Replacing one backup in S3 in place, and restoring from it.

 Backups and restores take effects one at a time and may die after each. The store may keep
 something else than what was streamed to it; only the object's size is checked after an
 upload. SHA-256 is a faithful tag: a checksum is represented by the content it belongs to.
*/
module ReplaceBackup {
  import opened Common

  type Job = nat

  datatype Content = Content(size: nat, bytes: nat)

  datatype Manifest = Manifest(size: nat, checksum: Content)

  datatype Phase =
    | Started(source: Content)
    | Unlisted(source: Content)      // the manifest is gone
    | Emptied(source: Content)       // so is the archive
    | Streamed(source: Content)      // the stream has ended; checksum and size are known
    | Checked(source: Content)       // the object has the streamed size
    | Reading(manifest: Manifest)    // a restore that has read the manifest
    | Unpacked(content: Content)     // everything unpacked aside and the checksum matched

  datatype State = State(
    manifest: Option<Manifest>,
    archive: Option<Content>,
    jobs: map<Job, Phase>,
    kept: bool,                      // the last finished upload was kept as it was streamed
    published: set<Content>,         // contents some backup published a manifest for
    restored: seq<Content>)          // directories a restore put in place

  datatype Step =
    | BeginBackup(job: Job, source: Content)
    | DropManifest(job: Job)
    | DropArchive(job: Job)
    | LeavePart(job: Job, part: Content)       // an upload that does not end may leave anything
    | FinishUpload(job: Job, stored: Content)
    | CheckSize(job: Job)
    | Publish(job: Job)
    | BeginRestore(job: Job)
    | Unpack(job: Job)
    | Rename(job: Job)
    | Die(job: Job)

  function Init(): State {
    State(None, None, map[], false, {}, [])
  }

  predicate Backs(phase: Phase) {
    phase.Started? || phase.Unlisted? || phase.Emptied? || phase.Streamed? || phase.Checked?
  }

  predicate Enabled(s: State, step: Step) {
    if step.BeginBackup? then step.job !in s.jobs
    else if step.BeginRestore? then step.job !in s.jobs && s.manifest.Some?
    else
      && step.job in s.jobs
      && match step
         case DropManifest(j) => s.jobs[j].Started?
         case DropArchive(j) => s.jobs[j].Unlisted?
         case LeavePart(j, _) => s.jobs[j].Emptied?
         case FinishUpload(j, _) => s.jobs[j].Emptied?
         case CheckSize(j) => s.jobs[j].Streamed? && s.archive.Some? && s.archive.value.size == s.jobs[j].source.size
         case Publish(j) => s.jobs[j].Checked?
         case Unpack(j) => s.jobs[j].Reading? && s.archive.Some? && s.archive.value == s.jobs[j].manifest.checksum
         case Rename(j) => s.jobs[j].Unpacked?
         case _ => true
  }

  function Next(s: State, step: Step): State
    requires Enabled(s, step)
  {
    var j := step.job;
    match step
    case BeginBackup(_, source) => s.(jobs := s.jobs[j := Started(source)])
    case DropManifest(_) => s.(manifest := None, jobs := s.jobs[j := Unlisted(s.jobs[j].source)])
    case DropArchive(_) => s.(archive := None, jobs := s.jobs[j := Emptied(s.jobs[j].source)])
    case LeavePart(_, part) => s.(archive := Some(part), jobs := s.jobs - {j})
    case FinishUpload(_, stored) =>
      s.(archive := Some(stored), kept := stored == s.jobs[j].source, jobs := s.jobs[j := Streamed(s.jobs[j].source)])
    case CheckSize(_) => s.(jobs := s.jobs[j := Checked(s.jobs[j].source)])
    case Publish(_) =>
      var source := s.jobs[j].source;
      s.(manifest := Some(Manifest(source.size, source)), published := s.published + {source}, jobs := s.jobs - {j})
    case BeginRestore(_) => s.(jobs := s.jobs[j := Reading(s.manifest.value)])
    case Unpack(_) => s.(jobs := s.jobs[j := Unpacked(s.archive.value)])
    case Rename(_) => s.(restored := s.restored + [s.jobs[j].content], jobs := s.jobs - {j})
    case Die(_) => s.(jobs := s.jobs - {j})
  }

  ghost predicate Execution(steps: seq<Step>)
    decreases |steps|, 0
  {
    steps == []
    || (Execution(steps[..|steps| - 1]) && Enabled(Reached(steps[..|steps| - 1]), steps[|steps| - 1]))
  }

  ghost function Reached(steps: seq<Step>): State
    requires Execution(steps)
    decreases |steps|, 1
  {
    if steps == [] then Init() else Next(Reached(steps[..|steps| - 1]), steps[|steps| - 1])
  }

  // ---------------------------------------------------------- a manifest has its archive

  /** The archive is what a manifest or a job takes it for: by its size, or by its content if `exact`. */
  predicate Fits(exact: bool, archive: Option<Content>, source: Content) {
    archive.Some? && if exact then archive.value == source else archive.value.size == source.size
  }

  /** The job will publish a manifest for this archive unless it stops: its size check has passed or would. */
  predicate Trusts(phase: Phase, archive: Option<Content>) {
    phase.Checked? || (phase.Streamed? && Fits(false, archive, phase.source))
  }

  /** The archive after a step that changes it. */
  predicate Rewrites(step: Step) {
    step.DropArchive? || step.LeavePart? || step.FinishUpload?
  }

  function Rewritten(step: Step): Option<Content>
    requires Rewrites(step)
  {
    match step
    case DropArchive(_) => None
    case LeavePart(_, part) => Some(part)
    case FinishUpload(_, stored) => Some(stored)
  }

  /**
   The step puts an archive, or none, that does not fit under a manifest that stands or beside
   a job that will publish one. A job alone only does so when the store, keeping the size of
   what was streamed, kept something else.
   */
  predicate Harms(exact: bool, s: State, step: Step)
    requires Enabled(s, step)
  {
    Rewrites(step) &&
    (|| (s.manifest.Some? && !Fits(exact, Rewritten(step), s.manifest.value.checksum))
     || (exists i | i in s.jobs :: i != step.job && TrustsWrongly(exact, s.jobs[i], Rewritten(step)))
     || (step.FinishUpload? && TrustsWrongly(exact, Streamed(s.jobs[step.job].source), Some(step.stored))))
  }

  predicate TrustsWrongly(exact: bool, phase: Phase, archive: Option<Content>) {
    Trusts(phase, archive) && !Fits(exact, archive, phase.source)
  }

  ghost predicate Harmless(exact: bool, steps: seq<Step>)
    requires Execution(steps)
    decreases |steps|
  {
    steps == []
    || (Harmless(exact, steps[..|steps| - 1]) && !Harms(exact, Reached(steps[..|steps| - 1]), steps[|steps| - 1]))
  }

  ghost predicate Broken(exact: bool, s: State) {
    s.manifest.Some? && !Fits(exact, s.archive, s.manifest.value.checksum)
  }

  ghost predicate Sound(exact: bool, s: State) {
    && !Broken(exact, s)
    && (s.manifest.Some? ==> s.manifest.value.size == s.manifest.value.checksum.size)
    && (forall j | j in s.jobs :: !TrustsWrongly(exact, s.jobs[j], s.archive))
  }

  lemma {:induction false} SoundKept(exact: bool, s: State, step: Step)
    requires Sound(exact, s) && Enabled(s, step) && !Harms(exact, s, step)
    ensures Sound(exact, Next(s, step))
  {
    var s' := Next(s, step);
    forall j | j in s'.jobs
      ensures !TrustsWrongly(exact, s'.jobs[j], s'.archive)
    {
      if j in s.jobs { assert !TrustsWrongly(exact, s.jobs[j], s.archive); }
    }
  }

  lemma {:induction false} SoundAlways(exact: bool, steps: seq<Step>)
    requires Execution(steps) && Harmless(exact, steps)
    ensures Sound(exact, Reached(steps))
    decreases |steps|
  {
    if steps != [] {
      SoundAlways(exact, steps[..|steps| - 1]);
      SoundKept(exact, Reached(steps[..|steps| - 1]), steps[|steps| - 1]);
    }
  }

  /**
   Whatever dies when, and however many backups of a prefix overlap: unless a step does harm, a
   manifest in S3 means that its archive is there with the recorded size, and with the recorded
   checksum if harm to contents is excluded too.
   */
  lemma ManifestHasItsArchive(exact: bool, steps: seq<Step>)
    requires Execution(steps) && Harmless(exact, steps) && Reached(steps).manifest.Some?
    ensures var s := Reached(steps);
            && s.archive.Some?
            && s.archive.value.size == s.manifest.value.size
            && (exact ==> s.archive.value == s.manifest.value.checksum)
  {
    SoundAlways(exact, steps);
  }

  // --------------------------------------------------------------- exactly when it breaks

  ghost predicate BreaksBy(exact: bool, s: State, step: Step) {
    Enabled(s, step) && Broken(exact, Next(s, step))
  }

  /** The manifest is wrong now, or as soon as some job checks and publishes. */
  ghost predicate Breaking(exact: bool, s: State) {
    || Broken(exact, s)
    || (exists j :: BreaksBy(exact, s, Publish(j)))
    || (exists j :: Enabled(s, CheckSize(j)) && BreaksBy(exact, Next(s, CheckSize(j)), Publish(j)))
  }

  lemma WrongTrustBreaks(exact: bool, s: State, j: Job)
    requires j in s.jobs && TrustsWrongly(exact, s.jobs[j], s.archive)
    ensures Breaking(exact, s)
  {
    if s.jobs[j].Checked? {
      assert BreaksBy(exact, s, Publish(j));
    } else {
      assert Enabled(s, CheckSize(j)) && BreaksBy(exact, Next(s, CheckSize(j)), Publish(j));
    }
  }

  lemma HarmBreaks(exact: bool, s: State, step: Step)
    requires Enabled(s, step) && Harms(exact, s, step)
    ensures Breaking(exact, Next(s, step))
  {
    var s' := Next(s, step);
    if i :| i in s.jobs && i != step.job && TrustsWrongly(exact, s.jobs[i], Rewritten(step)) {
      WrongTrustBreaks(exact, s', i);
    } else if step.FinishUpload? && TrustsWrongly(exact, Streamed(s.jobs[step.job].source), Some(step.stored)) {
      WrongTrustBreaks(exact, s', step.job);
    } else {
      assert Broken(exact, s');
    }
  }

  lemma SoundIsNotBreaking(exact: bool, s: State)
    requires Sound(exact, s)
    ensures !Breaking(exact, s)
  {
    forall j | Enabled(s, Publish(j))
      ensures !Broken(exact, Next(s, Publish(j)))
    {
      SoundKept(exact, s, Publish(j));
    }
    forall j | Enabled(s, CheckSize(j))
      ensures !BreaksBy(exact, Next(s, CheckSize(j)), Publish(j))
    {
      SoundKept(exact, s, CheckSize(j));
      SoundKept(exact, Next(s, CheckSize(j)), Publish(j));
    }
  }

  /**
   Exactly when it breaks: after any execution without harm, a step leads to a manifest whose
   archive is missing or differs in size (or, if `exact`, in content), at once or as soon as
   somebody checks and publishes, if and only if the step does harm.
   */
  lemma BackupBreaksExactlyWhen(exact: bool, steps: seq<Step>, step: Step)
    requires Execution(steps) && Harmless(exact, steps) && Enabled(Reached(steps), step)
    ensures Breaking(exact, Next(Reached(steps), step)) <==> Harms(exact, Reached(steps), step)
  {
    var s := Reached(steps);
    SoundAlways(exact, steps);
    if Harms(exact, s, step) {
      HarmBreaks(exact, s, step);
    } else {
      SoundKept(exact, s, step);
      SoundIsNotBreaking(exact, Next(s, step));
    }
  }

  // ------------------------------------------------------------------ one backup at a time

  /** A backup begins only when no other backup of the same prefix is under way. */
  predicate Alone(s: State, step: Step) {
    step.BeginBackup? ==> forall j | j in s.jobs :: !Backs(s.jobs[j])
  }

  ghost predicate AloneThroughout(steps: seq<Step>)
    requires Execution(steps)
    decreases |steps|
  {
    steps == []
    || (AloneThroughout(steps[..|steps| - 1]) && Alone(Reached(steps[..|steps| - 1]), steps[|steps| - 1]))
  }

  /** The recorded size is the archive's; the checksum is, exactly when the store kept the stream. */
  ghost predicate Stands(s: State, source: Content) {
    Fits(false, s.archive, source) && (Fits(true, s.archive, source) <==> s.kept)
  }

  ghost predicate BackupSafe(s: State) {
    && (s.manifest.Some? ==> Stands(s, s.manifest.value.checksum))
    && (forall j | j in s.jobs && Backs(s.jobs[j]) && !s.jobs[j].Started? :: s.manifest == None)
    && (forall j | j in s.jobs && s.jobs[j].Streamed? ::
         s.archive.Some? && (s.archive.value == s.jobs[j].source <==> s.kept))
    && (forall j | j in s.jobs && s.jobs[j].Checked? :: Stands(s, s.jobs[j].source))
    && (forall i, j | i in s.jobs && j in s.jobs && Backs(s.jobs[i]) && Backs(s.jobs[j]) :: i == j)
  }

  lemma {:induction false} BackupSafeKept(s: State, step: Step)
    requires BackupSafe(s) && Enabled(s, step) && Alone(s, step)
    ensures BackupSafe(Next(s, step))
  {
  }

  /** Alone, a job replaces the archive only after dropping the manifest. */
  lemma AloneIsHarmless(s: State, step: Step)
    requires BackupSafe(s) && Enabled(s, step)
    ensures !Harms(false, s, step)
  {
    if Rewrites(step) { assert Backs(s.jobs[step.job]); }
  }

  lemma {:induction false} BackupAlwaysSafe(steps: seq<Step>)
    requires Execution(steps) && AloneThroughout(steps)
    ensures BackupSafe(Reached(steps)) && Harmless(false, steps)
    decreases |steps|
  {
    if steps != [] {
      BackupAlwaysSafe(steps[..|steps| - 1]);
      AloneIsHarmless(Reached(steps[..|steps| - 1]), steps[|steps| - 1]);
      BackupSafeKept(Reached(steps[..|steps| - 1]), steps[|steps| - 1]);
    }
  }

  /**
   Backups that do not overlap do no harm: a manifest has an archive of its size, and of its
   checksum exactly when the store kept what was streamed.
   */
  lemma LoneBackupsStand(steps: seq<Step>)
    requires Execution(steps) && AloneThroughout(steps)
    ensures Harmless(false, steps)
    ensures var s := Reached(steps);
            s.manifest.Some? ==>
              && s.archive.Some?
              && s.archive.value.size == s.manifest.value.size
              && (s.archive.value == s.manifest.value.checksum <==> s.kept)
  {
    BackupAlwaysSafe(steps);
    SoundAlways(false, steps);
  }

  // ----------------------------------------------------------- restores are of what was

  ghost predicate RestoreSafe(s: State) {
    && (s.manifest.Some? ==> s.manifest.value.checksum in s.published)
    && (forall j | j in s.jobs && s.jobs[j].Reading? :: s.jobs[j].manifest.checksum in s.published)
    && (forall j | j in s.jobs && s.jobs[j].Unpacked? :: s.jobs[j].content in s.published)
    && (forall i | 0 <= i < |s.restored| :: s.restored[i] in s.published)
  }

  lemma {:induction false} RestoreSafeKept(s: State, step: Step)
    requires RestoreSafe(s) && Enabled(s, step)
    ensures RestoreSafe(Next(s, step))
  {
  }

  lemma {:induction false} RestoreAlwaysSafe(steps: seq<Step>)
    requires Execution(steps)
    ensures RestoreSafe(Reached(steps))
    decreases |steps|
  {
    if steps != [] {
      RestoreAlwaysSafe(steps[..|steps| - 1]);
      RestoreSafeKept(Reached(steps[..|steps| - 1]), steps[|steps| - 1]);
    }
  }

  /**
   A restored directory appears only with content that some backup streamed and published,
   even when backups overlap, uploads are cut short or the store damages them.
   */
  lemma RestoresArePublishedContents(steps: seq<Step>, i: nat)
    requires Execution(steps) && i < |Reached(steps).restored|
    ensures Reached(steps).restored[i] in Reached(steps).published
  {
    RestoreAlwaysSafe(steps);
  }

  // -------------------------------------------------------------- overlapping backups

  lemma OneMoreStep(steps: seq<Step>, step: Step, s: State)
    requires Execution(steps) && Enabled(Reached(steps), step) && Next(Reached(steps), step) == s
    ensures Execution(steps + [step]) && Reached(steps + [step]) == s
  {
    assert (steps + [step])[..|steps|] == steps;
  }

  lemma BothDropped(c: Content) returns (steps: seq<Step>)
    ensures Execution(steps) && Reached(steps) == Init().(jobs := map[1 := Unlisted(c), 2 := Unlisted(c)])
  {
    steps := [];
    OneMoreStep(steps, BeginBackup(1, c), Init().(jobs := map[1 := Started(c)]));
    steps := steps + [BeginBackup(1, c)];
    OneMoreStep(steps, BeginBackup(2, c), Init().(jobs := map[1 := Started(c), 2 := Started(c)]));
    steps := steps + [BeginBackup(2, c)];
    OneMoreStep(steps, DropManifest(1), Init().(jobs := map[1 := Unlisted(c), 2 := Started(c)]));
    steps := steps + [DropManifest(1)];
    OneMoreStep(steps, DropManifest(2), Init().(jobs := map[1 := Unlisted(c), 2 := Unlisted(c)]));
    steps := steps + [DropManifest(2)];
  }

  /** The first job has uploaded and checked its archive; the second has not dropped one yet. */
  lemma FirstHasChecked(c: Content) returns (steps: seq<Step>)
    ensures Execution(steps)
    ensures Reached(steps) == State(None, Some(c), map[1 := Checked(c), 2 := Unlisted(c)], true, {}, [])
  {
    steps := BothDropped(c);
    var s := Init().(jobs := map[1 := Emptied(c), 2 := Unlisted(c)]);
    OneMoreStep(steps, DropArchive(1), s);
    steps := steps + [DropArchive(1)];
    var t := s.(archive := Some(c), kept := true, jobs := map[1 := Streamed(c), 2 := Unlisted(c)]);
    OneMoreStep(steps, FinishUpload(1, c), t);
    steps := steps + [FinishUpload(1, c)];
    OneMoreStep(steps, CheckSize(1), t.(jobs := map[1 := Checked(c), 2 := Unlisted(c)]));
    steps := steps + [CheckSize(1)];
  }

  /**
   The index backup runs under a shared lock, which admits a second one. Then a manifest can
   stand without an archive: the slower job removes the archive the faster one published.
   */
  lemma OverlappingBackupsBreakIt(c: Content) returns (steps: seq<Step>)
    ensures Execution(steps) && Reached(steps).manifest.Some? && Reached(steps).archive == None
  {
    steps := FirstHasChecked(c);
    var s := State(Some(Manifest(c.size, c)), Some(c), map[2 := Unlisted(c)], true, {c}, []);
    OneMoreStep(steps, Publish(1), s);
    steps := steps + [Publish(1)];
    OneMoreStep(steps, DropArchive(2), s.(archive := None, jobs := map[2 := Emptied(c)]));
    steps := steps + [DropArchive(2)];
  }

  // ------------------------------------------------------------------------ the program

  datatype Outcome = Done | SizeMismatch | NoBackup | Refused | Crashed

  /** One backup prefix, with the operations effect by effect; a job may be killed after each. */
  class Prefix {
    var state: State
    ghost var steps: seq<Step>

    ghost predicate Valid()
      reads this
    {
      Execution(steps) && Reached(steps) == state
    }

    constructor ()
      ensures Valid() && state == Init()
    {
      state, steps := Init(), [];
    }

    method Do(step: Step)
      requires Valid() && Enabled(state, step)
      modifies this
      ensures Valid() && state == Next(old(state), step)
    {
      OneMoreStep(steps, step, Next(state, step));
      state, steps := Next(state, step), steps + [step];
    }

    /** The old backup goes first, its manifest before its archive. */
    method DropOld(job: Job, source: Content) returns (outcome: Outcome)
      requires Valid() && job !in state.jobs
      modifies this
      ensures Valid() && state.restored == old(state.restored)
      ensures outcome == Done || outcome == Crashed
      ensures outcome == Done ==> state.jobs == old(state.jobs)[job := Emptied(source)] && state.manifest == None
      ensures outcome == Crashed ==>
                && state.jobs == old(state.jobs)
                && (state.manifest == None || (state.manifest == old(state.manifest)
                                               && state.archive == old(state.archive)))
    {
      Do(BeginBackup(job, source));
      if * { Do(Die(job)); return Crashed; }
      Do(DropManifest(job));
      if * { Do(Die(job)); return Crashed; }
      Do(DropArchive(job));
      return Done;
    }

    /** Stream the archive, check its size, and publish the manifest last. */
    method Upload(job: Job, stored: Content) returns (outcome: Outcome)
      requires Valid() && job in state.jobs && state.jobs[job].Emptied? && state.manifest == None
      modifies this
      ensures Valid() && state.jobs == old(state.jobs) - {job} && state.restored == old(state.restored)
      ensures outcome == Done ==>
                && state.manifest == Some(Manifest(old(state.jobs[job]).source.size, old(state.jobs[job]).source))
                && state.archive == Some(stored) && stored.size == old(state.jobs[job]).source.size
      ensures outcome == SizeMismatch ==> stored.size != old(state.jobs[job]).source.size
      ensures outcome != Done ==> state.manifest == None
      ensures outcome == Done || outcome == SizeMismatch || outcome == Crashed
    {
      var source := state.jobs[job].source;
      if * { Do(Die(job)); return Crashed; }
      Do(FinishUpload(job, stored));
      if * { Do(Die(job)); return Crashed; }
      if stored.size != source.size { Do(Die(job)); return SizeMismatch; }
      Do(CheckSize(job));
      if * { Do(Die(job)); return Crashed; }
      Do(Publish(job));
      return Done;
    }

    /** Replace the backup; the store keeps `stored` for what the job streams. */
    method Backup(job: Job, source: Content, stored: Content) returns (outcome: Outcome)
      requires Valid() && job !in state.jobs
      modifies this
      ensures Valid() && state.jobs == old(state.jobs) && state.restored == old(state.restored)
      ensures outcome == Done ==>
                state.manifest == Some(Manifest(source.size, source)) && state.archive == Some(stored)
                    && stored.size == source.size
      ensures outcome == SizeMismatch ==> state.manifest == None && stored.size != source.size
      ensures outcome == Crashed ==>
                state.manifest == None || (state.manifest == old(state.manifest) && state.archive == old(state.archive))
      ensures outcome == Done || outcome == SizeMismatch || outcome == Crashed
    {
      outcome := DropOld(job, source);
      if outcome == Done { outcome := Upload(job, stored); }
    }

    /** Unpack aside, verify, and only then take the name; a backup just made comes back as it was. */
    method Restore(job: Job) returns (outcome: Outcome)
      requires Valid() && job !in state.jobs
      modifies this
      ensures Valid() && state.jobs == old(state.jobs)
      ensures state.manifest == old(state.manifest) && state.archive == old(state.archive)
      ensures outcome == NoBackup <==> old(state.manifest) == None
      ensures outcome == Refused <==>
                old(state.manifest).Some? && old(state.archive) != Some(old(state.manifest).value.checksum)
      ensures outcome == Done ==> state.restored == old(state.restored) + [old(state.manifest).value.checksum]
      ensures outcome != Done ==> state.restored == old(state.restored)
      ensures outcome != SizeMismatch
    {
      if state.manifest == None { return NoBackup; }
      Do(BeginRestore(job));
      if state.archive != Some(state.jobs[job].manifest.checksum) { Do(Die(job)); return Refused; }
      Do(Unpack(job));
      if * { Do(Die(job)); return Crashed; }
      Do(Rename(job));
      return Done;
    }
  }
}
