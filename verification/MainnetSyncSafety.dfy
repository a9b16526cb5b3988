/**
 What the locks, the cleared state files and the operators' part of a synchronization give
 together: at most one run is on its way to a checkpoint, nothing is deleted that is not backed
 up, and what killed jobs leave behind.
*/
module MainnetSyncSafety {
  import opened Common
  import opened MainnetSync

  // ------------------------------------------------------------------ what a restore decides

  /** The restore holds both locks and has not decided yet what to do. */
  predicate Resetting(pc: Pc) {
    && pc.Running? && pc.job == Restore
    && (pc.point == Claiming || pc.point == Owning || pc.point == ResetReady || pc.point == ResetDone
        || pc.point == Checking)
  }

  /** The restore can go through: it has nothing to do, or the backups belong together. */
  predicate CanFinish(s: State) {
    && |s.slots| == 3
    && if s.data.unfinished then BackupsMatch(s)
       else s.data.parts != {} || BackupsMatch(s) || (NoBackups(s) && !s.archived)
  }

  /** And the jobs after it can go on. */
  predicate GoesOn(s: State) {
    CanFinish(s) && !Wedged(s.data)
  }

  predicate NobodyProducing(s: State, r: RunId) {
    forall q | q in s.pcs && q != r :: s.pcs[q] != Queued(Producer)
  }

  /**
   The operators' part: a restore after which the jobs can go on takes the dataset only when no
   other run waits between its restore and its producer. Everything else the locks and the state
   files prevent.
   */
  predicate Calm(s: State, step: Step) {
    step.Claim? && At(s, step.run, Running(Restore, Locked)) && GoesOn(s) ==> NobodyProducing(s, step.run)
  }

  /** Every step from the given one on is calm. */
  ghost predicate CalmFrom(steps: seq<Step>, from: nat)
    requires Execution(steps)
    decreases |steps|
  {
    |steps| <= from
    || (CalmFrom(steps[..|steps| - 1], from) && Calm(Reached(steps[..|steps| - 1]), steps[|steps| - 1]))
  }

  ghost predicate CalmThroughout(steps: seq<Step>)
    requires Execution(steps)
  {
    CalmFrom(steps, 0)
  }

  lemma DecidingChangesNothing(s: State, step: Step)
    requires Enabled(s, step) && step.run in s.pcs && Resetting(s.pcs[step.run])
    ensures var s' := Effect(s, step); s'.data == s.data && s'.archived == s.archived && s'.slots == s.slots
  {
    if !Works(step) { OthersDoNotWork(s, step); }
  }

  /** While a restore holds the dataset, whether it can go through does not change. */
  lemma FinishingIsDecided(s: State, step: Step, r: RunId)
    requires Guarded(s) && Enabled(s, step) && r in s.pcs && Resetting(s.pcs[r])
    ensures Next(s, step).data == s.data
    ensures CanFinish(Next(s, step)) <==> CanFinish(s)
  {
    if r != step.run { NothingChangesFor(s, step, r); } else { DecidingChangesNothing(s, step); }
    SameDecision(s, Next(s, step));
  }

  lemma SameDecision(s: State, s': State)
    requires s'.data == s.data && s'.archived == s.archived && s'.slots == s.slots
    ensures CanFinish(s') <==> CanFinish(s)
  {
  }

  // --------------------------------------------------------------- one chain at a time

  /** From the restore's decision to the end of the checkpoint, unless another restore has cleared ready.json. */
  predicate ActiveAt(pc: Pc, ready: bool) {
    match pc
    case Queued(job) => job == Producer || ((job == Blocksci || job == Checkpoint) && ready)
    case Running(Restore, point) => point != Locked && !Resetting(pc)
    case Running(Producer, _) => true
    case Running(Blocksci, _) => ready
    case Running(Checkpoint, point) =>
      point.BackingUp? || point == Ending || point == Released || (point != Recorded && ready)
    case _ => false
  }

  predicate Active(s: State, r: RunId)
    requires r in s.pcs
  {
    ActiveAt(s.pcs[r], ReadyIs(s, r))
  }

  ghost predicate OneActive(s: State) {
    forall r, q | r in s.pcs && q in s.pcs && Active(s, r) && Active(s, q) :: r == q
  }

  /** A restore after which the jobs can go on meets nobody between restore and producer. */
  ghost predicate RestoresAlone(s: State) {
    forall r | r in s.pcs && Resetting(s.pcs[r]) && GoesOn(s) :: NobodyProducing(s, r)
  }

  lemma WaitsAfterRestore(s: State, step: Step)
    requires Enabled(s, step)
    ensures step.run in Next(s, step).pcs && Next(s, step).pcs[step.run] == Queued(Producer)
            ==> step.run in s.pcs && (s.pcs[step.run] == Queued(Producer) || HoldsExclusive(s.pcs[step.run]))
  {
  }

  lemma RestoreStaysAlone(s: State, step: Step, r: RunId, q: RunId)
    requires Guarded(s) && RestoresAlone(s) && Enabled(s, step) && r != step.run && q != r
    requires r in s.pcs && Resetting(s.pcs[r]) && GoesOn(s) && q in Next(s, step).pcs
    ensures Next(s, step).pcs[q] != Queued(Producer)
  {
    assert NobodyProducing(s, r) && HoldsExclusive(s.pcs[r]);
    if q != step.run { OthersStay(s, step, q); } else { WaitsAfterRestore(s, step); }
  }

  lemma ResettingBefore(s: State, step: Step)
    requires Enabled(s, step) && Resetting(NextPc(s, step))
    ensures step.run in s.pcs
    ensures Resetting(s.pcs[step.run]) || (step.Claim? && s.pcs[step.run] == Running(Restore, Locked))
  {
  }

  lemma ClaimsAlone(s: State, step: Step)
    requires Guarded(s) && RestoresAlone(s) && Enabled(s, step) && Calm(s, step)
    requires Resetting(NextPc(s, step)) && GoesOn(Next(s, step))
    ensures step.run in s.pcs && NobodyProducing(s, step.run)
  {
    ResettingBefore(s, step);
    if Resetting(s.pcs[step.run]) {
      FinishingIsDecided(s, step, step.run);
    } else {
      OthersDoNotWork(s, step);
      SameDecision(s, Next(s, step));
    }
  }

  /** Only a restore lets its run wait for its producer, and the index lock keeps a second restore out. */
  lemma {:induction false} RestoresAloneKept(s: State, step: Step)
    requires Guarded(s) && RestoresAlone(s) && Enabled(s, step) && Calm(s, step)
    ensures RestoresAlone(Next(s, step))
  {
    var s' := Next(s, step);
    forall r, q | r in s'.pcs && Resetting(s'.pcs[r]) && GoesOn(s') && q in s'.pcs && q != r
      ensures s'.pcs[q] != Queued(Producer)
    {
      if r == step.run {
        ClaimsAlone(s, step);
        OthersStay(s, step, q);
      } else {
        OthersStay(s, step, r);
        FinishingIsDecided(s, step, r);
        RestoreStaysAlone(s, step, r, q);
      }
    }
  }

  lemma ReadyBefore(s: State, step: Step, q: RunId)
    requires Enabled(s, step) && ReadyIs(Next(s, step), q)
    ensures ReadyIs(s, q) || (step.Produce? && q == step.run)
  {
    if !Works(step) { OthersDoNotWork(s, step); }
  }

  /** A step after which the run is active although it was not: its restore has decided. */
  predicate Decides(s: State, step: Step)
    requires Enabled(s, step)
  {
    && step.run in s.pcs && s.pcs[step.run] == Running(Restore, Checking) && CanFinish(s)
    && (step.SkipRestore? || !Wedged(s.data))
  }

  lemma OwnActiveBefore(s: State, step: Step, ready: bool)
    requires |s.slots| == 3 && Enabled(s, step) && step.run in s.pcs && PointOfJob(s.pcs[step.run])
    requires ready ==> ReadyIs(s, step.run) || step.Produce?
    requires ActiveAt(NextPc(s, step), ready)
    ensures Active(s, step.run) || Decides(s, step)
  {
  }

  /** A run becomes active with its restore's decision, and in no other way. */
  lemma ActiveFromRestore(s: State, step: Step, q: RunId)
    requires PointsFit(s) && Enabled(s, step) && q in Next(s, step).pcs && Active(Next(s, step), q)
    ensures q in s.pcs
    ensures Active(s, q) || (q == step.run && Decides(s, step))
  {
    if ReadyIs(Next(s, step), q) { ReadyBefore(s, step, q); }
    if q != step.run {
      OthersStay(s, step, q);
    } else {
      assert q in s.pcs && PointOfJob(s.pcs[q]);
      OwnActiveBefore(s, step, ReadyIs(Next(s, step), q));
    }
  }

  /** The locks and the cleared ready.json leave no other run active when a restore decides. */
  lemma ResetAlone(s: State, r: RunId, q: RunId)
    requires Guarded(s) && RestoresAlone(s) && GoesOn(s)
    requires r in s.pcs && s.pcs[r] == Running(Restore, Checking) && q in s.pcs && q != r
    ensures !Active(s, q)
  {
    assert HoldsExclusive(s.pcs[r]) && OwnsDataset(s.pcs[r]) && HoldsAt(s, r, s.pcs[r]);
    assert PointOfJob(s.pcs[q]);
    assert NobodyProducing(s, r);
    assert !OwnsDataset(s.pcs[q]) && !HoldsExclusive(s.pcs[q]) && !HoldsShared(s.pcs[q]);
  }

  lemma {:induction false} OneActiveKept(s: State, step: Step)
    requires Guarded(s) && RestoresAlone(s) && OneActive(s) && Enabled(s, step)
    requires step.SkipRestore? ==> !Wedged(s.data)
    ensures OneActive(Next(s, step))
  {
    var s' := Next(s, step);
    forall r, q | r in s'.pcs && q in s'.pcs && Active(s', r) && Active(s', q)
      ensures r == q
    {
      ActiveFromRestore(s, step, r);
      ActiveFromRestore(s, step, q);
      if r != q && !Active(s, r) { ResetAlone(s, r, q); }
      if r != q && !Active(s, q) { ResetAlone(s, q, r); }
    }
  }

  // -------------------------------------------------------------- what done.json stands for

  lemma WorkChangesBy(s: State, r: RunId, job: Job, point: Point, step: Step)
    requires Works(step) && MayWork(s, r, job, point, step)
    requires PointOfJob(Running(job, point)) && HoldsAt(s, r, Running(job, point))
    ensures || ActiveAt(Running(job, point), ReadyIs(s, r)) || (job == Clear && point == Discarding)
            || Worked(s, r, job, point, step).data == s.data
  {
  }

  /** Only active runs and clear jobs change the dataset. */
  lemma DataChangesBy(s: State, step: Step)
    requires Guarded(s) && Enabled(s, step)
    ensures || (step.run in s.pcs && (Active(s, step.run) || s.pcs[step.run] == Running(Clear, Discarding)))
            || Next(s, step).data == s.data
  {
    if Works(step) {
      assert HoldsAt(s, step.run, s.pcs[step.run]) && PointOfJob(s.pcs[step.run]);
      WorkChangesBy(s, step.run, s.pcs[step.run].job, s.pcs[step.run].point, step);
    } else {
      OthersDoNotWork(s, step);
    }
  }

  predicate Checkpointed(pc: Pc) {
    pc == Running(Checkpoint, Ending) || pc == Running(Checkpoint, Released)
  }

  /** A checkpoint past its last effect leaves its own backups behind, and a whole dataset. */
  ghost predicate CheckpointedIsBacked(s: State) {
    forall r | r in s.pcs && Checkpointed(s.pcs[r]) :: BackedBy(s, r) && Whole(s.data) && !s.data.unfinished
  }

  /** `discard_dataset` takes the root's entries first and the index's in their order. */
  predicate InOrder(d: Data) {
    && (Config !in d.parts ==> NoRoot(d))
    && (FileList !in d.parts ==> NoRoot(d) && Config !in d.parts)
    && (IndexManifest !in d.parts ==> NoRoot(d) && Config !in d.parts && FileList !in d.parts)
    && (Parsed !in d.parts ==> NoRoot(d) && Config !in d.parts && FileList !in d.parts && IndexManifest !in d.parts)
  }

  /** The clear job of the run named in done.json has moved what it had to, or has ended. */
  predicate PastClearing(pc: Pc) {
    pc == Running(Clear, Ending) || pc == Running(Clear, Released) || pc == Over || pc == Dead
  }

  predicate WholeUntilCleared(pc: Pc, d: Data) {
    || PastClearing(pc)
    || (!d.unfinished && if pc == Running(Clear, Discarding) then InOrder(d) else Whole(d))
  }

  /**
   While done.json names a run, the backups are that run's, nobody may replace them, and the
   dataset is whole until that run's clear job takes it away.
   */
  ghost predicate DoneIsBacked(s: State) {
    s.done.Some? ==>
      && BackedBy(s, s.done.value)
      && (forall r | r in s.pcs :: !Active(s, r))
      && s.done.value in s.pcs && WholeUntilCleared(s.pcs[s.done.value], s.data)
  }

  lemma BackedStays(s: State, step: Step, q: RunId)
    requires PointsFit(s) && BackedBy(s, q) && Enabled(s, step) && !step.BackUp?
    ensures BackedBy(Next(s, step), q)
  {
    OnlyCheckpointsChangeSlots(s, step);
  }

  lemma LastBackupEnds(s: State, step: Step)
    requires PointsFit(s) && Enabled(s, step) && Checkpointed(NextPc(s, step))
    ensures step.run in s.pcs
    ensures if step.BackUp? then PointAfter(s.pcs[step.run].point) == Ending else Checkpointed(s.pcs[step.run])
  {
    if !Works(step) { OthersDoNotWork(s, step); }
    assert step.run in s.pcs ==> PointOfJob(s.pcs[step.run]);
  }

  lemma BackedAtTheEnd(s: State, step: Step)
    requires PointsFit(s) && SlotsHonest(s) && BackupsProgress(s) && Enabled(s, step)
    requires step.BackUp? && PointAfter(s.pcs[step.run].point) == Ending
    ensures BackedBy(Next(s, step), step.run)
  {
    var at := s.pcs[step.run].point;
    assert PointOfJob(s.pcs[step.run]);
    assert Achieved(s, step.run, at.slot, at.phase, at.info);
    SlotsStayHonest(s, step);
  }

  lemma BackingUpIsActive(s: State, step: Step)
    requires PointsFit(s) && Enabled(s, step) && step.BackUp?
    ensures step.run in s.pcs && Active(s, step.run)
  {
    assert PointOfJob(s.pcs[step.run]);
  }

  lemma CheckpointedRunsOn(s: State, step: Step)
    requires Enabled(s, step) && step.run in s.pcs && Checkpointed(s.pcs[step.run])
    ensures Effect(s, step).data == s.data
  {
    assert !Works(step);
    OthersDoNotWork(s, step);
  }

  /** The shared index lock keeps clear jobs out, and a second active run there is not. */
  lemma CheckpointedStays(s: State, step: Step, q: RunId)
    requires Guarded(s) && OneActive(s) && Enabled(s, step) && q in s.pcs && Checkpointed(s.pcs[q])
    ensures Next(s, step).data == s.data
  {
    assert Active(s, q) && HoldsShared(s.pcs[q]);
    DataChangesBy(s, step);
    if q == step.run { CheckpointedRunsOn(s, step); }
  }

  lemma {:induction false} CheckpointedKept(s: State, step: Step)
    requires Guarded(s) && OneActive(s) && CheckpointedIsBacked(s) && Enabled(s, step)
    ensures CheckpointedIsBacked(Next(s, step))
  {
    var s' := Next(s, step);
    if step.BackUp? { BackingUpIsActive(s, step); }
    forall q | q in s'.pcs && Checkpointed(s'.pcs[q])
      ensures BackedBy(s', q) && Whole(s'.data) && !s'.data.unfinished
    {
      if q != step.run {
        OthersStay(s, step, q);
        assert Active(s, q);
        BackedStays(s, step, q);
        CheckpointedStays(s, step, q);
      } else {
        LastBackupEnds(s, step);
        if step.BackUp? {
          BackedAtTheEnd(s, step);
          WorkHoldsKept(s, step);
          assert HoldsAt(s', q, s'.pcs[q]);
        } else {
          BackedStays(s, step, q);
          CheckpointedStays(s, step, q);
        }
      }
    }
  }

  lemma RecordEndsChain(s: State, step: Step)
    requires Enabled(s, step) && step.Record?
    ensures step.run in s.pcs && Checkpointed(s.pcs[step.run]) && Active(s, step.run)
    ensures Next(s, step).done == Some(step.run) && !Active(Next(s, step), step.run)
    ensures Next(s, step).data == s.data
  {
  }

  lemma DoneChanges(s: State, step: Step)
    requires Enabled(s, step)
    ensures step.RemoveDone? || step.Record? || Next(s, step).done == s.done
  {
  }

  /** A clear job's own steps take the dataset away in order. */
  lemma ClearingInOrder(s: State, step: Step)
    requires PointsFit(s) && Enabled(s, step) && step.run in s.pcs && !Active(s, step.run)
    requires s.done == Some(step.run) && WholeUntilCleared(s.pcs[step.run], s.data)
    ensures WholeUntilCleared(NextPc(s, step), Effect(s, step).data)
  {
    assert PointOfJob(s.pcs[step.run]);
    if !Works(step) { OthersDoNotWork(s, step); }
  }

  /** A restore that decides has removed done.json. */
  lemma NobodyDecides(s: State, step: Step)
    requires Guarded(s) && Enabled(s, step) && (s.done.Some? || step.Record?)
    ensures !Decides(s, step)
  {
    assert step.run in s.pcs ==> HoldsAt(s, step.run, s.pcs[step.run]);
  }

  lemma WholeStays(s: State, step: Step)
    requires Guarded(s) && DoneIsBacked(s) && s.done.Some? && Enabled(s, step) && Next(s, step).done == s.done
    ensures s.done.value in Next(s, step).pcs
    ensures WholeUntilCleared(Next(s, step).pcs[s.done.value], Next(s, step).data)
  {
    var q := s.done.value;
    if q == step.run {
      ClearingInOrder(s, step);
    } else {
      OthersStay(s, step, q);
      DataChangesBy(s, step);
      if step.run in s.pcs { assert HoldsAt(s, step.run, s.pcs[step.run]); }
    }
  }

  lemma {:induction false} DoneIsBackedKept(s: State, step: Step)
    requires Guarded(s) && OneActive(s) && CheckpointedIsBacked(s) && DoneIsBacked(s) && Enabled(s, step)
    ensures DoneIsBacked(Next(s, step))
  {
    var s' := Next(s, step);
    DoneChanges(s, step);
    if s'.done.Some? {
      if step.Record? {
        RecordEndsChain(s, step);
        BackedStays(s, step, step.run);
      } else {
        if step.BackUp? { BackingUpIsActive(s, step); }
        BackedStays(s, step, s.done.value);
        WholeStays(s, step);
      }
      NobodyDecides(s, step);
      forall q | q in s'.pcs
        ensures !Active(s', q)
      {
        if Active(s', q) { ActiveFromRestore(s, step, q); }
      }
    }
  }

  // ------------------------------------------------------------- a dataset nobody can use

  /** The run's restore has not decided, or its producer has not started: restore.json may still serve it. */
  predicate AwaitsFirst(pc: Pc) {
    match pc
    case Queued(job) => job == Restore || job == Producer
    case Running(job, point) => job == Restore || (job == Producer && (point == Claiming || point == Owning))
    case _ => false
  }

  predicate LooksEmpty(d: Data) {
    NoRoot(d) && Config !in d.parts
  }

  /** The producer would accept this data, whoever's restore came last. */
  predicate ProducerFit(d: Data) {
    (HasRoot(d) && Config in d.parts) || Begun(d)
  }

  /** No job is where it could still change what the others see. */
  predicate FrozenAt(s: State, r: RunId, pc: Pc) {
    match pc
    case Queued(job) =>
      (job == Checkpoint ==> !ReadyIs(s, r)) && (job == Blocksci && ReadyIs(s, r) ==> !Indexable(s.data))
    case Running(Restore, point) => point != Discarding && point != Filling
    case Running(Producer, point) =>
      (point == Producing ==> ProducerFit(s.data)) && (point == Ending && ReadyIs(s, r) ==> !Indexable(s.data))
    case Running(Blocksci, point) =>
      (point == Locked || point == Claiming || point == Owning) && (ReadyIs(s, r) ==> !Indexable(s.data))
    case Running(Checkpoint, point) => (point == Locked || point == Claiming || point == Owning) && !ReadyIs(s, r)
    case Running(Clear, point) => point != Discarding
    case _ => true
  }

  /** Nothing is indexed, backed up, restored or cleared any more. */
  ghost predicate Frozen(s: State) {
    && FrozenFiles(s)
    && (forall r | r in s.pcs :: FrozenAt(s, r, s.pcs[r]))
  }

  /** The data is of no use, and no state file lets a run that still lives past it. */
  predicate FrozenFiles(s: State) {
    && Wedged(s.data)
    && (s.done.Some? ==> At(s, s.done.value, Dead))
    && (s.first.Some? && LooksEmpty(s.data) ==> s.first.value in s.pcs && !AwaitsFirst(s.pcs[s.first.value]))
  }

  /** What a producer that is let in on such data does, does not help. */
  lemma FrozenWork(s: State, r: RunId, job: Job, point: Point, step: Step)
    requires Works(step) && MayWork(s, r, job, point, step) && PointOfJob(Running(job, point))
    requires Frozen(s) && HoldsAt(s, r, Running(job, point)) && At(s, r, Running(job, point))
    ensures var s' := Worked(s, r, job, point, step);
            && Wedged(s'.data) && (LooksEmpty(s'.data) ==> LooksEmpty(s.data))
            && (ProducerFit(s.data) ==> ProducerFit(s'.data))
            && (s'.ready == s.ready || s'.ready == None || (step.Produce? && ReadyIs(s', r)))
            && (Indexable(s'.data) ==> Indexable(s.data))
            && (s'.done == s.done || s'.done == None)
            && (s'.first == s.first || s'.first == None)
            && FrozenAt(s', r, Running(job, PointNext(s, r, job, point, step)))
  {
    assert FrozenAt(s, r, Running(job, point));
  }

  lemma FrozenLockStep(s: State, step: Step)
    requires Frozen(s) && PointsFit(s) && Enabled(s, step) && !Works(step)
    ensures FrozenAt(Effect(s, step), step.run, NextPc(s, step)) && !step.Record?
    ensures AwaitsFirst(NextPc(s, step)) ==> step.Submit? || (step.run in s.pcs && AwaitsFirst(s.pcs[step.run]))
    ensures step.run in s.pcs ==> s.pcs[step.run] == Dead ==> NextPc(s, step) == Dead
  {
    if step.run in s.pcs { assert FrozenAt(s, step.run, s.pcs[step.run]) && PointOfJob(s.pcs[step.run]); }
    OthersDoNotWork(s, step);
  }

  lemma FrozenOthers(s: State, s': State, r: RunId, pc: Pc)
    requires FrozenAt(s, r, pc) && (ProducerFit(s.data) ==> ProducerFit(s'.data))
    requires Indexable(s'.data) ==> Indexable(s.data)
    requires ReadyIs(s', r) ==> ReadyIs(s, r)
    ensures FrozenAt(s', r, pc)
  {
  }

  lemma WorkAwaitsFirst(s: State, step: Step)
    requires PointsFit(s) && Enabled(s, step) && Works(step) && AwaitsFirst(NextPc(s, step))
    ensures step.run in s.pcs && AwaitsFirst(s.pcs[step.run])
  {
    assert PointOfJob(s.pcs[step.run]);
  }

  /** The step leaves its own run frozen, and the others what they saw. */
  lemma FrozenEffect(s: State, step: Step)
    requires Guarded(s) && Frozen(s) && Enabled(s, step)
    ensures FrozenAt(Effect(s, step), step.run, NextPc(s, step))
    ensures ProducerFit(s.data) ==> ProducerFit(Effect(s, step).data)
    ensures Indexable(Effect(s, step).data) ==> Indexable(s.data)
    ensures forall q | q != step.run && ReadyIs(Effect(s, step), q) :: ReadyIs(s, q)
  {
    var r := step.run;
    if Works(step) {
      assert HoldsAt(s, r, s.pcs[r]) && PointOfJob(s.pcs[r]);
      FrozenWork(s, r, s.pcs[r].job, s.pcs[r].point, step);
    } else {
      OthersDoNotWork(s, step);
      FrozenLockStep(s, step);
    }
  }

  lemma FrozenFilesStay(s: State, step: Step)
    requires Guarded(s) && Frozen(s) && Enabled(s, step)
    ensures FrozenFiles(Next(s, step))
  {
    var r := step.run;
    if Works(step) {
      assert HoldsAt(s, r, s.pcs[r]) && PointOfJob(s.pcs[r]);
      FrozenWork(s, r, s.pcs[r].job, s.pcs[r].point, step);
      if AwaitsFirst(NextPc(s, step)) { WorkAwaitsFirst(s, step); }
      WorkersLive(s, step);
    } else {
      OthersDoNotWork(s, step);
      FrozenLockStep(s, step);
    }
    SameFiles(s, Effect(s, step), Next(s, step), step.run);
  }

  lemma WorkersLive(s: State, step: Step)
    requires Enabled(s, step) && Works(step)
    ensures step.run in s.pcs && s.pcs[step.run] != Dead
  {
  }

  lemma SameFiles(s: State, e: State, s': State, r: RunId)
    requires FrozenFiles(s) && e.pcs == s.pcs && r in s'.pcs && s' == Go(e, r, s'.pcs[r])
    requires Wedged(e.data) && (LooksEmpty(e.data) ==> LooksEmpty(s.data))
    requires (e.done == s.done || e.done == None) && (e.first == s.first || e.first == None)
    requires At(s, r, Dead) ==> s'.pcs[r] == Dead
    requires AwaitsFirst(s'.pcs[r]) ==> r !in s.pcs || AwaitsFirst(s.pcs[r])
    ensures FrozenFiles(s')
  {
  }

  lemma {:induction false} FrozenStays(s: State, step: Step)
    requires Guarded(s) && Frozen(s) && Enabled(s, step)
    ensures Frozen(Next(s, step))
  {
    var s', r := Next(s, step), step.run;
    FrozenFilesStay(s, step);
    FrozenEffect(s, step);
    forall q | q in s'.pcs
      ensures FrozenAt(s', q, s'.pcs[q])
    {
      if q != r {
        OthersStay(s, step, q);
        FrozenOthers(s, s', q, s.pcs[q]);
      } else {
        FrozenElsewhere(Effect(s, step), s', r, NextPc(s, step));
      }
    }
  }

  lemma FrozenElsewhere(s: State, s': State, r: RunId, pc: Pc)
    requires FrozenAt(s, r, pc) && s' == s.(pcs := s'.pcs)
    ensures FrozenAt(s', r, pc)
  {
  }

  /** A restore that leaves such data alone freezes it: its locks keep every working job away. */
  lemma SkippingFreezes(s: State, step: Step)
    requires Guarded(s) && Enabled(s, step) && step.SkipRestore? && Wedged(s.data)
    ensures Frozen(Next(s, step))
  {
    var s', r := Next(s, step), step.run;
    assert HoldsAt(s, r, s.pcs[r]) && PointOfJob(s.pcs[r]) && HoldsExclusive(s.pcs[r]);
    forall q | q in s'.pcs
      ensures FrozenAt(s', q, s'.pcs[q])
    {
      if q != r {
        OthersStay(s, step, q);
        AwayFromWork(s, r, q);
      }
    }
  }

  /** While a job holds both locks and owns the dataset, the others only wait for locks. */
  lemma AwayFromWork(s: State, r: RunId, q: RunId)
    requires Guarded(s) && r in s.pcs && q in s.pcs && q != r
    requires HoldsExclusive(s.pcs[r]) && OwnsDataset(s.pcs[r])
    ensures !OwnsDataset(s.pcs[q]) && !HoldsExclusive(s.pcs[q]) && !HoldsShared(s.pcs[q])
    ensures !ReadyIs(s, q) || !Active(s, q) ==> FrozenAt(s, q, s.pcs[q])
  {
    assert PointOfJob(s.pcs[q]);
  }

  // ------------------------------------------------------------------ over whole executions

  /** restore.json is the run's only once its restore has decided. */
  ghost predicate FirstDecided(s: State) {
    s.first.Some? ==> s.first.value in s.pcs && Decided(s.pcs[s.first.value])
  }

  predicate Decided(pc: Pc) {
    pc != Queued(Restore) && (pc.Running? && pc.job == Restore ==> pc.point == Ending || pc.point == Released)
  }

  /** A run that has decided does not decide again. */
  lemma DecidedStays(s: State, step: Step)
    requires PointsFit(s) && FirstDecided(s) && Enabled(s, step) && s.first == Some(step.run)
    ensures Decided(NextPc(s, step))
  {
    assert PointOfJob(s.pcs[step.run]);
  }

  lemma FirstDecidedKept(s: State, step: Step)
    requires PointsFit(s) && FirstDecided(s) && Enabled(s, step)
    ensures FirstDecided(Next(s, step))
  {
    if s.first == Some(step.run) { DecidedStays(s, step); }
    if !Works(step) { OthersDoNotWork(s, step); }
  }

  /** At most one run is on its way to a checkpoint, or none ever will be. */
  ghost predicate Safe(s: State) {
    && Guarded(s)
    && FirstDecided(s)
    && (Frozen(s) || (RestoresAlone(s) && OneActive(s) && CheckpointedIsBacked(s) && DoneIsBacked(s)))
  }

  lemma {:induction false} SafeKept(s: State, step: Step)
    requires Safe(s) && Enabled(s, step) && Calm(s, step) && Guarded(Next(s, step))
    ensures Safe(Next(s, step))
  {
    FirstDecidedKept(s, step);
    if Frozen(s) {
      FrozenStays(s, step);
    } else if step.SkipRestore? && Wedged(s.data) {
      SkippingFreezes(s, step);
    } else {
      RestoresAloneKept(s, step);
      OneActiveKept(s, step);
      CheckpointedKept(s, step);
      DoneIsBackedKept(s, step);
    }
  }

  lemma {:induction false} SafeAlways(steps: seq<Step>)
    requires Execution(steps) && CalmThroughout(steps)
    ensures Safe(Reached(steps))
    decreases |steps|
  {
    GuardedAlways(steps);
    if steps != [] {
      SafeAlways(steps[..|steps| - 1]);
      SafeKept(Reached(steps[..|steps| - 1]), steps[|steps| - 1]);
    }
  }

  /** Once frozen, always frozen, whatever any run does. */
  lemma {:induction false} FrozenForGood(steps: seq<Step>, more: seq<Step>)
    requires Execution(steps) && Execution(more) && steps <= more && Frozen(Reached(steps))
    ensures Frozen(Reached(more))
    decreases |more|
  {
    if |steps| < |more| {
      var before := more[..|more| - 1];
      FrozenForGood(steps, before);
      GuardedAlways(before);
      FrozenStays(Reached(before), more[|more| - 1]);
    } else {
      assert more == steps;
    }
  }

  // --------------------------------------------------------------------- main results

  predicate Discards(step: Step) {
    step.MoveAside? || step.EndDiscard?
  }

  /**
   Over every execution of any number of runs in which no restore after which the jobs can go on
   starts beside a run that waits for its producer: nothing of the working dataset is deleted
   unless S3 holds all three backups, each manifest with its own archive, from one run whose
   checkpoint published its last backup.
   */
  lemma DiscardsOnlyWhatIsBacked(steps: seq<Step>, step: Step) returns (q: RunId)
    requires Execution(steps) && CalmThroughout(steps) && Enabled(Reached(steps), step) && Discards(step)
    ensures BackedBy(Reached(steps), q)
    ensures Reached(steps).pcs[step.run].job == Clear ==> q == step.run
  {
    SafeAlways(steps);
    var s := Reached(steps);
    assert PointOfJob(s.pcs[step.run]) && HoldsAt(s, step.run, s.pcs[step.run]);
    assert !FrozenAt(s, step.run, s.pcs[step.run]);
    if s.pcs[step.run].job == Clear {
      q := step.run;
    } else {
      MatchingIsBacked(s);
      q := s.slots[2].manifest.value.run;
    }
  }

  /** A restore needs no premise for that: its lock keeps every checkpoint out while it discards and fills. */
  lemma RestoreUsesOneCheckpoint(steps: seq<Step>, step: Step) returns (q: RunId)
    requires Execution(steps) && Enabled(Reached(steps), step)
    requires Discards(step) || step.FillPiece? || step.EndFill?
    requires Reached(steps).pcs[step.run].job == Restore
    ensures BackedBy(Reached(steps), q)
  {
    GuardedAlways(steps);
    var s := Reached(steps);
    assert HoldsAt(s, step.run, s.pcs[step.run]);
    MatchingIsBacked(s);
    q := s.slots[2].manifest.value.run;
  }

  // -------------------------------------------------------------- where a kill does harm

  lemma ClearingLeaves(d: Data)
    requires InOrder(d) && !d.unfinished
    ensures Wedged(d) <==> !Whole(d) && d.parts != {}
  {
    if Parsed !in d.parts {
      forall part
        ensures part !in d.parts
      {
        match part
        case Core =>
        case ArchiveState =>
        case Scanner =>
        case Config =>
        case FileList =>
        case IndexManifest =>
        case Parsed =>
      }
    }
  }

  /** A clear job that is killed leaves a dataset of no use exactly between its first and its last rename. */
  lemma KilledClearExactlyWhen(steps: seq<Step>, r: RunId)
    requires Execution(steps) && CalmThroughout(steps) && At(Reached(steps), r, Running(Clear, Discarding))
    ensures var d := Reached(steps).data; Wedged(d) <==> !Whole(d) && d.parts != {}
    ensures Wedged(Reached(steps).data) <==> Frozen(Next(Reached(steps), Die(r)))
  {
    SafeAlways(steps);
    ClearingIsOrderly(Reached(steps), r);
    ClearingLeaves(Reached(steps).data);
    KilledFreezes(Reached(steps), r);
  }

  lemma ClearingIsOrderly(s: State, r: RunId)
    requires Safe(s) && At(s, r, Running(Clear, Discarding))
    ensures InOrder(s.data) && !s.data.unfinished && s.done == Some(r)
    ensures forall q | q in s.pcs :: !Active(s, q)
    ensures s.first.Some? ==> s.first.value in s.pcs && !AwaitsFirst(s.pcs[s.first.value])
  {
    assert !FrozenAt(s, r, s.pcs[r]) && HoldsAt(s, r, s.pcs[r]);
    if s.first.Some? { assert !Active(s, s.first.value); }
  }

  /** Past its kill the run itself is out of the way, and its locks kept the others from working. */
  lemma KilledFreezes(s: State, r: RunId)
    requires Guarded(s) && r in s.pcs && HoldsExclusive(s.pcs[r]) && OwnsDataset(s.pcs[r])
    requires forall q | q in s.pcs && q != r :: !ReadyIs(s, q) || !Active(s, q)
    requires s.done.Some? ==> s.done.value == r
    requires s.first.Some? ==> s.first.value in s.pcs && !AwaitsFirst(s.pcs[s.first.value])
    ensures Frozen(Next(s, Die(r))) <==> Wedged(s.data)
  {
    var s' := Next(s, Die(r));
    forall q | q in s'.pcs
      ensures FrozenAt(s', q, s'.pcs[q])
    {
      if q != r {
        OthersStay(s, Die(r), q);
        AwayFromWork(s, r, q);
      }
    }
  }

  /**
   A restore that is killed while it fills leaves a dataset of no use exactly between its first
   and its last rename, unless the index has not been touched and the Core backup was never pruned.
   */
  lemma KilledFillExactlyWhen(steps: seq<Step>, r: RunId)
    requires Execution(steps) && At(Reached(steps), r, Running(Restore, Filling))
    ensures var d := Reached(steps).data;
            Wedged(d) <==>
              !Whole(d) && d.parts != {} && !(Core in d.parts && d.genesis && Config !in d.parts && Parsed !in d.parts)
    ensures Wedged(Reached(steps).data) <==> Frozen(Next(Reached(steps), Die(r)))
  {
    GuardedAlways(steps);
    var s := Reached(steps);
    assert HoldsAt(s, r, s.pcs[r]);
    KilledFreezes(s, r);
  }

  /** A restore that is killed while it discards does no harm: the next one starts over. */
  lemma KilledDiscardGoesOn(steps: seq<Step>, r: RunId)
    requires Execution(steps) && At(Reached(steps), r, Running(Restore, Discarding))
    ensures GoesOn(Next(Reached(steps), Die(r)))
  {
    GuardedAlways(steps);
    assert HoldsAt(Reached(steps), r, Reached(steps).pcs[r]);
  }

  /** What stays undone in a frozen state: nothing is indexed, backed up, restored, cleared or recorded. */
  lemma FrozenMeansNothingMoves(s: State, step: Step)
    requires Guarded(s) && Frozen(s) && Enabled(s, step)
    ensures !step.MarkIndex? && !step.Index? && !step.BeginBackups? && !step.BackUp? && !step.Record?
    ensures !step.FillPiece? && !step.EndFill? && !step.MoveAside? && !step.EndDiscard?
  {
    if step.run in s.pcs { assert PointOfJob(s.pcs[step.run]) && FrozenAt(s, step.run, s.pcs[step.run]); }
  }

  // ----------------------------------------------------- synchronizations that cannot finish

  /** The restore fails, or has failed. */
  ghost predicate Stuck(s: State, r: RunId) {
    r in s.pcs && (s.pcs[r] == Dead || (Resetting(s.pcs[r]) && !CanFinish(s)))
  }

  lemma StuckStays(s: State, step: Step, r: RunId)
    requires Guarded(s) && Stuck(s, r) && Enabled(s, step)
    ensures Stuck(Next(s, step), r)
  {
    if r != step.run { OthersStay(s, step, r); }
    if Resetting(s.pcs[r]) {
      FinishingIsDecided(s, step, r);
      if r == step.run { CannotDecide(s, step); }
    }
  }

  lemma CannotDecide(s: State, step: Step)
    requires Enabled(s, step) && step.run in s.pcs && Resetting(s.pcs[step.run]) && |s.slots| == 3 && !CanFinish(s)
    ensures NextPc(s, step) == Dead || Resetting(NextPc(s, step))
  {
  }

  /** Whatever else happens, a restore that cannot go through when it holds the locks never does. */
  lemma {:induction false} StuckForGood(steps: seq<Step>, more: seq<Step>, r: RunId)
    requires Execution(steps) && Execution(more) && steps <= more && Stuck(Reached(steps), r)
    ensures Stuck(Reached(more), r)
    decreases |more|
  {
    if |steps| < |more| {
      var before := more[..|more| - 1];
      StuckForGood(steps, before, r);
      GuardedAlways(before);
      StuckStays(Reached(before), more[|more| - 1], r);
    } else {
      assert more == steps;
    }
  }

  predicate BeforeIndex(pc: Pc) {
    match pc
    case Queued(job) => job == Producer || job == Blocksci
    case Running(Restore, point) => point == Ending || point == Released
    case Running(Producer, _) => true
    case Running(Blocksci, point) => point == Locked || point == Claiming || point == Owning
    case Dead => true
    case _ => false
  }

  /** The run has failed, or will. */
  ghost predicate Doomed(s: State, r: RunId) {
    && r in s.pcs
    && (|| s.pcs[r] == Dead
        || (Resetting(s.pcs[r]) && !GoesOn(s))
        || (Frozen(s) && BeforeIndex(s.pcs[r])))
  }

  lemma ResettingGoesOn(s: State, step: Step)
    requires Enabled(s, step) && step.run in s.pcs && Resetting(s.pcs[step.run]) && |s.slots| == 3 && !GoesOn(s)
    ensures || NextPc(s, step) == Dead || Resetting(NextPc(s, step))
            || (step.SkipRestore? && Wedged(s.data) && NextPc(s, step) == Running(Restore, Ending))
  {
  }

  lemma FrozenBeforeIndex(s: State, step: Step)
    requires Guarded(s) && Frozen(s) && Enabled(s, step) && step.run in s.pcs && BeforeIndex(s.pcs[step.run])
    ensures BeforeIndex(NextPc(s, step))
  {
    FrozenMeansNothingMoves(s, step);
    assert PointOfJob(s.pcs[step.run]) && FrozenAt(s, step.run, s.pcs[step.run]);
  }

  lemma DoomedStays(s: State, step: Step, r: RunId)
    requires Guarded(s) && Doomed(s, r) && Enabled(s, step)
    ensures Doomed(Next(s, step), r)
  {
    if r != step.run { OthersStay(s, step, r); }
    if Resetting(s.pcs[r]) {
      FinishingIsDecided(s, step, r);
      if r == step.run {
        ResettingGoesOn(s, step);
        if step.SkipRestore? && Wedged(s.data) { SkippingFreezes(s, step); }
      }
    } else if s.pcs[r] != Dead {
      FrozenStays(s, step);
      if r == step.run { FrozenBeforeIndex(s, step); }
    }
  }

  /** Whatever else happens, a doomed run stays doomed. */
  lemma {:induction false} DoomedForGood(steps: seq<Step>, more: seq<Step>, r: RunId)
    requires Execution(steps) && Execution(more) && steps <= more && Doomed(Reached(steps), r)
    ensures Doomed(Reached(more), r)
    decreases |more|
  {
    if |steps| < |more| {
      var before := more[..|more| - 1];
      DoomedForGood(steps, before, r);
      GuardedAlways(before);
      DoomedStays(Reached(before), more[|more| - 1], r);
    } else {
      assert more == steps;
    }
  }
}
