/**
 Concrete executions of the synchronization: one that nothing disturbs reaches its end, and
 one that shows why a restore must not start between another run's restore and checkpoint.
*/
module MainnetSyncRuns {
  import opened Common
  import opened MainnetSync
  import opened MainnetSyncSafety

  /** No job holds a lock. */
  predicate Quiet(s: State) {
    s.writer == None && s.readers == {} && s.dataset == Free && |s.slots| == 3
  }

  /** Names what holds of a whole execution, so that the step-by-step proofs need not unfold it. */
  ghost predicate Looked(at: nat) {
    true
  }

  /** The steps go on from `base`, calmly, and lead to `s`, except that run `r` has got to `pc`. */
  ghost predicate Leads(steps: seq<Step>, base: seq<Step>, s: State, r: RunId, pc: Pc) {
    forall at {:trigger Looked(at)} ::
      base <= steps && Execution(steps) && CalmFrom(steps, |base|) && Reached(steps) == Go(s, r, pc)
  }

  lemma LastApart(steps: seq<Step>, step: Step)
    ensures (steps + [step])[..|steps + [step]| - 1] == steps && (steps + [step])[|steps + [step]| - 1] == step
  {
  }

  lemma OneMoreStep(steps: seq<Step>, step: Step)
    requires Execution(steps) && Enabled(Reached(steps), step)
    ensures Execution(steps + [step]) && Reached(steps + [step]) == Next(Reached(steps), step)
  {
    LastApart(steps, step);
  }

  lemma CalmOneMoreStep(steps: seq<Step>, from: nat, step: Step)
    requires Execution(steps) && Execution(steps + [step])
    requires CalmFrom(steps, from) && Calm(Reached(steps), step)
    ensures CalmFrom(steps + [step], from)
  {
    LastApart(steps, step);
  }

  lemma Then(steps: seq<Step>, base: seq<Step>, s: State, was: Pc, step: Step, s': State, pc: Pc)
    returns (more: seq<Step>)
    requires Leads(steps, base, s, step.run, was) && s'.pcs == s.pcs
    requires Enabled(Go(s, step.run, was), step) && Calm(Go(s, step.run, was), step)
    requires Next(Go(s, step.run, was), step) == Go(s', step.run, pc)
    ensures Leads(more, base, s', step.run, pc)
  {
    assert Looked(0);
    OneMoreStep(steps, step);
    CalmOneMoreStep(steps, |base|, step);
    more := steps + [step];
  }

  /** A job's own work sees neither locks nor program counters. */
  lemma WorkMayGo(s: State, r: RunId, job: Job, point: Point, step: Step, pc: Pc)
    requires MayWork(s, r, job, point, step)
    ensures MayWork(Go(s, r, pc), r, job, point, step)
    ensures PointNext(Go(s, r, pc), r, job, point, step) == PointNext(s, r, job, point, step)
  {
  }

  lemma WorkGoes(s: State, r: RunId, job: Job, point: Point, step: Step, pc: Pc)
    requires MayWork(s, r, job, point, step) && MayWork(Go(s, r, pc), r, job, point, step)
    ensures Worked(Go(s, r, pc), r, job, point, step) == Go(Worked(s, r, job, point, step), r, pc)
  {
  }

  lemma WorkNext(s: State, r: RunId, job: Job, point: Point, step: Step)
    requires Works(step) && MayWork(s, r, job, point, step) && step.run == r
    ensures var here := Go(s, r, Running(job, point));
            && Enabled(here, step) && Calm(here, step)
            && Next(here, step)
               == Go(Worked(s, r, job, point, step), r, Running(job, PointNext(s, r, job, point, step)))
  {
    WorkMayGo(s, r, job, point, step, Running(job, point));
    WorkGoes(s, r, job, point, step, Running(job, point));
    Redirected(Worked(s, r, job, point, step), r, Running(job, point),
               Running(job, PointNext(s, r, job, point, step)));
  }

  lemma ThenWork(steps: seq<Step>, base: seq<Step>, s: State, r: RunId, job: Job, point: Point, step: Step,
                 s': State, point': Point)
    returns (more: seq<Step>)
    requires Leads(steps, base, s, r, Running(job, point)) && step.run == r
    requires Works(step) && MayWork(s, r, job, point, step)
    requires Worked(s, r, job, point, step) == s' && PointNext(s, r, job, point, step) == point'
    ensures Leads(more, base, s', r, Running(job, point'))
  {
    WorkNext(s, r, job, point, step);
    more := Then(steps, base, s, Running(job, point), step, s', Running(job, point'));
  }

  function Held(s: State, r: RunId, job: Job): State {
    if Exclusive(job) then s.(writer := Some(r), dataset := Taken(r, true))
    else s.(readers := {r}, dataset := Taken(r, true))
  }

  lemma Redirected(s: State, r: RunId, was: Pc, pc: Pc)
    ensures Go(Go(s, r, was), r, pc) == Go(s, r, pc)
  {
    assert s.pcs[r := was][r := pc] == s.pcs[r := pc];
  }

  lemma TakesIndexLock(steps: seq<Step>, base: seq<Step>, s: State, r: RunId, job: Job) returns (more: seq<Step>)
    requires Quiet(s) && Leads(steps, base, s, r, Queued(job)) && (Exclusive(job) || job == Checkpoint)
    ensures Leads(more, base, Held(s, r, job).(dataset := Free), r, Running(job, Locked))
  {
    Redirected(s, r, Queued(job), Running(job, Locked));
    more := Then(steps, base, s, Queued(job), LockIndex(r), Held(s, r, job).(dataset := Free), Running(job, Locked));
  }

  lemma Claims(steps: seq<Step>, base: seq<Step>, s: State, r: RunId, job: Job, was: Pc) returns (more: seq<Step>)
    requires s.dataset == Free && Leads(steps, base, s, r, was) && (job == Restore ==> NobodyProducing(s, r))
    requires was == Running(job, Locked) || (job == Producer && was == Queued(Producer))
    ensures Leads(more, base, s.(dataset := Taken(r, false)), r, Running(job, Claiming))
  {
    Redirected(s, r, was, Running(job, Claiming));
    assert job == Restore ==> NobodyProducing(Go(s, r, was), r);
    more := Then(steps, base, s, was, Claim(r), s.(dataset := Taken(r, false)), Running(job, Claiming));
  }

  lemma Names(steps: seq<Step>, base: seq<Step>, s: State, r: RunId, job: Job) returns (more: seq<Step>)
    requires Leads(steps, base, s, r, Running(job, Claiming))
    ensures Leads(more, base, s.(dataset := Taken(r, true)), r, Running(job, Owning))
  {
    Redirected(s, r, Running(job, Claiming), Running(job, Owning));
    more := Then(steps, base, s, Running(job, Claiming), MainnetSync.Name(r), s.(dataset := Taken(r, true)),
                 Running(job, Owning));
  }

  lemma Releases(steps: seq<Step>, base: seq<Step>, s: State, r: RunId, job: Job) returns (more: seq<Step>)
    requires Leads(steps, base, s, r, Running(job, Ending))
    ensures Leads(more, base, s.(dataset := Free), r,
                  if job == Producer then Queued(Blocksci) else Running(job, Released))
  {
    var pc := if job == Producer then Queued(Blocksci) else Running(job, Released);
    Redirected(s, r, Running(job, Ending), pc);
    more := Then(steps, base, s, Running(job, Ending), Release(r), s.(dataset := Free), pc);
  }

  lemma Unlocks(steps: seq<Step>, base: seq<Step>, s: State, r: RunId, job: Job) returns (more: seq<Step>)
    requires Leads(steps, base, s, r, Running(job, if job == Checkpoint then Recorded else Released))
    ensures Leads(more, base, Unlocked(s, r), r, After(job))
  {
    var pc := Running(job, if job == Checkpoint then Recorded else Released);
    Redirected(s, r, pc, After(job));
    more := Then(steps, base, s, pc, Unlock(r), Unlocked(s, r), After(job));
  }

  lemma Records(steps: seq<Step>, base: seq<Step>, s: State, r: RunId) returns (more: seq<Step>)
    requires Leads(steps, base, s, r, Running(Checkpoint, Released))
    ensures Leads(more, base, s.(done := Some(r)), r, Running(Checkpoint, Recorded))
  {
    Redirected(s, r, Running(Checkpoint, Released), Running(Checkpoint, Recorded));
    more := Then(steps, base, s, Running(Checkpoint, Released), Record(r), s.(done := Some(r)),
                 Running(Checkpoint, Recorded));
  }

  lemma Packs(steps: seq<Step>, base: seq<Step>, s: State, r: RunId) returns (more: seq<Step>)
    requires Leads(steps, base, s, r, Queued(Pack)) && s.done == Some(r)
    ensures Leads(more, base, s, r, Queued(Clear))
  {
    Redirected(s, r, Queued(Pack), Queued(Clear));
    more := Then(steps, base, s, Queued(Pack), PackBlocks(r), s, Queued(Clear));
  }

  lemma Dies(steps: seq<Step>, base: seq<Step>, s: State, r: RunId, was: Pc) returns (more: seq<Step>)
    requires Leads(steps, base, s, r, was) && was.Running?
    ensures Leads(more, base, s, r, Dead)
  {
    Redirected(s, r, was, Dead);
    more := Then(steps, base, s, was, Die(r), s, Dead);
  }

  lemma Expires(steps: seq<Step>, base: seq<Step>, s: State, r: RunId) returns (more: seq<Step>)
    requires Leads(steps, base, s, r, Dead)
    ensures Leads(more, base, Unlocked(s, r), r, Dead)
  {
    Redirected(s, r, Dead, Dead);
    more := Then(steps, base, s, Dead, Expire(r), Unlocked(s, r), Dead);
  }

  lemma IsFreed(steps: seq<Step>, base: seq<Step>, s: State, r: RunId) returns (more: seq<Step>)
    requires Leads(steps, base, s, r, Dead) && s.dataset == Taken(r, true)
    ensures Leads(more, base, s.(dataset := Free), r, Dead)
  {
    Redirected(s, r, Dead, Dead);
    more := Then(steps, base, s, Dead, HandleFailure(r), s.(dataset := Free), Dead);
  }

  /** Both locks, the index lock first. */
  lemma TakesLocks(steps: seq<Step>, base: seq<Step>, s: State, r: RunId, job: Job) returns (more: seq<Step>)
    requires Quiet(s) && Leads(steps, base, s, r, Queued(job)) && (Exclusive(job) || job == Checkpoint)
    requires job == Restore ==> NobodyProducing(s, r)
    ensures Leads(more, base, Held(s, r, job), r, Running(job, Owning))
  {
    var locked := Held(s, r, job).(dataset := Free);
    more := TakesIndexLock(steps, base, s, r, job);
    more := Claims(more, base, locked, r, job, Running(job, Locked));
    more := Names(more, base, locked.(dataset := Taken(r, false)), r, job);
  }

  lemma FreesLocks(steps: seq<Step>, base: seq<Step>, s: State, r: RunId, job: Job) returns (more: seq<Step>)
    requires Quiet(s) && Leads(steps, base, Held(s, r, job), r, Running(job, Ending)) && Exclusive(job)
    ensures Leads(more, base, s, r, After(job))
  {
    more := Releases(steps, base, Held(s, r, job), r, job);
    assert s.readers - {r} == s.readers;
    more := Unlocks(more, base, s.(writer := Some(r)), r, job);
  }

  const ALL_PARTS := {Core, ArchiveState, Scanner, Config, FileList, IndexManifest, Parsed}

  /** What a restore that goes through leaves behind. */
  function Restored(s: State, r: RunId): State
    requires |s.slots| == 3
  {
    var reset := s.(ready := None, done := None, first := None);
    if s.data.unfinished || (s.data.parts == {} && BackupsMatch(s))
    then reset.(data := Data(ALL_PARTS, s.unpruned, false, s.slots[0].manifest))
    else if s.data.parts == {} then reset.(first := Some(r))
    else reset
  }

  function NextToMove(d: Data): Part
    requires d.parts != {}
  {
    if Core in d.parts then Core else if ArchiveState in d.parts then ArchiveState
    else if Scanner in d.parts then Scanner else if Config in d.parts then Config
    else if FileList in d.parts then FileList else if IndexManifest in d.parts then IndexManifest
    else Parsed
  }

  lemma SomethingMoves(d: Data)
    requires d.parts != {}
    ensures MayMove(d, NextToMove(d)) && |Moved(d, NextToMove(d)).parts| < |d.parts|
  {
    var part :| part in d.parts;
    match part
    case Core =>
    case ArchiveState =>
    case Scanner =>
    case Config =>
    case FileList =>
    case IndexManifest =>
    case Parsed =>
  }

  /** Everything moves aside, piece by piece. */
  lemma {:induction false} MovesAside(steps: seq<Step>, base: seq<Step>, s: State, r: RunId, job: Job)
    returns (more: seq<Step>, d: Data)
    requires Leads(steps, base, s, r, Running(job, Discarding))
    ensures Leads(more, base, s.(data := d), r, Running(job, Discarding)) && d.parts == {}
    decreases |s.data.parts|
  {
    if s.data.parts == {} {
      more, d := steps, s.data;
    } else {
      var part := NextToMove(s.data);
      SomethingMoves(s.data);
      var t := s.(data := Moved(s.data, part));
      more := ThenWork(steps, base, s, r, job, Discarding, MoveAside(r, part), t, Discarding);
      more, d := MovesAside(more, base, t, r, job);
    }
  }

  lemma Places(steps: seq<Step>, base: seq<Step>, s: State, r: RunId, part: Part) returns (more: seq<Step>)
    requires |s.slots| == 3 && Leads(steps, base, s, r, Running(Restore, Filling)) && MayPlace(s.data, part)
    ensures Leads(more, base, s.(data := Placed(s.data, part, s.unpruned, s.slots[0].manifest)), r,
                  Running(Restore, Filling))
  {
    more := ThenWork(steps, base, s, r, Restore, Filling, FillPiece(r, part),
                     s.(data := Placed(s.data, part, s.unpruned, s.slots[0].manifest)), Filling);
  }

  function Rooted(d: Data, unpruned: bool, index: Option<Manifest>): Data {
    Placed(Placed(Placed(d, Core, unpruned, index), ArchiveState, unpruned, index), Scanner, unpruned, index)
  }

  lemma PlacesRoot(steps: seq<Step>, base: seq<Step>, s: State, r: RunId) returns (more: seq<Step>)
    requires |s.slots| == 3 && Leads(steps, base, s, r, Running(Restore, Filling)) && s.data.parts == {}
    ensures Leads(more, base, s.(data := Rooted(s.data, s.unpruned, s.slots[0].manifest)), r, Running(Restore, Filling))
  {
    var index := s.slots[0].manifest;
    more := Places(steps, base, s, r, Core);
    var one := Placed(s.data, Core, s.unpruned, index);
    more := Places(more, base, s.(data := one), r, ArchiveState);
    more := Places(more, base, s.(data := Placed(one, ArchiveState, s.unpruned, index)), r, Scanner);
  }

  function IndexPlaced(d: Data, unpruned: bool, index: Option<Manifest>): Data {
    Placed(Placed(Placed(Placed(d, Config, unpruned, index), FileList, unpruned, index),
                  IndexManifest, unpruned, index), Parsed, unpruned, index)
  }

  lemma PlacesIndex(steps: seq<Step>, base: seq<Step>, s: State, r: RunId) returns (more: seq<Step>)
    requires |s.slots| == 3 && Leads(steps, base, s, r, Running(Restore, Filling)) && HasRoot(s.data)
    requires Config !in s.data.parts && FileList !in s.data.parts
    requires IndexManifest !in s.data.parts && Parsed !in s.data.parts
    ensures Leads(more, base, s.(data := IndexPlaced(s.data, s.unpruned, s.slots[0].manifest)), r,
                  Running(Restore, Filling))
  {
    var index := s.slots[0].manifest;
    more := Places(steps, base, s, r, Config);
    var one := Placed(s.data, Config, s.unpruned, index);
    more := Places(more, base, s.(data := one), r, FileList);
    var two := Placed(one, FileList, s.unpruned, index);
    more := Places(more, base, s.(data := two), r, IndexManifest);
    more := Places(more, base, s.(data := Placed(two, IndexManifest, s.unpruned, index)), r, Parsed);
  }

  /** An unfinished index is discarded first. */
  lemma BeginsToFill(steps: seq<Step>, base: seq<Step>, s: State, r: RunId) returns (more: seq<Step>, d: Data)
    requires |s.slots| == 3 && Leads(steps, base, s, r, Running(Restore, Checking))
    requires BackupsMatch(s) && (s.data.unfinished || s.data.parts == {})
    ensures Leads(more, base, s.(data := d), r, Running(Restore, Filling)) && d.parts == {} && !d.unfinished
  {
    if s.data.unfinished {
      more := ThenWork(steps, base, s, r, Restore, Checking, BeginDiscard(r), s, Discarding);
      more, d := MovesAside(more, base, s, r, Restore);
      more := ThenWork(more, base, s.(data := d), r, Restore, Discarding, EndDiscard(r), s.(data := NO_DATA), Filling);
      d := NO_DATA;
    } else {
      more := ThenWork(steps, base, s, r, Restore, Checking, BeginFill(r), s, Filling);
      d := s.data;
    }
  }

  lemma PlacesAll(steps: seq<Step>, base: seq<Step>, s: State, r: RunId) returns (more: seq<Step>)
    requires |s.slots| == 3 && Leads(steps, base, s, r, Running(Restore, Filling))
    requires s.data.parts == {} && !s.data.unfinished
    ensures Leads(more, base, s.(data := Data(ALL_PARTS, s.unpruned, false, s.slots[0].manifest)), r,
                  Running(Restore, Filling))
  {
    var index := s.slots[0].manifest;
    more := PlacesRoot(steps, base, s, r);
    var rooted := Rooted(s.data, s.unpruned, index);
    more := PlacesIndex(more, base, s.(data := rooted), r);
    assert IndexPlaced(rooted, s.unpruned, index).parts == ALL_PARTS;
  }

  /** Then the backups are renamed into place, one by one. */
  lemma Refills(steps: seq<Step>, base: seq<Step>, s: State, r: RunId) returns (more: seq<Step>)
    requires |s.slots| == 3 && Leads(steps, base, s, r, Running(Restore, Checking))
    requires BackupsMatch(s) && (s.data.unfinished || s.data.parts == {})
    ensures Leads(more, base, s.(data := Data(ALL_PARTS, s.unpruned, false, s.slots[0].manifest)), r,
                  Running(Restore, Ending))
  {
    var d;
    more, d := BeginsToFill(steps, base, s, r);
    more := PlacesAll(more, base, s.(data := d), r);
    var full := s.(data := Data(ALL_PARTS, s.unpruned, false, s.slots[0].manifest));
    more := ThenWork(more, base, full, r, Restore, Filling, EndFill(r), full, Ending);
  }

  lemma Resets(steps: seq<Step>, base: seq<Step>, s: State, r: RunId, dataset: DatasetLock) returns (more: seq<Step>)
    requires Leads(steps, base, s.(writer := Some(r), dataset := dataset), r, Running(Restore, Claiming))
    ensures Leads(more, base, Held(s, r, Restore).(ready := None, done := None, first := None), r,
                  Running(Restore, Checking))
  {
    var owned := Held(s, r, Restore);
    more := Names(steps, base, s.(writer := Some(r), dataset := dataset), r, Restore);
    more := ThenWork(more, base, owned, r, Restore, Owning, RemoveReady(r), owned.(ready := None), ResetReady);
    owned := owned.(ready := None);
    more := ThenWork(more, base, owned, r, Restore, ResetReady, RemoveDone(r), owned.(done := None), ResetDone);
    owned := owned.(done := None);
    more := ThenWork(more, base, owned, r, Restore, ResetDone, RemoveRestore(r), owned.(first := None), Checking);
  }

  /** A restore that holds both locks and can go through does. */
  lemma RestoreFinishes(steps: seq<Step>, base: seq<Step>, s: State, r: RunId, dataset: DatasetLock)
    returns (more: seq<Step>)
    requires Quiet(s) && CanFinish(s)
    requires Leads(steps, base, s.(writer := Some(r), dataset := dataset), r, Running(Restore, Claiming))
    ensures Leads(more, base, Restored(s, r), r, Queued(Producer))
  {
    more := Resets(steps, base, s, r, dataset);
    var owned := Held(s, r, Restore).(ready := None, done := None, first := None);
    if s.data.unfinished || (s.data.parts == {} && BackupsMatch(s)) {
      more := Refills(more, base, owned, r);
    } else {
      var skipped := if s.data.parts == {} then owned.(first := Some(r)) else owned;
      more := ThenWork(more, base, owned, r, Restore, Checking, SkipRestore(r), skipped, Ending);
    }
    more := FreesLocks(more, base, Restored(s, r), r, Restore);
  }

  lemma TakesDataset(steps: seq<Step>, base: seq<Step>, s: State, r: RunId) returns (more: seq<Step>)
    requires Quiet(s) && NobodyProducing(s, r) && Leads(steps, base, s, r, Queued(Restore))
    ensures Leads(more, base, s.(writer := Some(r), dataset := Taken(r, false)), r, Running(Restore, Claiming))
  {
    more := TakesIndexLock(steps, base, s, r, Restore);
    more := Claims(more, base, Held(s, r, Restore).(dataset := Free), r, Restore, Running(Restore, Locked));
  }

  lemma Restores(steps: seq<Step>, base: seq<Step>, s: State, r: RunId) returns (more: seq<Step>)
    requires Quiet(s) && CanFinish(s) && NobodyProducing(s, r) && Leads(steps, base, s, r, Queued(Restore))
    ensures Leads(more, base, Restored(s, r), r, Queued(Producer))
  {
    more := TakesDataset(steps, base, s, r);
    more := RestoreFinishes(more, base, s, r, Taken(r, false));
  }

  /** What a producer makes of the data it accepts. */
  function Made(d: Data): Data {
    Data(d.parts + {Core, ArchiveState, Scanner}, Config in d.parts ==> d.genesis, d.unfinished, d.index)
  }

  function Grown(d: Data, part: Part): Data {
    if part in d.parts then d else Created(d, part)
  }

  lemma Grows(steps: seq<Step>, base: seq<Step>, s: State, r: RunId, part: Part) returns (more: seq<Step>)
    requires Leads(steps, base, s, r, Running(Producer, Producing))
    requires part == Core || part == Scanner || (part == ArchiveState && s.archived)
    ensures Leads(more, base, s.(data := Grown(s.data, part)), r, Running(Producer, Producing))
  {
    if part in s.data.parts {
      more := steps;
    } else {
      more := ThenWork(steps, base, s, r, Producer, Producing, Grow(r, part),
                       s.(data := Created(s.data, part)), Producing);
    }
  }

  lemma ClaimsDataset(steps: seq<Step>, base: seq<Step>, s: State, r: RunId) returns (more: seq<Step>)
    requires Quiet(s) && Leads(steps, base, s, r, Queued(Producer))
    ensures Leads(more, base, s.(dataset := Taken(r, true)), r, Running(Producer, Owning))
  {
    more := Claims(steps, base, s, r, Producer, Queued(Producer));
    more := Names(more, base, s.(dataset := Taken(r, false)), r, Producer);
  }

  /** Core comes first, and its first block file if there is no index yet. */
  lemma MakesCore(steps: seq<Step>, base: seq<Step>, s: State, r: RunId) returns (more: seq<Step>, d: Data)
    requires Leads(steps, base, s, r, Running(Producer, Producing))
    requires Config in s.data.parts ==> Core in s.data.parts
    ensures Leads(more, base, s.(data := d), r, Running(Producer, Producing))
    ensures d == Data(s.data.parts + {Core}, Config in s.data.parts ==> s.data.genesis, s.data.unfinished, s.data.index)
  {
    more := Grows(steps, base, s, r, Core);
    d := Grown(s.data, Core);
    assert d.parts == s.data.parts + {Core};
    if Config !in s.data.parts {
      more := ThenWork(more, base, s.(data := d), r, Producer, Producing, FirstBlock(r),
                       s.(data := d.(genesis := true)), Producing);
      d := d.(genesis := true);
    }
  }

  /** Then the archive's state and the Dumplings scan. */
  lemma MakesRest(steps: seq<Step>, base: seq<Step>, s: State, r: RunId) returns (more: seq<Step>, archived: bool)
    requires Leads(steps, base, s, r, Running(Producer, Producing))
    ensures Leads(more, base, s.(data := s.data.(parts := s.data.parts + {ArchiveState, Scanner}),
                                 archived := archived), r,
                  Running(Producer, Producing))
  {
    archived := s.archived;
    more := steps;
    var d := s.data.(parts := s.data.parts + {ArchiveState});
    if ArchiveState in s.data.parts {
      assert d == s.data;
    } else {
      more := ThenWork(more, base, s, r, Producer, Producing, Grow(r, ArchiveState),
                       s.(data := d, archived := true), Producing);
      archived := true;
    }
    more := Grows(more, base, s.(data := d, archived := archived), r, Scanner);
    assert Grown(d, Scanner).parts == s.data.parts + {ArchiveState, Scanner};
  }

  function Ready(s: State, r: RunId, height: nat): State {
    s.(ready := Some(Manifest(r, Info(height, 0))), data := Made(s.data), archived := true)
  }

  lemma Produces(steps: seq<Step>, base: seq<Step>, s: State, r: RunId, height: nat) returns (more: seq<Step>)
    requires Quiet(s) && Leads(steps, base, s, r, Queued(Producer)) && Accepted(s.data, s.first == Some(r))
    ensures Leads(more, base, Ready(s, r, height), r, Queued(Blocksci))
  {
    var owned := s.(dataset := Taken(r, true));
    more := ClaimsDataset(steps, base, s, r);
    more := ThenWork(more, base, owned, r, Producer, Owning, StartProduce(r), owned, Producing);
    var d, archived;
    more, d := MakesCore(more, base, owned, r);
    more, archived := MakesRest(more, base, owned.(data := d), r);
    assert Made(s.data).parts == d.parts + {ArchiveState, Scanner};
    var made := owned.(data := Made(s.data), archived := archived);
    var done := Ready(s, r, height);
    more := ThenWork(more, base, made, r, Producer, Producing, Produce(r, height),
                     done.(dataset := Taken(r, true)), Ending);
    more := Releases(more, base, done.(dataset := Taken(r, true)), r, Producer);
  }

  function IndexedBy(d: Data, r: RunId, info: Info): Data {
    Data(d.parts + {Config, FileList, IndexManifest, Parsed}, d.genesis, false, Some(Manifest(r, info)))
  }

  lemma Indexes(steps: seq<Step>, base: seq<Step>, s: State, r: RunId, info: Info) returns (more: seq<Step>)
    requires Quiet(s) && Leads(steps, base, s, r, Queued(Blocksci))
    requires !s.data.unfinished && Indexable(s.data) && s.ready == Some(Manifest(r, Info(info.height, 0)))
    ensures Leads(more, base, s.(data := IndexedBy(s.data, r, info)), r, Queued(Checkpoint))
  {
    var owned := Held(s, r, Blocksci);
    var marked := owned.(data := s.data.(unfinished := true));
    var indexed := s.(data := IndexedBy(s.data, r, info));
    more := TakesLocks(steps, base, s, r, Blocksci);
    more := ThenWork(more, base, owned, r, Blocksci, Owning, MarkIndex(r), marked, Indexing);
    more := ThenWork(more, base, marked, r, Blocksci, Indexing, MainnetSync.Index(r, info.signature),
                     Held(indexed, r, Blocksci), Ending);
    more := FreesLocks(more, base, indexed, r, Blocksci);
  }

  /** The checkpoint passes its checks and is about to replace the first backup. */
  lemma BeginsBackups(steps: seq<Step>, base: seq<Step>, s: State, r: RunId, info: Info) returns (more: seq<Step>)
    requires Quiet(s) && Leads(steps, base, s, r, Queued(Checkpoint))
    requires s.ready == Some(Manifest(r, Info(info.height, 0)))
    requires s.data.index == Some(Manifest(r, info)) && !s.data.unfinished && HasIndex(s.data)
    ensures Leads(more, base, Held(s, r, Checkpoint), r, Running(Checkpoint, BackingUp(0, 0, info)))
  {
    more := TakesLocks(steps, base, s, r, Checkpoint);
    more := ThenWork(more, base, Held(s, r, Checkpoint), r, Checkpoint, Owning, BeginBackups(r),
                     Held(s, r, Checkpoint), BackingUp(0, 0, info));
  }

  function Replaced(s: State, slot: nat, backup: Slot): State
    requires slot < |s.slots|
  {
    s.(slots := s.slots[slot := backup])
  }

  lemma ReplacedTwice(s: State, slot: nat, first: Slot, second: Slot)
    requires slot < |s.slots|
    ensures Replaced(Replaced(s, slot, first), slot, second) == Replaced(s, slot, second)
  {
    assert s.slots[slot := first][slot := second] == s.slots[slot := second];
  }

  /** One effect on a backup that stands at `was`. */
  lemma BacksUpPhase(steps: seq<Step>, base: seq<Step>, s: State, r: RunId, slot: nat, phase: nat, info: Info,
                     was: Slot, to: Slot)
    returns (more: seq<Step>)
    requires |s.slots| == 3 && slot < 3 && phase < 3 && (slot > 0 ==> HasRoot(s.data))
    requires Leads(steps, base, Replaced(s, slot, was), r, Running(Checkpoint, BackingUp(slot, phase, info)))
    requires to == SlotAfter(was, phase, r, info)
    ensures Leads(more, base, Replaced(s, slot, to), r, Running(Checkpoint, BackingUp(slot, phase + 1, info)))
  {
    ReplacedTwice(s, slot, was, to);
    more := ThenWork(steps, base, Replaced(s, slot, was), r, Checkpoint, BackingUp(slot, phase, info), BackUp(r),
                     Replaced(s, slot, to), BackingUp(slot, phase + 1, info));
  }

  lemma PublishesSlot(steps: seq<Step>, base: seq<Step>, s: State, r: RunId, slot: nat, info: Info)
    returns (more: seq<Step>)
    requires |s.slots| == 3 && slot < 3 && (slot > 0 ==> HasRoot(s.data))
    requires Leads(steps, base, s, r, Running(Checkpoint, BackingUp(slot, 3, info)))
    ensures var s' := Replaced(s, slot, s.slots[slot].(manifest := Some(Manifest(r, info))));
            if slot < 2
            then Leads(more, base, s', r, Running(Checkpoint, BackingUp(slot + 1, 0, info)))
            else Leads(more, base, s'.(backedUp := s.backedUp + {r}, unpruned := s.data.genesis), r,
                       Running(Checkpoint, Ending))
  {
    var s' := Replaced(s, slot, s.slots[slot].(manifest := Some(Manifest(r, info))));
    if slot < 2 {
      more := ThenWork(steps, base, s, r, Checkpoint, BackingUp(slot, 3, info), BackUp(r),
                       s', BackingUp(slot + 1, 0, info));
    } else {
      more := ThenWork(steps, base, s, r, Checkpoint, BackingUp(slot, 3, info), BackUp(r),
                       s'.(backedUp := s.backedUp + {r}, unpruned := s.data.genesis), Ending);
    }
  }

  lemma EmptiesSlot(steps: seq<Step>, base: seq<Step>, s: State, r: RunId, slot: nat, info: Info, was: Slot)
    returns (more: seq<Step>)
    requires |s.slots| == 3 && slot < 3 && (slot > 0 ==> HasRoot(s.data))
    requires Leads(steps, base, Replaced(s, slot, was), r, Running(Checkpoint, BackingUp(slot, 0, info)))
    ensures Leads(more, base, Replaced(s, slot, EMPTY_SLOT), r, Running(Checkpoint, BackingUp(slot, 2, info)))
  {
    var dropped := was.(manifest := None);
    more := BacksUpPhase(steps, base, s, r, slot, 0, info, was, dropped);
    more := BacksUpPhase(more, base, s, r, slot, 1, info, dropped, EMPTY_SLOT);
  }

  lemma FillsSlot(steps: seq<Step>, base: seq<Step>, s: State, r: RunId, slot: nat, info: Info)
    returns (more: seq<Step>)
    requires |s.slots| == 3 && slot < 3 && (slot > 0 ==> HasRoot(s.data))
    requires Leads(steps, base, Replaced(s, slot, EMPTY_SLOT), r, Running(Checkpoint, BackingUp(slot, 2, info)))
    ensures var s' := Replaced(s, slot, Slot(Some(Manifest(r, info)), Some(r)));
            if slot < 2
            then Leads(more, base, s', r, Running(Checkpoint, BackingUp(slot + 1, 0, info)))
            else Leads(more, base, s'.(backedUp := s.backedUp + {r}, unpruned := s.data.genesis), r,
                       Running(Checkpoint, Ending))
  {
    var uploaded := Slot(None, Some(r));
    more := BacksUpPhase(steps, base, s, r, slot, 2, info, EMPTY_SLOT, uploaded);
    ReplacedTwice(s, slot, uploaded, Slot(Some(Manifest(r, info)), Some(r)));
    more := PublishesSlot(more, base, Replaced(s, slot, uploaded), r, slot, info);
  }

  /** Four effects replace one backup. */
  lemma BacksUpSlot(steps: seq<Step>, base: seq<Step>, s: State, r: RunId, slot: nat, info: Info)
    returns (more: seq<Step>)
    requires |s.slots| == 3 && slot < 3 && (slot > 0 ==> HasRoot(s.data))
    requires Leads(steps, base, s, r, Running(Checkpoint, BackingUp(slot, 0, info)))
    ensures var s' := Replaced(s, slot, Slot(Some(Manifest(r, info)), Some(r)));
            if slot < 2
            then Leads(more, base, s', r, Running(Checkpoint, BackingUp(slot + 1, 0, info)))
            else Leads(more, base, s'.(backedUp := s.backedUp + {r}, unpruned := s.data.genesis), r,
                       Running(Checkpoint, Ending))
  {
    assert Replaced(s, slot, s.slots[slot]).slots == s.slots;
    more := EmptiesSlot(steps, base, s, r, slot, info, s.slots[slot]);
    more := FillsSlot(more, base, s, r, slot, info);
  }

  /** The first `k` backups are the run's. */
  function Saved(s: State, k: nat, r: RunId, info: Info): State
    requires |s.slots| == 3
  {
    s.(slots := seq(3, i requires 0 <= i < 3 => if i < k then Slot(Some(Manifest(r, info)), Some(r)) else s.slots[i]),
       backedUp := if k == 3 then s.backedUp + {r} else s.backedUp,
       unpruned := if k == 3 then s.data.genesis else s.unpruned)
  }

  lemma SavesOne(steps: seq<Step>, base: seq<Step>, s: State, r: RunId, k: nat, info: Info) returns (more: seq<Step>)
    requires |s.slots| == 3 && k < 3 && HasRoot(s.data)
    requires Leads(steps, base, Saved(s, k, r, info), r, Running(Checkpoint, BackingUp(k, 0, info)))
    ensures Leads(more, base, Saved(s, k + 1, r, info), r,
                  Running(Checkpoint, if k < 2 then BackingUp(k + 1, 0, info) else Ending))
  {
    more := BacksUpSlot(steps, base, Saved(s, k, r, info), r, k, info);
    assert Saved(s, k + 1, r, info).slots
        == Replaced(Saved(s, k, r, info), k, Slot(Some(Manifest(r, info)), Some(r))).slots;
  }

  lemma {:induction false} SavesFrom(steps: seq<Step>, base: seq<Step>, s: State, r: RunId, k: nat, info: Info)
    returns (more: seq<Step>)
    requires |s.slots| == 3 && k < 3 && HasRoot(s.data)
    requires Leads(steps, base, Saved(s, k, r, info), r, Running(Checkpoint, BackingUp(k, 0, info)))
    ensures Leads(more, base, Saved(s, 3, r, info), r, Running(Checkpoint, Ending))
    decreases 3 - k
  {
    more := SavesOne(steps, base, s, r, k, info);
    if k < 2 { more := SavesFrom(more, base, s, r, k + 1, info); }
  }

  lemma SavedNothing(s: State, r: RunId, info: Info)
    requires |s.slots| == 3
    ensures Saved(s, 0, r, info) == s
  {
    assert Saved(s, 0, r, info).slots == s.slots;
  }

  function AfterCheckpoint(s: State, r: RunId, info: Info): State
    requires |s.slots| == 3
  {
    Saved(s, 3, r, info).(done := Some(r))
  }

  lemma Checkpoints(steps: seq<Step>, base: seq<Step>, s: State, r: RunId, info: Info) returns (more: seq<Step>)
    requires Quiet(s) && Leads(steps, base, s, r, Queued(Checkpoint))
    requires s.ready == Some(Manifest(r, Info(info.height, 0)))
    requires s.data.index == Some(Manifest(r, info)) && !s.data.unfinished && Whole(s.data)
    ensures Leads(more, base, AfterCheckpoint(s, r, info), r, Queued(Pack))
  {
    more := BeginsBackups(steps, base, s, r, info);
    SavedNothing(Held(s, r, Checkpoint), r, info);
    more := SavesFrom(more, base, Held(s, r, Checkpoint), r, 0, info);
    assert Saved(Held(s, r, Checkpoint), 3, r, info) == Held(Saved(s, 3, r, info), r, Checkpoint);
    more := EndsCheckpoint(more, base, Saved(s, 3, r, info), r);
  }

  /** The dataset lock goes first; done.json is written under the index lock only. */
  lemma EndsCheckpoint(steps: seq<Step>, base: seq<Step>, s: State, r: RunId) returns (more: seq<Step>)
    requires Quiet(s) && Leads(steps, base, Held(s, r, Checkpoint), r, Running(Checkpoint, Ending))
    ensures Leads(more, base, s.(done := Some(r)), r, Queued(Pack))
  {
    var held := s.(readers := {r});
    more := Releases(steps, base, Held(s, r, Checkpoint), r, Checkpoint);
    more := Records(more, base, held, r);
    assert {r} - {r} == {};
    more := Unlocks(more, base, held.(done := Some(r)), r, Checkpoint);
  }

  lemma DiscardsDataset(steps: seq<Step>, base: seq<Step>, s: State, r: RunId) returns (more: seq<Step>)
    requires Leads(steps, base, s, r, Running(Clear, Owning)) && s.done == Some(r)
    ensures Leads(more, base, s.(data := NO_DATA), r, Running(Clear, Ending))
  {
    var d;
    more := ThenWork(steps, base, s, r, Clear, Owning, BeginDiscard(r), s, Discarding);
    more, d := MovesAside(more, base, s, r, Clear);
    more := ThenWork(more, base, s.(data := d), r, Clear, Discarding, EndDiscard(r), s.(data := NO_DATA), Ending);
  }

  lemma Clears(steps: seq<Step>, base: seq<Step>, s: State, r: RunId) returns (more: seq<Step>)
    requires Quiet(s) && Leads(steps, base, s, r, Queued(Clear)) && s.done == Some(r)
    ensures Leads(more, base, s.(data := NO_DATA), r, Over)
  {
    more := TakesLocks(steps, base, s, r, Clear);
    more := DiscardsDataset(more, base, Held(s, r, Clear), r);
    more := FreesLocks(more, base, s.(data := NO_DATA), r, Clear);
  }

  /** A producer accepts the data, and a parser what the producer makes of it. */
  predicate Starts(s: State, r: RunId) {
    !s.data.unfinished && Accepted(s.data, s.first == Some(r)) && Indexable(Made(s.data))
  }

  /** What producer, blocksci and checkpoint of one run leave behind. */
  function Synchronized(s: State, r: RunId, info: Info): State
    requires |s.slots| == 3
  {
    var ready := Ready(s, r, info.height);
    AfterCheckpoint(ready.(data := IndexedBy(ready.data, r, info)), r, info)
  }

  lemma Synchronizes(steps: seq<Step>, base: seq<Step>, s: State, r: RunId, info: Info) returns (more: seq<Step>)
    requires Quiet(s) && Leads(steps, base, s, r, Queued(Producer)) && Starts(s, r)
    ensures Leads(more, base, Synchronized(s, r, info), r, Queued(Pack))
    ensures Whole(Synchronized(s, r, info).data) && !Synchronized(s, r, info).data.unfinished
  {
    var ready := Ready(s, r, info.height);
    more := Produces(steps, base, s, r, info.height);
    more := Indexes(more, base, ready, r, info);
    more := Checkpoints(more, base, ready.(data := IndexedBy(ready.data, r, info)), r, info);
  }

  lemma PacksAndClears(steps: seq<Step>, base: seq<Step>, s: State, r: RunId) returns (more: seq<Step>)
    requires Quiet(s) && Leads(steps, base, s, r, Queued(Pack)) && s.done == Some(r)
    ensures Leads(more, base, s.(data := NO_DATA), r, Over)
  {
    more := Packs(steps, base, s, r);
    more := Clears(more, base, s, r);
  }

  lemma SynchronizedIsBacked(s: State, r: RunId, info: Info, pc: Pc)
    requires |s.slots| == 3
    ensures BackedBy(Go(Synchronized(s, r, info).(data := NO_DATA), r, pc), r)
  {
  }

  /** After a restore that lets the jobs go on, they can. */
  lemma RestoredStarts(s: State, r: RunId)
    requires GoesOn(s)
    ensures Starts(Restored(s, r), r)
  {
    if s.data.parts == {} && !s.data.unfinished && !BackupsMatch(s) {
      assert Made(Restored(s, r).data).parts == {Core, ArchiveState, Scanner};
    }
  }

  lemma {:induction false} CalmJoined(steps: seq<Step>, more: seq<Step>)
    requires Execution(steps) && Execution(more) && steps <= more && CalmThroughout(steps) && CalmFrom(more, |steps|)
    ensures CalmThroughout(more)
    decreases |more|
  {
    if |steps| < |more| { CalmJoined(steps, more[..|more| - 1]); } else { assert more == steps; }
  }

  /**
   From any quiet state in which its restore lets the jobs go on, and no other run waits between
   restore and producer, one synchronization can go all the way: its backups stand, the dataset
   is gone, every step is calm, and the next synchronization can go all the way in turn.
   */
  lemma SynchronizationSucceeds(steps: seq<Step>, r: RunId, info: Info) returns (more: seq<Step>)
    requires Execution(steps) && CalmThroughout(steps) && NobodyProducing(Reached(steps), r)
    requires Quiet(Reached(steps)) && At(Reached(steps), r, Queued(Restore)) && GoesOn(Reached(steps))
    ensures steps <= more && Execution(more) && CalmThroughout(more)
    ensures Reached(more).pcs == Reached(steps).pcs[r := Over] && BackedBy(Reached(more), r)
    ensures Reached(more).data == NO_DATA
    ensures Quiet(Reached(more)) && BackupsMatch(Reached(more)) && GoesOn(Reached(more))
  {
    var s := Reached(steps);
    assert s == Go(s, r, Queued(Restore));
    more := Restores(steps, steps, s, r);
    more := Completes(more, steps, s, r, info);
    SynchronizedIsBacked(Restored(s, r), r, info, Over);
    assert Looked(0);
    CalmJoined(steps, more);
  }

  /** From the end of its restore a run goes on to its own. */
  lemma Completes(steps: seq<Step>, base: seq<Step>, s: State, r: RunId, info: Info) returns (more: seq<Step>)
    requires Quiet(s) && GoesOn(s) && Leads(steps, base, Restored(s, r), r, Queued(Producer))
    ensures Leads(more, base, Synchronized(Restored(s, r), r, info).(data := NO_DATA), r, Over)
  {
    RestoredStarts(s, r);
    more := Synchronizes(steps, base, Restored(s, r), r, info);
    more := PacksAndClears(more, base, Synchronized(Restored(s, r), r, info), r);
  }

  // ------------------------------------------------- when a synchronization can go through

  /** The rest of the state while a restore holds both locks. */
  lemma ClaimingHolds(s: State, r: RunId) returns (quiet: State)
    requires Guarded(s) && At(s, r, Running(Restore, Claiming))
    ensures Quiet(quiet) && s == Go(quiet.(writer := Some(r), dataset := s.dataset), r, Running(Restore, Claiming))
    ensures quiet == s.(writer := None, dataset := Free)
  {
    assert HoldsExclusive(s.pcs[r]);
    quiet := s.(writer := None, dataset := Free);
    assert s.pcs[r := Running(Restore, Claiming)] == s.pcs;
  }

  ghost predicate Continues(steps: seq<Step>, more: seq<Step>, r: RunId, pc: Pc) {
    steps <= more && Execution(more) && At(Reached(more), r, pc)
  }

  /**
   A restore that has taken the dataset can go through, whatever else happens, exactly when the
   three backups belong together, or the index is not unfinished and there is a dataset, or
   nothing was ever synchronized.
   */
  lemma RestoreFinishesExactlyWhen(steps: seq<Step>, r: RunId)
    requires Execution(steps) && At(Reached(steps), r, Running(Restore, Claiming))
    ensures (exists more :: Continues(steps, more, r, Queued(Producer))) <==> CanFinish(Reached(steps))
  {
    var s := Reached(steps);
    GuardedAlways(steps);
    if CanFinish(s) {
      var quiet := ClaimingHolds(s, r);
      var more := RestoreFinishes(steps, steps, quiet, r, s.dataset);
      Arrived(more, steps, Restored(quiet, r), r, Queued(Producer));
    } else {
      forall more | Continues(steps, more, r, Queued(Producer))
        ensures false
      {
        StuckForGood(steps, more, r);
      }
    }
  }

  /**
   Its synchronization can go all the way, whatever else happens, exactly when moreover the
   dataset it leaves in place is whole, or that of a first synchronization that was not finished.
   */
  lemma SynchronizationFinishesExactlyWhen(steps: seq<Step>, r: RunId)
    requires Execution(steps) && At(Reached(steps), r, Running(Restore, Claiming))
    ensures (exists more :: Continues(steps, more, r, Over)) <==> GoesOn(Reached(steps))
  {
    if GoesOn(Reached(steps)) {
      var more := GoesAllTheWay(steps, r);
    } else {
      forall more | Continues(steps, more, r, Over)
        ensures false
      {
        DoomedForGood(steps, more, r);
      }
    }
  }

  lemma GoesAllTheWay(steps: seq<Step>, r: RunId) returns (more: seq<Step>)
    requires Execution(steps) && At(Reached(steps), r, Running(Restore, Claiming)) && GoesOn(Reached(steps))
    ensures Continues(steps, more, r, Over)
  {
    var s := Reached(steps);
    GuardedAlways(steps);
    var quiet := ClaimingHolds(s, r);
    more := RestoreFinishes(steps, steps, quiet, r, s.dataset);
    more := Completes(more, steps, quiet, r, Info(0, 0));
    Arrived(more, steps, Synchronized(Restored(quiet, r), r, Info(0, 0)).(data := NO_DATA), r, Over);
  }

  lemma Arrived(more: seq<Step>, steps: seq<Step>, s: State, r: RunId, pc: Pc)
    requires Leads(more, steps, s, r, pc)
    ensures Continues(steps, more, r, pc)
  {
    assert Looked(0);
  }

  // ------------------------------------------------------ a restore between another's jobs

  lemma Switch(steps: seq<Step>, base: seq<Step>, s: State, r: RunId, pc: Pc, q: RunId)
    requires Leads(steps, base, s, r, pc) && q != r && q in s.pcs
    ensures Leads(steps, base, Go(s, r, pc), q, s.pcs[q])
  {
    assert Looked(0);
    assert s.pcs[r := pc][q := s.pcs[q]] == s.pcs[r := pc];
  }

  /** A checkpoint that drops the index manifest and fails; its locks are cleared. */
  lemma BackupFails(steps: seq<Step>, base: seq<Step>, s: State, r: RunId, info: Info) returns (more: seq<Step>)
    requires Quiet(s) && Leads(steps, base, s, r, Queued(Checkpoint))
    requires s.ready == Some(Manifest(r, Info(info.height, 0)))
    requires s.data.index == Some(Manifest(r, info)) && !s.data.unfinished && HasIndex(s.data)
    ensures Leads(more, base, Replaced(s, 0, s.slots[0].(manifest := None)), r, Dead)
  {
    var lost := Replaced(s, 0, s.slots[0].(manifest := None));
    more := BeginsBackups(steps, base, s, r, info);
    assert Replaced(Held(s, r, Checkpoint), 0, s.slots[0]).slots == s.slots;
    more := BacksUpPhase(more, base, Held(s, r, Checkpoint), r, 0, 0, info, s.slots[0], s.slots[0].(manifest := None));
    more := Dies(more, base, Held(lost, r, Checkpoint), r, Running(Checkpoint, BackingUp(0, 1, info)));
    assert {r} - {r} == {};
    more := Expires(more, base, Held(lost, r, Checkpoint), r);
    more := IsFreed(more, base, lost.(dataset := Taken(r, true)), r);
  }

  /** Run `q` produces and indexes, drops a backup and fails. */
  lemma DropsBackup(steps: seq<Step>, base: seq<Step>, s: State, q: RunId, info: Info)
    returns (more: seq<Step>, t: State)
    requires Quiet(s) && Starts(s, q) && Leads(steps, base, s, q, Queued(Producer))
    ensures Leads(more, base, t, q, Dead) && Quiet(t) && t.pcs == s.pcs && t.done == s.done
    ensures t.slots[0].manifest == None && Core in t.data.parts
  {
    more := Produces(steps, base, s, q, info.height);
    t := Ready(s, q, info.height);
    more := Indexes(more, base, t, q, info);
    t := t.(data := IndexedBy(t.data, q, info));
    more := BackupFails(more, base, t, q, info);
    t := Replaced(t, 0, t.slots[0].(manifest := None));
  }

  /** A clear job that may discard the dataset is about to. */
  lemma AboutToDiscard(steps: seq<Step>, base: seq<Step>, s: State, r: RunId) returns (more: seq<Step>)
    requires Quiet(s) && Leads(steps, base, s, r, Queued(Pack)) && s.done == Some(r)
    ensures Leads(more, base, Held(s, r, Clear), r, Running(Clear, Discarding))
  {
    more := Packs(steps, base, s, r);
    more := TakesLocks(more, base, s, r, Clear);
    more := ThenWork(more, base, Held(s, r, Clear), r, Clear, Owning, BeginDiscard(r), Held(s, r, Clear), Discarding);
  }

  /** A job may delete part of a dataset that no checkpoint backs. */
  ghost predicate Loses(more: seq<Step>, last: Step) {
    Execution(more) && Enabled(Reached(more), last) && MainnetSyncSafety.Discards(last) && forall q ::
        !BackedBy(Reached(more), q)
  }

  ghost predicate CalmlyOn(steps: seq<Step>, more: seq<Step>) {
    steps <= more && Execution(more) && CalmFrom(more, |steps|)
  }

  /** Calm steps lead from here to such a deletion. */
  ghost predicate CanLose(steps: seq<Step>) {
    exists more, last :: CalmlyOn(steps, more) && Loses(more, last)
  }

  lemma NothingBacksIt(s: State, r: RunId)
    requires At(s, r, Running(Clear, Discarding)) && Core in s.data.parts
    requires |s.slots| == 3 && s.slots[0].manifest == None
    ensures Enabled(s, MoveAside(r, Core)) && forall q :: !BackedBy(s, q)
  {
  }

  lemma DiscardLoses(more: seq<Step>, base: seq<Step>, s: State, r: RunId)
    requires Leads(more, base, s, r, Running(Clear, Discarding)) && |s.slots| == 3 && s.slots[0].manifest == None
    requires Core in s.data.parts
    ensures CanLose(base)
  {
    NothingBacksIt(Go(s, r, Running(Clear, Discarding)), r);
    assert Looked(0);
    assert CalmlyOn(base, more) && Loses(more, MoveAside(r, Core));
  }

  /**
   Two runs wait for their producers. The one that restored last goes all the way to its clear
   job; the other, which by then finds a whole dataset, drops a backup.
   */
  lemma TwoProducersLose(steps: seq<Step>, base: seq<Step>, s: State, a: RunId, b: RunId)
    requires Quiet(s) && Starts(s, b) && a != b && a in s.pcs && s.pcs[a] == Queued(Producer)
    requires Leads(steps, base, s, b, Queued(Producer))
    ensures CanLose(base)
  {
    var more := Synchronizes(steps, base, s, b, Info(10, 1));
    var synced := Synchronized(s, b, Info(10, 1));
    Switch(more, base, synced, b, Queued(Pack), a);
    var second := Go(synced, b, Queued(Pack));
    assert Made(second.data) == second.data by { assert Made(second.data).parts == second.data.parts; }
    var t;
    more, t := DropsBackup(more, base, second, a, Info(20, 2));
    Switch(more, base, t, a, Dead, b);
    more := AboutToDiscard(more, base, Go(t, a, Dead), b);
    DiscardLoses(more, base, Held(Go(t, a, Dead), b, Clear), b);
  }

  lemma CalmNeverLoses(base: seq<Step>)
    requires Execution(base) && CalmThroughout(base)
    ensures !CanLose(base)
  {
    forall more, last | CalmlyOn(base, more) && Loses(more, last)
      ensures false
    {
      CalmJoined(base, more);
      var q := DiscardsOnlyWhatIsBacked(more, last);
    }
  }

  /** A restore that has taken the dataset and lets the jobs go on, beside a run that waits for its producer. */
  lemma SecondRestoreLoses(base: seq<Step>, a: RunId, b: RunId)
    requires Execution(base) && At(Reached(base), b, Running(Restore, Claiming)) && GoesOn(Reached(base))
    requires a != b && At(Reached(base), a, Queued(Producer))
    ensures CanLose(base)
  {
    var t := Reached(base);
    GuardedAlways(base);
    var quiet := ClaimingHolds(t, b);
    var more := RestoreFinishes(base, base, quiet, b, t.dataset);
    RestoredStarts(quiet, b);
    TwoProducersLose(more, base, Restored(quiet, b), a, b);
  }

  /**
   The premise is exact: after any calm execution, a step opens the way to the deletion of a
   dataset that is not backed up if and only if with it a restore after which the jobs can go on
   takes the dataset while another run waits between its restore and its producer.
   */
  lemma DatasetIsLostExactlyWhen(steps: seq<Step>, step: Step)
    requires Execution(steps) && CalmThroughout(steps) && Enabled(Reached(steps), step)
    ensures Execution(steps + [step])
    ensures CanLose(steps + [step]) <==> !Calm(Reached(steps), step)
  {
    var s, base := Reached(steps), steps + [step];
    assert base[..|base| - 1] == steps;
    if Calm(s, step) {
      CalmNeverLoses(base);
    } else {
      var a :| a in s.pcs && a != step.run && s.pcs[a] == Queued(Producer);
      SecondRestoreLoses(base, a, step.run);
    }
  }

  function TwoRuns(one: Pc, two: Pc): State {
    Init().(pcs := map[1 := one, 2 := two])
  }

  lemma TwoSubmitted() returns (steps: seq<Step>)
    ensures Leads(steps, [], TwoRuns(Queued(Restore), Queued(Restore)), 1, Queued(Restore))
  {
    var one := [Submit(1)];
    assert one[..0] == [] && Execution(one[..0]) && Execution(one) && CalmThroughout(one[..0]) && CalmThroughout(one);
    assert Reached(one).pcs == map[1 := Queued(Restore)];
    steps := one + [Submit(2)];
    assert steps[..1] == one && Execution(steps) && CalmThroughout(steps);
    var s := TwoRuns(Queued(Restore), Queued(Restore));
    assert Reached(steps) == s && Go(s, 1, Queued(Restore)) == s;
  }

  /** With the dataset cleared and the backups matching, a restore comes to fill the dataset. */
  lemma FillsAfterClear(cleared: seq<Step>, s: State, r: RunId) returns (steps: seq<Step>)
    requires Leads(cleared, cleared, s, r, Queued(Restore)) && Quiet(s) && NobodyProducing(s, r)
    requires BackupsMatch(s) && s.data.parts == {}
    ensures Execution(steps) && At(Reached(steps), r, Running(Restore, Filling))
    ensures Enabled(Reached(steps), FillPiece(r, Core))
  {
    var d;
    steps := TakesDataset(cleared, cleared, s, r);
    steps := Resets(steps, cleared, s, r, Taken(r, false));
    steps, d := BeginsToFill(steps, cleared, Held(s, r, Restore).(ready := None, done := None, first := None), r);
    assert Looked(0);
  }

  /** After a synchronization, the next restore fills the dataset that this one has cleared. */
  lemma NextRestoreFills(steps: seq<Step>, r: RunId, q: RunId, info: Info) returns (more: seq<Step>)
    requires Execution(steps) && CalmThroughout(steps) && NobodyProducing(Reached(steps), r) && q != r
    requires Quiet(Reached(steps)) && GoesOn(Reached(steps))
    requires At(Reached(steps), r, Queued(Restore)) && At(Reached(steps), q, Queued(Restore))
    ensures Execution(more) && At(Reached(more), q, Running(Restore, Filling))
    ensures Enabled(Reached(more), FillPiece(q, Core))
  {
    var cleared := SynchronizationSucceeds(steps, r, info);
    var s := Reached(cleared);
    assert s == Go(s, q, Queued(Restore));
    more := FillsAfterClear(cleared, s, q);
  }

  /** The second restore has the index lock, and the first run waits for its producer. */
  lemma SecondIsAboutToClaim() returns (steps: seq<Step>)
    ensures Leads(steps, [], TwoRuns(Queued(Producer), Queued(Restore)).(first := Some(1), writer := Some(2)), 2,
                  Running(Restore, Locked))
  {
    steps := TwoSubmitted();
    var s, t := TwoRuns(Queued(Restore), Queued(Restore)),
        TwoRuns(Queued(Producer), Queued(Restore)).(first := Some(1));
    steps := Restores(steps, [], s, 1);
    Switch(steps, [], Restored(s, 1), 1, Queued(Producer), 2);
    assert Go(Restored(s, 1), 1, Queued(Producer)) == t;
    steps := TakesIndexLock(steps, [], t, 2, Restore);
  }

  /** It can come to that: two runs are submitted, and the second restores before the first produces. */
  lemma EarlyRestoreLosesTheDataset() returns (steps: seq<Step>)
    ensures Execution(steps) && CalmThroughout(steps) && Enabled(Reached(steps), Claim(2))
    ensures Execution(steps + [Claim(2)]) && CanLose(steps + [Claim(2)])
  {
    steps := SecondIsAboutToClaim();
    ClaimLoses(steps, TwoRuns(Queued(Producer), Queued(Restore)).(first := Some(1), writer := Some(2)), 1, 2);
  }

  lemma ClaimLoses(steps: seq<Step>, s: State, a: RunId, b: RunId)
    requires Leads(steps, [], s, b, Running(Restore, Locked)) && s.dataset == Free && GoesOn(s)
    requires a != b && At(s, a, Queued(Producer))
    ensures Execution(steps) && CalmThroughout(steps) && Enabled(Reached(steps), Claim(b))
    ensures Execution(steps + [Claim(b)]) && CanLose(steps + [Claim(b)])
  {
    assert Looked(0);
    ClaimIsWild(Reached(steps), a, b);
    DatasetIsLostExactlyWhen(steps, Claim(b));
  }

  lemma ClaimIsWild(s: State, a: RunId, b: RunId)
    requires At(s, b, Running(Restore, Locked)) && s.dataset == Free && GoesOn(s)
    requires a != b && At(s, a, Queued(Producer))
    ensures Enabled(s, Claim(b)) && !Calm(s, Claim(b))
  {
    assert s.pcs[a] == Queued(Producer);
  }

  /** A clear job that is killed after its first rename: no run will ever get past it. */
  lemma KilledClearWedges() returns (steps: seq<Step>)
    ensures Execution(steps) && CalmThroughout(steps) && Frozen(Reached(steps))
  {
    var left;
    steps, left := FirstRename();
    steps := DiesThere(steps, left, 1);
  }

  lemma FirstRename() returns (steps: seq<Step>, left: State)
    ensures Leads(steps, [], left, 1, Running(Clear, Discarding)) && !Whole(left.data) && left.data.parts != {}
  {
    steps := TwoSubmitted();
    var s := TwoRuns(Queued(Restore), Queued(Restore));
    steps := Restores(steps, [], s, 1);
    RestoredStarts(s, 1);
    steps := Synchronizes(steps, [], Restored(s, 1), 1, Info(10, 1));
    var t := Held(Synchronized(Restored(s, 1), 1, Info(10, 1)), 1, Clear);
    steps := AboutToDiscard(steps, [], Synchronized(Restored(s, 1), 1, Info(10, 1)), 1);
    left := t.(data := Moved(t.data, Core));
    assert Config in left.data.parts;
    steps := ThenWork(steps, [], t, 1, Clear, Discarding, MoveAside(1, Core), left, Discarding);
  }

  lemma DiesThere(steps: seq<Step>, s: State, r: RunId) returns (more: seq<Step>)
    requires Leads(steps, [], s, r, Running(Clear, Discarding)) && !Whole(s.data) && s.data.parts != {}
    ensures Execution(more) && CalmThroughout(more) && Frozen(Reached(more))
  {
    assert Looked(0);
    KilledClearExactlyWhen(steps, r);
    more := steps + [Die(r)];
    assert more[..|more| - 1] == steps;
  }
}
