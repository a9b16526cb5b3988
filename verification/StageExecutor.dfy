/**
 Running a stage graph with bounded concurrency: which stages finish when, with what outcome,
 and which cancellations are confirmed is up to the environment.

 The runner's calls and the completions the executor sees form a log. What the executor
 promises is a law each event of the log obeys, given the events before it.
*/
module StageExecutor {
  import opened StageGraph

  datatype Event =
    | Submitted(stage: Stage)
    | Refused(stage: Stage)                 // submission raised
    | Finished(name: Name, ok: bool)        // the stage's wait returned or raised
    | Cancelled(name: Name)                 // cancellation was requested

  datatype Outcome = Completed | Failed(failures: seq<Name>) | NoStageReady | TooFewWorkers

  function SubmittedNames(log: seq<Event>): set<Name> {
    if log == [] then {}
    else
      var before := SubmittedNames(log[..|log| - 1]);
      match log[|log| - 1]
      case Submitted(s) => before + {s.name}
      case Refused(s) => before + {s.name}
      case _ => before
  }

  function RunningNames(log: seq<Event>): set<Name> {
    if log == [] then {}
    else
      var before := RunningNames(log[..|log| - 1]);
      match log[|log| - 1]
      case Submitted(s) => before + {s.name}
      case Finished(name, _) => before - {name}
      case _ => before
  }

  function CompletedNames(log: seq<Event>): set<Name> {
    if log == [] then {}
    else
      var before := CompletedNames(log[..|log| - 1]);
      match log[|log| - 1]
      case Finished(name, true) => before + {name}
      case _ => before
  }

  function CancelledNames(log: seq<Event>): set<Name> {
    if log == [] then {}
    else
      var before := CancelledNames(log[..|log| - 1]);
      match log[|log| - 1]
      case Cancelled(name) => before + {name}
      case _ => before
  }

  predicate Failure(e: Event) {
    e.Refused? || (e.Finished? && !e.ok)
  }

  predicate HasFailed(log: seq<Event>) {
    exists e :: e in log && Failure(e)
  }

  /** What may happen next. */
  predicate MayFollow(log: seq<Event>, e: Event, stages: seq<Stage>, maxWorkers: int) {
    match e
    case Submitted(s) =>
      && s in stages && !HasFailed(log) && s.name !in SubmittedNames(log)
      && Ready(s, CompletedNames(log)) && |RunningNames(log)| < maxWorkers
    case Refused(s) =>
      && s in stages && !HasFailed(log) && s.name !in SubmittedNames(log)
      && Ready(s, CompletedNames(log)) && |RunningNames(log)| < maxWorkers
    case Finished(name, _) => name in RunningNames(log)
    case Cancelled(name) => HasFailed(log) && name in RunningNames(log) && name !in CancelledNames(log)
  }

  predicate Lawful(log: seq<Event>, stages: seq<Stage>, maxWorkers: int) {
    log == []
    || (Lawful(log[..|log| - 1], stages, maxWorkers) && MayFollow(log[..|log| - 1], log[|log| - 1], stages, maxWorkers))
  }

  lemma Append(log: seq<Event>, e: Event, stages: seq<Stage>, maxWorkers: int)
    requires Lawful(log, stages, maxWorkers) && MayFollow(log, e, stages, maxWorkers)
    ensures Lawful(log + [e], stages, maxWorkers)
    ensures HasFailed(log + [e]) <==> HasFailed(log) || Failure(e)
    ensures SubmittedNames(log + [e])
         == if e.Submitted? || e.Refused? then SubmittedNames(log) + {e.stage.name} else SubmittedNames(log)
    ensures RunningNames(log + [e])
         == if e.Submitted? then RunningNames(log) + {e.stage.name}
            else if e.Finished? then RunningNames(log) - {e.name} else RunningNames(log)
    ensures CompletedNames(log + [e]) == if e.Finished? && e.ok then CompletedNames(log) + {e.name}
              else CompletedNames(log)
    ensures CancelledNames(log + [e]) == if e.Cancelled? then CancelledNames(log) + {e.name} else CancelledNames(log)
  {
    assert (log + [e])[..|log|] == log;
    FailureSnoc(log, e);
    NamesSnocEvent(log, e);
  }

  lemma NamesSnocEvent(log: seq<Event>, e: Event)
    ensures SubmittedNames(log + [e])
         == if e.Submitted? || e.Refused? then SubmittedNames(log) + {e.stage.name} else SubmittedNames(log)
    ensures RunningNames(log + [e])
         == if e.Submitted? then RunningNames(log) + {e.stage.name}
            else if e.Finished? then RunningNames(log) - {e.name} else RunningNames(log)
    ensures CompletedNames(log + [e]) == if e.Finished? && e.ok then CompletedNames(log) + {e.name}
              else CompletedNames(log)
    ensures CancelledNames(log + [e]) == if e.Cancelled? then CancelledNames(log) + {e.name} else CancelledNames(log)
  {
    assert (log + [e])[..|log|] == log;
  }

  lemma FailureSnoc(log: seq<Event>, e: Event)
    ensures HasFailed(log + [e]) <==> HasFailed(log) || Failure(e)
  {
    assert e in log + [e];
    if HasFailed(log) {
      var f :| f in log && Failure(f);
      assert f in log + [e];
    }
    if HasFailed(log + [e]) {
      var f :| f in log + [e] && Failure(f);
      assert f in log || f == e;
    }
  }

  // ------------------------------------------------------------------ what the law means

  predicate Starts(e: Event) {
    e.Submitted? || e.Refused?
  }

  lemma {:induction false} PrefixIsLawful(log: seq<Event>, k: nat, stages: seq<Stage>, maxWorkers: int)
    requires Lawful(log, stages, maxWorkers) && k <= |log|
    ensures Lawful(log[..k], stages, maxWorkers)
    ensures k < |log| ==> MayFollow(log[..k], log[k], stages, maxWorkers)
    decreases |log|
  {
    if k < |log| {
      assert log[..|log| - 1][..k] == log[..k];
      PrefixIsLawful(log[..|log| - 1], k, stages, maxWorkers);
    } else {
      assert log[..k] == log;
    }
  }

  lemma {:induction false} StartedBefore(log: seq<Event>, i: nat)
    requires i < |log| && Starts(log[i])
    ensures log[i].stage.name in SubmittedNames(log)
    decreases |log|
  {
    if i < |log| - 1 { StartedBefore(log[..|log| - 1], i); }
  }

  lemma {:induction false} CompletedByEvent(log: seq<Event>, n: Name) returns (i: nat)
    requires n in CompletedNames(log)
    ensures i < |log| && log[i] == Finished(n, true)
    decreases |log|
  {
    if log[|log| - 1] == Finished(n, true) { i := |log| - 1; } else { i := CompletedByEvent(log[..|log| - 1], n); }
  }

  lemma {:induction false} CancelledBefore(log: seq<Event>, i: nat)
    requires i < |log| && log[i].Cancelled?
    ensures log[i].name in CancelledNames(log)
    decreases |log|
  {
    if i < |log| - 1 { CancelledBefore(log[..|log| - 1], i); }
  }

  /** No stage is submitted twice, not even one whose submission raised. */
  lemma SubmittedOnce(log: seq<Event>, i: nat, k: nat, stages: seq<Stage>, maxWorkers: int)
    requires Lawful(log, stages, maxWorkers) && i < k < |log| && Starts(log[i]) && Starts(log[k])
    ensures log[i].stage.name != log[k].stage.name
  {
    PrefixIsLawful(log, k, stages, maxWorkers);
    StartedBefore(log[..k], i);
  }

  /** Before a stage is submitted, each of its dependencies has finished well. */
  lemma DependenciesFinishFirst(log: seq<Event>, k: nat, d: Name, stages: seq<Stage>, maxWorkers: int) returns (i: nat)
    requires Lawful(log, stages, maxWorkers) && k < |log| && Starts(log[k]) && d in log[k].stage.dependencies
    ensures i < k && log[i] == Finished(d, true)
  {
    PrefixIsLawful(log, k, stages, maxWorkers);
    i := CompletedByEvent(log[..k], d);
  }

  /** Nothing is submitted after the first failure. */
  lemma NothingStartsAfterFailure(log: seq<Event>, i: nat, k: nat, stages: seq<Stage>, maxWorkers: int)
    requires Lawful(log, stages, maxWorkers) && i < k < |log| && Failure(log[i])
    ensures !Starts(log[k])
  {
    PrefixIsLawful(log, k, stages, maxWorkers);
    assert log[i] in log[..k];
  }

  /** A stage is cancelled at most once, while it runs, and only after a failure. */
  lemma CancelledOnce(log: seq<Event>, i: nat, k: nat, stages: seq<Stage>, maxWorkers: int)
    requires Lawful(log, stages, maxWorkers) && i < k < |log| && log[i].Cancelled? && log[k].Cancelled?
    ensures log[i].name != log[k].name
    ensures log[k].name in RunningNames(log[..k]) && HasFailed(log[..k])
  {
    PrefixIsLawful(log, k, stages, maxWorkers);
    CancelledBefore(log[..k], i);
  }

  lemma {:induction false} RunningBounded(log: seq<Event>, stages: seq<Stage>, maxWorkers: int)
    requires Lawful(log, stages, maxWorkers) && maxWorkers >= 0
    ensures |RunningNames(log)| <= maxWorkers
    decreases |log|
  {
    if log != [] {
      RunningBounded(log[..|log| - 1], stages, maxWorkers);
      var before := RunningNames(log[..|log| - 1]);
      match log[|log| - 1]
      case Submitted(s) => assert |before + {s.name}| <= |before| + 1;
      case Finished(n, _) => assert |before - {n}| <= |before|;
      case _ =>
    }
  }

  /** At every moment at most `maxWorkers` stages run. */
  lemma AtMostMaxWorkers(log: seq<Event>, k: nat, stages: seq<Stage>, maxWorkers: int)
    requires Lawful(log, stages, maxWorkers) && k <= |log| && maxWorkers >= 0
    ensures |RunningNames(log[..k])| <= maxWorkers
  {
    PrefixIsLawful(log, k, stages, maxWorkers);
    RunningBounded(log[..k], stages, maxWorkers);
  }

  /** If nothing is running at the end, every submitted stage was awaited. */
  lemma {:induction false} EverySubmittedIsAwaited(log: seq<Event>, i: nat) returns (k: nat)
    requires i < |log| && log[i].Submitted? && log[i].stage.name !in RunningNames(log)
    ensures i < k < |log| && log[k].Finished? && log[k].name == log[i].stage.name
    decreases |log|
  {
    var last := log[|log| - 1];
    if i < |log| - 1 && last.Finished? && last.name == log[i].stage.name {
      k := |log| - 1;
    } else {
      k := EverySubmittedIsAwaited(log[..|log| - 1], i);
    }
  }

  // -------------------------------------------------------------------- the executor

  /** `_cancel_running`: stages whose wait has already ended, or that cannot be cancelled, are passed over. */
  method CancelRunning(running: seq<Stage>, cancelled: set<Name>, log: seq<Event>, failures: seq<Name>,
                       ghost stages: seq<Stage>, ghost maxWorkers: int)
    returns (cancelledNow: set<Name>, logNow: seq<Event>, failuresNow: seq<Name>)
    requires Lawful(log, stages, maxWorkers) && HasFailed(log) && failures != []
    requires Names(running) == RunningNames(log) && cancelled == CancelledNames(log)
    ensures Lawful(logNow, stages, maxWorkers) && HasFailed(logNow) && failuresNow != []
    ensures RunningNames(logNow) == RunningNames(log) && CompletedNames(logNow) == CompletedNames(log)
    ensures SubmittedNames(logNow) == SubmittedNames(log) && cancelledNow == CancelledNames(logNow)
  {
    cancelledNow, logNow, failuresNow := cancelled, log, failures;
    for k := 0 to |running|
      invariant Lawful(logNow, stages, maxWorkers) && HasFailed(logNow) && failuresNow != []
      invariant RunningNames(logNow) == RunningNames(log) && CompletedNames(logNow) == CompletedNames(log)
      invariant SubmittedNames(logNow) == SubmittedNames(log) && cancelledNow == CancelledNames(logNow)
    {
      var name := running[k].name;
      assert running[k] in running;
      if name !in cancelledNow {
        if * {
          cancelledNow := cancelledNow + {name};
          Append(logNow, Cancelled(name), stages, maxWorkers);
          logNow := logNow + [Cancelled(name)];
          if * {
            failuresNow := failuresNow + [name + " cancellation"];
          }
        }
      }
    }
  }

  /** The executor's variables, all of them real; the log is what it did so far. */
  datatype Progress = Progress(
    pending: seq<Stage>,
    completed: set<Name>,
    running: seq<Stage>,
    cancelled: set<Name>,
    failures: seq<Name>,
    log: seq<Event>)

  /** The variables say what the log says. */
  ghost predicate Tracks(p: Progress, stages: seq<Stage>, maxWorkers: int) {
    && Lawful(p.log, stages, maxWorkers)
    && p.completed == CompletedNames(p.log)
    && p.cancelled == CancelledNames(p.log)
    && Names(p.running) == RunningNames(p.log)
    && |p.running| == |RunningNames(p.log)| <= maxWorkers
    && (p.failures != [] <==> HasFailed(p.log))
    && UniqueNames(p.running)
    && p.completed !! Names(p.running)
    && (forall s | s in p.running :: s in stages)
  }

  /** Without a failure everything is completed, running or pending in a legal order. */
  ghost predicate OnCourse(p: Progress, stages: seq<Stage>) {
    && p.failures == []
    && UniqueNames(p.pending)
    && Topological(p.pending, p.completed + Names(p.running))
    && (forall s | s in p.pending :: s in stages)
    && SubmittedNames(p.log) == p.completed + Names(p.running)
    && Names(stages) == p.completed + Names(p.running) + Names(p.pending)
    && Names(p.pending) !! SubmittedNames(p.log)
  }

  /** After a failure nothing is pending, and some stage will never complete. */
  ghost predicate GoneWrong(p: Progress, stages: seq<Stage>) {
    && p.failures != []
    && p.pending == []
    && exists n :: n in Names(stages) && n !in p.completed && n !in Names(p.running)
  }

  ghost predicate Sound(p: Progress, stages: seq<Stage>, maxWorkers: int) {
    Tracks(p, stages, maxWorkers) && (OnCourse(p, stages) || GoneWrong(p, stages))
  }

  // ------------------------------------------------------- what taking a stage out keeps

  lemma NamesWithout(pending: seq<Stage>, k: nat)
    requires k < |pending| && UniqueNames(pending)
    ensures UniqueNames(Without(pending, k))
    ensures Names(Without(pending, k)) == Names(pending) - {pending[k].name}
    ensures forall s | s in Without(pending, k) :: s in pending
  {
    var rest := Without(pending, k);
    forall s | s in pending && s != pending[k]
      ensures s in rest
    {
      var i :| 0 <= i < |pending| && pending[i] == s;
      assert rest[if i < k then i else i - 1] == s;
    }
    assert forall i | 0 <= i < |rest| :: rest[i] == pending[if i < k then i else i + 1];
    assert pending[k] in pending;
    forall n | n in Names(pending) && n != pending[k].name
      ensures n in Names(rest)
    {
      var s :| s in pending && s.name == n;
    }
    forall n | n in Names(rest)
      ensures n in Names(pending) && n != pending[k].name
    {
      var s :| s in rest && s.name == n;
      var i :| 0 <= i < |rest| && rest[i] == s;
      assert pending[if i < k then i else i + 1] == s;
    }
  }

  lemma NamesOfPrefixes(pending: seq<Stage>, k: nat, i: nat)
    requires k < |pending| && i < |Without(pending, k)|
    ensures Names(pending[..if i < k then i else i + 1]) <= Names(Without(pending, k)[..i]) + {pending[k].name}
  {
    var rest := Without(pending, k);
    var m := if i < k then i else i + 1;
    forall n | n in Names(pending[..m])
      ensures n in Names(rest[..i]) || n == pending[k].name
    {
      var s :| s in pending[..m] && s.name == n;
      var j :| 0 <= j < m && pending[j] == s;
      if j != k {
        assert rest[..i][if j < k then j else j - 1] == s;
        assert s in rest[..i];
      }
    }
  }

  lemma ReadyMore(stage: Stage, done: set<Name>, more: set<Name>)
    requires Ready(stage, done) && done <= more
    ensures Ready(stage, more)
  {
  }

  lemma TopologicalWithout(pending: seq<Stage>, done: set<Name>, k: nat)
    requires k < |pending| && Topological(pending, done)
    ensures Topological(Without(pending, k), done + {pending[k].name})
  {
    var rest := Without(pending, k);
    forall i: nat | i < |rest|
      ensures Ready(rest[i], done + {pending[k].name} + Names(rest[..i]))
    {
      var m := if i < k then i else i + 1;
      var before, after := Names(pending[..m]), Names(rest[..i]);
      assert rest[i] == pending[m];
      assert Ready(pending[m], done + before);
      NamesOfPrefixes(pending, k, i);
      assert before <= after + {pending[k].name};
      ReadyMore(pending[m], done + before, done + {pending[k].name} + after);
    }
  }

  // -------------------------------------------------------------------- the inner loop

  lemma NamesSnoc(running: seq<Stage>, stage: Stage)
    ensures Names(running + [stage]) == Names(running) + {stage.name}
  {
    assert stage in running + [stage];
    forall s | s in running
      ensures s in running + [stage]
    {
    }
  }

  function AfterSubmit(p: Progress, k: nat): Progress
    requires k < |p.pending|
  {
    p.(pending := Without(p.pending, k), running := p.running + [p.pending[k]],
       log := p.log + [Submitted(p.pending[k])])
  }

  ghost predicate CanTake(p: Progress, k: nat, stages: seq<Stage>, maxWorkers: int) {
    && Tracks(p, stages, maxWorkers) && OnCourse(p, stages) && |p.running| < maxWorkers
    && k < |p.pending| && Ready(p.pending[k], p.completed)
  }

  lemma TakenMayFollow(p: Progress, k: nat, stages: seq<Stage>, maxWorkers: int)
    requires CanTake(p, k, stages, maxWorkers)
    ensures MayFollow(p.log, Submitted(p.pending[k]), stages, maxWorkers)
    ensures MayFollow(p.log, Refused(p.pending[k]), stages, maxWorkers)
    ensures p.pending[k].name in Names(stages) - p.completed - Names(p.running)
  {
    assert p.pending[k] in p.pending;
    assert p.pending[k].name in Names(p.pending);
  }

  lemma UniqueSnoc(running: seq<Stage>, stage: Stage)
    requires UniqueNames(running) && stage.name !in Names(running)
    ensures UniqueNames(running + [stage])
  {
    forall i | 0 <= i < |running|
      ensures running[i].name != stage.name
    {
      assert running[i] in running;
    }
  }

  lemma SubmitLogs(p: Progress, k: nat, stages: seq<Stage>, maxWorkers: int)
    requires CanTake(p, k, stages, maxWorkers)
    ensures var q := AfterSubmit(p, k);
            && Lawful(q.log, stages, maxWorkers) && !HasFailed(q.log)
            && q.completed == CompletedNames(q.log) && q.cancelled == CancelledNames(q.log)
            && RunningNames(q.log) == Names(p.running) + {p.pending[k].name}
            && SubmittedNames(q.log) == SubmittedNames(p.log) + {p.pending[k].name}
  {
    TakenMayFollow(p, k, stages, maxWorkers);
    Append(p.log, Submitted(p.pending[k]), stages, maxWorkers);
  }

  lemma SubmitTracks(p: Progress, k: nat, stages: seq<Stage>, maxWorkers: int)
    requires CanTake(p, k, stages, maxWorkers)
    ensures Tracks(AfterSubmit(p, k), stages, maxWorkers)
  {
    SubmitLogs(p, k, stages, maxWorkers);
    TakenMayFollow(p, k, stages, maxWorkers);
    NamesSnoc(p.running, p.pending[k]);
    UniqueSnoc(p.running, p.pending[k]);
    assert p.pending[k] in p.pending;
  }

  /** What is left pending stays in a legal order once the stage taken is running. */
  lemma PendingStaysLegal(pending: seq<Stage>, completed: set<Name>, running: seq<Stage>, k: nat)
    requires k < |pending| && Topological(pending, completed + Names(running))
    ensures Topological(Without(pending, k), completed + Names(running + [pending[k]]))
  {
    TopologicalWithout(pending, completed + Names(running), k);
    NamesSnoc(running, pending[k]);
    Associate(completed, Names(running), pending[k].name);
  }

  lemma Associate(completed: set<Name>, running: set<Name>, n: Name)
    ensures completed + running + {n} == completed + (running + {n})
  {
  }

  lemma MoveName(whole: set<Name>, completed: set<Name>, running: set<Name>, pending: set<Name>, n: Name)
    requires whole == completed + running + pending && n in pending && pending !! completed + running
    ensures whole == completed + (running + {n}) + (pending - {n})
    ensures pending - {n} !! completed + running + {n}
    ensures completed + running + {n} == completed + (running + {n})
  {
  }

  lemma SubmitOnCourse(p: Progress, k: nat, stages: seq<Stage>, maxWorkers: int)
    requires CanTake(p, k, stages, maxWorkers)
    ensures OnCourse(AfterSubmit(p, k), stages)
  {
    assert p.pending[k] in p.pending;
    SubmitLogs(p, k, stages, maxWorkers);
    PendingStaysLegal(p.pending, p.completed, p.running, k);
    NamesWithout(p.pending, k);
    NamesSnoc(p.running, p.pending[k]);
    MoveName(Names(stages), p.completed, Names(p.running), Names(p.pending), p.pending[k].name);
  }

  /** One round of the inner loop: take the first ready stage and submit it; the runner may refuse. */
  method SubmitOne(p: Progress, k: nat, ghost stages: seq<Stage>, ghost maxWorkers: int) returns (q: Progress)
    requires CanTake(p, k, stages, maxWorkers)
    ensures Sound(q, stages, maxWorkers) && |q.pending| + |q.running| <= |p.pending| + |p.running|
    ensures |q.pending| < |p.pending|
  {
    var stage := p.pending[k];
    if * {
      TakenMayFollow(p, k, stages, maxWorkers);
      Append(p.log, Refused(stage), stages, maxWorkers);
      var log := p.log + [Refused(stage)];
      var cancelled, after, failures := CancelRunning(p.running, p.cancelled, log, [stage.name], stages, maxWorkers);
      q := Progress([], p.completed, p.running, cancelled, failures, after);
    } else {
      SubmitTracks(p, k, stages, maxWorkers);
      SubmitOnCourse(p, k, stages, maxWorkers);
      q := AfterSubmit(p, k);
    }
  }

  /** The inner loop: submit ready stages while there is room and nothing has failed. */
  method SubmitReady(p: Progress, ghost stages: seq<Stage>, maxWorkers: int) returns (q: Progress)
    requires Sound(p, stages, maxWorkers)
    ensures Sound(q, stages, maxWorkers) && |q.pending| + |q.running| <= |p.pending| + |p.running|
    ensures q.pending == [] || |q.running| >= maxWorkers || FirstReady(q.pending, q.completed) == |q.pending|
  {
    q := p;
    while q.pending != [] && |q.running| < maxWorkers && q.failures == []
      invariant Sound(q, stages, maxWorkers) && |q.pending| + |q.running| <= |p.pending| + |p.running|
      decreases |q.pending|
    {
      var k := FirstReady(q.pending, q.completed);
      if k == |q.pending| { break; }
      q := SubmitOne(q, k, stages, maxWorkers);
    }
  }

  // -------------------------------------------------------------------- the outer loop

  function AfterFinish(p: Progress, k: nat): Progress
    requires k < |p.running|
  {
    var name := p.running[k].name;
    p.(running := Without(p.running, k), completed := p.completed + {name}, log := p.log + [Finished(name, true)])
  }

  lemma FinishedMayFollow(p: Progress, k: nat, ok: bool, stages: seq<Stage>, maxWorkers: int)
    requires Tracks(p, stages, maxWorkers) && k < |p.running|
    ensures MayFollow(p.log, Finished(p.running[k].name, ok), stages, maxWorkers)
    ensures p.running[k].name in Names(stages) && p.running[k].name in Names(p.running)
  {
    assert p.running[k] in p.running;
  }

  lemma FinishTracks(p: Progress, k: nat, stages: seq<Stage>, maxWorkers: int)
    requires Tracks(p, stages, maxWorkers) && k < |p.running|
    ensures Tracks(AfterFinish(p, k), stages, maxWorkers)
  {
    FinishedMayFollow(p, k, true, stages, maxWorkers);
    Append(p.log, Finished(p.running[k].name, true), stages, maxWorkers);
    NamesWithout(p.running, k);
  }

  lemma FinishSound(p: Progress, k: nat, stages: seq<Stage>, maxWorkers: int)
    requires Sound(p, stages, maxWorkers) && k < |p.running|
    ensures Sound(AfterFinish(p, k), stages, maxWorkers)
  {
    var q, name := AfterFinish(p, k), p.running[k].name;
    FinishTracks(p, k, stages, maxWorkers);
    FinishedMayFollow(p, k, true, stages, maxWorkers);
    Append(p.log, Finished(name, true), stages, maxWorkers);
    NamesWithout(p.running, k);
    if OnCourse(p, stages) {
      assert q.completed + Names(q.running) == p.completed + Names(p.running);
    } else {
      var n :| n in Names(stages) && n !in p.completed && n !in Names(p.running);
      assert n !in q.completed && n !in Names(q.running);
    }
  }

  /** A stage whose wait raised: what the log says. */
  lemma FailureLogged(p: Progress, k: nat, stages: seq<Stage>, maxWorkers: int)
    requires Tracks(p, stages, maxWorkers) && k < |p.running|
    ensures var log := p.log + [Finished(p.running[k].name, false)];
            && Lawful(log, stages, maxWorkers) && HasFailed(log)
            && RunningNames(log) == RunningNames(p.log) - {p.running[k].name}
            && CancelledNames(log) == p.cancelled && CompletedNames(log) == p.completed
  {
    FinishedMayFollow(p, k, false, stages, maxWorkers);
    Append(p.log, Finished(p.running[k].name, false), stages, maxWorkers);
  }

  /** And which stages go on. */
  lemma FailureLeaves(p: Progress, k: nat, stages: seq<Stage>, maxWorkers: int)
    requires Sound(p, stages, maxWorkers) && k < |p.running|
    ensures var name, left := p.running[k].name, Without(p.running, k);
            && Names(left) == RunningNames(p.log) - {name} && |left| == |Names(left)| && UniqueNames(left)
            && (forall s | s in left :: s in stages)
            && name in Names(stages) - p.completed - Names(left)
  {
    FinishedMayFollow(p, k, false, stages, maxWorkers);
    NamesWithout(p.running, k);
  }

  /** The first wait that ends, whichever it is; it returns or raises. */
  method AwaitOne(p: Progress, ghost stages: seq<Stage>, ghost maxWorkers: int) returns (q: Progress)
    requires Sound(p, stages, maxWorkers) && p.running != []
    ensures Sound(q, stages, maxWorkers) && |q.pending| + |q.running| < |p.pending| + |p.running|
  {
    var k :| 0 <= k < |p.running|;
    if * {
      FinishSound(p, k, stages, maxWorkers);
      q := AfterFinish(p, k);
    } else {
      FailureLogged(p, k, stages, maxWorkers);
      FailureLeaves(p, k, stages, maxWorkers);
      var name := p.running[k].name;
      var running, log := Without(p.running, k), p.log + [Finished(name, false)];
      var cancelled, after, failures := CancelRunning(running, p.cancelled, log, p.failures + [name], stages,
                                                      maxWorkers);
      q := Progress([], p.completed, running, cancelled, failures, after);
    }
  }

  lemma StartSound(stages: seq<Stage>, maxWorkers: int)
    requires UniqueNames(stages) && Topological(stages, {}) && maxWorkers >= 1
    ensures Sound(Progress(stages, {}, [], {}, [], []), stages, maxWorkers)
  {
    assert {} + Names([]) == {};
  }

  /** A stage is never stuck: with nothing running, the first pending stage is ready. */
  lemma SomeStageIsReady(p: Progress, stages: seq<Stage>, maxWorkers: int)
    requires Sound(p, stages, maxWorkers) && p.running == [] && p.pending != []
    ensures FirstReady(p.pending, p.completed) == 0
  {
    assert p.completed + Names([]) == p.completed;
    FirstIsReady(p.pending, p.completed);
  }

  lemma SoundEnd(p: Progress, stages: seq<Stage>, maxWorkers: int)
    requires Sound(p, stages, maxWorkers) && p.running == [] && p.pending == []
    ensures p.failures == [] <==> CompletedNames(p.log) == Names(stages)
    ensures RunningNames(p.log) == {}
  {
  }

  /**
   `execute_analysis`: every execution of a legal graph, whatever finishes when and however,
   obeys the law; every submitted stage is awaited; and it returns normally exactly when every
   stage has completed.
   */
  method ExecuteAnalysis(stages: seq<Stage>, maxWorkers: int) returns (outcome: Outcome, log: seq<Event>)
    requires UniqueNames(stages) && Topological(stages, {})
    ensures outcome == TooFewWorkers <==> maxWorkers < 1
    ensures Lawful(log, stages, maxWorkers) && RunningNames(log) == {}
    ensures outcome != NoStageReady
    ensures maxWorkers >= 1 ==> (outcome == Completed <==> CompletedNames(log) == Names(stages))
    ensures outcome.Failed? <==> HasFailed(log)
  {
    if maxWorkers < 1 { return TooFewWorkers, []; }
    StartSound(stages, maxWorkers);
    var p := Progress(stages, {}, [], {}, [], []);
    while p.pending != [] || p.running != []
      invariant Sound(p, stages, maxWorkers)
      decreases |p.pending| + |p.running|
    {
      p := SubmitReady(p, stages, maxWorkers);
      if p.running == [] {
        if p.pending != [] {
          SomeStageIsReady(p, stages, maxWorkers);
          return NoStageReady, p.log;
        }
        break;
      }
      p := AwaitOne(p, stages, maxWorkers);
    }
    SoundEnd(p, stages, maxWorkers);
    outcome := if p.failures != [] then Failed(p.failures) else Completed;
    log := p.log;
  }
}
