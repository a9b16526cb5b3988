/**
 Waiting for a stage's S3 marker: a loop over polls with a start deadline, an execution
 deadline and one grace poll after a terminal report.

 A trace fixes everything the environment decides: what each poll saw, which polls failed with
 a transient error, what the scheduler reported, and the clock when the loop looked at it.
*/
module MarkerWait {
  import opened Common

  datatype Report = Queued | Running | Terminal | Unknown

  /** One round: markers and scheduler report, or an error that kept them from being read. */
  datatype Poll = Unreadable(transient: bool) | Read(failed: bool, done: bool, report: Report)

  datatype Round = Round(poll: Poll, now: int)

  datatype Limits = Limits(timeout: int, startTimeout: Option<int>, probed: bool)

  datatype Wait = Wait(startDeadline: int, executionDeadline: Option<int>, terminalSeen: bool)

  datatype Ending = MarkerDone | MarkerFailed | TimedOut | EndedWithoutMarker | Error

  datatype Verdict = Continue(wait: Wait) | Stop(ending: Ending)

  function Begin(limits: Limits, start: int): Wait {
    Wait(start + if limits.startTimeout.Some? then limits.startTimeout.value else limits.timeout, None, false)
  }

  function Deadline(w: Wait): int {
    if w.executionDeadline.Some? then w.executionDeadline.value else w.startDeadline
  }

  /** The report the loop acts on: there is none without a probe or in the grace round. */
  function Observed(limits: Limits, w: Wait, poll: Poll): Option<Report>
    requires poll.Read?
  {
    if limits.probed && !w.terminalSeen then Some(poll.report) else None
  }

  /** The execution deadline starts with the first report that the job runs. */
  function Started(limits: Limits, w: Wait, round: Round): Wait
    requires round.poll.Read?
  {
    if Observed(limits, w, round.poll) == Some(Running) && w.executionDeadline == None
    then w.(executionDeadline := Some(round.now + limits.timeout))
    else w
  }

  function After(limits: Limits, w: Wait, round: Round): Verdict {
    match round.poll
    case Unreadable(false) => Stop(Error)
    case Unreadable(true) => if round.now >= Deadline(w) then Stop(TimedOut) else Continue(w)
    case Read(failed, done, _) =>
      if failed then Stop(MarkerFailed)
      else if done then Stop(MarkerDone)
      else
        var seen := Observed(limits, w, round.poll);
        var s := Started(limits, w, round);
        if round.now >= Deadline(s) && (s.executionDeadline.Some? || seen != Some(Queued)
                                        || limits.startTimeout.Some?) then
          Stop(TimedOut)
        else
          var extended := if round.now >= Deadline(s) then s.(startDeadline := round.now + limits.timeout) else s;
          if w.terminalSeen then Stop(EndedWithoutMarker)
          else Continue(extended.(terminalSeen := seen == Some(Terminal)))
  }

  /** The wait after all rounds of the trace, unless it ended with one of them. */
  function Course(limits: Limits, start: int, trace: seq<Round>): Verdict {
    if trace == [] then Continue(Begin(limits, start))
    else
      match Course(limits, start, trace[..|trace| - 1])
      case Stop(ending) => Stop(ending)
      case Continue(w) => After(limits, w, trace[|trace| - 1])
  }

  /** `wait_for_s3_marker`; the trace may end before the wait does. */
  method WaitForMarker(limits: Limits, start: int, trace: seq<Round>) returns (verdict: Verdict, rounds: nat)
    ensures rounds <= |trace| && verdict == Course(limits, start, trace) == Course(limits, start, trace[..rounds])
    ensures verdict.Continue? ==> rounds == |trace|
    ensures verdict.Stop? ==> rounds > 0 && Course(limits, start, trace[..rounds - 1]).Continue?
  {
    var startDeadline := start + if limits.startTimeout.Some? then limits.startTimeout.value else limits.timeout;
    var executionDeadline: Option<int> := None;
    var terminalSeen := false;
    rounds := 0;
    while rounds < |trace|
      invariant rounds <= |trace|
      invariant Course(limits, start, trace[..rounds]) == Continue(Wait(startDeadline, executionDeadline, terminalSeen))
    {
      var round := trace[rounds];
      assert trace[..rounds + 1][..rounds] == trace[..rounds];
      rounds := rounds + 1;
      StopsForGood(limits, start, trace, rounds);
      if round.poll.Unreadable? {
        if !round.poll.transient { return Stop(Error), rounds; }
        if round.now >= (if executionDeadline.Some? then executionDeadline.value else startDeadline) {
          return Stop(TimedOut), rounds;
        }
        continue;
      }
      if round.poll.failed { return Stop(MarkerFailed), rounds; }
      if round.poll.done { return Stop(MarkerDone), rounds; }
      var report: Option<Report> := if limits.probed && !terminalSeen then Some(round.poll.report) else None;
      if report == Some(Running) && executionDeadline == None {
        executionDeadline := Some(round.now + limits.timeout);
      }
      if round.now >= (if executionDeadline.Some? then executionDeadline.value else startDeadline) {
        if executionDeadline.Some? || report != Some(Queued) || limits.startTimeout.Some? {
          return Stop(TimedOut), rounds;
        }
        startDeadline := round.now + limits.timeout;
      }
      if terminalSeen { return Stop(EndedWithoutMarker), rounds; }
      if report == Some(Terminal) { terminalSeen := true; }
    }
    assert trace[..rounds] == trace;
    verdict := Continue(Wait(startDeadline, executionDeadline, terminalSeen));
  }

  /** Once ended, a wait is not resumed; while it goes on, it has not ended before. */
  lemma {:induction false} StopsForGood(limits: Limits, start: int, trace: seq<Round>, k: nat)
    requires k <= |trace|
    ensures Course(limits, start, trace[..k]).Stop? ==>
              Course(limits, start, trace) == Course(limits, start, trace[..k])
    ensures Course(limits, start, trace).Continue? ==> Course(limits, start, trace[..k]).Continue?
    decreases |trace|
  {
    if k < |trace| {
      assert trace[..|trace| - 1][..k] == trace[..k];
      StopsForGood(limits, start, trace[..|trace| - 1], k);
    } else {
      assert trace[..k] == trace;
    }
  }

  // ------------------------------------------------------------------------ the markers

  /**
   The wait returns only on a poll that saw the done marker and no failed marker, raises the
   stage's failure exactly on a poll that saw the failed marker, and no earlier poll saw any.
   */
  lemma EndsWithAMarker(limits: Limits, start: int, trace: seq<Round>, k: nat)
    requires trace != [] && Course(limits, start, trace[..|trace| - 1]).Continue? && k < |trace|
    ensures var last := trace[|trace| - 1].poll;
            && (Course(limits, start, trace) == Stop(MarkerDone) <==> last.Read? && last.done && !last.failed)
            && (Course(limits, start, trace) == Stop(MarkerFailed) <==> last.Read? && last.failed)
    ensures k < |trace| - 1 && trace[k].poll.Read? ==> !trace[k].poll.done && !trace[k].poll.failed
  {
    if k < |trace| - 1 {
      var before := trace[..|trace| - 1];
      StopsForGood(limits, start, before, k + 1);
      StopsForGood(limits, start, before, k);
      assert before[..k + 1][..k] == before[..k];
      assert before[..k + 1][k] == trace[k];
    }
  }

  // ---------------------------------------------------------------- the execution deadline

  /** The deadline of a wait that goes on is the one its first running report started. */
  ghost predicate StartedAt(limits: Limits, trace: seq<Round>, i: nat, deadline: int) {
    && i < |trace| && trace[i].poll.Read? && trace[i].poll.report == Running
    && deadline == trace[i].now + limits.timeout
    && forall k | 0 <= k < i :: trace[k].poll.Read? ==> trace[k].poll.report != Running
  }

  lemma {:induction false} ExecutionDeadlineStartsOnce(limits: Limits, start: int, trace: seq<Round>) returns (i: nat)
    requires Course(limits, start, trace).Continue? && limits.probed
    ensures var deadline := Course(limits, start, trace).wait.executionDeadline;
            && (deadline.Some? ==> StartedAt(limits, trace, i, deadline.value))
            && (deadline == None ==> forall k | 0 <= k < |trace| && trace[k].poll.Read? ::
                trace[k].poll.report != Running)
    decreases |trace|
  {
    i := 0;
    if trace != [] {
      var before, round := trace[..|trace| - 1], trace[|trace| - 1];
      i := ExecutionDeadlineStartsOnce(limits, start, before);
      var w := Course(limits, start, before).wait;
      if w.executionDeadline == None && Course(limits, start, trace).wait.executionDeadline.Some? { i := |trace| - 1; }
    }
  }

  /** It is never moved. */
  lemma {:induction false} ExecutionDeadlineStays(limits: Limits, start: int, trace: seq<Round>, k: nat)
    requires k <= |trace| && Course(limits, start, trace).Continue?
    ensures Course(limits, start, trace[..k]).Continue?
    ensures var early := Course(limits, start, trace[..k]).wait.executionDeadline;
            early.Some? ==> Course(limits, start, trace).wait.executionDeadline == early
    decreases |trace|
  {
    if k < |trace| {
      assert trace[..|trace| - 1][..k] == trace[..k];
      ExecutionDeadlineStays(limits, start, trace[..|trace| - 1], k);
    } else {
      assert trace[..k] == trace;
    }
  }

  // ---------------------------------------------------------------------- the grace round

  /** Round `i` reported the end; since then no poll could be read. */
  ghost predicate OnlyUnreadableSince(trace: seq<Round>, i: nat) {
    && i < |trace| && trace[i].poll.Read? && trace[i].poll.report == Terminal
    && forall k | i < k < |trace| :: trace[k].poll == Unreadable(true)
  }

  lemma {:induction false} TerminalSeenOnce(limits: Limits, start: int, trace: seq<Round>) returns (i: nat)
    requires Course(limits, start, trace).Continue? && Course(limits, start, trace).wait.terminalSeen
    ensures OnlyUnreadableSince(trace, i)
    decreases |trace|
  {
    var before := trace[..|trace| - 1];
    if Course(limits, start, before).wait.terminalSeen {
      i := TerminalSeenOnce(limits, start, before);
      assert forall k | 0 <= k < |before| :: before[k] == trace[k];
    } else {
      i := |trace| - 1;
    }
  }

  /** A terminal report gets exactly one further poll that can be read. */
  lemma EndedAfterOneMorePoll(limits: Limits, start: int, trace: seq<Round>) returns (i: nat)
    requires trace != [] && Course(limits, start, trace[..|trace| - 1]).Continue?
    requires Course(limits, start, trace) == Stop(EndedWithoutMarker)
    ensures OnlyUnreadableSince(trace[..|trace| - 1], i) && trace[|trace| - 1].poll.Read?
  {
    i := TerminalSeenOnce(limits, start, trace[..|trace| - 1]);
  }

  /** After a terminal report, the next poll that can be read ends the wait. */
  lemma GraceEndsTheWait(limits: Limits, start: int, trace: seq<Round>)
    requires trace != [] && Course(limits, start, trace[..|trace| - 1]).Continue?
    requires Course(limits, start, trace[..|trace| - 1]).wait.terminalSeen && trace[|trace| - 1].poll.Read?
    ensures Course(limits, start, trace).Stop?
  {
  }

  // ---------------------------------------------------------------- staying past a deadline

  /**
   A poll without markers lets the wait go on exactly before the deadline in force, or while
   the job is reported queued, has not run, and no start timeout was given; the latter moves
   the start deadline, nothing else does.
   */
  lemma GoesOnExactlyWhen(limits: Limits, start: int, trace: seq<Round>)
    requires trace != [] && Course(limits, start, trace[..|trace| - 1]).Continue?
    requires var last := trace[|trace| - 1].poll; last.Read? && !last.failed && !last.done
    requires !Course(limits, start, trace[..|trace| - 1]).wait.terminalSeen
    ensures var w, round := Course(limits, start, trace[..|trace| - 1]).wait, trace[|trace| - 1];
            var s := Started(limits, w, round);
            var stillQueued := limits.probed && round.poll.report == Queued && s.executionDeadline == None
                && limits.startTimeout == None;
            && (Course(limits, start, trace).Continue? <==> round.now < Deadline(s) || stillQueued)
            && (Course(limits, start, trace).Continue? ==>
                 Course(limits, start, trace).wait.startDeadline
                 == if round.now < Deadline(s) then w.startDeadline else round.now + limits.timeout)
  {
  }

  /** With a start timeout, or once the job ran, the clock of a wait that goes on is before its deadline. */
  lemma NoExtensionWithStartTimeout(limits: Limits, start: int, trace: seq<Round>)
    requires trace != [] && Course(limits, start, trace).Continue?
    ensures var w := Course(limits, start, trace).wait;
            limits.startTimeout.Some? || w.executionDeadline.Some? ==> trace[|trace| - 1].now < Deadline(w)
  {
  }

  // ------------------------------------------------------------------------- termination

  /** The clock moves on by at least `step` and at most `gap` from round to round. */
  predicate Paced(start: int, trace: seq<Round>, step: nat, gap: nat) {
    && (trace != [] ==> start + step <= trace[0].now <= start + gap)
    && forall k | 0 < k < |trace| :: trace[k - 1].now + step <= trace[k].now <= trace[k - 1].now + gap
  }

  lemma {:induction false} StartDeadlineFixed(limits: Limits, start: int, trace: seq<Round>)
    requires limits.startTimeout.Some? && Course(limits, start, trace).Continue?
    ensures Course(limits, start, trace).wait.startDeadline == start + limits.startTimeout.value
    decreases |trace|
  {
    if trace != [] { StartDeadlineFixed(limits, start, trace[..|trace| - 1]); }
  }

  lemma {:induction false} ExecutionDeadlineBounded(limits: Limits, start: int, trace: seq<Round>, gap: nat)
    requires limits.startTimeout.Some? && limits.startTimeout.value >= 0
    requires Paced(start, trace, 0, gap) && Course(limits, start, trace).Continue?
    ensures var deadline := Course(limits, start, trace).wait.executionDeadline;
            deadline.Some? ==> deadline.value <= start + limits.startTimeout.value + gap + limits.timeout
    decreases |trace|
  {
    if trace != [] {
      var before := trace[..|trace| - 1];
      ExecutionDeadlineBounded(limits, start, before, gap);
      if Course(limits, start, before).wait.executionDeadline == None && before != [] {
        NoExtensionWithStartTimeout(limits, start, before);
        StartDeadlineFixed(limits, start, before);
        assert trace[|trace| - 1].now <= trace[|trace| - 2].now + gap;
      }
    }
  }

  /**
   With a start timeout the wait ends: as long as it goes on, the clock is before the start
   timeout, plus one gap between polls, plus the execution timeout.
   */
  lemma EndsInTime(limits: Limits, start: int, trace: seq<Round>, gap: nat)
    requires limits.startTimeout.Some? && limits.startTimeout.value >= 0 && limits.timeout >= 0
    requires Paced(start, trace, 0, gap) && Course(limits, start, trace).Continue? && trace != []
    ensures trace[|trace| - 1].now < start + limits.startTimeout.value + gap + limits.timeout
  {
    NoExtensionWithStartTimeout(limits, start, trace);
    StartDeadlineFixed(limits, start, trace);
    ExecutionDeadlineBounded(limits, start, trace, gap);
  }

  lemma {:induction false} ClockAdvances(start: int, trace: seq<Round>, gap: nat)
    requires Paced(start, trace, 1, gap) && trace != []
    ensures trace[|trace| - 1].now >= start + |trace|
    decreases |trace|
  {
    if |trace| > 1 {
      ClockAdvances(start, trace[..|trace| - 1], gap);
      assert trace[|trace| - 2].now + 1 <= trace[|trace| - 1].now;
    }
  }

  /** So the number of polls is bounded as soon as each takes some time. */
  lemma PollsAreBounded(limits: Limits, start: int, trace: seq<Round>, gap: nat)
    requires limits.startTimeout.Some? && limits.startTimeout.value >= 0 && limits.timeout >= 0
    requires Paced(start, trace, 1, gap) && |trace| >= limits.startTimeout.value + gap + limits.timeout && trace != []
    ensures Course(limits, start, trace).Stop?
  {
    ClockAdvances(start, trace, gap);
    if Course(limits, start, trace).Continue? { EndsInTime(limits, start, trace, gap); }
  }

  /** Without one it need not end: a job reported queued for ever is waited for, for ever. */
  function QueuedForEver(limits: Limits, start: int, count: nat): seq<Round> {
    seq(count, k requires 0 <= k => Round(Read(false, false, Queued), start + limits.timeout * (k + 1)))
  }

  lemma {:induction false} QueueTimeIsUnbounded(limits: Limits, start: int, count: nat)
    requires limits.startTimeout == None && limits.probed && limits.timeout > 0
    ensures Course(limits, start, QueuedForEver(limits, start, count))
         == Continue(Wait(start + limits.timeout * (count + 1), None, false))
    decreases count
  {
    var trace := QueuedForEver(limits, start, count);
    if count > 0 {
      QueueTimeIsUnbounded(limits, start, count - 1);
      assert trace[..count - 1] == QueuedForEver(limits, start, count - 1);
    }
  }
}
