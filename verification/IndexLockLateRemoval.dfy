/**
 A run in which the lock of the index fails although nobody dies and the clock never moves: a
 job that waits to write removes an entry later than it decided to, and hits a new one.
*/
module IndexLockLateRemoval {
  import opened Common
  import opened IndexLock
  import opened IndexLockLimits

  /** Three jobs with expiry 10, at time 0. */
  function Three(made: nat, entries: map<Path, Entry>, one: JobState, two: JobState, three: JobState): State {
    State(0, made, entries, map[1 := one, 2 := two, 3 := three])
  }

  function Job10(pc: Pc, mine: nat, doing: Doing): JobState {
    JobState(pc, 10, mine, doing)
  }

  /** Steps in which no job ends and the clock does not move. */
  predicate Undisturbed(steps: seq<Step>) {
    forall step | step in steps :: !step.Tick? && !step.End?
  }

  ghost predicate Arrives(steps: seq<Step>, s: State) {
    Leads(Init(), steps, s) && Undisturbed(steps)
  }

  lemma Further(steps: seq<Step>, s: State, step: Step, t: State) returns (more: seq<Step>)
    requires Arrives(steps, s) && Enabled(s, step) && Next(s, step) == t && !step.Tick? && !step.End?
    ensures Arrives(more, t)
  {
    OneMore(Init(), steps, s, step);
    more := steps + [step];
  }

  /** A job removes what it finds under the name, whoever counts on it. */
  lemma RemovesWhatItFinds(steps: seq<Step>, s: State, j: Job, target: Option<nat>, path: Path)
    returns (more: seq<Step>)
    requires j in s.jobs && s.jobs[j].pc != Ended && s.jobs[j].doing == Idle && path in s.entries
    requires Arrives(steps, Does(s, j, Condemned(path, target)))
    ensures Arrives(more, Gone(s, path))
  {
    var e := s.entries[path];
    var entered := Does(s, j, Opened(path, e.id));
    more := Further(steps, Does(s, j, Condemned(path, target)), Open(j), entered);
    var half := entered.(entries := entered.entries[path := Without(e, ExpiryFile)]);
    more := Further(more, entered, Drop(j, ExpiryFile), half);
    var empty := entered.(entries := entered.entries[path := Without(Without(e, ExpiryFile), JobFile)]);
    more := Further(more, half, Drop(j, JobFile), empty);
    assert empty.entries - {path} == s.entries - {path};
    assert empty.jobs[j := empty.jobs[j].(doing := Idle)] == s.jobs;
    more := Further(more, empty, RemoveName(j), Gone(s, path));
  }

  const R1 := ReaderEntry(1)
  const FREE := Job10(Outside, 0, Idle)

  /** The entry of job `j`, as directory `id`. */
  function Whole(id: nat, j: Job): Entry {
    Entry(id, j, Some(10), true)
  }

  lemma AllStart() returns (steps: seq<Step>)
    ensures Arrives(steps, Three(0, map[], FREE, FREE, FREE))
  {
    steps := [];
    assert Arrives([], Init());
    var one := State(0, 0, map[], map[1 := FREE]);
    var two := State(0, 0, map[], map[1 := FREE, 2 := FREE]);
    steps := Further(steps, Init(), Start(1, 10), one);
    steps := Further(steps, one, Start(2, 10), two);
    steps := Further(steps, two, Start(3, 10), Three(0, map[], FREE, FREE, FREE));
  }

  /** Job 1, in the loop of the shared lock, finds no writer and creates its entry as directory `id`. */
  lemma OneEnters(steps: seq<Step>, id: nat, mine: nat, two: JobState, three: JobState) returns (more: seq<Step>)
    requires Arrives(steps, Three(id, map[], Job10(WantsShared, mine, Idle), two, three))
    ensures Arrives(more, Three(id + 1, map[R1 := Whole(id, 1)], Job10(EnteredAsReader, id, Idle), two, three))
  {
    var wants, saw := Job10(WantsShared, mine, Idle), Job10(SawNoWriter, mine, Idle);
    more := Further(steps, Three(id, map[], wants, two, three), CheckWriter(1), Three(id, map[], saw, two, three));
    more := Further(more, Three(id, map[], saw, two, three), EnterReader(1),
                    Three(id + 1, map[R1 := Whole(id, 1)], Job10(EnteredAsReader, id, Idle), two, three));
  }

  /** Job 3 creates the writer entry before job 1 looks again. */
  lemma ThreeCutsIn() returns (steps: seq<Step>)
    ensures Arrives(steps, Three(2, map[R1 := Whole(0, 1), WriterEntry := Whole(1, 3)],
                                 Job10(EnteredAsReader, 0, Idle), FREE, Job10(EnteredAsWriter, 1, Idle)))
  {
    var alone, entered := map[R1 := Whole(0, 1)], Job10(EnteredAsReader, 0, Idle);
    steps := AllStart();
    steps := Further(steps, Three(0, map[], FREE, FREE, FREE), Want(1, WantsShared),
                     Three(0, map[], Job10(WantsShared, 0, Idle), FREE, FREE));
    steps := OneEnters(steps, 0, 0, FREE, FREE);
    steps := Further(steps, Three(1, alone, entered, FREE, FREE), Want(3, WantsExclusive),
                     Three(1, alone, entered, FREE, Job10(WantsExclusive, 0, Idle)));
    steps := Further(steps, Three(1, alone, entered, FREE, Job10(WantsExclusive, 0, Idle)), EnterWriter(3),
                     Three(2, alone[WriterEntry := Whole(1, 3)], entered, FREE, Job10(EnteredAsWriter, 1, Idle)));
  }

  /** The two entries while job 1 removes its own. */
  function Half(named: bool): map<Path, Entry> {
    map[R1 := Entry(0, 1, None, named), WriterEntry := Whole(1, 3)]
  }

  const REMOVING := Job10(WantsShared, 0, Opened(R1, 0))
  const WAITING := Job10(EnteredAsWriter, 1, Idle)

  /** Job 1 steps back: so far it has removed its expiry file. */
  lemma OneHalfGone() returns (steps: seq<Step>)
    ensures Arrives(steps, Three(2, Half(true), REMOVING, FREE, WAITING))
  {
    var both := map[R1 := Whole(0, 1), WriterEntry := Whole(1, 3)];
    var leaving := Job10(WantsShared, 0, Condemned(R1, Some(0)));
    steps := ThreeCutsIn();
    steps := Further(steps, Three(2, both, Job10(EnteredAsReader, 0, Idle), FREE, WAITING), RecheckWriter(1),
                     Three(2, both, leaving, FREE, WAITING));
    steps := Further(steps, Three(2, both, leaving, FREE, WAITING), Open(1), Three(2, both, REMOVING, FREE, WAITING));
    steps := Further(steps, Three(2, both, REMOVING, FREE, WAITING), Drop(1, ExpiryFile),
                     Three(2, Half(true), REMOVING, FREE, WAITING));
  }

  /** What job 2 is about to do, having read job 1's first entry half removed. */
  const LATE := Job10(FoundWriter, 0, Condemned(R1, Some(0)))

  /** Job 2 calls for the exclusive lock and finds the writer entry taken. */
  lemma TwoWaits() returns (steps: seq<Step>)
    ensures Arrives(steps, Three(2, Half(true), REMOVING, Job10(FoundWriter, 0, Idle), WAITING))
  {
    var wants, found := Job10(WantsExclusive, 0, Idle), Job10(FoundWriter, 0, Idle);
    steps := OneHalfGone();
    steps := Further(steps, Three(2, Half(true), REMOVING, FREE, WAITING), Want(2, WantsExclusive),
                     Three(2, Half(true), REMOVING, wants, WAITING));
    steps := Further(steps, Three(2, Half(true), REMOVING, wants, WAITING), EnterWriter(2),
                     Three(2, Half(true), REMOVING, found, WAITING));
  }

  /** So it clears what it takes for expired. */
  lemma TwoSeesHalf() returns (steps: seq<Step>)
    ensures Arrives(steps, Three(2, Half(true), REMOVING, LATE, WAITING))
  {
    var found, noticed := Job10(FoundWriter, 0, Idle), Job10(FoundWriter, 0, Noticed(R1));
    steps := TwoWaits();
    steps := Further(steps, Three(2, Half(true), REMOVING, found, WAITING), Notice(2, R1),
                     Three(2, Half(true), REMOVING, noticed, WAITING));
    steps := Further(steps, Three(2, Half(true), REMOVING, noticed, WAITING), IndexLock.Read(2),
                     Three(2, Half(true), REMOVING, LATE, WAITING));
  }

  /** Job 1 has stepped back, so job 3 writes. */
  lemma ThreeWrites() returns (steps: seq<Step>)
    ensures Arrives(steps, Three(2, map[WriterEntry := Whole(1, 3)], Job10(WantsShared, 0, Idle), LATE,
                                 Job10(Writing, 1, Idle)))
  {
    var back, held := Job10(WantsShared, 0, Idle), map[WriterEntry := Whole(1, 3)];
    steps := TwoSeesHalf();
    steps := Further(steps, Three(2, Half(true), REMOVING, LATE, WAITING), Drop(1, JobFile),
                     Three(2, Half(false), REMOVING, LATE, WAITING));
    assert Half(false) - {R1} == held;
    steps := Further(steps, Three(2, Half(false), REMOVING, LATE, WAITING), RemoveName(1),
                     Three(2, held, back, LATE, WAITING));
    steps := Further(steps, Three(2, held, back, LATE, WAITING), FindNoReaders(3),
                     Three(2, held, back, LATE, Job10(Writing, 1, Idle)));
  }

  const WRITTEN := Job10(Outside, 1, Idle)

  /** And it unlocks. */
  lemma ThreeHasWritten() returns (steps: seq<Step>)
    ensures Arrives(steps, Three(2, map[], Job10(WantsShared, 0, Idle), LATE, WRITTEN))
  {
    var back, held := Job10(WantsShared, 0, Idle), map[WriterEntry := Whole(1, 3)];
    var s := Three(2, held, back, LATE, WRITTEN);
    steps := ThreeWrites();
    steps := Further(steps, Three(2, held, back, LATE, Job10(Writing, 1, Idle)), Leave(3),
                     Does(s, 3, Condemned(WriterEntry, Some(1))));
    steps := RemovesWhatItFinds(steps, s, 3, Some(1), WriterEntry);
    assert held - {WriterEntry} == map[];
  }

  /** Job 1 tries again and reads, under the same name; job 2's late removal takes the new entry. */
  lemma LateRemoval() returns (steps: seq<Step>)
    ensures Arrives(steps, Three(3, map[], Job10(Reading, 2, Idle), Job10(FoundWriter, 0, Idle), WRITTEN))
  {
    var held, reading := map[R1 := Whole(2, 1)], Job10(Reading, 2, Idle);
    var s := Three(3, held, reading, Job10(FoundWriter, 0, Idle), WRITTEN);
    steps := ThreeHasWritten();
    steps := OneEnters(steps, 2, 0, LATE, WRITTEN);
    steps := Further(steps, Three(3, held, Job10(EnteredAsReader, 2, Idle), LATE, WRITTEN), RecheckWriter(1),
                     Three(3, held, reading, LATE, WRITTEN));
    assert Does(s, 2, Condemned(R1, Some(0))) == Three(3, held, reading, LATE, WRITTEN);
    steps := RemovesWhatItFinds(steps, s, 2, Some(0), R1);
    assert held - {R1} == map[];
  }

  /** Job 2 tries again, and nothing is in its way. */
  lemma TwoEnters() returns (steps: seq<Step>)
    ensures Arrives(steps, Three(4, map[WriterEntry := Whole(3, 2)], Job10(Reading, 2, Idle),
                                 Job10(EnteredAsWriter, 3, Idle), WRITTEN))
  {
    var reading, wants := Job10(Reading, 2, Idle), Job10(WantsExclusive, 0, Idle);
    steps := LateRemoval();
    steps := Further(steps, Three(3, map[], reading, Job10(FoundWriter, 0, Idle), WRITTEN), Retry(2),
                     Three(3, map[], reading, wants, WRITTEN));
    steps := Further(steps, Three(3, map[], reading, wants, WRITTEN), EnterWriter(2),
                     Three(4, map[WriterEntry := Whole(3, 2)], reading, Job10(EnteredAsWriter, 3, Idle), WRITTEN));
  }

  /**
   A reader that stepped back for a writer and tried again loses its second entry to a job that
   waits to write and saw the first one half removed; that job then writes beside it. Nobody
   died, no expiry passed.
   */
  lemma LateRemovalBreaksExclusion() returns (steps: seq<Step>)
    ensures Possible(Init(), steps) && Undisturbed(steps)
    ensures var s := After(Init(), steps);
            1 in s.jobs && 2 in s.jobs && s.jobs[1].pc == Reading && s.jobs[2].pc == Writing
  {
    var reading, held := Job10(Reading, 2, Idle), map[WriterEntry := Whole(3, 2)];
    steps := TwoEnters();
    steps := Further(steps, Three(4, held, reading, Job10(EnteredAsWriter, 3, Idle), WRITTEN), FindNoReaders(2),
                     Three(4, held, reading, Job10(Writing, 3, Idle), WRITTEN));
  }
}
