/**
 When the lock of the index fails: exactly when someone empties an entry that a live job counts
 on, and no entry left behind by a dead job stands in the way for as long as that job lives.
*/
module IndexLockLimits {
  import opened Common
  import opened IndexLock

  // -------------------------------------------------------------------- continuations

  ghost predicate Leads(s: State, steps: seq<Step>, t: State) {
    Possible(s, steps) && After(s, steps) == t
  }

  /** Some possible steps, none of them harmful, lead from one state to the other. */
  ghost predicate Reaches(s: State, t: State) {
    exists steps :: Leads(s, steps, t) && Harmless(s, steps)
  }

  lemma {:induction false} OneMore(s: State, steps: seq<Step>, t: State, step: Step)
    requires Leads(s, steps, t) && Enabled(t, step)
    ensures Leads(s, steps + [step], Next(t, step))
    ensures Harmless(s, steps) && !Harms(t, step) ==> Harmless(s, steps + [step])
    decreases |steps|
  {
    if steps == [] {
      assert [step][1..] == [];
    } else {
      OneMore(Next(s, steps[0]), steps[1..], t, step);
      assert (steps + [step])[1..] == steps[1..] + [step];
    }
  }

  lemma Stays(s: State)
    ensures Reaches(s, s)
  {
    assert Leads(s, [], s) && Harmless(s, []);
  }

  /** One further harmless step. */
  lemma Then(s: State, t: State, step: Step)
    requires Reaches(s, t) && Enabled(t, step) && !Harms(t, step)
    ensures Reaches(s, Next(t, step))
  {
    var steps :| Leads(s, steps, t) && Harmless(s, steps);
    OneMore(s, steps, t, step);
  }

  // ------------------------------------------------------------------ removing entries

  function Gone(s: State, path: Path): State {
    s.(entries := s.entries - {path})
  }

  /** A job that has opened an entry nobody counts on removes it. */
  lemma RemovesOpened(o: State, s: State, j: Job, path: Path)
    requires j in s.jobs && path in s.entries && Reaches(o, Does(s, j, Opened(path, s.entries[path].id)))
    requires s.jobs[j].pc != Ended && !Held(s, path)
    ensures Reaches(o, Gone(Does(s, j, Idle), path))
  {
    var e := s.entries[path];
    var entered := Does(s, j, Opened(path, e.id));
    var half := entered.(entries := entered.entries[path := Without(e, JobFile)]);
    Then(o, entered, Drop(j, JobFile));
    var empty := entered.(entries := entered.entries[path := Without(Without(e, JobFile), ExpiryFile)]);
    Then(o, half, Drop(j, ExpiryFile));
    assert Next(half, Drop(j, ExpiryFile)) == empty;
    Then(o, empty, RemoveName(j));
    assert Next(empty, RemoveName(j)) == Gone(Does(s, j, Idle), path) by {
      assert empty.entries - {path} == s.entries - {path};
      assert empty.jobs[j := empty.jobs[j].(doing := Idle)] == Does(s, j, Idle).jobs;
    }
  }

  /** A job that has decided to remove an entry nobody counts on does so. */
  lemma Removes(o: State, s: State, j: Job, target: Option<nat>, path: Path)
    requires j in s.jobs && Reaches(o, Does(s, j, Condemned(path, target)))
    requires s.jobs[j].pc != Ended && path in s.entries && !Held(s, path)
    ensures Reaches(o, Gone(Does(s, j, Idle), path))
  {
    var entered := Does(s, j, Opened(path, s.entries[path].id));
    Then(o, Does(s, j, Condemned(path, target)), Open(j));
    assert Next(Does(s, j, Condemned(path, target)), Open(j)) == entered;
    RemovesOpened(o, s, j, path);
  }

  predicate Expired(s: State, path: Path)
    requires path in s.entries
  {
    s.entries[path].expires.Some? ==> s.entries[path].expires.value <= s.now
  }

  lemma Clears(o: State, s: State, j: Job, path: Path)
    requires Reaches(o, s) && At(s, j, WantsShared) && path in s.entries && Expired(s, path) && !Held(s, path)
    ensures Reaches(o, Gone(s, path))
  {
    Then(o, s, Notice(j, path));
    Then(o, Does(s, j, Noticed(path)), IndexLock.Read(j));
    var condemned := Condemned(path, Some(s.entries[path].id));
    assert Next(Does(s, j, Noticed(path)), IndexLock.Read(j)) == Does(s, j, condemned);
    Removes(o, s, j, Some(s.entries[path].id), path);
    assert Does(s, j, Idle).jobs == s.jobs;
  }

  lemma {:induction false} ClearsAll(o: State, s: State, j: Job)
    requires Reaches(o, s) && At(s, j, WantsShared)
    requires forall path | path in s.entries :: Expired(s, path) && !Held(s, path)
    ensures Reaches(o, s.(entries := map[]))
    decreases |s.entries|
  {
    if s.entries == map[] {
      assert s == s.(entries := map[]);
    } else {
      var path :| path in s.entries;
      Clears(o, s, j, path);
      assert |Gone(s, path).entries| < |s.entries| by {
        assert Gone(s, path).entries.Keys == s.entries.Keys - {path};
      }
      ClearsAll(o, Gone(s, path), j);
      assert Gone(s, path).(entries := map[]) == s.(entries := map[]);
    }
  }

  // ------------------------------------------------------------------- everybody leaves

  /** The job holds its entry and is free to leave. */
  predicate FreeToLeave(s: State, path: Path)
    requires path in s.entries
  {
    var u := s.entries[path].job;
    && Held(s, path)
    && (At(s, u, EnteredAsReader) || At(s, u, Reading) || At(s, u, EnteredAsWriter) || At(s, u, Writing))
  }

  function Left(s: State, u: Job): State
    requires u in s.jobs
  {
    Does(Moved(s, u, Outside), u, Idle)
  }

  /** A reader that finds a writer steps back, and gives up. */
  lemma StepsBack(o: State, s: State, u: Job, path: Path)
    requires Reaches(o, s) && At(s, u, EnteredAsReader) && path == ReaderEntry(u) && path in s.entries
    requires WriterEntry in s.entries && s.entries[path].job == u
    ensures Reaches(o, Gone(Left(s, u), path))
  {
    var back := Does(Moved(s, u, WantsShared), u, Idle);
    Then(o, s, RecheckWriter(u));
    assert Next(s, RecheckWriter(u)) == Does(back, u, Condemned(path, Some(s.jobs[u].mine)));
    Removes(o, back, u, Some(s.jobs[u].mine), path);
    Then(o, Gone(back, path), GiveUp(u));
    assert Next(Gone(back, path), GiveUp(u)) == Gone(Left(s, u), path);
  }

  lemma Leaves(o: State, s: State, path: Path)
    requires Reaches(o, s) && path in s.entries && FreeToLeave(s, path)
    ensures Reaches(o, Gone(Left(s, s.entries[path].job), path))
  {
    var u := s.entries[path].job;
    if At(s, u, EnteredAsReader) && WriterEntry in s.entries {
      StepsBack(o, s, u, path);
    } else {
      var leaving := Does(Left(s, u), u, Condemned(path, Some(s.jobs[u].mine)));
      if At(s, u, EnteredAsReader) {
        Then(o, s, RecheckWriter(u));
        Then(o, Moved(s, u, Reading), Leave(u));
        assert Next(Moved(s, u, Reading), Leave(u)) == leaving;
      } else {
        Then(o, s, Leave(u));
        assert Next(s, Leave(u)) == leaving;
      }
      Removes(o, Left(s, u), u, Some(s.jobs[u].mine), path);
    }
  }

  /** The job is about to remove the entry, or already does. */
  predicate Removing(s: State, j: Job, path: Path)
    requires path in s.entries
  {
    && Live(s, j)
    && match s.jobs[j].doing
       case Condemned(p, _) => p == path
       case Opened(p, id) => p == path && id == s.entries[path].id
       case _ => false
  }

  /** The entry's expiry passes while `v` still lives, or cannot be read. */
  predicate Outlived(s: State, path: Path, v: Job)
    requires path in s.entries && v in s.jobs
  {
    s.entries[path].expires.Some? ==> s.entries[path].expires.value < s.jobs[v].expires
  }

  /** Nobody counts on the entry, nobody removes it, and it does not expire while `v` lives. */
  ghost predicate Stuck(s: State, path: Path, v: Job)
    requires v in s.jobs
  {
    path in s.entries && !Outlived(s, path, v) && !Held(s, path) && !exists j :: Removing(s, j, path)
  }

  ghost predicate NoneStuck(s: State, v: Job)
    requires v in s.jobs
  {
    forall path | path in s.entries :: !Stuck(s, path, v)
  }

  /** A job that removes its own entry, and still counts on it, could not read its expiry. */
  ghost predicate OwnAreTorn(s: State) {
    forall path | path in s.entries && Held(s, path) && Removing(s, s.entries[path].job, path) ::
      s.entries[path].expires == None
  }

  /** A job that counts on the entry under its expiry comes to remove it only if it cannot be read. */
  lemma {:induction false} NewOwnIsTorn(s: State, step: Step, path: Path)
    requires EntriesKnown(s) && ExpiryNotReached(s) && Enabled(s, step) && path in s.entries
    requires var s', j := Next(s, step), s.entries[path].job;
             && path in s'.entries && s'.entries[path] == s.entries[path] && Held(s', path)
             && Removing(s', j, path) && !Removing(s, j, path)
    ensures s.entries[path].expires == None
  {
    assert EntryKnown(s, path);
  }

  lemma {:induction false} HeldBefore(s: State, step: Step, path: Path)
    requires EntriesKnown(s) && Enabled(s, step) && path in Next(s, step).entries && Held(Next(s, step), path)
    requires path in s.entries && Next(s, step).entries[path].id == s.entries[path].id
    ensures Held(s, path) && Next(s, step).entries[path].job == s.entries[path].job
  {
    assert EntryKnown(s, path);
  }

  lemma {:induction false} OwnStayTorn(s: State, step: Step)
    requires OwnAreTorn(s) && EntriesKnown(s) && ExpiryNotReached(s) && Enabled(s, step)
    ensures OwnAreTorn(Next(s, step))
  {
    var s' := Next(s, step);
    forall path | path in s'.entries && Held(s', path) && Removing(s', s'.entries[path].job, path)
      ensures s'.entries[path].expires == None
    {
      if path in s.entries && s'.entries[path].id == s.entries[path].id {
        HeldBefore(s, step, path);
        if !Removing(s, s.entries[path].job, path) { NewOwnIsTorn(s, step, path); }
      }
    }
  }

  /** Nothing keeps the entries from going while `v`, whose own entry is gone, lives. */
  ghost predicate Clearable(s: State, v: Job) {
    && Live(s, v) && !Held(s, OwnPath(v, s.jobs[v].pc)) && NoneStuck(s, v)
    && BusyOutside(s) && OwnAreTorn(s) && ExpiryNotReached(s)
  }

  /** The same job, but for a removal it may have finished. */
  predicate SameButIdle(s: State, t: State, v: Job) {
    v in s.jobs && v in t.jobs && (t.jobs[v] == s.jobs[v] || t.jobs[v] == s.jobs[v].(doing := Idle))
  }

  /** Job `u` is idle now, its target `q` is gone, and it may have left the entry `q` it held. */
  ghost predicate Goes(s: State, next: State, u: Job, q: Path) {
    && u in s.jobs && next.now == s.now && next.entries == s.entries - {q}
    && (next.jobs == Does(s, u, Idle).jobs
        || (next.jobs == Left(s, u).jobs && Held(s, q) && s.entries[q].job == u))
    && forall path | path in s.entries && Removing(s, u, path) :: path == q
  }

  lemma {:induction false} StillClearable(s: State, next: State, u: Job, q: Path, v: Job)
    requires Clearable(s, v) && Goes(s, next, u, q)
    ensures Clearable(next, v) && SameButIdle(s, next, v) && next.jobs.Keys == s.jobs.Keys
  {
    forall path | path in next.entries
      ensures !Stuck(next, path, v)
    {
      assert path != q && !Stuck(s, path, v);
      if j :| Removing(s, j, path) {
        assert Removing(next, j, path);
      }
    }
  }

  /** A writer that still clears leaves as soon as it is idle. */
  lemma IdleWriterGoes(o: State, s: State, u: Job)
    requires WriterEntry in s.entries && Held(s, WriterEntry) && s.entries[WriterEntry].job == u
    requires s.jobs[u].pc == EnteredAsWriter && Reaches(o, Does(s, u, Idle))
    ensures Reaches(o, Gone(Left(s, u), WriterEntry))
  {
    var idle := Does(s, u, Idle);
    Leaves(o, idle, WriterEntry);
    assert Left(idle, u) == Left(s, u);
  }

  /** What a job is removing goes, or the job that counts on it leaves. */
  lemma TargetGoes(o: State, s: State, j: Job, q: Path, v: Job) returns (next: State)
    requires Reaches(o, s) && Clearable(s, v) && q in s.entries && Removing(s, j, q)
    requires q == WriterEntry ==> !Held(s, q)
    ensures Reaches(o, next) && next.entries == s.entries - {q} && next.now == s.now
    ensures Clearable(next, v) && SameButIdle(s, next, v) && next.jobs.Keys == s.jobs.Keys
  {
    if Held(s, q) {
      var r := s.entries[q].job;
      Leaves(o, s, q);
      next := Gone(Left(s, r), q);
      StillClearable(s, next, r, q, v);
    } else {
      assert Does(s, j, s.jobs[j].doing) == s by {
        assert Does(s, j, s.jobs[j].doing).jobs == s.jobs;
      }
      match s.jobs[j].doing {
        case Condemned(_, target) => Removes(o, s, j, target, q);
        case Opened(_, _) => RemovesOpened(o, s, j, q);
      }
      next := Gone(Does(s, j, Idle), q);
      StillClearable(s, next, j, q, v);
    }
  }

  /** The writer removes what no longer stands, and leaves. */
  lemma WriterDropsIt(o: State, s: State, u: Job, v: Job) returns (next: State, gone: Path)
    requires Reaches(o, s) && Clearable(s, v) && WriterEntry in s.entries && !Outlived(s, WriterEntry, v)
    requires Held(s, WriterEntry) && s.entries[WriterEntry].job == u && !s.jobs[u].doing.Noticed?
    requires forall q | q in s.entries :: !Removing(s, u, q)
    ensures Reaches(o, next) && gone in s.entries && next.entries == s.entries - {gone} && next.now == s.now
    ensures Clearable(next, v) && SameButIdle(s, next, v) && next.jobs.Keys == s.jobs.Keys
  {
    gone := WriterEntry;
    next := Gone(Left(s, u), WriterEntry);
    match s.jobs[u].doing {
      case Idle =>
        Leaves(o, s, WriterEntry);
      case Condemned(_, _) =>
        Then(o, s, Open(u));
        IdleWriterGoes(o, s, u);
      case Opened(q, _) =>
        Then(o, s, RemoveName(u));
        if q in s.entries && IsEmpty(s.entries[q]) {
          gone := q;
          next := Gone(Does(s, u, Idle), q);
        } else {
          IdleWriterGoes(o, s, u);
        }
    }
    StillClearable(s, next, u, gone, v);
  }

  /** The writer entry goes, or what its job is removing does first. */
  lemma WriterGoes(o: State, s: State, u: Job, v: Job) returns (next: State, gone: Path)
    requires Reaches(o, s) && Clearable(s, v) && WriterEntry in s.entries && !Outlived(s, WriterEntry, v)
    requires Held(s, WriterEntry) && s.entries[WriterEntry].job == u && !s.jobs[u].doing.Noticed?
    ensures Reaches(o, next) && gone in s.entries && next.entries == s.entries - {gone} && next.now == s.now
    ensures Clearable(next, v) && SameButIdle(s, next, v) && next.jobs.Keys == s.jobs.Keys
  {
    if q :| q in s.entries && Removing(s, u, q) {
      gone := q;
      next := TargetGoes(o, s, u, q, v);
    } else {
      next, gone := WriterDropsIt(o, s, u, v);
    }
  }

  /** It reads the expiry of what it noticed first. */
  lemma WriterReads(o: State, s: State, u: Job, v: Job) returns (next: State)
    requires Reaches(o, s) && Clearable(s, v) && WriterEntry in s.entries && !Outlived(s, WriterEntry, v)
    requires Held(s, WriterEntry) && s.entries[WriterEntry].job == u && s.jobs[u].doing.Noticed?
    ensures Reaches(o, next) && next.entries == s.entries && next.now == s.now && next.jobs.Keys == s.jobs.Keys
    ensures Clearable(next, v) && SameButIdle(s, next, v)
    ensures Held(next, WriterEntry) && !next.jobs[u].doing.Noticed?
  {
    Then(o, s, IndexLock.Read(u));
    next := Next(s, IndexLock.Read(u));
    forall path | path in next.entries
      ensures !Stuck(next, path, v)
    {
      assert !Stuck(s, path, v);
      if j :| Removing(s, j, path) {
        assert Removing(next, j, path);
      }
    }
  }

  /** An entry that `v` does not outlive goes, or another one does first. */
  lemma OneGoes(o: State, s: State, path: Path, v: Job) returns (next: State, gone: Path)
    requires Reaches(o, s) && Clearable(s, v) && path in s.entries && !Outlived(s, path, v)
    ensures Reaches(o, next) && gone in s.entries && next.entries == s.entries - {gone} && next.now == s.now
    ensures Clearable(next, v) && SameButIdle(s, next, v) && next.jobs.Keys == s.jobs.Keys
  {
    assert !Stuck(s, path, v);
    gone := path;
    if !Held(s, path) {
      var j :| Removing(s, j, path);
      next := TargetGoes(o, s, j, path, v);
    } else {
      var u := s.entries[path].job;
      if s.jobs[u].doing == Idle {
        Leaves(o, s, path);
        next := Gone(Left(s, u), path);
        StillClearable(s, next, u, path, v);
      } else if s.jobs[u].doing.Noticed? {
        var read := WriterReads(o, s, u, v);
        next, gone := WriterGoes(o, read, u, v);
      } else {
        next, gone := WriterGoes(o, s, u, v);
      }
    }
  }

  /** Every entry that would outlast `v` goes. */
  lemma {:induction false} OthersLeave(o: State, s: State, v: Job) returns (t: State)
    requires Reaches(o, s) && Clearable(s, v)
    ensures Reaches(o, t) && t.jobs.Keys == s.jobs.Keys && SameButIdle(s, t, v) && t.now == s.now
    ensures ExpiryNotReached(t)
    ensures forall path | path in t.entries :: path in s.entries && t.entries[path] == s.entries[path]
              && Outlived(t, path, v)
    decreases |s.entries|
  {
    if path :| path in s.entries && !Outlived(s, path, v) {
      var next, gone := OneGoes(o, s, path, v);
      assert |next.entries| < |s.entries| by {
        assert next.entries.Keys == s.entries.Keys - {gone};
      }
      t := OthersLeave(o, next, v);
    } else {
      t := s;
    }
  }

  function Alone(s: State, v: Job): State {
    s.(jobs := map j | j in s.jobs :: if j == v then s.jobs[j] else s.jobs[j].(pc := Ended))
  }

  /** All jobs but one come to an end. */
  lemma {:induction false} OthersEnd(o: State, s: State, v: Job)
    requires Reaches(o, s)
    ensures Reaches(o, Alone(s, v))
    decreases set j | j in s.jobs && j != v && s.jobs[j].pc != Ended
  {
    if j :| j in s.jobs && j != v && s.jobs[j].pc != Ended {
      Then(o, s, End(j));
      var next := Moved(s, j, Ended);
      assert (set i | i in next.jobs && i != v && next.jobs[i].pc != Ended)
          == (set i | i in s.jobs && i != v && s.jobs[i].pc != Ended) - {j};
      OthersEnd(o, next, v);
      assert Alone(next, v).jobs == Alone(s, v).jobs;
    } else {
      assert Alone(s, v).jobs == s.jobs;
      assert Alone(s, v) == s;
    }
  }

  lemma {:induction false} Unused(jobs: set<Job>) returns (n: Job)
    ensures forall j | j in jobs :: j < n
    decreases jobs
  {
    n := 0;
    if jobs != {} {
      var j :| j in jobs;
      var m := Unused(jobs - {j});
      n := if j < m then m else j + 1;
      assert forall i | i in jobs :: i == j || i in jobs - {j};
    }
  }

  /** A fresh job starts and calls for a lock. */
  lemma Joins(o: State, s: State, n: Job, expires: int, pc: Pc) returns (t: State)
    requires Reaches(o, s) && n !in s.jobs && s.now < expires && (pc == WantsShared || pc == WantsExclusive)
    ensures Reaches(o, t) && t == s.(jobs := s.jobs[n := JobState(pc, expires, 0, Idle)])
  {
    var started := s.(jobs := s.jobs[n := JobState(Outside, expires, 0, Idle)]);
    Then(o, s, Start(n, expires));
    Then(o, started, Want(n, pc));
    t := Next(started, Want(n, pc));
  }

  /** Nothing but `v` and a fresh job `n` is left, and every entry is gone. */
  ghost predicate Deserted(s: State, v: Job, n: Job) {
    && s.entries == map[] && v in s.jobs && v != n && At(s, n, WantsShared)
  }

  /** All other jobs end, time passes until just before `v` has to, and a fresh job starts. */
  lemma TimePasses(o: State, left: State, v: Job) returns (t: State, n: Job)
    requires Reaches(o, left) && ExpiryNotReached(left) && Live(left, v)
    ensures Reaches(o, t) && t.now == left.jobs[v].expires - 1 && t.entries == left.entries
    ensures v != n && At(t, n, WantsShared) && v in t.jobs && t.jobs[v] == left.jobs[v]
    ensures forall j | j in t.jobs && j != v :: !Holds(t.jobs[j].pc)
  {
    OthersEnd(o, left, v);
    var alone, end := Alone(left, v), left.jobs[v].expires;
    Then(o, alone, Tick(end - 1));
    n := Unused(left.jobs.Keys);
    var late := alone.(now := end - 1);
    t := Joins(o, late, n, end, WantsShared);
  }

  lemma DesertsTheIndex(o: State, s: State, v: Job) returns (t: State, n: Job)
    requires Reaches(o, s) && Clearable(s, v)
    ensures Reaches(o, t) && Deserted(t, v, n) && SameButIdle(s, t, v)
  {
    var left := OthersLeave(o, s, v);
    t, n := TimePasses(o, left, v);
    forall path | path in t.entries
      ensures Expired(t, path) && !Held(t, path)
    {
      assert path in left.entries && path in s.entries && t.entries[path] == s.entries[path];
    }
    ClearsAll(o, t, n);
    t := t.(entries := map[]);
  }

  // -------------------------------------------------------------- two hold the index

  /** Harmless steps lead from here to a writer that is not alone. */
  ghost predicate Breakable(s: State) {
    exists t :: Reaches(s, t) && !Exclusive(t)
  }

  /** With no entry left, a job finishes whatever removal it is in. */
  lemma Finishes(o: State, s: State, v: Job)
    requires Reaches(o, s) && s.entries == map[] && Live(s, v)
    ensures Reaches(o, Does(s, v, Idle))
  {
    match s.jobs[v].doing
    case Idle =>
      assert Does(s, v, Idle).jobs == s.jobs;
    case Noticed(path) =>
      Then(o, s, IndexLock.Read(v));
      Then(o, Does(s, v, Condemned(path, None)), Open(v));
      assert Next(Does(s, v, Condemned(path, None)), Open(v)) == Does(s, v, Idle);
    case Condemned(_, _) =>
      Then(o, s, Open(v));
    case Opened(path, _) =>
      Then(o, s, RemoveName(v));
  }

  /** A fresh job reads beside a writer whose entry is gone. */
  lemma ReadsBesideWriter(o: State, s: State, v: Job, n: Job)
    requires Reaches(o, s) && v in s.jobs && s.jobs[v].pc == Writing && v != n && At(s, n, WantsShared)
    requires WriterEntry !in s.entries && ReaderEntry(n) !in s.entries
    ensures Breakable(o)
  {
    Then(o, s, CheckWriter(n));
    var checked := Moved(s, n, SawNoWriter);
    Then(o, checked, EnterReader(n));
    var entered := Next(checked, EnterReader(n));
    Then(o, entered, RecheckWriter(n));
    var both := Next(entered, RecheckWriter(n));
    assert both.jobs[v].pc == Writing && both.jobs[n].pc == Reading;
  }

  /** And a fresh job writes beside a reader whose entry is gone. */
  lemma WritesBesideReader(o: State, s: State, v: Job)
    requires Reaches(o, s) && v in s.jobs && s.jobs[v].pc == Reading && s.entries == map[]
    ensures Breakable(o)
  {
    var m := Unused(s.jobs.Keys);
    var t := Joins(o, s, m, s.now + 1, WantsExclusive);
    Then(o, t, EnterWriter(m));
    var entered := Next(t, EnterWriter(m));
    Then(o, entered, FindNoReaders(m));
    var both := Next(entered, FindNoReaders(m));
    assert both.jobs[m].pc == Writing && both.jobs[v].pc == Reading;
  }

  lemma DesertedBreaks(o: State, s: State, v: Job, n: Job)
    requires Reaches(o, s) && Deserted(s, v, n) && Holds(s.jobs[v].pc)
    requires s.jobs[v].doing == Idle || s.jobs[v].pc == EnteredAsWriter
    ensures Breakable(o)
  {
    match s.jobs[v].pc
    case Writing =>
      ReadsBesideWriter(o, s, v, n);
    case EnteredAsWriter =>
      Finishes(o, s, v);
      var free := Does(s, v, Idle);
      Then(o, free, FindNoReaders(v));
      ReadsBesideWriter(o, Moved(free, v, Writing), v, n);
    case Reading =>
      WritesBesideReader(o, s, v);
    case EnteredAsReader =>
      Then(o, s, RecheckWriter(v));
      WritesBesideReader(o, Moved(s, v, Reading), v);
  }

  /** The job whose entry the step empties, and the entries that stand beside it. */
  function Victim(s: State, step: Step): Job
    requires Enabled(s, step) && Harms(s, step)
  {
    s.entries[s.jobs[step.job].doing.path].job
  }

  /** The victim writes already, or no other entry is stuck for as long as it lives. */
  ghost predicate OthersMayGo(s: State, step: Step)
    requires Enabled(s, step) && Harms(s, step)
  {
    var v := Victim(s, step);
    s.jobs[v].pc == Writing || NoneStuck(Gone(s, s.jobs[step.job].doing.path), v)
  }

  lemma HarmBreaks(s: State, step: Step)
    requires EntriesKnown(s) && ExpiryNotReached(s) && Safe(s) && OwnAreTorn(s)
    requires Enabled(s, step) && Harms(s, step) && OthersMayGo(s, step)
    ensures Breakable(Next(s, step))
  {
    var o, r, v, path := Next(s, step), step.job, Victim(s, step), s.jobs[step.job].doing.path;
    Stays(o);
    Then(o, o, RemoveName(r));
    var gone := Does(Gone(s, path), r, Idle);
    assert Next(o, RemoveName(r)) == gone by {
      assert o.entries - {path} == s.entries - {path};
    }
    if s.jobs[v].pc == Writing {
      var n := Unused(s.jobs.Keys);
      var t := Joins(o, gone, n, gone.now + 1, WantsShared);
      forall p | p in s.entries
        ensures p != ReaderEntry(n)
      {
        assert EntryKnown(s, p);
      }
      ReadsBesideWriter(o, t, v, n);
    } else {
      OthersStillGo(s, step, gone);
      var t, n := DesertsTheIndex(o, gone, v);
      DesertedBreaks(o, t, v, n);
    }
  }

  lemma OthersStillGo(s: State, step: Step, gone: State)
    requires Safe(s) && OwnAreTorn(s) && ExpiryNotReached(s)
    requires Enabled(s, step) && Harms(s, step) && s.jobs[Victim(s, step)].pc != Writing && OthersMayGo(s, step)
    requires gone == Does(Gone(s, s.jobs[step.job].doing.path), step.job, Idle)
    ensures Clearable(gone, Victim(s, step))
  {
    var v, before := Victim(s, step), Gone(s, s.jobs[step.job].doing.path);
    forall path | path in gone.entries
      ensures !Stuck(gone, path, v)
    {
      assert !Stuck(before, path, v);
      if j :| Removing(before, j, path) {
        assert Removing(gone, j, path);
      }
    }
  }

  // ------------------------------------------------------- an entry stands in the way

  ghost predicate OthersIntact(s: State, v: Job) {
    forall j | j in s.jobs && j != v && Holds(s.jobs[j].pc) :: EntryIntact(s, j)
  }

  /** The entry of `v`, which does not write, is gone; `path` is stuck for as long as `v` lives. */
  ghost predicate Stalled(s: State, v: Job, path: Path) {
    && v in s.jobs && Holds(s.jobs[v].pc) && s.jobs[v].pc != Writing && OwnPath(v, s.jobs[v].pc) != path
    && Stuck(s, path, v) && OthersIntact(s, v) && Exclusive(s) && BusyOutside(s)
    && EntriesKnown(s) && ExpiryNotReached(s)
  }

  lemma {:induction false} OthersStayIntact(s: State, step: Step, v: Job)
    requires OthersIntact(s, v) && v in s.jobs && Enabled(s, step) && !Harms(s, step)
    requires Holds(Next(s, step).jobs[v].pc) ==> Holds(s.jobs[v].pc)
    ensures OthersIntact(Next(s, step), v)
  {
    var s' := Next(s, step);
    forall j | j in s'.jobs && j != v && Holds(s'.jobs[j].pc)
      ensures EntryIntact(s', j)
    {
      if j in s.jobs && Holds(s.jobs[j].pc) { assert EntryIntact(s, j); }
    }
  }

  /** A stuck entry is nobody's own. */
  lemma {:induction false} OwnIsElsewhere(s: State, v: Job, path: Path, j: Job)
    requires Stalled(s, v, path) && j in s.jobs && Holds(s.jobs[j].pc)
    ensures OwnPath(j, s.jobs[j].pc) != path
  {
    if j != v { assert EntryIntact(s, j); }
  }

  /** Nobody begins to remove a stuck entry. */
  lemma {:induction false} NobodyRemoves(s: State, step: Step, v: Job, path: Path, j: Job)
    requires v in s.jobs && s.now < s.jobs[v].expires && Stuck(s, path, v) && Enabled(s, step)
    requires path in Next(s, step).entries && Next(s, step).entries[path] == s.entries[path]
    requires step.Leave? || step.RecheckWriter? ==> OwnPath(step.job, s.jobs[step.job].pc) != path
    ensures !Removing(Next(s, step), j, path)
  {
    assert !Removing(s, j, path);
  }

  lemma {:induction false} StuckStands(s: State, step: Step, v: Job, path: Path)
    requires Stalled(s, v, path) && Enabled(s, step)
    ensures path in Next(s, step).entries && Next(s, step).entries[path] == s.entries[path]
  {
    if step.Drop? { assert !Removing(s, step.job, path); }
  }

  lemma {:induction false} StuckIsUnheld(s: State, step: Step, v: Job, path: Path)
    requires Stalled(s, v, path) && Enabled(s, step)
    requires path in Next(s, step).entries && Next(s, step).entries[path] == s.entries[path]
    ensures !Held(Next(s, step), path)
  {
    assert EntryKnown(s, path);
  }

  lemma {:induction false} StuckStays(s: State, step: Step, v: Job, path: Path)
    requires Stalled(s, v, path) && Enabled(s, step)
    ensures v in Next(s, step).jobs && Stuck(Next(s, step), path, v)
  {
    StuckStands(s, step, v, path);
    StuckIsUnheld(s, step, v, path);
    if step.Leave? || step.RecheckWriter? { OwnIsElsewhere(s, v, path, step.job); }
    forall j
      ensures !Removing(Next(s, step), j, path)
    {
      NobodyRemoves(s, step, v, path, j);
    }
  }

  /** Whoever newly reads finds no writer entry. */
  lemma {:induction false} ReadersStayApart(s: State, step: Step)
    requires Exclusive(s) && Enabled(s, step) && !step.FindNoReaders?
    requires forall w | w in s.jobs && s.jobs[w].pc == Writing :: WriterEntry in s.entries
    ensures Exclusive(Next(s, step))
  {
    var s' := Next(s, step);
    forall w, j | w in s'.jobs && j in s'.jobs && w != j && s'.jobs[w].pc == Writing
      ensures s'.jobs[j].pc != Writing && s'.jobs[j].pc != Reading
    {
      assert w in s.jobs && s.jobs[w].pc == Writing;
    }
  }

  /** Nobody newly writes past a stuck entry, nor reads past a writer. */
  lemma {:induction false} StalledExcludes(s: State, step: Step, v: Job, path: Path)
    requires Stalled(s, v, path) && Enabled(s, step)
    ensures Exclusive(Next(s, step)) && Next(s, step).jobs[v].pc != Writing
  {
    forall w | w in s.jobs && s.jobs[w].pc == Writing
      ensures WriterEntry in s.entries
    {
      assert EntryIntact(s, w);
    }
    if step.FindNoReaders? { OwnIsElsewhere(s, v, path, step.job); }
    ReadersStayApart(s, step);
  }

  lemma {:induction false} PlaceStays(s: State, step: Step, v: Job)
    requires v in s.jobs && Holds(s.jobs[v].pc) && Enabled(s, step) && Holds(Next(s, step).jobs[v].pc)
    ensures OwnPath(v, Next(s, step).jobs[v].pc) == OwnPath(v, s.jobs[v].pc)
  {
  }

  lemma {:induction false} StalledStays(s: State, step: Step, v: Job, path: Path)
    requires Stalled(s, v, path) && Enabled(s, step) && !Harms(s, step)
    ensures Stalled(Next(s, step), v, path) || Safe(Next(s, step))
  {
    var s' := Next(s, step);
    StuckStays(s, step, v, path);
    OthersStayIntact(s, step, v);
    StalledExcludes(s, step, v, path);
    BusyStayOutside(s, step);
    EntriesStayKnown(s, step);
    ExpiryStaysAhead(s, step);
    if Holds(s'.jobs[v].pc) { PlaceStays(s, step, v); } else { assert EntriesIntact(s'); }
  }

  lemma {:induction false} StalledRunExcludes(s: State, steps: seq<Step>, v: Job, path: Path)
    requires (Stalled(s, v, path) || Safe(s)) && Possible(s, steps) && Harmless(s, steps)
    ensures Exclusive(After(s, steps))
    decreases |steps|
  {
    if steps != [] {
      if Safe(s) { SafeKept(s, steps[0]); } else { StalledStays(s, steps[0], v, path); }
      StalledRunExcludes(Next(s, steps[0]), steps[1..], v, path);
    }
  }

  /** The harmful step leaves a stuck entry as it is. */
  lemma HarmStalls(s: State, step: Step, path: Path)
    requires EntriesKnown(s) && ExpiryNotReached(s) && Safe(s) && Enabled(s, step) && Harms(s, step)
    requires var v := Victim(s, step);
             s.jobs[v].pc != Writing && Stuck(Gone(s, s.jobs[step.job].doing.path), path, v)
    ensures Stalled(Next(s, step), Victim(s, step), path)
  {
    var v, s', gone := Victim(s, step), Next(s, step), Gone(s, s.jobs[step.job].doing.path);
    forall j | j in s'.jobs && j != v && Holds(s'.jobs[j].pc)
      ensures EntryIntact(s', j)
    {
      assert EntryIntact(s, j);
    }
    forall j
      ensures !Removing(s', j, path)
    {
      assert !Removing(gone, j, path);
    }
    BusyStayOutside(s, step);
    EntriesStayKnown(s, step);
    ExpiryStaysAhead(s, step);
  }

  lemma {:induction false} RunKeepsOwnTorn(s: State, steps: seq<Step>)
    requires OwnAreTorn(s) && Safe(s) && EntriesKnown(s) && ExpiryNotReached(s)
    requires Possible(s, steps) && Harmless(s, steps)
    ensures OwnAreTorn(After(s, steps))
    decreases |steps|
  {
    if steps != [] {
      OwnStayTorn(s, steps[0]);
      SafeKept(s, steps[0]);
      EntriesStayKnown(s, steps[0]);
      ExpiryStaysAhead(s, steps[0]);
      RunKeepsOwnTorn(Next(s, steps[0]), steps[1..]);
    }
  }

  /** After a step that breaks nothing, every harmless continuation excludes. */
  lemma NotBreakable(s: State, step: Step)
    requires EntriesKnown(s) && ExpiryNotReached(s) && Safe(s) && Enabled(s, step)
    requires Harms(s, step) ==> !OthersMayGo(s, step)
    ensures !Breakable(Next(s, step))
  {
    var o, v, path := Next(s, step), 0, WriterEntry;
    if Harms(s, step) {
      v := Victim(s, step);
      path :| Stuck(Gone(s, s.jobs[step.job].doing.path), path, v);
      HarmStalls(s, step, path);
    } else {
      SafeKept(s, step);
    }
    forall t | Reaches(o, t)
      ensures Exclusive(t)
    {
      var more :| Leads(o, more, t) && Harmless(o, more);
      StalledRunExcludes(o, more, v, path);
    }
  }

  /**
   Exclusion is lost exactly when an entry that a live job counts on is emptied, and that job
   writes already or nothing is stuck for as long as it lives: after any run that has emptied
   none yet, a step opens the way to a writer that is not alone if and only if it is of that kind.
   */
  lemma ExclusionIsLostExactlyWhen(steps: seq<Step>, step: Step)
    requires Possible(Init(), steps) && Harmless(Init(), steps) && Enabled(After(Init(), steps), step)
    ensures var s := After(Init(), steps);
            Breakable(Next(s, step)) <==> Harms(s, step) && OthersMayGo(s, step)
  {
    var s := After(Init(), steps);
    RunKeepsSafe(Init(), steps);
    RunKeepsKnown(Init(), steps);
    RunKeepsOwnTorn(Init(), steps);
    if Harms(s, step) && OthersMayGo(s, step) {
      HarmBreaks(s, step);
    } else {
      NotBreakable(s, step);
    }
  }
}
