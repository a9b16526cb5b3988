/**
 Packing the block archive: raw block objects in S3 are replaced by compressed ones while
 synchronizations go on creating, uploading and pruning block files.

 Synchronizations and packers interleave one effect at a time, and every packer may die or
 fail after each effect and be started again. A block file's name is never used twice. SHA-256
 is a faithful tag, so a checksum is represented by the content it belongs to.
*/
module BlockPacking {
  type Name = nat
  type Content = nat
  type Packer = nat

  /** `pack_block` on one name; `expected` is the sidecar's checksum. */
  datatype Task =
    | Expecting(expected: Content)
    | Downloaded(expected: Content)
    | Uploaded(expected: Content)
    | Verified(expected: Content)

  /** `pack`: S3 is listed first, then the disk. */
  datatype Listing = ListedS3(names: set<Name>) | Pending(names: set<Name>)

  datatype State = State(
    created: map<Name, Content>,        // every block file Core ever wrote
    disk: set<Name>,
    raw: map<Name, Content>,
    sidecar: map<Name, Content>,
    packed: map<Name, Content>,         // what the .zst object unpacks to
    listings: map<Packer, Listing>,
    tasks: map<(Packer, Name), Task>)

  datatype Step =
    | Create(name: Name, content: Content)
    | UploadRaw(name: Name, stored: Content)      // the store may keep something else
    | WriteSidecar(name: Name)
    | Prune(name: Name)                           // after verifying the raw object
    | ListS3(packer: Packer)
    | ListDisk(packer: Packer)
    | ReadSidecar(packer: Packer, name: Name)
    | Download(packer: Packer, name: Name)        // and compare with the sidecar
    | Upload(packer: Packer, name: Name, stored: Content)
    | ReadBack(packer: Packer, name: Name)        // unpack the stored object and compare
    | RemoveRaw(packer: Packer, name: Name)
    | Fail(packer: Packer, name: Name)
    | Die(packer: Packer)

  function Init(): State {
    State(map[], {}, map[], map[], map[], map[], map[])
  }

  predicate Enabled(s: State, step: Step) {
    match step
    case Create(name, _) => name !in s.created
    case UploadRaw(name, _) => name in s.disk && name !in s.sidecar
    case WriteSidecar(name) => name in s.disk && name in s.created && name in s.raw
    case Prune(name) => name in s.disk && name in s.raw && name in s.sidecar && s.raw[name] == s.sidecar[name]
    case ListS3(p) => p !in s.listings
    case ListDisk(p) => p in s.listings && s.listings[p].ListedS3? && s.disk != {}
    case ReadSidecar(p, name) =>
      && p in s.listings && s.listings[p].Pending? && name in s.listings[p].names
      && (p, name) !in s.tasks && name in s.sidecar
    case Download(p, name) =>
      && (p, name) in s.tasks && s.tasks[(p, name)].Expecting?
      && name in s.raw && s.raw[name] == s.tasks[(p, name)].expected
    case Upload(p, name, _) => (p, name) in s.tasks && s.tasks[(p, name)].Downloaded?
    case ReadBack(p, name) =>
      && (p, name) in s.tasks && s.tasks[(p, name)].Uploaded?
      && name in s.packed && s.packed[name] == s.tasks[(p, name)].expected
    case RemoveRaw(p, name) => (p, name) in s.tasks && s.tasks[(p, name)].Verified?
    case Fail(p, name) => (p, name) in s.tasks
    case Die(p) => p in s.listings
  }

  function WithTask(s: State, p: Packer, name: Name, task: Task): State {
    s.(tasks := s.tasks[(p, name) := task])
  }

  function Next(s: State, step: Step): State
    requires Enabled(s, step)
  {
    match step
    case Create(name, content) => s.(created := s.created[name := content], disk := s.disk + {name})
    case UploadRaw(name, stored) => s.(raw := s.raw[name := stored])
    case WriteSidecar(name) => s.(sidecar := s.sidecar[name := s.created[name]])
    case Prune(name) => s.(disk := s.disk - {name})
    case ListS3(p) => s.(listings := s.listings[p := ListedS3(s.raw.Keys)])
    case ListDisk(p) => s.(listings := s.listings[p := Pending(s.listings[p].names - s.disk)])
    case ReadSidecar(p, name) => WithTask(s, p, name, Expecting(s.sidecar[name]))
    case Download(p, name) => WithTask(s, p, name, Downloaded(s.tasks[(p, name)].expected))
    case Upload(p, name, stored) =>
      WithTask(s.(packed := s.packed[name := stored]), p, name, Uploaded(s.tasks[(p, name)].expected))
    case ReadBack(p, name) => WithTask(s, p, name, Verified(s.tasks[(p, name)].expected))
    case RemoveRaw(p, name) => s.(raw := s.raw - {name}, tasks := s.tasks - {(p, name)})
    case Fail(p, name) => s.(tasks := s.tasks - {(p, name)})
    case Die(p) =>
      s.(listings := s.listings - {p}, tasks := map key | key in s.tasks && key.0 != p :: s.tasks[key])
  }

  ghost predicate Execution(steps: seq<Step>)
    decreases |steps|, 0
  {
    steps == []
    || (Execution(steps[..|steps| - 1]) && Enabled(Reached(steps[..|steps| - 1]), steps[|steps| - 1]))
  }

  ghost function Reached(steps: seq<Step>): State
    requires Execution(steps)
    decreases |steps|, 1
  {
    if steps == [] then Init() else Next(Reached(steps[..|steps| - 1]), steps[|steps| - 1])
  }

  /**
   A damaged upload replaces the compressed object after somebody relied on it: the raw object
   is gone, or another packer has verified what it is about to remove it for.
   */
  predicate Harms(s: State, step: Step)
    requires Enabled(s, step)
  {
    && step.Upload?
    && step.stored != s.tasks[(step.packer, step.name)].expected
    && (step.name !in s.raw || exists key | key in s.tasks :: RelyingOn(s, key, step.packer, step.name))
  }

  /** Another packer than `p` has verified the name's compressed object. */
  predicate RelyingOn(s: State, key: (Packer, Name), p: Packer, name: Name)
    requires key in s.tasks
  {
    key.1 == name && key.0 != p && s.tasks[key].Verified?
  }

  ghost predicate Harmless(steps: seq<Step>)
    requires Execution(steps)
    decreases |steps|
  {
    steps == []
    || (Harmless(steps[..|steps| - 1]) && !Harms(Reached(steps[..|steps| - 1]), steps[|steps| - 1]))
  }

  // --------------------------------------------------- packers keep off the files on disk

  /** The file has left the disk for good. */
  ghost predicate Gone(s: State, name: Name) {
    name in s.created && name !in s.disk
  }

  ghost predicate ListingKnown(s: State, listing: Listing) {
    match listing
    case ListedS3(names) => forall n | n in names :: n in s.created
    case Pending(names) => forall n | n in names :: Gone(s, n)
  }

  ghost predicate FilesKnown(s: State) {
    && (forall n | n in s.disk :: n in s.created)
    && (forall n | n in s.raw :: n in s.created)
    && (forall n | n in s.sidecar :: n in s.created && s.sidecar[n] == s.created[n])
    && (forall p | p in s.listings :: ListingKnown(s, s.listings[p]))
    && (forall key | key in s.tasks ::
          key.1 in s.sidecar && Gone(s, key.1) && s.tasks[key].expected == s.sidecar[key.1])
  }

  lemma GoneStaysGone(s: State, step: Step, name: Name)
    requires Enabled(s, step) && Gone(s, name)
    ensures Gone(Next(s, step), name)
  {
  }

  lemma {:induction false} ListingStaysKnown(s: State, step: Step, listing: Listing)
    requires Enabled(s, step) && ListingKnown(s, listing)
    ensures ListingKnown(Next(s, step), listing)
  {
    if listing.Pending? {
      forall n | n in listing.names
        ensures Gone(Next(s, step), n)
      {
        GoneStaysGone(s, step, n);
      }
    }
  }

  lemma TaskStaysKnown(s: State, step: Step, key: (Packer, Name))
    requires FilesKnown(s) && Enabled(s, step) && key in Next(s, step).tasks
    ensures var s' := Next(s, step);
            key.1 in s'.sidecar && Gone(s', key.1) && s'.tasks[key].expected == s'.sidecar[key.1]
  {
    if key in s.tasks {
      GoneStaysGone(s, step, key.1);
    } else {
      assert ListingKnown(s, s.listings[step.packer]);
    }
  }

  lemma {:induction false} FilesStayKnown(s: State, step: Step)
    requires FilesKnown(s) && Enabled(s, step)
    ensures FilesKnown(Next(s, step))
  {
    var s' := Next(s, step);
    forall p | p in s'.listings
      ensures ListingKnown(s', s'.listings[p])
    {
      if p in s.listings { ListingStaysKnown(s, step, s.listings[p]); }
    }
    forall key | key in s'.tasks
      ensures key.1 in s'.sidecar && Gone(s', key.1) && s'.tasks[key].expected == s'.sidecar[key.1]
    {
      TaskStaysKnown(s, step, key);
    }
  }

  lemma {:induction false} FilesAlwaysKnown(steps: seq<Step>)
    requires Execution(steps)
    ensures FilesKnown(Reached(steps))
    decreases |steps|
  {
    if steps != [] {
      FilesAlwaysKnown(steps[..|steps| - 1]);
      FilesStayKnown(Reached(steps[..|steps| - 1]), steps[|steps| - 1]);
    }
  }

  /**
   No raw object of a file that is still on disk is ever removed, however packing interleaves
   with a synchronization: what S3 listed and the disk no longer had cannot come back.
   */
  lemma RemovesOnlyPrunedFiles(steps: seq<Step>, p: Packer, name: Name)
    requires Execution(steps) && Enabled(Reached(steps), RemoveRaw(p, name))
    ensures name in Reached(steps).created && name !in Reached(steps).disk
  {
    FilesAlwaysKnown(steps);
  }

  // --------------------------------------------------------------- no block is ever lost

  /** S3 holds the file's content, raw or packed. */
  ghost predicate InS3(s: State, name: Name) {
    name in s.created &&
    ((name in s.raw && s.raw[name] == s.created[name]) || (name in s.packed && s.packed[name] == s.created[name]))
  }

  /** Someone can still make good on the name's checksum. */
  ghost predicate Served(s: State, name: Name) {
    name in s.sidecar ==> name in s.raw || (name in s.packed && s.packed[name] == s.sidecar[name])
  }

  ghost predicate Kept(s: State) {
    && (forall n | n in s.created :: n in s.disk || InS3(s, n))
    && (forall n | n in s.sidecar :: Served(s, n))
  }

  /** What a task read stays as it was, as long as it is there; what it verified is there. */
  ghost predicate TaskSafe(s: State, key: (Packer, Name))
    requires key in s.tasks
  {
    var expected := s.tasks[key].expected;
    && (!s.tasks[key].Expecting? && key.1 in s.raw ==> s.raw[key.1] == expected)
    && (s.tasks[key].Verified? ==> key.1 in s.packed && s.packed[key.1] == expected)
  }

  ghost predicate TasksSafe(s: State) {
    forall key | key in s.tasks :: TaskSafe(s, key)
  }

  lemma TaskSafeKept(s: State, step: Step, key: (Packer, Name))
    requires FilesKnown(s) && TasksSafe(s) && Enabled(s, step) && !Harms(s, step) && key in Next(s, step).tasks
    ensures TaskSafe(Next(s, step), key)
  {
    if key in s.tasks {
      assert TaskSafe(s, key);
      if step.Upload? && step.name == key.1 && step.packer != key.0 && s.tasks[key].Verified? {
        assert RelyingOn(s, key, step.packer, step.name);
      }
    }
  }

  lemma ServedStays(s: State, step: Step, n: Name)
    requires FilesKnown(s) && TasksSafe(s) && n in s.sidecar && Served(s, n) && Enabled(s, step) && !Harms(s, step)
    ensures Served(Next(s, step), n)
  {
    if step.RemoveRaw? && n == step.name {
      assert TaskSafe(s, (step.packer, n));
    }
  }

  lemma KeptName(s: State, step: Step, n: Name)
    requires FilesKnown(s) && TasksSafe(s) && Enabled(s, step) && !Harms(s, step)
    requires n in s.created && (n in s.disk || InS3(s, n))
    ensures n in Next(s, step).disk || InS3(Next(s, step), n)
  {
    if (step.RemoveRaw? || step.Upload?) && n == step.name {
      assert TaskSafe(s, (step.packer, n));
    }
  }

  lemma NewFileIsOnDisk(s: State, step: Step, n: Name)
    requires Enabled(s, step) && n in Next(s, step).created && n !in s.created
    ensures n in Next(s, step).disk
  {
  }

  lemma NewSidecarIsServed(s: State, step: Step, n: Name)
    requires Enabled(s, step) && n in Next(s, step).sidecar && n !in s.sidecar
    ensures Served(Next(s, step), n)
  {
  }

  lemma {:induction false} KeptKept(s: State, step: Step)
    requires FilesKnown(s) && TasksSafe(s) && Kept(s) && Enabled(s, step) && !Harms(s, step)
    ensures TasksSafe(Next(s, step)) && Kept(Next(s, step))
  {
    var s' := Next(s, step);
    forall key | key in s'.tasks
      ensures TaskSafe(s', key)
    {
      TaskSafeKept(s, step, key);
    }
    forall n | n in s'.created
      ensures n in s'.disk || InS3(s', n)
    {
      if n in s.created { KeptName(s, step, n); } else { NewFileIsOnDisk(s, step, n); }
    }
    forall n | n in s'.sidecar
      ensures Served(s', n)
    {
      if n in s.sidecar { ServedStays(s, step, n); } else { NewSidecarIsServed(s, step, n); }
    }
  }

  lemma {:induction false} SafeAlways(steps: seq<Step>)
    requires Execution(steps) && Harmless(steps)
    ensures FilesKnown(Reached(steps)) && TasksSafe(Reached(steps)) && Kept(Reached(steps))
    decreases |steps|
  {
    FilesAlwaysKnown(steps);
    if steps != [] {
      SafeAlways(steps[..|steps| - 1]);
      KeptKept(Reached(steps[..|steps| - 1]), steps[|steps| - 1]);
    }
  }

  /**
   No block is lost, whatever dies when, however often packing is tried again and however many
   packers overlap, unless an upload does harm: a file Core wrote is on disk, or S3 holds its
   content, raw or as a .zst that unpacks to it.
   */
  lemma NoBlockIsLost(steps: seq<Step>, name: Name)
    requires Execution(steps) && Harmless(steps) && name in Reached(steps).created
    ensures name in Reached(steps).disk || InS3(Reached(steps), name)
  {
    SafeAlways(steps);
  }

  /** Every name with a sidecar has a raw object, or a .zst that unpacks to the sidecar's checksum. */
  lemma EverySidecarIsServed(steps: seq<Step>, name: Name)
    requires Execution(steps) && Harmless(steps) && name in Reached(steps).sidecar
    ensures var s := Reached(steps);
            name in s.raw || (name in s.packed && s.packed[name] == s.sidecar[name])
  {
    SafeAlways(steps);
    assert Served(Reached(steps), name);
  }

  // ------------------------------------------------------------- exactly when one is lost

  ghost predicate Lost(s: State, name: Name) {
    name in s.created && name !in s.disk && !InS3(s, name)
  }

  /** A block is lost now, or as soon as some packer removes a raw object. */
  ghost predicate Losing(s: State) {
    exists name :: Lost(s, name) || RemovalLoses(s, name)
  }

  ghost predicate RemovalLoses(s: State, name: Name) {
    exists p :: LosesBy(s, p, name)
  }

  ghost predicate LosesBy(s: State, p: Packer, name: Name) {
    Enabled(s, RemoveRaw(p, name)) && Lost(Next(s, RemoveRaw(p, name)), name)
  }

  lemma HarmLoses(s: State, step: Step)
    requires FilesKnown(s) && Enabled(s, step) && Harms(s, step)
    ensures Losing(Next(s, step))
  {
    var s', n := Next(s, step), step.name;
    assert (step.packer, n) in s.tasks && s'.packed[n] != s'.created[n];
    if n in s.raw {
      var key :| key in s.tasks && RelyingOn(s, key, step.packer, n);
      assert s'.tasks[key].Verified? && key == (key.0, n);
      assert LosesBy(s', key.0, n);
      assert RemovalLoses(s', n);
    } else {
      assert Lost(s', n);
    }
  }

  lemma KeptIsNotLosing(s: State)
    requires FilesKnown(s) && TasksSafe(s) && Kept(s)
    ensures !Losing(s)
  {
    forall p, name | Enabled(s, RemoveRaw(p, name))
      ensures !LosesBy(s, p, name)
    {
      KeptKept(s, RemoveRaw(p, name));
    }
  }

  /**
   A damaged upload over what somebody relies on is the one way to lose a block: after any
   execution without one, the next step loses a block, at once or with one more removal, if and
   only if it is one. Packers that overlap are harmless as long as the store keeps what it is sent.
   */
  lemma BlockIsLostExactlyWhen(steps: seq<Step>, step: Step)
    requires Execution(steps) && Harmless(steps) && Enabled(Reached(steps), step)
    ensures Losing(Next(Reached(steps), step)) <==> Harms(Reached(steps), step)
  {
    var s := Reached(steps);
    SafeAlways(steps);
    if Harms(s, step) {
      HarmLoses(s, step);
    } else {
      FilesStayKnown(s, step);
      KeptKept(s, step);
      KeptIsNotLosing(Next(s, step));
    }
  }

  // ------------------------------------------------------------- one packer at a time

  /** No packer takes up a name that another live packer is working on. */
  predicate Apart(s: State, step: Step) {
    step.ReadSidecar? ==> forall key | key in s.tasks :: key.1 != step.name
  }

  ghost predicate ApartThroughout(steps: seq<Step>)
    requires Execution(steps)
    decreases |steps|
  {
    steps == []
    || (ApartThroughout(steps[..|steps| - 1]) && Apart(Reached(steps[..|steps| - 1]), steps[|steps| - 1]))
  }

  /** One task a name, and its raw object is there until the task removes it. */
  ghost predicate Alone(s: State) {
    && (forall a, b | a in s.tasks && b in s.tasks && a.1 == b.1 :: a == b)
    && (forall key | key in s.tasks && !s.tasks[key].Expecting? :: key.1 in s.raw)
  }

  lemma {:induction false} AloneKept(s: State, step: Step)
    requires Alone(s) && Enabled(s, step) && Apart(s, step)
    ensures Alone(Next(s, step))
  {
  }

  /** Packers that keep off each other's names do no harm, whatever the store makes of their uploads. */
  lemma {:induction false} ApartIsHarmless(steps: seq<Step>)
    requires Execution(steps) && ApartThroughout(steps)
    ensures Harmless(steps) && Alone(Reached(steps))
    decreases |steps|
  {
    if steps != [] {
      ApartIsHarmless(steps[..|steps| - 1]);
      AloneKept(Reached(steps[..|steps| - 1]), steps[|steps| - 1]);
    }
  }

  // ------------------------------------------------------------ two packers on one name

  ghost predicate Leads(steps: seq<Step>, s: State) {
    Execution(steps) && Reached(steps) == s
  }

  lemma Then(steps: seq<Step>, s: State, step: Step, s': State) returns (more: seq<Step>)
    requires Leads(steps, s) && Enabled(s, step) && Next(s, step) == s'
    ensures Leads(more, s')
    ensures Harmless(steps) && !Harms(s, step) ==> Harmless(more)
  {
    more := steps + [step];
    assert more[..|more| - 1] == steps;
  }

  /** File 1 is archived and pruned, file 2 is on disk. */
  function Archived(listings: map<Packer, Listing>, tasks: map<(Packer, Name), Task>): State {
    State(map[1 := 5, 2 := 6], {2}, map[1 := 5], map[1 := 5], map[], listings, tasks)
  }

  lemma OneFileIsArchived() returns (steps: seq<Step>)
    ensures Leads(steps, Archived(map[], map[]))
  {
    steps := [];
    assert Leads(steps, Init());
    var s := State(map[1 := 5], {1}, map[], map[], map[], map[], map[]);
    steps := Then(steps, Init(), Create(1, 5), s);
    steps := Then(steps, s, UploadRaw(1, 5), s.(raw := map[1 := 5]));
    s := s.(raw := map[1 := 5]);
    steps := Then(steps, s, WriteSidecar(1), s.(sidecar := map[1 := 5]));
    s := s.(sidecar := map[1 := 5]);
    steps := Then(steps, s, Create(2, 6), s.(created := map[1 := 5, 2 := 6], disk := {1, 2}));
    s := s.(created := map[1 := 5, 2 := 6], disk := {1, 2});
    steps := Then(steps, s, Prune(1), Archived(map[], map[]));
  }

  /** Both packers have listed file 1 and downloaded it. */
  lemma BothHaveTheFile() returns (steps: seq<Step>)
    ensures Leads(steps, Archived(map[1 := Pending({1}), 2 := Pending({1})],
                                  map[(1, 1) := Downloaded(5), (2, 1) := Downloaded(5)]))
  {
    steps := OneFileIsArchived();
    assert Archived(map[], map[]).raw.Keys == {1} && {1} - {2} == {1};
    steps := Then(steps, Archived(map[], map[]), ListS3(1), Archived(map[1 := ListedS3({1})], map[]));
    steps := Then(steps, Archived(map[1 := ListedS3({1})], map[]), ListDisk(1),
                  Archived(map[1 := Pending({1})], map[]));
    steps := Then(steps, Archived(map[1 := Pending({1})], map[]), ListS3(2),
                  Archived(map[1 := Pending({1}), 2 := ListedS3({1})], map[]));
    var listings := map[1 := Pending({1}), 2 := Pending({1})];
    steps := Then(steps, Archived(map[1 := Pending({1}), 2 := ListedS3({1})], map[]), ListDisk(2),
                  Archived(listings, map[]));
    steps := Then(steps, Archived(listings, map[]), ReadSidecar(1, 1), Archived(listings, map[(1, 1) := Expecting(5)]));
    steps := Then(steps, Archived(listings, map[(1, 1) := Expecting(5)]), Download(1, 1),
                  Archived(listings, map[(1, 1) := Downloaded(5)]));
    steps := Then(steps, Archived(listings, map[(1, 1) := Downloaded(5)]), ReadSidecar(2, 1),
                  Archived(listings, map[(1, 1) := Downloaded(5), (2, 1) := Expecting(5)]));
    steps := Then(steps, Archived(listings, map[(1, 1) := Downloaded(5), (2, 1) := Expecting(5)]), Download(2, 1),
                  Archived(listings, map[(1, 1) := Downloaded(5), (2, 1) := Downloaded(5)]));
  }

  function Overlapping(raw: map<Name, Content>, packed: map<Name, Content>, tasks: map<(Packer, Name), Task>): State {
    Archived(map[1 := Pending({1}), 2 := Pending({1})], tasks).(raw := raw, packed := packed)
  }

  /** The second packer has verified its upload, which the first is about to overwrite. */
  lemma OneHasVerified() returns (steps: seq<Step>)
    ensures Leads(steps, Overlapping(map[1 := 5], map[1 := 5], map[(1, 1) := Downloaded(5), (2, 1) := Verified(5)]))
  {
    steps := BothHaveTheFile();
    var s := Overlapping(map[1 := 5], map[], map[(1, 1) := Downloaded(5), (2, 1) := Downloaded(5)]);
    var t := Overlapping(map[1 := 5], map[1 := 5], map[(1, 1) := Downloaded(5), (2, 1) := Uploaded(5)]);
    steps := Then(steps, s, Upload(2, 1, 5), t);
    steps := Then(steps, t, ReadBack(2, 1),
                  Overlapping(map[1 := 5], map[1 := 5], map[(1, 1) := Downloaded(5), (2, 1) := Verified(5)]));
  }

  lemma UploadIsOverwritten() returns (steps: seq<Step>)
    ensures Leads(steps, Overlapping(map[1 := 5], map[1 := 9], map[(1, 1) := Uploaded(5), (2, 1) := Verified(5)]))
  {
    steps := OneHasVerified();
    steps := Then(steps, Overlapping(map[1 := 5], map[1 := 5], map[(1, 1) := Downloaded(5), (2, 1) := Verified(5)]),
                  Upload(1, 1, 9), Overlapping(map[1 := 5], map[1 := 9],
                                               map[(1, 1) := Uploaded(5), (2, 1) := Verified(5)]));
  }

  lemma RawObjectRemoved()
    ensures var s := Overlapping(map[1 := 5], map[1 := 9], map[(1, 1) := Uploaded(5), (2, 1) := Verified(5)]);
            s.raw - {1} == map[] && s.tasks - {(2, 1)} == map[(1, 1) := Uploaded(5)]
  {
  }

  /**
   The pack job takes no lock, so two of them may overlap. Then a block can be lost: one packer
   verifies its upload, the other overwrites it with a damaged one, and the first removes the
   raw object.
   */
  lemma OverlappingPackersLoseABlock() returns (steps: seq<Step>)
    ensures Execution(steps) && 1 in Reached(steps).created && 1 !in Reached(steps).disk && !InS3(Reached(steps), 1)
  {
    steps := UploadIsOverwritten();
    RawObjectRemoved();
    var lost := Overlapping(map[], map[1 := 9], map[(1, 1) := Uploaded(5)]);
    steps := Then(steps, Overlapping(map[1 := 5], map[1 := 9], map[(1, 1) := Uploaded(5), (2, 1) := Verified(5)]),
                  RemoveRaw(2, 1), lost);
  }
}
