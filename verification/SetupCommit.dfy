/** Setup commits, crashes, power losses and lock-free readers, interleaved step by step.

    The writer holds the exclusive lock, so there is one; it may die or hit a storage
    error at any step. The disk may write back any pending change between two steps. The
    reader is validate_committed_state without a lock; readers change nothing, so one
    stands for any number of them. */
module SetupCommit {
  import opened Basics
  import opened StateDirectory

  /** What one commit is about to publish, and where it stages it. */
  datatype Job = Job(contents: Contents, version: nat, previous: Option<nat>, dir: nat)

  /** Where the writer is inside _write_private for the current file. */
  datatype FilePhase = Writing | SyncingTemp(f: nat) | Renaming(f: nat) | SyncingNamed(f: nat) | SyncingDir(f: nat)

  datatype Writer =
    | Idle
    | Linking(contents: Contents, hint: nat)
    | Staging(job: Job, done: nat, phase: FilePhase)
    | Staged(job: Job)
    | SyncingRoot(job: Job)
    | SyncingState(job: Job)
    | Flipping(job: Job)
    | SyncingFlip(job: Job)
    | Pruning(job: Job)
    | Discarding(job: Job)

  /** Where a reader is inside validate_committed_state. */
  datatype ReadPhase =
    | Starting
    | Resolving
    | ReadingAuth(v: nat)
    | ReadingOperator(v: nat, auth: string)
    | ReadingSecrets(v: nat, auth: string, operator: string)
    | ReadingManifest(v: nat, read: Contents)
    | CheckingLinks(v: nat, read: Contents)
    | Accepted(v: nat, read: Contents)
    | Refused

  /** `base` is how many commits were over when the reader started, `valid` whether a
      committed state existed then. */
  datatype Reader = Away | Reader(base: int, valid: bool, phase: ReadPhase)

  /** The last four fields are history: what was ever published under which number, the
      highest number published, where `current` may point after a power loss, and how
      many commits have begun. */
  datatype State = State(
    ok: Contents -> bool, fs: FS, writer: Writer, reader: Reader,
    history: map<nat, Contents>, last: nat, candidates: set<Option<nat>>, begun: int)

  datatype Action =
    | Begin(contents: Contents, hint: nat)
    | PutLink(name: Name)
    | Stage
    | Write | SyncTemp | Rename | SyncNamed | SyncVersionDir
    | Accept | Reject
    | PersistRoot | PersistState | Flip | PersistFlip
    | RemoveEntry(version: nat, name: Name)
    | RemoveVersion(version: nat)
    | Finish
    | StorageError
    | WriterDies
    | LosePower
    | WriteBack(item: Item)
    | StartReading
    | Read

  // ---- the writer ----

  function Or(x: Option<nat>, default: nat): nat { if x.Some? then x.value else default }

  function MaxNat(x: nat, y: nat): nat { if x >= y then x else y }

  /** One more than the committed version, the caller's hint and every directory listed,
      committed or not. */
  ghost function NextVersion(fs: FS, hint: nat): nat {
    MaxNat(Or(ReadPointer(fs), 0), MaxNat(hint, Highest(fs.live.versions.Keys))) + 1
  }

  /** The directory a dying or failing writer leaves behind is discarded only where the
      code does so. */
  function AfterError(w: Writer): Writer {
    if w.Staging? then Discarding(w.job) else Idle
  }

  predicate MayRemove(w: Writer, v: nat) {
    match w
    case Discarding(job) => v == job.version
    case Pruning(job) => v != job.version && Some(v) != job.previous
    case _ => false
  }

  // ---- steps ----

  ghost predicate Enabled(s: State, a: Action) {
    match a
    case Begin(c, _) => s.writer.Idle? && s.ok(c)
    case PutLink(n) => s.writer.Linking? && n in Links && n !in s.fs.live.stable
    case Stage => s.writer.Linking? && s.fs.live.stable == Links
    case Write => s.writer.Staging? && s.writer.phase.Writing? && s.writer.done < 4 && s.writer.job.dir < |s.fs.dirs|
    case SyncTemp => s.writer.Staging? && s.writer.phase.SyncingTemp? && s.writer.phase.f < |s.fs.files|
    case Rename =>
      && s.writer.Staging? && s.writer.phase.Renaming? && s.writer.done < 4 && s.writer.job.dir < |s.fs.dirs|
      && Temp(NameAt(s.writer.done)) in s.fs.dirs[s.writer.job.dir].live
    case SyncNamed => s.writer.Staging? && s.writer.phase.SyncingNamed? && s.writer.phase.f < |s.fs.files|
    case SyncVersionDir => s.writer.Staging? && s.writer.phase.SyncingDir? && s.writer.job.dir < |s.fs.dirs|
    case Accept => s.writer.Staged? && ValidVersion(s.fs, s.ok, s.writer.job.version)
    case Reject => s.writer.Staged?
    case PersistRoot => s.writer.SyncingRoot?
    case PersistState => s.writer.SyncingState?
    case Flip => s.writer.Flipping?
    case PersistFlip => s.writer.SyncingFlip?
    case RemoveEntry(v, n) =>
      MayRemove(s.writer, v) && v in s.fs.live.versions && s.fs.live.versions[v] < |s.fs.dirs|
    case RemoveVersion(v) =>
      && MayRemove(s.writer, v) && v in s.fs.live.versions && s.fs.live.versions[v] < |s.fs.dirs|
      && s.fs.dirs[s.fs.live.versions[v]].live == map[]
    case Finish => s.writer.Pruning? || s.writer.Discarding?
    case StorageError => !s.writer.Idle? && !s.writer.Pruning? && !s.writer.Discarding?
    case WriterDies => !s.writer.Idle?
    case LosePower => true
    case WriteBack(_) => true
    case StartReading => true
    case Read => s.reader.Reader? && !s.reader.phase.Accepted? && !s.reader.phase.Refused?
  }

  ghost function Step(s: State, a: Action): State
    requires Enabled(s, a)
  {
    match a
    case Begin(c, hint) => s.(writer := Linking(c, hint), begun := s.begun + 1)
    case PutLink(n) => s.(fs := MakeLink(s.fs, n))
    case Stage =>
      var v := NextVersion(s.fs, s.writer.hint);
      var job := Job(s.writer.contents, v, ReadPointer(s.fs), |s.fs.dirs|);
      s.(fs := MakeVersion(s.fs, v), writer := Staging(job, 0, Writing))
    case Write =>
      var w := s.writer;
      var n := NameAt(w.done);
      s.(fs := WriteTemp(s.fs, w.job.dir, n, BlobFor(n, w.job.contents, w.job.version, w.job.previous)),
         writer := w.(phase := SyncingTemp(|s.fs.files|)))
    case SyncTemp =>
      s.(fs := SyncFile(s.fs, s.writer.phase.f), writer := s.writer.(phase := Renaming(s.writer.phase.f)))
    case Rename =>
      s.(fs := StateDirectory.Rename(s.fs, s.writer.job.dir, NameAt(s.writer.done)),
         writer := s.writer.(phase := SyncingNamed(s.writer.phase.f)))
    case SyncNamed =>
      s.(fs := SyncFile(s.fs, s.writer.phase.f), writer := s.writer.(phase := SyncingDir(s.writer.phase.f)))
    case SyncVersionDir =>
      var w := s.writer;
      s.(fs := SyncDir(s.fs, w.job.dir),
         writer := if w.done + 1 < 4 then Staging(w.job, w.done + 1, Writing) else Staged(w.job))
    case Accept => s.(writer := SyncingRoot(s.writer.job))
    case Reject => s.(writer := Discarding(s.writer.job))
    case PersistRoot => s.(fs := SyncRoot(s.fs), writer := SyncingState(s.writer.job))
    case PersistState => s.(fs := SyncState(s.fs), writer := Flipping(s.writer.job))
    case Flip =>
      var job := s.writer.job;
      s.(fs := PointCurrent(s.fs, job.version), writer := SyncingFlip(job),
         history := s.history[job.version := job.contents], last := job.version,
         candidates := s.candidates + {Some(job.version)})
    case PersistFlip =>
      s.(fs := SyncState(s.fs), writer := Pruning(s.writer.job), candidates := {s.fs.live.current})
    case RemoveEntry(v, n) => s.(fs := Unlink(s.fs, v, n))
    case RemoveVersion(v) => s.(fs := RemoveDir(s.fs, v))
    case Finish => s.(writer := Idle)
    case StorageError => s.(writer := AfterError(s.writer))
    case WriterDies => s.(writer := Idle)
    case LosePower => s.(fs := PowerLoss(s.fs), writer := Idle, reader := Away)
    case WriteBack(item) => s.(fs := Flush(s.fs, item))
    case StartReading =>
      s.(reader := Reader(if s.writer.Idle? then s.begun else s.begun - 1, s.fs.live.current.Some?, Starting))
    case Read => s.(reader := s.reader.(phase := ReadStep(s.fs, s.ok, s.reader.phase)))
  }

  /** One step of validate_committed_state: the pointer, `current` once, the four files
      of the version it names, the links. */
  function ReadStep(fs: FS, ok: Contents -> bool, p: ReadPhase): ReadPhase {
    match p
    case Starting => if ReadPointer(fs).Some? then Resolving else Refused
    case Resolving =>
      if fs.live.current.Some? && fs.live.current.value >= 1 then ReadingAuth(fs.live.current.value) else Refused
    case ReadingAuth(v) =>
      (match ReadFile(fs, v, Auth) case Some(Text(t)) => ReadingOperator(v, t) case _ => Refused)
    case ReadingOperator(v, a) =>
      (match ReadFile(fs, v, Operator) case Some(Text(t)) => ReadingSecrets(v, a, t) case _ => Refused)
    case ReadingSecrets(v, a, o) =>
      (match ReadFile(fs, v, Secrets) case Some(Text(t)) => ReadingManifest(v, Contents(a, o, t)) case _ => Refused)
    case ReadingManifest(v, c) =>
      (match ReadFile(fs, v, Manifest)
       case Some(ManifestOf(mv, _, files)) => if mv == v && files == c && ok(c) then CheckingLinks(v, c) else Refused
       case _ => Refused)
    case CheckingLinks(v, c) => if fs.live.stable == Links then Accepted(v, c) else Refused
    case _ => p
  }

  ghost predicate Legal(s: State, run: seq<Action>)
    decreases |run|
  {
    run == [] || (Enabled(s, run[0]) && Legal(Step(s, run[0]), run[1..]))
  }

  ghost function Exec(s: State, run: seq<Action>): State
    requires Legal(s, run)
    decreases |run|
  {
    if run == [] then s else Exec(Step(s, run[0]), run[1..])
  }

  // ---- the invariant ----

  /** A file is in place, by the same name, live and on disk, and its bytes are synced. */
  ghost predicate Stored(fs: FS, d: nat, n: Name, blob: Blob) {
    && d < |fs.dirs| && n in fs.dirs[d].live && n in fs.dirs[d].disk
    && fs.dirs[d].live[n] == fs.dirs[d].disk[n] < |fs.files|
    && fs.files[fs.dirs[d].live[n]] == File(blob, blob)
  }

  ghost predicate StoredUpTo(fs: FS, job: Job, done: nat) {
    forall i: nat :: i < done && i < 4 ==>
      Stored(fs, job.dir, NameAt(i), BlobFor(NameAt(i), job.contents, job.version, job.previous))
  }

  /** All four files of a version are stored, and both layers list it. */
  ghost predicate Sealed(fs: FS, v: nat, c: Contents) {
    && fs.live.hasRoot && fs.disk.hasRoot
    && v in fs.live.versions && v in fs.disk.versions && fs.live.versions[v] == fs.disk.versions[v]
    && SealedDir(fs, fs.live.versions[v], v, c)
  }

  ghost predicate SealedDir(fs: FS, d: nat, v: nat, c: Contents) {
    && Stored(fs, d, Auth, Text(c.auth))
    && Stored(fs, d, Operator, Text(c.operator))
    && Stored(fs, d, Secrets, Text(c.secrets))
    && StoredManifest(fs, d, v, c)
  }

  /** The manifest in place names the version and its contents. */
  ghost predicate StoredManifest(fs: FS, d: nat, v: nat, c: Contents) {
    && d < |fs.dirs| && Manifest in fs.dirs[d].live && Manifest in fs.dirs[d].disk
    && fs.dirs[d].live[Manifest] == fs.dirs[d].disk[Manifest] < |fs.files|
    && var f := fs.files[fs.dirs[d].live[Manifest]];
    f.disk == f.data && f.data.ManifestOf? && f.data.version == v && f.data.files == c
  }

  ghost predicate CurrentOk(s: State, layer: Layer) {
    && layer.stable <= Links
    && layer.current in s.candidates
    && (layer.current.Some? ==>
          && layer.current.value in s.history
          && s.fs.live.stable == s.fs.disk.stable == Links
          && Sealed(s.fs, layer.current.value, s.history[layer.current.value]))
  }

  ghost predicate HistoryOk(s: State) {
    && (forall v :: v in s.history ==> 1 <= v <= s.last && s.ok(s.history[v]))
    && (s.last > 0 ==>
          && s.last in s.fs.live.versions && s.last in s.fs.disk.versions
          && s.fs.live.versions[s.last] == s.fs.disk.versions[s.last]
          && s.fs.live.hasRoot && s.fs.disk.hasRoot)
  }

  ghost predicate JobOk(s: State, job: Job) {
    && job.version > s.last && job.dir < |s.fs.dirs| && s.ok(job.contents)
    && job.version in s.fs.live.versions && s.fs.live.versions[job.version] == job.dir
    && job.previous == s.fs.live.current
    && s.fs.live.stable == Links
  }

  ghost predicate PhaseOk(fs: FS, job: Job, done: nat, phase: FilePhase) {
    && done < 4
    && var n := NameAt(done); var blob := BlobFor(n, job.contents, job.version, job.previous);
    match phase
    case Writing => true
    case SyncingTemp(f) => f < |fs.files| && fs.files[f].data == blob && At(fs, job.dir, Temp(n), f)
    case Renaming(f) => f < |fs.files| && fs.files[f] == File(blob, blob) && At(fs, job.dir, Temp(n), f)
    case SyncingNamed(f) => f < |fs.files| && fs.files[f] == File(blob, blob) && At(fs, job.dir, n, f)
    case SyncingDir(f) => f < |fs.files| && fs.files[f] == File(blob, blob) && At(fs, job.dir, n, f)
  }

  ghost predicate At(fs: FS, d: nat, n: Name, f: nat) {
    d < |fs.dirs| && n in fs.dirs[d].live && fs.dirs[d].live[n] == f
  }

  ghost predicate WriterOk(s: State) {
    match s.writer
    case Idle => true
    case Linking(c, _) => s.ok(c)
    case Staging(job, done, phase) =>
      JobOk(s, job) && StoredUpTo(s.fs, job, done) && PhaseOk(s.fs, job, done, phase)
    case Staged(job) => JobOk(s, job) && StoredUpTo(s.fs, job, 4)
    case SyncingRoot(job) => JobOk(s, job) && StoredUpTo(s.fs, job, 4)
    case SyncingState(job) => JobOk(s, job) && StoredUpTo(s.fs, job, 4) && RootPersisted(s.fs, job)
    case Flipping(job) =>
      JobOk(s, job) && StoredUpTo(s.fs, job, 4) && RootPersisted(s.fs, job)
      && s.fs.live.hasRoot && s.fs.disk.hasRoot && s.fs.disk.stable == Links
    case SyncingFlip(job) => s.fs.live.current == Some(job.version) && s.last == job.version
    case Pruning(job) =>
      s.fs.live.current == s.fs.disk.current == Some(job.version) && s.last == job.version
    case Discarding(job) => job.version > s.last
  }

  ghost predicate RootPersisted(fs: FS, job: Job) {
    job.version in fs.disk.versions && fs.disk.versions[job.version] == job.dir
  }

  ghost predicate Inv(s: State) {
    && Shape(s.fs)
    && CurrentOk(s, s.fs.live) && CurrentOk(s, s.fs.disk)
    && HistoryOk(s)
    && WriterOk(s)
  }

  // ---- frames: what a change cannot disturb ----

  /** Files only accumulate, and a synced file stays as it is. */
  ghost predicate KeepsSynced(fs: FS, fs': FS) {
    && |fs.files| <= |fs'.files|
    && (forall f :: 0 <= f < |fs.files| && fs.files[f].disk == fs.files[f].data ==> fs'.files[f] == fs.files[f])
  }

  /** An entry that live and disk agree on stays. */
  ghost predicate KeepsEntry(fs: FS, fs': FS, d: nat, n: Name) {
    && d < |fs.dirs| && d < |fs'.dirs|
    && (n in fs.dirs[d].live && n in fs.dirs[d].disk && fs.dirs[d].live[n] == fs.dirs[d].disk[n] ==>
          && n in fs'.dirs[d].live && n in fs'.dirs[d].disk
          && fs'.dirs[d].live[n] == fs'.dirs[d].disk[n] == fs.dirs[d].live[n])
  }

  ghost predicate KeepsDir(fs: FS, fs': FS, d: nat) {
    forall n :: n in Links ==> KeepsEntry(fs, fs', d, n)
  }

  ghost predicate SameLayers(fs: FS, fs': FS) { fs'.live == fs.live && fs'.disk == fs.disk }

  lemma {:induction false} StoredKept(fs: FS, fs': FS, d: nat, n: Name, blob: Blob)
    requires Stored(fs, d, n, blob) && KeepsSynced(fs, fs') && KeepsEntry(fs, fs', d, n)
    ensures Stored(fs', d, n, blob)
  {
  }

  lemma {:induction false} SealedKept(fs: FS, fs': FS, v: nat, c: Contents)
    requires Sealed(fs, v, c) && KeepsSynced(fs, fs') && KeepsDir(fs, fs', fs.live.versions[v])
    requires fs'.live.hasRoot && fs'.disk.hasRoot
    requires v in fs'.live.versions && v in fs'.disk.versions
    requires fs'.live.versions[v] == fs'.disk.versions[v] == fs.live.versions[v]
    ensures Sealed(fs', v, c)
  {
    var d := fs.live.versions[v];
    assert forall n :: n in Links ==> KeepsEntry(fs, fs', d, n);
    assert Auth in Links && Operator in Links && Secrets in Links && Manifest in Links;
    StoredKept(fs, fs', d, Auth, Text(c.auth));
    StoredKept(fs, fs', d, Operator, Text(c.operator));
    StoredKept(fs, fs', d, Secrets, Text(c.secrets));
  }

  /** A change inside the directory of an unpublished version leaves everything
      published alone. */
  lemma {:induction false} UnpublishedChange(s: State, s': State, d: nat)
    requires Inv(s) && Shape(s'.fs)
    requires s' == s.(fs := s'.fs, writer := s'.writer) && SameLayers(s.fs, s'.fs)
    requires KeepsSynced(s.fs, s'.fs)
    requires forall e :: 0 <= e < |s.fs.dirs| && e != d ==> KeepsDir(s.fs, s'.fs, e)
    requires d < |s.fs.dirs| && s.fs.dirs[d].number > s.last
    ensures CurrentOk(s', s'.fs.live) && CurrentOk(s', s'.fs.disk) && HistoryOk(s')
  {
    if s.fs.live.current.Some? {
      SealedKept(s.fs, s'.fs, s.fs.live.current.value, s.history[s.fs.live.current.value]);
    }
    if s.fs.disk.current.Some? {
      SealedKept(s.fs, s'.fs, s.fs.disk.current.value, s.history[s.fs.disk.current.value]);
    }
  }

  lemma {:induction false} StoredUpToKept(fs: FS, fs': FS, job: Job, done: nat)
    requires StoredUpTo(fs, job, done) && KeepsSynced(fs, fs')
    requires forall i: nat :: i < done && i < 4 ==> KeepsEntry(fs, fs', job.dir, NameAt(i))
    ensures StoredUpTo(fs', job, done)
  {
    forall i: nat | i < done && i < 4
      ensures Stored(fs', job.dir, NameAt(i), BlobFor(NameAt(i), job.contents, job.version, job.previous))
    {
      StoredKept(fs, fs', job.dir, NameAt(i), BlobFor(NameAt(i), job.contents, job.version, job.previous));
    }
  }

  lemma {:induction false} StagedAll(fs: FS, job: Job)
    requires StoredUpTo(fs, job, 4)
    ensures SealedDir(fs, job.dir, job.version, job.contents)
    ensures Stored(fs, job.dir, Manifest, ManifestOf(job.version, job.previous, job.contents))
  {
    assert NameAt(0) == Auth && NameAt(1) == Operator && NameAt(2) == Secrets && NameAt(3) == Manifest;
  }

  // ---- each step keeps the invariant ----

  /** The marker leads to the manifest of the version `current` names. */
  lemma {:induction false} PointerIsCurrent(s: State)
    requires Inv(s)
    ensures ReadPointer(s.fs) == s.fs.live.current
  {
  }

  lemma {:induction false} MakeVersionShape(fs: FS, v: nat)
    requires Shape(fs)
    ensures Shape(MakeVersion(fs, v))
  {
  }

  /** A directory under a new number leaves everything published alone. */
  lemma {:induction false} NewVersion(s: State, s': State, v: nat)
    requires Inv(s) && v > s.last && v !in s.fs.live.versions
    requires s' == s.(fs := MakeVersion(s.fs, v), writer := s'.writer)
    ensures CurrentOk(s', s'.fs.live) && CurrentOk(s', s'.fs.disk) && HistoryOk(s')
  {
    var fs, fs' := s.fs, s'.fs;
    if fs.live.current.Some? { SealedKept(fs, fs', fs.live.current.value, s.history[fs.live.current.value]); }
    if fs.disk.current.Some? { SealedKept(fs, fs', fs.disk.current.value, s.history[fs.disk.current.value]); }
  }

  lemma {:induction false} NextIsNew(s: State, hint: nat)
    requires HistoryOk(s)
    ensures NextVersion(s.fs, hint) > s.last && NextVersion(s.fs, hint) !in s.fs.live.versions
  {
  }

  lemma {:induction false} StageInv(s: State)
    requires Inv(s) && Enabled(s, Stage)
    ensures Inv(Step(s, Stage))
  {
    var v := NextVersion(s.fs, s.writer.hint);
    PointerIsCurrent(s);
    NextIsNew(s, s.writer.hint);
    MakeVersionShape(s.fs, v);
    NewVersion(s, Step(s, Stage), v);
  }

  lemma {:induction false} WriteTempShape(fs: FS, d: nat, n: Name, blob: Blob)
    requires Shape(fs) && d < |fs.dirs|
    ensures Shape(WriteTemp(fs, d, n, blob))
  {
  }

  lemma {:induction false} WriteInv(s: State)
    requires Inv(s) && Enabled(s, Write)
    ensures Inv(Step(s, Write))
  {
    var job, n := s.writer.job, NameAt(s.writer.done);
    WriteTempShape(s.fs, job.dir, n, BlobFor(n, job.contents, job.version, job.previous));
    UnpublishedChange(s, Step(s, Write), job.dir);
    StoredUpToKept(s.fs, Step(s, Write).fs, job, s.writer.done);
  }

  lemma {:induction false} SyncFileInv(s: State, a: Action)
    requires a.SyncTemp? || a.SyncNamed?
    requires Inv(s) && Enabled(s, a)
    ensures Inv(Step(s, a))
  {
    var s' := Step(s, a);
    assert Shape(s'.fs);
    UnpublishedChange(s, s', s.writer.job.dir);
    StoredUpToKept(s.fs, s'.fs, s.writer.job, s.writer.done);
  }

  lemma {:induction false} RenameShape(fs: FS, d: nat, n: Name)
    requires Shape(fs) && d < |fs.dirs| && Temp(n) in fs.dirs[d].live
    ensures Shape(StateDirectory.Rename(fs, d, n))
  {
  }

  lemma {:induction false} RenameInv(s: State)
    requires Inv(s) && Enabled(s, Action.Rename)
    ensures Inv(Step(s, Action.Rename))
  {
    RenameShape(s.fs, s.writer.job.dir, NameAt(s.writer.done));
    UnpublishedChange(s, Step(s, Action.Rename), s.writer.job.dir);
    StoredUpToKept(s.fs, Step(s, Action.Rename).fs, s.writer.job, s.writer.done);
  }

  lemma {:induction false} SyncVersionDirInv(s: State)
    requires Inv(s) && Enabled(s, SyncVersionDir)
    ensures Inv(Step(s, SyncVersionDir))
  {
    var s' := Step(s, SyncVersionDir);
    var w := s.writer;
    assert Shape(s'.fs);
    UnpublishedChange(s, s', w.job.dir);
    StoredUpToKept(s.fs, s'.fs, w.job, w.done);
    assert Stored(s'.fs, w.job.dir, NameAt(w.done),
      BlobFor(NameAt(w.done), w.job.contents, w.job.version, w.job.previous));
    assert StoredUpTo(s'.fs, w.job, w.done + 1);
  }

  lemma {:induction false} FlipCurrents(s: State)
    requires Inv(s) && Enabled(s, Flip)
    ensures CurrentOk(Step(s, Flip), Step(s, Flip).fs.live) && CurrentOk(Step(s, Flip), Step(s, Flip).fs.disk)
  {
    var s' := Step(s, Flip);
    StagedAll(s.fs, s.writer.job);
    assert SealedDir(s'.fs, s.writer.job.dir, s.writer.job.version, s.writer.job.contents);
    if s.fs.disk.current.Some? {
      SealedKept(s.fs, s'.fs, s.fs.disk.current.value, s.history[s.fs.disk.current.value]);
    }
  }

  lemma {:induction false} FlipHistory(s: State)
    requires Inv(s) && Enabled(s, Flip)
    ensures HistoryOk(Step(s, Flip))
  {
  }

  lemma {:induction false} FlipInv(s: State)
    requires Inv(s) && Enabled(s, Flip)
    ensures Inv(Step(s, Flip))
  {
    FlipCurrents(s);
    FlipHistory(s);
  }

  /** Removing what neither layer's `current` names. */
  lemma {:induction false} RemoveCurrents(s: State, s': State)
    requires Inv(s) && s' == s.(fs := s'.fs) && Shape(s'.fs) && KeepsSynced(s.fs, s'.fs)
    requires s'.fs.disk == s.fs.disk && s'.fs.live == s.fs.live.(versions := s'.fs.live.versions)
    requires forall v :: v in s.fs.live.versions && !MayRemove(s.writer, v) ==>
      && v in s'.fs.live.versions && s'.fs.live.versions[v] == s.fs.live.versions[v]
      && KeepsDir(s.fs, s'.fs, s.fs.live.versions[v])
    ensures CurrentOk(s', s'.fs.live) && CurrentOk(s', s'.fs.disk)
  {
    var fs, fs' := s.fs, s'.fs;
    if fs.live.current.Some? { SealedKept(fs, fs', fs.live.current.value, s.history[fs.live.current.value]); }
    if fs.disk.current.Some? { SealedKept(fs, fs', fs.disk.current.value, s.history[fs.disk.current.value]); }
  }

  lemma {:induction false} UnlinkShape(fs: FS, v: nat, n: Name)
    requires Shape(fs) && v in fs.live.versions
    ensures Shape(Unlink(fs, v, n)) && KeepsSynced(fs, Unlink(fs, v, n))
  {
  }

  lemma {:induction false} RemoveEntryInv(s: State, v: nat, n: Name)
    requires Inv(s) && Enabled(s, RemoveEntry(v, n))
    ensures Inv(Step(s, RemoveEntry(v, n)))
  {
    UnlinkShape(s.fs, v, n);
    RemoveCurrents(s, Step(s, RemoveEntry(v, n)));
  }

  lemma {:induction false} RemoveDirShape(fs: FS, v: nat)
    requires Shape(fs)
    ensures Shape(RemoveDir(fs, v)) && KeepsSynced(fs, RemoveDir(fs, v))
  {
  }

  lemma {:induction false} RemoveVersionInv(s: State, v: nat)
    requires Inv(s) && Enabled(s, RemoveVersion(v))
    ensures Inv(Step(s, RemoveVersion(v)))
  {
    RemoveDirShape(s.fs, v);
    RemoveCurrents(s, Step(s, RemoveVersion(v)));
  }

  /** What a write-back can change at most. */
  ghost predicate Flushed(fs: FS, fs': FS) {
    && Shape(fs') && KeepsSynced(fs, fs') && fs'.live == fs.live && |fs'.dirs| == |fs.dirs|
    && (forall d :: 0 <= d < |fs.dirs| ==> KeepsDir(fs, fs', d) && fs'.dirs[d].live == fs.dirs[d].live)
    && (forall f :: 0 <= f < |fs.files| ==> fs'.files[f].data == fs.files[f].data)
    && (forall v :: v in fs.live.versions && v in fs.disk.versions && fs.live.versions[v] == fs.disk.versions[v]
          ==> v in fs'.disk.versions && fs'.disk.versions[v] == fs.live.versions[v])
    && (fs.live.hasRoot && fs.disk.hasRoot ==> fs'.disk.hasRoot)
    && (fs'.disk.current == fs.disk.current || fs'.disk.current == fs.live.current)
    && (fs'.disk.stable <= fs.disk.stable + fs.live.stable && fs.disk.stable * fs.live.stable <= fs'.disk.stable)
  }

  lemma {:induction false} FlushShape(fs: FS, item: Item)
    requires Shape(fs)
    ensures Shape(Flush(fs, item)) && KeepsSynced(fs, Flush(fs, item))
  {
  }

  lemma {:induction false} FlushKeepsDirs(fs: FS, item: Item, d: nat)
    requires Shape(fs) && d < |fs.dirs|
    ensures KeepsDir(fs, Flush(fs, item), d) && Flush(fs, item).dirs[d].live == fs.dirs[d].live
  {
  }

  lemma {:induction false} FlushMovesDisk(fs: FS, item: Item)
    ensures
      var fs' := Flush(fs, item);
      && fs'.live == fs.live
      && (forall v :: v in fs.live.versions && v in fs.disk.versions && fs.live.versions[v] == fs.disk.versions[v]
            ==> v in fs'.disk.versions && fs'.disk.versions[v] == fs.live.versions[v])
      && (fs.live.hasRoot && fs.disk.hasRoot ==> fs'.disk.hasRoot)
      && (fs'.disk.current == fs.disk.current || fs'.disk.current == fs.live.current)
      && (fs'.disk.stable <= fs.disk.stable + fs.live.stable && fs.disk.stable * fs.live.stable <= fs'.disk.stable)
  {
  }

  lemma {:induction false} FlushKeepsFiles(fs: FS, item: Item)
    ensures |Flush(fs, item).files| == |fs.files| && |Flush(fs, item).dirs| == |fs.dirs|
    ensures forall f :: 0 <= f < |fs.files| ==> Flush(fs, item).files[f].data == fs.files[f].data
  {
  }

  lemma {:induction false} FlushIsFlushed(fs: FS, item: Item)
    requires Shape(fs)
    ensures Flushed(fs, Flush(fs, item))
  {
    FlushShape(fs, item);
    FlushKeepsFiles(fs, item);
    FlushMovesDisk(fs, item);
    forall d | 0 <= d < |fs.dirs|
      ensures KeepsDir(fs, Flush(fs, item), d) && Flush(fs, item).dirs[d].live == fs.dirs[d].live
    {
      FlushKeepsDirs(fs, item, d);
    }
  }

  lemma {:induction false} FlushedJob(s: State, s': State, job: Job, done: nat)
    requires Shape(s.fs) && s' == s.(fs := s'.fs) && Flushed(s.fs, s'.fs)
    requires JobOk(s, job) && StoredUpTo(s.fs, job, done)
    ensures JobOk(s', job) && StoredUpTo(s'.fs, job, done)
  {
    assert KeepsDir(s.fs, s'.fs, job.dir);
    StoredUpToKept(s.fs, s'.fs, job, done);
  }

  lemma {:induction false} FlushedWriter(s: State, s': State)
    requires Shape(s.fs) && WriterOk(s) && s' == s.(fs := s'.fs) && Flushed(s.fs, s'.fs)
    ensures WriterOk(s')
  {
    match s.writer
    case Staging(job, done, phase) => FlushedJob(s, s', job, done);
    case Staged(job) => FlushedJob(s, s', job, 4);
    case SyncingRoot(job) => FlushedJob(s, s', job, 4);
    case SyncingState(job) => FlushedJob(s, s', job, 4);
    case Flipping(job) => FlushedJob(s, s', job, 4);
    case Idle =>
    case Linking(_, _) =>
    case SyncingFlip(_) =>
    case Pruning(_) =>
    case Discarding(_) =>
  }

  lemma {:induction false} FlushedCurrents(s: State, s': State)
    requires Inv(s) && s' == s.(fs := s'.fs) && Flushed(s.fs, s'.fs)
    ensures CurrentOk(s', s'.fs.live) && CurrentOk(s', s'.fs.disk)
  {
    var fs, fs' := s.fs, s'.fs;
    if fs'.live.current.Some? { SealedKept(fs, fs', fs'.live.current.value, s.history[fs'.live.current.value]); }
    if fs'.disk.current.Some? { SealedKept(fs, fs', fs'.disk.current.value, s.history[fs'.disk.current.value]); }
  }

  lemma {:induction false} FlushedInv(s: State, s': State)
    requires Inv(s) && s' == s.(fs := s'.fs) && Flushed(s.fs, s'.fs)
    ensures Inv(s')
  {
    FlushedWriter(s, s');
    FlushedCurrents(s, s');
  }

  lemma {:induction false} WriteBackInv(s: State, item: Item)
    requires Inv(s)
    ensures Inv(Step(s, WriteBack(item)))
  {
    FlushIsFlushed(s.fs, item);
    FlushedInv(s, s.(fs := Flush(s.fs, item)));
  }

  // ---- the disk catches up ----

  /** Parts of the disk's state directory are brought up to what is live. */
  ghost predicate Synced(s: State, s': State) {
    && s'.fs == s.fs.(disk := s'.fs.disk) && s'.ok == s.ok && s'.history == s.history && s'.last == s.last
    && (s'.fs.disk.versions == s.fs.disk.versions || s'.fs.disk.versions == s.fs.live.versions)
    && (s'.fs.disk.hasRoot == s.fs.disk.hasRoot || s'.fs.disk.hasRoot == s.fs.live.hasRoot)
    && (s'.fs.disk.stable == s.fs.disk.stable || s'.fs.disk.stable == s.fs.live.stable)
    && (s'.fs.disk.current == s.fs.disk.current || s'.fs.disk.current == s.fs.live.current)
    && s'.fs.live.current in s'.candidates && s'.fs.disk.current in s'.candidates
  }

  lemma {:induction false} SyncedSealed(s: State, s': State, v: nat, c: Contents)
    requires Synced(s, s') && Sealed(s.fs, v, c)
    ensures Sealed(s'.fs, v, c)
  {
    SealedKept(s.fs, s'.fs, v, c);
  }

  lemma {:induction false} SyncedCurrents(s: State, s': State)
    requires Inv(s) && Synced(s, s')
    ensures CurrentOk(s', s'.fs.live) && CurrentOk(s', s'.fs.disk)
  {
    if s'.fs.live.current.Some? {
      SyncedSealed(s, s', s'.fs.live.current.value, s.history[s'.fs.live.current.value]);
    }
    if s'.fs.disk.current.Some? {
      SyncedSealed(s, s', s'.fs.disk.current.value, s.history[s'.fs.disk.current.value]);
    }
  }

  lemma {:induction false} RootSynced(s: State, s': State, job: Job)
    requires Inv(s) && s.writer == SyncingRoot(job)
    requires s' == s.(fs := SyncRoot(s.fs), writer := SyncingState(job))
    ensures Inv(s')
  {
    StoredUpToKept(s.fs, s'.fs, job, 4);
    SyncedCurrents(s, s');
  }

  lemma {:induction false} StateSynced(s: State, s': State, job: Job)
    requires Inv(s) && s.writer == SyncingState(job)
    requires s' == s.(fs := SyncState(s.fs), writer := Flipping(job))
    ensures Inv(s')
  {
    StoredUpToKept(s.fs, s'.fs, job, 4);
    SyncedCurrents(s, s');
  }

  lemma {:induction false} FlipSynced(s: State, s': State, job: Job)
    requires Inv(s) && s.writer == SyncingFlip(job)
    requires s' == s.(fs := SyncState(s.fs), writer := Pruning(job), candidates := {s.fs.live.current})
    ensures Inv(s')
  {
    SyncedCurrents(s, s');
  }

  // ---- a power loss ----

  lemma {:induction false} SealedSurvives(fs: FS, v: nat, c: Contents)
    requires Sealed(fs, v, c)
    ensures Sealed(PowerLoss(fs), v, c)
  {
    var d := fs.live.versions[v];
  }

  lemma {:induction false} PowerLossShape(fs: FS)
    requires Shape(fs)
    ensures Shape(PowerLoss(fs))
  {
  }

  lemma {:induction false} PowerLossCurrents(s: State, s': State)
    requires CurrentOk(s, s.fs.disk)
    requires s' == s.(fs := PowerLoss(s.fs), writer := Idle, reader := Away)
    ensures CurrentOk(s', s'.fs.live) && CurrentOk(s', s'.fs.disk)
  {
    if s.fs.disk.current.Some? {
      SealedSurvives(s.fs, s.fs.disk.current.value, s.history[s.fs.disk.current.value]);
    }
  }

  lemma {:induction false} LosePowerInv(s: State)
    requires Inv(s)
    ensures Inv(Step(s, LosePower))
  {
    PowerLossShape(s.fs);
    PowerLossCurrents(s, Step(s, LosePower));
  }

  lemma {:induction false} PutLinkInv(s: State, n: Name)
    requires Inv(s) && Enabled(s, PutLink(n))
    ensures Inv(Step(s, PutLink(n)))
  {
  }

  /** The steps that touch no file. */
  lemma {:induction false} ControlInv(s: State, s': State)
    requires Inv(s) && WriterOk(s')
    requires s' == s.(writer := s'.writer, reader := s'.reader, begun := s'.begun)
    ensures Inv(s')
  {
  }

  predicate Control(a: Action) {
    || a.Begin? || a.Accept? || a.Reject? || a.Finish? || a.StorageError? || a.WriterDies?
    || a.StartReading? || a.Read?
  }

  lemma {:induction false} ControlStepInv(s: State, a: Action)
    requires Inv(s) && Enabled(s, a) && Control(a)
    ensures Inv(Step(s, a))
  {
    ControlWriter(s, a);
    ControlInv(s, Step(s, a));
  }

  lemma {:induction false} ControlWriter(s: State, a: Action)
    requires WriterOk(s) && Enabled(s, a) && Control(a)
    ensures WriterOk(Step(s, a))
  {
  }

  predicate Filling(a: Action) {
    a.Write? || a.SyncTemp? || a.Rename? || a.SyncNamed? || a.SyncVersionDir?
  }

  lemma {:induction false} FillingInv(s: State, a: Action)
    requires Inv(s) && Enabled(s, a) && Filling(a)
    ensures Inv(Step(s, a))
  {
    match a
    case Write => WriteInv(s);
    case SyncTemp => SyncFileInv(s, a);
    case Rename => RenameInv(s);
    case SyncNamed => SyncFileInv(s, a);
    case SyncVersionDir => SyncVersionDirInv(s);
  }

  lemma {:induction false} StepInv(s: State, a: Action)
    requires Inv(s) && Enabled(s, a)
    ensures Inv(Step(s, a))
  {
    if Control(a) {
      ControlStepInv(s, a);
    } else if Filling(a) {
      FillingInv(s, a);
    } else if a.PutLink? {
      PutLinkInv(s, a.name);
    } else if a.Stage? {
      StageInv(s);
    } else if a.PersistRoot? {
      RootSynced(s, Step(s, a), s.writer.job);
    } else if a.PersistState? {
      StateSynced(s, Step(s, a), s.writer.job);
    } else if a.Flip? {
      FlipInv(s);
    } else if a.PersistFlip? {
      FlipSynced(s, Step(s, a), s.writer.job);
    } else if a.RemoveEntry? {
      RemoveEntryInv(s, a.version, a.name);
    } else if a.RemoveVersion? {
      RemoveVersionInv(s, a.version);
    } else if a.LosePower? {
      LosePowerInv(s);
    } else {
      WriteBackInv(s, a.item);
    }
  }
}
