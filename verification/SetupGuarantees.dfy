/** What holds of setup commits in every run: the published state is always whole, on
    disk as well as live; it changes only at the flip; numbers only grow; and lock-free
    readers are right. */
module SetupGuarantees {
  import opened Basics
  import opened StateDirectory
  import opened SetupCommit

  /** No state, or a valid versioned state at rest. */
  ghost predicate Init(s: State) {
    && s.writer.Idle? && s.reader.Away? && s.begun == 0
    && Shape(s.fs)
    && s.candidates == {s.fs.live.current} && s.fs.disk.current == s.fs.live.current
    && CurrentOk(s, s.fs.live) && CurrentOk(s, s.fs.disk) && HistoryOk(s)
    && (s.fs.live.current.Some? ==>
          && s.last == s.fs.live.current.value
          && s.history == map[s.last := s.history[s.last]])
    && (s.fs.live.current.None? ==> s.history == map[] && s.last == 0)
  }

  // ---- what published directories still hold ----

  /** The bytes the version was published with, already synced. */
  ghost predicate Original(f: File, n: Name, v: nat, c: Contents) {
    && f.disk == f.data
    && (n == Auth ==> f.data == Text(c.auth))
    && (n == Operator ==> f.data == Text(c.operator))
    && (n == Secrets ==> f.data == Text(c.secrets))
    && (n == Manifest ==> f.data.ManifestOf? && f.data.version == v && f.data.files == c)
  }

  /** Whatever entries are left, live or on disk, are the original ones. */
  ghost predicate Untouched(fs: FS, d: nat, v: nat, c: Contents) {
    && d < |fs.dirs|
    && (forall n :: n in Links && n in fs.dirs[d].live ==>
          fs.dirs[d].live[n] < |fs.files| && Original(fs.files[fs.dirs[d].live[n]], n, v, c))
    && (forall n :: n in Links && n in fs.dirs[d].disk ==>
          fs.dirs[d].disk[n] < |fs.files| && Original(fs.files[fs.dirs[d].disk[n]], n, v, c))
  }

  ghost predicate PublishedOk(s: State) {
    forall v :: v in s.history ==>
      && (v in s.fs.live.versions ==> Untouched(s.fs, s.fs.live.versions[v], v, s.history[v]))
      && (v in s.fs.disk.versions ==> Untouched(s.fs, s.fs.disk.versions[v], v, s.history[v]))
  }

  /** Entries only come from the other layer, or go. */
  ghost predicate NoNewEntries(fs: FS, fs': FS, d: nat) {
    && d < |fs.dirs| && d < |fs'.dirs|
    && (forall n :: n in Links && n in fs'.dirs[d].live ==>
          || (n in fs.dirs[d].live && fs'.dirs[d].live[n] == fs.dirs[d].live[n])
          || (n in fs.dirs[d].disk && fs'.dirs[d].live[n] == fs.dirs[d].disk[n]))
    && (forall n :: n in Links && n in fs'.dirs[d].disk ==>
          || (n in fs.dirs[d].live && fs'.dirs[d].disk[n] == fs.dirs[d].live[n])
          || (n in fs.dirs[d].disk && fs'.dirs[d].disk[n] == fs.dirs[d].disk[n]))
  }

  lemma {:induction false} UntouchedKept(fs: FS, fs': FS, d: nat, v: nat, c: Contents)
    requires Untouched(fs, d, v, c) && KeepsSynced(fs, fs') && NoNewEntries(fs, fs', d)
    ensures Untouched(fs', d, v, c)
  {
  }

  ghost predicate ListedAs(fs: FS, v: nat, d: nat) {
    || (v in fs.live.versions && fs.live.versions[v] == d)
    || (v in fs.disk.versions && fs.disk.versions[v] == d)
  }

  /** A step that publishes nothing, lists no published number anew and puts no entry
      into a published directory. */
  lemma {:induction false} PublishedKept(s: State, s': State)
    requires PublishedOk(s) && s'.history == s.history && KeepsSynced(s.fs, s'.fs)
    requires forall v :: v in s.history && v in s'.fs.live.versions ==>
      ListedAs(s.fs, v, s'.fs.live.versions[v]) && NoNewEntries(s.fs, s'.fs, s'.fs.live.versions[v])
    requires forall v :: v in s.history && v in s'.fs.disk.versions ==>
      ListedAs(s.fs, v, s'.fs.disk.versions[v]) && NoNewEntries(s.fs, s'.fs, s'.fs.disk.versions[v])
    ensures PublishedOk(s')
  {
    forall v | v in s'.history && v in s'.fs.live.versions
      ensures Untouched(s'.fs, s'.fs.live.versions[v], v, s'.history[v])
    {
      UntouchedKept(s.fs, s'.fs, s'.fs.live.versions[v], v, s'.history[v]);
    }
    forall v | v in s'.history && v in s'.fs.disk.versions
      ensures Untouched(s'.fs, s'.fs.disk.versions[v], v, s'.history[v])
    {
      UntouchedKept(s.fs, s'.fs, s'.fs.disk.versions[v], v, s'.history[v]);
    }
  }

  lemma {:induction false} StagedUntouched(fs: FS, job: Job)
    requires StoredUpTo(fs, job, 4)
    ensures Untouched(fs, job.dir, job.version, job.contents)
  {
    StagedAll(fs, job);
  }

  lemma {:induction false} JobPublished(s: State, s': State, job: Job)
    requires PublishedOk(s) && HistoryOk(s) && JobOk(s, job) && RootPersisted(s.fs, job) && StoredUpTo(s.fs, job, 4)
    requires s'.fs == PointCurrent(s.fs, job.version) && s'.history == s.history[job.version := job.contents]
    ensures PublishedOk(s')
  {
    StagedUntouched(s.fs, job);
    forall v | v in s'.history && v != job.version
      ensures v in s'.fs.live.versions ==> Untouched(s'.fs, s'.fs.live.versions[v], v, s'.history[v])
      ensures v in s'.fs.disk.versions ==> Untouched(s'.fs, s'.fs.disk.versions[v], v, s'.history[v])
    {
      assert v in s.history;
    }
  }

  lemma {:induction false} FlipPublished(s: State)
    requires HistoryOk(s) && WriterOk(s) && PublishedOk(s) && Enabled(s, Flip)
    ensures PublishedOk(Step(s, Flip))
  {
    JobPublished(s, Step(s, Flip), s.writer.job);
  }

  /** Filling the directory of an unpublished version. */
  lemma {:induction false} UnpublishedFilled(s: State, s': State, d: nat)
    requires Inv(s) && PublishedOk(s) && s' == s.(fs := s'.fs, writer := s'.writer) && SameLayers(s.fs, s'.fs)
    requires KeepsSynced(s.fs, s'.fs) && d < |s.fs.dirs| <= |s'.fs.dirs| && s.fs.dirs[d].number > s.last
    requires forall e :: 0 <= e < |s.fs.dirs| && e != d ==> s'.fs.dirs[e] == s.fs.dirs[e]
    ensures PublishedOk(s')
  {
    PublishedKept(s, s');
  }

  lemma {:induction false} FillingPublished(s: State, a: Action)
    requires Inv(s) && PublishedOk(s) && Enabled(s, a) && Filling(a)
    ensures PublishedOk(Step(s, a))
  {
    UnpublishedFilled(s, Step(s, a), s.writer.job.dir);
  }

  lemma {:induction false} LosePowerPublished(s: State)
    requires Inv(s) && PublishedOk(s)
    ensures PublishedOk(Step(s, LosePower))
  {
    PublishedKept(s, Step(s, LosePower));
  }

  lemma {:induction false} FlushAddsNothing(fs: FS, item: Item)
    requires Shape(fs)
    ensures Flush(fs, item).live == fs.live
    ensures forall d :: 0 <= d < |fs.dirs| ==> NoNewEntries(fs, Flush(fs, item), d)
    ensures forall v :: v in Flush(fs, item).disk.versions ==> ListedAs(fs, v, Flush(fs, item).disk.versions[v])
  {
  }

  lemma {:induction false} WriteBackPublished(s: State, s': State, item: Item)
    requires Shape(s.fs) && PublishedOk(s) && s' == s.(fs := Flush(s.fs, item))
    ensures PublishedOk(s')
  {
    FlushShape(s.fs, item);
    FlushAddsNothing(s.fs, item);
    PublishedKept(s, s');
  }

  lemma {:induction false} UnlinkAddsNothing(fs: FS, v: nat, n: Name)
    requires Shape(fs) && v in fs.live.versions
    ensures forall d :: 0 <= d < |fs.dirs| ==> NoNewEntries(fs, Unlink(fs, v, n), d)
  {
  }

  lemma {:induction false} UnlinkPublished(s: State, s': State, v: nat, n: Name)
    requires Shape(s.fs) && PublishedOk(s) && v in s.fs.live.versions && s' == s.(fs := Unlink(s.fs, v, n))
    ensures PublishedOk(s')
  {
    UnlinkShape(s.fs, v, n);
    UnlinkAddsNothing(s.fs, v, n);
    PublishedKept(s, s');
  }

  lemma {:induction false} RemoveDirPublished(s: State, s': State, v: nat)
    requires Shape(s.fs) && PublishedOk(s) && s' == s.(fs := RemoveDir(s.fs, v))
    ensures PublishedOk(s')
  {
    RemoveDirShape(s.fs, v);
    PublishedKept(s, s');
  }

  /** Steps on the state directory itself, which list at most an unpublished number. */
  lemma {:induction false} LayersMoved(s: State, s': State, v: nat)
    requires Shape(s.fs) && PublishedOk(s) && s'.history == s.history && s'.fs.files == s.fs.files && v !in s.history
    requires |s.fs.dirs| <= |s'.fs.dirs| && s'.fs.dirs[..|s.fs.dirs|] == s.fs.dirs
    requires forall u :: u in s'.fs.live.versions && u != v ==> ListedAs(s.fs, u, s'.fs.live.versions[u])
    requires forall u :: u in s'.fs.disk.versions && u != v ==> ListedAs(s.fs, u, s'.fs.disk.versions[u])
    ensures PublishedOk(s')
  {
    assert forall d :: 0 <= d < |s.fs.dirs| ==> s'.fs.dirs[d] == s'.fs.dirs[..|s.fs.dirs|][d];
    PublishedKept(s, s');
  }

  lemma {:induction false} LayerPublished(s: State, a: Action)
    requires Inv(s) && PublishedOk(s) && Enabled(s, a)
    requires a.PutLink? || a.Stage? || a.PersistRoot? || a.PersistState? || a.PersistFlip?
    ensures PublishedOk(Step(s, a))
  {
    if a.Stage? {
      NextIsNew(s, s.writer.hint);
      LayersMoved(s, Step(s, a), NextVersion(s.fs, s.writer.hint));
    } else {
      LayersMoved(s, Step(s, a), s.last + 1);
    }
  }

  lemma {:induction false} ControlPublished(s: State, a: Action)
    requires PublishedOk(s) && Enabled(s, a) && Control(a)
    ensures PublishedOk(Step(s, a))
  {
  }

  lemma {:induction false} StepPublished(s: State, a: Action)
    requires Inv(s) && PublishedOk(s) && Enabled(s, a)
    ensures PublishedOk(Step(s, a))
  {
    if Control(a) {
      ControlPublished(s, a);
    } else if Filling(a) {
      FillingPublished(s, a);
    } else if a.Flip? {
      FlipPublished(s);
    } else if a.LosePower? {
      LosePowerPublished(s);
    } else if a.WriteBack? {
      WriteBackPublished(s, Step(s, a), a.item);
    } else if a.RemoveEntry? {
      UnlinkPublished(s, Step(s, a), a.version, a.name);
    } else if a.RemoveVersion? {
      RemoveDirPublished(s, Step(s, a), a.version);
    } else {
      LayerPublished(s, a);
    }
  }

  // ---- what a step can change ----

  lemma {:induction false} CurrentMoves(s: State, a: Action)
    requires HistoryOk(s) && WriterOk(s) && Enabled(s, a)
    ensures
      var s' := Step(s, a);
      && s'.history == (if a.Flip? then s.history[s.writer.job.version := s.writer.job.contents] else s.history)
      && (a.Flip? ==> s'.fs.live.current == Some(s.writer.job.version) && s.writer.job.version !in s.history)
      && (!a.Flip? && !a.LosePower? ==> s'.fs.live.current == s.fs.live.current)
      && (!a.Read? && !a.StartReading? && !a.LosePower? ==> s'.reader == s.reader)
  {
    if a.WriteBack? { FlushMovesDisk(s.fs, a.item); }
  }

  // ---- what one step leaves readable ----

  /** The live files of one version are the same before and after. */
  ghost predicate LiveKept(fs: FS, fs': FS, v: nat) {
    && v in fs.live.versions && v in fs'.live.versions
    && fs'.live.versions[v] == fs.live.versions[v] < |fs.dirs| <= |fs'.dirs|
    && fs'.dirs[fs.live.versions[v]].live == fs.dirs[fs.live.versions[v]].live
    && |fs.files| <= |fs'.files|
    && (forall f :: 0 <= f < |fs.files| ==> fs'.files[f].data == fs.files[f].data)
  }

  ghost predicate Removes(a: Action, v: nat) {
    (a.RemoveEntry? || a.RemoveVersion?) && a.version == v
  }

  lemma {:induction false} ReadsKept(fs: FS, fs': FS, v: nat)
    requires Shape(fs) && LiveKept(fs, fs', v)
    ensures ReadContents(fs', v) == ReadContents(fs, v)
    ensures ReadFile(fs', v, Manifest) == ReadFile(fs, v, Manifest)
  {
  }

  lemma {:induction false} FillingKeeps(s: State, a: Action, v: nat)
    requires Inv(s) && Enabled(s, a) && Filling(a) && v in s.history && v in s.fs.live.versions
    ensures LiveKept(s.fs, Step(s, a).fs, v)
  {
    assert s.fs.dirs[s.fs.live.versions[v]].number == v < s.fs.dirs[s.writer.job.dir].number;
  }

  lemma {:induction false} StepKeepsFiles(s: State, a: Action, v: nat)
    requires Inv(s) && Enabled(s, a) && v in s.history && v in s.fs.live.versions
    requires !a.LosePower? && !Removes(a, v)
    ensures LiveKept(s.fs, Step(s, a).fs, v)
  {
    if Filling(a) {
      FillingKeeps(s, a, v);
    } else if a.WriteBack? {
      FlushIsFlushed(s.fs, a.item);
    }
  }

  // ---- readers ----

  function VersionOf(p: ReadPhase): Option<nat> {
    match p
    case ReadingAuth(v) => Some(v)
    case ReadingOperator(v, _) => Some(v)
    case ReadingSecrets(v, _, _) => Some(v)
    case ReadingManifest(v, _) => Some(v)
    case CheckingLinks(v, _) => Some(v)
    case Accepted(v, _) => Some(v)
    case _ => None
  }

  /** What a reader has read so far is what its version was published with. */
  ghost predicate KnownOk(s: State) {
    s.reader.Reader? ==>
      match s.reader.phase
      case ReadingAuth(v) => v in s.history
      case ReadingOperator(v, a) => v in s.history && a == s.history[v].auth
      case ReadingSecrets(v, a, o) => v in s.history && a == s.history[v].auth && o == s.history[v].operator
      case ReadingManifest(v, c) => v in s.history && c == s.history[v]
      case CheckingLinks(v, c) => v in s.history && c == s.history[v]
      case Accepted(v, c) => v in s.history && c == s.history[v]
      case _ => true
  }

  lemma {:induction false} KnownKept(s: State, s': State)
    requires KnownOk(s) && s'.reader == s.reader
    requires forall v :: v in s.history ==> v in s'.history && s'.history[v] == s.history[v]
    ensures KnownOk(s')
  {
  }

  lemma {:induction false} StepKnown(s: State, a: Action)
    requires Inv(s) && PublishedOk(s) && KnownOk(s) && Enabled(s, a)
    ensures KnownOk(Step(s, a))
  {
    if a.Read? {
      ReadKnown(s, Step(s, a));
    } else if !a.StartReading? && !a.LosePower? {
      CurrentMoves(s, a);
      KnownKept(s, Step(s, a));
    }
  }

  lemma {:induction false} ReadKnown(s: State, s': State)
    requires Shape(s.fs) && CurrentOk(s, s.fs.live) && PublishedOk(s) && KnownOk(s) && s.reader.Reader?
    requires s' == s.(reader := s.reader.(phase := ReadStep(s.fs, s.ok, s.reader.phase)))
    ensures KnownOk(s')
  {
    assert Auth in Links && Operator in Links && Secrets in Links;
  }

  ghost predicate Readable(fs: FS, v: nat, c: Contents) {
    && v in fs.live.versions
    && ReadContents(fs, v) == Some(c)
    && match ReadFile(fs, v, Manifest)
       case Some(ManifestOf(mv, _, files)) => mv == v && files == c
       case _ => false
  }

  lemma {:induction false} SealedReadable(fs: FS, v: nat, c: Contents)
    requires Sealed(fs, v, c)
    ensures Readable(fs, v, c)
  {
  }

  /** Which versions a reader that began at most one commit ago can have resolved. */
  ghost predicate Follows(s: State, v: nat, base: int) {
    match s.writer
    case Idle => s.begun == base ==> Some(v) == s.fs.live.current
    case SyncingFlip(job) => v == job.version || Some(v) == job.previous
    case Pruning(job) => v == job.version || Some(v) == job.previous
    case _ => Some(v) == s.fs.live.current
  }

  ghost predicate OverlapOk(s: State) {
    s.reader.Reader? ==>
      && s.reader.base <= s.begun
      && (!s.writer.Idle? ==> s.reader.base < s.begun)
      && (s.reader.valid && s.begun - s.reader.base <= 1 ==> OnTrack(s))
  }

  ghost predicate OnTrack(s: State)
    requires s.reader.Reader?
  {
    && s.fs.live.current.Some?
    && !s.reader.phase.Refused?
    && (VersionOf(s.reader.phase).Some? ==>
          var v := VersionOf(s.reader.phase).value;
          v in s.history && Readable(s.fs, v, s.history[v]) && Follows(s, v, s.reader.base))
  }

  lemma {:induction false} KeepsFollowing(s: State, a: Action, v: nat)
    requires HistoryOk(s) && WriterOk(s) && Enabled(s, a) && !a.Read? && !a.StartReading? && !a.LosePower?
    requires s.reader.Reader? && OverlapOk(s) && v in s.history && Follows(s, v, s.reader.base)
    requires Step(s, a).begun - s.reader.base <= 1
    ensures Follows(Step(s, a), v, s.reader.base) && !Removes(a, v)
  {
  }

  lemma {:induction false} ReadableKept(fs: FS, fs': FS, v: nat, c: Contents)
    requires Shape(fs) && LiveKept(fs, fs', v) && Readable(fs, v, c)
    ensures Readable(fs', v, c)
  {
    ReadsKept(fs, fs', v);
  }

  /** Steps of the writer and the disk never take away what such a reader still needs. */
  lemma {:induction false} OthersKeepTrack(s: State, a: Action, s': State)
    requires Inv(s) && Enabled(s, a) && !a.Read? && !a.StartReading? && !a.LosePower?
    requires s.reader.Reader? && OverlapOk(s) && OnTrack(s)
    requires s' == Step(s, a) && s'.begun - s.reader.base <= 1
    ensures OnTrack(s')
  {
    CurrentMoves(s, a);
    if VersionOf(s.reader.phase).Some? {
      var v := VersionOf(s.reader.phase).value;
      KeepsFollowing(s, a, v);
      StepKeepsFiles(s, a, v);
      ReadableKept(s.fs, s'.fs, v, s.history[v]);
    }
  }

  /** The next read of a reader on track succeeds. */
  lemma {:induction false} ReadKeepsTrack(s: State, s': State)
    requires Inv(s) && KnownOk(s) && s.reader.Reader? && OverlapOk(s) && OnTrack(s)
    requires s.begun - s.reader.base <= 1
    requires s' == s.(reader := s.reader.(phase := ReadStep(s.fs, s.ok, s.reader.phase)))
    ensures OnTrack(s')
  {
    PointerIsCurrent(s);
    var v := s.fs.live.current.value;
    SealedReadable(s.fs, v, s.history[v]);
    if s.reader.phase.ReadingManifest? { assert s.ok(s.history[s.reader.phase.v]); }
  }

  lemma {:induction false} BegunMoves(s: State, a: Action)
    requires Enabled(s, a) && !a.StartReading? && !a.LosePower?
    ensures s.begun <= Step(s, a).begun && (s.writer.Idle? && !Step(s, a).writer.Idle? ==> s.begun < Step(s, a).begun)
    ensures Step(s, a).reader.Reader? == s.reader.Reader?
    ensures s.reader.Reader? ==> Step(s, a).reader.base == s.reader.base && Step(s, a).reader.valid == s.reader.valid
  {
  }

  lemma {:induction false} OverlapContinues(s: State, a: Action, s': State)
    requires Inv(s) && KnownOk(s) && OverlapOk(s) && Enabled(s, a) && !a.StartReading? && !a.LosePower?
    requires s' == Step(s, a)
    ensures OverlapOk(s')
  {
    BegunMoves(s, a);
    if s.reader.Reader? && s.reader.valid && s'.begun - s.reader.base <= 1 {
      if a.Read? {
        ReadKeepsTrack(s, s');
      } else {
        OthersKeepTrack(s, a, s');
      }
    }
  }

  lemma {:induction false} StepOverlap(s: State, a: Action)
    requires Inv(s) && KnownOk(s) && OverlapOk(s) && Enabled(s, a)
    ensures OverlapOk(Step(s, a))
  {
    if !a.StartReading? && !a.LosePower? {
      OverlapContinues(s, a, Step(s, a));
    }
  }

  // ---- every run ----

  ghost predicate Safe(s: State) {
    Inv(s) && PublishedOk(s) && KnownOk(s) && OverlapOk(s)
  }

  lemma {:induction false} InitSafe(s: State)
    requires Init(s)
    ensures Safe(s)
  {
    if s.fs.live.current.Some? {
      var v := s.last;
      var d := s.fs.live.versions[v];
      assert SealedDir(s.fs, d, v, s.history[v]);
      assert Untouched(s.fs, d, v, s.history[v]);
    }
  }

  lemma {:induction false} StepSafe(s: State, a: Action)
    requires Safe(s) && Enabled(s, a)
    ensures Safe(Step(s, a))
  {
    StepInv(s, a);
    StepPublished(s, a);
    StepKnown(s, a);
    StepOverlap(s, a);
  }

  lemma {:induction false} RunSafe(s: State, run: seq<Action>)
    requires Safe(s) && Legal(s, run)
    ensures Safe(Exec(s, run))
    decreases |run|
  {
    if run != [] {
      StepSafe(s, run[0]);
      RunSafe(Step(s, run[0]), run[1..]);
    }
  }

  ghost predicate Reachable(s: State) {
    exists s0, run :: Init(s0) && Legal(s0, run) && Exec(s0, run) == s
  }

  lemma {:induction false} ReachableSafe(s: State)
    requires Reachable(s)
    ensures Safe(s)
  {
    var s0, run :| Init(s0) && Legal(s0, run) && Exec(s0, run) == s;
    InitSafe(s0);
    RunSafe(s0, run);
  }

  lemma {:induction false} ReachableWriter(s: State)
    requires Reachable(s)
    ensures Shape(s.fs) && HistoryOk(s) && WriterOk(s)
  {
    ReachableSafe(s);
  }

  lemma {:induction false} ReachableKnown(s: State)
    requires Reachable(s)
    ensures KnownOk(s)
  {
    ReachableSafe(s);
  }

  /** A writer at work may die at any point, and storage may fail it at any point before the
      new version is durable; the power may fail, the disk write back and a reader start
      whenever they like. None of that changes what the files hold, but for the power. */
  lemma {:induction false} AnythingMayHappen(s: State, item: Item)
    ensures Enabled(s, LosePower) && Enabled(s, WriteBack(item)) && Enabled(s, StartReading)
    ensures Step(s, StartReading).fs == s.fs && Step(s, LosePower).fs == PowerLoss(s.fs)
    ensures !s.writer.Idle? ==>
      && Enabled(s, WriterDies) && Step(s, WriterDies).writer.Idle? && Step(s, WriterDies).fs == s.fs
    ensures !s.writer.Idle? && !s.writer.Pruning? && !s.writer.Discarding? ==>
      Enabled(s, StorageError) && Step(s, StorageError).fs == s.fs
  {
  }

  // ---- the guarantees ----

  lemma {:induction false} CurrentIsValid(s: State)
    requires Inv(s) && s.fs.live.current.Some?
    ensures ValidState(s.fs, s.ok)
    ensures s.fs.live.current.value in s.history
    ensures Shown(s.fs) == Some(s.history[s.fs.live.current.value])
  {
    PointerIsCurrent(s);
    SealedReadable(s.fs, s.fs.live.current.value, s.history[s.fs.live.current.value]);
  }

  /** At every moment of every run, a published state validates as it stands, and shows
      exactly the contents its version was committed with. */
  lemma {:induction false} LiveStateIsWhole(s: State)
    requires Reachable(s) && s.fs.live.current.Some?
    ensures s.fs.live.current.value in s.history
    ensures ValidState(s.fs, s.ok)
    ensures Shown(s.fs) == Some(s.history[s.fs.live.current.value])
  {
    ReachableSafe(s);
    CurrentIsValid(s);
  }

  /** Whenever the power fails, what the disk holds is either a valid published state
      or, if nothing has been acknowledged yet, no state; and it is one of the states
      published since the last acknowledged one. */
  lemma {:induction false} DiskStateIsWhole(s: State)
    requires Reachable(s)
    ensures
      var rebooted := PowerLoss(s.fs);
      && rebooted.live.current == s.fs.disk.current
      && rebooted.live.current in s.candidates
      && (rebooted.live.current.Some? ==>
            && ValidState(rebooted, s.ok)
            && rebooted.live.current.value in s.history
            && Shown(rebooted) == Some(s.history[rebooted.live.current.value]))
  {
    ReachableSafe(s);
    LosePowerInv(s);
    var s' := Step(s, LosePower);
    if s'.fs.live.current.Some? { CurrentIsValid(s'); }
  }

  /** A step changes what consumers see only if it is the flip, which shows the payload,
      or a power loss, which shows what the disk held. */
  lemma {:induction false} OnlyTheFlipShows(s: State, a: Action)
    requires Reachable(s) && Enabled(s, a)
    ensures
      var s' := Step(s, a);
      Shown(s'.fs) ==
        if a.Flip? then Some(s.writer.job.contents)
        else if a.LosePower? then Shown(PowerLoss(s.fs))
        else Shown(s.fs)
  {
    ReachableSafe(s);
    StepInv(s, a);
    var s' := Step(s, a);
    if s'.fs.live.current.Some? { CurrentIsValid(s'); }
    if s.fs.live.current.Some? { CurrentIsValid(s); }
    CurrentMoves(s, a);
  }

  lemma {:induction false} DiskMoves(s: State, a: Action)
    requires Shape(s.fs) && WriterOk(s) && Enabled(s, a)
    ensures
      var s' := Step(s, a);
      && (s'.fs.disk.current == s.fs.disk.current || s'.fs.disk.current == s.fs.live.current)
      && (a.PersistFlip? ==> s'.fs.disk.current == Some(s.writer.job.version))
      && (a.PersistFlip? ==> s'.candidates == {Some(s.writer.job.version)})
      && (!a.PersistFlip? && !a.Flip? ==> s'.candidates == s.candidates)
  {
    if a.WriteBack? { FlushMovesDisk(s.fs, a.item); }
  }

  /** What would survive a power loss moves only to what is live, and the sync after the
      flip moves it there: an acknowledged commit survives. */
  lemma {:induction false} OnlySyncsReachTheDisk(s: State, a: Action)
    requires Reachable(s) && Enabled(s, a)
    ensures
      var s' := Step(s, a);
      && (s'.fs.disk.current == s.fs.disk.current || s'.fs.disk.current == s.fs.live.current)
      && (a.PersistFlip? ==> s'.fs.disk.current == Some(s.writer.job.version))
      && (a.PersistFlip? ==> s'.candidates == {Some(s.writer.job.version)})
      && (!a.PersistFlip? && !a.Flip? ==> s'.candidates == s.candidates)
  {
    ReachableWriter(s);
    DiskMoves(s, a);
  }

  /** The next commit can always stage: its number is new to the directory and above
      every number ever published. */
  lemma {:induction false} NextVersionIsFresh(s: State, hint: nat)
    requires Reachable(s)
    ensures NextVersion(s.fs, hint) !in s.fs.live.versions
    ensures NextVersion(s.fs, hint) > s.last >= 0
    ensures forall v :: v in s.history ==> NextVersion(s.fs, hint) > v
  {
    ReachableWriter(s);
  }

  lemma {:induction false} LastMoves(s: State, a: Action)
    requires HistoryOk(s) && WriterOk(s) && Enabled(s, a)
    ensures Step(s, a).last == if a.Flip? then s.writer.job.version else s.last
    ensures a.Flip? ==> s.writer.job.version > s.last && s.writer.job.version !in s.history
  {
  }

  lemma {:induction false} FlipIncreases(s: State, a: Action)
    requires Reachable(s) && Enabled(s, a)
    ensures Step(s, a).last == if a.Flip? then s.writer.job.version else s.last
    ensures a.Flip? ==> s.writer.job.version > s.last && s.writer.job.version !in s.history
  {
    ReachableWriter(s);
    LastMoves(s, a);
  }

  /** The version numbers published during a run, in order. */
  ghost function Flips(s: State, run: seq<Action>): seq<nat>
    requires Legal(s, run)
    decreases |run|
  {
    if run == [] then [] else
      (if run[0].Flip? then [s.writer.job.version] else []) + Flips(Step(s, run[0]), run[1..])
  }

  ghost predicate Increasing(numbers: seq<nat>, above: nat) {
    && (forall i :: 0 <= i < |numbers| ==> numbers[i] > above)
    && (forall i, j :: 0 <= i < j < |numbers| ==> numbers[i] < numbers[j])
  }

  lemma {:induction false} IncreasingPrepends(v: nat, rest: seq<nat>, above: nat)
    requires v > above && Increasing(rest, v)
    ensures Increasing([v] + rest, above)
  {
  }

  lemma {:induction false} StepLast(s: State, a: Action)
    requires Safe(s) && Enabled(s, a)
    ensures Safe(Step(s, a)) && Step(s, a).last == if a.Flip? then s.writer.job.version else s.last
    ensures a.Flip? ==> s.writer.job.version > s.last
  {
    StepSafe(s, a);
    LastMoves(s, a);
  }

  lemma {:induction false} FlipsIncrease(s: State, run: seq<Action>)
    requires Safe(s) && Legal(s, run)
    ensures Increasing(Flips(s, run), s.last)
    decreases |run|
  {
    if run != [] {
      StepLast(s, run[0]);
      var rest := Flips(Step(s, run[0]), run[1..]);
      FlipsIncrease(Step(s, run[0]), run[1..]);
      if run[0].Flip? {
        IncreasingPrepends(s.writer.job.version, rest, s.last);
      } else {
        assert [] + rest == rest;
      }
    }
  }

  /** Published numbers strictly increase over every run, through crashes and power losses. */
  lemma {:induction false} NumbersIncrease(s0: State, run: seq<Action>)
    requires Init(s0) && Legal(s0, run)
    ensures Increasing(Flips(s0, run), s0.last)
  {
    InitSafe(s0);
    FlipsIncrease(s0, run);
  }

  lemma {:induction false} StagedValidates(s: State, job: Job)
    requires JobOk(s, job) && StoredUpTo(s.fs, job, 4)
    ensures ValidVersion(s.fs, s.ok, job.version)
  {
    StagedAll(s.fs, job);
  }

  /** A fully staged version always passes its own validation. */
  lemma {:induction false} StagedVersionValidates(s: State)
    requires Reachable(s) && s.writer.Staged?
    ensures ValidVersion(s.fs, s.ok, s.writer.job.version)
  {
    ReachableWriter(s);
    StagedValidates(s, s.writer.job);
  }

  /** A lock-free reader that answers true has seen one version, complete and exactly as
      it was committed, however many commits went by. */
  lemma {:induction false} AcceptedReaderSawOneVersion(s: State)
    requires Reachable(s) && s.reader.Reader? && s.reader.phase.Accepted?
    ensures s.reader.phase.v in s.history && s.history[s.reader.phase.v] == s.reader.phase.read
  {
    ReachableKnown(s);
  }

  /** And one that started on a committed state and met at most one commit never
      answers false. */
  lemma {:induction false} ReaderMeetingOneCommitIsNotRefused(s: State)
    requires Reachable(s) && s.reader.Reader? && s.reader.valid && s.begun - s.reader.base <= 1
    ensures !s.reader.phase.Refused?
  {
    ReachableSafe(s);
  }
}
