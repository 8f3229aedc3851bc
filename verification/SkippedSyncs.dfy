/** Setup commits on a file system that refuses to sync directories: the code then goes on
    as if it had synced. What consumers see is as safe as ever while the power stays on;
    what survives a power loss is only what the disk wrote back on its own. */
module SkippedSyncs {
  import opened Basics
  import opened StateDirectory
  import opened SetupCommit
  import opened SetupGuarantees
  import opened SetupStore

  predicate DirectorySync(a: Action) {
    a.SyncVersionDir? || a.PersistRoot? || a.PersistState? || a.PersistFlip?
  }

  /** A directory sync changes nothing, but the writer goes on. */
  ghost function SkipStep(s: State, a: Action): State
    requires Enabled(s, a)
  {
    if DirectorySync(a) then Step(s, a).(fs := s.fs) else Step(s, a)
  }

  ghost predicate SkipLegal(s: State, run: seq<Action>)
    decreases |run|
  {
    run == [] || (Enabled(s, run[0]) && SkipLegal(SkipStep(s, run[0]), run[1..]))
  }

  ghost function SkipExec(s: State, run: seq<Action>): State
    requires SkipLegal(s, run)
    decreases |run|
  {
    if run == [] then s else SkipExec(SkipStep(s, run[0]), run[1..])
  }

  predicate PowerStaysOn(run: seq<Action>) {
    forall i :: 0 <= i < |run| ==> !run[i].LosePower?
  }

  // ---- live, nothing is different ----

  /** The same to every process that reads it. */
  ghost predicate LooksLike(fs: FS, fs': FS) {
    && fs.live == fs'.live && |fs.dirs| == |fs'.dirs| && |fs.files| == |fs'.files|
    && (forall d :: 0 <= d < |fs.dirs| ==>
          fs.dirs[d].number == fs'.dirs[d].number && fs.dirs[d].live == fs'.dirs[d].live)
    && (forall f :: 0 <= f < |fs.files| ==> fs.files[f].data == fs'.files[f].data)
  }

  ghost predicate Alike(s: State, t: State) {
    && LooksLike(s.fs, t.fs)
    && (s.ok, s.writer, s.reader, s.history, s.last, s.begun) == (t.ok, t.writer, t.reader, t.history, t.last, t.begun)
  }

  lemma {:induction false} SameFile(fs: FS, fs': FS, v: nat, n: Name)
    requires LooksLike(fs, fs')
    ensures ReadFile(fs, v, n) == ReadFile(fs', v, n)
  {
  }

  lemma {:induction false} SameReads(fs: FS, fs': FS, v: nat, ok: Contents -> bool)
    requires LooksLike(fs, fs')
    ensures ReadPointer(fs) == ReadPointer(fs') && ReadContents(fs, v) == ReadContents(fs', v)
    ensures ValidVersion(fs, ok, v) == ValidVersion(fs', ok, v)
  {
    forall u, n ensures ReadFile(fs, u, n) == ReadFile(fs', u, n) {
      SameFile(fs, fs', u, n);
    }
  }

  lemma {:induction false} SameReadStep(fs: FS, fs': FS, ok: Contents -> bool, p: ReadPhase)
    requires LooksLike(fs, fs')
    ensures ReadStep(fs, ok, p) == ReadStep(fs', ok, p)
  {
    SameReads(fs, fs', 0, ok);
    forall u, n ensures ReadFile(fs, u, n) == ReadFile(fs', u, n) {
      SameFile(fs, fs', u, n);
    }
  }

  lemma {:induction false} AlikeEnabled(s: State, t: State, a: Action)
    requires Alike(s, t) && !a.LosePower?
    ensures Enabled(s, a) <==> Enabled(t, a)
  {
    if a.Accept? && t.writer.Staged? {
      SameReads(s.fs, t.fs, t.writer.job.version, s.ok);
    }
  }

  lemma {:induction false} FlushLooksLike(fs: FS, item: Item)
    ensures LooksLike(Flush(fs, item), fs)
  {
  }

  lemma {:induction false} FilesStepAlike(s: State, t: State, a: Action)
    requires Alike(s, t) && Enabled(s, a) && Enabled(t, a) && (Filling(a) || a.RemoveEntry? || a.RemoveVersion?)
    ensures Alike(Step(s, a), SkipStep(t, a))
  {
  }

  lemma {:induction false} StateStepAlike(s: State, t: State, a: Action)
    requires Alike(s, t) && Enabled(s, a) && Enabled(t, a)
    requires a.PutLink? || a.Stage? || a.PersistRoot? || a.PersistState? || a.Flip? || a.PersistFlip?
    ensures Alike(Step(s, a), SkipStep(t, a))
  {
    SameReads(s.fs, t.fs, 0, s.ok);
  }

  lemma {:induction false} ControlStepAlike(s: State, t: State, a: Action)
    requires Alike(s, t) && Enabled(s, a) && Enabled(t, a) && Control(a)
    ensures Alike(Step(s, a), SkipStep(t, a))
  {
    if a.Read? {
      SameReadStep(s.fs, t.fs, s.ok, s.reader.phase);
    }
  }

  lemma {:induction false} StepAlike(s: State, t: State, a: Action)
    requires Alike(s, t) && Enabled(s, a) && Enabled(t, a) && !a.LosePower?
    ensures Alike(Step(s, a), SkipStep(t, a))
  {
    if Control(a) {
      ControlStepAlike(s, t, a);
    } else if Filling(a) || a.RemoveEntry? || a.RemoveVersion? {
      FilesStepAlike(s, t, a);
    } else if a.WriteBack? {
      FlushLooksLike(s.fs, a.item);
      FlushLooksLike(t.fs, a.item);
    } else {
      StateStepAlike(s, t, a);
    }
  }

  /** Every run with skipped syncs looks like the same run with the syncs done. */
  lemma {:induction false} RunAlike(s: State, t: State, run: seq<Action>)
    requires Alike(s, t) && SkipLegal(t, run) && PowerStaysOn(run)
    ensures Legal(s, run) && Alike(Exec(s, run), SkipExec(t, run))
    decreases |run|
  {
    if run != [] {
      AlikeEnabled(s, t, run[0]);
      StepAlike(s, t, run[0]);
      RunAlike(Step(s, run[0]), SkipStep(t, run[0]), run[1..]);
    }
  }

  /** And every run with the syncs done can be made with the syncs skipped. */
  lemma {:induction false} RunSkips(s: State, t: State, run: seq<Action>)
    requires Alike(s, t) && Legal(s, run) && PowerStaysOn(run)
    ensures SkipLegal(t, run) && Alike(Exec(s, run), SkipExec(t, run))
    decreases |run|
  {
    if run != [] {
      AlikeEnabled(s, t, run[0]);
      StepAlike(s, t, run[0]);
      RunSkips(Step(s, run[0]), SkipStep(t, run[0]), run[1..]);
    }
  }

  /** So a published state validates and is shown whole while the power stays on. */
  lemma {:induction false} LiveStateStaysWhole(s0: State, run: seq<Action>)
    requires Init(s0) && SkipLegal(s0, run) && PowerStaysOn(run)
    ensures
      var t := SkipExec(s0, run);
      t.fs.live.current.Some? ==>
        && t.fs.live.current.value in t.history
        && ValidState(t.fs, t.ok)
        && Shown(t.fs) == Some(t.history[t.fs.live.current.value])
  {
    RunAlike(s0, s0, run);
    var s, t := Exec(s0, run), SkipExec(s0, run);
    assert Reachable(s);
    if t.fs.live.current.Some? {
      LiveStateIsWhole(s);
      SameReads(s.fs, t.fs, t.fs.live.current.value, s.ok);
    }
  }

  // ---- what a power loss then leaves ----

  /** After a reboot the directory lists this file under this name. */
  ghost predicate OnDisk(fs: FS, d: nat, n: Name, blob: Blob) {
    && d < |fs.dirs| && n in fs.dirs[d].disk && fs.dirs[d].disk[n] < |fs.files|
    && fs.files[fs.dirs[d].disk[n]].disk == blob
  }

  /** Entries and bytes of a whole version are on disk. */
  ghost predicate VersionOnDisk(fs: FS, v: nat, c: Contents) {
    && fs.disk.hasRoot && v in fs.disk.versions
    && OnDisk(fs, fs.disk.versions[v], Auth, Text(c.auth))
    && OnDisk(fs, fs.disk.versions[v], Operator, Text(c.operator))
    && OnDisk(fs, fs.disk.versions[v], Secrets, Text(c.secrets))
    && exists p :: OnDisk(fs, fs.disk.versions[v], Manifest, ManifestOf(v, p, c))
  }

  lemma {:induction false} RebootedRead(fs: FS, v: nat, n: Name, blob: Blob)
    ensures ReadFile(PowerLoss(fs), v, n) == Some(blob) <==>
      fs.disk.hasRoot && v in fs.disk.versions && OnDisk(fs, fs.disk.versions[v], n, blob)
  {
  }

  lemma {:induction false} RebootedContents(fs: FS, v: nat, c: Contents)
    ensures ReadContents(PowerLoss(fs), v) == Some(c) <==>
      && ReadFile(PowerLoss(fs), v, Auth) == Some(Text(c.auth))
      && ReadFile(PowerLoss(fs), v, Operator) == Some(Text(c.operator))
      && ReadFile(PowerLoss(fs), v, Secrets) == Some(Text(c.secrets))
  {
  }

  lemma {:induction false} RebootedValid(fs: FS, ok: Contents -> bool, v: nat)
    ensures ValidVersion(PowerLoss(fs), ok, v) <==> exists c :: ok(c) && VersionOnDisk(fs, v, c)
  {
    var after := PowerLoss(fs);
    if ValidVersion(after, ok, v) {
      var c := ReadContents(after, v).value;
      var m := ReadFile(after, v, Manifest).value;
      RebootedContents(fs, v, c);
      RebootedRead(fs, v, Auth, Text(c.auth));
      RebootedRead(fs, v, Operator, Text(c.operator));
      RebootedRead(fs, v, Secrets, Text(c.secrets));
      RebootedRead(fs, v, Manifest, m);
      assert VersionOnDisk(fs, v, c);
    }
    if c :| ok(c) && VersionOnDisk(fs, v, c) {
      var p :| OnDisk(fs, fs.disk.versions[v], Manifest, ManifestOf(v, p, c));
      RebootedContents(fs, v, c);
      RebootedRead(fs, v, Auth, Text(c.auth));
      RebootedRead(fs, v, Operator, Text(c.operator));
      RebootedRead(fs, v, Secrets, Text(c.secrets));
      RebootedRead(fs, v, Manifest, ManifestOf(v, p, c));
    }
  }

  /** If the disk writes back the flip and then loses power, it holds a valid state exactly
      if by then it also wrote back the whole version and all links. */
  lemma {:induction false} EarlyFlipIsSafeIff(fs: FS, ok: Contents -> bool, v: nat)
    requires fs.live.current == Some(v) && v >= 1
    ensures
      ValidState(PowerLoss(Flush(fs, CurrentLink)), ok) <==>
        fs.disk.stable == Links && exists c :: ok(c) && VersionOnDisk(fs, v, c)
  {
    var flipped := Flush(fs, CurrentLink);
    RebootedValid(flipped, ok, v);
    assert forall c :: VersionOnDisk(flipped, v, c) <==> VersionOnDisk(fs, v, c);
  }

  /** Nothing reaches the disk but the bytes of files. */
  ghost predicate DiskStays(fs: FS, fs': FS) {
    && fs'.disk == fs.disk && |fs.dirs| <= |fs'.dirs| && KeepsSynced(fs, fs')
    && (forall d :: 0 <= d < |fs.dirs| ==> fs'.dirs[d].disk == fs.dirs[d].disk)
  }

  lemma {:induction false} SkipStepKeepsDisk(s: State, a: Action)
    requires Enabled(s, a) && !a.LosePower? && !a.WriteBack?
    ensures DiskStays(s.fs, SkipStep(s, a).fs)
  {
  }

  lemma {:induction false} RunKeepsDisk(s: State, run: seq<Action>)
    requires SkipLegal(s, run) && Undisturbed(run)
    ensures DiskStays(s.fs, SkipExec(s, run).fs)
    decreases |run|
  {
    if run != [] {
      SkipStepKeepsDisk(s, run[0]);
      RunKeepsDisk(SkipStep(s, run[0]), run[1..]);
    }
  }

  lemma {:induction false} SealedOnDisk(fs: FS, fs': FS, v: nat, c: Contents)
    requires Sealed(fs, v, c) && DiskStays(fs, fs')
    ensures ReadContents(PowerLoss(fs'), v) == Some(c)
  {
  }

  /** Until the disk writes something back, every commit of the run, acknowledged or not,
      is lost with the power: what is shown afterwards is what was shown before the run. */
  lemma {:induction false} AcknowledgedCommitsAreLost(s0: State, run: seq<Action>)
    requires Init(s0) && SkipLegal(s0, run) && Undisturbed(run)
    ensures
      var rebooted := PowerLoss(SkipExec(s0, run).fs);
      rebooted.live.current == s0.fs.live.current && Shown(rebooted) == Shown(s0.fs)
  {
    RunKeepsDisk(s0, run);
    if s0.fs.live.current.Some? {
      var v := s0.fs.live.current.value;
      SealedReadable(s0.fs, v, s0.history[v]);
      SealedOnDisk(s0.fs, SkipExec(s0, run).fs, v, s0.history[v]);
    }
  }

  lemma {:induction false} CommitLost(s0: State, run: seq<Action>)
    requires Init(s0) && Legal(s0, run) && Undisturbed(run)
    ensures SkipLegal(s0, run)
    ensures
      var t := SkipExec(s0, run);
      Shown(t.fs) == Shown(Exec(s0, run).fs) && Shown(PowerLoss(t.fs)) == Shown(s0.fs)
  {
    RunSkips(s0, s0, run);
    AcknowledgedCommitsAreLost(s0, run);
    var s, t := Exec(s0, run), SkipExec(s0, run);
    if t.fs.live.current.Some? {
      SameReads(s.fs, t.fs, t.fs.live.current.value, s.ok);
    }
  }

  /** One whole commit, acknowledged and shown, and gone with the power. */
  method LosesCommit(start: State, c: Contents, hint: nat) returns (outcome: Outcome, ghost run: seq<Action>)
    requires Init(start) && start.ok(c)
    ensures outcome.Committed? && SkipLegal(start, run)
    ensures
      var t := SkipExec(start, run);
      Shown(t.fs) == Some(c) && Shown(PowerLoss(t.fs)) == Shown(start.fs)
  {
    var d := new Directory(start);
    outcome := d.CommitSetup(c, hint, true, Healthy);
    run := d.run;
    CommitLost(start, run);
  }

  /** And if the disk writes back the flip alone, no valid state is left at all. */
  lemma {:induction false} FlipAloneLosesTheState(s0: State, run: seq<Action>)
    requires Init(s0) && SkipLegal(s0, run) && Undisturbed(run)
    requires
      var current := SkipExec(s0, run).fs.live.current;
      current.Some? && current.value >= 1 && current.value !in s0.fs.disk.versions
    ensures !ValidState(PowerLoss(Flush(SkipExec(s0, run).fs, CurrentLink)), s0.ok)
  {
    var fs := SkipExec(s0, run).fs;
    RunKeepsDisk(s0, run);
    EarlyFlipIsSafeIff(fs, s0.ok, fs.live.current.value);
  }
}
