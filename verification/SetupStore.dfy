/** commit_setup as it runs: one commit under the exclusive lock, against the
    filesystem operations. The ghost state follows along in the interleaved machine, so
    every intermediate state of a commit is a reachable state there. */
module SetupStore {
  import opened Basics
  import opened StateDirectory
  import opened SetupCommit
  import opened SetupGuarantees

  /** Where storage fails during this commit, if at all. */
  datatype Fault = Healthy | AtFile(index: nat) | AtRoot | AtState | AtFlip | AtFlipSync

  datatype Outcome =
    | Committed(version: nat, previous: Option<nat>)
    | InvalidPayload
    | CandidateRejected
    | StorageFailed
    | DurabilityUnconfirmed

  lemma {:induction false} ExecAppend(s: State, run: seq<Action>, a: Action)
    requires Legal(s, run) && Enabled(Exec(s, run), a)
    ensures Legal(s, run + [a]) && Exec(s, run + [a]) == Step(Exec(s, run), a)
    decreases |run|
  {
    if run == [] {
      assert ([] + [a])[1..] == [];
    } else {
      ExecAppend(Step(s, run[0]), run[1..], a);
      assert (run + [a])[1..] == run[1..] + [a];
    }
  }

  /** The power stays on, and the disk writes nothing back on its own. */
  predicate Undisturbed(run: seq<Action>) {
    forall i :: 0 <= i < |run| ==> !run[i].LosePower? && !run[i].WriteBack?
  }

  /** The writer after `done` files are in place. */
  function Filled(job: Job, done: nat): Writer {
    if done < 4 then Staging(job, done, Writing) else Staged(job)
  }

  /** The staging steps are always possible in turn. */
  lemma {:induction false} StagingGoesOn(s: State)
    requires Reachable(s) && s.writer.Staging?
    ensures Shape(s.fs)
    ensures s.writer.done < 4 && s.writer.job.dir < |s.fs.dirs|
    ensures s.writer.job.version in s.fs.live.versions
    ensures s.writer.phase.Renaming? ==> Temp(NameAt(s.writer.done)) in s.fs.dirs[s.writer.job.dir].live
    ensures s.writer.phase.Renaming? ==> s.writer.phase.f < |s.fs.files|
  {
    ReachableWriter(s);
  }

  lemma {:induction false} StagedStands(s: State)
    requires Reachable(s) && s.writer.Staged?
    ensures Shape(s.fs) && s.writer.job.version in s.fs.live.versions
  {
    ReachableWriter(s);
  }

  ghost function Published(s: State, current: Option<nat>): Option<Contents> {
    if current.Some? && current.value in s.history then Some(s.history[current.value]) else None
  }

  /** Consumers see what was published under the current number, and so they would after
      a power loss. */
  lemma {:induction false} ShownIsPublished(s: State)
    requires Reachable(s)
    ensures Shown(s.fs) == Published(s, s.fs.live.current)
    ensures Shown(PowerLoss(s.fs)) == Published(s, s.fs.disk.current)
  {
    DiskStateIsWhole(s);
    if s.fs.live.current.Some? { LiveStateIsWhole(s); }
  }

  lemma {:induction false} BeforeStaging(s: State)
    requires Reachable(s)
    ensures Shape(s.fs) && s.fs.live.stable <= Links && ReadPointer(s.fs) == s.fs.live.current
  {
    ReachableSafe(s);
    PointerIsCurrent(s);
  }

  /** The version just published and the one before it survive pruning. */
  function Kept(versions: set<nat>, current: nat, previous: Option<nat>): set<nat> {
    set v | v in versions && (v == current || Some(v) == previous)
  }

  /** What is left once all but the versions in rest have been looked at. */
  function Remaining(versions: set<nat>, rest: set<nat>, current: nat, previous: Option<nat>): set<nat> {
    set v | v in versions && (v in rest || v == current || Some(v) == previous)
  }

  lemma {:induction false} OneLessRemains(versions: set<nat>, rest: set<nat>, current: nat, previous: Option<nat>,
      v: nat)
    requires v in rest && rest <= versions
    ensures
      Remaining(versions, rest - {v}, current, previous)
        == Remaining(versions, rest, current, previous) - if v == current || Some(v) == previous then {} else {v}
    ensures rest <= Remaining(versions, rest, current, previous)
  {
  }

  class Directory {
    const ok: Contents -> bool
    var fs: FS
    ghost const start: State
    ghost var run: seq<Action>
    ghost var m: State

    /** Every state of this object is reached by a run of the machine. */
    ghost predicate Valid()
      reads this
    {
      && Init(start) && Legal(start, run) && Exec(start, run) == m && m.fs == fs && m.ok == ok
      && Undisturbed(run)
    }

    constructor (start: State)
      requires Init(start)
      ensures Valid() && fs == start.fs && ok == start.ok && m == start && this.start == start
    {
      this.ok := start.ok;
      this.fs := start.fs;
      this.start := start;
      this.run := [];
      this.m := start;
    }

    /** One system call, followed in the machine. */
    method Do(ghost a: Action, after: FS)
      requires Valid() && Enabled(m, a) && Step(m, a).fs == after && Step(m, a).ok == m.ok
      requires !a.LosePower? && !a.WriteBack?
      modifies this
      ensures Valid() && m == Step(old(m), a) && fs == after
    {
      ExecAppend(start, run, a);
      run := run + [a];
      m := Step(m, a);
      fs := after;
    }

    method WriteAndSync(ghost job: Job, d: nat, n: Name, blob: Blob, ghost done: nat) returns (f: nat)
      requires Valid() && m.writer == Staging(job, done, Writing) && done < 4
      requires d == job.dir && n == NameAt(done) && blob == BlobFor(n, job.contents, job.version, job.previous)
      modifies this
      ensures Valid() && m == old(m).(fs := fs, writer := Staging(job, done, Renaming(f)))
      ensures fs.live == old(fs.live)
    {
      assert Reachable(m);
      StagingGoesOn(m);
      f := |fs.files|;
      Do(Write, StateDirectory.WriteTemp(fs, d, n, blob));
      Do(SyncTemp, SyncFile(fs, f));
    }

    method RenameAndSync(ghost job: Job, d: nat, n: Name, f: nat, ghost done: nat)
      requires Valid() && m.writer == Staging(job, done, Renaming(f)) && done < 4
      requires d == job.dir && n == NameAt(done)
      modifies this
      ensures Valid() && m == old(m).(fs := fs, writer := Staging(job, done, SyncingDir(f)))
      ensures fs.live == old(fs.live) && d < |fs.dirs|
    {
      assert Reachable(m);
      StagingGoesOn(m);
      Do(Action.Rename, StateDirectory.Rename(fs, d, n));
      Do(SyncNamed, SyncFile(fs, f));
    }

    method SyncVersion(ghost job: Job, d: nat, f: nat, ghost done: nat)
      requires Valid() && m.writer == Staging(job, done, SyncingDir(f)) && d == job.dir < |fs.dirs|
      modifies this
      ensures Valid() && m == old(m).(fs := fs, writer := Filled(job, done + 1))
      ensures fs.live == old(fs.live)
    {
      Do(SyncVersionDir, SyncDir(fs, d));
    }

    /** _write_private: temporary file, fsync, rename, fsync, directory fsync. */
    method WritePrivate(ghost job: Job, d: nat, n: Name, blob: Blob, ghost done: nat)
      requires Valid() && m.writer == Staging(job, done, Writing) && done < 4
      requires d == job.dir && n == NameAt(done) && blob == BlobFor(n, job.contents, job.version, job.previous)
      modifies this
      ensures Valid() && m == old(m).(fs := fs, writer := Filled(job, done + 1))
      ensures fs.live == old(fs.live)
    {
      var f := WriteAndSync(job, d, n, blob, done);
      RenameAndSync(job, d, n, f, done);
      SyncVersion(job, d, f, done);
    }

    /** _stable_link for every consumer path and the marker that lacks one. */
    method LinkAll()
      requires Valid() && m.writer.Linking? && fs.live.stable <= Links
      modifies this
      ensures Valid() && m == old(m).(fs := fs)
      ensures fs == old(fs).(live := old(fs).live.(stable := Links))
    {
      var names := [Auth, Operator, Secrets, Manifest];
      for i := 0 to 4
        invariant Valid() && m == old(m).(fs := fs)
        invariant fs == old(fs).(live := old(fs).live.(stable := fs.live.stable))
        invariant old(fs.live.stable) <= fs.live.stable <= Links
        invariant forall k :: 0 <= k < i ==> names[k] in fs.live.stable
      {
        if names[i] !in fs.live.stable {
          Do(PutLink(names[i]), MakeLink(fs, names[i]));
        }
      }
      assert names[0] in fs.live.stable && names[1] in fs.live.stable
        && names[2] in fs.live.stable && names[3] in fs.live.stable;
    }

    /** _highest_staged_version. */
    method HighestStaged() returns (highest: nat)
      ensures highest == Highest(fs.live.versions.Keys)
    {
      highest := 0;
      var rest := fs.live.versions.Keys;
      while rest != {}
        invariant rest <= fs.live.versions.Keys
        invariant forall v :: v in fs.live.versions && v !in rest ==> v <= highest
        invariant highest == 0 || highest in fs.live.versions
        decreases rest
      {
        var v :| v in rest;
        if v > highest { highest := v; }
        rest := rest - {v};
      }
    }

    /** shutil.rmtree on one version directory, unless it is to be kept. */
    method RemoveUnlessKept(v: nat, current: nat, previous: Option<nat>)
      requires Valid() && Shape(fs) && m.writer.Pruning? && v in fs.live.versions
      requires m.writer.job.version == current && m.writer.job.previous == previous
      modifies this
      ensures Valid() && m == old(m).(fs := fs) && Shape(fs)
      ensures fs.live == old(fs.live).(versions := fs.live.versions) && fs.disk == old(fs.disk)
      ensures fs.live.versions.Keys ==
        old(fs.live.versions.Keys) - if v == current || Some(v) == previous then {} else {v}
    {
      if v != current && Some(v) != previous { RemoveTree(v); }
    }

    /** shutil.rmtree on one version directory. */
    method RemoveTree(v: nat)
      requires Valid() && Shape(fs) && MayRemove(m.writer, v) && v in fs.live.versions
      modifies this
      ensures Valid() && m == old(m).(fs := fs)
      ensures fs.live == old(fs.live).(versions := old(fs.live.versions) - {v}) && fs.disk == old(fs.disk)
      ensures Shape(fs)
    {
      var d := fs.live.versions[v];
      while fs.dirs[d].live != map[]
        invariant Valid() && m == old(m).(fs := fs)
        invariant fs.live == old(fs.live) && fs.disk == old(fs.disk) && d < |fs.dirs|
        decreases |fs.dirs[d].live|
      {
        var n :| n in fs.dirs[d].live;
        Do(RemoveEntry(v, n), Unlink(fs, v, n));
      }
      Do(RemoveVersion(v), RemoveDir(fs, v));
      assert Reachable(m);
      ReachableWriter(m);
    }

    /** _prune_versions: everything but the new version and the one before it. */
    method Prune(current: nat, previous: Option<nat>)
      requires Valid() && Shape(fs) && m.writer.Pruning?
      requires m.writer.job.version == current && m.writer.job.previous == previous
      modifies this
      ensures Valid() && m == old(m).(fs := fs)
      ensures fs.live == old(fs.live).(versions := fs.live.versions) && fs.disk == old(fs.disk)
      ensures fs.live.versions.Keys == Kept(old(fs.live.versions.Keys), current, previous)
    {
      ghost var all := fs.live.versions.Keys;
      var rest := fs.live.versions.Keys;
      assert all == Remaining(all, rest, current, previous);
      while rest != {}
        invariant Valid() && m == old(m).(fs := fs) && Shape(fs)
        invariant fs.live == old(fs).live.(versions := fs.live.versions) && fs.disk == old(fs).disk
        invariant rest <= all && fs.live.versions.Keys == Remaining(all, rest, current, previous)
        decreases rest
      {
        var v :| v in rest;
        OneLessRemains(all, rest, current, previous, v);
        RemoveUnlessKept(v, current, previous);
        rest := rest - {v};
      }
      assert Remaining(all, {}, current, previous) == Kept(all, current, previous);
    }

    method MakeDirectory(c: Contents, ghost hint: nat, version: nat, previous: Option<nat>) returns (d: nat)
      requires Valid() && m.writer == Linking(c, hint) && fs.live.stable == Links
      requires version == NextVersion(fs, hint) && previous == ReadPointer(fs)
      modifies this
      ensures Valid() && m == old(m).(fs := fs, writer := Staging(Job(c, version, previous, d), 0, Writing))
      ensures fs.live == old(fs.live).(hasRoot := true, versions := old(fs.live.versions)[version := d])
    {
      d := |fs.dirs|;
      Do(Stage, MakeVersion(fs, version));
    }

    /** The four files in order, up to the one where storage fails. */
    method WriteFiles(ghost job: Job, d: nat, c: Contents, version: nat, previous: Option<nat>, fault: Fault)
      returns (ghost done: nat)
      requires Valid() && m.writer == Filled(job, 0) && job == Job(c, version, previous, d)
      modifies this
      ensures Valid() && m == old(m).(fs := fs, writer := Filled(job, done))
      ensures done == if fault.AtFile? && fault.index < 4 then fault.index else 4
      ensures fs.live == old(fs.live)
    {
      var i := 0;
      while i < 4 && fault != AtFile(i)
        invariant 0 <= i <= 4 && Valid()
        invariant m == old(m).(fs := fs, writer := Filled(job, i)) && fs.live == old(fs.live)
        invariant fault.AtFile? ==> i <= fault.index
      {
        WritePrivate(job, d, NameAt(i), BlobFor(NameAt(i), c, version, previous), i);
        i := i + 1;
      }
      done := i;
    }

    /** _stage_version: a fresh directory, then the four files in order. On a storage
        error the directory is removed again. */
    method StageVersion(c: Contents, ghost hint: nat, version: nat, previous: Option<nat>, fault: Fault)
      returns (ghost job: Job, staged: bool)
      requires Valid() && m.writer == Linking(c, hint) && fs.live.stable == Links
      requires version == NextVersion(fs, hint) && previous == ReadPointer(fs)
      requires version !in fs.live.versions
      modifies this
      ensures Valid()
      ensures staged <==> !(fault.AtFile? && fault.index < 4)
      ensures m == old(m).(fs := fs, writer := if staged then Staged(job) else Idle)
      ensures staged ==> job.contents == c && job.version == version && job.previous == previous
      ensures fs.live == old(fs.live).(hasRoot := true, versions := fs.live.versions)
      ensures fs.live.versions.Keys == old(fs.live.versions.Keys) + if staged then {version} else {}
    {
      var d := MakeDirectory(c, hint, version, previous);
      job := Job(c, version, previous, d);
      ghost var done := WriteFiles(job, d, c, version, previous, fault);
      staged := !(fault.AtFile? && fault.index < 4);
      if !staged { Discard(version, StorageError); }
    }

    /** Give up a staged version: remove its directory. */
    method Discard(version: nat, ghost why: Action)
      requires Valid() && Enabled(m, why)
      requires (m.writer.Staging? && why.StorageError?) || (m.writer.Staged? && why.Reject?)
      requires m.writer.job.version == version
      modifies this
      ensures Valid() && m == old(m).(fs := fs, writer := Idle)
      ensures fs.live == old(fs.live).(versions := old(fs.live.versions) - {version})
    {
      assert Reachable(m);
      if m.writer.Staging? { StagingGoesOn(m); } else { StagedStands(m); }
      Do(why, fs);
      RemoveTree(version);
      Do(Finish, fs);
    }

    /** Up to the staged, validated candidate; nothing consumers see changes. */
    method Prepare(c: Contents, hint: nat, fault: Fault) returns (ghost job: Job, version: nat,
        previous: Option<nat>, staged: bool)
      requires Valid() && m.writer.Idle? && ok(c)
      modifies this
      ensures Valid() && m == old(m).(fs := fs, writer := m.writer, begun := m.begun)
      ensures m.writer == if staged then Staged(job) else Idle
      ensures staged <==> !(fault.AtFile? && fault.index < 4)
      ensures job == Job(c, version, previous, job.dir) || !staged
      ensures previous == old(fs.live.current) && version > m.last
      ensures fs.live.current == old(fs.live.current)
    {
      Do(Begin(c, hint), fs);
      assert Reachable(m);
      BeforeStaging(m);
      LinkAll();
      assert Reachable(m);
      BeforeStaging(m);
      NextVersionIsFresh(m, hint);
      previous := ReadPointer(fs);
      var highest := HighestStaged();
      version := MaxNat(Or(previous, 0), MaxNat(hint, highest)) + 1;
      job, staged := StageVersion(c, hint, version, previous, fault);
      if staged { job := m.writer.job; }
    }

    /** The candidate validates, and the storage of its directory entry may fail. */
    method SyncRootOf(ghost job: Job, fault: Fault) returns (synced: bool)
      requires Valid() && m.writer == Staged(job)
      modifies this
      ensures Valid() && fs.live == old(fs.live)
      ensures synced <==> !fault.AtRoot?
      ensures m == old(m).(fs := fs, writer := if synced then SyncingState(job) else Idle)
    {
      assert Reachable(m);
      StagedVersionValidates(m);
      Do(Accept, fs);
      if fault.AtRoot? { Do(StorageError, fs); return false; }
      Do(PersistRoot, SyncRoot(fs));
      return true;
    }

    /** The fsyncs of everything the flip is about to publish. */
    method SyncStaged(ghost job: Job, fault: Fault) returns (synced: bool)
      requires Valid() && m.writer == Staged(job)
      modifies this
      ensures Valid() && fs.live == old(fs.live)
      ensures synced <==> !fault.AtRoot? && !fault.AtState?
      ensures m == old(m).(fs := fs, writer := if synced then Flipping(job) else Idle)
    {
      synced := SyncRootOf(job, fault);
      if !synced { return false; }
      if fault.AtState? { Do(StorageError, fs); return false; }
      Do(PersistState, SyncState(fs));
    }

    /** The fsyncs and the flip. */
    method Publish(ghost job: Job, version: nat, fault: Fault) returns (flipped: bool)
      requires Valid() && m.writer == Staged(job) && job.version == version
      modifies this
      ensures Valid()
      ensures flipped <==> !fault.AtRoot? && !fault.AtState? && !fault.AtFlip?
      ensures !flipped ==> m == old(m).(fs := fs, writer := Idle) && fs.live == old(fs.live)
      ensures flipped ==>
        && m == old(m).(fs := fs, writer := SyncingFlip(job), history := old(m).history[version := job.contents],
                        last := version, candidates := m.candidates)
        && fs.live == old(fs.live).(current := Some(version))
    {
      var synced := SyncStaged(job, fault);
      if !synced { return false; }
      if fault.AtFlip? { Do(StorageError, fs); return false; }
      Do(Flip, PointCurrent(fs, version));
      return true;
    }

    /** The sync of the flip, and pruning. */
    method Settle(ghost job: Job, version: nat, previous: Option<nat>, fault: Fault) returns (durable: bool)
      requires Valid() && m.writer == SyncingFlip(job) && job.version == version && job.previous == previous
      requires fs.live.current == Some(version)
      modifies this
      ensures Valid() && m == old(m).(fs := fs, writer := Idle, candidates := m.candidates)
      ensures durable <==> !fault.AtFlipSync?
      ensures fs.live.current == Some(version)
      ensures durable ==> fs.disk.current == Some(version)
      ensures durable ==> forall v :: v in fs.live.versions ==> v == version || Some(v) == previous
    {
      if fault.AtFlipSync? { Do(StorageError, fs); return false; }
      Do(PersistFlip, SyncState(fs));
      assert Reachable(m);
      BeforeStaging(m);
      Prune(version, previous);
      Do(Finish, fs);
      return true;
    }

    method Attempt(c: Contents, hint: nat, accepted: bool, fault: Fault) returns (outcome: Outcome)
      requires Valid() && m.writer.Idle? && ok(c)
      modifies this
      ensures Valid() && m.writer.Idle?
      ensures outcome != InvalidPayload
      ensures outcome == CandidateRejected <==> Stages(fault) && !accepted
      ensures outcome.Committed? <==> accepted && NoFault(fault)
      ensures outcome.DurabilityUnconfirmed? <==> accepted && fault.AtFlipSync?
      ensures outcome.Committed? || outcome.DurabilityUnconfirmed? ==>
        && fs.live.current == Some(m.last) && m.last > old(m).last && m.history == old(m).history[m.last := c]
      ensures outcome.Committed? ==>
        && outcome == Committed(m.last, old(fs.live.current))
        && fs.disk.current == Some(m.last)
        && (forall v :: v in fs.live.versions ==> v == outcome.version || Some(v) == outcome.previous)
      ensures !outcome.Committed? && !outcome.DurabilityUnconfirmed? ==>
        fs.live.current == old(fs.live.current) && m.history == old(m).history
    {
      ghost var job;
      var version, previous, staged;
      job, version, previous, staged := Prepare(c, hint, fault);
      if !staged { return StorageFailed; }
      if !accepted {
        Discard(version, Reject);
        return CandidateRejected;
      }
      var flipped := Publish(job, version, fault);
      if !flipped { return StorageFailed; }
      var durable := Settle(job, version, previous, fault);
      return if durable then Committed(version, previous) else DurabilityUnconfirmed;
    }

    /** One whole commit. The outcome says what consumers see afterwards: the payload
        once the flip has happened, what they saw before in every other case. */
    method CommitSetup(c: Contents, hint: nat, accepted: bool, fault: Fault) returns (outcome: Outcome)
      requires Valid() && m.writer.Idle?
      modifies this
      ensures Valid() && m.writer.Idle?
      ensures outcome == InvalidPayload <==> !ok(c)
      ensures outcome == CandidateRejected <==> ok(c) && Stages(fault) && !accepted
      ensures outcome.Committed? <==> ok(c) && accepted && NoFault(fault)
      ensures outcome.DurabilityUnconfirmed? <==> ok(c) && accepted && fault.AtFlipSync?
      ensures outcome.Committed? ==>
        && outcome.version == m.last > old(m).last
        && outcome.previous == old(fs.live.current)
        && Shown(fs) == Some(c) && Shown(PowerLoss(fs)) == Some(c)
        && (forall v :: v in fs.live.versions ==> v == outcome.version || Some(v) == outcome.previous)
      ensures outcome.DurabilityUnconfirmed? ==> Shown(fs) == Some(c)
      ensures !outcome.Committed? && !outcome.DurabilityUnconfirmed? ==> Shown(fs) == old(Shown(fs))
    {
      if !ok(c) { return InvalidPayload; }
      assert Reachable(m);
      ShownIsPublished(m);
      outcome := Attempt(c, hint, accepted, fault);
      assert Reachable(m);
      ShownIsPublished(m);
    }
  }

  /** Staging is over before storage fails, if it fails. */
  predicate Stages(fault: Fault) { !(fault.AtFile? && fault.index < 4) }

  predicate NoFault(fault: Fault) { fault.Healthy? || (fault.AtFile? && fault.index >= 4) }
}
