/** What a lock-free reader answers and when: it always answers within seven steps of its
    own, with nobody else at work it answers exactly whether the state is valid, and from a
    published state it answers true even across a commit. */
module SetupReaders {
  import opened Basics
  import opened StateDirectory
  import opened SetupCommit
  import opened SetupGuarantees

  // ---- every reader answers ----

  predicate Answered(p: ReadPhase) { p.Accepted? || p.Refused? }

  /** The most steps a reader can still take. */
  function ReadsLeft(p: ReadPhase): nat {
    match p
    case Starting => 7
    case Resolving => 6
    case ReadingAuth(_) => 5
    case ReadingOperator(_, _) => 4
    case ReadingSecrets(_, _, _) => 3
    case ReadingManifest(_, _) => 2
    case CheckingLinks(_, _) => 1
    case Accepted(_, _) => 0
    case Refused => 0
  }

  /** How often the reader moves during a run. */
  function Reads(run: seq<Action>): nat {
    if run == [] then 0 else (if run[0].Read? then 1 else 0) + Reads(run[1..])
  }

  /** One reader from where it is now: it is not started again, and the power stays on. */
  ghost predicate OneReader(run: seq<Action>) {
    forall i :: 0 <= i < |run| ==> !run[i].StartReading? && !run[i].LosePower?
  }

  lemma {:induction false} ReaderMoves(s: State, a: Action)
    requires Enabled(s, a) && s.reader.Reader? && !a.StartReading? && !a.LosePower?
    ensures
      var s' := Step(s, a);
      && s'.reader.Reader? && s'.reader.base == s.reader.base && s'.reader.valid == s.reader.valid
      && (if a.Read? then ReadsLeft(s'.reader.phase) < ReadsLeft(s.reader.phase)
          else s'.reader.phase == s.reader.phase)
  {
  }

  lemma {:induction false} ReadsCount(s: State, run: seq<Action>)
    requires s.reader.Reader? && Legal(s, run) && OneReader(run)
    ensures
      var s' := Exec(s, run);
      && s'.reader.Reader? && s'.reader.base == s.reader.base && s'.reader.valid == s.reader.valid
      && Reads(run) + ReadsLeft(s'.reader.phase) <= ReadsLeft(s.reader.phase)
    decreases |run|
  {
    if run != [] {
      ReaderMoves(s, run[0]);
      assert OneReader(run[1..]);
      ReadsCount(Step(s, run[0]), run[1..]);
    }
  }

  /** Whatever commits, crashes and write-backs run beside it, a reader takes at most seven
      steps, and after seven it has answered. */
  lemma {:induction false} ReaderAnswersInSevenSteps(s: State, run: seq<Action>)
    requires s.reader.Reader? && s.reader.phase.Starting? && Legal(s, run) && OneReader(run)
    ensures Reads(run) <= 7 && Exec(s, run).reader.Reader?
    ensures Reads(run) == 7 ==> Answered(Exec(s, run).reader.phase)
  {
    ReadsCount(s, run);
  }

  lemma {:induction false} ReachablePointer(s: State)
    requires Reachable(s)
    ensures ReadPointer(s.fs) == s.fs.live.current
  {
    ReachableSafe(s);
    PointerIsCurrent(s);
  }

  lemma {:induction false} NoPointerRefuses(s: State)
    requires ReadPointer(s.fs).None? && s.reader.Reader? && s.reader.phase.Starting?
    ensures Enabled(s, Read) && Step(s, Read).reader.Reader? && Step(s, Read).reader.phase.Refused?
  {
  }

  /** A reader whose first step finds nothing published answers false, whatever is committed
      after that. */
  lemma {:induction false} ReaderBeforeTheFirstCommitRefuses(s: State)
    requires Reachable(s) && s.fs.live.current.None? && s.reader.Reader? && s.reader.phase.Starting?
    ensures Enabled(s, Read) && Step(s, Read).reader.Reader? && Step(s, Read).reader.phase.Refused?
  {
    ReachablePointer(s);
    NoPointerRefuses(s);
  }

  lemma {:induction false} AnsweredTrue(s: State)
    requires KnownOk(s) && OverlapOk(s) && s.reader.Reader? && Answered(s.reader.phase)
    requires s.reader.valid && s.begun - s.reader.base <= 1
    ensures s.reader.phase.Accepted? && s.reader.phase.v in s.history
    ensures s.history[s.reader.phase.v] == s.reader.phase.read
  {
  }

  lemma {:induction false} RunsStaySafe(s: State, run: seq<Action>)
    requires Reachable(s) && Legal(s, run)
    ensures KnownOk(Exec(s, run)) && OverlapOk(Exec(s, run))
  {
    ReachableSafe(s);
    RunSafe(s, run);
  }

  /** A reader that starts on a committed state and meets at most one commit answers true,
      with the contents some version was committed with. */
  lemma {:induction false} ReaderMeetingOneCommitAnswersTrue(s: State, run: seq<Action>)
    requires Reachable(s) && s.reader.Reader? && s.reader.phase.Starting? && s.reader.valid
    requires Legal(s, run) && OneReader(run) && Reads(run) == 7
    requires Exec(s, run).begun - s.reader.base <= 1
    ensures
      var s' := Exec(s, run);
      && s'.reader.Reader? && s'.reader.phase.Accepted? && s'.reader.phase.v in s'.history
      && s'.history[s'.reader.phase.v] == s'.reader.phase.read
  {
    ReadsCount(s, run);
    RunsStaySafe(s, run);
    AnsweredTrue(Exec(s, run));
  }

  // ---- a reader that nobody disturbs ----

  /** Where a reader is after k steps if nothing else moves. */
  function After(fs: FS, ok: Contents -> bool, k: nat): ReadPhase {
    if k == 0 then Starting else ReadStep(fs, ok, After(fs, ok, k - 1))
  }

  /** The five steps after `current` is resolved. */
  lemma {:induction false} ReadingOn(fs: FS, ok: Contents -> bool, p: ReadPhase)
    requires p.Refused? || p.ReadingAuth?
    ensures
      var q := ReadStep(fs, ok, ReadStep(fs, ok, ReadStep(fs, ok, ReadStep(fs, ok, ReadStep(fs, ok, p)))));
      if p.ReadingAuth? && ValidVersion(fs, ok, p.v) && fs.live.stable == Links
      then ReadContents(fs, p.v).Some? && q == Accepted(p.v, ReadContents(fs, p.v).value)
      else q.Refused?
  {
  }

  /** The answer is that of the validation as one piece, for every state of the directory. */
  lemma {:induction false} QuietReaderValidates(fs: FS, ok: Contents -> bool)
    ensures ValidState(fs, ok) ==>
      Shown(fs).Some? && After(fs, ok, 7) == Accepted(fs.live.current.value, Shown(fs).value)
    ensures !ValidState(fs, ok) ==> After(fs, ok, 7).Refused?
  {
    var resolved := After(fs, ok, 2);
    assert After(fs, ok, 1) == ReadStep(fs, ok, After(fs, ok, 0));
    assert resolved == ReadStep(fs, ok, After(fs, ok, 1));
    ReadingOn(fs, ok, resolved);
    assert After(fs, ok, 3) == ReadStep(fs, ok, resolved);
    assert After(fs, ok, 4) == ReadStep(fs, ok, After(fs, ok, 3));
    assert After(fs, ok, 5) == ReadStep(fs, ok, After(fs, ok, 4));
    assert After(fs, ok, 6) == ReadStep(fs, ok, After(fs, ok, 5));
    assert After(fs, ok, 7) == ReadStep(fs, ok, After(fs, ok, 6));
  }

  /** Nothing but the reader: it starts and moves k times. */
  function ReaderAlone(k: nat): seq<Action> {
    if k == 0 then [StartReading] else ReaderAlone(k - 1) + [Read]
  }

  lemma {:induction false} ExecOneMore(s: State, run: seq<Action>, a: Action)
    requires Legal(s, run) && Enabled(Exec(s, run), a)
    ensures Legal(s, run + [a]) && Exec(s, run + [a]) == Step(Exec(s, run), a)
    decreases |run|
  {
    if run == [] {
      assert ([] + [a])[1..] == [];
    } else {
      ExecOneMore(Step(s, run[0]), run[1..], a);
      assert (run + [a])[1..] == run[1..] + [a];
    }
  }

  lemma {:induction false} AloneRuns(s: State, k: nat)
    requires forall j: nat :: j < k ==> !Answered(After(s.fs, s.ok, j))
    ensures Legal(s, ReaderAlone(k))
    ensures
      var s' := Exec(s, ReaderAlone(k));
      s'.reader.Reader? && s'.reader.phase == After(s.fs, s.ok, k) && s' == s.(reader := s'.reader)
  {
    if k == 0 {
      assert [StartReading][1..] == [];
    } else {
      AloneRuns(s, k - 1);
      ExecOneMore(s, ReaderAlone(k - 1), Read);
    }
  }

  /** No reader answers true before its seventh step, and none goes on after answering. */
  lemma {:induction false} ReadsAfter(fs: FS, ok: Contents -> bool, k: nat)
    requires k < 7
    ensures After(fs, ok, k).Refused? || (!Answered(After(fs, ok, k)) && ReadsLeft(After(fs, ok, k)) == 7 - k)
  {
    if k > 0 {
      ReadsAfter(fs, ok, k - 1);
    }
  }

  lemma {:induction false} RefusalStays(fs: FS, ok: Contents -> bool, j: nat, k: nat)
    requires j <= k && After(fs, ok, j).Refused?
    ensures After(fs, ok, k).Refused?
    decreases k
  {
    if j < k {
      RefusalStays(fs, ok, j, k - 1);
    }
  }

  lemma {:induction false} SevenToAccept(fs: FS, ok: Contents -> bool)
    requires After(fs, ok, 7).Accepted?
    ensures forall j: nat :: j < 7 ==> !Answered(After(fs, ok, j))
  {
    forall j: nat | j < 7 ensures !Answered(After(fs, ok, j)) {
      ReadsAfter(fs, ok, j);
      if After(fs, ok, j).Refused? {
        RefusalStays(fs, ok, j, 7);
      }
    }
  }

  /** On a published state, a reader that nobody disturbs answers true after its seventh
      step, with what that version was committed with. */
  lemma {:induction false} QuietReaderAccepts(s: State)
    requires Reachable(s) && s.fs.live.current.Some?
    ensures Legal(s, ReaderAlone(7)) && s.fs.live.current.value in s.history
    ensures
      var s' := Exec(s, ReaderAlone(7));
      && s' == s.(reader := s'.reader) && s'.reader.Reader?
      && s'.reader.phase == Accepted(s.fs.live.current.value, s.history[s.fs.live.current.value])
  {
    LiveStateIsWhole(s);
    QuietReaderValidates(s.fs, s.ok);
    SevenToAccept(s.fs, s.ok);
    AloneRuns(s, 7);
  }
}
