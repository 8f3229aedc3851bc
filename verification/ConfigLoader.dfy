/** Configuration loads and setup commits, interleaved step by step on one state
    directory. Each process has a loader mutex; all processes share one file lock. */
module ConfigLoader {
  import opened Basics

  /** The operator and secrets text of one committed version. */
  datatype Texts = Texts(operator: string, secrets: string)

  /** What a load has found out so far. Digests are taken to be injective, so that the
      text itself stands for its digest. */
  datatype Seen = Seen(operatorLink: Option<nat>, secretsLink: Option<nat>,
      operatorDigest: Option<string>, secretsDigest: Option<string>,
      operator: Option<string>, secrets: Option<string>)

  datatype Phase =
    | Idle
    | WantMutex
    | WantShared
    | Loading(seen: Seen)
    | Leaving
    | WantExclusive
    | Writing(validated: bool)

  datatype Thread = Thread(process: nat, phase: Phase)

  datatype Snapshot = Snapshot(texts: Texts, digests: Texts)

  /** naive: the setup writer validates its candidate under the loader mutex. */
  datatype State = State(threads: map<nat, Thread>, mutexes: map<nat, nat>, history: seq<Texts>,
      snapshots: map<nat, Snapshot>, naive: bool)

  datatype Action =
    | StartLoad(t: nat)
    | TakeMutex(t: nat)
    | TakeShared(t: nat)
    | ResolveOperator(t: nat)
    | ResolveSecrets(t: nat)
    | DigestOperator(t: nat)
    | DigestSecrets(t: nat)
    | ReadOperator(t: nat)
    | ReadSecrets(t: nat)
    | Publish(t: nat)
    | Unlock(t: nat)
    | ReleaseMutex(t: nat)
    | StartCommit(t: nat)
    | TakeExclusive(t: nat)
    | Validate(t: nat)
    | Flip(t: nat, texts: Texts)
    | Close(t: nat)

  const NOTHING: Seen := Seen(None, None, None, None, None, None)

  predicate HoldsMutex(p: Phase) { p.WantShared? || p.Loading? || p.Leaving? }

  predicate Complete(n: Seen) {
    n.operator.Some? && n.secrets.Some? && n.operatorDigest.Some? && n.secretsDigest.Some?
  }

  predicate MutexFree(s: State, t: nat)
    requires t in s.threads
  {
    s.threads[t].process !in s.mutexes
  }

  predicate NoWriter(s: State) { forall u :: u in s.threads ==> !s.threads[u].phase.Writing? }

  predicate NoHolder(s: State) {
    forall u :: u in s.threads ==> !s.threads[u].phase.Writing? && !s.threads[u].phase.Loading?
  }

  predicate Enabled(s: State, a: Action) {
    && a.t in s.threads && s.history != []
    && var phase := s.threads[a.t].phase;
    match a
    case StartLoad(t) => phase.Idle?
    case TakeMutex(t) => phase.WantMutex? && MutexFree(s, t)
    case TakeShared(t) => phase.WantShared? && NoWriter(s)
    case ResolveOperator(_) => phase.Loading? && phase.seen.operatorLink.None?
    case ResolveSecrets(_) => phase.Loading? && phase.seen.secretsLink.None?
    case DigestOperator(_) => phase.Loading? && phase.seen.operatorDigest.None?
    case DigestSecrets(_) => phase.Loading? && phase.seen.secretsDigest.None?
    case ReadOperator(_) => phase.Loading? && phase.seen.operatorLink.Some? && phase.seen.secretsLink.Some?
    case ReadSecrets(_) => phase.Loading? && phase.seen.operatorLink.Some? && phase.seen.secretsLink.Some?
    case Publish(_) => phase.Loading? && Complete(phase.seen) && s.threads[a.t].process !in s.snapshots
    case Unlock(_) => phase.Loading?
    case ReleaseMutex(_) => phase.Leaving?
    case StartCommit(_) => phase.Idle?
    case TakeExclusive(_) => phase.WantExclusive? && NoHolder(s)
    case Validate(t) => phase.Writing? && !phase.validated && (s.naive ==> MutexFree(s, t))
    case Flip(_, _) => phase.Writing? && phase.validated
    case Close(_) => phase.Writing? && phase.validated
  }

  function Go(s: State, t: nat, p: Phase): State
    requires t in s.threads
  {
    s.(threads := s.threads[t := s.threads[t].(phase := p)])
  }

  function Current(s: State): Texts
    requires s.history != []
  {
    s.history[|s.history| - 1]
  }

  /** The text behind a link: that of the version both links resolved to, or, if they
      differ, of whatever is current now. */
  function Resolved(s: State, n: Seen): Texts
    requires s.history != []
  {
    if n.operatorLink == n.secretsLink && n.operatorLink.Some? && n.operatorLink.value < |s.history|
    then s.history[n.operatorLink.value] else Current(s)
  }

  function Step(s: State, a: Action): State
    requires Enabled(s, a)
  {
    var t := a.t;
    var thread := s.threads[t];
    var now := |s.history| - 1;
    match a
    case StartLoad(_) => Go(s, t, WantMutex)
    case TakeMutex(_) => Go(s.(mutexes := s.mutexes[thread.process := t]), t, WantShared)
    case TakeShared(_) => Go(s, t, Loading(NOTHING))
    case ResolveOperator(_) => Go(s, t, Loading(thread.phase.seen.(operatorLink := Some(now))))
    case ResolveSecrets(_) => Go(s, t, Loading(thread.phase.seen.(secretsLink := Some(now))))
    case DigestOperator(_) => Go(s, t, Loading(thread.phase.seen.(operatorDigest := Some(Current(s).operator))))
    case DigestSecrets(_) => Go(s, t, Loading(thread.phase.seen.(secretsDigest := Some(Current(s).secrets))))
    case ReadOperator(_) =>
      Go(s, t, Loading(thread.phase.seen.(operator := Some(Resolved(s, thread.phase.seen).operator))))
    case ReadSecrets(_) =>
      Go(s, t, Loading(thread.phase.seen.(secrets := Some(Resolved(s, thread.phase.seen).secrets))))
    case Publish(_) =>
      var n := thread.phase.seen;
      s.(snapshots := s.snapshots[thread.process :=
        Snapshot(Texts(n.operator.value, n.secrets.value), Texts(n.operatorDigest.value, n.secretsDigest.value))])
    case Unlock(_) => Go(s, t, Leaving)
    case ReleaseMutex(_) => Go(s.(mutexes := s.mutexes - {thread.process}), t, Idle)
    case StartCommit(_) => Go(s, t, WantExclusive)
    case TakeExclusive(_) => Go(s, t, Writing(false))
    case Validate(_) => Go(s, t, Writing(true))
    case Flip(_, texts) => s.(history := s.history + [texts])
    case Close(_) => Go(s, t, Idle)
  }

  ghost predicate Legal(s: State, run: seq<Action>)
    decreases |run|
  {
    run == [] || (Enabled(s, run[0]) && Legal(Step(s, run[0]), run[1..]))
  }

  function Exec(s: State, run: seq<Action>): State
    requires Legal(s, run)
    decreases |run|
  {
    if run == [] then s else Exec(Step(s, run[0]), run[1..])
  }

  /** No load or commit is under way and no process has loaded anything. */
  predicate Init(s: State) {
    && s.history != [] && s.mutexes == map[] && s.snapshots == map[]
    && forall t :: t in s.threads ==> s.threads[t].phase.Idle?
  }

  // ---- what every step keeps ----

  /** While one thread writes, no other thread reads or writes. */
  ghost predicate Exclusive(s: State) {
    forall t, u :: t in s.threads && u in s.threads && t != u && s.threads[t].phase.Writing? ==>
      !s.threads[u].phase.Writing? && !s.threads[u].phase.Loading?
  }

  /** A process's mutex is taken by exactly the thread that is in its critical section. */
  ghost predicate MutexesOk(s: State) {
    && (forall t :: t in s.threads && HoldsMutex(s.threads[t].phase) ==>
          s.threads[t].process in s.mutexes && s.mutexes[s.threads[t].process] == t)
    && (forall p :: p in s.mutexes ==>
          && s.mutexes[p] in s.threads && s.threads[s.mutexes[p]].process == p
          && HoldsMutex(s.threads[s.mutexes[p]].phase))
  }

  /** All a load has found out is true of the version committed right now. */
  ghost predicate SeenOk(n: Seen, now: nat, current: Texts) {
    && (n.operatorLink.Some? ==> n.operatorLink.value == now)
    && (n.secretsLink.Some? ==> n.secretsLink.value == now)
    && (n.operatorDigest.Some? ==> n.operatorDigest.value == current.operator)
    && (n.secretsDigest.Some? ==> n.secretsDigest.value == current.secrets)
    && (n.operator.Some? ==> n.operator.value == current.operator)
    && (n.secrets.Some? ==> n.secrets.value == current.secrets)
  }

  ghost predicate LoadsOk(s: State)
    requires s.history != []
  {
    forall t :: t in s.threads && s.threads[t].phase.Loading? ==>
      SeenOk(s.threads[t].phase.seen, |s.history| - 1, Current(s))
  }

  /** The snapshot's texts and digests are those of one committed version. */
  ghost predicate OneVersion(n: Snapshot, history: seq<Texts>) {
    n.texts == n.digests && n.texts in history
  }

  ghost predicate SnapshotsOk(s: State) {
    forall p :: p in s.snapshots ==> OneVersion(s.snapshots[p], s.history)
  }

  ghost predicate Inv(s: State) {
    s.history != [] && Exclusive(s) && MutexesOk(s) && LoadsOk(s) && SnapshotsOk(s)
  }

  lemma {:induction false} ExclusionKept(s: State, s': State)
    requires Exclusive(s) && s'.threads.Keys == s.threads.Keys
    requires forall t :: t in s.threads ==>
      && (s'.threads[t].phase.Writing? ==> s.threads[t].phase.Writing?)
      && (s'.threads[t].phase.Loading? ==> s.threads[t].phase.Loading?)
    ensures Exclusive(s')
  {
  }

  lemma {:induction false} LockTaken(s: State, a: Action)
    requires Exclusive(s) && Enabled(s, a) && (a.TakeShared? || a.TakeExclusive?)
    ensures Exclusive(Step(s, a))
  {
  }

  lemma {:induction false} StepKeepsExclusion(s: State, a: Action)
    requires Exclusive(s) && Enabled(s, a)
    ensures Exclusive(Step(s, a))
  {
    if a.TakeShared? || a.TakeExclusive? {
      LockTaken(s, a);
    } else {
      ExclusionKept(s, Step(s, a));
    }
  }

  lemma {:induction false} MutexesKept(s: State, s': State)
    requires MutexesOk(s) && s'.mutexes == s.mutexes && s'.threads.Keys == s.threads.Keys
    requires forall t :: t in s.threads ==>
      && s'.threads[t].process == s.threads[t].process
      && HoldsMutex(s'.threads[t].phase) == HoldsMutex(s.threads[t].phase)
    ensures MutexesOk(s')
  {
  }

  lemma {:induction false} MutexMoves(s: State, a: Action)
    requires MutexesOk(s) && Enabled(s, a) && (a.TakeMutex? || a.ReleaseMutex?)
    ensures MutexesOk(Step(s, a))
  {
  }

  lemma {:induction false} StepKeepsMutexes(s: State, a: Action)
    requires MutexesOk(s) && Enabled(s, a)
    ensures MutexesOk(Step(s, a))
  {
    if a.TakeMutex? || a.ReleaseMutex? {
      MutexMoves(s, a);
    } else {
      MutexesKept(s, Step(s, a));
    }
  }

  lemma {:induction false} StepKeepsLoads(s: State, a: Action)
    requires Inv(s) && Enabled(s, a)
    ensures Step(s, a).history != [] && LoadsOk(Step(s, a))
  {
    var s' := Step(s, a);
    if a.Flip? {
      assert forall t :: t in s'.threads ==> !s'.threads[t].phase.Loading?;
    } else {
      assert Current(s') == Current(s);
    }
  }

  lemma {:induction false} SnapshotsKept(s: State, s': State)
    requires SnapshotsOk(s) && s'.snapshots == s.snapshots && s.history <= s'.history
    ensures SnapshotsOk(s')
  {
  }

  lemma {:induction false} PublishedSnapshot(s: State, a: Action)
    requires Inv(s) && Enabled(s, a) && a.Publish?
    ensures SnapshotsOk(Step(s, a))
  {
    assert SeenOk(s.threads[a.t].phase.seen, |s.history| - 1, Current(s));
    assert Current(s) in s.history;
  }

  lemma {:induction false} StepKeepsSnapshots(s: State, a: Action)
    requires Inv(s) && Enabled(s, a)
    ensures SnapshotsOk(Step(s, a))
  {
    if a.Publish? {
      PublishedSnapshot(s, a);
    } else {
      SnapshotsKept(s, Step(s, a));
    }
  }

  lemma {:induction false} StepInv(s: State, a: Action)
    requires Inv(s) && Enabled(s, a)
    ensures Inv(Step(s, a))
  {
    StepKeepsExclusion(s, a);
    StepKeepsMutexes(s, a);
    StepKeepsLoads(s, a);
    StepKeepsSnapshots(s, a);
  }

  lemma {:induction false} RunInv(s: State, run: seq<Action>)
    requires Inv(s) && Legal(s, run)
    ensures Inv(Exec(s, run)) && Exec(s, run).naive == s.naive
    decreases |run|
  {
    if run != [] {
      StepInv(s, run[0]);
      RunInv(Step(s, run[0]), run[1..]);
    }
  }

  // ---- main results ----

  /** In every interleaving of loads and commits, each process's snapshot holds the
      operator and secrets text of one committed version, and the digests recorded with
      it are of that same text. */
  lemma {:induction false} SnapshotIsOneVersion(s0: State, run: seq<Action>, p: nat)
    requires Init(s0) && Legal(s0, run) && p in Exec(s0, run).snapshots
    ensures OneVersion(Exec(s0, run).snapshots[p], Exec(s0, run).history)
  {
    RunInv(s0, run);
  }

  /** The drift check: under the lock, digests that match the snapshot's mean that its
      texts are the ones committed now. */
  lemma {:induction false} MatchingDigestsMeanCurrent(s0: State, run: seq<Action>, t: nat)
    requires Init(s0) && Legal(s0, run)
    requires
      var s := Exec(s0, run);
      && t in s.threads && s.threads[t].phase.Loading? && s.threads[t].process in s.snapshots
      && s.threads[t].phase.seen.operatorDigest == Some(s.snapshots[s.threads[t].process].digests.operator)
      && s.threads[t].phase.seen.secretsDigest == Some(s.snapshots[s.threads[t].process].digests.secrets)
    ensures
      var s := Exec(s0, run);
      s.history != [] && s.snapshots[s.threads[t].process].texts == Current(s)
  {
    RunInv(s0, run);
  }

  predicate Busy(s: State, t: nat) {
    t in s.threads && !s.threads[t].phase.Idle?
  }

  /** No reachable state is a deadlock: while any load or commit is under way, one of
      them can take its next step. */
  lemma {:induction false} NoDeadlock(s0: State, run: seq<Action>, t: nat) returns (a: Action)
    requires Init(s0) && Legal(s0, run) && !s0.naive && Busy(Exec(s0, run), t)
    ensures Busy(Exec(s0, run), a.t) && Enabled(Exec(s0, run), a)
  {
    RunInv(s0, run);
    a := SomeoneCanGo(Exec(s0, run), t);
  }

  lemma {:induction false} SomeoneCanGo(s: State, t: nat) returns (a: Action)
    requires Inv(s) && !s.naive && Busy(s, t)
    ensures Busy(s, a.t) && Enabled(s, a)
  {
    if u :| u in s.threads && s.threads[u].phase.Writing? {
      a := if s.threads[u].phase.validated then Close(u) else Validate(u);
    } else if u :| u in s.threads && s.threads[u].phase.Loading? {
      a := Unlock(u);
    } else {
      a := OutsideTheLock(s, t);
    }
  }

  lemma {:induction false} OutsideTheLock(s: State, t: nat) returns (a: Action)
    requires Inv(s) && Busy(s, t) && NoHolder(s)
    ensures Busy(s, a.t) && Enabled(s, a)
  {
    match s.threads[t].phase
    case WantMutex =>
      if MutexFree(s, t) {
        a := TakeMutex(t);
      } else {
        var u := s.mutexes[s.threads[t].process];
        assert HoldsMutex(s.threads[u].phase);
        a := if s.threads[u].phase.Leaving? then ReleaseMutex(u) else TakeShared(u);
      }
    case WantShared => a := TakeShared(t);
    case Leaving => a := ReleaseMutex(t);
    case WantExclusive => a := TakeExclusive(t);
  }

  // ---- loads and commits do get through ----

  lemma {:induction false} Prepend(s: State, a: Action, run: seq<Action>)
    requires Enabled(s, a) && Legal(Step(s, a), run)
    ensures Legal(s, [a] + run) && Exec(s, [a] + run) == Exec(Step(s, a), run)
  {
    assert ([a] + run)[1..] == run;
  }

  /** A load that nobody disturbs: it locks, looks at both files and publishes. */
  function LoadAlone(t: nat): seq<Action> {
    [StartLoad(t)] + ([TakeMutex(t)] + ([TakeShared(t)] + LookAlone(t)))
  }

  function LookAlone(t: nat): seq<Action> {
    [ResolveOperator(t)] + ([ResolveSecrets(t)] + ([DigestOperator(t)] + ReadAlone(t)))
  }

  function ReadAlone(t: nat): seq<Action> {
    [DigestSecrets(t)] + ([ReadOperator(t)] + ([ReadSecrets(t)] + LeaveAlone(t)))
  }

  function LeaveAlone(t: nat): seq<Action> { [Publish(t)] + ([Unlock(t)] + ([ReleaseMutex(t)] + [])) }

  lemma {:induction false} LeavesAlone(s: State, t: nat, n: Seen)
    requires s.history != [] && t in s.threads && s.threads[t].phase == Loading(n) && Complete(n)
    requires s.threads[t].process !in s.snapshots
    ensures Legal(s, LeaveAlone(t))
    ensures
      var p := s.threads[t].process;
      Exec(s, LeaveAlone(t)) == Go(s, t, Idle).(
        mutexes := s.mutexes - {p},
        snapshots := s.snapshots[p :=
          Snapshot(Texts(n.operator.value, n.secrets.value), Texts(n.operatorDigest.value, n.secretsDigest.value))])
  {
    var s1 := Step(s, Publish(t));
    var s2 := Step(s1, Unlock(t));
    var s3 := Step(s2, ReleaseMutex(t));
    assert s3.threads == Go(s, t, Idle).threads;
    Prepend(s2, ReleaseMutex(t), []);
    Prepend(s1, Unlock(t), [ReleaseMutex(t)] + []);
    Prepend(s, Publish(t), [Unlock(t)] + ([ReleaseMutex(t)] + []));
  }

  /** One look of a load at what is committed. */
  lemma {:induction false} OneLook(s: State, t: nat, n: Seen, a: Action, n': Seen, run: seq<Action>)
    requires t in s.threads && Enabled(Go(s, t, Loading(n)), a)
    requires Step(Go(s, t, Loading(n)), a) == Go(Go(s, t, Loading(n)), t, Loading(n'))
    requires Legal(Go(s, t, Loading(n')), run)
    ensures Legal(Go(s, t, Loading(n)), [a] + run)
    ensures Exec(Go(s, t, Loading(n)), [a] + run) == Exec(Go(s, t, Loading(n')), run)
  {
    GoTwice(s, t, Loading(n), Loading(n'));
    Prepend(Go(s, t, Loading(n)), a, run);
  }

  lemma {:induction false} GoTwice(s: State, t: nat, p: Phase, q: Phase)
    requires t in s.threads
    ensures Go(Go(s, t, p), t, q) == Go(s, t, q)
  {
    assert Go(Go(s, t, p), t, q).threads == Go(s, t, q).threads;
  }

  /** A load's process has published the committed texts, and everything else is as before. */
  ghost predicate Published(s: State, t: nat, s': State)
    requires s.history != [] && t in s.threads
  {
    var p := s.threads[t].process;
    s' == Go(s, t, Idle).(mutexes := s.mutexes - {p}, snapshots := s.snapshots[p := Snapshot(Current(s), Current(s))])
  }

  lemma {:induction false} ReadsAlone(s: State, t: nat, now: nat)
    requires s.history != [] && t in s.threads && s.threads[t].process !in s.snapshots && now == |s.history| - 1
    ensures
      var s3 := Go(s, t, Loading(Seen(Some(now), Some(now), Some(Current(s).operator), None, None, None)));
      Legal(s3, ReadAlone(t)) && Published(s, t, Exec(s3, ReadAlone(t)))
  {
    var link, o, c := Some(now), Some(Current(s).operator), Some(Current(s).secrets);
    var n3, n4, n5 := Seen(link, link, o, None, None, None), Seen(link, link, o, c, None, None),
      Seen(link, link, o, c, o, None);
    var n6 := Seen(link, link, o, c, o, c);
    LeavesAlone(Go(s, t, Loading(n6)), t, n6);
    GoTwice(s, t, Loading(n6), Idle);
    OneLook(s, t, n5, ReadSecrets(t), n6, LeaveAlone(t));
    OneLook(s, t, n4, ReadOperator(t), n5, [ReadSecrets(t)] + LeaveAlone(t));
    OneLook(s, t, n3, DigestSecrets(t), n4, [ReadOperator(t)] + ([ReadSecrets(t)] + LeaveAlone(t)));
  }

  lemma {:induction false} LooksAlone(s: State, t: nat)
    requires s.history != [] && t in s.threads && s.threads[t].process !in s.snapshots
    ensures Legal(Go(s, t, Loading(NOTHING)), LookAlone(t))
    ensures Published(s, t, Exec(Go(s, t, Loading(NOTHING)), LookAlone(t)))
  {
    var now := |s.history| - 1;
    var n1, n2 := Seen(Some(now), None, None, None, None, None), Seen(Some(now), Some(now), None, None, None, None);
    var n3 := Seen(Some(now), Some(now), Some(Current(s).operator), None, None, None);
    ReadsAlone(s, t, now);
    OneLook(s, t, n2, DigestOperator(t), n3, ReadAlone(t));
    OneLook(s, t, n1, ResolveSecrets(t), n2, [DigestOperator(t)] + ReadAlone(t));
    OneLook(s, t, NOTHING, ResolveOperator(t), n1, [ResolveSecrets(t)] + ([DigestOperator(t)] + ReadAlone(t)));
  }

  lemma {:induction false} EntersAlone(s: State, t: nat, run: seq<Action>)
    requires s.history != [] && s.mutexes == map[] && t in s.threads
    requires forall u :: u in s.threads ==> s.threads[u].phase.Idle?
    requires Legal(Go(s.(mutexes := map[s.threads[t].process := t]), t, Loading(NOTHING)), run)
    ensures Legal(s, [StartLoad(t)] + ([TakeMutex(t)] + ([TakeShared(t)] + run)))
    ensures Exec(s, [StartLoad(t)] + ([TakeMutex(t)] + ([TakeShared(t)] + run))) ==
      Exec(Go(s.(mutexes := map[s.threads[t].process := t]), t, Loading(NOTHING)), run)
  {
    var locked := s.(mutexes := map[s.threads[t].process := t]);
    var s1, s2 := Go(s, t, WantMutex), Go(locked, t, WantShared);
    GoTwice(locked, t, WantMutex, WantShared);
    GoTwice(locked, t, WantShared, Loading(NOTHING));
    assert Step(s1, TakeMutex(t)) == s2;
    Prepend(s2, TakeShared(t), run);
    Prepend(s1, TakeMutex(t), [TakeShared(t)] + run);
    Prepend(s, StartLoad(t), [TakeMutex(t)] + ([TakeShared(t)] + run));
  }

  /** Where nothing else is under way, a process's first load publishes the texts committed
      last with their digests, and gives back both locks. */
  lemma {:induction false} QuietLoadPublishes(s: State, t: nat)
    requires s.history != [] && s.mutexes == map[] && t in s.threads
    requires forall u :: u in s.threads ==> s.threads[u].phase.Idle?
    requires s.threads[t].process !in s.snapshots
    ensures Legal(s, LoadAlone(t))
    ensures Exec(s, LoadAlone(t)) ==
      s.(snapshots := s.snapshots[s.threads[t].process := Snapshot(Current(s), Current(s))])
  {
    var p := s.threads[t].process;
    var locked := s.(mutexes := map[p := t]);
    LooksAlone(locked, t);
    EntersAlone(s, t, LookAlone(t));
    assert Go(locked, t, Idle).threads == s.threads && locked.mutexes - {p} == map[];
  }

  function CommitAlone(t: nat, texts: Texts): seq<Action> {
    [StartCommit(t)] + ([TakeExclusive(t)] + WriteAlone(t, texts))
  }

  function WriteAlone(t: nat, texts: Texts): seq<Action> {
    [Validate(t)] + ([Flip(t, texts)] + ([Close(t)] + []))
  }

  lemma {:induction false} WritesAlone(s: State, t: nat, texts: Texts)
    requires s.history != [] && s.mutexes == map[] && t in s.threads
    ensures Legal(Go(s, t, Writing(false)), WriteAlone(t, texts))
    ensures Exec(Go(s, t, Writing(false)), WriteAlone(t, texts)) == Go(s.(history := s.history + [texts]), t, Idle)
  {
    var s2, s3 := Go(s, t, Writing(false)), Go(s, t, Writing(true));
    var next := s.(history := s.history + [texts]);
    var s4 := Go(next, t, Writing(true));
    GoTwice(s, t, Writing(false), Writing(true));
    GoTwice(next, t, Writing(true), Idle);
    Prepend(s4, Close(t), []);
    Prepend(s3, Flip(t, texts), [Close(t)] + []);
    Prepend(s2, Validate(t), [Flip(t, texts)] + ([Close(t)] + []));
  }

  /** And a commit publishes its texts as the next version. */
  lemma {:induction false} QuietCommitPublishes(s: State, t: nat, texts: Texts)
    requires s.history != [] && s.mutexes == map[] && t in s.threads
    requires forall u :: u in s.threads ==> s.threads[u].phase.Idle?
    ensures Legal(s, CommitAlone(t, texts))
    ensures Exec(s, CommitAlone(t, texts)) == s.(history := s.history + [texts])
  {
    var s1 := Go(s, t, WantExclusive);
    GoTwice(s, t, WantExclusive, Writing(false));
    WritesAlone(s, t, texts);
    assert Go(s.(history := s.history + [texts]), t, Idle).threads == s.threads;
    Prepend(s1, TakeExclusive(t), WriteAlone(t, texts));
    Prepend(s, StartCommit(t), [TakeExclusive(t)] + WriteAlone(t, texts));
  }

  /** A writer that waits for the mutex of a load that waits for the writer. */
  const STUCK: State :=
    State(map[0 := Thread(7, WantShared), 1 := Thread(7, Writing(false))], map[7 := 0], [Texts("", "")], map[], true)

  lemma {:induction false} StuckForGood()
    ensures Busy(STUCK, 0) && Busy(STUCK, 1)
    ensures forall a: Action :: Busy(STUCK, a.t) ==> !Enabled(STUCK, a)
  {
    assert STUCK.threads[1].phase.Writing?;
  }

  /** If the writer validated under the loader mutex instead, one load and one commit in
      the same process could lock each other out for good. */
  lemma {:induction false} NaiveWriterCanDeadlock() returns (s0: State, run: seq<Action>)
    ensures Init(s0) && s0.naive && Legal(s0, run) && Exec(s0, run) == STUCK
    ensures Busy(STUCK, 0) && forall a: Action :: Busy(STUCK, a.t) ==> !Enabled(STUCK, a)
  {
    s0 := State(map[0 := Thread(7, Idle), 1 := Thread(7, Idle)], map[], [Texts("", "")], map[], true);
    run := [StartCommit(1), TakeExclusive(1), StartLoad(0), TakeMutex(0)];
    var s1 := Step(s0, StartCommit(1));
    var s2 := Step(s1, TakeExclusive(1));
    var s3 := Step(s2, StartLoad(0));
    assert Step(s3, TakeMutex(0)) == STUCK;
    assert run[1..] == [TakeExclusive(1), StartLoad(0), TakeMutex(0)];
    assert run[1..][1..] == [StartLoad(0), TakeMutex(0)];
    assert Legal(s3, [TakeMutex(0)]) && Exec(s3, [TakeMutex(0)]) == STUCK;
    assert Legal(s2, [StartLoad(0), TakeMutex(0)]) && Exec(s2, [StartLoad(0), TakeMutex(0)]) == STUCK;
    StuckForGood();
  }
}
