/** One outbound request with its retries and its total time budget. Servers, the clock
    and the jitter are oracles: what the k-th send meets and how long it takes. */
module Retries {
  import opened Basics
  import opened Redirects

  const DEFAULT_DEADLINE: real := 60.0
  const MAX_RETRY_DELAY: real := 60.0
  const MAX_BACKOFF: real := 10.0

  /** A Retry-After header: none, seconds, not finite, a date so far from now, or unreadable. */
  datatype RetryAfter = NoHeader | Seconds(x: real) | NotFinite | Date(offset: real) | Unreadable

  /** What a send meets: a response, a broken transport (while connecting or later), or an
      error that is not one of the transport: a body over the byte cap, too many
      redirects, a redirect that policy refuses. */
  datatype Met<T> =
    | Reply(status: int, retryAfter: RetryAfter, payload: T)
    | Broken(connecting: bool)
    | Rejected

  /** What one send meets, if it is waited for long enough. */
  datatype Send<T> = Send(duration: real, met: Met<T>)

  datatype Job = Job(verb: Method, hasKey: bool, follow: bool, credentialed: bool,
      maxRetries: int, deadline: Option<real>, byteCap: Option<int>)

  datatype Result<T> =
    | BadArguments
    | Done(status: int, payload: T)
    | StatusError(status: int)
    | TransportFailure(connecting: bool)
    | RequestRejected
    | DeadlineExceeded
    | FellThrough

  predicate Retryable(status: int) { status in {429, 500, 502, 503, 504} }

  predicate Success(status: int) { 200 <= status < 300 }

  predicate WellFormed(j: Job) {
    && j.maxRetries >= 1
    && (j.deadline.Some? ==> j.deadline.value > 0.0)
    && (j.byteCap.Some? ==> j.byteCap.value > 0)
    && !(j.follow && j.credentialed)
  }

  function Budget(j: Job): real {
    if j.deadline.Some? then j.deadline.value else DEFAULT_DEADLINE
  }

  /** All attempts for a request that may be replayed, one for any other. */
  function Attempts(j: Job): int {
    if Idempotent(j.verb) || j.hasKey then j.maxRetries else 1
  }

  function Doubled(n: nat): real {
    if n == 0 then 1.0 else 2.0 * Doubled(n - 1)
  }

  function BackoffCap(attempt: nat): real
    requires attempt >= 1
  {
    Min(Doubled(attempt - 1), MAX_BACKOFF)
  }

  /** The k-th wait: what a 429 asks for, or else a random share of the backoff window. */
  function RetryDelay<T>(met: Met<T>, attempt: nat, share: real): real
    requires attempt >= 1
  {
    var jitter := share * BackoffCap(attempt);
    if !(met.Reply? && met.status == 429) then jitter
    else match met.retryAfter
      case NoHeader => jitter
      case Unreadable => jitter
      case NotFinite => jitter
      case Date(offset) => Min(Max(offset, 0.0), MAX_RETRY_DELAY)
      case Seconds(x) => if x < 0.0 then jitter else Min(x, MAX_RETRY_DELAY)
  }

  lemma {:induction false} DoubledPositive(n: nat)
    ensures Doubled(n) >= 1.0
  {
    if n > 0 {
      DoubledPositive(n - 1);
    }
  }

  /** No wait passes a minute, and one that no server asked for passes ten seconds. */
  lemma {:induction false} DelayBounded<T>(met: Met<T>, attempt: nat, share: real)
    requires attempt >= 1 && 0.0 <= share <= 1.0
    ensures 0.0 <= RetryDelay(met, attempt, share) <= MAX_RETRY_DELAY
    ensures !(met.Reply? && met.status == 429) ==> RetryDelay(met, attempt, share) <= MAX_BACKOFF
  {
    DoubledPositive(attempt - 1);
    var cap := BackoffCap(attempt);
    assert 0.0 <= share * cap <= cap;
  }

  /** Another attempt is made only after a retryable status or a broken transport. */
  ghost predicate MayRetry<T>(s: Send<T>) {
    s.met.Broken? || (s.met.Reply? && Retryable(s.met.status))
  }

  /** The sends start within the budget, each exactly when the wait for its predecessor is over. */
  ghost predicate Paced<T>(world: nat -> Send<T>, share: nat -> real, starts: seq<real>, budget: real) {
    && (forall k: nat :: k < |starts| ==> 0.0 <= starts[k] < budget)
    && (forall k: nat :: k + 1 < |starts| ==> Spaced(world(k), k + 1, share(k), starts[k], starts[k + 1]))
  }

  /** The next send starts once this one failed and its wait is over. */
  ghost predicate Spaced<T>(s: Send<T>, attempt: nat, share: real, start: real, next: real) {
    attempt >= 1 && MayRetry(s) && next == start + s.duration + RetryDelay(s.met, attempt, share)
  }

  /** How long a server asks to wait: a number of seconds that is not negative, or a time,
      which may be over already. */
  ghost predicate AsksFor<T>(met: Met<T>, x: real) {
    && met.Reply? && met.status == 429 && x >= 0.0
    && (met.retryAfter == Seconds(x)
        || (met.retryAfter.Date? && x == if met.retryAfter.offset < 0.0 then 0.0 else met.retryAfter.offset))
  }

  /** A server that asks for a wait with a 429 gets it, up to a minute. */
  lemma {:induction false} ServerWaitHonoured<T>(world: nat -> Send<T>, share: nat -> real, starts: seq<real>,
      budget: real, k: nat, x: real)
    requires Paced(world, share, starts, budget) && k + 1 < |starts| && AsksFor(world(k).met, x)
    ensures starts[k + 1] == starts[k] + world(k).duration + if x <= 60.0 then x else 60.0
  {
    assert Spaced(world(k), k + 1, share(k), starts[k], starts[k + 1]);
  }

  lemma {:induction false} DoublesUpToTen(k: nat)
    ensures BackoffCap(k + 1) == if k < 4 then [1.0, 2.0, 4.0, 8.0][k] else 10.0
  {
    if k >= 4 {
      SixteenAndMore(k);
    } else {
      assert Doubled(1) == 2.0 && Doubled(2) == 4.0 && Doubled(3) == 8.0;
    }
  }

  lemma {:induction false} SixteenAndMore(n: nat)
    requires n >= 4
    ensures Doubled(n) >= 16.0
  {
    if n == 4 {
      assert Doubled(2) == 4.0 && Doubled(4) == 16.0;
    } else {
      SixteenAndMore(n - 1);
    }
  }

  /** Where no server asks for one, the wait is the random share of a window that doubles
      from one second up to ten. */
  lemma {:induction false} BackoffDoubles<T>(world: nat -> Send<T>, share: nat -> real, starts: seq<real>,
      budget: real, k: nat)
    requires Paced(world, share, starts, budget) && k + 1 < |starts|
    requires forall x :: !AsksFor(world(k).met, x)
    ensures starts[k + 1] ==
      starts[k] + world(k).duration + share(k) * if k < 4 then [1.0, 2.0, 4.0, 8.0][k] else 10.0
  {
    var met := world(k).met;
    assert Spaced(world(k), k + 1, share(k), starts[k], starts[k + 1]);
    DoublesUpToTen(k);
    DateAsks(met);
    assert met.Reply? && met.status == 429 && met.retryAfter.Seconds? ==> !AsksFor(met, met.retryAfter.x);
  }

  lemma {:induction false} DateAsks<T>(met: Met<T>)
    ensures met.Reply? && met.status == 429 && met.retryAfter.Date? ==>
      AsksFor(met, if met.retryAfter.offset < 0.0 then 0.0 else met.retryAfter.offset)
  {
  }

  /** The send comes to its end before the time left is up. */
  predicate InTime<T>(s: Send<T>, left: real) {
    if s.met.Reply? then s.duration < left else s.duration <= left
  }

  /** How one send can end the request; last tells whether no attempt is left. */
  ghost predicate Ends<T>(s: Send<T>, last: bool, start: real, elapsed: real, budget: real, r: Result<T>) {
    if r.DeadlineExceeded? then elapsed == budget && (last ==> !InTime(s, budget - start))
    else elapsed == start + s.duration && InTime(s, budget - start) && Reports(s, last, r)
  }

  ghost predicate Reports<T>(s: Send<T>, last: bool, r: Result<T>) {
    match s.met
    case Rejected => r == RequestRejected
    case Broken(connecting) => last && r == TransportFailure(connecting)
    case Reply(status, _, payload) =>
      if Retryable(status) then last && r == StatusError(status) else r == Done(status, payload)
  }

  /** Why the whole request ended with this result. */
  ghost predicate EndedBy<T>(world: nat -> Send<T>, j: Job, starts: seq<real>, elapsed: real, r: Result<T>) {
    if !WellFormed(j) then r == BadArguments && starts == []
    else
      && |starts| >= 1
      && Ends(world(|starts| - 1), |starts| == Attempts(j), starts[|starts| - 1], elapsed, Budget(j), r)
  }

  /** One send: the result if it ends the request, and the time it took. */
  method SendOnce<T>(s: Send<T>, last: bool, elapsed0: real, budget: real) returns (r: Option<Result<T>>, elapsed: real)
    requires 0.0 <= elapsed0 < budget && s.duration >= 0.0
    ensures elapsed0 <= elapsed <= budget
    ensures r.None? ==> !last && MayRetry(s) && elapsed == elapsed0 + s.duration
    ensures r.Some? ==> Ends(s, last, elapsed0, elapsed, budget, r.value)
  {
    if s.duration > budget - elapsed0 {
      return Some(DeadlineExceeded), budget;
    }
    elapsed := elapsed0 + s.duration;
    r := None;
    match s.met
    case Rejected =>
      r := Some(RequestRejected);
    case Broken(connecting) =>
      if last {
        r := Some(TransportFailure(connecting));
      }
    case Reply(status, _, payload) =>
      if elapsed >= budget {
        r := Some(DeadlineExceeded);
      } else if !Retryable(status) {
        r := Some(Done(status, payload));
      } else if last && !Success(status) {
        r := Some(StatusError(status));
      }
  }

  lemma {:induction false} OneMoreSend<T>(world: nat -> Send<T>, share: nat -> real, starts: seq<real>,
      budget: real, elapsed: real)
    requires Paced(world, share, starts, budget) && 0.0 <= elapsed < budget && Waited(world, share, starts, elapsed)
    ensures Paced(world, share, starts + [elapsed], budget)
  {
    var starts' := starts + [elapsed];
    forall k: nat | k + 1 < |starts'| ensures Spaced(world(k), k + 1, share(k), starts'[k], starts'[k + 1]) {
      assert k + 1 < |starts| ==> Spaced(world(k), k + 1, share(k), starts[k], starts[k + 1]);
    }
  }

  /** The wait after the last send is over now. */
  ghost predicate Waited<T>(world: nat -> Send<T>, share: nat -> real, starts: seq<real>, elapsed: real) {
    starts != [] ==> Spaced(world(|starts| - 1), |starts|, share(|starts| - 1), starts[|starts| - 1], elapsed)
  }

  /** Sends at most as often as allowed, never starts a send past the budget, never runs
      past it, and always ends in one of the named ways. */
  method MakeRequest<T>(j: Job, world: nat -> Send<T>, share: nat -> real) returns (r: Result<T>, elapsed: real,
      starts: seq<real>)
    requires forall k: nat :: world(k).duration >= 0.0 && 0.0 <= share(k) <= 1.0
    ensures WellFormed(j) ==> 1 <= |starts| <= Attempts(j) && 0.0 <= elapsed <= Budget(j)
    ensures Paced(world, share, starts, Budget(j)) && (starts != [] ==> starts[0] == 0.0)
    ensures EndedBy(world, j, starts, elapsed, r)
  {
    elapsed, starts := 0.0, [];
    if j.maxRetries < 1 || (j.deadline.Some? && j.deadline.value <= 0.0)
       || (j.byteCap.Some? && j.byteCap.value <= 0) || (j.follow && j.credentialed) {
      return BadArguments, elapsed, starts;
    }
    var budget := Budget(j);
    var total := Attempts(j);
    var attempt := 1;
    while attempt <= total
      invariant attempt == |starts| + 1 <= total
      invariant 0.0 <= elapsed <= budget && Paced(world, share, starts, budget)
      invariant elapsed == budget || Waited(world, share, starts, elapsed)
      invariant if starts == [] then elapsed == 0.0 < budget else starts[0] == 0.0
      decreases total - attempt
    {
      if budget - elapsed <= 0.0 {
        return DeadlineExceeded, elapsed, starts;
      }
      OneMoreSend(world, share, starts, budget, elapsed);
      starts := starts + [elapsed];
      var s := world(attempt - 1);
      var result;
      result, elapsed := SendOnce(s, attempt == total, elapsed, budget);
      if result.Some? {
        return result.value, elapsed, starts;
      }
      var delay := RetryDelay(s.met, attempt, share(attempt - 1));
      DelayBounded(s.met, attempt, share(attempt - 1));
      if budget - elapsed <= 0.0 {
        return DeadlineExceeded, elapsed, starts;
      }
      elapsed := elapsed + Min(delay, budget - elapsed);
      attempt := attempt + 1;
    }
    r := FellThrough;
  }

  /** Of a method that may be repeated without harm. */
  ghost predicate Replayable(j: Job) {
    j.verb in {GET, HEAD, PUT, DELETE, OPTIONS, TRACE} || j.hasKey
  }

  /** What the outcome says about the sends: no other request than a replayable one is sent
      twice, a failure is only reported once all attempts are used up, and a status is
      reported as an error exactly if it was worth another attempt. */
  lemma {:induction false} OutcomeTellsTheSends<T>(world: nat -> Send<T>, j: Job, starts: seq<real>, elapsed: real,
      r: Result<T>)
    requires EndedBy(world, j, starts, elapsed, r)
    requires WellFormed(j) ==> |starts| <= Attempts(j) && 0.0 <= elapsed <= Budget(j)
    ensures r == BadArguments <==>
      || j.maxRetries < 1 || (j.follow && j.credentialed)
      || (j.deadline.Some? && j.deadline.value <= 0.0) || (j.byteCap.Some? && j.byteCap.value <= 0)
    ensures r == BadArguments ==> starts == []
    ensures
      var budget := if j.deadline.Some? then j.deadline.value else 60.0;
      r != BadArguments ==> elapsed <= budget && (r.DeadlineExceeded? ==> elapsed == budget)
    ensures r != BadArguments ==> 1 <= |starts| <= if Replayable(j) then j.maxRetries else 1
    ensures r.StatusError? || r.TransportFailure? ==> |starts| == if Replayable(j) then j.maxRetries else 1
    ensures r.StatusError? ==> r.status in {429, 500, 502, 503, 504}
    ensures r.Done? ==> r.status !in {429, 500, 502, 503, 504}
  {
  }

  /** A request is only sent again after its transport broke or one of five statuses. */
  lemma {:induction false} SentAgainForAReason<T>(world: nat -> Send<T>, share: nat -> real, starts: seq<real>,
      budget: real, k: nat)
    requires Paced(world, share, starts, budget) && k + 1 < |starts|
    ensures world(k).met.Broken? || (world(k).met.Reply? && world(k).met.status in {429, 500, 502, 503, 504})
    ensures starts[k + 1] < budget
  {
    assert Spaced(world(k), k + 1, share(k), starts[k], starts[k + 1]);
  }
}
