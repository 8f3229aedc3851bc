/** The sliding-window limit on login attempts, with a bounded table of clients. A call
    reads the clock before it waits for the table's lock, so calls of one client can enter
    out of the order of their readings; the limit that holds depends on how far. */
module LoginLimiter {
  import opened Basics

  const WINDOW: real := 60.0
  const MAX_ATTEMPTS: nat := 10
  const MAX_CLIENTS: nat := 4096

  datatype Result = Limited(retryAfter: int) | Busy | Verified(correct: bool)

  /** A client of the login endpoint, by the first characters of its host name. */
  datatype Client = Client(name: string)

  function Key(host: string): Client {
    var name := if host == "" then "unknown" else host;
    Client(if |name| > 255 then name[..255] else name)
  }

  /** The part of a host's name that tells clients apart; a host without a name counts as
      "unknown". */
  ghost function Told(host: string): string {
    var name := if host == "" then "unknown" else host;
    if |name| <= 255 then name else name[..255]
  }

  /** Two hosts share a window exactly if the first 255 characters of their names agree. */
  lemma {:induction false} ClientsAreToldApart(host: string, other: string)
    ensures Key(host) == Key(other) <==> Told(host) == Told(other)
  {
  }

  /** The attempts that are still in the window: those after the cutoff. */
  function Recent(a: seq<real>, cutoff: real): seq<real> {
    if a != [] && a[0] <= cutoff then Recent(a[1..], cutoff) else a
  }

  function Ceil(x: real): int {
    if x == x.Floor as real then x.Floor else x.Floor + 1
  }

  /** The whole seconds a rejected client is told to wait. */
  function RetryAfter(a: seq<real>, now: real): int
    requires a != []
  {
    var seconds := Ceil(WINDOW - (now - a[0]));
    if seconds < 1 then 1 else seconds
  }

  predicate Passes(a: seq<real>, now: real) { |Recent(a, now - WINDOW)| < MAX_ATTEMPTS }

  /** Any eleven attempts in a row take at least a window, less the lag. */
  ghost predicate Spread(r: seq<real>, lag: real) {
    forall i, j :: 0 <= i && i + MAX_ATTEMPTS <= j < |r| ==> r[i] + WINDOW - lag <= r[j]
  }

  /** a is what is left of all attempts r recorded so far, in the order they were recorded:
      only attempts that had left the window of some reading up to the latest were dropped. */
  ghost predicate Tracks(a: seq<real>, r: seq<real>, latest: real, lag: real) {
    && |a| <= MAX_ATTEMPTS && |a| <= |r| && r[|r| - |a|..] == a
    && lag >= 0.0 && Spread(r, lag)
    && (forall i :: 0 <= i < |r| - |a| ==> r[i] <= latest - WINDOW)
  }

  lemma {:induction false} RecentIsSuffix(a: seq<real>, cutoff: real)
    ensures |Recent(a, cutoff)| <= |a| && a[|a| - |Recent(a, cutoff)|..] == Recent(a, cutoff)
    ensures forall i :: 0 <= i < |a| - |Recent(a, cutoff)| ==> a[i] <= cutoff
    ensures Recent(a, cutoff) != [] ==> Recent(a, cutoff)[0] > cutoff
  {
    if a != [] && a[0] <= cutoff {
      RecentIsSuffix(a[1..], cutoff);
    }
  }

  lemma {:induction false} TracksLater(a: seq<real>, r: seq<real>, latest: real, lag: real, latest': real, lag': real)
    requires Tracks(a, r, latest, lag) && latest <= latest' && lag <= lag'
    ensures Tracks(a, r, latest', lag')
  {
    forall i, j | 0 <= i && i + MAX_ATTEMPTS <= j < |r| ensures r[i] + WINDOW - lag' <= r[j] {
      assert r[i] + WINDOW - lag <= r[j];
    }
  }

  lemma {:induction false} RecentTracks(a: seq<real>, r: seq<real>, latest: real, lag: real, now: real)
    requires Tracks(a, r, latest, lag) && now <= latest
    ensures Tracks(Recent(a, now - WINDOW), r, latest, lag)
  {
    var w := Recent(a, now - WINDOW);
    RecentIsSuffix(a, now - WINDOW);
    forall i | 0 <= i < |r| - |w| ensures r[i] <= latest - WINDOW {
      assert i >= |r| - |a| ==> r[|r| - |a|..][i - (|r| - |a|)] == r[i];
    }
    assert r[|r| - |w|..] == r[|r| - |a|..][|a| - |w|..];
  }

  lemma {:induction false} RecordTracks(w: seq<real>, r: seq<real>, latest: real, lag: real, now: real)
    requires Tracks(w, r, latest, lag) && |w| < MAX_ATTEMPTS && latest - lag <= now
    ensures Tracks(w + [now], r + [now], latest, lag)
  {
    var r' := r + [now];
    assert r'[|r'| - |w| - 1..] == r[|r| - |w|..] + [now];
    forall i, j | 0 <= i && i + MAX_ATTEMPTS <= j < |r'| ensures r'[i] + WINDOW - lag <= r'[j] {
      if j < |r| {
        assert r[i] + WINDOW - lag <= r[j];
      } else {
        assert r[i] <= latest - WINDOW;
      }
    }
  }

  /** How many of the attempts lie in the window of this length that ends at t. */
  function InWindow(r: seq<real>, t: real, length: real): nat {
    if r == [] then 0 else
      InWindow(r[..|r| - 1], t, length) + if t - length < r[|r| - 1] <= t then 1 else 0
  }

  lemma {:induction false} InWindowBounds(r: seq<real>, m: nat, t: real, length: real)
    requires m <= |r| && forall i :: 0 <= i < m ==> r[i] <= t - length
    ensures InWindow(r, t, length) <= |r| - m
  {
    if m < |r| {
      InWindowBounds(r[..|r| - 1], m, t, length);
    } else if r != [] {
      InWindowBounds(r[..|r| - 1], m - 1, t, length);
    }
  }

  /** No window shorter by the lag, wherever it lies, holds more than ten recorded attempts. */
  lemma {:induction false} AtMostTenInAnyWindow(r: seq<real>, t: real, lag: real)
    requires Spread(r, lag)
    ensures InWindow(r, t, WINDOW - lag) <= MAX_ATTEMPTS
  {
    if |r| > MAX_ATTEMPTS {
      var n := |r| - 1;
      if r[n] <= t {
        var m := |r| - MAX_ATTEMPTS;
        assert forall i :: 0 <= i < m ==> r[i] + WINDOW - lag <= r[n];
        InWindowBounds(r, m, t, WINDOW - lag);
      } else {
        AtMostTenInAnyWindow(r[..n], t, lag);
      }
    } else {
      InWindowBounds(r, 0, t, WINDOW - lag);
    }
  }

  lemma {:induction false} CeilIsLeast(x: real, n: int)
    ensures n as real >= x <==> n >= Ceil(x)
  {
    assert x.Floor as real <= x < (x.Floor + 1) as real;
  }

  /** The advice is exact: after n whole seconds, with nothing recorded in between, the
      client passes if and only if n is at least what it was told. */
  lemma {:induction false} RetryAfterIsExact(a: seq<real>, now: real, n: int)
    requires |a| == MAX_ATTEMPTS && now - WINDOW < a[0] && n >= 1
    ensures Passes(a, now + n as real) <==> n >= RetryAfter(a, now)
  {
    var later := now + n as real;
    CeilIsLeast(WINDOW - (now - a[0]), n);
    if a[0] <= later - WINDOW {
      RecentIsSuffix(a[1..], later - WINDOW);
      assert Recent(a, later - WINDOW) == Recent(a[1..], later - WINDOW);
    } else {
      assert Recent(a, later - WINDOW) == a;
    }
  }

  // ---- the order in which clients were last seen ----

  /** The clients in the table, each with the call that last touched it, oldest first. */
  ghost predicate Queued(order: seq<Client>, seen: map<Client, nat>, calls: nat) {
    && (forall k :: k in seen <==> k in order)
    && (forall k :: k in seen ==> seen[k] < calls)
    && OldestFirst(order, seen)
  }

  function Without(order: seq<Client>, key: Client): seq<Client> {
    if order == [] then []
    else if order[0] == key then Without(order[1..], key)
    else [order[0]] + Without(order[1..], key)
  }

  lemma {:induction false} WithoutKeepsOthers(order: seq<Client>, key: Client)
    ensures |Without(order, key)| <= |order| && (key in order ==> |Without(order, key)| < |order|)
    ensures forall k :: k in Without(order, key) <==> k in order && k != key
  {
    if order != [] {
      WithoutKeepsOthers(order[1..], key);
      assert order == [order[0]] + order[1..];
    }
  }

  ghost predicate OldestFirst(order: seq<Client>, seen: map<Client, nat>)
    requires forall k :: k in order ==> k in seen
  {
    forall i, j :: 0 <= i < j < |order| ==> seen[order[i]] < seen[order[j]]
  }

  lemma {:induction false} WithoutKeepsOrder(order: seq<Client>, seen: map<Client, nat>, key: Client)
    requires (forall k :: k in order ==> k in seen) && OldestFirst(order, seen)
    ensures forall k :: k in Without(order, key) ==> k in order && k != key
    ensures OldestFirst(Without(order, key), seen)
  {
    WithoutKeepsOthers(order, key);
    if order != [] {
      var rest := Without(order[1..], key);
      WithoutKeepsOrder(order[1..], seen, key);
      WithoutKeepsOthers(order[1..], key);
      forall k | k in rest ensures seen[order[0]] < seen[k] {
        assert k in order[1..];
      }
    }
  }

  /** The queue lists just the clients that were seen. */
  lemma {:induction false} SeenNowIsListed(order: seq<Client>, seen: map<Client, nat>, calls: nat, key: Client,
      k: Client)
    requires Queued(order, seen, calls)
    ensures k in seen[key := calls] <==> k in Without(order, key) + [key]
  {
    WithoutKeepsOthers(order, key);
  }

  lemma {:induction false} OthersSeenBefore(order: seq<Client>, seen: map<Client, nat>, calls: nat, key: Client,
      k: Client)
    requires Queued(order, seen, calls) && k in Without(order, key)
    ensures k in seen && k != key && seen[key := calls][k] == seen[k] < calls
  {
    WithoutKeepsOthers(order, key);
  }

  lemma {:induction false} SeenNowIsYoungest(rest: seq<Client>, seen: map<Client, nat>, seen': map<Client, nat>,
      key: Client)
    requires (forall k :: k in rest ==> k in seen) && OldestFirst(rest, seen) && key in seen'
    requires forall k :: k in rest ==> k in seen' && seen'[k] == seen[k] < seen'[key]
    ensures OldestFirst(rest + [key], seen')
  {
    var out := rest + [key];
    forall i, j | 0 <= i < j < |out| ensures seen'[out[i]] < seen'[out[j]] {
      assert rest[i] in rest;
      if j < |rest| {
        assert rest[j] in rest && seen[rest[i]] < seen[rest[j]];
      }
    }
  }

  /** Whoever is seen now, new or not, goes to the end of the queue. */
  lemma {:induction false} SeenNowIsLast(order: seq<Client>, seen: map<Client, nat>, calls: nat, key: Client)
    requires Queued(order, seen, calls)
    ensures Queued(Without(order, key) + [key], seen[key := calls], calls + 1)
  {
    var rest, seen' := Without(order, key), seen[key := calls];
    forall k ensures k in seen' <==> k in rest + [key] {
      SeenNowIsListed(order, seen, calls, key, k);
    }
    forall k | k in rest ensures k in seen && k != key && seen'[k] == seen[k] < calls {
      OthersSeenBefore(order, seen, calls, key, k);
    }
    WithoutKeepsOrder(order, seen, key);
    SeenNowIsYoungest(rest, seen, seen', key);
  }

  /** The front of the queue was seen least recently of all. */
  lemma {:induction false} FrontLeaves(order: seq<Client>, seen: map<Client, nat>, calls: nat)
    requires Queued(order, seen, calls) && order != []
    ensures order[0] in seen && forall k :: k in seen ==> seen[order[0]] <= seen[k]
    ensures Queued(order[1..], seen - {order[0]}, calls)
  {
    forall k | k in seen ensures seen[order[0]] <= seen[k] {
      var j :| 0 <= j < |order| && order[j] == k;
    }
    forall k ensures k in order[1..] <==> k in order && k != order[0] {
      if k in order && k != order[0] {
        var j :| 0 <= j < |order| && order[j] == k;
        assert order[1..][j - 1] == k;
      }
    }
  }

  /** Takes the attempts that left the window off the front. */
  method DropOld(a: seq<real>, cutoff: real) returns (kept: seq<real>)
    ensures kept == Recent(a, cutoff)
  {
    kept := a;
    while kept != [] && kept[0] <= cutoff
      invariant Recent(kept, cutoff) == Recent(a, cutoff)
    {
      kept := kept[1..];
    }
  }

  // ---- the table of clients ----

  /** The clients, least recently seen first, and their attempts in the window. */
  datatype Table = Table(order: seq<Client>, attempts: map<Client, seq<real>>)

  /** For each client since it entered the table: everything recorded, the latest reading
      of its calls, and the call that last touched it. Then how many calls there were, and
      the furthest that any call entered behind the latest reading of its client. */
  datatype Log = Log(recorded: map<Client, seq<real>>, latest: map<Client, real>, seen: map<Client, nat>, calls: nat,
      lag: real)

  const EMPTY: Table := Table([], map[])

  const NO_CALLS: Log := Log(map[], map[], map[], 0, 0.0)

  /** The table lists the clients in the order they were last seen. */
  ghost predicate Listed(t: Table, g: Log) {
    && |t.order| <= MAX_CLIENTS && Queued(t.order, g.seen, g.calls)
    && t.attempts.Keys == g.seen.Keys && g.recorded.Keys == g.seen.Keys && g.latest.Keys == g.seen.Keys
  }

  ghost predicate TracksAll(t: Table, g: Log) {
    forall k :: k in t.attempts ==>
      k in g.recorded && k in g.latest && Tracks(t.attempts[k], g.recorded[k], g.latest[k], g.lag)
  }

  ghost predicate Sound(t: Table, g: Log) {
    g.lag >= 0.0 && Listed(t, g) && TracksAll(t, g)
  }

  function At(table: map<Client, seq<real>>, key: Client): seq<real> {
    if key in table then table[key] else []
  }

  /** A new client comes to a full table: the front of the order leaves. */
  predicate Full(t: Table, key: Client) { key !in t.attempts && |t.order| >= MAX_CLIENTS }

  function Room(t: Table, key: Client): Table {
    if Full(t, key) then Table(t.order[1..], t.attempts - {t.order[0]}) else t
  }

  function RoomLog(t: Table, g: Log, key: Client): Log {
    if Full(t, key) then
      var gone := {t.order[0]};
      g.(recorded := g.recorded - gone, latest := g.latest - gone, seen := g.seen - gone)
    else g
  }

  /** The client goes to the end of the order with these attempts. */
  function Entered(t: Table, key: Client, a: seq<real>): Table {
    Table(Without(t.order, key) + [key], t.attempts[key := a])
  }

  function EnteredLog(g: Log, key: Client, r: seq<real>, latest: real, lag: real): Log {
    Log(g.recorded[key := r], g.latest[key := latest], g.seen[key := g.calls], g.calls + 1, lag)
  }

  /** The latest reading of a client's calls, including this one. */
  function Latest(g: Log, key: Client, now: real): real {
    if key in g.latest then Max(g.latest[key], now) else now
  }

  /** How far a call enters behind the latest reading of its client. */
  function Behind(g: Log, key: Client, now: real): (d: real)
    ensures d >= 0.0
  {
    Latest(g, key, now) - now
  }

  /** What this attempt adds to the client's record: itself, unless ten are in the window. */
  function Added(a: seq<real>, now: real): seq<real> {
    if Passes(a, now) then [now] else []
  }

  /** One attempt: the table after it, and the wait if it is rejected. */
  function Attempted(t: Table, key: Client, now: real): (Table, Option<int>) {
    var a := At(t.attempts, key);
    var recent := Recent(a, now - WINDOW);
    (Entered(Room(t, key), key, recent + Added(a, now)), if Passes(a, now) then None else Some(RetryAfter(recent, now)))
  }

  function AttemptedLog(t: Table, g: Log, key: Client, now: real): Log {
    EnteredLog(RoomLog(t, g, key), key, At(g.recorded, key) + Added(At(t.attempts, key), now),
      Latest(g, key, now), Max(g.lag, Behind(g, key, now)))
  }

  lemma {:induction false} RoomSound(t: Table, g: Log, key: Client)
    requires Sound(t, g)
    ensures Sound(Room(t, key), RoomLog(t, g, key))
    ensures key in Room(t, key).order || |Room(t, key).order| < MAX_CLIENTS
  {
    if Full(t, key) {
      FrontLeaves(t.order, g.seen, g.calls);
    }
  }

  lemma {:induction false} EnteredTracks(t: Table, g: Log, key: Client, a: seq<real>, r: seq<real>, latest: real,
      lag: real)
    requires TracksAll(t, g) && g.lag <= lag && Tracks(a, r, latest, lag)
    ensures TracksAll(Entered(t, key, a), EnteredLog(g, key, r, latest, lag))
  {
    forall k | k in t.attempts && k != key ensures Tracks(t.attempts[k], g.recorded[k], g.latest[k], lag) {
      TracksLater(t.attempts[k], g.recorded[k], g.latest[k], g.lag, g.latest[k], lag);
    }
  }

  lemma {:induction false} EnteredListed(t: Table, g: Log, key: Client, a: seq<real>, r: seq<real>, latest: real,
      lag: real)
    requires Listed(t, g) && (key in t.order || |t.order| < MAX_CLIENTS)
    ensures Listed(Entered(t, key, a), EnteredLog(g, key, r, latest, lag))
  {
    SeenNowIsLast(t.order, g.seen, g.calls, key);
    WithoutKeepsOthers(t.order, key);
  }

  lemma {:induction false} AttemptTracks(a: seq<real>, r: seq<real>, latest: real, lag: real, now: real)
    requires Tracks(a, r, latest, lag) && latest - lag <= now <= latest
    ensures Tracks(Recent(a, now - WINDOW) + Added(a, now), r + Added(a, now), latest, lag)
  {
    RecentTracks(a, r, latest, lag, now);
    if Passes(a, now) {
      RecordTracks(Recent(a, now - WINDOW), r, latest, lag, now);
    } else {
      assert Recent(a, now - WINDOW) + [] == Recent(a, now - WINDOW) && r + [] == r;
    }
  }

  lemma {:induction false} EntryTracks(t: Table, g: Log, key: Client, now: real)
    requires Sound(t, g)
    ensures Tracks(At(t.attempts, key), At(g.recorded, key), Latest(g, key, now), Max(g.lag, Behind(g, key, now)))
  {
    if key in t.attempts {
      TracksLater(t.attempts[key], g.recorded[key], g.latest[key], g.lag,
        Latest(g, key, now), Max(g.lag, Behind(g, key, now)));
    }
  }

  lemma {:induction false} RecordedSpread(t: Table, g: Log, key: Client)
    requires Sound(t, g)
    ensures Spread(At(g.recorded, key), g.lag)
  {
    if key in t.attempts {
      assert Tracks(t.attempts[key], g.recorded[key], g.latest[key], g.lag);
    }
  }

  /** Every attempt, whatever it read from the clock, keeps the table bounded, ordered, and
      true to what was recorded. */
  lemma {:induction false} AttemptedSound(t: Table, g: Log, key: Client, now: real)
    requires Sound(t, g)
    ensures Sound(Attempted(t, key, now).0, AttemptedLog(t, g, key, now))
  {
    var a, r := At(t.attempts, key), At(g.recorded, key);
    var latest, lag := Latest(g, key, now), Max(g.lag, Behind(g, key, now));
    RoomSound(t, g, key);
    EntryTracks(t, g, key, now);
    AttemptTracks(a, r, latest, lag, now);
    var a', r' := Recent(a, now - WINDOW) + Added(a, now), r + Added(a, now);
    EnteredListed(Room(t, key), RoomLog(t, g, key), key, a', r', latest, lag);
    EnteredTracks(Room(t, key), RoomLog(t, g, key), key, a', r', latest, lag);
  }

  /** Only a new client's arrival at a full table evicts anybody, and then the one client
      that was seen least recently; all others keep what is recorded of them. */
  lemma {:induction false} EvictsLeastRecent(t: Table, g: Log, key: Client, now: real, k: Client)
    requires Sound(t, g) && k in t.attempts && k != key
    ensures
      var t' := Attempted(t, key, now).0;
      if k in t'.attempts then
        t'.attempts[k] == t.attempts[k] && AttemptedLog(t, g, key, now).recorded[k] == g.recorded[k]
      else
        && key !in t.attempts && |t.order| == MAX_CLIENTS
        && (forall j :: j in g.seen ==> g.seen[k] <= g.seen[j])
        && t'.attempts.Keys == t.attempts.Keys - {k} + {key}
  {
    if Full(t, key) {
      FrontLeaves(t.order, g.seen, g.calls);
    }
  }

  /** An admitted attempt is recorded with what it read, a rejected one is not; and whoever is
      rejected is told to wait at least a second. */
  lemma {:induction false} AttemptIsRecorded(t: Table, g: Log, key: Client, now: real)
    ensures
      var told := Attempted(t, key, now).1;
      && At(AttemptedLog(t, g, key, now).recorded, key) == At(g.recorded, key) + (if told.Some? then [] else [now])
      && (told.Some? ==> told.value >= 1)
  {
  }

  // ---- the advice ----

  lemma {:induction false} WaitingIsExact(a: seq<real>, now: real, n: int)
    requires |a| <= MAX_ATTEMPTS && n >= 1 && !Passes(a, now)
    ensures Passes(Recent(a, now - WINDOW), now + n as real) <==> n >= RetryAfter(Recent(a, now - WINDOW), now)
  {
    RecentIsSuffix(a, now - WINDOW);
    RetryAfterIsExact(Recent(a, now - WINDOW), now, n);
  }

  lemma {:induction false} RejectionAddsNothing(t: Table, key: Client, now: real)
    requires !Passes(At(t.attempts, key), now)
    ensures At(Attempted(t, key, now).0.attempts, key) == Recent(At(t.attempts, key), now - WINDOW)
  {
  }

  /** A rejected client that comes back with nothing recorded in between passes exactly
      if it waited the seconds it was told. */
  lemma {:induction false} WaitingPays(t: Table, g: Log, key: Client, now: real, n: int)
    requires Sound(t, g) && n >= 1
    requires Attempted(t, key, now).1.Some?
    ensures Passes(At(Attempted(t, key, now).0.attempts, key), now + n as real) <==> n >= Attempted(t, key, now).1.value
  {
    EntryTracks(t, g, key, now);
    WaitingIsExact(At(t.attempts, key), now, n);
    RejectionAddsNothing(t, key, now);
  }

  // ---- any number of threads ----

  /** A call between its reading of the clock and its turn at the lock. */
  datatype Call = Call(key: Client, now: real)

  datatype State = State(clock: real, waiting: map<nat, Call>, table: Table, log: Log)

  datatype Action =
    | Tick(to: real)
    | Read(w: nat, key: Client)
    | Enter(w: nat)

  predicate Enabled(s: State, a: Action) {
    match a
    case Tick(to) => s.clock <= to
    case Read(w, _) => w !in s.waiting
    case Enter(w) => w in s.waiting
  }

  function Step(s: State, a: Action): State
    requires Enabled(s, a)
  {
    match a
    case Tick(to) => s.(clock := to)
    case Read(w, key) => s.(waiting := s.waiting[w := Call(key, s.clock)])
    case Enter(w) =>
      var c := s.waiting[w];
      State(s.clock, s.waiting - {w}, Attempted(s.table, c.key, c.now).0, AttemptedLog(s.table, s.log, c.key, c.now))
  }

  ghost predicate Legal(s: State, run: seq<Action>)
    decreases |run|
  {
    run == [] || (Enabled(s, run[0]) && Legal(Step(s, run[0]), run[1..]))
  }

  ghost function Exec(s: State, run: seq<Action>): State
    requires Legal(s, run)
    decreases |run|
  {
    if run == [] then s else Exec(Step(s, run[0]), run[1..])
  }

  function Start(clock: real): State { State(clock, map[], EMPTY, NO_CALLS) }

  lemma {:induction false} RunSound(s: State, run: seq<Action>)
    requires Sound(s.table, s.log) && Legal(s, run)
    ensures Sound(Exec(s, run).table, Exec(s, run).log)
    decreases |run|
  {
    if run != [] {
      if run[0].Enter? {
        var c := s.waiting[run[0].w];
        AttemptedSound(s.table, s.log, c.key, c.now);
      }
      RunSound(Step(s, run[0]), run[1..]);
    }
  }

  /** In every interleaving of any number of threads, the table stays bounded, and no window
      of sixty seconds less the largest lag holds more than ten of the attempts recorded for
      a client while it stays in the table. */
  lemma {:induction false} LimitHoldsOverRuns(start: real, run: seq<Action>, key: Client, end: real)
    requires Legal(Start(start), run)
    ensures
      var s := Exec(Start(start), run);
      && |s.table.order| <= 4096
      && InWindow(At(s.log.recorded, key), end, 60.0 - s.log.lag) <= 10
  {
    RunSound(Start(start), run);
    var s := Exec(Start(start), run);
    RecordedSpread(s.table, s.log, key);
    AtMostTenInAnyWindow(At(s.log.recorded, key), end, s.log.lag);
  }

  // ---- how large the lag is ----

  /** No call waits longer than d seconds between its reading and its turn at the lock. */
  ghost predicate WaitsWithin(s: State, run: seq<Action>, d: real)
    requires Legal(s, run)
    decreases |run|
  {
    run != [] ==>
      && (run[0].Enter? ==> s.clock - s.waiting[run[0].w].now <= d)
      && WaitsWithin(Step(s, run[0]), run[1..], d)
  }

  /** No reading lies ahead of the clock. */
  ghost predicate Past(s: State) {
    && (forall w :: w in s.waiting ==> s.waiting[w].now <= s.clock)
    && (forall k :: k in s.log.latest ==> s.log.latest[k] <= s.clock)
  }

  lemma {:induction false} LagWithinWait(s: State, run: seq<Action>, d: real)
    requires Legal(s, run) && Past(s) && s.log.lag <= d && WaitsWithin(s, run, d) && d >= 0.0
    ensures Exec(s, run).log.lag <= d
    decreases |run|
  {
    if run != [] {
      assert Past(Step(s, run[0]));
      LagWithinWait(Step(s, run[0]), run[1..], d);
    }
  }

  /** The limit holds for windows shorter by the longest wait for the lock. */
  lemma {:induction false} LimitHoldsForShortWaits(start: real, run: seq<Action>, d: real, key: Client, end: real)
    requires Legal(Start(start), run) && d >= 0.0 && WaitsWithin(Start(start), run, d)
    ensures InWindow(At(Exec(Start(start), run).log.recorded, key), end, WINDOW - d) <= MAX_ATTEMPTS
  {
    var s := Exec(Start(start), run);
    LagWithinWait(Start(start), run, d);
    LimitHoldsOverRuns(start, run, key, end);
    NarrowerWindow(At(s.log.recorded, key), end, WINDOW - d, WINDOW - s.log.lag);
  }

  lemma {:induction false} NarrowerWindow(r: seq<real>, t: real, length: real, wider: real)
    requires length <= wider
    ensures InWindow(r, t, length) <= InWindow(r, t, wider)
  {
    if r != [] {
      NarrowerWindow(r[..|r| - 1], t, length, wider);
    }
  }

  // ---- the bound cannot be better ----

  lemma {:induction false} ExecConcat(s: State, run: seq<Action>, more: seq<Action>)
    requires Legal(s, run) && Legal(Exec(s, run), more)
    ensures Legal(s, run + more) && Exec(s, run + more) == Exec(Exec(s, run), more)
    decreases |run|
  {
    if run == [] {
      assert run + more == more;
    } else {
      ExecConcat(Step(s, run[0]), run[1..], more);
      assert (run + more)[1..] == run[1..] + more;
    }
  }

  lemma {:induction false} OneStep(s: State, a: Action)
    requires Enabled(s, a)
    ensures Legal(s, [a]) && Exec(s, [a]) == Step(s, a)
  {
    assert [a][1..] == [];
  }

  lemma {:induction false} OneMoreStep(s: State, run: seq<Action>, a: Action)
    requires Legal(s, run) && Enabled(Exec(s, run), a)
    ensures Legal(s, run + [a]) && Exec(s, run + [a]) == Step(Exec(s, run), a)
  {
    OneStep(Exec(s, run), a);
    ExecConcat(s, run, [a]);
  }

  function Zeros(k: nat): seq<real> { seq(k, i requires 0 <= i < k => 0.0) }

  /** One client's k attempts at time zero, and nothing else. */
  function Burst(c: Client, k: nat): State
    requires k > 0
  {
    State(0.0, map[], Table([c], map[c := Zeros(k)]), Log(map[c := Zeros(k)], map[c := 0.0], map[c := k - 1], k, 0.0))
  }

  lemma {:induction false} ZerosStay(k: nat, cutoff: real)
    ensures cutoff < 0.0 ==> Recent(Zeros(k), cutoff) == Zeros(k)
    ensures cutoff >= 0.0 ==> Recent(Zeros(k), cutoff) == []
  {
    if k > 0 && cutoff >= 0.0 {
      assert Zeros(k)[1..] == Zeros(k - 1);
      ZerosStay(k - 1, cutoff);
    }
  }

  lemma {:induction false} BurstGrows(c: Client, k: nat)
    requires 0 < k < MAX_ATTEMPTS
    ensures Step(Step(Burst(c, k), Read(0, c)), Enter(0)) == Burst(c, k + 1)
  {
    var s := Burst(c, k);
    ZerosStay(k, -WINDOW);
    assert Zeros(k) + [0.0] == Zeros(k + 1);
    assert Without([c], c) == [] by { assert [c][1..] == []; }
    var s' := Step(Step(s, Read(0, c)), Enter(0));
    assert s'.waiting == map[];
    assert s'.table.order == [c];
  }

  lemma {:induction false} BurstBegins(c: Client)
    ensures Step(Step(Start(0.0), Read(0, c)), Enter(0)) == Burst(c, 1)
  {
    var s' := Step(Step(Start(0.0), Read(0, c)), Enter(0));
    assert s'.waiting == map[];
    assert s'.table.order == [c];
    assert [] + [0.0] == Zeros(1);
  }

  lemma {:induction false} BurstRuns(c: Client, k: nat) returns (run: seq<Action>)
    requires 0 < k <= MAX_ATTEMPTS
    ensures Legal(Start(0.0), run) && Exec(Start(0.0), run) == Burst(c, k)
  {
    if k == 1 {
      run := [];
      BurstBegins(c);
    } else {
      run := BurstRuns(c, k - 1);
      BurstGrows(c, k - 1);
    }
    OneMoreStep(Start(0.0), run, Read(0, c));
    OneMoreStep(Start(0.0), run + [Read(0, c)], Enter(0));
    run := run + [Read(0, c)] + [Enter(0)];
  }

  /** Ten attempts at zero; then a call that has read 60 seconds overtakes one that has
      read d less. */
  function Overtaken(c: Client, d: real): State {
    State(WINDOW, map[0 := Call(c, WINDOW - d), 1 := Call(c, WINDOW)], Burst(c, 10).table, Burst(c, 10).log)
  }

  lemma {:induction false} OvertakenRuns(c: Client, d: real) returns (run: seq<Action>)
    requires 0.0 <= d <= WINDOW
    ensures Legal(Start(0.0), run) && Exec(Start(0.0), run) == Overtaken(c, d)
  {
    run := BurstRuns(c, 10);
    OneMoreStep(Start(0.0), run, Tick(WINDOW - d));
    run := run + [Tick(WINDOW - d)];
    OneMoreStep(Start(0.0), run, Read(0, c));
    run := run + [Read(0, c)];
    OneMoreStep(Start(0.0), run, Tick(WINDOW));
    run := run + [Tick(WINDOW)];
    OneMoreStep(Start(0.0), run, Read(1, c));
    run := run + [Read(1, c)];
  }

  /** The later reading empties the window before the earlier one is recorded. */
  lemma {:induction false} BothEnter(c: Client, d: real)
    requires 0.0 <= d <= WINDOW
    ensures
      var s := Step(Step(Overtaken(c, d), Enter(1)), Enter(0));
      s.log.lag == d && At(s.log.recorded, c) == Zeros(10) + [WINDOW] + [WINDOW - d]
  {
    ZerosStay(10, 0.0);
    var s := Step(Overtaken(c, d), Enter(1));
    assert s.table.attempts[c] == [WINDOW];
    assert s.log.recorded[c] == Zeros(10) + [WINDOW] && s.log.latest[c] == WINDOW && s.log.lag == 0.0;
    assert Recent([WINDOW], WINDOW - d - WINDOW) == [WINDOW];
  }

  lemma {:induction false} ZerosInWindow(k: nat, t: real, length: real)
    requires t - length < 0.0 <= t
    ensures InWindow(Zeros(k), t, length) == k
  {
    if k > 0 {
      assert Zeros(k)[..k - 1] == Zeros(k - 1);
      ZerosInWindow(k - 1, t, length);
    }
  }

  lemma {:induction false} InWindowAppend(r: seq<real>, x: real, t: real, length: real)
    ensures InWindow(r + [x], t, length) == InWindow(r, t, length) + if t - length < x <= t then 1 else 0
  {
    assert (r + [x])[..|r|] == r;
  }

  /** With a lag of d, eleven attempts can fall into any window longer than sixty seconds
      less d. */
  lemma {:induction false} OvertakingBreaksTheLimit(c: Client, d: real, length: real) returns (run: seq<Action>)
    requires 0.0 <= d <= WINDOW && length > WINDOW - d
    ensures Legal(Start(0.0), run) && Exec(Start(0.0), run).log.lag == d
    ensures InWindow(At(Exec(Start(0.0), run).log.recorded, c), WINDOW - d, length) > MAX_ATTEMPTS
  {
    run := OvertakenRuns(c, d);
    OneMoreStep(Start(0.0), run, Enter(1));
    OneMoreStep(Start(0.0), run + [Enter(1)], Enter(0));
    run := run + [Enter(1)] + [Enter(0)];
    BothEnter(c, d);
    ZerosInWindow(10, WINDOW - d, length);
    InWindowAppend(Zeros(10), WINDOW, WINDOW - d, length);
    InWindowAppend(Zeros(10) + [WINDOW], WINDOW - d, WINDOW - d, length);
  }

  /** No run in which calls lag at most d puts more than ten attempts into one window. */
  ghost predicate Limits(d: real, length: real) {
    forall start, run, key, end :: Legal(Start(start), run) && Exec(Start(start), run).log.lag <= d ==>
      InWindow(At(Exec(Start(start), run).log.recorded, key), end, length) <= 10
  }

  /** Exactly the windows of sixty seconds less the lag are limited. The full sixty seconds
      are only if no call of a client enters behind one that read a later time. */
  lemma {:induction false} LimitIsExact(d: real, length: real)
    requires 0.0 <= d <= 60.0
    ensures Limits(d, length) <==> length <= 60.0 - d
  {
    if length <= WINDOW - d {
      forall start, run, key, end | Legal(Start(start), run) && Exec(Start(start), run).log.lag <= d
        ensures InWindow(At(Exec(Start(start), run).log.recorded, key), end, length) <= MAX_ATTEMPTS
      {
        var s := Exec(Start(start), run);
        LimitHoldsOverRuns(start, run, key, end);
        NarrowerWindow(At(s.log.recorded, key), end, length, WINDOW - s.log.lag);
      }
    } else {
      var run := OvertakingBreaksTheLimit(Client("host"), d, length);
    }
  }

  class Limiter {
    var order: seq<Client>
    var attempts: map<Client, seq<real>>
    ghost var log: Log

    ghost function View(): Table
      reads this
    {
      Table(order, attempts)
    }

    ghost predicate Valid()
      reads this
    {
      Sound(View(), log)
    }

    constructor ()
      ensures Valid() && View() == EMPTY && log == NO_CALLS
    {
      order, attempts := [], map[];
      log := NO_CALLS;
    }

    /** Rejects the attempt if ten are in the window, and records it otherwise. */
    method Admit(key: Client, now: real) returns (told: Option<int>)
      modifies this`order, this`attempts
      ensures (View(), told) == Attempted(old(View()), key, now)
    {
      var kept := [];
      if key in attempts {
        kept := attempts[key];
      } else if |order| >= MAX_CLIENTS {
        attempts := attempts - {order[0]};
        order := order[1..];
      }
      order := Without(order, key) + [key];
      kept := DropOld(kept, now - WINDOW);
      if |kept| >= MAX_ATTEMPTS {
        attempts := attempts[key := kept];
        assert kept + [] == kept;
        told := Some(RetryAfter(kept, now));
      } else {
        attempts := attempts[key := kept + [now]];
        told := None;
      }
    }

    /** One login, with what it read from the clock before it waited for the lock: the
        expensive check runs only for an admitted client and with a free slot; an admitted
        attempt stays recorded either way. */
    method VerifyLogin(host: string, now: real, slotFree: bool, correct: bool) returns (r: Result)
      requires Valid()
      modifies this
      ensures Valid() && log == AttemptedLog(old(View()), old(log), Key(host), now)
      ensures
        var (after, told) := Attempted(old(View()), Key(host), now);
        && View() == after
        && r == if told.Some? then Limited(told.value) else if slotFree then Verified(correct) else Busy
      ensures
        var before, after := At(old(log).recorded, Key(host)), At(log.recorded, Key(host));
        after == before + (if r.Limited? then [] else [now]) && (r.Limited? ==> r.retryAfter >= 1)
    {
      AttemptedSound(View(), log, Key(host), now);
      AttemptIsRecorded(View(), log, Key(host), now);
      log := AttemptedLog(View(), log, Key(host), now);
      var told := Admit(Key(host), now);
      r := if told.Some? then Limited(told.value) else if slotFree then Verified(correct) else Busy;
    }
  }
}
