/** Paid LLM calls: admission, one send, and closing the reservation, for single calls
    and for a stage that makes several. */
module LlmCalls {
  import opened Basics
  import opened Json
  import opened LlmRequests
  import opened Redirects
  import opened Retries

  /** What a 2xx body holds: usable content or not, and what the provider says it cost. */
  datatype LlmReply = LlmReply(usable: bool, cost: Json)

  datatype Admission = Blocked | Bypassed | Reserved(id: nat)

  /** What one call meets: the clock, drifted setup, the ledger, and the provider. A new
      reservation's life runs from reservedAt, read before the wait for the day's lock;
      the send starts at sentAt. */
  datatype World = World(now: real, drift: bool, admission: Admission, reservedAt: real, driftAgain: bool,
      sentAt: real, send: Send<LlmReply>, completed: real)

  /** The right to make one call; a manual bypass holds no reservation. */
  datatype Permit = Permit(reservation: Option<nat>)

  datatype Event =
    | Admitted(id: nat)
    | Dispatched(reservation: Option<nat>, start: real, end: real)
    | Settled(id: nat, cost: real)
    | Retained(id: nat)
    | Released(id: nat)

  datatype CallResult = RetryLimit | OutOfTime | Drifted | InvalidRequest | BudgetBlocked | CallFailed | Returned

  // ---- what the provider may have charged ----

  /** The provider provably did not charge: no connection, or a status other than 2xx. */
  predicate Unspent(s: Send<LlmReply>, window: real) {
    InTime(s, window) && (s.met == Broken(true) || (s.met.Reply? && !(200 <= s.met.status < 300)))
  }

  /** A cost the provider reported as a number. */
  function ReportedCost(j: Json, parse: string -> Option<real>): Option<real> {
    var x := if j.Bool? then None else Float(j, parse);
    if x.Some? && x.value >= 0.0 then x else None
  }

  /** The reply states this cost: a number, or text that reads as one, and not negative. */
  predicate States(cost: Json, parse: string -> Option<real>, x: real) {
    && x >= 0.0
    && match cost
       case Real(y) => x == y
       case Int(n) => x == n as real
       case Str(text) => parse(text) == Some(x)
       case _ => false
  }

  /** The provider answered usably and reported this cost. */
  predicate Metered(s: Send<LlmReply>, window: real, parse: string -> Option<real>, cost: real) {
    && InTime(s, window) && s.met.Reply? && 200 <= s.met.status < 300 && s.met.payload.usable
    && States(s.met.payload.cost, parse, cost)
  }

  /** When a send is over: it is abandoned at the end of its window. */
  function SendEnd(start: real, duration: real, window: real): real {
    start + Min(duration, window)
  }

  // ---- counting what became of a reservation ----

  predicate Opens(e: Event, id: nat) { e == Admitted(id) }

  predicate Closes(e: Event, id: nat) {
    (e.Settled? || e.Retained? || e.Released?) && e.id == id
  }

  function Opened(log: seq<Event>, id: nat): nat {
    if log == [] then 0 else Opened(log[..|log| - 1], id) + if Opens(log[|log| - 1], id) then 1 else 0
  }

  function Closed(log: seq<Event>, id: nat): nat {
    if log == [] then 0 else Closed(log[..|log| - 1], id) + if Closes(log[|log| - 1], id) then 1 else 0
  }

  function Dispatches(log: seq<Event>): nat {
    if log == [] then 0 else Dispatches(log[..|log| - 1]) + if log[|log| - 1].Dispatched? then 1 else 0
  }

  lemma {:induction false} CountsAppend(log: seq<Event>, e: Event)
    ensures forall id: nat :: Opened(log + [e], id) == Opened(log, id) + if Opens(e, id) then 1 else 0
    ensures forall id: nat :: Closed(log + [e], id) == Closed(log, id) + if Closes(e, id) then 1 else 0
    ensures Dispatches(log + [e]) == Dispatches(log) + if e.Dispatched? then 1 else 0
  {
    assert (log + [e])[..|log|] == log;
  }

  lemma {:induction false} CountsAdd(log: seq<Event>, more: seq<Event>)
    ensures forall id: nat :: Opened(log + more, id) == Opened(log, id) + Opened(more, id)
    ensures forall id: nat :: Closed(log + more, id) == Closed(log, id) + Closed(more, id)
    ensures Dispatches(log + more) == Dispatches(log) + Dispatches(more)
  {
    if more == [] {
      assert log + more == log;
    } else {
      var n := |more| - 1;
      CountsAdd(log, more[..n]);
      CountsAppend(log + more[..n], more[n]);
      assert log + more == log + more[..n] + [more[n]];
    }
  }

  /** A reservation held when a call starts. */
  function Held(permit: Option<Permit>, id: nat): nat {
    if permit.Some? && permit.value.reservation == Some(id) then 1 else 0
  }

  /** Every reservation held or admitted is closed exactly once. */
  ghost predicate Balanced(events: seq<Event>, permit: Option<Permit>) {
    forall id: nat :: Held(permit, id) + Opened(events, id) == Closed(events, id)
  }

  /** Closings agree with what the provider may have charged: released only if nothing
      was sent or nothing was charged, settled only at a reported cost. */
  ghost predicate Justified(events: seq<Event>, w: World, window: real, parse: string -> Option<real>) {
    forall k :: 0 <= k < |events| ==> JustifiedEvent(events[k], Dispatches(events), w, window, parse)
  }

  ghost predicate JustifiedEvent(e: Event, sent: nat, w: World, window: real, parse: string -> Option<real>) {
    && (e.Released? ==> sent == 0 || Unspent(w.send, window))
    && (e.Retained? ==> sent == 1 && !Unspent(w.send, window) && forall cost :: !Metered(w.send, window, parse, cost))
    && (e.Settled? ==> sent == 1 && Metered(w.send, window, parse, e.cost))
    && (e.Dispatched? ==> e.start == w.sentAt && e.end == SendEnd(w.sentAt, w.send.duration, window))
  }

  /** Admission fails closed: without a valid reservation policy nothing is admitted. */
  function Enforce(config: map<string, Json>, processor: string, model: string, parse: string -> Option<real>,
      a: Admission): Admission {
    if a.Reserved? && ReservationPolicy(config, processor, model, parse).None? then Blocked else a
  }

  /** Nothing is admitted: the ledger refuses, or it has no valid price and life to reserve. */
  predicate Denied(config: map<string, Json>, processor: string, model: string, parse: string -> Option<real>,
      a: Admission) {
    a.Blocked? || (a.Reserved? && ReservationPolicy(config, processor, model, parse).None?)
  }

  /** A permit's reservation is closed once: released exactly if nothing was charged,
      settled exactly at a reported cost, and otherwise kept at its estimate. */
  ghost predicate ClosedBy(permit: Permit, closing: seq<Event>, s: Send<LlmReply>, window: real,
      parse: string -> Option<real>) {
    if permit.reservation.None? then closing == [] else
      && |closing| == 1 && Closes(closing[0], permit.reservation.value)
      && (closing[0].Released? <==> Unspent(s, window))
      && (closing[0].Settled? <==> exists cost :: Metered(s, window, parse, cost))
      && (closing[0].Settled? ==> Metered(s, window, parse, closing[0].cost))
  }

  /** What a call writes about its own admission: nothing if it was handed a permit. */
  function Opening(given: Option<Permit>, held: Permit): seq<Event> {
    if given.None? && held.reservation.Some? then [Admitted(held.reservation.value)] else []
  }

  lemma {:induction false} ShortCounts(es: seq<Event>)
    requires |es| <= 1
    ensures forall id: nat :: Opened(es, id) == if es != [] && Opens(es[0], id) then 1 else 0
    ensures forall id: nat :: Closed(es, id) == if es != [] && Closes(es[0], id) then 1 else 0
    ensures Dispatches(es) == if es != [] && es[0].Dispatched? then 1 else 0
  {
    assert es != [] ==> es[..|es| - 1] == [];
  }

  lemma {:induction false} SmallCounts(opening: seq<Event>, d: Event, closing: seq<Event>, id: nat)
    requires |opening| <= 1 && |closing| <= 1 && d.Dispatched?
    ensures Opened(opening + [d] + closing, id) == Opened(opening, id) + Opened(closing, id)
    ensures Closed(opening + [d] + closing, id) == Closed(opening, id) + Closed(closing, id)
    ensures Dispatches(opening + [d] + closing) == Dispatches(opening) + 1 + Dispatches(closing)
  {
    CountsAppend(opening, d);
    CountsAdd(opening + [d], closing);
  }

  /** One send with its admission and its closing leaves the books balanced. */
  lemma {:induction false} SentCallBalances(given: Option<Permit>, held: Permit, d: Event, closing: seq<Event>,
      events: seq<Event>)
    requires given.Some? ==> given.value == held
    requires
      if held.reservation.None? then closing == []
      else |closing| == 1 && Closes(closing[0], held.reservation.value)
    requires d.Dispatched? && events == Opening(given, held) + [d] + closing
    ensures Balanced(events, given) && Dispatches(events) == 1
    ensures forall id: nat :: Opened(events, id) == if given.None? && held.reservation == Some(id) then 1 else 0
  {
    var opening := Opening(given, held);
    ShortCounts(opening);
    ShortCounts(closing);
    SmallCounts(opening, d, closing, 0);
    forall id: nat
      ensures Held(given, id) + Opened(events, id) == Closed(events, id)
      ensures Opened(events, id) == if given.None? && held.reservation == Some(id) then 1 else 0
    {
      SmallCounts(opening, d, closing, id);
    }
  }

  lemma {:induction false} ClosingJustified(held: Permit, closing: seq<Event>, e: Event, w: World, window: real,
      parse: string -> Option<real>)
    requires ClosedBy(held, closing, w.send, window, parse) && e in closing
    ensures JustifiedEvent(e, 1, w, window, parse)
  {
    assert closing == [e];
    if e.Retained? {
      forall cost ensures !Metered(w.send, window, parse, cost) {
      }
    }
  }

  lemma {:induction false} SentCallJustified(given: Option<Permit>, held: Permit, d: Event, closing: seq<Event>,
      w: World, window: real, parse: string -> Option<real>)
    requires ClosedBy(held, closing, w.send, window, parse)
    requires d == Dispatched(held.reservation, w.sentAt, SendEnd(w.sentAt, w.send.duration, window))
    requires Dispatches(Opening(given, held) + [d] + closing) == 1
    ensures Justified(Opening(given, held) + [d] + closing, w, window, parse)
  {
    var opening := Opening(given, held);
    var events := opening + [d] + closing;
    forall k | 0 <= k < |events| ensures JustifiedEvent(events[k], 1, w, window, parse) {
      if k > |opening| {
        ClosingJustified(held, closing, closing[k - |opening| - 1], w, window, parse);
      }
    }
  }

  method Close(permit: Permit, s: Send<LlmReply>, window: real,
      parse: string -> Option<real>) returns (r: CallResult, elapsed: real, closing: seq<Event>)
    requires window > 0.0 && s.duration >= 0.0
    ensures elapsed == Min(s.duration, window)
    ensures r == Returned <==>
      InTime(s, window) && s.met.Reply? && 200 <= s.met.status < 300 && s.met.payload.usable
    ensures r == Returned || r == CallFailed
    ensures ClosedBy(permit, closing, s, window, parse)
    ensures permit.reservation.Some? && r == Returned ==>
      var id := permit.reservation.value;
      match s.met.payload.cost
      case Real(x) => closing == [if x >= 0.0 then Settled(id, x) else Retained(id)]
      case Int(n) => closing == [if n >= 0 then Settled(id, n as real) else Retained(id)]
      case Str(text) =>
        var x := parse(text);
        closing == [if x.Some? && x.value >= 0.0 then Settled(id, x.value) else Retained(id)]
      case _ => closing == [Retained(id)]
  {
    var job := Job(POST, false, false, false, 1, Some(window), None);
    var out, starts;
    out, elapsed, starts := MakeRequest(job, k => s, k => 0.0);
    var unspent, cost := false, None;
    match out {
      case Done(status, reply) =>
        if !Success(status) {
          unspent, r := true, CallFailed;
        } else if !reply.usable {
          r := CallFailed;
        } else {
          cost, r := ReportedCost(reply.cost, parse), Returned;
        }
      case StatusError(_) => unspent, r := true, CallFailed;
      case TransportFailure(connecting) => unspent, r := connecting, CallFailed;
      case _ => r := CallFailed;
    }
    closing := [];
    if permit.reservation.Some? {
      var id := permit.reservation.value;
      closing := [if unspent then Released(id) else if cost.Some? then Settled(id, cost.value) else Retained(id)];
      assert cost.Some? ==> Metered(s, window, parse, cost.value);
    }
  }

  /** The policy of a request that passes all checks before admission. */
  function Checked(config: map<string, Json>, processor: string, o: Overrides, a: Ask): Option<Policy> {
    var p := ResolvePolicy(config, processor, o);
    if p.Some? && Prepare(LlmConfig(config).value, processor, p.value, a).Some? then p else None
  }

  /** The ledger made this reservation, under a valid reservation policy. */
  predicate Admits(config: map<string, Json>, processor: string, p: Option<Policy>, a: Admission,
      parse: string -> Option<real>, id: nat) {
    p.Some? && a == Reserved(id) && ReservationPolicy(config, processor, p.value.model, parse).Some?
  }

  predicate Windowed(p: Option<Policy>, window: real) {
    p.Some? && window == p.value.timeout + 30.0
  }

  /** The one send of an admitted call, and what becomes of its reservation. */
  method SendAndClose(given: Option<Permit>, held: Permit, w: World, window: real, parse: string -> Option<real>)
    returns (r: CallResult, events: seq<Event>)
    requires given.Some? ==> given.value == held
    requires window > 0.0 && w.send.duration >= 0.0
    ensures r == Returned || r == CallFailed
    ensures Balanced(events, given) && Dispatches(events) == 1 && Justified(events, w, window, parse)
    ensures forall id: nat :: Opened(events, id) == if given.None? && held.reservation == Some(id) then 1 else 0
  {
    var elapsed, closing;
    r, elapsed, closing := Close(held, w.send, window, parse);
    var d := Dispatched(held.reservation, w.sentAt, w.sentAt + elapsed);
    events := Opening(given, held) + [d] + closing;
    SentCallBalances(given, held, d, closing, events);
    SentCallJustified(given, held, d, closing, w, window, parse);
  }

  lemma {:induction false} DriftBalances(permit: Option<Permit>, events: seq<Event>)
    requires events ==
      if permit.Some? && permit.value.reservation.Some? then [Released(permit.value.reservation.value)] else []
    ensures Balanced(events, permit) && Dispatches(events) == 0 && forall id: nat :: Opened(events, id) == 0
  {
    ShortCounts(events);
  }

  lemma {:induction false} NothingHappened(w: World, parse: string -> Option<real>)
    ensures Balanced([], None) && Dispatches([]) == 0 && Justified([], w, 0.0, parse)
    ensures forall id: nat :: Opened([], id) == 0
  {
    ShortCounts([]);
  }

  /** A checked call: admission, unless the caller brings a permit, and the send. */
  method AdmitAndSend(config: map<string, Json>, processor: string, policy: Policy, permit: Option<Permit>,
      w: World, parse: string -> Option<real>)
    returns (r: CallResult, events: seq<Event>, window: real)
    requires w.send.duration >= 0.0 && policy.timeout > 0.0
    ensures r == BudgetBlocked || r == Returned || r == CallFailed
    ensures r == BudgetBlocked ==> permit.None? && events == []
    ensures r != BudgetBlocked ==> Dispatches(events) == 1
    ensures Balanced(events, permit) && Dispatches(events) <= 1 && Justified(events, w, window, parse)
    ensures forall id: nat :: Opened(events, id) <= 1
    ensures forall id: nat :: Opened(events, id) == 1 ==>
      permit.None? && Admits(config, processor, Some(policy), w.admission, parse, id)
    ensures Dispatches(events) == 1 ==> window == policy.timeout + 30.0
  {
    events, window := [], 0.0;
    var held := permit;
    if held.None? {
      var admission := Enforce(config, processor, policy.model, parse, w.admission);
      if admission.Blocked? {
        NothingHappened(w, parse);
        return BudgetBlocked, events, window;
      }
      held := Some(Permit(if admission.Reserved? then Some(admission.id) else None));
    }
    window := policy.timeout + DEADLINE_SLACK;
    r, events := SendAndClose(permit, held.value, w, window, parse);
  }

  /** One paid call, admitted by the caller or by itself: whatever happens, every
      reservation held or made is closed once, as the facts justify. */
  method CallLlm(config: map<string, Json>, processor: string, o: Overrides, a: Ask, permit: Option<Permit>,
      w: World, parse: string -> Option<real>)
    returns (r: CallResult, events: seq<Event>, window: real)
    requires w.send.duration >= 0.0
    ensures r == Drifted <==> w.driftAgain
    ensures r == InvalidRequest <==> !w.driftAgain && Checked(config, processor, o, a).None?
    ensures r == Drifted ==> Dispatches(events) == 0
    ensures r == InvalidRequest ==> events == []
    ensures r != InvalidRequest || permit.None? ==> Balanced(events, permit)
    ensures Dispatches(events) <= 1 && Justified(events, w, window, parse)
    ensures forall id: nat :: Opened(events, id) <= 1
    ensures forall id: nat :: Opened(events, id) == 1 ==>
      permit.None? && Admits(config, processor, Checked(config, processor, o, a), w.admission, parse, id)
    ensures Dispatches(events) == 1 ==> Windowed(Checked(config, processor, o, a), window)
    ensures r != RetryLimit && r != OutOfTime
    ensures r == Returned || r == CallFailed ==> Dispatches(events) == 1
    ensures r == BudgetBlocked ==> permit.None? && events == []
  {
    events, window := [], 0.0;
    NothingHappened(w, parse);
    if w.driftAgain {
      if permit.Some? && permit.value.reservation.Some? {
        events := [Released(permit.value.reservation.value)];
      }
      DriftBalances(permit, events);
      return Drifted, events, window;
    }
    var policy := Checked(config, processor, o, a);
    if policy.None? {
      return InvalidRequest, events, window;
    }
    r, events, window := AdmitAndSend(config, processor, policy.value, permit, w, parse);
  }

  // ---- a stage: several calls under one deadline ----

  lemma {:induction false} BooksStayBalanced(log: seq<Event>, events: seq<Event>)
    requires Balanced(log, None) && Balanced(events, None)
    requires forall id: nat :: Opened(log, id) <= 1
    requires forall id: nat :: Opened(events, id) > 0 ==> Opened(events, id) == 1 && Opened(log, id) == 0
    ensures Balanced(log + events, None) && forall id: nat :: Opened(log + events, id) <= 1
    ensures Dispatches(log + events) == Dispatches(log) + Dispatches(events)
  {
    CountsAdd(log, events);
    forall id: nat ensures Opened(log + events, id) == Closed(log + events, id) && Opened(log + events, id) <= 1 {
      assert Held(None, id) + Opened(log, id) == Closed(log, id);
      assert Held(None, id) + Opened(events, id) == Closed(events, id);
    }
  }

  class Stage {
    const config: map<string, Json>
    const processor: string
    const overrides: Overrides
    const schema: Option<Json>
    const effort: Option<string>
    const policy: Policy
    const deadline: real
    const parse: string -> Option<real>
    var attempts: int
    var log: seq<Event>

    /** Over all calls so far: every reservation was closed once, and no more requests
        were sent than the validation retries allow. */
    ghost predicate Valid()
      reads this
    {
      && overrides.timeout.None?
      && ResolvePolicy(config, processor, overrides) == Some(policy)
      && Balanced(log, None) && (forall id: nat :: Opened(log, id) <= 1)
      && 0 <= Dispatches(log) <= attempts <= 1 + policy.retries
    }

    constructor (config: map<string, Json>, processor: string, overrides: Overrides, schema: Option<Json>,
        effort: Option<string>,
        policy: Policy, now: real, parse: string -> Option<real>)
      requires overrides.timeout.None? && ResolvePolicy(config, processor, overrides) == Some(policy)
      ensures Valid() && log == [] && attempts == 0 && this.policy == policy && deadline == now + policy.timeout
      ensures this.config == config && this.processor == processor && this.overrides == overrides && this.parse == parse
    {
      this.config, this.processor, this.overrides, this.parse := config, processor, overrides, parse;
      this.schema, this.effort, this.policy := schema, effort, policy;
      deadline := now + policy.timeout;
      attempts, log := 0, [];
      ShortCounts([]);
    }

    function Question(prompt: string): Ask {
      Ask(prompt, None, None, schema, effort)
    }

    /** _call_with_permit: the call under the permit the stage was given. */
    method CallWithPermit(prompt: string, w: World, remaining: real, permit: Permit) returns (r: CallResult,
        events: seq<Event>, window: real)
      requires ResolvePolicy(config, processor, overrides) == Some(policy) && w.send.duration >= 0.0
      requires Checked(config, processor, overrides, Question(prompt)).Some? && remaining > 0.0
      ensures r == Drifted || r == Returned || r == CallFailed
      ensures r == Drifted <==> w.driftAgain
      ensures Dispatches(events) == if w.driftAgain then 0 else 1
      ensures Balanced(events, None) && Justified(events, w, window, parse)
      ensures forall id: nat :: Opened(events, id) == if permit.reservation == Some(id) then 1 else 0
      ensures Dispatches(events) == 1 ==> window == remaining + 30.0
    {
      CheckedAgain(config, processor, overrides, policy, Question(prompt), remaining);
      var more;
      var repeated := Repeated(policy, remaining);
      r, more, window := CallLlm(config, processor, repeated, Question(prompt), Some(permit), w, parse);
      events := Opening(None, permit) + more;
      StageCallBalances(permit, Opening(None, permit), more);
      StageCallJustified(permit, more, w, window, parse);
    }

    /** Checks the request, has it admitted under the stage's policy, and makes the call
        under its permit. What passed the check is not refused once it is admitted. */
    method AdmitAndCall(prompt: string, w: World, remaining: real) returns (r: CallResult, events: seq<Event>,
        window: real)
      requires ResolvePolicy(config, processor, overrides) == Some(policy) && overrides.timeout.None?
      requires 0.0 < remaining <= policy.timeout && w.send.duration >= 0.0
      ensures r == InvalidRequest <==> Checked(config, processor, overrides, Question(prompt)).None?
      ensures r == BudgetBlocked <==>
        && Checked(config, processor, overrides, Question(prompt)).Some?
        && Denied(config, processor, policy.model, parse, w.admission)
      ensures r == InvalidRequest || r == BudgetBlocked ==> events == []
      ensures r != RetryLimit && r != OutOfTime && (r == Returned ==> Dispatches(events) == 1)
      ensures Balanced(events, None) && Justified(events, w, window, parse) && Dispatches(events) <= 1
      ensures forall id: nat :: Opened(events, id) > 0 ==>
        Opened(events, id) == 1 && Admits(config, processor, Some(policy), w.admission, parse, id)
      ensures Dispatches(events) == 1 ==> window == remaining + 30.0
      ensures events != [] && Dispatches(events) == 0 ==> w.driftAgain
      ensures w.admission.Reserved? && Dispatches(events) == 1 ==>
        Outlives(config, parse, policy.timeout - remaining, w, window, events)
    {
      events, window := [], 0.0;
      NothingHappened(w, parse);
      if Checked(config, processor, overrides, Question(prompt)).None? {
        return InvalidRequest, events, window;
      }
      var admission := Enforce(config, processor, policy.model, parse, w.admission);
      if admission.Blocked? {
        return BudgetBlocked, events, window;
      }
      var permit := Permit(if admission.Reserved? then Some(admission.id) else None);
      r, events, window := CallWithPermit(prompt, w, remaining, permit);
      if admission.Reserved? && !w.driftAgain {
        ReservationOutlives(config, processor, overrides, policy, remaining, w, parse, events);
      }
    }

    /** One call of the stage. New events are only added at the end of the log, and
        nothing that passed the checks before admission is refused after it. */
    method Call(prompt: string, w: World) returns (r: CallResult, ghost events: seq<Event>, ghost window: real)
      requires Valid() && w.send.duration >= 0.0 && w.now >= deadline - policy.timeout
      requires w.admission.Reserved? ==> Opened(log, w.admission.id) == 0
      modifies this
      ensures Valid() && log == old(log) + events
      ensures r == RetryLimit <==> old(attempts) >= 1 + policy.retries
      ensures r == InvalidRequest ==> Checked(config, processor, overrides, Question(prompt)).None?
      ensures r == RetryLimit || r == InvalidRequest || r == BudgetBlocked ==> events == []
      ensures Justified(events, w, window, parse) && Dispatches(events) <= 1
      ensures Dispatches(events) == 1 ==> w.now < deadline && window == deadline - w.now + 30.0
      ensures events != [] && Dispatches(events) == 0 ==> w.driftAgain
      ensures w.admission.Reserved? && Dispatches(events) == 1 ==>
        Outlives(config, parse, w.now - (deadline - policy.timeout), w, window, events)
      ensures r == Returned ==> Dispatches(events) == 1 && w.completed < deadline
      ensures old(attempts) < 1 + policy.retries ==>
        if w.now >= deadline then r == OutOfTime && events == []
        else if w.drift then r == Drifted && events == []
        else if Prepare(LlmConfig(config).value, processor, policy, Ask(prompt, None, None, schema, effort)).None?
        then r == InvalidRequest
        else if Denied(config, processor, policy.model, parse, w.admission) then r == BudgetBlocked
        else attempts == old(attempts) + 1 && (r == OutOfTime <==> w.completed >= deadline)
      ensures attempts == old(attempts) || attempts == old(attempts) + 1
      ensures r == RetryLimit || r == InvalidRequest || r == BudgetBlocked ==> attempts == old(attempts)
    {
      events, window := [], 0.0;
      NothingHappened(w, parse);
      assert log + [] == log;
      if attempts >= 1 + policy.retries {
        return RetryLimit, events, window;
      }
      var remaining := deadline - w.now;
      if remaining <= 0.0 {
        return OutOfTime, events, window;
      }
      if w.drift {
        return Drifted, events, window;
      }
      var more, span;
      r, more, span := AdmitAndCall(prompt, w, remaining);
      events, window := more, span;
      BooksStayBalanced(log, more);
      log := log + more;
      if r != InvalidRequest && r != BudgetBlocked {
        attempts := attempts + 1;
        if w.completed >= deadline {
          r := OutOfTime;
        }
      }
    }
  }

  /** Resolves the settings and starts the stage's clock; settings that do not resolve are refused. */
  method OpenStage(config: map<string, Json>, processor: string, model: Option<string>, temperature: Option<real>,
      maxTokens: Option<int>, schema: Option<Json>, effort: Option<string>, now: real, parse: string -> Option<real>)
    returns (stage: Stage?)
    ensures
      var policy := ResolvePolicy(config, processor, Overrides(model, temperature, maxTokens, None, None));
      && (stage == null <==> policy.None?)
      && (stage != null ==>
            && fresh(stage) && stage.Valid() && stage.log == [] && stage.attempts == 0
            && stage.policy == policy.value && stage.deadline == now + policy.value.timeout)
  {
    var overrides := Overrides(model, temperature, maxTokens, None, None);
    var policy := ResolvePolicy(config, processor, overrides);
    if policy.None? {
      return null;
    }
    stage := new Stage(config, processor, overrides, schema, effort, policy.value, now, parse);
  }

  // ---- a send against its reservation's life ----

  /** Whatever a send meets, it is over while its reservation lives. */
  ghost predicate EndsInLife(reservedAt: real, ttl: real, sentAt: real, window: real) {
    forall duration: real :: duration >= 0.0 ==> SendEnd(sentAt, duration, window) <= reservedAt + ttl
  }

  /** A send surely ends in its reservation's life exactly if it starts no later after the
      reservation than the life exceeds its window. */
  lemma {:induction false} EndsInLifeIff(reservedAt: real, ttl: real, sentAt: real, window: real)
    requires window >= 0.0
    ensures EndsInLife(reservedAt, ttl, sentAt, window) <==> sentAt - reservedAt <= ttl - window
  {
    assert SendEnd(sentAt, window, window) == sentAt + window;
  }

  /** The reservation's life exceeds the window by at least the time the stage has used; and
      if the send starts no later after the reservation than the life exceeds the window, it
      is over by the reservation's expiry, however it ends. */
  ghost predicate Outlives(config: map<string, Json>, parse: string -> Option<real>, used: real, w: World,
      window: real, events: seq<Event>) {
    var ttl := ReservationTtl(config, parse);
    && ttl.Some? && used <= ttl.value - window
    && (w.sentAt - w.reservedAt <= ttl.value - window ==> AllOver(events, w.reservedAt + ttl.value))
  }

  /** Every send among the events is over by this time. */
  ghost predicate AllOver(events: seq<Event>, expiry: real) {
    forall k :: 0 <= k < |events| && events[k].Dispatched? ==> events[k].end <= expiry
  }

  lemma {:induction false} ReservationOutlives(config: map<string, Json>, processor: string, o: Overrides,
      p: Policy, remaining: real, w: World, parse: string -> Option<real>, events: seq<Event>)
    requires ResolvePolicy(config, processor, o) == Some(p) && o.timeout.None? && 0.0 < remaining <= p.timeout
    requires ReservationPolicy(config, processor, p.model, parse).Some?
    requires Justified(events, w, remaining + DEADLINE_SLACK, parse)
    ensures Outlives(config, parse, p.timeout - remaining, w, remaining + DEADLINE_SLACK, events)
  {
    var ttl := ReservationTtl(config, parse);
    var window := remaining + DEADLINE_SLACK;
    TtlCoversStageCall(config, processor, o, p, p.timeout, ttl.value, parse);
    forall k | 0 <= k < |events| && events[k].Dispatched? ensures events[k].end <= w.sentAt + window {
      assert JustifiedEvent(events[k], Dispatches(events), w, window, parse);
    }
  }

  /** In a stage's own terms: the send surely ends in its reservation's life exactly if the
      wait between the two is at most the time the stage has used before the call, plus
      what the configured life exceeds the shortest one that validation accepts. */
  lemma {:induction false} StageSendEndsInLifeIff(config: map<string, Json>, processor: string, o: Overrides,
      p: Policy, start: real, w: World, parse: string -> Option<real>)
    requires ResolvePolicy(config, processor, o) == Some(p) && o.timeout.None? && ReservationTtl(config, parse).Some?
    requires start <= w.now < start + p.timeout && w.now <= w.reservedAt <= w.sentAt
    ensures
      var ttl, window := ReservationTtl(config, parse).value, start + p.timeout - w.now + DEADLINE_SLACK;
      var spare := ttl - (p.timeout + DEADLINE_SLACK);
      && spare >= 0.0
      && (EndsInLife(w.reservedAt, ttl, w.sentAt, window) <==> w.sentAt - w.reservedAt <= w.now - start + spare)
  {
    var ttl, window := ReservationTtl(config, parse).value, start + p.timeout - w.now + DEADLINE_SLACK;
    TtlCoversStageCall(config, processor, o, p, p.timeout, ttl, parse);
    EndsInLifeIff(w.reservedAt, ttl, w.sentAt, window);
  }

  /** With the shortest life that validation accepts, any wait between the reservation and
      the send of a stage's first call is too much: a reply inside its window can come
      after the reservation's expiry. */
  lemma {:induction false} AnyWaitCanOutlast(config: map<string, Json>, processor: string, o: Overrides, p: Policy,
      w: World, parse: string -> Option<real>)
    requires ResolvePolicy(config, processor, o) == Some(p) && o.timeout.None?
    requires ReservationTtl(config, parse) == Some(p.timeout + DEADLINE_SLACK) && w.sentAt > w.reservedAt
    ensures
      var window := p.timeout + DEADLINE_SLACK;
      exists duration: real :: 0.0 <= duration < window && SendEnd(w.sentAt, duration, window) > w.reservedAt + window
  {
    var window := p.timeout + DEADLINE_SLACK;
    var duration := Max(0.0, window - (w.sentAt - w.reservedAt) / 2.0);
    assert SendEnd(w.sentAt, duration, window) > w.reservedAt + window;
  }

  lemma {:induction false} CheckedAgain(config: map<string, Json>, processor: string, o: Overrides, p: Policy,
      a: Ask, remaining: real)
    requires ResolvePolicy(config, processor, o) == Some(p) && Checked(config, processor, o, a).Some? && remaining > 0.0
    ensures Checked(config, processor, Repeated(p, remaining), a) == Some(p.(timeout := remaining))
  {
    CheckedOnceHoldsTwice(config, processor, o, p, a, remaining);
  }

  lemma {:induction false} StageCallBalances(permit: Permit, opening: seq<Event>, more: seq<Event>)
    requires opening == Opening(None, permit) && Balanced(more, Some(permit)) && forall id: nat :: Opened(more, id) == 0
    ensures Balanced(opening + more, None) && Dispatches(opening + more) == Dispatches(more)
    ensures forall id: nat :: Opened(opening + more, id) == if permit.reservation == Some(id) then 1 else 0
  {
    CountsAdd(opening, more);
    ShortCounts(opening);
    forall id: nat ensures Opened(opening + more, id) == Closed(opening + more, id) {
      assert Held(Some(permit), id) + Opened(more, id) == Closed(more, id);
    }
  }

  lemma {:induction false} StageCallJustified(permit: Permit, more: seq<Event>, w: World, window: real,
      parse: string -> Option<real>)
    requires Justified(more, w, window, parse) && Dispatches(Opening(None, permit) + more) == Dispatches(more)
    ensures Justified(Opening(None, permit) + more, w, window, parse)
  {
    var opening := Opening(None, permit);
    var events := opening + more;
    forall k | 0 <= k < |events| ensures JustifiedEvent(events[k], Dispatches(events), w, window, parse) {
      assert k >= |opening| ==> JustifiedEvent(more[k - |opening|], Dispatches(more), w, window, parse);
    }
  }
}
