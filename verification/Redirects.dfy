/** Following redirects one bounded hop at a time. The server is an oracle: what it
    answers to the k-th request sent. */
module Redirects {
  import opened Basics

  datatype Method = GET | HEAD | PUT | DELETE | OPTIONS | TRACE | POST | PATCH | Other(name: string)

  predicate Idempotent(m: Method) { !m.POST? && !m.PATCH? && !m.Other? }

  /** Scheme, host and port. */
  datatype Origin = Origin(scheme: string, host: string, port: int)

  datatype Url = Url(origin: Origin, userinfo: bool, rest: string)

  /** A header, by what a redirect does with it: Authorization is stripped when the
      origin changes, other credential headers are refused, plain ones are kept. */
  datatype Header = Authorization | Credential(name: string) | Plain(name: string)

  datatype Request = Request(verb: Method, url: Url, headers: seq<Header>, auth: bool, json: bool, params: bool)

  datatype Location = Missing | Blank | Refused | To(url: Url)

  /** Declared content length: absent, not a number, or a number. */
  datatype Declared = Absent | Garbled | Length(value: int)

  datatype Answer = Answer(status: int, declared: Declared, chunks: seq<nat>, location: Location)

  datatype Exchange = Failed | Answered(answer: Answer)

  datatype Outcome =
    | Kept(answer: Answer, size: nat, history: seq<nat>)
    | TooLarge
    | TooManyRedirects
    | PolicyError
    | TransportError

  // ---- the byte cap ----

  function Bytes(chunks: seq<nat>): nat {
    if chunks == [] then 0 else Bytes(chunks[..|chunks| - 1]) + chunks[|chunks| - 1]
  }

  lemma {:induction false} BytesGrow(chunks: seq<nat>, k: nat)
    requires k <= |chunks|
    ensures Bytes(chunks[..k]) <= Bytes(chunks)
  {
    if k < |chunks| {
      BytesGrow(chunks[..|chunks| - 1], k);
      assert chunks[..|chunks| - 1][..k] == chunks[..k];
    } else {
      assert chunks[..k] == chunks;
    }
  }

  /** A body is kept exactly if neither its declared nor its actual length passes the cap. */
  method ReadBounded(a: Answer, cap: nat) returns (size: Option<nat>)
    ensures size.Some? <==> !(a.declared.Length? && a.declared.value > cap) && Bytes(a.chunks) <= cap
    ensures size.Some? ==> size.value == Bytes(a.chunks)
  {
    if a.declared.Length? && a.declared.value > cap {
      return None;
    }
    var read := 0;
    for k := 0 to |a.chunks|
      invariant read == Bytes(a.chunks[..k]) <= cap
    {
      assert a.chunks[..k + 1][..k] == a.chunks[..k];
      read := read + a.chunks[k];
      if read > cap {
        BytesGrow(a.chunks, k + 1);
        return None;
      }
    }
    assert a.chunks[..|a.chunks|] == a.chunks;
    size := Some(read);
  }

  // ---- one hop ----

  predicate IsRedirect(a: Answer) {
    a.status in {301, 302, 303, 307, 308} && !a.location.Missing?
  }

  function RedirectMethod(m: Method, status: int): Method {
    if status == 303 && m != HEAD then GET
    else if status == 302 && m != HEAD then GET
    else if status == 301 && m == POST then GET
    else m
  }

  /** The rewriting of methods, by status. */
  lemma {:induction false} RewrittenToGet(m: Method, status: int)
    ensures RedirectMethod(m, status) != m ==> RedirectMethod(m, status) == GET
    ensures RedirectMethod(m, status) != m <==>
      (status in {302, 303} && m !in {HEAD, GET}) || (status == 301 && m == POST)
  {
  }

  function WithoutAuthorization(headers: seq<Header>): seq<Header> {
    if headers == [] then []
    else if headers[0] == Authorization then WithoutAuthorization(headers[1..])
    else [headers[0]] + WithoutAuthorization(headers[1..])
  }

  predicate HasCredentialHeader(headers: seq<Header>) {
    exists i :: 0 <= i < |headers| && headers[i].Credential?
  }

  predicate Carries(r: Request) { r.auth || Authorization in r.headers }

  /** The request of the next hop. */
  function NextRequest(r: Request, status: int, target: Url): Request {
    var same := r.url.origin == target.origin;
    var verb := RedirectMethod(r.verb, status);
    Request(verb, target,
      if same then r.headers else WithoutAuthorization(r.headers),
      same && r.auth,
      r.json && verb == r.verb,
      false)
  }

  /** A request may be followed by another: the answer redirects, and policy allows it. */
  predicate Follows(r: Request, e: Exchange) {
    && e.Answered? && IsRedirect(e.answer) && e.answer.location.To?
    && Idempotent(r.verb) && !e.answer.location.url.userinfo && !HasCredentialHeader(r.headers)
  }

  /** One request makes way for the next. */
  predicate Hop(r: Request, e: Exchange, next: Request) {
    Follows(r, e) && next == NextRequest(r, e.answer.status, e.answer.location.url)
  }

  /** Each request but the first was made from the one before and its answer. */
  ghost predicate Chain(world: nat -> Exchange, sent: seq<Request>) {
    forall k: nat :: k + 1 < |sent| ==> Hop(sent[k], world(k), sent[k + 1])
  }

  lemma {:induction false} ChainGrows(world: nat -> Exchange, sent: seq<Request>, r: Request)
    requires Chain(world, sent) && (sent != [] ==> Hop(sent[|sent| - 1], world(|sent| - 1), r))
    ensures Chain(world, sent + [r])
  {
    var sent' := sent + [r];
    forall k: nat | k + 1 < |sent'| ensures Hop(sent'[k], world(k), sent'[k + 1]) {
      assert k + 1 < |sent| ==> Hop(sent[k], world(k), sent[k + 1]);
    }
  }

  ghost predicate WithinCap(world: nat -> Exchange, k: nat, cap: nat, size: nat) {
    && world(k).Answered? && size == Bytes(world(k).answer.chunks) <= cap
    && !(world(k).answer.declared.Length? && world(k).answer.declared.value > cap)
  }

  /** Every intermediate response was kept within the cap. */
  ghost predicate Bounded(world: nat -> Exchange, cap: nat, history: seq<nat>) {
    forall k :: 0 <= k < |history| ==> WithinCap(world, k, cap, history[k])
  }

  /** Why following stopped at the last request sent. */
  ghost predicate StoppedBy(world: nat -> Exchange, sent: seq<Request>, follow: bool, limit: nat, cap: nat, o: Outcome)
    requires sent != []
  {
    var last := |sent| - 1;
    match o
    case TransportError => world(last).Failed?
    case TooLarge => world(last).Answered? && forall size :: !WithinCap(world, last, cap, size)
    case PolicyError =>
      && follow && world(last).Answered? && IsRedirect(world(last).answer) && Idempotent(sent[last].verb)
      && !world(last).answer.location.Blank? && !Follows(sent[last], world(last))
    case TooManyRedirects => follow && |sent| == limit + 1 && Follows(sent[last], world(last))
    case Kept(answer, size, history) =>
      && world(last) == Answered(answer) && WithinCap(world, last, cap, size)
      && |history| == last && Bounded(world, cap, history)
      && (follow && IsRedirect(answer) ==> !Idempotent(sent[last].verb) || answer.location.Blank?)
  }

  /** Sends the request and follows redirects, at most limit of them. */
  method StreamBounded(first: Request, follow: bool, limit: nat, cap: nat, world: nat -> Exchange)
    returns (o: Outcome, sent: seq<Request>)
    ensures 1 <= |sent| <= limit + 1 && sent[0] == first
    ensures !follow ==> |sent| == 1
    ensures Chain(world, sent)
    ensures StoppedBy(world, sent, follow, limit, cap, o)
  {
    var r := first;
    var history := [];
    sent := [];
    for hop := 0 to limit + 1
      invariant |sent| == hop == |history|
      invariant hop > 0 ==> follow && sent[0] == first
      invariant hop == 0 ==> r == first
      invariant hop > 0 ==> Hop(sent[hop - 1], world(hop - 1), r)
      invariant Chain(world, sent) && Bounded(world, cap, history)
    {
      ChainGrows(world, sent, r);
      sent := sent + [r];
      var e := world(hop);
      if e.Failed? {
        return TransportError, sent;
      }
      var a := e.answer;
      var size := ReadBounded(a, cap);
      if size.None? {
        return TooLarge, sent;
      }
      if !(follow && IsRedirect(a)) || !Idempotent(r.verb) || a.location.Blank? {
        return Kept(a, size.value, history), sent;
      }
      if a.location.Refused? || a.location.url.userinfo || HasCredentialHeader(r.headers) {
        return PolicyError, sent;
      }
      history := history + [size.value];
      r := NextRequest(r, a.status, a.location.url);
    }
    o := TooManyRedirects;
  }

  // ---- what holds along every chain ----

  /** All requests up to the k-th went to the first one's origin. */
  ghost predicate SameOriginSoFar(sent: seq<Request>, k: nat)
    requires k < |sent|
  {
    forall j :: 0 <= j <= k ==> sent[j].url.origin == sent[0].url.origin
  }

  lemma {:induction false} WithoutKeepsOthers(headers: seq<Header>)
    ensures Authorization !in WithoutAuthorization(headers)
    ensures forall h :: h != Authorization ==> (h in WithoutAuthorization(headers) <==> h in headers)
    ensures HasCredentialHeader(WithoutAuthorization(headers)) <==> HasCredentialHeader(headers)
  {
    if headers != [] {
      var rest := headers[1..];
      WithoutKeepsOthers(rest);
      assert headers == [headers[0]] + rest;
      var out := WithoutAuthorization(headers);
      forall h | h != Authorization ensures h in out <==> h in headers {
      }
      if HasCredentialHeader(headers) {
        var i :| 0 <= i < |headers| && headers[i].Credential?;
        assert headers[i] in out;
      }
      if HasCredentialHeader(out) {
        var i :| 0 <= i < |out| && out[i].Credential?;
        assert out[i] in headers;
      }
    }
  }

  lemma {:induction false} WithoutTwice(headers: seq<Header>)
    ensures WithoutAuthorization(WithoutAuthorization(headers)) == WithoutAuthorization(headers)
  {
    if headers != [] {
      WithoutTwice(headers[1..]);
    }
  }

  /** Credentials are sent along exactly as long as the chain has not left the first
      origin; a later return to it does not bring them back. All other headers stay. */
  lemma {:induction false} CredentialsStayWithTheFirstOrigin(world: nat -> Exchange, sent: seq<Request>, k: nat)
    requires Chain(world, sent) && k < |sent|
    ensures sent[k].auth <==> sent[0].auth && SameOriginSoFar(sent, k)
    ensures sent[k].headers ==
      if SameOriginSoFar(sent, k) then sent[0].headers else WithoutAuthorization(sent[0].headers)
  {
    if k > 0 {
      CredentialsStayWithTheFirstOrigin(world, sent, k - 1);
      assert Hop(sent[k - 1], world(k - 1), sent[k - 1 + 1]);
      WithoutTwice(sent[0].headers);
      assert SameOriginSoFar(sent, k) <==> SameOriginSoFar(sent, k - 1) && sent[k - 1].url.origin == sent[k].url.origin;
    }
  }

  /** A request that carries credentials, and every request before it, went to the first origin. */
  lemma {:induction false} CredentialedRequestsStayHome(world: nat -> Exchange, sent: seq<Request>, k: nat)
    requires Chain(world, sent) && k < |sent| && Carries(sent[k])
    ensures Carries(sent[0]) && SameOriginSoFar(sent, k)
  {
    CredentialsStayWithTheFirstOrigin(world, sent, k);
    WithoutKeepsOthers(sent[0].headers);
  }

  /** The JSON body is sent along exactly as long as the method stays the same. */
  lemma {:induction false} BodySurvivesIff(world: nat -> Exchange, sent: seq<Request>, k: nat)
    requires Chain(world, sent) && k < |sent|
    ensures sent[k].json <==> sent[0].json && forall j :: 0 <= j <= k ==> sent[j].verb == sent[0].verb
  {
    if k > 0 {
      BodySurvivesIff(world, sent, k - 1);
      assert Hop(sent[k - 1], world(k - 1), sent[k - 1 + 1]);
    }
  }

  /** Once a hop was followed, all requests are replayable: only idempotent methods, no
      credentials but Authorization, and no query parameters added again. */
  lemma {:induction false} FollowedRequestsAreReplayable(world: nat -> Exchange, sent: seq<Request>, k: nat)
    requires Chain(world, sent) && k < |sent| && |sent| > 1
    ensures Idempotent(sent[k].verb) && !HasCredentialHeader(sent[k].headers)
    ensures k > 0 ==> !sent[k].params && !sent[k].url.userinfo
  {
    assert Hop(sent[0], world(0), sent[0 + 1]);
    if k > 0 {
      FollowedRequestsAreReplayable(world, sent, k - 1);
      WithoutKeepsOthers(sent[k - 1].headers);
      assert Hop(sent[k - 1], world(k - 1), sent[k - 1 + 1]);
    }
  }

  /** What every followed redirect does: it answers with one of the five statuses and a place
      to go, the request before it was idempotent and without refused credentials, and the
      next goes to that place, as a GET after 302 and 303 unless it was a HEAD. */
  lemma {:induction false} NextRequestFollows(world: nat -> Exchange, sent: seq<Request>, k: nat)
    requires Chain(world, sent) && k + 1 < |sent|
    ensures
      var r, next := sent[k], sent[k + 1];
      && world(k).Answered? && world(k).answer.status in {301, 302, 303, 307, 308}
      && world(k).answer.location == To(next.url) && !next.url.userinfo
      && r.verb in {GET, HEAD, PUT, DELETE, OPTIONS, TRACE}
      && (forall h :: h in r.headers ==> !h.Credential?)
      && next.verb == if world(k).answer.status in {302, 303} && r.verb != HEAD then GET else r.verb
  {
    assert Hop(sent[k], world(k), sent[k + 1]);
  }

  /** Why nothing more was sent: the kept answer leads nowhere or its request must not be
      repeated; policy refused the way or a credential on it; or there were too many. */
  lemma {:induction false} StoppedForAReason(world: nat -> Exchange, sent: seq<Request>, limit: nat, cap: nat,
      o: Outcome)
    requires sent != [] && StoppedBy(world, sent, true, limit, cap, o)
    ensures
      var r, e := sent[|sent| - 1], world(|sent| - 1);
      var repeatable := r.verb in {GET, HEAD, PUT, DELETE, OPTIONS, TRACE};
      && (o.Kept? ==>
            || e.answer.status !in {301, 302, 303, 307, 308} || e.answer.location.Missing? || e.answer.location.Blank?
            || !repeatable)
      && (o.PolicyError? ==>
            && e.answer.status in {301, 302, 303, 307, 308} && repeatable
            && var place := e.answer.location;
            place.Refused? || (place.To? && (place.url.userinfo || exists h :: h in r.headers && h.Credential?)))
      && (o.TooManyRedirects? ==>
            |sent| == limit + 1 && e.answer.status in {301, 302, 303, 307, 308} && e.answer.location.To? && repeatable)
      && (o.TransportError? <==> e.Failed?)
  {
  }

  /** Lengths add up over the chunks of a body, however it is cut. */
  lemma {:induction false} BytesAddUp(chunks: seq<nat>, more: seq<nat>)
    ensures Bytes(chunks + more) == Bytes(chunks) + Bytes(more)
    ensures |chunks| == 1 ==> Bytes(chunks) == chunks[0]
  {
    if more == [] {
      assert chunks + more == chunks;
    } else {
      var n := |more| - 1;
      BytesAddUp(chunks, more[..n]);
      assert (chunks + more)[..|chunks| + n] == chunks + more[..n];
    }
    if |chunks| == 1 {
      assert chunks[..0] == [];
    }
  }
}
