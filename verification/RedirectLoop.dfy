/**
 * The outbound HTTP proxy: authorising a URL, pinning the addresses of its host, and following
 * redirects. The resolver, the transport, the hop hook, URL parsing and joining, and the deadline are
 * outside the model: they are functions a `World` supplies, free to answer each call differently.
 */
module RedirectLoop {
  import opened Collections
  import opened Sorting

  const MAX_REDIRECTS: nat := 5

  type Address = nat
  type Host = string

  datatype Method = Get | Head | Post | Put | Patch | Delete | OtherMethod

  /** A parsed request URL; `text` is what it prints as. */
  datatype Url = Url(text: string, https: bool, host: Host, port: nat)

  datatype PinnedTarget = PinnedTarget(url: Url, addresses: seq<Address>)

  datatype PolicyError =
    | InvalidUrl
    | HostNotAllowed
    | ResolveFailed
    | BlockedAddress
    | RedirectHostChanged
    | DnsRebinding

  /** Failures reported by the surroundings: deadline, transport, hook, header, framing and size checks. */
  datatype Refusal = Refusal(code: nat)

  datatype HttpError =
    | Refused(refusal: Refusal)
    | MethodNotAllowed
    | TooManyRedirects
    | InvalidRedirect
    | Policy(error: PolicyError)

  /** A response that passed its checks; `location` is its single readable Location header, if any. */
  datatype Response = Response(status: nat, location: Option<string>, body: seq<Byte>)

  datatype Policies = Policies(allowed: set<Host>, fixtures: map<Host, Address>, isGlobal: Address -> bool, isLoopback: Address -> bool)

  datatype World = World(
    parse: string -> Option<Url>,
    join: (Url, string) -> Option<string>,
    resolve: (nat, Host) -> Option<seq<Address>>,
    admit: Option<Refusal>,
    authorizing: nat -> Option<Refusal>,
    prepare: (nat, PinnedTarget) -> Option<Refusal>,
    exchange: (nat, PinnedTarget) -> Result<Response, Refusal>,
    deliver: (nat, Response) -> Result<Response, Refusal>)

  // ---- Pinned addresses ----

  predicate AddressLeq(a: Address, b: Address) {
    a <= b
  }

  /** Drop an element equal to the one before it. */
  function Dedup(s: seq<Address>): (r: seq<Address>)
    ensures forall x :: x in r <==> x in s
    ensures s != [] ==> r != [] && r[0] == s[0]
  {
    if |s| < 2 then s
    else
      assert s == [s[0]] + s[1..];
      if s[0] == s[1] then Dedup(s[1..]) else [s[0]] + Dedup(s[1..])
  }

  /** Sorted without repetition, as the address list is kept. */
  function Canonical(s: seq<Address>): (r: seq<Address>) {
    Dedup(Sort(AddressLeq, s))
  }

  ghost predicate Ascending(s: seq<Address>) {
    forall i, j :: 0 <= i < j < |s| ==> s[i] < s[j]
  }

  lemma {:induction false} DedupAscending(s: seq<Address>)
    requires SortedBy(AddressLeq, s)
    ensures Ascending(Dedup(s))
  {
    if |s| >= 2 {
      DedupAscending(s[1..]);
      if s[0] != s[1] {
        forall x | x in Dedup(s[1..]) ensures s[0] < x {
          var i :| 1 <= i < |s| && s[i] == x;
          assert AddressLeq(s[0], s[1]) && (i == 1 || AddressLeq(s[1], s[i]));
        }
      }
    }
  }

  lemma CanonicalFacts(s: seq<Address>)
    ensures Ascending(Canonical(s))
    ensures forall x :: x in Canonical(s) <==> x in s
  {
    SortSorted(AddressLeq, s);
    DedupAscending(Sort(AddressLeq, s));
    SameElements(s, Sort(AddressLeq, s));
  }

  function AddressSet(s: seq<Address>): (r: set<Address>) {
    set x | x in s
  }

  lemma AscendingBySet(a: seq<Address>, b: seq<Address>)
    requires Ascending(a) && Ascending(b) && AddressSet(a) == AddressSet(b)
    ensures a == b
  {
    forall x ensures x in a <==> x in b {
      assert x in a <==> x in AddressSet(a);
      assert x in b <==> x in AddressSet(b);
    }
    DistinctSameMultiset(a, b);
    SortedUnique(AddressLeq, a, b);
  }

  /** The canonical list depends on the set of addresses alone: order and repetition are lost. */
  lemma CanonicalBySet(s: seq<Address>, t: seq<Address>)
    ensures Canonical(s) == Canonical(t) <==> AddressSet(s) == AddressSet(t)
  {
    CanonicalFacts(s);
    CanonicalFacts(t);
    assert AddressSet(Canonical(s)) == AddressSet(s);
    assert AddressSet(Canonical(t)) == AddressSet(t);
    if AddressSet(s) == AddressSet(t) {
      AscendingBySet(Canonical(s), Canonical(t));
    }
  }

  // ---- Authorising a URL ----

  predicate AddressAllowed(p: Policies, host: Host, a: Address) {
    p.isGlobal(a) || (host in p.fixtures && p.isLoopback(a))
  }

  /** What the host resolves to: the fixture's address, or what the resolver says in this call. */
  function Resolved(w: World, p: Policies, call: nat, host: Host): (answer: Option<seq<Address>>) {
    if host in p.fixtures then Some([p.fixtures[host]]) else w.resolve(call, host)
  }

  function ResolveAndValidate(w: World, p: Policies, call: nat, host: Host): (r: Result<seq<Address>, PolicyError>)
    ensures r.Ok? ==> r.value != [] && Ascending(r.value) && forall a :: a in r.value ==> AddressAllowed(p, host, a)
  {
    var answer := Resolved(w, p, call, host);
    if answer.None? then Err(ResolveFailed)
    else if answer.value == [] || exists a :: a in answer.value && !AddressAllowed(p, host, a) then Err(BlockedAddress)
    else
      CanonicalFacts(answer.value);
      assert answer.value[0] in Canonical(answer.value);
      Ok(Canonical(answer.value))
  }

  /** What holds of every target the policy lets through. */
  ghost predicate Permitted(p: Policies, t: PinnedTarget) {
    && t.url.host in p.allowed
    && (t.url.https || t.url.host in p.fixtures)
    && t.addresses != []
    && Ascending(t.addresses)
    && forall a :: a in t.addresses ==> AddressAllowed(p, t.url.host, a)
  }

  function AuthorizeUrl(w: World, p: Policies, call: nat, raw: string): (r: Result<PinnedTarget, PolicyError>)
    ensures r.Ok? ==> Permitted(p, r.value) && w.parse(raw) == Some(r.value.url)
  {
    match w.parse(raw)
    case None => Err(InvalidUrl)
    case Some(url) =>
      if !url.https && url.host !in p.fixtures then Err(InvalidUrl)
      else if url.host !in p.allowed then Err(HostNotAllowed)
      else match ResolveAndValidate(w, p, call, url.host)
        case Err(e) => Err(e)
        case Ok(addresses) => Ok(PinnedTarget(url, addresses))
  }

  /** A URL is authorised exactly when all of this holds, and then at the set of addresses its host resolved to. */
  lemma AuthorizeExact(w: World, p: Policies, call: nat, raw: string)
    ensures AuthorizeUrl(w, p, call, raw).Ok? <==>
              (w.parse(raw).Some?
               && var url := w.parse(raw).value;
                  && url.host in p.allowed
                  && (url.https || url.host in p.fixtures)
                  && Resolved(w, p, call, url.host).Some?
                  && Resolved(w, p, call, url.host).value != []
                  && forall a :: a in Resolved(w, p, call, url.host).value ==> AddressAllowed(p, url.host, a))
    ensures AuthorizeUrl(w, p, call, raw).Ok? ==>
              AddressSet(AuthorizeUrl(w, p, call, raw).value.addresses) == AddressSet(Resolved(w, p, call, w.parse(raw).value.host).value)
  {
    if AuthorizeUrl(w, p, call, raw).Ok? {
      var answer := Resolved(w, p, call, w.parse(raw).value.host).value;
      CanonicalFacts(answer);
      assert AddressSet(Canonical(answer)) == AddressSet(answer);
    }
  }

  /** A redirect is let through only to the same host at the very same list of addresses. */
  function AuthorizeRedirect(w: World, p: Policies, call: nat, pinned: PinnedTarget, raw: string): (r: Result<PinnedTarget, PolicyError>)
    requires Permitted(p, pinned)
    ensures r.Ok? ==> Permitted(p, r.value) && w.parse(raw) == Some(r.value.url)
    ensures r.Ok? ==> r.value.url.host == pinned.url.host && r.value.addresses == pinned.addresses
    ensures AuthorizeUrl(w, p, call, raw).Err? ==> r == Err(AuthorizeUrl(w, p, call, raw).error)
    ensures r.Err? && AuthorizeUrl(w, p, call, raw).Ok? ==>
              (AuthorizeUrl(w, p, call, raw).value.url.host != pinned.url.host
               || AuthorizeUrl(w, p, call, raw).value.addresses != pinned.addresses)
  {
    match AuthorizeUrl(w, p, call, raw)
    case Err(e) => Err(e)
    case Ok(t) =>
      if t.url.host != pinned.url.host then Err(RedirectHostChanged)
      else if AddressSet(t.addresses) != AddressSet(pinned.addresses) then Err(DnsRebinding)
      else
        AscendingBySet(t.addresses, pinned.addresses);
        Ok(t)
  }

  // ---- Following redirects ----

  predicate IsRedirect(status: nat) {
    status in {301, 302, 303, 307, 308}
  }

  predicate MethodAllowed(m: Method) {
    !m.OtherMethod?
  }

  /** One request handed to the transport. */
  datatype Hop = Hop(target: PinnedTarget, requestMethod: Method)

  /** An authorised hop, pinned to the host and addresses of the first target. */
  ghost predicate HopPinned(p: Policies, requestMethod: Method, first: PinnedTarget, h: Hop) {
    && Permitted(p, h.target)
    && h.requestMethod == requestMethod
    && h.target.url.host == first.url.host
    && h.target.addresses == first.addresses
  }

  ghost predicate HopsPinned(p: Policies, requestMethod: Method, first: PinnedTarget, hops: seq<Hop>) {
    forall h :: h in hops ==> HopPinned(p, requestMethod, first, h)
  }

  /** The answer to hop `k` is a redirect this request may follow, and it leads to `raw`. */
  ghost predicate Leads(w: World, requestMethod: Method, hops: seq<Hop>, k: nat, raw: string)
    requires k < |hops|
  {
    var answer := w.exchange(k, hops[k].target);
    && answer.Ok?
    && IsRedirect(answer.value.status)
    && (answer.value.status in {301, 302, 303} ==> requestMethod in {Get, Head})
    && answer.value.location.Some?
    && w.join(hops[k].target.url, answer.value.location.value) == Some(raw)
  }

  ghost predicate LastLeads(w: World, requestMethod: Method, hops: seq<Hop>, raw: string)
    requires hops != []
  {
    Leads(w, requestMethod, hops, |hops| - 1, raw)
  }

  /** Hop `k + 1` is where the answer to hop `k` redirects. */
  ghost predicate Follows(w: World, requestMethod: Method, hops: seq<Hop>, k: nat)
    requires k + 1 < |hops|
  {
    exists raw :: Leads(w, requestMethod, hops, k, raw) && w.parse(raw) == Some(hops[k + 1].target.url)
  }

  ghost predicate HopsChained(w: World, requestMethod: Method, hops: seq<Hop>) {
    forall k :: 0 <= k < |hops| - 1 ==> Follows(w, requestMethod, hops, k)
  }

  lemma ChainGrows(w: World, requestMethod: Method, hops: seq<Hop>, next: Hop, raw: string)
    requires HopsChained(w, requestMethod, hops) && hops != []
    requires LastLeads(w, requestMethod, hops, raw) && w.parse(raw) == Some(next.target.url)
    ensures HopsChained(w, requestMethod, hops + [next])
  {
    var grown := hops + [next];
    forall k | 0 <= k < |grown| - 1 ensures Follows(w, requestMethod, grown, k) {
      if k < |hops| - 1 {
        assert Follows(w, requestMethod, hops, k);
        var r :| Leads(w, requestMethod, hops, k, r) && w.parse(r) == Some(hops[k + 1].target.url);
        assert Leads(w, requestMethod, grown, k, r);
      } else {
        assert Leads(w, requestMethod, grown, k, raw);
      }
    }
  }

  /** Why a redirect could not be followed to a next target. */
  ghost predicate CannotFollow(w: World, p: Policies, initial: PinnedTarget, hops: seq<Hop>, requestMethod: Method, error: HttpError)
    requires Permitted(p, initial) && hops != []
  {
    match error
    case InvalidRedirect => forall raw :: !LastLeads(w, requestMethod, hops, raw)
    case Refused(refusal) => w.authorizing(|hops|) == Some(refusal)
    case Policy(e) =>
      exists raw :: LastLeads(w, requestMethod, hops, raw) && AuthorizeRedirect(w, p, |hops|, initial, raw) == Err(e)
    case _ => false
  }

  /** The part of the loop that turns a redirect into the next target. */
  method NextTarget(w: World, p: Policies, initial: PinnedTarget, hops: seq<Hop>, requestMethod: Method)
    returns (r: Result<PinnedTarget, HttpError>, ghost raw: string)
    requires Permitted(p, initial) && hops != []
    requires w.exchange(|hops| - 1, hops[|hops| - 1].target).Ok?
    requires IsRedirect(w.exchange(|hops| - 1, hops[|hops| - 1].target).value.status)
    ensures r.Ok? ==> HopPinned(p, requestMethod, initial, Hop(r.value, requestMethod))
    ensures r.Ok? ==> LastLeads(w, requestMethod, hops, raw) && w.parse(raw) == Some(r.value.url)
    ensures r.Err? ==> CannotFollow(w, p, initial, hops, requestMethod, r.error)
  {
    raw := "";
    var call := |hops|;
    var target := hops[|hops| - 1].target;
    var response := w.exchange(|hops| - 1, target).value;
    if response.status in {301, 302, 303} && requestMethod !in {Get, Head} {
      return Err(InvalidRedirect), raw;
    }
    if response.location.None? || w.join(target.url, response.location.value).None? {
      return Err(InvalidRedirect), raw;
    }
    var joined := w.join(target.url, response.location.value).value;
    if w.authorizing(call).Some? {
      return Err(Refused(w.authorizing(call).value)), raw;
    }
    var next := AuthorizeRedirect(w, p, call, initial, joined);
    assert LastLeads(w, requestMethod, hops, joined);
    if next.Err? {
      return Err(Policy(next.error)), raw;
    }
    return Ok(next.value), joined;
  }

  /** Hop `k` got an answer, and the answer is a redirect. */
  ghost predicate Redirected(w: World, hops: seq<Hop>, k: nat) {
    && k < |hops|
    && w.exchange(k, hops[k].target).Ok?
    && IsRedirect(w.exchange(k, hops[k].target).value.status)
  }

  /** `response` is what the last hop's answer, not a redirect, is delivered as. */
  ghost predicate Delivered(w: World, hops: seq<Hop>, response: Response) {
    && hops != []
    && w.exchange(|hops| - 1, hops[|hops| - 1].target).Ok?
    && !Redirected(w, hops, |hops| - 1)
    && w.deliver(|hops| - 1, w.exchange(|hops| - 1, hops[|hops| - 1].target).value) == Ok(response)
  }

  /** The last answer leads to `t`, and the hop hook refuses to send there. */
  ghost predicate HookRefuses(w: World, p: Policies, requestMethod: Method, initial: PinnedTarget, hops: seq<Hop>,
                              raw: string, t: PinnedTarget, refusal: Refusal)
    requires hops != []
  {
    && HopPinned(p, requestMethod, initial, Hop(t, requestMethod))
    && LastLeads(w, requestMethod, hops, raw)
    && w.parse(raw) == Some(t.url)
    && w.prepare(|hops|, t) == Some(refusal)
  }

  /** Why a request that reached the transport ended with `error`. */
  ghost predicate Explained(w: World, p: Policies, requestMethod: Method, initial: PinnedTarget, hops: seq<Hop>, error: HttpError)
    requires Permitted(p, initial) && hops != []
  {
    var last := |hops| - 1;
    var answer := w.exchange(last, hops[last].target);
    if answer.Err? then
      error == Refused(answer.error)
    else if !IsRedirect(answer.value.status) then
      w.deliver(last, answer.value).Err? && error == Refused(w.deliver(last, answer.value).error)
    else if last >= MAX_REDIRECTS then
      error == TooManyRedirects
    else
      || CannotFollow(w, p, initial, hops, requestMethod, error)
      || (error.Refused? && exists raw, t :: HookRefuses(w, p, requestMethod, initial, hops, raw, t, error.refusal))
  }

  /** What a request that was let through to `initial` has done and found when it ends with `r`. */
  ghost predicate Outcome(w: World, p: Policies, requestMethod: Method, initial: PinnedTarget,
                          hops: seq<Hop>, r: Result<Response, HttpError>)
    requires Permitted(p, initial)
  {
    && |hops| <= MAX_REDIRECTS + 1
    && HopsPinned(p, requestMethod, initial, hops)
    && HopsChained(w, requestMethod, hops)
    && (hops != [] ==> hops[0].target == initial)
    && match r {
       case Ok(response) => Delivered(w, hops, response)
       case Err(error) =>
         if hops == [] then error.Refused? && w.prepare(0, initial) == Some(error.refusal)
         else Explained(w, p, requestMethod, initial, hops, error)
       }
  }

  /** The loop. */
  method FollowRedirects(w: World, p: Policies, requestMethod: Method, initial: PinnedTarget)
    returns (r: Result<Response, HttpError>, hops: seq<Hop>)
    requires Permitted(p, initial)
    ensures Outcome(w, p, requestMethod, initial, hops, r)
  {
    hops := [];
    var target := initial;
    var redirects: nat := 0;
    ghost var raw := "";
    while true
      invariant redirects == |hops| <= MAX_REDIRECTS
      invariant HopPinned(p, requestMethod, initial, Hop(target, requestMethod))
      invariant HopsPinned(p, requestMethod, initial, hops)
      invariant if hops == [] then target == initial else hops[0].target == initial
      invariant HopsChained(w, requestMethod, hops)
      invariant hops != [] ==> LastLeads(w, requestMethod, hops, raw) && w.parse(raw) == Some(target.url)
      decreases MAX_REDIRECTS - redirects
    {
      if w.prepare(redirects, target).Some? {
        assert hops != [] ==> HookRefuses(w, p, requestMethod, initial, hops, raw, target, w.prepare(redirects, target).value);
        return Err(Refused(w.prepare(redirects, target).value)), hops;
      }
      var hop := Hop(target, requestMethod);
      if hops != [] { ChainGrows(w, requestMethod, hops, hop, raw); }
      hops := hops + [hop];
      var answer := w.exchange(redirects, target);
      if answer.Err? {
        return Err(Refused(answer.error)), hops;
      }
      if !IsRedirect(answer.value.status) {
        var visible := w.deliver(redirects, answer.value);
        if visible.Err? {
          return Err(Refused(visible.error)), hops;
        }
        return Ok(visible.value), hops;
      }
      if redirects >= MAX_REDIRECTS {
        return Err(TooManyRedirects), hops;
      }
      var next;
      next, raw := NextTarget(w, p, initial, hops, requestMethod);
      if next.Err? {
        return Err(next.error), hops;
      }
      target := next.value;
      redirects := redirects + 1;
    }
  }

  /**
   * Whatever the resolver and the remote side answer, a request reaches the transport at most six
   * times, every time with the same method, at one host and one list of allowed addresses, and each
   * hop after the first is the target of the redirect before it. Every error has its cause.
   */
  method Execute(w: World, p: Policies, rawUrl: string, requestMethod: Method)
    returns (r: Result<Response, HttpError>, hops: seq<Hop>)
    ensures AuthorizeUrl(w, p, 0, rawUrl).Ok? && w.admit.None? && MethodAllowed(requestMethod) && w.authorizing(0).None?
            ==> Outcome(w, p, requestMethod, AuthorizeUrl(w, p, 0, rawUrl).value, hops, r)
    ensures hops != [] ==> AuthorizeUrl(w, p, 0, rawUrl) == Ok(hops[0].target) && MethodAllowed(requestMethod) && w.admit.None? && w.authorizing(0).None?
    ensures w.admit.Some? ==> r == Err(Refused(w.admit.value))
    ensures w.admit.None? && !MethodAllowed(requestMethod) ==> r == Err(MethodNotAllowed)
    ensures w.admit.None? && MethodAllowed(requestMethod) && w.authorizing(0).Some? ==> r == Err(Refused(w.authorizing(0).value))
    ensures w.admit.None? && MethodAllowed(requestMethod) && w.authorizing(0).None? && AuthorizeUrl(w, p, 0, rawUrl).Err?
            ==> r == Err(Policy(AuthorizeUrl(w, p, 0, rawUrl).error))
  {
    hops := [];
    if w.admit.Some? {
      return Err(Refused(w.admit.value)), hops;
    }
    if !MethodAllowed(requestMethod) {
      return Err(MethodNotAllowed), hops;
    }
    if w.authorizing(0).Some? {
      return Err(Refused(w.authorizing(0).value)), hops;
    }
    var authorized := AuthorizeUrl(w, p, 0, rawUrl);
    if authorized.Err? {
      return Err(Policy(authorized.error)), hops;
    }
    r, hops := FollowRedirects(w, p, requestMethod, authorized.value);
  }

  /** Giving up on redirects happens after exactly six exchanges, each answered by a redirect. */
  lemma GivesUpAfterSix(w: World, p: Policies, requestMethod: Method, initial: PinnedTarget, hops: seq<Hop>,
                        r: Result<Response, HttpError>)
    requires Permitted(p, initial) && Outcome(w, p, requestMethod, initial, hops, r)
    ensures r == Err(TooManyRedirects) <==> |hops| == MAX_REDIRECTS + 1 && Redirected(w, hops, MAX_REDIRECTS)
    ensures r == Err(TooManyRedirects) ==> forall k :: 0 <= k <= MAX_REDIRECTS ==> Redirected(w, hops, k)
  {
    if r == Err(TooManyRedirects) {
      forall k | 0 <= k < MAX_REDIRECTS ensures Redirected(w, hops, k) {
        assert Follows(w, requestMethod, hops, k);
      }
    }
  }
}
