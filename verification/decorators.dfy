/**
  The three request interceptors, as pure transforms of a request value,
  and the chain that threads a request through them: each stage passes
  exactly one request on (`proceed`), the last one goes over the network.
 */
module Decorators {
  import opened JavaText
  import opened Http

  const CONTENT_TYPE: Pair := Pair("Content-Type", "application/json")
  /** `X-Requested-By` carries the canonical class name of the client. */
  const REQUESTED_BY: Pair := Pair("X-Requested-By", "org.rm3l.now4j.NowClient")
  const AUTHORIZATION: string := "Authorization"
  const TEAM: string := "team"
  /** The sentinel team that disables team scoping. */
  const NO_TEAM: string := ""

  datatype Decorator =
    | Headers
    | Authentication(token: string)
    | TeamScope(team: Option<string>)

  /** Same verb, path and query: only headers may differ. */
  predicate SameTarget(r: Request, r': Request) {
    r'.verb == r.verb && r'.path == r.path && r'.query == r.query
  }

  /** The headers of `r` are kept, in order, at the front of `r'`. */
  predicate KeepsHeaders(r: Request, r': Request) {
    |r.headers| <= |r'.headers| && r'.headers[..|r.headers|] == r.headers
  }

  /** `Request.Builder.addHeader`: appends, never replaces. */
  function AddHeader(r: Request, h: Pair): (r': Request)
    ensures SameTarget(r, r') && KeepsHeaders(r, r') && |r'.headers| == |r.headers| + 1
    ensures Values(r'.headers, h.name) == Values(r.headers, h.name) + [h.value]
    ensures forall n :: n != h.name ==> Values(r'.headers, n) == Values(r.headers, n)
  {
    forall n ensures Values(r.headers + [h], n) == Values(r.headers, n) + (if h.name == n then [h.value] else []) {
      ValuesSnoc(r.headers, h, n);
    }
    r.(headers := r.headers + [h])
  }

  function AddHeaders(r: Request): (r': Request)
    ensures SameTarget(r, r') && KeepsHeaders(r, r')
    ensures Values(r'.headers, CONTENT_TYPE.name) == Values(r.headers, CONTENT_TYPE.name) + [CONTENT_TYPE.value]
    ensures Values(r'.headers, REQUESTED_BY.name) == Values(r.headers, REQUESTED_BY.name) + [REQUESTED_BY.value]
    ensures forall n :: n != CONTENT_TYPE.name && n != REQUESTED_BY.name ==>
              Values(r'.headers, n) == Values(r.headers, n)
  {
    var r1 := AddHeader(r, CONTENT_TYPE);
    assert r1.headers[..|r.headers|] == r.headers;
    var r2 := AddHeader(r1, REQUESTED_BY);
    assert r2.headers[..|r.headers|] == r1.headers[..|r1.headers|][..|r.headers|];
    r2
  }

  function Authenticate(token: string, r: Request): (r': Request)
    ensures SameTarget(r, r') && KeepsHeaders(r, r')
    ensures Values(r'.headers, AUTHORIZATION) == Values(r.headers, AUTHORIZATION) + ["Bearer " + token]
    ensures forall n :: n != AUTHORIZATION ==> Values(r'.headers, n) == Values(r.headers, n)
  {
    AddHeader(r, Pair(AUTHORIZATION, "Bearer " + token))
  }

  /** The team a team interceptor scopes to: the trimmed team, unless it is null or trims to `NO_TEAM`. */
  function EffectiveTeam(team: Option<string>): (t: Option<string>)
    ensures t.Some? <==> !NullOrBlank(team)
    ensures t.Some? ==> t.value == Trim(team.value) && t.value != NO_TEAM
  {
    match team
    case None => None
    case Some(name) => if Trim(name) == NO_TEAM then None else Some(Trim(name))
  }

  function ScopeToTeam(team: Option<string>, r: Request): (r': Request)
    ensures r'.verb == r.verb && r'.path == r.path && r'.headers == r.headers
    ensures EffectiveTeam(team).None? ==> r' == r
    ensures EffectiveTeam(team).Some? ==>
              && |r.query| < |r'.query| && r'.query[..|r.query|] == r.query
              && Values(r'.query, TEAM) == Values(r.query, TEAM) + [EffectiveTeam(team).value]
              && forall n :: n != TEAM ==> Values(r'.query, n) == Values(r.query, n)
  {
    match EffectiveTeam(team)
    case None => r
    case Some(t) =>
      forall n ensures Values(r.query + [Pair(TEAM, t)], n) == Values(r.query, n) + (if n == TEAM then [t] else []) {
        ValuesSnoc(r.query, Pair(TEAM, t), n);
      }
      r.(query := r.query + [Pair(TEAM, t)])
  }

  /** The request a decorator passes to `proceed`. */
  function Apply(d: Decorator, r: Request): Request {
    match d
    case Headers => AddHeaders(r)
    case Authentication(token) => Authenticate(token, r)
    case TeamScope(team) => ScopeToTeam(team, r)
  }

  /**
    The requests seen along the chain: the original request, then the one
    each decorator passed on, in order. One `proceed` per decorator.
   */
  function Trace(ds: seq<Decorator>, r: Request): (rs: seq<Request>)
    ensures |rs| == |ds| + 1 && rs[0] == r
    ensures forall i :: 0 <= i < |ds| ==> rs[i + 1] == Apply(ds[i], rs[i])
  {
    if ds == [] then [r] else [r] + Trace(ds[1..], Apply(ds[0], r))
  }

  /** The request that leaves the chain and goes over the network: the last one of the trace. */
  function Outgoing(ds: seq<Decorator>, r: Request): (out: Request)
    ensures out == Trace(ds, r)[|ds|]
  {
    if ds == [] then r else Outgoing(ds[1..], Apply(ds[0], r))
  }

  /** The chain `NowClient` installs for a token and an optional team: headers, then auth, then team. */
  function StandardChain(token: string, team: Option<string>): seq<Decorator> {
    [Headers, Authentication(token), TeamScope(Some(team.GetOr(NO_TEAM)))]
  }

  /** A null team and the `NO_TEAM` sentinel both leave requests unscoped. */
  lemma NoTeamIsNoScope(r: Request)
    ensures ScopeToTeam(None, r) == r
    ensures ScopeToTeam(Some(NO_TEAM), r) == r
  {
  }

  /**
    The outgoing request of the standard chain: the original target plus,
    in order, content type, client name and bearer token headers, and a
    `team` parameter exactly when the team is not blank.
   */
  lemma {:induction false} StandardChainOutgoing(token: string, team: Option<string>, r: Request)
    ensures var out := Outgoing(StandardChain(token, team), r);
      && out.verb == r.verb && out.path == r.path
      && out.headers == r.headers + [CONTENT_TYPE, REQUESTED_BY, Pair(AUTHORIZATION, "Bearer " + token)]
      && (NullOrBlank(team) ==> out.query == r.query)
      && (!NullOrBlank(team) ==> out.query == r.query + [Pair(TEAM, Trim(team.value))])
  {
    var r2 := Authenticate(token, AddHeaders(r));
    OutgoingOfThree(Headers, Authentication(token), TeamScope(Some(team.GetOr(NO_TEAM))), r);
    HeaderStages(token, r);
    TeamStage(team, r2);
  }

  /** A chain of three decorators applies them in order. */
  lemma {:induction false} OutgoingOfThree(d0: Decorator, d1: Decorator, d2: Decorator, r: Request)
    ensures Outgoing([d0, d1, d2], r) == Apply(d2, Apply(d1, Apply(d0, r)))
  {
    var ds := [d0, d1, d2];
    assert ds[1..] == [d1, d2] && ds[1..][1..] == [d2] && ds[1..][1..][1..] == [];
  }

  /** The header and authentication stages append exactly their three headers. */
  lemma {:induction false} HeaderStages(token: string, r: Request)
    ensures Authenticate(token, AddHeaders(r)) ==
              r.(headers := r.headers + [CONTENT_TYPE, REQUESTED_BY, Pair(AUTHORIZATION, "Bearer " + token)])
  {
    assert r.headers + [CONTENT_TYPE] + [REQUESTED_BY] + [Pair(AUTHORIZATION, "Bearer " + token)]
           == r.headers + [CONTENT_TYPE, REQUESTED_BY, Pair(AUTHORIZATION, "Bearer " + token)];
  }

  /** The team stage of the standard chain adds the trimmed team exactly when it is not blank. */
  lemma {:induction false} TeamStage(team: Option<string>, r: Request)
    ensures var r' := ScopeToTeam(Some(team.GetOr(NO_TEAM)), r);
      && r'.verb == r.verb && r'.path == r.path && r'.headers == r.headers
      && (NullOrBlank(team) ==> r'.query == r.query)
      && (!NullOrBlank(team) ==> r'.query == r.query + [Pair(TEAM, Trim(team.value))])
  {
    assert EffectiveTeam(Some(team.GetOr(NO_TEAM))) == EffectiveTeam(team);
  }

  /** The team decorator commutes with the header decorators: the three compose independently. */
  lemma TeamScopeCommutes(d: Decorator, team: Option<string>, r: Request)
    requires !d.TeamScope?
    ensures Apply(d, ScopeToTeam(team, r)) == ScopeToTeam(team, Apply(d, r))
  {
  }

  /** Changing the token of the standard chain changes the `Authorization` header value and nothing else. */
  lemma {:induction false} TokenOnlyChangesAuthorization(t1: string, t2: string, team: Option<string>, r: Request)
    ensures var a := Outgoing(StandardChain(t1, team), r);
      var b := Outgoing(StandardChain(t2, team), r);
      && SameTarget(a, b)
      && |a.headers| == |b.headers|
      && forall i :: 0 <= i < |a.headers| && a.headers[i] != b.headers[i] ==>
           a.headers[i].name == AUTHORIZATION && b.headers[i].name == AUTHORIZATION
  {
    StandardChainOutgoing(t1, team, r);
    StandardChainOutgoing(t2, team, r);
  }

  /** Without the team decorator no `team` parameter is added, whatever the configured team. */
  lemma {:induction false} WithoutTeamScope(token: string, team: Option<string>, r: Request)
    requires !NullOrBlank(team)
    ensures Values(Outgoing(StandardChain(token, team), r).query, TEAM) == Values(r.query, TEAM) + [Trim(team.value)]
    ensures Values(Outgoing([Headers, Authentication(token)], r).query, TEAM) == Values(r.query, TEAM)
  {
    StandardChainOutgoing(token, team, r);
    ValuesAppend(r.query, [Pair(TEAM, Trim(team.value))], TEAM);
    var ds := [Headers, Authentication(token)];
    assert ds[1..][1..] == [];
    assert Outgoing(ds, r) == Authenticate(token, AddHeaders(r)) by {
      assert Outgoing(ds, r) == Outgoing(ds[1..], AddHeaders(r));
    }
  }
}
