/**
  Building a client: where the token and the team come from, which
  construction path fails and how, and which request decorators the client
  installs. Reading `~/.now.json`, system properties and environment
  variables is replaced by a record of what those sources hold.
 */
module Clients {
  import opened JavaText
  import opened Decorators
  import opened Http

  /** The `token` and `team` entries of `~/.now.json`, as their `toString()` when present. */
  datatype NowJson = NowJson(token: Option<string>, team: Option<string>)

  /** `NOW_TOKEN` and `NOW_TEAM` in one lookup facility (system properties, or the environment). */
  datatype Variables = Variables(token: Option<string>, team: Option<string>)

  /** What the implicit construction can read: the file when it exists, the properties, the environment. */
  datatype Sources = Sources(nowJson: Option<NowJson>, properties: Variables, environment: Variables)

  datatype Credentials = Credentials(token: string, team: Option<string>)

  /** How the transport is configured: the decorator chain, or an HTTP client the caller supplied as is. */
  datatype Transport = Chain(decorators: seq<Decorator>) | Supplied

  datatype Client = Client(token: string, team: Option<string>, transport: Transport)

  /** The four `create` overloads. */
  datatype Construction =
    | Implicit
    | WithToken(token: string)
    | WithTokenAndTeam(token: string, team: Option<string>)
    | WithHttpClient

  const TOKEN_NOT_FOUND: Exception := IllegalState("Token not found")
  const BLANK_TOKEN: Exception := IllegalArgument("Token cannot be NULL or blank")

  /** The property value, unless it is null or blank, in which case the environment value. */
  function PropertyOrEnv(property: Option<string>, environment: Option<string>): Option<string> {
    if NullOrBlank(property) then environment else property
  }

  /** A blank value counts as absent. */
  function DropBlank(v: Option<string>): (r: Option<string>)
    ensures r.None? <==> NullOrBlank(v)
    ensures r.Some? ==> r == v
  {
    if NullOrBlank(v) then None else v
  }

  /** The raw token and team the implicit construction finds, before blank values are dropped. */
  function Found(src: Sources): (Option<string>, Option<string>) {
    match src.nowJson
    case Some(file) => (file.token, file.team)
    case None =>
      (PropertyOrEnv(src.properties.token, src.environment.token),
       PropertyOrEnv(src.properties.team, src.environment.team))
  }

  /**
    The no-argument constructor as written: the file when it exists,
    otherwise property then environment; blank values are absent; no token
    is fatal. When a team is found, the team stored is the token's string.
   */
  function ResolveImplicit(src: Sources): (r: Result<Credentials>)
    ensures r.Err? ==> r.error == TOKEN_NOT_FOUND
    ensures src.nowJson.Some? && !NullOrBlank(src.nowJson.value.token) ==>
              r.Ok? && r.value.token == src.nowJson.value.token.value
    ensures src.nowJson.Some? && NullOrBlank(src.nowJson.value.token) ==> r.Err?
    ensures r.Ok? ==> Trim(r.value.token) != ""
    ensures r.Ok? && r.value.team.Some? ==> r.value.team.value == r.value.token
  {
    var (tokenFound, teamFound) := Found(src);
    var token := DropBlank(tokenFound);
    var team := DropBlank(teamFound);
    if token.None? then Err(TOKEN_NOT_FOUND)
    else Ok(Credentials(token.value, if team.Some? then Some(token.value) else None))
  }

  /** The implicit resolution with the team resolved independently of the token. */
  function ResolveImplicitIntended(src: Sources): (r: Result<Credentials>)
    ensures r.Err? ==> r.error == TOKEN_NOT_FOUND
    ensures r.Ok? ==> Trim(r.value.token) != "" && !NullOrBlank(Some(r.value.token))
  {
    var (tokenFound, teamFound) := Found(src);
    var token := DropBlank(tokenFound);
    if token.None? then Err(TOKEN_NOT_FOUND)
    else Ok(Credentials(token.value, DropBlank(teamFound)))
  }

  /** The token constructors: a blank token is rejected, otherwise token and team are kept unchanged. */
  function ResolveExplicit(token: string, team: Option<string>): (r: Result<Credentials>)
    ensures r.Err? <==> Blank(token)
    ensures r.Err? ==> r.error == BLANK_TOKEN
    ensures r.Ok? ==> r.value == Credentials(token, team)
  {
    if Trim(token) == "" then Err(BLANK_TOKEN) else Ok(Credentials(token, team))
  }

  /** `buildNowService()`: headers, then authentication with the token, then the team (`NO_TEAM` for null). */
  function Build(c: Credentials): (client: Client)
    ensures client.token == c.token && client.team == c.team
    ensures client.transport == Chain(StandardChain(c.token, c.team))
  {
    Client(c.token, c.team, Chain([Headers, Authentication(c.token), TeamScope(Some(c.team.GetOr(NO_TEAM)))]))
  }

  /**
    The `create` overloads, as written: the implicit one resolves the
    credentials with `ResolveImplicit`, so a team found is replaced by the token.
   */
  function Create(how: Construction, src: Sources): (r: Result<Client>)
    ensures how.WithHttpClient? ==> r == Ok(Client("", None, Supplied))
    ensures !how.WithHttpClient? && r.Ok? ==> r.value.transport.Chain? && Trim(r.value.token) != ""
    ensures how.Implicit? ==> (r.Err? <==> ResolveImplicit(src).Err?)
    ensures how.Implicit? && r.Err? ==> r.error == TOKEN_NOT_FOUND
    ensures how.Implicit? && r.Ok? ==>
              Credentials(r.value.token, r.value.team) == ResolveImplicit(src).value
    ensures how.WithToken? ==> (r.Err? <==> Blank(how.token))
    ensures how.WithToken? && r.Ok? ==> r.value.token == how.token && r.value.team.None?
    ensures how.WithTokenAndTeam? ==> (r.Err? <==> Blank(how.token))
    ensures how.WithTokenAndTeam? && r.Ok? ==> r.value.token == how.token && r.value.team == how.team
    ensures (how.WithToken? || how.WithTokenAndTeam?) && r.Err? ==> r.error == BLANK_TOKEN
  {
    match how
    case Implicit =>
      (match ResolveImplicit(src)
       case Ok(c) => Ok(Build(c))
       case Err(e) => Err(e))
    case WithToken(token) =>
      (match ResolveExplicit(token, None)
       case Ok(c) => Ok(Build(c))
       case Err(e) => Err(e))
    case WithTokenAndTeam(token, team) =>
      (match ResolveExplicit(token, team)
       case Ok(c) => Ok(Build(c))
       case Err(e) => Err(e))
    case WithHttpClient => Ok(Client("", None, Supplied))
  }

  /** The `create` overloads with the implicit team resolved as intended; the other overloads are unchanged. */
  function CreateIntended(how: Construction, src: Sources): (r: Result<Client>)
    ensures !how.Implicit? ==> r == Create(how, src)
    ensures how.Implicit? ==> (r.Err? <==> Create(how, src).Err?)
    ensures how.Implicit? && r.Ok? ==>
              && r.value.token == Create(how, src).value.token
              && r.value.team == ResolveImplicitIntended(src).value.team
              && r.value.transport == Chain(StandardChain(r.value.token, r.value.team))
  {
    if how.Implicit? then
      match ResolveImplicitIntended(src)
      case Ok(c) => IntendedTeam(src); Ok(Build(c))
      case Err(e) => IntendedTeam(src); Err(e)
    else Create(how, src)
  }

  /**
    A built client sends every request with, in order, the content type,
    client name and bearer token headers appended, and a `team` query
    parameter exactly when its team is not blank.
   */
  lemma {:induction false} BuiltClientSends(c: Credentials, r: Request)
    ensures var out := Outgoing(Build(c).transport.decorators, r);
      && out.verb == r.verb && out.path == r.path
      && out.headers == r.headers + [CONTENT_TYPE, REQUESTED_BY, Pair(AUTHORIZATION, "Bearer " + c.token)]
      && (NullOrBlank(c.team) ==> out.query == r.query)
      && (!NullOrBlank(c.team) ==> out.query == r.query + [Pair(TEAM, Trim(c.team.value))])
  {
    StandardChainOutgoing(c.token, c.team, r);
  }

  /** When `~/.now.json` exists, properties and environment are never consulted. */
  lemma FileShadowsVariables(src: Sources, other: Sources)
    requires src.nowJson.Some? && other.nowJson == src.nowJson
    ensures ResolveImplicit(src) == ResolveImplicit(other)
  {
  }

  /** A file without a usable token ends in "Token not found", whatever the variables hold. */
  lemma FileWithoutToken(src: Sources)
    requires src.nowJson.Some? && NullOrBlank(src.nowJson.value.token)
    ensures ResolveImplicit(src) == Err(TOKEN_NOT_FOUND)
  {
  }

  /**
    Without the file the token is the property, or the environment value when
    the property is null or blank; with neither usable, resolution fails.
   */
  lemma VariablePrecedence(src: Sources)
    requires src.nowJson.None?
    ensures !NullOrBlank(src.properties.token) ==>
              ResolveImplicit(src).Ok? && ResolveImplicit(src).value.token == src.properties.token.value
    ensures NullOrBlank(src.properties.token) && !NullOrBlank(src.environment.token) ==>
              ResolveImplicit(src).Ok? && ResolveImplicit(src).value.token == src.environment.token.value
    ensures NullOrBlank(src.properties.token) && NullOrBlank(src.environment.token) ==>
              ResolveImplicit(src) == Err(TOKEN_NOT_FOUND)
  {
  }

  /** As written, a team found alongside a token is replaced by the token itself. */
  lemma TeamReplacedByToken()
    ensures var src := Sources(Some(NowJson(Some("tok"), Some("acme"))), Variables(None, None), Variables(None, None));
      && ResolveImplicit(src) == Ok(Credentials("tok", Some("tok")))
      && ResolveImplicitIntended(src) == Ok(Credentials("tok", Some("acme")))
  {
    TrimKeeps("tok");
    TrimKeeps("acme");
  }

  /**
    The intended resolution agrees with the written one on failures and
    tokens; its team is the first usable team of the same source, resolved
    the same way as the token.
   */
  lemma IntendedTeam(src: Sources)
    ensures ResolveImplicitIntended(src).Err? <==> ResolveImplicit(src).Err?
    ensures ResolveImplicitIntended(src).Ok? ==>
              && ResolveImplicitIntended(src).value.token == ResolveImplicit(src).value.token
              && ResolveImplicitIntended(src).value.team.Some? == ResolveImplicit(src).value.team.Some?
    ensures ResolveImplicitIntended(src).Ok? && src.nowJson.Some? ==>
              ResolveImplicitIntended(src).value.team == DropBlank(src.nowJson.value.team)
    ensures ResolveImplicitIntended(src).Ok? && src.nowJson.None? ==>
              ResolveImplicitIntended(src).value.team ==
                DropBlank(PropertyOrEnv(src.properties.team, src.environment.team))
  {
  }

  /** Token constructors install exactly the three decorators, in order, around the given credentials. */
  lemma ExplicitConstruction(token: string, team: Option<string>, src: Sources)
    requires !Blank(token)
    ensures Create(WithTokenAndTeam(token, team), src)
            == Ok(Client(token, team, Chain([Headers, Authentication(token), TeamScope(Some(team.GetOr(NO_TEAM)))])))
    ensures Create(WithToken(token), src) == Ok(Client(token, None, Chain([Headers, Authentication(token), TeamScope(Some(NO_TEAM))])))
    ensures Create(WithToken(token), src) == Create(WithTokenAndTeam(token, None), src)
  {
    var withTeam := ResolveExplicit(token, team);
    var withoutTeam := ResolveExplicit(token, None);
    assert withTeam == Ok(Credentials(token, team)) && withoutTeam == Ok(Credentials(token, None));
    assert Create(WithTokenAndTeam(token, team), src) == Ok(Build(withTeam.value));
    assert Create(WithToken(token), src) == Ok(Build(withoutTeam.value));
  }

  /** A blank explicit token is always rejected, whichever token constructor is used. */
  lemma BlankTokenRejected(token: string, team: Option<string>, src: Sources)
    requires Blank(token)
    ensures Create(WithToken(token), src) == Err(BLANK_TOKEN)
    ensures Create(WithTokenAndTeam(token, team), src) == Err(BLANK_TOKEN)
  {
  }
}
