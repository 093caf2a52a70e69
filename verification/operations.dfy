/**
  The client facade: for each operation, the call it prepares (endpoint,
  path arguments, body), the request that leaves the decorator chain, and
  how the exchange is turned into a result, in the blocking form (return
  or throw) and in the callback form (one notification).

  Bodies are decoded by the JSON library and stay abstract (type `B`); what
  the facade does with a decoded body is recorded by `Value`: the whole
  body, or one property read from it.
 */
module Operations {
  import opened JavaText
  import opened Http
  import Endpoints
  import Decorators
  import Clients
  import Domains
  import DomainRecords

  datatype Operation =
    | GetDeployments
    | GetDeployment(deploymentId: string)
    | CreateDeployment(files: map<string, string>)
    | DeleteDeployment(deploymentId: string)
    | GetFiles(deploymentId: string)
    | GetFileAsString(deploymentId: string, fileId: string)
    | GetFileAsInputStream(deploymentId: string, fileId: string)
    | GetDomains
    | AddDomain(name: string, isExternalDNS: bool)
    | DeleteDomain(name: string)
    | GetDomainRecords(name: string)
    | AddDomainRecord(name: string, record: DomainRecords.DomainRecord)
    | DeleteDomainRecord(domainName: string, recordId: string)
    | GetCertificates(commonName: string)
    | CreateCertificate(domains: seq<string>)
    | RenewCertificate(domains: seq<string>)
    | ReplaceCertificate(domains: seq<string>, ca: Option<string>, cert: Option<string>, key: Option<string>)
    | DeleteCertificate(commonName: string)
    | GetAliases
    | DeleteAlias(aliasId: string)
    | GetDeploymentAliases(deploymentId: string)
    | CreateDeploymentAlias(deploymentId: string, alias: string)
    | GetSecrets
    | CreateSecret(name: string, value: string)
    | RenameSecret(uidOrName: string, newName: string)
    | DeleteSecret(uidOrName: string)

  /** Request bodies. `renew` is unset (null) unless the operation sets it. */
  datatype Payload =
    | Files(files: map<string, string>)
    | NewDomain(domain: Domains.Domain)
    | NewRecord(data: DomainRecords.DomainRecord)
    | CertificateRequest(domains: seq<string>, renew: Option<bool>, ca: Option<string>, cert: Option<string>, key: Option<string>)
    | NewAlias(alias: string)
    | SecretRequest(name: string, value: Option<string>)

  /** One invocation of the service interface. */
  datatype Call = Call(endpoint: Endpoints.Endpoint, args: seq<string>, body: Option<Payload>)

  /** The properties the facade reads from a decoded body. */
  datatype Accessor =
    | DeploymentList | DomainList | RecordList | CertificateList | AliasList | SecretList
    | Uid | CreatedAt | Status | Text | ByteStream

  /** What an operation returns or hands to `onSuccess`. */
  datatype Value<B> =
    | Unit
    | Null
    | EmptyList
    | Whole(body: B)
    | Field(accessor: Accessor, of: B)

  /** What a successful response with a null body becomes. */
  datatype OnNull = EmptyListOnNull | NullOnNull | RejectNull | AcceptNull

  /** What a successful response with a body becomes. */
  datatype OnBody = Nothing | WholeBody | Project(accessor: Accessor)

  datatype Policy = Policy(onNull: OnNull, onBody: OnBody)

  /** Callback notifications. */
  datatype Event<B> = OnSuccess(value: Value<B>) | OnFailure(error: Exception)

  /** The service method each facade method calls. */
  function EndpointOf(op: Operation): Endpoints.Endpoint {
    match op
    case GetDeployments => Endpoints.GetDeployments
    case GetDeployment(_) => Endpoints.GetDeployment
    case CreateDeployment(_) => Endpoints.CreateDeployment
    case DeleteDeployment(_) => Endpoints.DeleteDeployment
    case GetFiles(_) => Endpoints.GetFiles
    case GetFileAsString(_, _) => Endpoints.GetFile
    case GetFileAsInputStream(_, _) => Endpoints.GetFile
    case GetDomains => Endpoints.GetDomains
    case AddDomain(_, _) => Endpoints.CreateDomain
    case DeleteDomain(_) => Endpoints.DeleteDomain
    case GetDomainRecords(_) => Endpoints.GetDomainRecords
    case AddDomainRecord(_, _) => Endpoints.CreateDomainRecord
    case DeleteDomainRecord(_, _) => Endpoints.DeleteDomainRecord
    case GetCertificates(_) => Endpoints.GetCertificates
    case CreateCertificate(_) => Endpoints.IssueCertificate
    case RenewCertificate(_) => Endpoints.CreateOrReplaceCertificate
    case ReplaceCertificate(_, _, _, _) => Endpoints.CreateOrReplaceCertificate
    case DeleteCertificate(_) => Endpoints.DeleteCertificate
    case GetAliases => Endpoints.GetAliases
    case DeleteAlias(_) => Endpoints.DeleteAlias
    case GetDeploymentAliases(_) => Endpoints.GetDeploymentAliases
    case CreateDeploymentAlias(_, _) => Endpoints.CreateDeploymentAliases
    case GetSecrets => Endpoints.GetSecrets
    case CreateSecret(_, _) => Endpoints.CreateSecret
    case RenameSecret(_, _) => Endpoints.EditSecret
    case DeleteSecret(_) => Endpoints.DeleteSecret
  }

  /** The `@Path` arguments each facade method passes, in parameter order. */
  function PathArguments(op: Operation): seq<string> {
    match op
    case GetDeployment(id) => [id]
    case DeleteDeployment(id) => [id]
    case GetFiles(id) => [id]
    case GetFileAsString(id, fileId) => [id, fileId]
    case GetFileAsInputStream(id, fileId) => [id, fileId]
    case DeleteDomain(name) => [name]
    case GetDomainRecords(name) => [name]
    case AddDomainRecord(name, _) => [name]
    case DeleteDomainRecord(name, recordId) => [name, recordId]
    case GetCertificates(cn) => [cn]
    case DeleteCertificate(cn) => [cn]
    case DeleteAlias(aliasId) => [aliasId]
    case GetDeploymentAliases(id) => [id]
    case CreateDeploymentAlias(id, _) => [id]
    case RenameSecret(uidOrName, _) => [uidOrName]
    case DeleteSecret(uidOrName) => [uidOrName]
    case _ => []
  }

  /** The request object each facade method builds and sends as the body, if any. */
  function BodyOf(op: Operation): Option<Payload> {
    match op
    case CreateDeployment(files) => Some(Files(files))
    case AddDomain(name, external) =>
      Some(NewDomain(Domains.EMPTY.(name := Some(name), isExternal := Some(external))))
    case AddDomainRecord(_, record) => Some(NewRecord(record))
    case CreateCertificate(domains) => Some(CertificateRequest(domains, None, None, None, None))
    case RenewCertificate(domains) => Some(CertificateRequest(domains, Some(true), None, None, None))
    case ReplaceCertificate(domains, ca, cert, key) => Some(CertificateRequest(domains, None, ca, cert, key))
    case CreateDeploymentAlias(_, alias) => Some(NewAlias(alias))
    case CreateSecret(name, value) => Some(SecretRequest(name, Some(value)))
    case RenameSecret(_, newName) => Some(SecretRequest(newName, None))
    case _ => None
  }

  /** The call each facade method makes, with the request objects it builds. */
  function Prepare(op: Operation): (c: Call)
    ensures |c.args| == |Endpoints.PathParameters(c.endpoint)|
    ensures c.body.Some? <==> Endpoints.HasBody(c.endpoint)
  {
    Call(EndpointOf(op), PathArguments(op), BodyOf(op))
  }

  /** The request the service interface builds for a call, before any decorator runs. */
  function RequestOf(c: Call): (r: Request)
    requires |c.args| == |Endpoints.PathParameters(c.endpoint)|
    ensures r.verb == Endpoints.RouteOf(c.endpoint).verb && r.query == [] && r.headers == []
    ensures Endpoints.NoSlash(c.args) ==> Endpoints.PiecesMatch(r.path, Endpoints.RouteOf(c.endpoint).template, c.args)
  {
    var route := Endpoints.RouteOf(c.endpoint);
    Endpoints.PlaceholdersMatchParameters(c.endpoint);
    Endpoints.RelativePaths(c.endpoint);
    Endpoints.ExpandSplits(route.template, c.args);
    Request(route.verb, Endpoints.Expand(route.template, c.args), [], [])
  }

  /**
    The request that goes over the network for an operation. A client built
    around a caller-supplied HTTP client sends whatever that client's own
    interceptors make of the bare request; the bare request stands for it.
   */
  function Outbound(client: Clients.Client, op: Operation): Request {
    var bare := RequestOf(Prepare(op));
    match client.transport
    case Chain(ds) => Decorators.Outgoing(ds, bare)
    case Supplied => bare
  }

  /** The null-body policy of the blocking methods. */
  function BlockingPolicy(op: Operation): Policy {
    match op
    case GetDeployments => Policy(EmptyListOnNull, Project(DeploymentList))
    case GetDeployment(_) => Policy(NullOnNull, WholeBody)
    case CreateDeployment(_) => Policy(NullOnNull, WholeBody)
    case DeleteDeployment(_) => Policy(AcceptNull, Nothing)
    case GetFiles(_) => Policy(NullOnNull, WholeBody)
    case GetFileAsString(_, _) => Policy(NullOnNull, Project(Text))
    case GetFileAsInputStream(_, _) => Policy(NullOnNull, Project(ByteStream))
    case GetDomains => Policy(EmptyListOnNull, Project(DomainList))
    case AddDomain(_, _) => Policy(RejectNull, WholeBody)
    case DeleteDomain(_) => Policy(NullOnNull, Project(Uid))
    case GetDomainRecords(_) => Policy(EmptyListOnNull, Project(RecordList))
    case AddDomainRecord(_, _) => Policy(RejectNull, WholeBody)
    case DeleteDomainRecord(_, _) => Policy(AcceptNull, Nothing)
    case GetCertificates(_) => Policy(EmptyListOnNull, Project(CertificateList))
    case CreateCertificate(_) => Policy(RejectNull, Project(Uid))
    case RenewCertificate(_) => Policy(RejectNull, Project(Uid))
    case ReplaceCertificate(_, _, _, _) => Policy(RejectNull, Project(CreatedAt))
    case DeleteCertificate(_) => Policy(AcceptNull, Nothing)
    case GetAliases => Policy(EmptyListOnNull, Project(AliasList))
    case DeleteAlias(_) => Policy(RejectNull, Project(Status))
    case GetDeploymentAliases(_) => Policy(EmptyListOnNull, Project(AliasList))
    case CreateDeploymentAlias(_, _) => Policy(NullOnNull, WholeBody)
    case GetSecrets => Policy(EmptyListOnNull, Project(SecretList))
    case CreateSecret(_, _) => Policy(NullOnNull, WholeBody)
    case RenameSecret(_, _) => Policy(NullOnNull, WholeBody)
    case DeleteSecret(_) => Policy(NullOnNull, WholeBody)
  }

  /** The null-body policy of the callback methods, as each `onResponse` is written. */
  function CallbackPolicy(op: Operation): Policy {
    match op
    case GetDeployments => Policy(EmptyListOnNull, Project(DeploymentList))
    case GetDeployment(_) => Policy(NullOnNull, WholeBody)
    case CreateDeployment(_) => Policy(NullOnNull, WholeBody)
    case DeleteDeployment(_) => Policy(AcceptNull, Nothing)
    case GetFiles(_) => Policy(NullOnNull, WholeBody)
    case GetFileAsString(_, _) => Policy(NullOnNull, Project(Text))
    case GetFileAsInputStream(_, _) => Policy(NullOnNull, Project(ByteStream))
    case GetDomains => Policy(EmptyListOnNull, Project(DomainList))
    case AddDomain(_, _) => Policy(RejectNull, WholeBody)
    case DeleteDomain(_) => Policy(NullOnNull, Project(Uid))
    case GetDomainRecords(_) => Policy(EmptyListOnNull, Project(RecordList))
    case AddDomainRecord(_, _) => Policy(RejectNull, WholeBody)
    case DeleteDomainRecord(_, _) => Policy(RejectNull, Nothing)
    case GetCertificates(_) => Policy(EmptyListOnNull, Project(CertificateList))
    case CreateCertificate(_) => Policy(RejectNull, Project(Uid))
    case RenewCertificate(_) => Policy(RejectNull, Project(Uid))
    case ReplaceCertificate(_, _, _, _) => Policy(RejectNull, Project(CreatedAt))
    case DeleteCertificate(_) => Policy(AcceptNull, Nothing)
    case GetAliases => Policy(EmptyListOnNull, Project(AliasList))
    case DeleteAlias(_) => Policy(RejectNull, Project(Status))
    case GetDeploymentAliases(_) => Policy(EmptyListOnNull, Project(AliasList))
    case CreateDeploymentAlias(_, _) => Policy(NullOnNull, WholeBody)
    case GetSecrets => Policy(EmptyListOnNull, Project(SecretList))
    case CreateSecret(_, _) => Policy(NullOnNull, WholeBody)
    case RenameSecret(_, _) => Policy(NullOnNull, WholeBody)
    case DeleteSecret(_) => Policy(NullOnNull, WholeBody)
  }

  /** The value a successful response yields, unless the policy rejects its null body. */
  function SuccessValue<B>(p: Policy, body: Option<B>): Value<B> {
    match body
    case Some(b) =>
      (match p.onBody
       case Nothing => Unit
       case WholeBody => Whole(b)
       case Project(a) => Field(a, b))
    case None =>
      (match p.onNull
       case EmptyListOnNull => EmptyList
       case NullOnNull => Null
       case AcceptNull => Unit
       case RejectNull => Null)
  }

  /** The blocking form: return the value, or throw. */
  function Interpret<B>(p: Policy, ex: Exchange<B>): (r: Result<Value<B>>)
    ensures ex.TransportFailed? ==> r == Err(IoFailure(ex.cause))
    ensures ex.Received? && !IsSuccessful(ex.code) ==> r == Err(UnsuccessfulResponse(ex.code, ex.message))
    ensures ex.Received? && IsSuccessful(ex.code) ==>
              (r.Err? <==> p.onNull == RejectNull && ex.body.None?)
    ensures r.Err? && ex.Received? ==> r.error == UnsuccessfulResponse(ex.code, ex.message)
  {
    match ex
    case TransportFailed(cause) => Err(IoFailure(cause))
    case Received(code, message, body) =>
      if !IsSuccessful(code) then Err(UnsuccessfulResponse(code, message))
      else if p.onNull == RejectNull && body.None? then Err(UnsuccessfulResponse(code, message))
      else Ok(SuccessValue(p, body))
  }

  function Blocking<B>(op: Operation, ex: Exchange<B>): Result<Value<B>> {
    Interpret(BlockingPolicy(op), ex)
  }

  /** The anonymous `Callback.onFailure`: forwards the throwable to the client callback. */
  function ForwardFailure<B>(t: Exception): seq<Event<B>> {
    [OnFailure(t)]
  }

  /**
    The callback form: Retrofit calls `onFailure` when the transport fails,
    otherwise `onResponse`, which either routes an unsuccessful response
    through `onFailure` and returns, or calls `onSuccess` once.
   */
  function DeliverWith<B>(p: Policy, ex: Exchange<B>): (es: seq<Event<B>>)
    ensures |es| == 1
  {
    match ex
    case TransportFailed(cause) => ForwardFailure(IoFailure(cause))
    case Received(code, message, body) =>
      if !IsSuccessful(code) || (p.onNull == RejectNull && body.None?) then
        ForwardFailure(UnsuccessfulResponse(code, message))
      else
        [OnSuccess(SuccessValue(p, body))]
  }

  function Deliver<B>(op: Operation, ex: Exchange<B>): (es: seq<Event<B>>)
    ensures |es| == 1
  {
    DeliverWith(CallbackPolicy(op), ex)
  }

  /** The callback form with the blocking null-body policy of every operation. */
  function DeliverIntended<B>(op: Operation, ex: Exchange<B>): (es: seq<Event<B>>)
    ensures |es| == 1
  {
    DeliverWith(BlockingPolicy(op), ex)
  }

  /** The notification that corresponds to a blocking outcome. */
  function Notify<B>(r: Result<Value<B>>): Event<B> {
    match r
    case Ok(v) => OnSuccess(v)
    case Err(e) => OnFailure(e)
  }

  /** The operations whose response wraps a list and which default a null body to an empty list. */
  predicate ReturnsWrappedList(op: Operation) {
    op.GetDeployments? || op.GetDomains? || op.GetDomainRecords? || op.GetCertificates?
    || op.GetAliases? || op.GetDeploymentAliases? || op.GetSecrets?
  }

  /** The blocking methods the contract annotates `@NotNull`. */
  predicate ContractNotNull(op: Operation) {
    op.GetDeployments? || op.GetDomains? || op.AddDomain? || op.GetDomainRecords?
  }

  /** The operations that treat a successful response without a body as unsuccessful. */
  predicate RequiresBody(op: Operation) {
    op.AddDomain? || op.AddDomainRecord? || op.CreateCertificate? || op.RenewCertificate?
    || op.ReplaceCertificate? || op.DeleteAlias?
  }

  /** Prepared calls agree with the endpoint table: every placeholder gets an argument, bodies go with write verbs. */
  lemma {:induction false} CallsFitTable(op: Operation)
    ensures var c := Prepare(op);
      && |c.args| == |Endpoints.Placeholders(Endpoints.RouteOf(c.endpoint).template)|
      && (c.body.Some? <==> Endpoints.IsWriteVerb(Endpoints.RouteOf(c.endpoint).verb))
  {
    var c := Prepare(op);
    Endpoints.PlaceholdersMatchParameters(c.endpoint);
    Endpoints.BodyOnlyWithWriteVerbs(c.endpoint);
  }

  /** An unsuccessful response always ends in `UnsuccessfulResponseException(code, message)`, in both forms. */
  lemma UnsuccessfulAlwaysFails<B>(op: Operation, code: int, message: string, body: Option<B>)
    requires !IsSuccessful(code)
    ensures Blocking(op, Received(code, message, body)) == Err(UnsuccessfulResponse(code, message))
    ensures Deliver(op, Received(code, message, body)) == [OnFailure(UnsuccessfulResponse(code, message))]
  {
  }

  /** Except for `deleteDomainRecord`, the callback form notifies exactly what the blocking form returns or throws. */
  lemma {:induction false} FormsAgree<B>(op: Operation, ex: Exchange<B>)
    requires !op.DeleteDomainRecord?
    ensures Deliver(op, ex) == [Notify(Blocking(op, ex))]
  {
    assert CallbackPolicy(op) == BlockingPolicy(op) by {
      match op
      case GetDeployments => case GetDeployment(_) => case CreateDeployment(_) => case DeleteDeployment(_) =>
      case GetFiles(_) => case GetFileAsString(_, _) => case GetFileAsInputStream(_, _) => case GetDomains =>
      case AddDomain(_, _) => case DeleteDomain(_) => case GetDomainRecords(_) => case AddDomainRecord(_, _) =>
      case GetCertificates(_) => case CreateCertificate(_) => case RenewCertificate(_) =>
      case ReplaceCertificate(_, _, _, _) => case DeleteCertificate(_) => case GetAliases => case DeleteAlias(_) =>
      case GetDeploymentAliases(_) => case CreateDeploymentAlias(_, _) => case GetSecrets =>
      case CreateSecret(_, _) => case RenameSecret(_, _) => case DeleteSecret(_) =>
    }
  }

  /** With the blocking policy throughout, the two forms agree for every operation. */
  lemma FormsAgreeIntended<B>(op: Operation, ex: Exchange<B>)
    ensures DeliverIntended(op, ex) == [Notify(Blocking(op, ex))]
  {
  }

  /** `deleteDomainRecord`: a successful response without a body (such as 204) succeeds blocking but fails by callback. */
  lemma DeleteDomainRecordFormsDiverge(domainName: string, recordId: string)
    ensures var ex: Exchange<string> := Received(204, "No Content", None);
      && Blocking(DeleteDomainRecord(domainName, recordId), ex) == Ok(Unit)
      && Deliver(DeleteDomainRecord(domainName, recordId), ex) == [OnFailure(UnsuccessfulResponse(204, "No Content"))]
      && DeliverIntended(DeleteDomainRecord(domainName, recordId), ex) == [OnSuccess(Unit)]
  {
  }

  /** List operations never return null: a missing body becomes the empty list. */
  lemma ListsNeverNull<B>(op: Operation, ex: Exchange<B>)
    requires ReturnsWrappedList(op) && Blocking(op, ex).Ok?
    ensures Blocking(op, ex).value.EmptyList? || Blocking(op, ex).value.Field?
    ensures ex.Received? && ex.body.None? ==> Blocking(op, ex).value == EmptyList
  {
  }

  /** The `@NotNull` methods of the contract never return null and always return a value. */
  lemma {:induction false} ContractNotNullHolds<B>(op: Operation, ex: Exchange<B>)
    requires ContractNotNull(op) && Blocking(op, ex).Ok?
    ensures Blocking(op, ex).value != Null && Blocking(op, ex).value != Unit
  {
    if op.AddDomain? {
      assert BlockingPolicy(op) == Policy(RejectNull, WholeBody);
    } else {
      ListsNeverNull(op, ex);
    }
  }

  /** `getFiles` is a list operation that passes a null body through as null. */
  lemma GetFilesMayReturnNull(deploymentId: string)
    ensures Blocking<string>(GetFiles(deploymentId), Received(200, "OK", None)) == Ok(Null)
  {
  }

  /** Creating, renewing and replacing certificates, adding domains and records, and deleting aliases reject a missing body. */
  lemma MissingBodyRejected<B>(op: Operation, code: int, message: string)
    requires RequiresBody(op) && IsSuccessful(code)
    ensures Blocking<B>(op, Received(code, message, None)) == Err(UnsuccessfulResponse(code, message))
    ensures Deliver<B>(op, Received(code, message, None)) == [OnFailure(UnsuccessfulResponse(code, message))]
  {
  }

  /** `deleteDomain` returns the deleted domain's uid, or null when the response has no body. */
  lemma DeletedDomainUid<B>(name: string, code: int, message: string, b: B)
    requires IsSuccessful(code)
    ensures Blocking(DeleteDomain(name), Received(code, message, Some(b))) == Ok(Field(Uid, b))
    ensures Blocking<B>(DeleteDomain(name), Received(code, message, None)) == Ok(Null)
  {
  }

  /** `replaceCertificate` returns the date the replacement was created. */
  lemma ReplacementDate<B>(domains: seq<string>, ca: Option<string>, cert: Option<string>, key: Option<string>,
                           code: int, message: string, b: B)
    requires IsSuccessful(code)
    ensures Blocking(ReplaceCertificate(domains, ca, cert, key), Received(code, message, Some(b))) == Ok(Field(CreatedAt, b))
  {
  }

  /** A transport failure reaches the caller as that I/O error, in both forms. */
  lemma TransportFailurePropagates<B>(op: Operation, cause: string)
    ensures Blocking<B>(op, TransportFailed(cause)) == Err(IoFailure(cause))
    ensures Deliver<B>(op, TransportFailed(cause)) == [OnFailure(IoFailure(cause))]
  {
  }

  /**
    With a non-blank team (say `myteam`), listing domains sends
    `GET domains?team=myteam` with the bearer token, and an empty successful
    response yields the empty list.
   */
  lemma {:induction false} ListDomainsScenario(token: string, team: string)
    requires !NullOrBlank(Some(team))
    ensures var out := Outbound(Clients.Build(Clients.Credentials(token, Some(team))), GetDomains);
      && out.verb == GET && out.path == "domains"
      && out.query == [Pair(Decorators.TEAM, Trim(team))]
      && Pair(Decorators.AUTHORIZATION, "Bearer " + token) in out.headers
    ensures Blocking<string>(GetDomains, Received(200, "OK", None)) == Ok(EmptyList)
  {
    EmptyDomainList();
    ThroughStandardChain(token, Some(team), GetDomains);
    DomainsListPath();
    var out := Decorators.Outgoing(Decorators.StandardChain(token, Some(team)), Request(GET, "domains", [], []));
    Decorators.StandardChainOutgoing(token, Some(team), Request(GET, "domains", [], []));
    assert out.headers[2] == Pair(Decorators.AUTHORIZATION, "Bearer " + token);
  }

  /** A successful domain listing without a body is the empty list. */
  lemma EmptyDomainList()
    ensures Blocking<string>(GetDomains, Received(200, "OK", None)) == Ok(EmptyList)
  {
  }

  /** A client built from credentials sends the bare request through the standard chain. */
  lemma ThroughStandardChain(token: string, team: Option<string>, op: Operation)
    ensures Outbound(Clients.Build(Clients.Credentials(token, team)), op)
            == Decorators.Outgoing(Decorators.StandardChain(token, team), RequestOf(Prepare(op)))
  {
  }

  /** The bare request for listing domains is `GET domains`. */
  lemma {:induction false} DomainsListPath()
    ensures RequestOf(Prepare(GetDomains)) == Request(GET, "domains", [], [])
  {
    assert Prepare(GetDomains) == Call(Endpoints.GetDomains, [], None);
    assert Endpoints.RouteOf(Endpoints.GetDomains) == Endpoints.Route(GET, [Endpoints.Lit(Endpoints.Domains)]);
    assert Endpoints.Expand([Endpoints.Lit(Endpoints.Domains)], []) == "domains";
  }

  /** The bare request for deleting a domain is `DELETE domains/<name>`. */
  lemma {:induction false} DomainDeletionPath(name: string)
    ensures RequestOf(Prepare(DeleteDomain(name))) == Request(DELETE, "domains/" + name, [], [])
  {
    assert Prepare(DeleteDomain(name)) == Call(Endpoints.DeleteDomain, [name], None);
    assert Endpoints.RouteOf(Endpoints.DeleteDomain).verb == DELETE;
    DomainPath(name);
  }

  /** The template of a domain's deletion endpoint, and the path it expands to: `domains/` followed by the name. */
  lemma {:induction false} DomainPath(name: string)
    ensures Endpoints.RouteOf(Endpoints.DeleteDomain).template == [Endpoints.Lit(Endpoints.Domains), Endpoints.Var(Endpoints.DomainName)]
    ensures Endpoints.Expand([Endpoints.Lit(Endpoints.Domains), Endpoints.Var(Endpoints.DomainName)], [name]) == "domains/" + name
  {
    assert Endpoints.Expand([Endpoints.Var(Endpoints.DomainName)], [name]) == name;
  }

  /**
    Without a team, deleting a domain (say `example.com`) sends
    `DELETE domains/example.com` with no query parameter.
   */
  lemma {:induction false} DeleteDomainOutbound(token: string, name: string)
    ensures var out := Outbound(Clients.Build(Clients.Credentials(token, None)), DeleteDomain(name));
      out.verb == DELETE && out.path == "domains/" + name && out.query == []
  {
    ThroughStandardChain(token, None, DeleteDomain(name));
    DomainDeletionPath(name);
    Decorators.StandardChainOutgoing(token, None, Request(DELETE, "domains/" + name, [], []));
  }

  /** A 404 "Not Found" response fails every operation with code 404 and message "Not Found", in both forms. */
  lemma NotFound<B>(op: Operation, body: Option<B>)
    ensures Blocking(op, Received(404, "Not Found", body)) == Err(UnsuccessfulResponse(404, "Not Found"))
    ensures Deliver(op, Received(404, "Not Found", body)) == [OnFailure(UnsuccessfulResponse(404, "Not Found"))]
  {
    UnsuccessfulAlwaysFails(op, 404, "Not Found", body);
  }
}
