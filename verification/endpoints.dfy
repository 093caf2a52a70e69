/**
  The declarative endpoint table of the REST API: each operation of the
  service interface with its HTTP verb, its path template relative to the
  base URL, the names of its path arguments and whether it sends a body.
 */
module Endpoints {
  import opened JavaText
  import opened Http

  /** The literal words that occur in the path templates. */
  datatype Word = Now | Deployments | Files | Domains | Records | Certs | Aliases | Secrets

  /** The `{name}` placeholders that occur in the path templates. */
  datatype Param = DeploymentId | FileId | DomainName | RecordId | CommonName | AliasId | SecretUidOrName

  /** A path template is a `/`-separated list of literal segments and `{name}` placeholders. */
  datatype Segment = Lit(word: Word) | Var(param: Param)

  /** The text of a literal segment: non-empty, and without a `/`. */
  function WordText(w: Word): (text: string)
    ensures |text| > 0 && '/' !in text
  {
    match w
    case Now => "now"
    case Deployments => "deployments"
    case Files => "files"
    case Domains => "domains"
    case Records => "records"
    case Certs => "certs"
    case Aliases => "aliases"
    case Secrets => "secrets"
  }

  /** The name a placeholder carries inside the braces. */
  function ParamName(p: Param): string {
    match p
    case DeploymentId => "deployment_id"
    case FileId => "file_id"
    case DomainName => "domain_name"
    case RecordId => "record_id"
    case CommonName => "common_name"
    case AliasId => "alias_id"
    case SecretUidOrName => "secret_uid_or_name"
  }

  datatype Endpoint =
    | GetDeployments | GetDeployment | DeleteDeployment | CreateDeployment | GetFiles | GetFile
    | GetDomains | CreateDomain | DeleteDomain
    | GetDomainRecords | CreateDomainRecord | DeleteDomainRecord
    | GetCertificates | IssueCertificate | CreateOrReplaceCertificate | DeleteCertificate
    | GetAliases | DeleteAlias | GetDeploymentAliases | CreateDeploymentAliases
    | GetSecrets | CreateSecret | EditSecret | DeleteSecret

  datatype Route = Route(verb: Verb, template: seq<Segment>)

  /** Every endpoint, in declaration order. */
  const ALL: seq<Endpoint> := [
    GetDeployments, GetDeployment, DeleteDeployment, CreateDeployment, GetFiles, GetFile,
    GetDomains, CreateDomain, DeleteDomain,
    GetDomainRecords, CreateDomainRecord, DeleteDomainRecord,
    GetCertificates, IssueCertificate, CreateOrReplaceCertificate, DeleteCertificate,
    GetAliases, DeleteAlias, GetDeploymentAliases, CreateDeploymentAliases,
    GetSecrets, CreateSecret, EditSecret, DeleteSecret
  ]

  /** The verb annotation and the path template of each endpoint. */
  function RouteOf(e: Endpoint): Route {
    match e
    case GetDeployments => Route(GET, [Lit(Now), Lit(Deployments)])
    case GetDeployment => Route(GET, [Lit(Now), Lit(Deployments), Var(DeploymentId)])
    case DeleteDeployment => Route(DELETE, [Lit(Now), Lit(Deployments), Var(DeploymentId)])
    case CreateDeployment => Route(POST, [Lit(Now), Lit(Deployments)])
    case GetFiles => Route(GET, [Lit(Now), Lit(Deployments), Var(DeploymentId), Lit(Files)])
    case GetFile => Route(GET, [Lit(Now), Lit(Deployments), Var(DeploymentId), Lit(Files), Var(FileId)])
    case GetDomains => Route(GET, [Lit(Domains)])
    case CreateDomain => Route(POST, [Lit(Domains)])
    case DeleteDomain => Route(DELETE, [Lit(Domains), Var(DomainName)])
    case GetDomainRecords => Route(GET, [Lit(Domains), Var(DomainName), Lit(Records)])
    case CreateDomainRecord => Route(POST, [Lit(Domains), Var(DomainName), Lit(Records)])
    case DeleteDomainRecord => Route(DELETE, [Lit(Domains), Var(DomainName), Lit(Records), Var(RecordId)])
    case GetCertificates => Route(GET, [Lit(Now), Lit(Certs), Var(CommonName)])
    case IssueCertificate => Route(POST, [Lit(Now), Lit(Certs)])
    case CreateOrReplaceCertificate => Route(PUT, [Lit(Now), Lit(Certs)])
    case DeleteCertificate => Route(DELETE, [Lit(Now), Lit(Certs), Var(CommonName)])
    case GetAliases => Route(GET, [Lit(Now), Lit(Aliases)])
    case DeleteAlias => Route(DELETE, [Lit(Now), Lit(Aliases), Var(AliasId)])
    case GetDeploymentAliases => Route(GET, [Lit(Deployments), Var(DeploymentId), Lit(Aliases)])
    case CreateDeploymentAliases => Route(POST, [Lit(Deployments), Var(DeploymentId), Lit(Aliases)])
    case GetSecrets => Route(GET, [Lit(Now), Lit(Secrets)])
    case CreateSecret => Route(POST, [Lit(Now), Lit(Secrets)])
    case EditSecret => Route(PATCH, [Lit(Now), Lit(Secrets), Var(SecretUidOrName)])
    case DeleteSecret => Route(DELETE, [Lit(Now), Lit(Secrets), Var(SecretUidOrName)])
  }

  /** The `@Path` arguments of each interface method, in parameter order. */
  function PathParameters(e: Endpoint): seq<Param> {
    match e
    case GetDeployment | DeleteDeployment | GetFiles | GetDeploymentAliases | CreateDeploymentAliases =>
      [DeploymentId]
    case GetFile => [DeploymentId, FileId]
    case DeleteDomain | GetDomainRecords | CreateDomainRecord => [DomainName]
    case DeleteDomainRecord => [DomainName, RecordId]
    case GetCertificates | DeleteCertificate => [CommonName]
    case DeleteAlias => [AliasId]
    case EditSecret | DeleteSecret => [SecretUidOrName]
    case GetDeployments | CreateDeployment | GetDomains | CreateDomain | IssueCertificate
      | CreateOrReplaceCertificate | GetAliases | GetSecrets | CreateSecret => []
  }

  /** Whether the interface method takes a `@Body` argument. */
  predicate HasBody(e: Endpoint) {
    match e
    case CreateDeployment | CreateDomain | CreateDomainRecord | IssueCertificate
      | CreateOrReplaceCertificate | CreateDeploymentAliases | CreateSecret | EditSecret => true
    case _ => false
  }

  predicate IsWriteVerb(v: Verb) {
    v == POST || v == PUT || v == PATCH
  }

  /** The placeholder names of a template, in order. */
  function Placeholders(t: seq<Segment>): (names: seq<Param>)
    ensures |names| <= |t|
  {
    if t == [] then []
    else (if t[0].Var? then [t[0].param] else []) + Placeholders(t[1..])
  }

  lemma {:induction false} PlaceholdersAppend(a: seq<Segment>, b: seq<Segment>)
    ensures Placeholders(a + b) == Placeholders(a) + Placeholders(b)
  {
    if a != [] {
      assert (a + b)[1..] == a[1..] + b;
      PlaceholdersAppend(a[1..], b);
    } else {
      assert a + b == b;
    }
  }

  /** The relative URL path: segments joined by `/`, the i-th placeholder replaced by the i-th argument. */
  function Expand(t: seq<Segment>, args: seq<string>): (path: string)
    requires |args| == |Placeholders(t)|
    ensures t != [] && t[0].Lit? ==> |path| > 0 && path[0] == WordText(t[0].word)[0]
  {
    if t == [] then ""
    else
      var tail := if |t| == 1 then "" else "/" + Expand(t[1..], RestArgs(t, args));
      FirstPiece(t, args) + tail
  }

  /** The text of a template's first segment: its word, or the first argument. */
  function FirstPiece(t: seq<Segment>, args: seq<string>): string
    requires t != [] && |args| == |Placeholders(t)|
  {
    if t[0].Lit? then WordText(t[0].word) else args[0]
  }

  /** The arguments left for the rest of the template once its first segment is expanded. */
  function RestArgs(t: seq<Segment>, args: seq<string>): (rest: seq<string>)
    requires t != [] && |args| == |Placeholders(t)|
    ensures |rest| == |Placeholders(t[1..])|
  {
    if t[0].Lit? then args else args[1..]
  }

  /** The pieces of `s` between its slashes, empty pieces included: `"a//b"` has three. */
  function Split(s: string): (pieces: seq<string>)
    ensures |pieces| >= 1
  {
    if s == [] then [""]
    else
      var p := Split(s[1..]);
      if s[0] == '/' then [""] + p else [[s[0]] + p[0]] + p[1..]
  }

  /** A string without a slash is a single piece. */
  lemma {:induction false} SplitNoSlash(a: string)
    requires '/' !in a
    ensures Split(a) == [a]
  {
    if a != [] {
      assert '/' !in a[1..] by {
        forall k | 0 <= k < |a[1..]| ensures a[1..][k] != '/' { assert a[1..][k] == a[k + 1]; }
      }
      SplitNoSlash(a[1..]);
      assert [a[0]] + a[1..] == a;
    }
  }

  /** A slash after a slash-free prefix ends the first piece there. */
  lemma {:induction false} SplitAtSlash(a: string, b: string)
    requires '/' !in a
    ensures Split(a + "/" + b) == [a] + Split(b)
  {
    if a == [] {
      assert a + "/" + b == "/" + b && ("/" + b)[1..] == b;
    } else {
      assert (a + "/" + b)[1..] == a[1..] + "/" + b;
      assert '/' !in a[1..] by {
        forall k | 0 <= k < |a[1..]| ensures a[1..][k] != '/' { assert a[1..][k] == a[k + 1]; }
      }
      SplitAtSlash(a[1..], b);
      assert [a[0]] + a[1..] == a;
    }
  }

  /** The placeholders of a prefix: those of its first segment, then those of the rest of the prefix. */
  lemma {:induction false} PlaceholdersPrefix(t: seq<Segment>, i: int)
    requires 0 < i <= |t|
    ensures Placeholders(t[..i]) == (if t[0].Var? then [t[0].param] else []) + Placeholders(t[1..][..i - 1])
  {
    assert t[..i][0] == t[0] && t[..i][1..] == t[1..][..i - 1];
  }

  /** No argument contains a slash. */
  predicate NoSlash(args: seq<string>) {
    forall k :: 0 <= k < |args| ==> '/' !in args[k]
  }

  /**
    `path` read back against template `t`: one piece per segment, the word
    of each literal, and at each placeholder the argument whose position is
    the number of placeholders before it.
   */
  predicate PiecesMatch(path: string, t: seq<Segment>, args: seq<string>) {
    var pieces := Split(path);
    && |pieces| == |t|
    && (forall i :: 0 <= i < |t| && t[i].Lit? ==> pieces[i] == WordText(t[i].word))
    && (forall i :: 0 <= i < |t| && t[i].Var? ==>
          |Placeholders(t[..i])| < |args| && pieces[i] == args[|Placeholders(t[..i])|])
  }

  /**
    Splitting an expanded path at its slashes gives back the template's
    words and the arguments in placeholder order, when no argument holds a slash.
   */
  lemma {:induction false} ExpandSplits(t: seq<Segment>, args: seq<string>)
    requires |args| == |Placeholders(t)|
    ensures t != [] && NoSlash(args) ==> PiecesMatch(Expand(t, args), t, args)
  {
    if t != [] && NoSlash(args) {
      if |t| == 1 {
        PiecesSingle(t, args);
      } else {
        ExpandCons(t, args);
        ExpandSplits(t[1..], RestArgs(t, args));
        PiecesCons(t, args, Expand(t, args), Expand(t[1..], RestArgs(t, args)));
      }
    }
  }

  /** A one-segment template expands to a single piece: its word, or the only argument. */
  lemma {:induction false} PiecesSingle(t: seq<Segment>, args: seq<string>)
    requires |t| == 1 && |args| == |Placeholders(t)| && NoSlash(args)
    ensures PiecesMatch(Expand(t, args), t, args)
  {
    assert Expand(t, args) == FirstPiece(t, args);
    SplitNoSlash(FirstPiece(t, args));
    assert t[..0] == [];
  }

  /**
    A template of several segments expands to its first piece, a slash, and
    the expansion of the rest; the pieces split there, and the rest's
    arguments carry no slash either.
   */
  lemma {:induction false} ExpandCons(t: seq<Segment>, args: seq<string>)
    requires |t| > 1 && |args| == |Placeholders(t)| && NoSlash(args)
    ensures NoSlash(RestArgs(t, args))
    ensures Split(Expand(t, args)) == [FirstPiece(t, args)] + Split(Expand(t[1..], RestArgs(t, args)))
  {
    var head := FirstPiece(t, args);
    var rest := RestArgs(t, args);
    assert NoSlash(rest) by {
      if t[0].Var? {
        forall k | 0 <= k < |rest| ensures '/' !in rest[k] { assert rest[k] == args[k + 1]; }
      }
    }
    assert Expand(t, args) == head + "/" + Expand(t[1..], rest);
    SplitAtSlash(head, Expand(t[1..], rest));
  }

  /** One more segment in front: its piece comes first, the others keep their matches. */
  lemma {:induction false} PiecesCons(t: seq<Segment>, args: seq<string>, path: string, tailPath: string)
    requires |t| > 1 && |args| == |Placeholders(t)|
    requires Split(path) == [FirstPiece(t, args)] + Split(tailPath)
    requires PiecesMatch(tailPath, t[1..], RestArgs(t, args))
    ensures PiecesMatch(path, t, args)
  {
    var pieces := Split(path);
    var tail := Split(tailPath);
    forall i | 0 <= i < |t| && t[i].Lit?
      ensures pieces[i] == WordText(t[i].word)
    {
      if i > 0 { assert t[1..][i - 1] == t[i]; }
    }
    forall i | 0 <= i < |t| && t[i].Var?
      ensures |Placeholders(t[..i])| < |args| && pieces[i] == args[|Placeholders(t[..i])|]
    {
      if i == 0 {
        assert t[..0] == [];
      } else {
        VarPiece(t, args, tail, i);
        assert pieces[i] == tail[i - 1];
      }
    }
  }

  /** The argument at a later placeholder is the one the rest of the template gives it, shifted past the first segment. */
  lemma {:induction false} VarPiece(t: seq<Segment>, args: seq<string>, tail: seq<string>, i: int)
    requires 0 < i < |t| && t[i].Var? && |args| == |Placeholders(t)|
    requires var rest := RestArgs(t, args);
      && |tail| == |t| - 1 && |Placeholders(t[1..][..i - 1])| < |rest| && tail[i - 1] == rest[|Placeholders(t[1..][..i - 1])|]
    ensures |Placeholders(t[..i])| < |args| && tail[i - 1] == args[|Placeholders(t[..i])|]
  {
    var j := |Placeholders(t[1..][..i - 1])|;
    PlaceholdersPrefix(t, i);
    if t[0].Var? {
      assert |Placeholders(t[..i])| == j + 1 && args[1..][j] == args[j + 1];
    } else {
      assert |Placeholders(t[..i])| == j;
    }
  }

  /** Finds the endpoint declared with this verb and template, if any. */
  function Identify(r: Route): Option<Endpoint> {
    var t := r.template;
    match r.verb
    case GET =>
      if t == [Lit(Now), Lit(Deployments)] then Some(GetDeployments)
      else if t == [Lit(Now), Lit(Deployments), Var(DeploymentId)] then Some(GetDeployment)
      else if t == [Lit(Now), Lit(Deployments), Var(DeploymentId), Lit(Files)] then Some(GetFiles)
      else if t == [Lit(Now), Lit(Deployments), Var(DeploymentId), Lit(Files), Var(FileId)] then Some(GetFile)
      else if t == [Lit(Domains)] then Some(GetDomains)
      else if t == [Lit(Domains), Var(DomainName), Lit(Records)] then Some(GetDomainRecords)
      else if t == [Lit(Now), Lit(Certs), Var(CommonName)] then Some(GetCertificates)
      else if t == [Lit(Now), Lit(Aliases)] then Some(GetAliases)
      else if t == [Lit(Deployments), Var(DeploymentId), Lit(Aliases)] then Some(GetDeploymentAliases)
      else if t == [Lit(Now), Lit(Secrets)] then Some(GetSecrets)
      else None
    case POST =>
      if t == [Lit(Now), Lit(Deployments)] then Some(CreateDeployment)
      else if t == [Lit(Domains)] then Some(CreateDomain)
      else if t == [Lit(Domains), Var(DomainName), Lit(Records)] then Some(CreateDomainRecord)
      else if t == [Lit(Now), Lit(Certs)] then Some(IssueCertificate)
      else if t == [Lit(Deployments), Var(DeploymentId), Lit(Aliases)] then Some(CreateDeploymentAliases)
      else if t == [Lit(Now), Lit(Secrets)] then Some(CreateSecret)
      else None
    case PUT =>
      if t == [Lit(Now), Lit(Certs)] then Some(CreateOrReplaceCertificate) else None
    case PATCH =>
      if t == [Lit(Now), Lit(Secrets), Var(SecretUidOrName)] then Some(EditSecret) else None
    case DELETE =>
      if t == [Lit(Now), Lit(Deployments), Var(DeploymentId)] then Some(DeleteDeployment)
      else if t == [Lit(Domains), Var(DomainName)] then Some(DeleteDomain)
      else if t == [Lit(Domains), Var(DomainName), Lit(Records), Var(RecordId)] then Some(DeleteDomainRecord)
      else if t == [Lit(Now), Lit(Certs), Var(CommonName)] then Some(DeleteCertificate)
      else if t == [Lit(Now), Lit(Aliases), Var(AliasId)] then Some(DeleteAlias)
      else if t == [Lit(Now), Lit(Secrets), Var(SecretUidOrName)] then Some(DeleteSecret)
      else None
  }

  /** Where each endpoint stands in `ALL`. */
  function Position(e: Endpoint): nat {
    match e
    case GetDeployments => 0 case GetDeployment => 1 case DeleteDeployment => 2 case CreateDeployment => 3
    case GetFiles => 4 case GetFile => 5 case GetDomains => 6 case CreateDomain => 7 case DeleteDomain => 8
    case GetDomainRecords => 9 case CreateDomainRecord => 10 case DeleteDomainRecord => 11
    case GetCertificates => 12 case IssueCertificate => 13 case CreateOrReplaceCertificate => 14
    case DeleteCertificate => 15 case GetAliases => 16 case DeleteAlias => 17 case GetDeploymentAliases => 18
    case CreateDeploymentAliases => 19 case GetSecrets => 20 case CreateSecret => 21 case EditSecret => 22
    case DeleteSecret => 23
  }

  /** The table lists 24 distinct endpoints and nothing else. */
  lemma {:induction false} TableShape()
    ensures |ALL| == 24
    ensures forall i, j :: 0 <= i < j < |ALL| ==> ALL[i] != ALL[j]
    ensures forall e: Endpoint :: e in ALL
  {
    assert forall i | 0 <= i < |ALL| :: Position(ALL[i]) == i;
    forall i, j | 0 <= i < j < |ALL| ensures ALL[i] != ALL[j] {
      assert Position(ALL[i]) != Position(ALL[j]);
    }
    forall e: Endpoint ensures e in ALL {
      assert ALL[Position(e)] == e;
    }
  }

  /** Looking a declared route up again finds the endpoint that declared it. */
  lemma RouteIdentifies(e: Endpoint)
    ensures Identify(RouteOf(e)) == Some(e)
  {
    match e
      case GetDeployments => case GetDeployment => case DeleteDeployment => case CreateDeployment =>
      case GetFiles => case GetFile => case GetDomains => case CreateDomain => case DeleteDomain =>
      case GetDomainRecords => case CreateDomainRecord => case DeleteDomainRecord =>
      case GetCertificates => case IssueCertificate => case CreateOrReplaceCertificate =>
      case DeleteCertificate => case GetAliases => case DeleteAlias => case GetDeploymentAliases =>
      case CreateDeploymentAliases => case GetSecrets => case CreateSecret => case EditSecret =>
      case DeleteSecret =>
  }

  /** No two endpoints share both verb and path template. */
  lemma {:induction false} RoutesDistinct(e1: Endpoint, e2: Endpoint)
    requires e1 != e2
    ensures RouteOf(e1) != RouteOf(e2)
  {
    RouteIdentifies(e1);
    RouteIdentifies(e2);
  }

  /** Each placeholder of a template is matched by exactly one path argument, in order. */
  lemma {:induction false} PlaceholdersMatchParameters(e: Endpoint)
    ensures Placeholders(RouteOf(e).template) == PathParameters(e)
  {
    match e
    case GetDeployments | GetDeployment | DeleteDeployment | CreateDeployment | GetFiles | GetFile =>
      DeploymentPlaceholders(e);
    case GetDomains | CreateDomain | DeleteDomain | GetDomainRecords | CreateDomainRecord | DeleteDomainRecord =>
      DomainPlaceholders(e);
    case GetCertificates | IssueCertificate | CreateOrReplaceCertificate | DeleteCertificate
      | GetAliases | DeleteAlias | GetDeploymentAliases | CreateDeploymentAliases =>
      CertificateAndAliasPlaceholders(e);
    case GetSecrets | CreateSecret | EditSecret | DeleteSecret =>
      SecretPlaceholders(e);
  }

  lemma DeploymentPlaceholders(e: Endpoint)
    requires e.GetDeployments? || e.GetDeployment? || e.DeleteDeployment? || e.CreateDeployment? || e.GetFiles? || e.GetFile?
    ensures Placeholders(RouteOf(e).template) == PathParameters(e)
  {
  }

  lemma DomainPlaceholders(e: Endpoint)
    requires e.GetDomains? || e.CreateDomain? || e.DeleteDomain? || e.GetDomainRecords? || e.CreateDomainRecord? || e.DeleteDomainRecord?
    ensures Placeholders(RouteOf(e).template) == PathParameters(e)
  {
  }

  lemma CertificateAndAliasPlaceholders(e: Endpoint)
    requires || e.GetCertificates? || e.IssueCertificate? || e.CreateOrReplaceCertificate? || e.DeleteCertificate?
             || e.GetAliases? || e.DeleteAlias? || e.GetDeploymentAliases? || e.CreateDeploymentAliases?
    ensures Placeholders(RouteOf(e).template) == PathParameters(e)
  {
  }

  lemma SecretPlaceholders(e: Endpoint)
    requires e.GetSecrets? || e.CreateSecret? || e.EditSecret? || e.DeleteSecret?
    ensures Placeholders(RouteOf(e).template) == PathParameters(e)
  {
  }

  /** Only POST, PUT and PATCH endpoints carry a body, and all of them do. */
  lemma BodyOnlyWithWriteVerbs(e: Endpoint)
    ensures HasBody(e) <==> IsWriteVerb(RouteOf(e).verb)
  {
  }

  /** Every template starts with a non-empty literal that is not `/`: paths are relative. */
  lemma RelativePaths(e: Endpoint)
    ensures RouteOf(e).template != [] && RouteOf(e).template[0].Lit?
    ensures WordText(RouteOf(e).template[0].word)[0] != '/'
  {
  }

  /**
    Notable rows: certificate issue and replacement differ only in their verb,
    secret rename and delete share a template, and the deployment-alias
    endpoints lack the `now/` prefix that the alias list has.
   */
  lemma NotableRoutes()
    ensures RouteOf(IssueCertificate).template == RouteOf(CreateOrReplaceCertificate).template
    ensures RouteOf(IssueCertificate).verb == POST && RouteOf(CreateOrReplaceCertificate).verb == PUT
    ensures RouteOf(EditSecret).template == RouteOf(DeleteSecret).template
    ensures RouteOf(EditSecret).verb == PATCH && RouteOf(DeleteSecret).verb == DELETE
    ensures RouteOf(GetDeploymentAliases).template[0] == Lit(Deployments)
    ensures RouteOf(GetAliases).template[0] == Lit(Now)
  {
  }
}
