/**
  The command-line subcommands: how the action flags and options of each
  command become one facade call, a usage error, or nothing, and what the
  command then prints. Flags are checked in a fixed order and the first set
  one wins; a required option that is null or empty is an
  `IllegalArgumentException`. JSON options are decoded by a decoder
  function standing for the JSON library.
 */
module Subcommands {
  import opened JavaText
  import opened Http
  import opened Operations
  import DomainRecords

  /** What `work()` does: call the facade (printing `true` instead of the result for some removals), fail, or nothing. */
  datatype Action = Invoke(op: Operation, printsTrue: bool) | Fail(error: Exception) | Idle

  /** What the command writes to standard output. */
  datatype Output<B> = Silent | Json(value: Value<B>) | JsonTrue

  /** Decoders for the JSON-valued options. */
  datatype Decoders = Decoders(
    record: string -> Result<DomainRecords.DomainRecord>,
    files: string -> Result<map<string, string>>)

  datatype DomainsFlags = DomainsFlags(
    list: bool, add: bool, remove: bool, listRecords: bool, addRecord: bool, removeRecord: bool,
    domainName: Option<string>, externalDNS: bool, recordData: Option<string>, recordId: Option<string>)

  datatype DeploymentsFlags = DeploymentsFlags(
    list: bool, add: bool, remove: bool, listFiles: bool, getFile: bool,
    deploymentId: Option<string>, fileId: Option<string>, deploymentData: Option<string>)

  datatype SecretsFlags = SecretsFlags(
    list: bool, add: bool, rename: bool, remove: bool,
    name: Option<string>, value: Option<string>, uid: Option<string>)

  /** `--domain` may be repeated; it collects into a list that starts empty. */
  datatype CertsFlags = CertsFlags(
    list: bool, add: bool, renew: bool, replace: bool, remove: bool,
    commonName: Option<string>, domains: seq<string>, ca: Option<string>, cert: Option<string>, key: Option<string>)

  datatype AliasesFlags = AliasesFlags(
    list: bool, remove: bool, add: bool,
    deploymentId: Option<string>, aliasId: Option<string>, alias: Option<string>)

  /** The usage error for a required option that is absent or empty. */
  function Missing(option: string): Exception {
    IllegalArgument("Missing " + option + " option")
  }

  const MISSING_ALIAS: Exception := Missing("--alias")
  const MISSING_ALIAS_ID: Exception := Missing("--aliasId")
  const MISSING_CN: Exception := Missing("--cn")
  const MISSING_DEPLOYMENT_DATA: Exception := Missing("--deploymentData")
  const MISSING_DEPLOYMENT_ID: Exception := Missing("--deploymentId")
  const MISSING_DOMAIN_NAME: Exception := Missing("--domainName")
  const MISSING_FILE_ID: Exception := Missing("--fileId")
  const MISSING_NAME: Exception := Missing("--name")
  const MISSING_RECORD_DATA: Exception := Missing("--recordData")
  const MISSING_RECORD_ID: Exception := Missing("--recordId")
  const MISSING_UID: Exception := Missing("--uid")
  const MISSING_VALUE: Exception := Missing("--value")
  const MISSING_SECRET_TARGET: Exception := IllegalArgument("Missing one of --name or --uid options")

  /** The position of the first set flag, or the number of flags when none is set. */
  function FirstSet(flags: seq<bool>): (k: nat)
    ensures k <= |flags|
    ensures forall j :: 0 <= j < k ==> !flags[j]
    ensures k < |flags| ==> flags[k]
  {
    if flags == [] then 0
    else if flags[0] then 0
    else 1 + FirstSet(flags[1..])
  }

  /** Flag `k` is the first set one (`k == |flags|`: none is set). */
  predicate Selects(flags: seq<bool>, k: int) {
    && 0 <= k <= |flags|
    && (forall j :: 0 <= j < k ==> !flags[j])
    && (k < |flags| ==> flags[k])
  }

  /** Exactly one position is selected, and `FirstSet` finds it. */
  lemma FirstSetSelects(flags: seq<bool>, k: int)
    ensures Selects(flags, k) <==> k == FirstSet(flags)
  {
  }

  /** No action flag is set. */
  predicate NoneSet(flags: seq<bool>) {
    true !in flags
  }

  /** Every path argument of the call the operation makes is non-empty. */
  predicate IdentifiersPresent(op: Operation) {
    forall i :: 0 <= i < |PathArguments(op)| ==> PathArguments(op)[i] != ""
  }

  /** The value of a present, non-empty option. */
  function Given(o: Option<string>): string
    requires !NullOrEmpty(o)
  {
    o.value
  }

  // ---- domains ----

  function DomainsOrder(f: DomainsFlags): seq<bool> {
    [f.list, f.add, f.remove, f.listRecords, f.addRecord, f.removeRecord]
  }

  /** The action flag, in `DomainsOrder`, that selects each domains operation. */
  function DomainsRank(op: Operation): int {
    if op.GetDomains? then 0
    else if op.AddDomain? then 1
    else if op.DeleteDomain? then 2
    else if op.GetDomainRecords? then 3
    else if op.AddDomainRecord? then 4
    else if op.DeleteDomainRecord? then 5
    else -1
  }

  function Domains(f: DomainsFlags, dec: Decoders): (a: Action)
    ensures a.Idle? <==> NoneSet(DomainsOrder(f))
    ensures a.Invoke? ==> Selects(DomainsOrder(f), DomainsRank(a.op)) && IdentifiersPresent(a.op)
    ensures a.Invoke? ==> (a.printsTrue <==> a.op.DeleteDomainRecord?)
    ensures !f.list && (f.add || f.remove || f.listRecords || f.addRecord || f.removeRecord) && NullOrEmpty(f.domainName) ==> a == Fail(MISSING_DOMAIN_NAME)
  {
    if f.list then Invoke(GetDomains, false)
    else if f.add then
      if NullOrEmpty(f.domainName) then Fail(MISSING_DOMAIN_NAME)
      else Invoke(AddDomain(Given(f.domainName), f.externalDNS), false)
    else if f.remove then
      if NullOrEmpty(f.domainName) then Fail(MISSING_DOMAIN_NAME)
      else Invoke(DeleteDomain(Given(f.domainName)), false)
    else if f.listRecords then
      if NullOrEmpty(f.domainName) then Fail(MISSING_DOMAIN_NAME)
      else Invoke(GetDomainRecords(Given(f.domainName)), false)
    else if f.addRecord then
      if NullOrEmpty(f.domainName) then Fail(MISSING_DOMAIN_NAME)
      else if NullOrEmpty(f.recordData) then Fail(MISSING_RECORD_DATA)
      else
        (match dec.record(Given(f.recordData))
         case Ok(record) => Invoke(AddDomainRecord(Given(f.domainName), record), false)
         case Err(e) => Fail(e))
    else if f.removeRecord then
      if NullOrEmpty(f.domainName) then Fail(MISSING_DOMAIN_NAME)
      else if NullOrEmpty(f.recordId) then Fail(MISSING_RECORD_ID)
      else Invoke(DeleteDomainRecord(Given(f.domainName), Given(f.recordId)), true)
    else Idle
  }

  // ---- deployments ----

  function DeploymentsOrder(f: DeploymentsFlags): seq<bool> {
    [f.list, f.add, f.remove, f.listFiles, f.getFile]
  }

  function DeploymentsRank(op: Operation): int {
    if op.GetDeployments? || op.GetDeployment? then 0
    else if op.CreateDeployment? then 1
    else if op.DeleteDeployment? then 2
    else if op.GetFiles? then 3
    else if op.GetFileAsString? then 4
    else -1
  }

  function Deployments(f: DeploymentsFlags, dec: Decoders): (a: Action)
    ensures a.Idle? <==> NoneSet(DeploymentsOrder(f))
    ensures a.Invoke? ==> Selects(DeploymentsOrder(f), DeploymentsRank(a.op)) && IdentifiersPresent(a.op)
    ensures a.Invoke? ==> (a.printsTrue <==> a.op.DeleteDeployment?)
    ensures f.list ==> a.Invoke? && (a.op.GetDeployment? <==> !NullOrEmpty(f.deploymentId))
  {
    if f.list then
      if NullOrEmpty(f.deploymentId) then Invoke(GetDeployments, false)
      else Invoke(GetDeployment(Given(f.deploymentId)), false)
    else if f.add then
      if NullOrEmpty(f.deploymentData) then Fail(MISSING_DEPLOYMENT_DATA)
      else
        (match dec.files(Given(f.deploymentData))
         case Ok(files) => Invoke(CreateDeployment(files), false)
         case Err(e) => Fail(e))
    else if f.remove then
      if NullOrEmpty(f.deploymentId) then Fail(MISSING_DEPLOYMENT_ID)
      else Invoke(DeleteDeployment(Given(f.deploymentId)), true)
    else if f.listFiles then
      if NullOrEmpty(f.deploymentId) then Fail(MISSING_DEPLOYMENT_ID)
      else Invoke(GetFiles(Given(f.deploymentId)), false)
    else if f.getFile then
      if NullOrEmpty(f.deploymentId) then Fail(MISSING_DEPLOYMENT_ID)
      else if NullOrEmpty(f.fileId) then Fail(MISSING_FILE_ID)
      else Invoke(GetFileAsString(Given(f.deploymentId), Given(f.fileId)), false)
    else Idle
  }

  // ---- secrets ----

  function SecretsOrder(f: SecretsFlags): seq<bool> {
    [f.list, f.add, f.rename, f.remove]
  }

  function SecretsRank(op: Operation): int {
    if op.GetSecrets? then 0
    else if op.CreateSecret? then 1
    else if op.RenameSecret? then 2
    else if op.DeleteSecret? then 3
    else -1
  }

  /** The secret a removal targets, as written: the uid when the uid is absent, otherwise the name. */
  function SecretTarget(f: SecretsFlags): (t: Option<string>)
    ensures !NullOrEmpty(t) <==> !NullOrEmpty(f.uid) && !NullOrEmpty(f.name)
  {
    if NullOrEmpty(f.uid) then f.uid else f.name
  }

  /** The secret a removal targets: the uid when given, otherwise the name. */
  function SecretTargetIntended(f: SecretsFlags): (t: Option<string>)
    ensures !NullOrEmpty(t) <==> !NullOrEmpty(f.uid) || !NullOrEmpty(f.name)
    ensures !NullOrEmpty(f.uid) ==> t == f.uid
  {
    if !NullOrEmpty(f.uid) then f.uid else f.name
  }

  /** The secrets command, with the removal target chosen by `target`. */
  function SecretsWith(f: SecretsFlags, target: Option<string>): (a: Action)
    ensures a.Idle? <==> NoneSet(SecretsOrder(f))
    ensures a.Invoke? ==> Selects(SecretsOrder(f), SecretsRank(a.op)) && IdentifiersPresent(a.op) && !a.printsTrue
    ensures !f.list && !f.add && !f.rename && f.remove ==>
              (a.Invoke? <==> !NullOrEmpty(target)) && (a.Invoke? ==> a.op == DeleteSecret(target.value))
  {
    if f.list then Invoke(GetSecrets, false)
    else if f.add then
      if NullOrEmpty(f.name) then Fail(MISSING_NAME)
      else if NullOrEmpty(f.value) then Fail(MISSING_VALUE)
      else Invoke(CreateSecret(Given(f.name), Given(f.value)), false)
    else if f.rename then
      if NullOrEmpty(f.uid) then Fail(MISSING_UID)
      else if NullOrEmpty(f.name) then Fail(MISSING_NAME)
      else Invoke(RenameSecret(Given(f.uid), Given(f.name)), false)
    else if f.remove then
      if NullOrEmpty(target) then Fail(MISSING_SECRET_TARGET)
      else Invoke(DeleteSecret(Given(target)), false)
    else Idle
  }

  /** The secrets command as written. */
  function Secrets(f: SecretsFlags): (a: Action)
    ensures !f.list && !f.add && !f.rename && f.remove ==>
              (a.Invoke? <==> !NullOrEmpty(f.uid) && !NullOrEmpty(f.name)) && (a.Invoke? ==> a.op == DeleteSecret(f.name.value))
  {
    SecretsWith(f, SecretTarget(f))
  }

  /** The secrets command with the uid taking precedence over the name on removal. */
  function SecretsIntended(f: SecretsFlags): (a: Action)
    ensures !f.list && !f.add && !f.rename && f.remove ==>
              && (a.Invoke? <==> !NullOrEmpty(f.uid) || !NullOrEmpty(f.name))
              && (!NullOrEmpty(f.uid) ==> a == Invoke(DeleteSecret(f.uid.value), false))
  {
    SecretsWith(f, SecretTargetIntended(f))
  }

  // ---- certificates ----

  function CertsOrder(f: CertsFlags): seq<bool> {
    [f.list, f.add, f.renew, f.replace, f.remove]
  }

  function CertsRank(op: Operation): int {
    if op.GetCertificates? then 0
    else if op.CreateCertificate? then 1
    else if op.RenewCertificate? then 2
    else if op.ReplaceCertificate? then 3
    else if op.DeleteCertificate? then 4
    else -1
  }

  /** Issuing, renewing and replacing take the `--domain` list as it is, even empty. */
  function Certs(f: CertsFlags): (a: Action)
    ensures a.Idle? <==> NoneSet(CertsOrder(f))
    ensures a.Invoke? ==> Selects(CertsOrder(f), CertsRank(a.op)) && IdentifiersPresent(a.op)
    ensures a.Invoke? ==> (a.printsTrue <==> a.op.DeleteCertificate?)
    ensures a.Fail? ==> a.error == MISSING_CN && NullOrEmpty(f.commonName)
    ensures a.Invoke? && (a.op.CreateCertificate? || a.op.RenewCertificate? || a.op.ReplaceCertificate?) ==>
              a.op.domains == f.domains
  {
    if f.list then
      if NullOrEmpty(f.commonName) then Fail(MISSING_CN)
      else Invoke(GetCertificates(Given(f.commonName)), false)
    else if f.add then Invoke(CreateCertificate(f.domains), false)
    else if f.renew then Invoke(RenewCertificate(f.domains), false)
    else if f.replace then Invoke(ReplaceCertificate(f.domains, f.ca, f.cert, f.key), false)
    else if f.remove then
      if NullOrEmpty(f.commonName) then Fail(MISSING_CN)
      else Invoke(DeleteCertificate(Given(f.commonName)), true)
    else Idle
  }

  // ---- aliases ----

  function AliasesOrder(f: AliasesFlags): seq<bool> {
    [f.list, f.remove, f.add]
  }

  function AliasesRank(op: Operation): int {
    if op.GetAliases? || op.GetDeploymentAliases? then 0
    else if op.DeleteAlias? then 1
    else if op.CreateDeploymentAlias? then 2
    else -1
  }

  function Aliases(f: AliasesFlags): (a: Action)
    ensures a.Idle? <==> NoneSet(AliasesOrder(f))
    ensures a.Invoke? ==> Selects(AliasesOrder(f), AliasesRank(a.op)) && IdentifiersPresent(a.op)
    ensures a.Invoke? ==> (a.printsTrue <==> a.op.DeleteAlias?)
    ensures f.list ==> a.Invoke? && (a.op.GetDeploymentAliases? <==> !NullOrEmpty(f.deploymentId))
  {
    if f.list then
      if NullOrEmpty(f.deploymentId) then Invoke(GetAliases, false)
      else Invoke(GetDeploymentAliases(Given(f.deploymentId)), false)
    else if f.remove then
      if NullOrEmpty(f.aliasId) then Fail(MISSING_ALIAS_ID)
      else Invoke(DeleteAlias(Given(f.aliasId)), true)
    else if f.add then
      if NullOrEmpty(f.deploymentId) then Fail(MISSING_DEPLOYMENT_ID)
      else if NullOrEmpty(f.alias) then Fail(MISSING_ALIAS)
      else Invoke(CreateDeploymentAlias(Given(f.deploymentId), Given(f.alias)), false)
    else Idle
  }

  /**
    Runs an action against one exchange with the service (blocking form):
    nothing happens when idle, a usage error is thrown as is, otherwise the
    result is printed as JSON unless it is null, or `true` is printed.
   */
  function Work<B>(a: Action, ex: Exchange<B>): (r: Result<Output<B>>)
    ensures a.Idle? ==> r == Ok(Silent)
    ensures a.Fail? ==> r == Err(a.error)
    ensures a.Invoke? ==> (r.Err? <==> Blocking(a.op, ex).Err?)
    ensures a.Invoke? && r.Err? ==> r.error == Blocking(a.op, ex).error
    ensures r == Ok(Silent) ==> a.Idle? || (a.Invoke? && !a.printsTrue && Blocking(a.op, ex) == Ok(Null))
    ensures r == Ok(JsonTrue) <==> a.Invoke? && a.printsTrue && Blocking(a.op, ex).Ok?
    ensures a.Invoke? && !a.printsTrue && Blocking(a.op, ex) == Ok(Null) ==> r == Ok(Silent)
    ensures a.Invoke? && !a.printsTrue && Blocking(a.op, ex).Ok? && Blocking(a.op, ex).value != Null ==>
              r == Ok(Json(Blocking(a.op, ex).value))
    ensures r.Ok? && r.value.Json? ==>
              a.Invoke? && !a.printsTrue && Blocking(a.op, ex) == Ok(r.value.value) && r.value.value != Null
  {
    match a
    case Idle => Ok(Silent)
    case Fail(e) => Err(e)
    case Invoke(op, printsTrue) =>
      (match Blocking(op, ex)
       case Err(e) => Err(e)
       case Ok(v) =>
         if printsTrue then Ok(JsonTrue)
         else if v == Null then Ok(Silent)
         else Ok(Json(v)))
  }

  /** As written, removing a secret needs both `--uid` and `--name`, and then deletes by name. */
  lemma SecretRemovalAsWritten(f: SecretsFlags)
    requires !f.list && !f.add && !f.rename && f.remove
    ensures Secrets(f).Invoke? <==> !NullOrEmpty(f.uid) && !NullOrEmpty(f.name)
    ensures Secrets(f).Invoke? ==> Secrets(f).op == DeleteSecret(f.name.value)
    ensures Secrets(f).Fail? ==> Secrets(f).error == MISSING_SECRET_TARGET
  {
  }

  /** A uid alone, or a name alone, is rejected as written and accepted by the intended removal. */
  lemma SecretRemovalCounterexamples()
    ensures var byUid := SecretsFlags(false, false, false, true, None, None, Some("u1"));
      && Secrets(byUid) == Fail(MISSING_SECRET_TARGET)
      && SecretsIntended(byUid) == Invoke(DeleteSecret("u1"), false)
    ensures var byName := SecretsFlags(false, false, false, true, Some("db"), None, None);
      && Secrets(byName) == Fail(MISSING_SECRET_TARGET)
      && SecretsIntended(byName) == Invoke(DeleteSecret("db"), false)
  {
  }

  /** The intended removal deletes by uid when one is given, otherwise by name, and fails only when neither is. */
  lemma SecretRemovalIntended(f: SecretsFlags)
    requires !f.list && !f.add && !f.rename && f.remove
    ensures SecretsIntended(f).Invoke? <==> !NullOrEmpty(f.uid) || !NullOrEmpty(f.name)
    ensures !NullOrEmpty(f.uid) ==> SecretsIntended(f) == Invoke(DeleteSecret(f.uid.value), false)
    ensures NullOrEmpty(f.uid) && !NullOrEmpty(f.name) ==> SecretsIntended(f) == Invoke(DeleteSecret(f.name.value), false)
  {
  }

  /** The two secrets commands differ only in which secret a removal targets. */
  lemma SecretsDifferOnlyOnRemoval(f: SecretsFlags)
    requires f.list || f.add || f.rename || !f.remove
    ensures Secrets(f) == SecretsIntended(f)
  {
  }

  /** Lower-priority flags are ignored: listing wins over every other action flag and option. */
  lemma ListingWins(d: DomainsFlags, p: DeploymentsFlags, s: SecretsFlags, c: CertsFlags, a: AliasesFlags, dec: Decoders)
    requires d.list && p.list && s.list && a.list
    ensures Domains(d, dec) == Invoke(GetDomains, false)
    ensures Deployments(p, dec).Invoke? && Deployments(p, dec).op in {GetDeployments, GetDeployment(p.deploymentId.GetOr(""))}
    ensures Secrets(s) == Invoke(GetSecrets, false) && SecretsIntended(s) == Invoke(GetSecrets, false)
    ensures Aliases(a).Invoke? && Aliases(a).op in {GetAliases, GetDeploymentAliases(a.deploymentId.GetOr(""))}
    ensures c.list && NullOrEmpty(c.commonName) ==> Certs(c) == Fail(MISSING_CN)
  {
  }

  /** Domains: the option checks of each action, in order, and the call each action makes. */
  lemma DomainsOptions(f: DomainsFlags, dec: Decoders)
    requires !f.list
    ensures f.add && !NullOrEmpty(f.domainName) ==> Domains(f, dec) == Invoke(AddDomain(f.domainName.value, f.externalDNS), false)
    ensures !f.add && f.remove && !NullOrEmpty(f.domainName) ==> Domains(f, dec) == Invoke(DeleteDomain(f.domainName.value), false)
    ensures !f.add && !f.remove && f.listRecords && !NullOrEmpty(f.domainName) ==>
              Domains(f, dec) == Invoke(GetDomainRecords(f.domainName.value), false)
    ensures !f.add && !f.remove && !f.listRecords && f.addRecord && !NullOrEmpty(f.domainName) ==>
              && (NullOrEmpty(f.recordData) ==> Domains(f, dec) == Fail(MISSING_RECORD_DATA))
              && (!NullOrEmpty(f.recordData) && dec.record(f.recordData.value).Ok? ==>
                    Domains(f, dec) == Invoke(AddDomainRecord(f.domainName.value, dec.record(f.recordData.value).value), false))
    ensures !f.add && !f.remove && !f.listRecords && !f.addRecord && f.removeRecord && !NullOrEmpty(f.domainName) ==>
              && (NullOrEmpty(f.recordId) ==> Domains(f, dec) == Fail(MISSING_RECORD_ID))
              && (!NullOrEmpty(f.recordId) ==> Domains(f, dec) == Invoke(DeleteDomainRecord(f.domainName.value, f.recordId.value), true))
  {
  }

  /** Deployments: the option checks of each action, in order, and the call each action makes. */
  lemma DeploymentsOptions(f: DeploymentsFlags, dec: Decoders)
    requires !f.list
    ensures f.add ==>
              && (NullOrEmpty(f.deploymentData) ==> Deployments(f, dec) == Fail(MISSING_DEPLOYMENT_DATA))
              && (!NullOrEmpty(f.deploymentData) && dec.files(f.deploymentData.value).Ok? ==>
                    Deployments(f, dec) == Invoke(CreateDeployment(dec.files(f.deploymentData.value).value), false))
    ensures !f.add && (f.remove || f.listFiles || f.getFile) && NullOrEmpty(f.deploymentId) ==>
              Deployments(f, dec) == Fail(MISSING_DEPLOYMENT_ID)
    ensures !f.add && f.remove && !NullOrEmpty(f.deploymentId) ==>
              Deployments(f, dec) == Invoke(DeleteDeployment(f.deploymentId.value), true)
    ensures !f.add && !f.remove && f.listFiles && !NullOrEmpty(f.deploymentId) ==>
              Deployments(f, dec) == Invoke(GetFiles(f.deploymentId.value), false)
    ensures !f.add && !f.remove && !f.listFiles && f.getFile && !NullOrEmpty(f.deploymentId) ==>
              && (NullOrEmpty(f.fileId) ==> Deployments(f, dec) == Fail(MISSING_FILE_ID))
              && (!NullOrEmpty(f.fileId) ==> Deployments(f, dec) == Invoke(GetFileAsString(f.deploymentId.value, f.fileId.value), false))
  {
  }

  /** Secrets: adding needs a name then a value; renaming needs a uid then a name and renames that uid. */
  lemma SecretsOptions(f: SecretsFlags)
    requires !f.list
    ensures f.add ==>
              && (NullOrEmpty(f.name) ==> Secrets(f) == Fail(MISSING_NAME))
              && (!NullOrEmpty(f.name) && NullOrEmpty(f.value) ==> Secrets(f) == Fail(MISSING_VALUE))
              && (!NullOrEmpty(f.name) && !NullOrEmpty(f.value) ==> Secrets(f) == Invoke(CreateSecret(f.name.value, f.value.value), false))
    ensures !f.add && f.rename ==>
              && (NullOrEmpty(f.uid) ==> Secrets(f) == Fail(MISSING_UID))
              && (!NullOrEmpty(f.uid) && NullOrEmpty(f.name) ==> Secrets(f) == Fail(MISSING_NAME))
              && (!NullOrEmpty(f.uid) && !NullOrEmpty(f.name) ==> Secrets(f) == Invoke(RenameSecret(f.uid.value, f.name.value), false))
  {
  }

  /** Certificates: listing and removal need `--cn`; issuing, renewing and replacing forward their inputs unchecked. */
  lemma CertsOptions(f: CertsFlags)
    ensures f.list ==> Certs(f) == (if NullOrEmpty(f.commonName) then Fail(MISSING_CN) else Invoke(GetCertificates(f.commonName.value), false))
    ensures !f.list && f.add ==> Certs(f) == Invoke(CreateCertificate(f.domains), false)
    ensures !f.list && !f.add && f.renew ==> Certs(f) == Invoke(RenewCertificate(f.domains), false)
    ensures !f.list && !f.add && !f.renew && f.replace ==> Certs(f) == Invoke(ReplaceCertificate(f.domains, f.ca, f.cert, f.key), false)
    ensures !f.list && !f.add && !f.renew && !f.replace && f.remove ==>
              Certs(f) == (if NullOrEmpty(f.commonName) then Fail(MISSING_CN) else Invoke(DeleteCertificate(f.commonName.value), true))
  {
  }

  /** Aliases: removal needs `--aliasId` and wins over adding, which needs a deployment then an alias. */
  lemma AliasesOptions(f: AliasesFlags)
    requires !f.list
    ensures f.remove ==>
              Aliases(f) == (if NullOrEmpty(f.aliasId) then Fail(MISSING_ALIAS_ID) else Invoke(DeleteAlias(f.aliasId.value), true))
    ensures !f.remove && f.add ==>
              && (NullOrEmpty(f.deploymentId) ==> Aliases(f) == Fail(MISSING_DEPLOYMENT_ID))
              && (!NullOrEmpty(f.deploymentId) && NullOrEmpty(f.alias) ==> Aliases(f) == Fail(MISSING_ALIAS))
              && (!NullOrEmpty(f.deploymentId) && !NullOrEmpty(f.alias) ==>
                    Aliases(f) == Invoke(CreateDeploymentAlias(f.deploymentId.value, f.alias.value), false))
  {
  }
}
