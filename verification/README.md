# now4j, modelled in Dafny

now4j is a Java client for the ZEIT Now REST API. It has three layers:

- a facade (`NowClient`, behind the `Now` contract) with a blocking form and a callback form of every operation;
- a Retrofit service interface (`NowService`) that declares one HTTP endpoint per operation;
- OkHttp interceptors that decorate every request with JSON headers, the bearer token and an optional `team` query parameter.

Two command-line launchers sit on top of the facade. They pick a client construction from `--token`/`--team` and hand it to one of the `aliases`, `certs`, `deployments`, `domains` or `secrets` commands. Each command turns its flags into one facade call.

This project models the decision logic of those layers as pure functions over immutable values and proves properties about them:

- **`JavaText`**: the Java semantics the code relies on. This covers `String.trim()` versus `isEmpty()`, null-safe `equals`, 32-bit `int` arithmetic in `hashCode`, and the exceptions raised.
- **`Http`**: requests as verb, relative path, query parameters and headers, plus Retrofit's notion of a successful response.
- **`Endpoints`**: the 24 endpoint declarations as a table. It includes an inverse lookup, placeholder expansion, and the body/verb discipline.
- **`Decorators`**: the three interceptors as request transforms, and the chain that runs them in order.
- **`Clients`**: where the token and team come from (`~/.now.json`, system properties, environment, explicit arguments), which construction fails and how, and which decorators are installed.
- **`Operations`**: for every facade operation, the call it prepares and the request that leaves the chain. It also covers how a response becomes a value or an exception, in the blocking and the callback form.
- **`Deployments`, `Domains`, `DomainRecords`**: the value records, with their accessors, `equals` and `hashCode`.
- **`Subcommands`**: each command's `work()` as a priority-ordered decision over its parsed flags, and what it prints.
- **`Launcher`**: the two `main` methods: help, client selection and command lookup.

Several things are inputs rather than modelled behaviour:

- **Sources.** What the file, the properties and the environment hold is a value (`Clients.Sources`).
- **Response bodies.** A decoded body is a type parameter `B`. The facade's use of it (the whole body, or one getter such as `getUid()`) is recorded by `Operations.Value`.
- **JSON options.** The JSON-valued command-line options are decoded by functions passed in (`Subcommands.Decoders`).
- **Hash values.** The hash of a non-null field value is a function parameter.

Where the code and its documentation disagree, the model follows the code:

- `getFiles` returns null for a successful response without a body, where every other list operation returns an empty list (`Operations.GetFilesMayReturnNull`).
- The comment at `cli/.../Now.java:87` says the team is read from `~/.now.json`, but `create(token)` sets no team (`Clients.ExplicitConstruction`).
- The comment in `CommandSecrets` says the uid takes precedence on removal, but the code does otherwise. `Subcommands.Secrets`, and through it `Launcher.Decide` and `Launcher.Launch`, remove as the code does (see Findings).
- The implicit constructor stores the token as the team when a team is found. `Clients.Create`, and through it `Launcher.Launch`, do the same (see Findings).

The corrected behaviour of the two findings lives beside the as-written one, in `Clients.CreateIntended` and `Launcher.DecideIntended`. Nothing else in the model uses them.

## Model

| member | source | states |
|---|---|---|
| JavaText.Trim | src/main/java/org/rm3l/now4j/NowClient.java:94-106 | `trim()` result neither starts nor ends with a character at or below U+0020, and is empty exactly when every character of the input is such a character |
| JavaText.TrimIsInfix | src/main/java/org/rm3l/now4j/NowClient.java:94-106 | `trim()` drops only characters at or below U+0020, and only from the two ends: its result is a contiguous part of the input with nothing but such characters before and after it |
| JavaText.TrimStartSpec | src/main/java/org/rm3l/now4j/NowClient.java:94-106 | the leading step of `trim()` removes a prefix of characters at or below U+0020 and stops at the first other character |
| JavaText.TrimEndSpec | src/main/java/org/rm3l/now4j/NowClient.java:94-106 | the trailing step of `trim()` removes a suffix of characters at or below U+0020 and stops at the last other character |
| JavaText.TrimIdempotent | src/main/java/org/rm3l/now4j/interceptors/Now4jInterceptors.java:91 | trimming an already trimmed value changes nothing |
| JavaText.TrimKeeps | src/main/java/org/rm3l/now4j/NowClient.java:122 | a string whose ends are not whitespace is its own trim and is not blank |
| JavaText.BlankIsNotEmpty | cli/src/main/java/org/rm3l/now4j/cli/Now.java:80 | a space-only string is blank for `trim().isEmpty()` but not empty for `isEmpty()`: the two emptiness tests in the code differ |
| JavaText.Wrap32 | src/main/java/org/rm3l/now4j/resources/domains/Domain.java:111-118 | Java `int` arithmetic: the result is a 32-bit value congruent to the input modulo 2^32, and a 32-bit input is unchanged |
| JavaText.HashFold | src/main/java/org/rm3l/now4j/resources/domains/Domain.java:110-118 | the `31 * result + h` fold always stays within the `int` range |
| Http.Values | src/main/java/org/rm3l/now4j/interceptors/Now4jInterceptors.java:48-51 | the values recorded under a header name all come from pairs with that name, and there are no more values than pairs |
| Http.ValuesAppend | src/main/java/org/rm3l/now4j/interceptors/Now4jInterceptors.java:48-51 | the values under a name in a concatenation are the values of each part, in order |
| Endpoints.TableShape | src/main/java/org/rm3l/now4j/api/NowService.java:49-128 | the table lists exactly 24 endpoints, pairwise distinct, and every endpoint is in it |
| Endpoints.RouteIdentifies | src/main/java/org/rm3l/now4j/api/NowService.java:49-128 | looking up an endpoint's verb and template finds that endpoint again |
| Endpoints.RoutesDistinct | src/main/java/org/rm3l/now4j/api/NowService.java:49-128 | no two endpoints share both verb and path template |
| Endpoints.PlaceholdersMatchParameters | src/main/java/org/rm3l/now4j/api/NowService.java:52-128 | the placeholders of every template are exactly the `@Path` parameters of its method, in order |
| Endpoints.BodyOnlyWithWriteVerbs | src/main/java/org/rm3l/now4j/api/NowService.java:52-128 | an endpoint takes a `@Body` exactly when its verb is POST, PUT or PATCH |
| Endpoints.RelativePaths | src/main/java/org/rm3l/now4j/api/NowService.java:49-128 | every template starts with a non-empty literal that is not `/` |
| Endpoints.NotableRoutes | src/main/java/org/rm3l/now4j/api/NowService.java:92-128 | issue (POST) and create-or-replace (PUT) share `now/certs`; edit (PATCH) and delete (DELETE) share the secret template; deployment aliases lack the `now/` prefix that `now/aliases` has |
| Endpoints.Placeholders | src/main/java/org/rm3l/now4j/api/NowService.java:52-128 | the named `{...}` parameters of a template, in order; there are no more of them than segments |
| Endpoints.PlaceholdersAppend | src/main/java/org/rm3l/now4j/api/NowService.java:52-128 | the placeholders of a concatenation are those of each part, in order |
| Endpoints.Expand | src/main/java/org/rm3l/now4j/api/NowService.java:49-128 | an expanded path starts with the first character of its template's leading literal word, so it never starts with `/` |
| Endpoints.ExpandSplits | src/main/java/org/rm3l/now4j/api/NowService.java:49-128 | when no argument contains `/`, splitting an expanded path at its slashes gives one piece per template segment. Each literal gives its word, and the k-th placeholder gives the k-th argument |
| Decorators.AddHeader | src/main/java/org/rm3l/now4j/interceptors/Now4jInterceptors.java:48-51 | `addHeader` appends: the target and earlier headers are kept, the name gains the value at the end, and every other name is unchanged |
| Decorators.AddHeaders | src/main/java/org/rm3l/now4j/interceptors/Now4jInterceptors.java:44-54 | the headers decorator appends `Content-Type: application/json` and `X-Requested-By: org.rm3l.now4j.NowClient` and changes nothing else |
| Decorators.Authenticate | src/main/java/org/rm3l/now4j/interceptors/Now4jInterceptors.java:56-73 | the authentication decorator appends exactly `Authorization: Bearer <token>` and changes nothing else |
| Decorators.EffectiveTeam | src/main/java/org/rm3l/now4j/interceptors/Now4jInterceptors.java:77-92 | a team applies exactly when it is non-null and does not trim to `NO_TEAM`; the team applied is the trimmed value |
| Decorators.ScopeToTeam | src/main/java/org/rm3l/now4j/interceptors/Now4jInterceptors.java:88-102 | with no effective team the request is forwarded unchanged; otherwise `team=<trimmed team>` is appended to the query, keeping verb, path, headers and earlier parameters |
| Decorators.Trace | src/main/java/org/rm3l/now4j/interceptors/Now4jInterceptors.java:44-103 | each decorator proceeds exactly once, with its own transform of the request it received |
| Decorators.Outgoing | src/main/java/org/rm3l/now4j/interceptors/Now4jInterceptors.java:44-103 | the request sent is the last request of the trace |
| Decorators.NoTeamIsNoScope | src/main/java/org/rm3l/now4j/interceptors/Now4jInterceptors.java:77-100 | a null team and `NO_TEAM` both leave the request unchanged |
| Decorators.StandardChainOutgoing | src/main/java/org/rm3l/now4j/NowClient.java:153-162 | the standard chain keeps the target, appends the content type, client name and bearer headers in that order, and adds `team` exactly when the team is not blank |
| Decorators.TeamScopeCommutes | src/main/java/org/rm3l/now4j/interceptors/Now4jInterceptors.java:44-102 | the team decorator commutes with the header decorators |
| Decorators.TokenOnlyChangesAuthorization | src/main/java/org/rm3l/now4j/NowClient.java:153-162 | two clients that differ only in token send requests that differ only in the `Authorization` header |
| Decorators.WithoutTeamScope | src/main/java/org/rm3l/now4j/NowClient.java:158-159 | the `team` parameter comes from the team decorator alone |
| Clients.DropBlank | src/main/java/org/rm3l/now4j/NowClient.java:102-107 | a value found is dropped exactly when it is null or blank, and kept unchanged otherwise |
| Clients.ResolveImplicit | src/main/java/org/rm3l/now4j/NowClient.java:77-114 | the implicit constructor as written: it fails only with "Token not found", and the token is never blank. When `~/.now.json` exists, its token is the token if usable, and otherwise resolution fails. A team found is replaced by the token |
| Clients.ResolveImplicitIntended | src/main/java/org/rm3l/now4j/NowClient.java:77-114 | the implicit constructor with the team resolved like the token: it fails only with "Token not found", and the token is never blank |
| Clients.ResolveExplicit | src/main/java/org/rm3l/now4j/NowClient.java:117-128 | a token constructor fails exactly when the token is blank, with "Token cannot be NULL or blank", and otherwise keeps token and team unchanged |
| Clients.Build | src/main/java/org/rm3l/now4j/NowClient.java:153-162 | the client keeps the resolved token and team, and its transport is the standard decorator chain for them |
| Clients.BuiltClientSends | src/main/java/org/rm3l/now4j/NowClient.java:153-162 | every request a built client sends keeps its verb and path. It gains the content type, client name and `Bearer <token>` headers in that order, and a `team=<trimmed team>` parameter exactly when the team is not blank |
| Clients.Create | src/main/java/org/rm3l/now4j/NowClient.java:130-151 | the overloads as written. `create()` fails exactly when the implicit resolution does, with "Token not found", and otherwise holds the credentials it resolved, including the token as the team. `create(token)` and `create(token, team)` fail exactly for a blank token, and otherwise keep the token and the given team, none for `create(token)`. `create(httpClient)` always succeeds with token `""` and no team |
| Clients.CreateIntended | src/main/java/org/rm3l/now4j/NowClient.java:130-151 | the overloads with the implicit team resolved as intended. It agrees with `Create` on every other overload, and on the failures and tokens of `create()`. Its team is the one the intended resolution finds |
| Clients.FileShadowsVariables | src/main/java/org/rm3l/now4j/NowClient.java:82-91 | when `~/.now.json` exists, properties and environment play no part |
| Clients.FileWithoutToken | src/main/java/org/rm3l/now4j/NowClient.java:82-111 | a file without a usable token ends in "Token not found" whatever the variables hold |
| Clients.VariablePrecedence | src/main/java/org/rm3l/now4j/NowClient.java:93-111 | without the file, the token is the property, or the environment value when the property is null or blank; with neither, resolution fails |
| Clients.TeamReplacedByToken | src/main/java/org/rm3l/now4j/NowClient.java:113 | a file with token `tok` and team `acme` gives team `tok` as written, and `acme` as intended |
| Clients.IntendedTeam | src/main/java/org/rm3l/now4j/NowClient.java:90-113 | the intended resolution fails exactly when the written one does, has the same token, and takes its team from the same source as the token, blank dropped |
| Clients.ExplicitConstruction | src/main/java/org/rm3l/now4j/NowClient.java:117-147 | with a non-blank token, `create(token, team)` keeps both unchanged, and `create(token)` is `create(token, null)` |
| Clients.BlankTokenRejected | src/main/java/org/rm3l/now4j/NowClient.java:121-124 | a blank explicit token is rejected by both token constructors |
| Deployments.Get | src/main/java/org/rm3l/now4j/resources/deployments/Deployment.java:31-57 | each getter returns a value of its property's type |
| Deployments.StatesEnumerated | src/main/java/org/rm3l/now4j/resources/deployments/Deployment.java:88-96 | `State` has exactly seven distinct constants |
| Deployments.GetAfterSet | src/main/java/org/rm3l/now4j/resources/deployments/Deployment.java:31-61 | a setter followed by its getter returns the value set, and no other property changes |
| Deployments.EqualsIffSameUid | src/main/java/org/rm3l/now4j/resources/deployments/Deployment.java:64-71 | two deployments are equal exactly when their uids are, null equal to null |
| Deployments.EqualsIgnoresOtherFields | src/main/java/org/rm3l/now4j/resources/deployments/Deployment.java:70 | host, state and state timestamp do not affect equality, on either side |
| Deployments.EqualsIsEquivalence | src/main/java/org/rm3l/now4j/resources/deployments/Deployment.java:64-71 | equality is reflexive, symmetric and transitive, and never holds for null or another class |
| Deployments.HashCodeConsistent | src/main/java/org/rm3l/now4j/resources/deployments/Deployment.java:70-76 | equal deployments have equal hash codes, and a null uid hashes to 0 |
| Domains.Get | src/main/java/org/rm3l/now4j/resources/domains/Domain.java:37-91 | each getter returns a value of its property's type |
| Domains.HashCode | src/main/java/org/rm3l/now4j/resources/domains/Domain.java:110-118 | the hash code is a 32-bit value |
| Domains.GetAfterSet | src/main/java/org/rm3l/now4j/resources/domains/Domain.java:37-91 | a setter followed by its getter (`setExternal`/`getExternal` included) returns the value set, and no other property changes |
| Domains.EqualsIffFieldwise | src/main/java/org/rm3l/now4j/resources/domains/Domain.java:94-107 | two domains are equal exactly when all seven properties are, which is exactly when they are the same value |
| Domains.EqualsReflexiveNotNull | src/main/java/org/rm3l/now4j/resources/domains/Domain.java:95-96 | a domain equals itself and never equals null or an object of another class |
| Domains.HashCodeConsistent | src/main/java/org/rm3l/now4j/resources/domains/Domain.java:94-118 | equal domains have equal hash codes |
| DomainRecords.Get | src/main/java/org/rm3l/now4j/resources/domains/DomainRecord.java:35-97 | each getter returns a value of its property's type |
| DomainRecords.HashCode | src/main/java/org/rm3l/now4j/resources/domains/DomainRecord.java:117-127 | the hash code is a 32-bit value |
| DomainRecords.GetAfterSet | src/main/java/org/rm3l/now4j/resources/domains/DomainRecord.java:35-97 | a setter followed by its getter returns the value set, and no other property changes |
| DomainRecords.EqualsIffFieldwise | src/main/java/org/rm3l/now4j/resources/domains/DomainRecord.java:100-114 | two records are equal exactly when all eight properties are, which is exactly when they are the same value |
| DomainRecords.DifferentMxPriority | src/main/java/org/rm3l/now4j/resources/domains/DomainRecord.java:113 | records that differ only in MX priority are not equal |
| DomainRecords.EqualsReflexiveNotNull | src/main/java/org/rm3l/now4j/resources/domains/DomainRecord.java:101-102 | a record equals itself and never equals null or an object of another class |
| DomainRecords.HashCodeConsistent | src/main/java/org/rm3l/now4j/resources/domains/DomainRecord.java:100-127 | equal records have equal hash codes |
| Operations.Prepare | src/main/java/org/rm3l/now4j/NowClient.java:174-1018 | every facade operation calls an endpoint with one argument per placeholder, and sends a body exactly when the endpoint declares one |
| Operations.RequestOf | src/main/java/org/rm3l/now4j/api/NowService.java:49-128 | the request built for a call has the endpoint's verb and no query parameters or headers before decoration. When no argument contains `/`, its path splits into the template's words and the call's arguments in placeholder order |
| Operations.CallsFitTable | src/main/java/org/rm3l/now4j/api/NowService.java:52-128 | prepared calls fill every placeholder, and carry a body exactly when the verb is POST, PUT or PATCH |
| Operations.Interpret | src/main/java/org/rm3l/now4j/NowClient.java:175-183 | a transport failure is rethrown; an unsuccessful response throws `UnsuccessfulResponseException(code, message)`; a successful one fails only when the operation rejects a missing body |
| Operations.DeliverWith | src/main/java/org/rm3l/now4j/NowClient.java:186-204 | the callback form delivers exactly one notification |
| Operations.Deliver | src/main/java/org/rm3l/now4j/contract/Now.java:56-59 | every callback operation, as written, notifies exactly once, with a result or an exception |
| Operations.DeliverIntended | src/main/java/org/rm3l/now4j/NowClient.java:573-590 | the callback form with the blocking null-body policy also notifies exactly once |
| Operations.UnsuccessfulAlwaysFails | src/main/java/org/rm3l/now4j/contract/Now.java:49-50 | an unsuccessful response throws `UnsuccessfulResponseException(code, message)` when blocking, and reaches the callback as that single failure |
| Operations.FormsAgree | src/main/java/org/rm3l/now4j/NowClient.java:174-1018 | except for `deleteDomainRecord`, the callback form notifies exactly what the blocking form returns or throws |
| Operations.FormsAgreeIntended | src/main/java/org/rm3l/now4j/NowClient.java:565-590 | with the blocking null-body policy, the two forms agree for every operation |
| Operations.DeleteDomainRecordFormsDiverge | src/main/java/org/rm3l/now4j/NowClient.java:565-590 | a 204 response without a body succeeds in the blocking `deleteDomainRecord` and fails in the callback one |
| Operations.ListsNeverNull | src/main/java/org/rm3l/now4j/NowClient.java:399-406 | list operations return the wrapped list or, for a missing body, the empty list; never null as long as the wrapper's own list is non-null (see "## Left out"). `getDomains` is cited; the deployments, records, certificates, aliases and secrets getters have the same shape |
| Operations.ContractNotNullHolds | src/main/java/org/rm3l/now4j/contract/Now.java:52-53 | the `@NotNull` results of the interface (`getDeployments` is cited; `getDomains`, `addDomain` and `getDomainRecords` are marked the same way) are never null or nothing, as long as a list wrapper's own list is non-null (see "## Left out") |
| Operations.GetFilesMayReturnNull | src/main/java/org/rm3l/now4j/NowClient.java:296-303 | `getFiles` returns null for a successful response without a body |
| Operations.MissingBodyRejected | src/main/java/org/rm3l/now4j/NowClient.java:429-440 | a successful response without a body throws `UnsuccessfulResponseException`, in both forms. `addDomain` is cited; adding a record, issuing, renewing or replacing a certificate, and deleting an alias check the body the same way |
| Operations.DeletedDomainUid | src/main/java/org/rm3l/now4j/contract/Now.java:270-274 | `deleteDomain` returns the deleted domain's uid, or null without a body |
| Operations.ReplacementDate | src/main/java/org/rm3l/now4j/contract/Now.java:448-452 | `replaceCertificate` returns the date of the replacement |
| Operations.TransportFailurePropagates | src/main/java/org/rm3l/now4j/contract/Now.java:49-59 | a transport failure reaches the caller as that I/O error, in both forms |
| Operations.ListDomainsScenario | src/main/java/org/rm3l/now4j/NowClient.java:399-406 | with any non-blank team (say `myteam`), listing domains sends `GET domains?team=<trimmed team>` as its only query parameter, with the bearer header, and an empty successful response yields the empty list |
| Operations.DomainPath | src/main/java/org/rm3l/now4j/api/NowService.java:75-76 | the domain deletion template is `domains/{domain_name}`, and it expands to `domains/` followed by the name |
| Operations.DomainDeletionPath | src/main/java/org/rm3l/now4j/api/NowService.java:75-76 | before any decorator runs, deleting a domain is `DELETE domains/<name>` with no header and no query parameter |
| Operations.DomainsListPath | src/main/java/org/rm3l/now4j/api/NowService.java:69-70 | before any decorator runs, listing domains is `GET domains` with no header and no query parameter |
| Operations.DeleteDomainOutbound | src/main/java/org/rm3l/now4j/NowClient.java:467-474 | without a team, deleting a domain sends `DELETE domains/<name>` with no query parameter |
| Operations.NotFound | src/main/java/org/rm3l/now4j/contract/Now.java:49-50 | a 404 `Not Found` fails every operation with that code and message, in both forms |
| Subcommands.FirstSet | cli/src/main/java/org/rm3l/now4j/cli/subcommand/domains/CommandDomains.java:71-109 | the flag acted on is the first set one: every earlier flag is clear |
| Subcommands.FirstSetSelects | cli/src/main/java/org/rm3l/now4j/cli/subcommand/domains/CommandDomains.java:71-109 | the first set flag is the only position that satisfies the selection property |
| Subcommands.Domains | cli/src/main/java/org/rm3l/now4j/cli/subcommand/domains/CommandDomains.java:69-113 | nothing happens exactly when no action flag is set; the call made is the one of the first set flag, with non-empty path arguments; only record removal prints `true`; every action but listing needs `--domainName` |
| Subcommands.Deployments | src/main/java/org/rm3l/now4j/cli/subcommand/deployments/CommandDeployments.java:66-106 | nothing happens exactly when no action flag is set; the call made is the one of the first set flag, with non-empty path arguments; only removal prints `true`; listing fetches one deployment exactly when `--deploymentId` is given |
| Subcommands.SecretTarget | cli/src/main/java/org/rm3l/now4j/cli/subcommand/secrets/CommandSecrets.java:77-81 | as written, the removal target is usable exactly when both uid and name are given |
| Subcommands.SecretTargetIntended | cli/src/main/java/org/rm3l/now4j/cli/subcommand/secrets/CommandSecrets.java:77-81 | the intended target is usable when uid or name is given, and is the uid when there is one |
| Subcommands.SecretsWith | cli/src/main/java/org/rm3l/now4j/cli/subcommand/secrets/CommandSecrets.java:56-93 | nothing happens exactly when no action flag is set; the call made is the one of the first set flag, with non-empty path arguments; removal deletes the target exactly when the target is usable |
| Subcommands.Secrets | cli/src/main/java/org/rm3l/now4j/cli/subcommand/secrets/CommandSecrets.java:56-93 | as written, `-remove` deletes only when both `--uid` and `--name` are given, and then deletes by name |
| Subcommands.SecretsIntended | cli/src/main/java/org/rm3l/now4j/cli/subcommand/secrets/CommandSecrets.java:76-86 | as intended, `-remove` deletes when either option is given, by uid whenever the uid is given |
| Subcommands.Certs | src/main/java/org/rm3l/now4j/cli/subcommand/certs/CommandCertificates.java:67-92 | nothing happens exactly when no action flag is set; the call made is the one of the first set flag; only removal prints `true`; the only usage error is a missing `--cn`; the domain list is forwarded unchanged |
| Subcommands.Aliases | cli/src/main/java/org/rm3l/now4j/cli/subcommand/aliases/CommandAliases.java:52-80 | nothing happens exactly when no action flag is set; the call made is the one of the first set flag, removal before adding; only removal prints `true`; listing is per deployment exactly when `--deploymentId` is given |
| Subcommands.Work | cli/src/main/java/org/rm3l/now4j/cli/subcommand/domains/CommandDomains.java:69-113 | idle commands print nothing; usage errors and facade exceptions propagate; `true` is printed exactly for a successful removal that reports it; otherwise a null result prints nothing, and any other result is printed as JSON. Whatever is printed as JSON is the call's own non-null result |
| Subcommands.SecretRemovalAsWritten | cli/src/main/java/org/rm3l/now4j/cli/subcommand/secrets/CommandSecrets.java:76-86 | as written, removal succeeds only with both `--uid` and `--name`, and then deletes by name |
| Subcommands.SecretRemovalCounterexamples | cli/src/main/java/org/rm3l/now4j/cli/subcommand/secrets/CommandSecrets.java:76-86 | `--uid=u1` alone and `--name=db` alone are both rejected as written, and both delete as intended |
| Subcommands.SecretRemovalIntended | cli/src/main/java/org/rm3l/now4j/cli/subcommand/secrets/CommandSecrets.java:76-86 | intended removal deletes by uid when given, otherwise by name, and fails only when neither is given |
| Subcommands.SecretsDifferOnlyOnRemoval | cli/src/main/java/org/rm3l/now4j/cli/subcommand/secrets/CommandSecrets.java:56-93 | the corrected command decides like the written one whenever the decision is not a removal |
| Subcommands.ListingWins | cli/src/main/java/org/rm3l/now4j/cli/subcommand/aliases/CommandAliases.java:54-59 | the list flag wins over every other flag in every command |
| Subcommands.DomainsOptions | cli/src/main/java/org/rm3l/now4j/cli/subcommand/domains/CommandDomains.java:73-106 | each domains action checks its options in order (`--domainName`, then `--recordData` or `--recordId`) and passes them, with `--externalDNS`, to its call |
| Subcommands.DeploymentsOptions | src/main/java/org/rm3l/now4j/cli/subcommand/deployments/CommandDeployments.java:74-99 | add needs `--deploymentData`; remove, listFiles and getFile need `--deploymentId`, getFile then `--fileId`; each passes them to its call |
| Subcommands.SecretsOptions | cli/src/main/java/org/rm3l/now4j/cli/subcommand/secrets/CommandSecrets.java:60-75 | add needs `--name` then `--value`; rename needs `--uid` then `--name` and renames that uid |
| Subcommands.CertsOptions | src/main/java/org/rm3l/now4j/cli/subcommand/certs/CommandCertificates.java:69-85 | list and remove need `--cn`; add, renew and replace forward the domain list (and ca, cert, key) unchecked |
| Subcommands.AliasesOptions | cli/src/main/java/org/rm3l/now4j/cli/subcommand/aliases/CommandAliases.java:60-73 | remove needs `--aliasId`; add needs `--deploymentId` then `--alias` |
| Launcher.Selection | cli/src/main/java/org/rm3l/now4j/cli/Now.java:78-92 | a null or empty token selects `create()`; a token with a null or empty team selects `create(token)`; otherwise `create(token, team)` |
| Launcher.Launch | cli/src/main/java/org/rm3l/now4j/cli/Now.java:71-101 | a command word the launcher did not register is rejected while parsing, before help and the client. Otherwise usage is shown exactly for help in the current launcher, and a client error comes before the missing-command check. A dispatched command is registered, gets the client the as-written `create` overload builds, and acts as `Decide` says |
| Launcher.Decide | cli/src/main/java/org/rm3l/now4j/cli/Now.java:94-100 | the looked-up command's `work()` as written: idle exactly when none of its action flags is set, and every invoked operation has its identifiers. A secrets removal runs only with both `--uid` and `--name`, and then deletes by name |
| Launcher.DecideIntended | cli/src/main/java/org/rm3l/now4j/cli/Now.java:94-100 | the dispatch with secrets removal corrected: the same as `Decide` except for a removal, which runs when either option is given and deletes by uid when one is given |
| Launcher.SecretRemovalByUid | cli/src/main/java/org/rm3l/now4j/cli/subcommand/secrets/CommandSecrets.java:77-86 | through `main`, `secrets -remove --uid=u1` reaches the command and ends in "Missing one of --name or --uid options"; the corrected dispatch deletes `u1` |
| Launcher.LegacyCommands | src/main/java/org/rm3l/now4j/NowCLI.java:56-62 | the legacy launcher registers every command of the current one except `aliases` |
| Launcher.HelpHandling | src/main/java/org/rm3l/now4j/NowCLI.java:41-101 | the legacy launcher never consults `--help`; the current one answers it first; otherwise the two differ only on `aliases` |
| Launcher.GivenTokenIgnoresSources | cli/src/main/java/org/rm3l/now4j/cli/Now.java:83-92 | with a token on the command line, the file, properties and environment play no part |
| Launcher.WhitespaceTokenRejected | cli/src/main/java/org/rm3l/now4j/cli/Now.java:80-86 | a token of spaces passes the `isEmpty` test and is rejected by the token constructor: once the command word has parsed, this comes before the command is looked up |
| Launcher.NoCommand | cli/src/main/java/org/rm3l/now4j/cli/Now.java:94-98 | without a command, a launch whose client is built ends in the unsupported-command error naming `null` |
| Launcher.AliasesOnlyInCurrent | cli/src/main/java/org/rm3l/now4j/cli/Now.java:41-48 | the current launcher registers `aliases` and dispatches it once a client is built |
| Launcher.AliasesUnparsedByLegacy | src/main/java/org/rm3l/now4j/NowCLI.java:56-74 | `aliases` cannot be parsed by the legacy launcher: whatever the options and the sources, it is rejected before any client is built |
| Launcher.TokenAndTeamFlags | src/main/java/org/rm3l/now4j/NowCLI.java:76-100 | a non-blank token and a non-empty team give a client with exactly that token and team, and the command runs |

## Left out

- HTTP execution, Retrofit and OkHttp are left out: a response is an input value (`Http.Exchange`). The callback form is one list of notifications, with no threads.
- Gson decoding and encoding are left out. So are `ResponseBody.string()` and `byteStream()`. Bodies are opaque, and what is printed is the value, not its JSON text.
- The `IOException` that `ResponseBody.string()` can raise in `getFileAsString` is left out. The callback form turns it into an `UnsuccessfulResponseException`; a body read cannot fail in this model.
- A null list inside a non-null list wrapper body is left out; such a result is shown as `Field(list accessor, body)`.
- Operations.ListsNeverNull, Operations.ContractNotNullHolds: "never null" holds only when the wrapper body's own list is non-null. A JSON body without the list key would give a null list, and the getters would return it; `Field(list accessor, body)` cannot express that, so the model does not promise these results are non-null in that case.
- `~/.now.json` being present but empty, unreadable or malformed is left out. In that case `gson.fromJson` returns null or throws, and `Clients.Sources` cannot express it.
- A JSON value in `~/.now.json` that is not a string is represented by its `toString()`, which the sources record already holds.
- Retrofit's URL encoding of path arguments is left out. OkHttp's URL building and the base URL are left out too. Paths are relative and unencoded.
- Endpoints.ExpandSplits and Operations.RequestOf: the path is read back only for arguments without `/`. Retrofit would encode such a slash, and that encoding is left out.
- JCommander parsing is left out, except that a command word the launcher did not register is rejected while parsing (`UnknownCommand`), before help and the client. Unknown options and other parse errors also happen before `main` or `work()` decide anything, and are not modelled. `--verbose` and `--debug` affect nothing modelled.
- `Launcher.Unsupported`: the key-set listing in the message is a parameter, because it is the hash map's `toString()` in hash order.
- `Deployments.HashCode`, `Domains.HashCode`, `DomainRecords.HashCode`: the hash of a non-null property value (`String`, `Boolean`, `Long`, `ZonedDateTime`, `List`) is a function parameter. Only "equal implies same hash" and the 32-bit range are proved, not particular values.
- `Domains.Domain`: `created` is a `ZonedDateTime`; it is kept as text, so equality of instants is equality of their text.
- `Operations.CreateDeployment`: the body is a `Map<String, Object>` in the source. It is modelled as a map from file path to content.
- `Operations.Outbound`: for a client built around a caller-supplied HTTP client, the request is the one before that client's own interceptors, which cannot be seen.
- `Operations.Deliver`: a callback whose own `onSuccess` throws is left out.
- `Subcommands.Decoders`: a JSON option that decodes to null is left out; a decoder either yields a value or fails with an exception.
- The `this == o` shortcut of every `equals` is left out, because it is subsumed by the field comparison of a value with itself.
- `Args`, `AbstractSubCommand` and `DeploymentsCLI` are left out. They hold data, reflective construction and an unfinished stub that returns null.

## Findings

| source | as written | input that shows it | evidently intended | confidence | as-written member | corrected member |
|---|---|---|---|---|---|---|
| src/main/java/org/rm3l/now4j/NowClient.java:113 | when a team is found, the stored team is the token's string | `~/.now.json` holding token `tok` and team `acme`: the client's team is `tok` | the team found (`acme`) is stored | high; not executed | Clients.ResolveImplicit (shown by Clients.TeamReplacedByToken) | Clients.ResolveImplicitIntended (proved by Clients.IntendedTeam; used by Clients.CreateIntended) |
| cli/src/main/java/org/rm3l/now4j/cli/subcommand/secrets/CommandSecrets.java:77-86 | with no uid the target becomes the (absent) uid; with a uid the secret is deleted by name | `secrets -remove --uid=u1` fails with "Missing one of --name or --uid options"; `--name=db` alone fails too | the uid when given, otherwise the name | high; not executed | Subcommands.Secrets (shown by Subcommands.SecretRemovalAsWritten, Subcommands.SecretRemovalCounterexamples, Launcher.SecretRemovalByUid) | Subcommands.SecretsIntended (proved by Subcommands.SecretRemovalIntended; used by Launcher.DecideIntended) |
| src/main/java/org/rm3l/now4j/NowClient.java:573-590 | the callback `deleteDomainRecord` reports failure for a successful response without a body; the blocking one succeeds | a `204 No Content` response to the deletion | both forms succeed, like every other void operation | medium; not executed | Operations.Deliver (shown by Operations.DeleteDomainRecordFormsDiverge) | Operations.DeliverIntended (proved by Operations.FormsAgreeIntended) |
