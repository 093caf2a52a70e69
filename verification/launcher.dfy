/**
  The command-line entry points: the current launcher, which registers five
  commands and honours `--help`, and the legacy launcher, which registers
  four and has no help short-circuit. Both choose a client construction
  from `--token` and `--team`, build the client, check the command, and
  hand the client to the command. Argument parsing is abstracted: a
  launcher receives the parsed main options and the parsed command, and
  the only parse failure modelled is a command word it did not register.
 */
module Launcher {
  import opened JavaText
  import Clients
  import Subcommands
  import Operations

  datatype Variant = Current | Legacy

  /** The main options (`--help`, `--token`, `--team`); `--debug` has no effect on what is modelled. */
  datatype MainFlags = MainFlags(help: bool, token: Option<string>, team: Option<string>)

  /** A parsed command with its own options. */
  datatype Command =
    | Aliases(aliases: Subcommands.AliasesFlags)
    | Certs(certs: Subcommands.CertsFlags)
    | Deployments(deployments: Subcommands.DeploymentsFlags)
    | Domains(domains: Subcommands.DomainsFlags)
    | Secrets(secrets: Subcommands.SecretsFlags)

  /** The main options and the parsed command, `None` when no command was given. */
  datatype Invocation = Invocation(main: MainFlags, command: Option<Command>)

  /** What a launch ends in, short of an exception. */
  datatype Outcome = Usage | Dispatched(client: Clients.Client, action: Subcommands.Action)

  function Name(c: Command): string {
    match c
    case Aliases(_) => "aliases"
    case Certs(_) => "certs"
    case Deployments(_) => "deployments"
    case Domains(_) => "domains"
    case Secrets(_) => "secrets"
  }

  /** The keys of each launcher's command map. */
  function Registered(v: Variant): set<string> {
    match v
    case Current => {"aliases", "certs", "deployments", "domains", "secrets"}
    case Legacy => {"certs", "deployments", "domains", "secrets"}
  }

  /**
    The error `main` raises when the parsed command is not in its map; since
    the parser already rejects unregistered words, only a missing command
    reaches it. `keys` stands for the key set's `toString()`, whose order is
    the hash map's own.
   */
  function Unsupported(name: Option<string>, keys: string): Exception {
    IllegalArgument("Unsupported command: " + (if name.None? then "null" else name.value) + ". Possible commands: " + keys)
  }

  /** The construction chosen from the main options: an empty token means the implicit one, an empty team the token-only one. */
  function Selection(m: MainFlags): (how: Clients.Construction)
    ensures how.Implicit? <==> NullOrEmpty(m.token)
    ensures how.WithToken? <==> !NullOrEmpty(m.token) && NullOrEmpty(m.team)
    ensures how.WithToken? ==> how.token == m.token.value
    ensures how.WithTokenAndTeam? ==> how.token == m.token.value && how.team == m.team && !NullOrEmpty(m.team)
  {
    if NullOrEmpty(m.token) then Clients.Implicit
    else if NullOrEmpty(m.team) then Clients.WithToken(m.token.value)
    else Clients.WithTokenAndTeam(m.token.value, m.team)
  }

  /** The action flags of a command, in the order its `work()` tests them. */
  function ActionFlags(c: Command): seq<bool> {
    match c
    case Aliases(f) => Subcommands.AliasesOrder(f)
    case Certs(f) => Subcommands.CertsOrder(f)
    case Deployments(f) => Subcommands.DeploymentsOrder(f)
    case Domains(f) => Subcommands.DomainsOrder(f)
    case Secrets(f) => Subcommands.SecretsOrder(f)
  }

  /** Only `-remove` among the secrets action flags. */
  predicate SecretRemovalOnly(c: Command) {
    c.Secrets? && !c.secrets.list && !c.secrets.add && !c.secrets.rename && c.secrets.remove
  }

  /**
    The action the command's `work()` decides on, as written: a command does
    nothing without an action flag, and every operation it invokes has its
    identifiers; secrets removal needs both `--uid` and `--name` and deletes by name.
   */
  function Decide(c: Command, dec: Subcommands.Decoders): (a: Subcommands.Action)
    ensures a.Idle? <==> Subcommands.NoneSet(ActionFlags(c))
    ensures a.Invoke? ==> Subcommands.IdentifiersPresent(a.op)
    ensures SecretRemovalOnly(c) ==>
              (a.Invoke? <==> !NullOrEmpty(c.secrets.uid) && !NullOrEmpty(c.secrets.name))
    ensures SecretRemovalOnly(c) && a.Invoke? ==> a.op == Operations.DeleteSecret(c.secrets.name.value)
  {
    match c
    case Aliases(f) => Subcommands.Aliases(f)
    case Certs(f) => Subcommands.Certs(f)
    case Deployments(f) => Subcommands.Deployments(f, dec)
    case Domains(f) => Subcommands.Domains(f, dec)
    case Secrets(f) => Subcommands.Secrets(f)
  }

  /** The dispatch with secrets removal as intended: the uid when given, otherwise the name. */
  function DecideIntended(c: Command, dec: Subcommands.Decoders): (a: Subcommands.Action)
    ensures !SecretRemovalOnly(c) ==> a == Decide(c, dec)
    ensures SecretRemovalOnly(c) ==>
              (a.Invoke? <==> !NullOrEmpty(c.secrets.uid) || !NullOrEmpty(c.secrets.name))
    ensures SecretRemovalOnly(c) && !NullOrEmpty(c.secrets.uid) ==>
              a == Subcommands.Invoke(Operations.DeleteSecret(c.secrets.uid.value), false)
  {
    match c
    case Secrets(f) => Subcommands.SecretsIntended(f)
    case _ => Decide(c, dec)
  }

  /** The command word, if any, is one the launcher registered with its parser. */
  predicate Parses(v: Variant, inv: Invocation) {
    inv.command.None? || Name(inv.command.value) in Registered(v)
  }

  /**
    `main`: parsing rejects a command word that is not registered; then help
    (current launcher only), then the client, then the command.
   */
  function Launch(v: Variant, inv: Invocation, src: Clients.Sources, dec: Subcommands.Decoders, keys: string): (r: Result<Outcome>)
    ensures !Parses(v, inv) ==> r == Err(UnknownCommand(Name(inv.command.value)))
    ensures r == Ok(Usage) <==> v == Current && inv.main.help
    ensures r.Ok? && r.value.Dispatched? ==>
              && inv.command.Some? && Name(inv.command.value) in Registered(v)
              && Clients.Create(Selection(inv.main), src) == Ok(r.value.client)
              && r.value.action == Decide(inv.command.value, dec)
    ensures Parses(v, inv) && !(v == Current && inv.main.help) && Clients.Create(Selection(inv.main), src).Err? ==>
              r == Err(Clients.Create(Selection(inv.main), src).error)
  {
    if !Parses(v, inv) then Err(UnknownCommand(Name(inv.command.value)))
    else if v == Current && inv.main.help then Ok(Usage)
    else
      match Clients.Create(Selection(inv.main), src)
      case Err(e) => Err(e)
      case Ok(client) =>
        if inv.command.None? then Err(Unsupported(None, keys))
        else Ok(Dispatched(client, Decide(inv.command.value, dec)))
  }

  /** The legacy launcher registers every command of the current one except `aliases`. */
  lemma LegacyCommands()
    ensures Registered(Legacy) == Registered(Current) - {"aliases"}
    ensures forall c: Command :: Name(c) in Registered(Current)
  {
  }

  /**
    The legacy launcher ignores `--help`; the current one answers it before
    anything else, whatever the rest. Otherwise the two launchers differ only on `aliases`.
   */
  lemma HelpHandling(inv: Invocation, src: Clients.Sources, dec: Subcommands.Decoders, keys: string)
    ensures Launch(Legacy, inv, src, dec, keys) == Launch(Legacy, inv.(main := inv.main.(help := false)), src, dec, keys)
    ensures inv.main.help ==> Launch(Current, inv, src, dec, keys) == Ok(Usage)
    ensures !inv.main.help && !(inv.command.Some? && inv.command.value.Aliases?) ==>
              Launch(Current, inv, src, dec, keys) == Launch(Legacy, inv, src, dec, keys)
  {
  }

  /** A given token makes the client independent of `~/.now.json`, properties and environment. */
  lemma GivenTokenIgnoresSources(v: Variant, inv: Invocation, src: Clients.Sources, other: Clients.Sources, dec: Subcommands.Decoders, keys: string)
    requires !NullOrEmpty(inv.main.token)
    ensures Launch(v, inv, src, dec, keys) == Launch(v, inv, other, dec, keys)
  {
  }

  /**
    A token of spaces is not empty, so it is passed to the token constructor,
    which rejects it: once the command word has parsed, the launch fails
    before the command is looked up.
   */
  lemma {:induction false} WhitespaceTokenRejected(v: Variant, team: Option<string>, command: Option<Command>, src: Clients.Sources,
                                                  dec: Subcommands.Decoders, keys: string)
    requires Parses(v, Invocation(MainFlags(false, Some("  "), team), command))
    ensures Launch(v, Invocation(MainFlags(false, Some("  "), team), command), src, dec, keys) == Err(Clients.BLANK_TOKEN)
  {
    assert Trim("  ") == "" by {
      assert TrimStart("  ") == TrimStart(" ") == TrimStart("");
    }
  }

  /** Without a command, a successfully built client still ends in the unsupported-command error naming `null`. */
  lemma NoCommand(v: Variant, m: MainFlags, src: Clients.Sources, dec: Subcommands.Decoders, keys: string)
    requires !(v == Current && m.help) && Clients.Create(Selection(m), src).Ok?
    ensures Launch(v, Invocation(m, None), src, dec, keys) == Err(Unsupported(None, keys))
  {
  }

  /**
    `aliases` is dispatched by the current launcher. The legacy launcher
    cannot parse it: the word is rejected before any client is built, so
    the sources play no part.
   */
  lemma AliasesOnlyInCurrent(m: MainFlags, f: Subcommands.AliasesFlags, src: Clients.Sources, dec: Subcommands.Decoders, keys: string)
    requires !m.help && Clients.Create(Selection(m), src).Ok?
    ensures Launch(Current, Invocation(m, Some(Aliases(f))), src, dec, keys).Ok?
  {
  }

  /** The legacy launcher rejects `aliases` while parsing, whatever the options and the sources. */
  lemma AliasesUnparsedByLegacy(m: MainFlags, f: Subcommands.AliasesFlags, src: Clients.Sources, dec: Subcommands.Decoders, keys: string)
    ensures Launch(Legacy, Invocation(m, Some(Aliases(f))), src, dec, keys) == Err(UnknownCommand("aliases"))
  {
  }

  /** A token and a team on the command line give a client with exactly that token and team. */
  lemma {:induction false} TokenAndTeamFlags(v: Variant, token: string, team: string, c: Command, src: Clients.Sources,
                                            dec: Subcommands.Decoders, keys: string)
    requires !Blank(token) && team != "" && Name(c) in Registered(v)
    ensures var r := Launch(v, Invocation(MainFlags(false, Some(token), Some(team)), Some(c)), src, dec, keys);
      && r.Ok? && r.value.Dispatched?
      && r.value.client.token == token && r.value.client.team == Some(team)
  {
    Clients.ExplicitConstruction(token, Some(team), src);
  }

  /**
    As written, `secrets -remove --uid=u1` reaches the command and fails there
    with the missing-option error; the intended dispatch deletes secret `u1`.
   */
  lemma {:induction false} SecretRemovalByUid(v: Variant, m: MainFlags, src: Clients.Sources, dec: Subcommands.Decoders, keys: string)
    requires !(v == Current && m.help) && Clients.Create(Selection(m), src).Ok?
    ensures var c := Secrets(Subcommands.SecretsFlags(false, false, false, true, None, None, Some("u1")));
      && Launch(v, Invocation(m, Some(c)), src, dec, keys)
         == Ok(Dispatched(Clients.Create(Selection(m), src).value, Subcommands.Fail(Subcommands.MISSING_SECRET_TARGET)))
      && DecideIntended(c, dec) == Subcommands.Invoke(Operations.DeleteSecret("u1"), false)
  {
    Subcommands.SecretRemovalCounterexamples();
  }
}
