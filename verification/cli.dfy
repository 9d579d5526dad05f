/**
 * The entry points of the `anoma` and `anomac` binaries.
 *
 * clap's `get_matches` turns the process arguments into `Matches` against the
 * app tree (`ANOMA_APP`, `CLIENT_APP`): the global arguments at the top
 * level, then the command tree. What happens before that (tokenising, clap's
 * own error exits, `--help` and `--version`) is clap's; the entry points are
 * modelled from the matches on. Printing the help and exiting with code 2
 * is the `Help(2)` outcome; a descriptor that stops the process on a bad
 * value is `ArgExit`.
 */
module Cli {
  import opened Wrappers
  import opened Clap
  import opened Descriptors
  import opened Choice
  import D = Domain
  import A = Args
  import C = Cmds

  const APP_NAME := "Namada"

  /** `anoma_app`: the global arguments, then the root's children, one of which is required. */
  const ANOMA_APP := CmdDef(APP_NAME, A.GLOBAL_ARGS, [], C.ANOMA_SUBS, true, None)

  /** `anoma_client_app`: the global arguments, then the client's children, one of which is required. */
  const CLIENT_APP := CmdDef(APP_NAME, A.GLOBAL_ARGS, [], C.CLIENT_SUBS, true, None)

  /** How an entry point ends: it returns a value, prints the help and exits with a code, or exits on a bad argument. */
  datatype Outcome<T> = Return(value: T) | Help(code: int) | ArgExit(error: ArgError)

  /**
   * `anoma_cli`: the parsed command with the raw token selected at the top
   * level, or the help and exit code 2 when nothing was parsed.
   */
  function AnomaCli(m: Matches, c: D.Codecs): (r: Outcome<(C.Anoma, string)>)
    requires A.LiteralsParse(c)
    ensures r.Help? <==> ResolveSubs(C.ANOMA_SUBS, m).None?
    ensures r.Help? ==> r.code == 2
    ensures r.Return? ==> m.sub.Some? && r.value.1 == m.sub.value.name
    ensures r.Return? ==> ResolveSubs(C.ANOMA_SUBS, m) == Some(C.AnomaPath(r.value.0)) && C.AnomaPath(r.value.0)[0] == r.value.1
    ensures r.Return? ==> r.value.1 in Tokens(C.ANOMA_SUBS)
    ensures C.ParseAnoma(m, c).Found? ==> m.sub.Some? && r == Return((C.ParseAnoma(m, c).value, m.sub.value.name))
    ensures C.ParseAnoma(m, c).Exit? ==> r == ArgExit(C.ParseAnoma(m, c).error)
  {
    var raw := SubcommandName(m);
    var result := C.ParseAnoma(m, c);
    match result
    case Found(cmd) =>
      ResolveSubsHead(C.ANOMA_SUBS, m);
      if raw.Some? then Return((cmd, raw.value)) else Help(2)
    case Exit(e) => ArgExit(e)
    case Absent => Help(2)
  }

  /** On any input clap accepts, `anoma_cli` never falls through to the help. */
  lemma AnomaCliAccepted(m: Matches, c: D.Codecs)
    requires A.LiteralsParse(c)
    requires Accepts(ANOMA_APP, m)
    ensures !AnomaCli(m, c).Help?
  {
    C.AnomaWellDefaulted();
    AcceptedSubResolves(C.ANOMA_SUBS, m);
  }

  /** `cli::AnomaClient`: a command with the context loaded for it, or a `utils` command with the global arguments. */
  datatype AnomaClient<Ctx> =
    | WithoutContext(utils: C.Utils, global: A.Global)
    | WithContext(sub: C.AnomaClientWithContext, context: Ctx)

  /**
   * `anoma_client_cli`. `env` stands for the process environment and `load`
   * for `Context::new`, whose error the function returns. The command is
   * parsed first, the global arguments next, and a context is loaded only for
   * a command that needs one.
   */
  function ClientCli<Ctx, E>(m: Matches, c: D.Codecs, env: map<string, string>, load: A.Global -> Result<Ctx, E>)
    : (r: Outcome<Result<AnomaClient<Ctx>, E>>)
    requires A.LiteralsParse(c)
    ensures r.Help? <==> ResolveSubs(C.CLIENT_SUBS, m).None?
    ensures r.Help? ==> r.code == 2
    ensures C.ParseAnomaClient(m, c).Exit? ==> r == ArgExit(C.ParseAnomaClient(m, c).error)
    ensures r.ArgExit? && !C.ParseAnomaClient(m, c).Exit? ==> A.ParseGlobal(m, c, env) == Err(r.error)
    ensures r.Return? ==> m.sub.Some? && A.ParseGlobal(m, c, env).Ok?
    ensures r.Return? && r.value.Ok? ==> (r.value.value.WithoutContext? <==> m.sub.value.name == C.UTILS_CMD)
    ensures r.Return? && r.value.Ok? && r.value.value.WithoutContext? ==> r.value.value.global == A.ParseGlobal(m, c, env).value
    ensures r.Return? && r.value.Ok? && r.value.value.WithContext? ==>
      load(A.ParseGlobal(m, c, env).value) == Ok(r.value.value.context)
    ensures r.Return? && r.value.Err? ==>
      m.sub.value.name != C.UTILS_CMD && load(A.ParseGlobal(m, c, env).value) == Err(r.value.error)
    ensures C.ParseAnomaClient(m, c).Found? && A.ParseGlobal(m, c, env).Ok? ==> r.Return?
    ensures r.Return? && r.value.Ok? && r.value.value.WithContext? ==>
      C.ParseAnomaClient(m, c) == Found(C.AnomaClient.WithContext(r.value.value.sub))
    ensures r.Return? && r.value.Ok? && r.value.value.WithoutContext? ==>
      C.ParseAnomaClient(m, c) == Found(C.AnomaClient.WithoutContext(r.value.value.utils))
    ensures r.Return? && r.value.Err? ==>
      C.ParseAnomaClient(m, c).Found? && C.ParseAnomaClient(m, c).value.WithContext?
  {
    match C.ParseAnomaClient(m, c)
    case Absent => Help(2)
    case Exit(e) => ArgExit(e)
    case Found(cmd) =>
      C.ClientRouting(m, c);
      match A.ParseGlobal(m, c, env)
      case Err(e) => ArgExit(e)
      case Ok(global) =>
        match cmd
        case WithContext(sub) =>
          (match load(global)
           case Ok(context) => Return(Ok(WithContext(sub, context)))
           case Err(e) => Return(Err(e)))
        case WithoutContext(utils) => Return(Ok(WithoutContext(utils, global)))
  }

  /** A `utils` command never loads a context: the outcome does not depend on `Context::new`. */
  lemma UtilsNeedNoContext<Ctx, E>(m: Matches, c: D.Codecs, env: map<string, string>, load1: A.Global -> Result<Ctx, E>, load2: A.Global -> Result<Ctx, E>)
    requires A.LiteralsParse(c)
    requires m.sub.Some? && m.sub.value.name == C.UTILS_CMD
    ensures ClientCli(m, c, env, load1) == ClientCli(m, c, env, load2)
  {
    if C.ParseAnomaClient(m, c).Found? {
      C.ClientRouting(m, c);
    }
  }

  /** On any input clap accepts, `anoma_client_cli` never falls through to the help. */
  lemma ClientCliAccepted<Ctx, E>(m: Matches, c: D.Codecs, env: map<string, string>, load: A.Global -> Result<Ctx, E>)
    requires A.LiteralsParse(c)
    requires Accepts(CLIENT_APP, m)
    ensures !ClientCli(m, c, env, load).Help?
  {
    C.ClientWellDefaulted();
    AcceptedSubResolves(C.CLIENT_SUBS, m);
  }

  // `anoma_client_cli` adds the client's children to `anoma_client_app()`,
  // which has already added them.

  /** The app `anoma_client_cli` hands to clap, as written. */
  const CLIENT_APP_AS_WRITTEN := CmdDef(APP_NAME, A.GLOBAL_ARGS, [], C.CLIENT_SUBS + C.CLIENT_SUBS, true, None)

  /**
   * As written, every client token is registered twice: `tx`, for one, sits
   * both first and right after the last original child. What clap accepts
   * and what the reading selects stay the same.
   */
  lemma ClientAppRegistersTwice(m: Matches, s: SubMatch)
    ensures !DistinctTokens(CLIENT_APP_AS_WRITTEN.subs)
    ensures CLIENT_APP_AS_WRITTEN.subs[0].token == CLIENT_APP_AS_WRITTEN.subs[|C.CLIENT_SUBS|].token == C.TX_CUSTOM_CMD
    ensures ResolveSubs(CLIENT_APP_AS_WRITTEN.subs, m) == ResolveSubs(CLIENT_APP.subs, m)
    ensures AcceptsSub(CLIENT_APP_AS_WRITTEN.subs, s) <==> AcceptsSub(CLIENT_APP.subs, s)
  {
    C.ClientTokens();
    ResolveSubsAppend(C.CLIENT_SUBS, C.CLIENT_SUBS, m);
    AcceptsSubAppend(C.CLIENT_SUBS, C.CLIENT_SUBS, s);
  }

  /** The app as built by `anoma_client_app` registers each token once, under every node. */
  lemma ClientAppRegistersOnce()
    ensures DistinctTokens(CLIENT_APP.subs)
    ensures UniqueSiblings(CLIENT_APP)
  {
    C.ClientTokensDistinct();
    C.ClientUniqueSiblings();
  }

  /** The `anoma` app registers each token once, under every node. */
  lemma AnomaAppUnique()
    ensures UniqueSiblings(ANOMA_APP)
  {
    C.AnomaTokensDistinct();
    C.AnomaUniqueSiblings();
  }
}
