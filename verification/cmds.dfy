/**
 * `mod cmds`: the command tree of the `anoma` and `anomac` binaries.
 *
 * Each node has a literal token. Its parse yields a command only when its
 * token is the subcommand selected at that level; an inner node then reads its
 * children and combines the sibling results in registration order. Leaf
 * commands carry the record their `args` parse builds. The `*_DEF` constants
 * are the trees the `def`/`add_sub` builders register.
 *
 * Every parse is stated against the reference reading `Clap.ResolveAt` of its
 * definition (`Choice.Agrees`): the hand-written chains select exactly what
 * the registered tree selects, and the command they return names the selected
 * token path.
 */
module Cmds {
  import opened Wrappers
  import opened Clap
  import opened Descriptors
  import opened Choice
  import D = Domain
  import A = Args

  // Tokens.

  const NODE_CMD := "node"
  const CLIENT_CMD := "client"
  const WALLET_CMD := "wallet"
  const LEDGER_CMD := "ledger"
  const CONFIG_CMD := "config"
  const WALLET_KEY_CMD := "key"
  const WALLET_ADDRESS_CMD := "address"
  const UTILS_CMD := "utils"

  const LEDGER_RUN_CMD := "run"
  const LEDGER_RESET_CMD := "reset"
  const CONFIG_GEN_CMD := "gen"
  const ADDRESS_LIST_CMD := "list"
  const TX_CUSTOM_CMD := "tx"
  const TX_TRANSFER_CMD := "transfer"
  const TX_UPDATE_VP_CMD := "update"
  const TX_INIT_ACCOUNT_CMD := "init-account"
  const TX_INIT_VALIDATOR_CMD := "init-validator"
  const TX_INIT_PROPOSAL_CMD := "init-proposal"
  const TX_VOTE_PROPOSAL_CMD := "vote-proposal"
  const BOND_CMD := "bond"
  const UNBOND_CMD := "unbond"
  const WITHDRAW_CMD := "withdraw"
  const QUERY_EPOCH_CMD := "epoch"
  const QUERY_BLOCK_CMD := "block"
  const QUERY_BALANCE_CMD := "balance"
  const QUERY_BONDS_CMD := "bonds"
  const QUERY_VOTING_POWER_CMD := "voting-power"
  const QUERY_COMMISSION_RATE_CMD := "commission-rate"
  const QUERY_SLASHES_CMD := "slashes"
  const QUERY_RESULT_CMD := "tx-result"
  const QUERY_RAW_BYTES_CMD := "query-bytes"
  const QUERY_PROPOSAL_CMD := "query-proposal"
  const QUERY_PROPOSAL_RESULT_CMD := "query-proposal-result"
  const QUERY_PROTOCOL_PARAMETERS_CMD := "query-protocol-parameters"
  const KEY_GEN_CMD := "gen"
  const KEY_FIND_CMD := "find"
  const KEY_LIST_CMD := "list"
  const KEY_EXPORT_CMD := "export"
  const ADDRESS_GEN_CMD := "gen"
  const ADDRESS_FIND_CMD := "find"
  const ADDRESS_ADD_CMD := "add"
  const JOIN_NETWORK_CMD := "join-network"
  const FETCH_WASMS_CMD := "fetch-wasms"
  const INIT_NETWORK_CMD := "init-network"
  const INIT_GENESIS_VALIDATOR_CMD := "init-genesis-validator"

  // Registered trees.

  function LeafDef(token: string, args: seq<ArgDef>, groups: seq<ArgGroup>): CmdDef
  {
    CmdDef(token, args, groups, [], false, None)
  }

  const LEDGER_RUN_DEF := LeafDef(LEDGER_RUN_CMD, [], [])
  const LEDGER_RESET_DEF := LeafDef(LEDGER_RESET_CMD, [], [])
  const CONFIG_GEN_DEF := LeafDef(CONFIG_GEN_CMD, [], [])
  const ADDRESS_LIST_DEF := LeafDef(ADDRESS_LIST_CMD, [], [])
  const TX_CUSTOM_DEF := LeafDef(TX_CUSTOM_CMD, A.TX_CUSTOM_ARGS, [])
  const TX_TRANSFER_DEF := LeafDef(TX_TRANSFER_CMD, A.TX_TRANSFER_ARGS, [])
  const TX_UPDATE_VP_DEF := LeafDef(TX_UPDATE_VP_CMD, A.TX_UPDATE_VP_ARGS, [])
  const TX_INIT_ACCOUNT_DEF := LeafDef(TX_INIT_ACCOUNT_CMD, A.TX_INIT_ACCOUNT_ARGS, [])
  const TX_INIT_VALIDATOR_DEF := LeafDef(TX_INIT_VALIDATOR_CMD, A.TX_INIT_VALIDATOR_ARGS, [])
  const TX_INIT_PROPOSAL_DEF := LeafDef(TX_INIT_PROPOSAL_CMD, A.INIT_PROPOSAL_ARGS, [])
  const TX_VOTE_PROPOSAL_DEF := LeafDef(TX_VOTE_PROPOSAL_CMD, A.VOTE_PROPOSAL_ARGS, [])
  const BOND_DEF := LeafDef(BOND_CMD, A.BOND_ARGS, [])
  const UNBOND_DEF := LeafDef(UNBOND_CMD, A.UNBOND_ARGS, [])
  const WITHDRAW_DEF := LeafDef(WITHDRAW_CMD, A.WITHDRAW_ARGS, [])
  const QUERY_EPOCH_DEF := LeafDef(QUERY_EPOCH_CMD, A.QUERY_ARGS, [])
  const QUERY_BLOCK_DEF := LeafDef(QUERY_BLOCK_CMD, A.QUERY_ARGS, [])
  const QUERY_BALANCE_DEF := LeafDef(QUERY_BALANCE_CMD, A.QUERY_BALANCE_ARGS, [])
  const QUERY_BONDS_DEF := LeafDef(QUERY_BONDS_CMD, A.QUERY_BONDS_ARGS, [])
  const QUERY_VOTING_POWER_DEF := LeafDef(QUERY_VOTING_POWER_CMD, A.QUERY_VOTING_POWER_ARGS, [])
  const QUERY_COMMISSION_RATE_DEF := LeafDef(QUERY_COMMISSION_RATE_CMD, A.QUERY_COMMISSION_RATE_ARGS, [])
  const QUERY_SLASHES_DEF := LeafDef(QUERY_SLASHES_CMD, A.QUERY_SLASHES_ARGS, [])
  const QUERY_RESULT_DEF := LeafDef(QUERY_RESULT_CMD, A.QUERY_RESULT_ARGS, [])
  const QUERY_RAW_BYTES_DEF := LeafDef(QUERY_RAW_BYTES_CMD, A.QUERY_RAW_BYTES_ARGS, [])
  const QUERY_PROPOSAL_DEF := LeafDef(QUERY_PROPOSAL_CMD, A.QUERY_PROPOSAL_ARGS, [])
  const QUERY_PROPOSAL_RESULT_DEF := LeafDef(QUERY_PROPOSAL_RESULT_CMD, A.QUERY_PROPOSAL_RESULT_ARGS, [])
  const QUERY_PROTOCOL_PARAMETERS_DEF := LeafDef(QUERY_PROTOCOL_PARAMETERS_CMD, A.QUERY_PROTOCOL_PARAMETERS_ARGS, [])
  const KEY_GEN_DEF := LeafDef(KEY_GEN_CMD, A.KEY_AND_ADDRESS_GEN_ARGS, [])
  const KEY_FIND_DEF := LeafDef(KEY_FIND_CMD, A.KEY_FIND_ARGS, [])
  const KEY_LIST_DEF := LeafDef(KEY_LIST_CMD, A.KEY_LIST_ARGS, [])
  const KEY_EXPORT_DEF := LeafDef(KEY_EXPORT_CMD, A.KEY_EXPORT_ARGS, [])
  const ADDRESS_GEN_DEF := LeafDef(ADDRESS_GEN_CMD, A.KEY_AND_ADDRESS_GEN_ARGS, [])
  const ADDRESS_FIND_DEF := LeafDef(ADDRESS_FIND_CMD, A.ADDRESS_OR_ALIAS_FIND_ARGS, A.ADDRESS_OR_ALIAS_FIND_GROUPS)
  const ADDRESS_ADD_DEF := LeafDef(ADDRESS_ADD_CMD, A.ADDRESS_ADD_ARGS, [])
  const JOIN_NETWORK_DEF := LeafDef(JOIN_NETWORK_CMD, A.JOIN_NETWORK_ARGS, [])
  const FETCH_WASMS_DEF := LeafDef(FETCH_WASMS_CMD, A.FETCH_WASMS_ARGS, [])
  const INIT_NETWORK_DEF := LeafDef(INIT_NETWORK_CMD, A.INIT_NETWORK_ARGS, [])
  const INIT_GENESIS_VALIDATOR_DEF := LeafDef(INIT_GENESIS_VALIDATOR_CMD, A.INIT_GENESIS_VALIDATOR_ARGS, [])

  /** `ledger` does not demand a child: with none given it runs the node. */
  const LEDGER_DEF := CmdDef(LEDGER_CMD, [], [], [LEDGER_RUN_DEF, LEDGER_RESET_DEF], false, Some(LEDGER_RUN_CMD))
  const CONFIG_DEF := CmdDef(CONFIG_CMD, [], [], [CONFIG_GEN_DEF], true, None)
  const NODE_SUBS := [LEDGER_DEF, CONFIG_DEF]
  const NODE_DEF := CmdDef(NODE_CMD, [], [], NODE_SUBS, true, None)
  const WALLET_KEY_DEF := CmdDef(WALLET_KEY_CMD, [], [], [KEY_GEN_DEF, KEY_FIND_DEF, KEY_LIST_DEF, KEY_EXPORT_DEF], true, None)
  const WALLET_ADDRESS_DEF :=
    CmdDef(WALLET_ADDRESS_CMD, [], [], [ADDRESS_GEN_DEF, ADDRESS_FIND_DEF, ADDRESS_LIST_DEF, ADDRESS_ADD_DEF], true, None)
  const WALLET_SUBS := [WALLET_KEY_DEF, WALLET_ADDRESS_DEF]
  const WALLET_DEF := CmdDef(WALLET_CMD, [], [], WALLET_SUBS, true, None)
  const UTILS_DEF :=
    CmdDef(UTILS_CMD, [], [], [JOIN_NETWORK_DEF, FETCH_WASMS_DEF, INIT_NETWORK_DEF, INIT_GENESIS_VALIDATOR_DEF], true, None)
  /** The client's children in registration order; `commission-rate` is not among them. */
  const CLIENT_SIMPLE_TX_SUBS := [TX_CUSTOM_DEF, TX_TRANSFER_DEF, TX_UPDATE_VP_DEF, TX_INIT_ACCOUNT_DEF, TX_INIT_VALIDATOR_DEF]
  const CLIENT_PROPOSAL_TX_SUBS := [TX_INIT_PROPOSAL_DEF, TX_VOTE_PROPOSAL_DEF]
  const CLIENT_POS_SUBS := [BOND_DEF, UNBOND_DEF, WITHDRAW_DEF]
  const CLIENT_CHAIN_QUERY_SUBS := [QUERY_EPOCH_DEF, QUERY_BLOCK_DEF, QUERY_BALANCE_DEF, QUERY_BONDS_DEF]
  const CLIENT_STAKE_QUERY_SUBS := [QUERY_VOTING_POWER_DEF, QUERY_SLASHES_DEF, QUERY_RESULT_DEF, QUERY_RAW_BYTES_DEF]
  const CLIENT_GOV_QUERY_SUBS := [QUERY_PROPOSAL_DEF, QUERY_PROPOSAL_RESULT_DEF, QUERY_PROTOCOL_PARAMETERS_DEF]
  const CLIENT_UTILS_SUBS := [UTILS_DEF]
  const CLIENT_SUBS := CLIENT_SIMPLE_TX_SUBS + CLIENT_PROPOSAL_TX_SUBS + CLIENT_POS_SUBS + CLIENT_CHAIN_QUERY_SUBS + CLIENT_STAKE_QUERY_SUBS + CLIENT_GOV_QUERY_SUBS + CLIENT_UTILS_SUBS
  const CLIENT_DEF := CmdDef(CLIENT_CMD, [], [], CLIENT_SUBS, true, None)
  /** The `anoma` root's children: the three sub-binaries, then the inlined node and client commands. */
  const ANOMA_BINARY_SUBS := [NODE_DEF, CLIENT_DEF, WALLET_DEF, LEDGER_DEF]
  const ANOMA_TX_SUBS := [TX_CUSTOM_DEF, TX_TRANSFER_DEF, TX_UPDATE_VP_DEF, TX_INIT_PROPOSAL_DEF, TX_VOTE_PROPOSAL_DEF]
  const ANOMA_SUBS := ANOMA_BINARY_SUBS + ANOMA_TX_SUBS

  // Commands. A leaf command is its record (the source wraps it in a
  // single-field struct of the same name).

  datatype Anoma =
    | Node(node: AnomaNode)
    | Client(client: AnomaClient)
    | Wallet(wallet: AnomaWallet)
    | Ledger(ledger: Ledger)
    | TxCustom(A.TxCustom)
    | TxTransfer(A.TxTransfer)
    | TxUpdateVp(A.TxUpdateVp)
    | TxInitProposal(A.InitProposal)
    | TxVoteProposal(A.VoteProposal)

  datatype AnomaNode = Ledger(ledger: Ledger) | Config(config: Config)

  datatype Ledger = Run | Reset

  datatype Config = Gen

  /** Commands that need a `Context`, and the `utils` ones that only get the global arguments. */
  datatype AnomaClient = WithContext(sub: AnomaClientWithContext) | WithoutContext(utils: Utils)

  datatype AnomaClientWithContext =
    | TxCustom(A.TxCustom)
    | TxTransfer(A.TxTransfer)
    | QueryResult(A.QueryResult)
    | TxUpdateVp(A.TxUpdateVp)
    | TxInitAccount(A.TxInitAccount)
    | TxInitValidator(A.TxInitValidator)
    | TxInitProposal(A.InitProposal)
    | TxVoteProposal(A.VoteProposal)
    | Bond(A.Bond)
    | Unbond(A.Unbond)
    | Withdraw(A.Withdraw)
    | QueryEpoch(A.Query)
    | QueryBlock(A.Query)
    | QueryBalance(A.QueryBalance)
    | QueryBonds(A.QueryBonds)
    | QueryVotingPower(A.QueryVotingPower)
    | QueryCommissionRate(A.QueryCommissionRate)
    | QuerySlashes(A.QuerySlashes)
    | QueryRawBytes(A.QueryRawBytes)
    | QueryProposal(A.QueryProposal)
    | QueryProposalResult(A.QueryProposalResult)
    | QueryProtocolParameters(A.QueryProtocolParameters)

  datatype AnomaWallet = Key(key: WalletKey) | Address(address: WalletAddress)

  datatype WalletKey = Gen(A.KeyAndAddressGen) | Find(A.KeyFind) | List(A.KeyList) | Export(A.KeyExport)

  datatype WalletAddress = Gen(A.KeyAndAddressGen) | Find(A.AddressOrAliasFind) | List | Add(A.AddressAdd)

  datatype Utils =
    | JoinNetwork(A.JoinNetwork)
    | FetchWasms(A.FetchWasms)
    | InitNetwork(A.InitNetwork)
    | InitGenesisValidator(A.InitGenesisValidator)

  // The token path that names each command, read from the level where its
  // parse starts (for `AnomaNode`, `AnomaClient`, `AnomaWallet` and `Anoma`:
  // the level of their children).

  function LedgerToken(l: Ledger): string
  {
    if l.Run? then LEDGER_RUN_CMD else LEDGER_RESET_CMD
  }

  function LedgerPath(l: Ledger): seq<string>
  {
    [LEDGER_CMD, LedgerToken(l)]
  }

  function ConfigPath(g: Config): seq<string>
  {
    [CONFIG_CMD, CONFIG_GEN_CMD]
  }

  function NodePath(n: AnomaNode): seq<string>
  {
    match n
    case Ledger(l) => LedgerPath(l)
    case Config(g) => ConfigPath(g)
  }

  function WalletKeyToken(k: WalletKey): string
  {
    match k
    case Gen(_) => KEY_GEN_CMD
    case Find(_) => KEY_FIND_CMD
    case List(_) => KEY_LIST_CMD
    case Export(_) => KEY_EXPORT_CMD
  }

  function WalletKeyPath(k: WalletKey): seq<string>
  {
    [WALLET_KEY_CMD, WalletKeyToken(k)]
  }

  function WalletAddressToken(a: WalletAddress): string
  {
    match a
    case Gen(_) => ADDRESS_GEN_CMD
    case Find(_) => ADDRESS_FIND_CMD
    case List => ADDRESS_LIST_CMD
    case Add(_) => ADDRESS_ADD_CMD
  }

  function WalletAddressPath(a: WalletAddress): seq<string>
  {
    [WALLET_ADDRESS_CMD, WalletAddressToken(a)]
  }

  function WalletPath(w: AnomaWallet): seq<string>
  {
    match w
    case Key(k) => WalletKeyPath(k)
    case Address(a) => WalletAddressPath(a)
  }

  function UtilsToken(u: Utils): string
  {
    match u
    case JoinNetwork(_) => JOIN_NETWORK_CMD
    case FetchWasms(_) => FETCH_WASMS_CMD
    case InitNetwork(_) => INIT_NETWORK_CMD
    case InitGenesisValidator(_) => INIT_GENESIS_VALIDATOR_CMD
  }

  function UtilsPath(u: Utils): seq<string>
  {
    [UTILS_CMD, UtilsToken(u)]
  }

  /** The token of the same-named command, for each context-requiring variant. */
  function WithContextToken(s: AnomaClientWithContext): string
  {
    match s
    case TxCustom(_) => TX_CUSTOM_CMD
    case TxTransfer(_) => TX_TRANSFER_CMD
    case QueryResult(_) => QUERY_RESULT_CMD
    case TxUpdateVp(_) => TX_UPDATE_VP_CMD
    case TxInitAccount(_) => TX_INIT_ACCOUNT_CMD
    case TxInitValidator(_) => TX_INIT_VALIDATOR_CMD
    case TxInitProposal(_) => TX_INIT_PROPOSAL_CMD
    case TxVoteProposal(_) => TX_VOTE_PROPOSAL_CMD
    case Bond(_) => BOND_CMD
    case Unbond(_) => UNBOND_CMD
    case Withdraw(_) => WITHDRAW_CMD
    case QueryEpoch(_) => QUERY_EPOCH_CMD
    case QueryBlock(_) => QUERY_BLOCK_CMD
    case QueryBalance(_) => QUERY_BALANCE_CMD
    case QueryBonds(_) => QUERY_BONDS_CMD
    case QueryVotingPower(_) => QUERY_VOTING_POWER_CMD
    case QueryCommissionRate(_) => QUERY_COMMISSION_RATE_CMD
    case QuerySlashes(_) => QUERY_SLASHES_CMD
    case QueryRawBytes(_) => QUERY_RAW_BYTES_CMD
    case QueryProposal(_) => QUERY_PROPOSAL_CMD
    case QueryProposalResult(_) => QUERY_PROPOSAL_RESULT_CMD
    case QueryProtocolParameters(_) => QUERY_PROTOCOL_PARAMETERS_CMD
  }

  function ClientPath(cl: AnomaClient): seq<string>
  {
    match cl
    case WithContext(s) => [WithContextToken(s)]
    case WithoutContext(u) => UtilsPath(u)
  }

  function AnomaPath(a: Anoma): seq<string>
  {
    match a
    case Node(n) => [NODE_CMD] + NodePath(n)
    case Client(cl) => [CLIENT_CMD] + ClientPath(cl)
    case Wallet(w) => [WALLET_CMD] + WalletPath(w)
    case Ledger(l) => LedgerPath(l)
    case TxCustom(_) => [TX_CUSTOM_CMD]
    case TxTransfer(_) => [TX_TRANSFER_CMD]
    case TxUpdateVp(_) => [TX_UPDATE_VP_CMD]
    case TxInitProposal(_) => [TX_INIT_PROPOSAL_CMD]
    case TxVoteProposal(_) => [TX_VOTE_PROPOSAL_CMD]
  }

  // Leaf commands.

  /**
   * The parse shared by every leaf: nothing unless the leaf's token is the
   * selected subcommand, and then whatever its record parse yields on the
   * leaf's own matches.
   */
  function Leaf<T>(pm: Matches, d: CmdDef, parse: Matches -> Result<T, ArgError>): (r: Parsed<T>)
    requires d.subs == []
    ensures Agrees(r, ResolveAt(d, pm), _ => [d.token])
    ensures r.Absent? <==> SubcommandMatches(pm, d.token).None?
    ensures !r.Absent? ==> r == Lift(parse(SubcommandMatches(pm, d.token).value))
  {
    match SubcommandMatches(pm, d.token)
    case None => Absent
    case Some(m) => Lift(parse(m))
  }

  function ParseLedgerRun(pm: Matches): (r: Parsed<()>)
    ensures Agrees(r, ResolveAt(LEDGER_RUN_DEF, pm), _ => [LEDGER_RUN_CMD])
    ensures !r.Exit?
  {
    Leaf(pm, LEDGER_RUN_DEF, _ => Ok(()))
  }

  function ParseLedgerReset(pm: Matches): (r: Parsed<()>)
    ensures Agrees(r, ResolveAt(LEDGER_RESET_DEF, pm), _ => [LEDGER_RESET_CMD])
    ensures !r.Exit?
  {
    Leaf(pm, LEDGER_RESET_DEF, _ => Ok(()))
  }

  function ParseConfigGen(pm: Matches): (r: Parsed<()>)
    ensures Agrees(r, ResolveAt(CONFIG_GEN_DEF, pm), _ => [CONFIG_GEN_CMD])
    ensures !r.Exit?
  {
    Leaf(pm, CONFIG_GEN_DEF, _ => Ok(()))
  }

  function ParseAddressList(pm: Matches): (r: Parsed<()>)
    ensures Agrees(r, ResolveAt(ADDRESS_LIST_DEF, pm), _ => [ADDRESS_LIST_CMD])
    ensures !r.Exit?
  {
    Leaf(pm, ADDRESS_LIST_DEF, _ => Ok(()))
  }

  function ParseTxCustom(pm: Matches, c: D.Codecs): (r: Parsed<A.TxCustom>)
    requires A.LiteralsParse(c)
    ensures Agrees(r, ResolveAt(TX_CUSTOM_DEF, pm), _ => [TX_CUSTOM_CMD])
    ensures !r.Absent? ==> r == Lift(A.ParseTxCustom(SubcommandMatches(pm, TX_CUSTOM_CMD).value, c))
  {
    Leaf(pm, TX_CUSTOM_DEF, m => A.ParseTxCustom(m, c))
  }

  function ParseTxTransfer(pm: Matches, c: D.Codecs): (r: Parsed<A.TxTransfer>)
    requires A.LiteralsParse(c)
    ensures Agrees(r, ResolveAt(TX_TRANSFER_DEF, pm), _ => [TX_TRANSFER_CMD])
    ensures !r.Absent? ==> r == Lift(A.ParseTxTransfer(SubcommandMatches(pm, TX_TRANSFER_CMD).value, c))
  {
    Leaf(pm, TX_TRANSFER_DEF, m => A.ParseTxTransfer(m, c))
  }

  function ParseTxUpdateVp(pm: Matches, c: D.Codecs): (r: Parsed<A.TxUpdateVp>)
    requires A.LiteralsParse(c)
    ensures Agrees(r, ResolveAt(TX_UPDATE_VP_DEF, pm), _ => [TX_UPDATE_VP_CMD])
    ensures !r.Absent? ==> r == Lift(A.ParseTxUpdateVp(SubcommandMatches(pm, TX_UPDATE_VP_CMD).value, c))
  {
    Leaf(pm, TX_UPDATE_VP_DEF, m => A.ParseTxUpdateVp(m, c))
  }

  function ParseTxInitAccount(pm: Matches, c: D.Codecs): (r: Parsed<A.TxInitAccount>)
    requires A.LiteralsParse(c)
    ensures Agrees(r, ResolveAt(TX_INIT_ACCOUNT_DEF, pm), _ => [TX_INIT_ACCOUNT_CMD])
    ensures !r.Absent? ==> r == Lift(A.ParseTxInitAccount(SubcommandMatches(pm, TX_INIT_ACCOUNT_CMD).value, c))
  {
    Leaf(pm, TX_INIT_ACCOUNT_DEF, m => A.ParseTxInitAccount(m, c))
  }

  function ParseTxInitValidator(pm: Matches, c: D.Codecs): (r: Parsed<A.TxInitValidator>)
    requires A.LiteralsParse(c)
    ensures Agrees(r, ResolveAt(TX_INIT_VALIDATOR_DEF, pm), _ => [TX_INIT_VALIDATOR_CMD])
    ensures !r.Absent? ==> r == Lift(A.ParseTxInitValidator(SubcommandMatches(pm, TX_INIT_VALIDATOR_CMD).value, c))
  {
    Leaf(pm, TX_INIT_VALIDATOR_DEF, m => A.ParseTxInitValidator(m, c))
  }

  function ParseTxInitProposal(pm: Matches, c: D.Codecs): (r: Parsed<A.InitProposal>)
    requires A.LiteralsParse(c)
    ensures Agrees(r, ResolveAt(TX_INIT_PROPOSAL_DEF, pm), _ => [TX_INIT_PROPOSAL_CMD])
    ensures !r.Absent? ==> r == Lift(A.ParseInitProposal(SubcommandMatches(pm, TX_INIT_PROPOSAL_CMD).value, c))
  {
    Leaf(pm, TX_INIT_PROPOSAL_DEF, m => A.ParseInitProposal(m, c))
  }

  function ParseTxVoteProposal(pm: Matches, c: D.Codecs): (r: Parsed<A.VoteProposal>)
    requires A.LiteralsParse(c)
    ensures Agrees(r, ResolveAt(TX_VOTE_PROPOSAL_DEF, pm), _ => [TX_VOTE_PROPOSAL_CMD])
    ensures !r.Absent? ==> r == Lift(A.ParseVoteProposal(SubcommandMatches(pm, TX_VOTE_PROPOSAL_CMD).value, c))
  {
    Leaf(pm, TX_VOTE_PROPOSAL_DEF, m => A.ParseVoteProposal(m, c))
  }

  function ParseBond(pm: Matches, c: D.Codecs): (r: Parsed<A.Bond>)
    requires A.LiteralsParse(c)
    ensures Agrees(r, ResolveAt(BOND_DEF, pm), _ => [BOND_CMD])
    ensures !r.Absent? ==> r == Lift(A.ParseBond(SubcommandMatches(pm, BOND_CMD).value, c))
  {
    Leaf(pm, BOND_DEF, m => A.ParseBond(m, c))
  }

  function ParseUnbond(pm: Matches, c: D.Codecs): (r: Parsed<A.Unbond>)
    requires A.LiteralsParse(c)
    ensures Agrees(r, ResolveAt(UNBOND_DEF, pm), _ => [UNBOND_CMD])
    ensures !r.Absent? ==> r == Lift(A.ParseUnbond(SubcommandMatches(pm, UNBOND_CMD).value, c))
  {
    Leaf(pm, UNBOND_DEF, m => A.ParseUnbond(m, c))
  }

  function ParseWithdraw(pm: Matches, c: D.Codecs): (r: Parsed<A.Withdraw>)
    requires A.LiteralsParse(c)
    ensures Agrees(r, ResolveAt(WITHDRAW_DEF, pm), _ => [WITHDRAW_CMD])
    ensures !r.Absent? ==> r == Lift(A.ParseWithdraw(SubcommandMatches(pm, WITHDRAW_CMD).value, c))
  {
    Leaf(pm, WITHDRAW_DEF, m => A.ParseWithdraw(m, c))
  }

  function ParseQueryEpoch(pm: Matches, c: D.Codecs): (r: Parsed<A.Query>)
    requires A.LiteralsParse(c)
    ensures Agrees(r, ResolveAt(QUERY_EPOCH_DEF, pm), _ => [QUERY_EPOCH_CMD])
    ensures !r.Absent? ==> r == Lift(A.ParseQuery(SubcommandMatches(pm, QUERY_EPOCH_CMD).value, c))
  {
    Leaf(pm, QUERY_EPOCH_DEF, m => A.ParseQuery(m, c))
  }

  function ParseQueryBlock(pm: Matches, c: D.Codecs): (r: Parsed<A.Query>)
    requires A.LiteralsParse(c)
    ensures Agrees(r, ResolveAt(QUERY_BLOCK_DEF, pm), _ => [QUERY_BLOCK_CMD])
    ensures !r.Absent? ==> r == Lift(A.ParseQuery(SubcommandMatches(pm, QUERY_BLOCK_CMD).value, c))
  {
    Leaf(pm, QUERY_BLOCK_DEF, m => A.ParseQuery(m, c))
  }

  function ParseQueryBalance(pm: Matches, c: D.Codecs): (r: Parsed<A.QueryBalance>)
    requires A.LiteralsParse(c)
    ensures Agrees(r, ResolveAt(QUERY_BALANCE_DEF, pm), _ => [QUERY_BALANCE_CMD])
    ensures !r.Absent? ==> r == Lift(A.ParseQueryBalance(SubcommandMatches(pm, QUERY_BALANCE_CMD).value, c))
  {
    Leaf(pm, QUERY_BALANCE_DEF, m => A.ParseQueryBalance(m, c))
  }

  function ParseQueryBonds(pm: Matches, c: D.Codecs): (r: Parsed<A.QueryBonds>)
    requires A.LiteralsParse(c)
    ensures Agrees(r, ResolveAt(QUERY_BONDS_DEF, pm), _ => [QUERY_BONDS_CMD])
    ensures !r.Absent? ==> r == Lift(A.ParseQueryBonds(SubcommandMatches(pm, QUERY_BONDS_CMD).value, c))
  {
    Leaf(pm, QUERY_BONDS_DEF, m => A.ParseQueryBonds(m, c))
  }

  function ParseQueryVotingPower(pm: Matches, c: D.Codecs): (r: Parsed<A.QueryVotingPower>)
    requires A.LiteralsParse(c)
    ensures Agrees(r, ResolveAt(QUERY_VOTING_POWER_DEF, pm), _ => [QUERY_VOTING_POWER_CMD])
    ensures !r.Absent? ==> r == Lift(A.ParseQueryVotingPower(SubcommandMatches(pm, QUERY_VOTING_POWER_CMD).value, c))
  {
    Leaf(pm, QUERY_VOTING_POWER_DEF, m => A.ParseQueryVotingPower(m, c))
  }

  function ParseQueryCommissionRate(pm: Matches, c: D.Codecs): (r: Parsed<A.QueryCommissionRate>)
    requires A.LiteralsParse(c)
    ensures Agrees(r, ResolveAt(QUERY_COMMISSION_RATE_DEF, pm), _ => [QUERY_COMMISSION_RATE_CMD])
    ensures !r.Absent? ==> r == Lift(A.ParseQueryCommissionRate(SubcommandMatches(pm, QUERY_COMMISSION_RATE_CMD).value, c))
  {
    Leaf(pm, QUERY_COMMISSION_RATE_DEF, m => A.ParseQueryCommissionRate(m, c))
  }

  function ParseQuerySlashes(pm: Matches, c: D.Codecs): (r: Parsed<A.QuerySlashes>)
    requires A.LiteralsParse(c)
    ensures Agrees(r, ResolveAt(QUERY_SLASHES_DEF, pm), _ => [QUERY_SLASHES_CMD])
    ensures !r.Absent? ==> r == Lift(A.ParseQuerySlashes(SubcommandMatches(pm, QUERY_SLASHES_CMD).value, c))
  {
    Leaf(pm, QUERY_SLASHES_DEF, m => A.ParseQuerySlashes(m, c))
  }

  function ParseQueryResult(pm: Matches, c: D.Codecs): (r: Parsed<A.QueryResult>)
    requires A.LiteralsParse(c)
    ensures Agrees(r, ResolveAt(QUERY_RESULT_DEF, pm), _ => [QUERY_RESULT_CMD])
    ensures !r.Absent? ==> r == Lift(A.ParseQueryResult(SubcommandMatches(pm, QUERY_RESULT_CMD).value, c))
  {
    Leaf(pm, QUERY_RESULT_DEF, m => A.ParseQueryResult(m, c))
  }

  function ParseQueryRawBytes(pm: Matches, c: D.Codecs): (r: Parsed<A.QueryRawBytes>)
    requires A.LiteralsParse(c)
    ensures Agrees(r, ResolveAt(QUERY_RAW_BYTES_DEF, pm), _ => [QUERY_RAW_BYTES_CMD])
    ensures !r.Absent? ==> r == Lift(A.ParseQueryRawBytes(SubcommandMatches(pm, QUERY_RAW_BYTES_CMD).value, c))
  {
    Leaf(pm, QUERY_RAW_BYTES_DEF, m => A.ParseQueryRawBytes(m, c))
  }

  function ParseQueryProposal(pm: Matches, c: D.Codecs): (r: Parsed<A.QueryProposal>)
    requires A.LiteralsParse(c)
    ensures Agrees(r, ResolveAt(QUERY_PROPOSAL_DEF, pm), _ => [QUERY_PROPOSAL_CMD])
    ensures !r.Absent? ==> r == Lift(A.ParseQueryProposal(SubcommandMatches(pm, QUERY_PROPOSAL_CMD).value, c))
  {
    Leaf(pm, QUERY_PROPOSAL_DEF, m => A.ParseQueryProposal(m, c))
  }

  function ParseQueryProposalResult(pm: Matches, c: D.Codecs): (r: Parsed<A.QueryProposalResult>)
    requires A.LiteralsParse(c)
    ensures Agrees(r, ResolveAt(QUERY_PROPOSAL_RESULT_DEF, pm), _ => [QUERY_PROPOSAL_RESULT_CMD])
    ensures !r.Absent? ==> r == Lift(A.ParseQueryProposalResult(SubcommandMatches(pm, QUERY_PROPOSAL_RESULT_CMD).value, c))
  {
    Leaf(pm, QUERY_PROPOSAL_RESULT_DEF, m => A.ParseQueryProposalResult(m, c))
  }

  function ParseQueryProtocolParameters(pm: Matches, c: D.Codecs): (r: Parsed<A.QueryProtocolParameters>)
    requires A.LiteralsParse(c)
    ensures Agrees(r, ResolveAt(QUERY_PROTOCOL_PARAMETERS_DEF, pm), _ => [QUERY_PROTOCOL_PARAMETERS_CMD])
    ensures !r.Absent? ==> r == Lift(A.ParseQueryProtocolParameters(SubcommandMatches(pm, QUERY_PROTOCOL_PARAMETERS_CMD).value, c))
  {
    Leaf(pm, QUERY_PROTOCOL_PARAMETERS_DEF, m => A.ParseQueryProtocolParameters(m, c))
  }

  function ParseKeyGen(pm: Matches, c: D.Codecs): (r: Parsed<A.KeyAndAddressGen>)
    ensures Agrees(r, ResolveAt(KEY_GEN_DEF, pm), _ => [KEY_GEN_CMD])
    ensures !r.Absent? ==> r == Lift(A.ParseKeyAndAddressGen(SubcommandMatches(pm, KEY_GEN_CMD).value, c))
  {
    Leaf(pm, KEY_GEN_DEF, m => A.ParseKeyAndAddressGen(m, c))
  }

  function ParseKeyFind(pm: Matches, c: D.Codecs): (r: Parsed<A.KeyFind>)
    ensures Agrees(r, ResolveAt(KEY_FIND_DEF, pm), _ => [KEY_FIND_CMD])
    ensures !r.Absent? ==> r == Lift(A.ParseKeyFind(SubcommandMatches(pm, KEY_FIND_CMD).value, c))
  {
    Leaf(pm, KEY_FIND_DEF, m => A.ParseKeyFind(m, c))
  }

  function ParseKeyList(pm: Matches, c: D.Codecs): (r: Parsed<A.KeyList>)
    ensures Agrees(r, ResolveAt(KEY_LIST_DEF, pm), _ => [KEY_LIST_CMD])
    ensures !r.Absent? ==> r == Lift(A.ParseKeyList(SubcommandMatches(pm, KEY_LIST_CMD).value, c))
  {
    Leaf(pm, KEY_LIST_DEF, m => A.ParseKeyList(m, c))
  }

  function ParseExport(pm: Matches, c: D.Codecs): (r: Parsed<A.KeyExport>)
    ensures Agrees(r, ResolveAt(KEY_EXPORT_DEF, pm), _ => [KEY_EXPORT_CMD])
    ensures !r.Absent? ==> r == Lift(A.ParseKeyExport(SubcommandMatches(pm, KEY_EXPORT_CMD).value, c))
  {
    Leaf(pm, KEY_EXPORT_DEF, m => A.ParseKeyExport(m, c))
  }

  function ParseAddressGen(pm: Matches, c: D.Codecs): (r: Parsed<A.KeyAndAddressGen>)
    ensures Agrees(r, ResolveAt(ADDRESS_GEN_DEF, pm), _ => [ADDRESS_GEN_CMD])
    ensures !r.Absent? ==> r == Lift(A.ParseKeyAndAddressGen(SubcommandMatches(pm, ADDRESS_GEN_CMD).value, c))
  {
    Leaf(pm, ADDRESS_GEN_DEF, m => A.ParseKeyAndAddressGen(m, c))
  }

  function ParseAddressOrAliasFind(pm: Matches, c: D.Codecs): (r: Parsed<A.AddressOrAliasFind>)
    ensures Agrees(r, ResolveAt(ADDRESS_FIND_DEF, pm), _ => [ADDRESS_FIND_CMD])
    ensures !r.Absent? ==> r == Lift(A.ParseAddressOrAliasFind(SubcommandMatches(pm, ADDRESS_FIND_CMD).value, c))
  {
    Leaf(pm, ADDRESS_FIND_DEF, m => A.ParseAddressOrAliasFind(m, c))
  }

  function ParseAddressAdd(pm: Matches, c: D.Codecs): (r: Parsed<A.AddressAdd>)
    ensures Agrees(r, ResolveAt(ADDRESS_ADD_DEF, pm), _ => [ADDRESS_ADD_CMD])
    ensures !r.Absent? ==> r == Lift(A.ParseAddressAdd(SubcommandMatches(pm, ADDRESS_ADD_CMD).value, c))
  {
    Leaf(pm, ADDRESS_ADD_DEF, m => A.ParseAddressAdd(m, c))
  }

  function ParseJoinNetwork(pm: Matches, c: D.Codecs): (r: Parsed<A.JoinNetwork>)
    ensures Agrees(r, ResolveAt(JOIN_NETWORK_DEF, pm), _ => [JOIN_NETWORK_CMD])
    ensures !r.Absent? ==> r == Lift(A.ParseJoinNetwork(SubcommandMatches(pm, JOIN_NETWORK_CMD).value, c))
  {
    Leaf(pm, JOIN_NETWORK_DEF, m => A.ParseJoinNetwork(m, c))
  }

  function ParseFetchWasms(pm: Matches, c: D.Codecs): (r: Parsed<A.FetchWasms>)
    ensures Agrees(r, ResolveAt(FETCH_WASMS_DEF, pm), _ => [FETCH_WASMS_CMD])
    ensures !r.Absent? ==> r == Lift(A.ParseFetchWasms(SubcommandMatches(pm, FETCH_WASMS_CMD).value, c))
  {
    Leaf(pm, FETCH_WASMS_DEF, m => A.ParseFetchWasms(m, c))
  }

  function ParseInitNetwork(pm: Matches, c: D.Codecs): (r: Parsed<A.InitNetwork>)
    requires A.LiteralsParse(c)
    ensures Agrees(r, ResolveAt(INIT_NETWORK_DEF, pm), _ => [INIT_NETWORK_CMD])
    ensures !r.Absent? ==> r == Lift(A.ParseInitNetwork(SubcommandMatches(pm, INIT_NETWORK_CMD).value, c))
  {
    Leaf(pm, INIT_NETWORK_DEF, m => A.ParseInitNetwork(m, c))
  }

  function ParseInitGenesisValidator(pm: Matches, c: D.Codecs): (r: Parsed<A.InitGenesisValidator>)
    ensures Agrees(r, ResolveAt(INIT_GENESIS_VALIDATOR_DEF, pm), _ => [INIT_GENESIS_VALIDATOR_CMD])
    ensures !r.Absent? ==> r == Lift(A.ParseInitGenesisValidator(SubcommandMatches(pm, INIT_GENESIS_VALIDATOR_CMD).value, c))
  {
    Leaf(pm, INIT_GENESIS_VALIDATOR_DEF, m => A.ParseInitGenesisValidator(m, c))
  }

  // Inner commands. Each sibling list is the list of results the source binds
  // before combining them; the parse is their `FirstOf`.

  /** With `ledger` selected, `run` or `reset` if given, otherwise `run`. */
  function ParseLedger(pm: Matches): (r: Parsed<Ledger>)
    ensures Agrees(r, ResolveAt(LEDGER_DEF, pm), LedgerPath)
  {
    match SubcommandMatches(pm, LEDGER_CMD)
    case None => Absent
    case Some(m) =>
      var s := [Map(ParseLedgerRun(m), _ => Ledger.Run), Map(ParseLedgerReset(m), _ => Ledger.Reset)];
      ChainAgrees(s, LEDGER_DEF.subs, m, l => [LedgerToken(l)]);
      FallbackAgrees(LEDGER_DEF, pm, s, Ledger.Run, l => [LedgerToken(l)], LedgerPath);
      FirstOf(s + [Found(Ledger.Run)])
  }

  function ParseConfig(pm: Matches): (r: Parsed<Config>)
    ensures Agrees(r, ResolveAt(CONFIG_DEF, pm), ConfigPath)
  {
    match SubcommandMatches(pm, CONFIG_CMD)
    case None => Absent
    case Some(m) =>
      var r := Map(ParseConfigGen(m), _ => Config.Gen);
      SingleAgrees(r, CONFIG_GEN_DEF, m, _ => [CONFIG_GEN_CMD]);
      NestAgrees(CONFIG_DEF, pm, r, _ => [CONFIG_GEN_CMD], ConfigPath);
      r
  }

  function NodeSiblings(m: Matches): seq<Parsed<AnomaNode>>
  {
    [Map(ParseLedger(m), l => AnomaNode.Ledger(l)), Map(ParseConfig(m), g => AnomaNode.Config(g))]
  }

  /** No two of the node's children share a token. */
  lemma NodeTokensDistinct()
    ensures DistinctTokens(NODE_SUBS)
  {
  }

  function ParseAnomaNode(m: Matches): (r: Parsed<AnomaNode>)
    ensures Agrees(r, ResolveSubs(NODE_SUBS, m), NodePath)
    ensures forall k :: SelectedAt(m, NODE_SUBS, k) ==> r == NodeSiblings(m)[k]
  {
    NodeTokensDistinct();
    ChainDispatch(NodeSiblings(m), NODE_SUBS, m, NodePath);
    FirstOf(NodeSiblings(m))
  }

  function ParseAnomaNodeSub(pm: Matches): (r: Parsed<AnomaNode>)
    ensures Agrees(r, ResolveAt(NODE_DEF, pm), n => [NODE_CMD] + NodePath(n))
    ensures SubcommandMatches(pm, NODE_CMD).Some? ==>
      var m := SubcommandMatches(pm, NODE_CMD).value;
      forall k :: SelectedAt(m, NODE_SUBS, k) ==> r == NodeSiblings(m)[k]
  {
    match SubcommandMatches(pm, NODE_CMD)
    case None => Absent
    case Some(m) => ParseAnomaNode(m)
  }

  function WalletKeySiblings(m: Matches, c: D.Codecs): seq<Parsed<WalletKey>>
  {
    [ Map(ParseKeyGen(m, c), x => WalletKey.Gen(x)),
      Map(ParseKeyFind(m, c), x => WalletKey.Find(x)),
      Map(ParseKeyList(m, c), x => WalletKey.List(x)),
      Map(ParseExport(m, c), x => WalletKey.Export(x)) ]
  }

  /** No two of the children of `WALLET_KEY_DEF` share a token. */
  lemma WalletKeyTokensDistinct()
    ensures DistinctTokens(WALLET_KEY_DEF.subs)
  {
  }

  function ParseWalletKey(pm: Matches, c: D.Codecs): (r: Parsed<WalletKey>)
    ensures Agrees(r, ResolveAt(WALLET_KEY_DEF, pm), WalletKeyPath)
    ensures SubcommandMatches(pm, WALLET_KEY_CMD).Some? ==>
      var m := SubcommandMatches(pm, WALLET_KEY_CMD).value;
      forall k :: SelectedAt(m, WALLET_KEY_DEF.subs, k) ==> r == WalletKeySiblings(m, c)[k]
  {
    match SubcommandMatches(pm, WALLET_KEY_CMD)
    case None => Absent
    case Some(m) =>
      WalletKeyTokensDistinct();
      ChainDispatch(WalletKeySiblings(m, c), WALLET_KEY_DEF.subs, m, k => [WalletKeyToken(k)]);
      NestAgrees(WALLET_KEY_DEF, pm, FirstOf(WalletKeySiblings(m, c)), k => [WalletKeyToken(k)], WalletKeyPath);
      FirstOf(WalletKeySiblings(m, c))
  }

  function WalletAddressSiblings(m: Matches, c: D.Codecs): seq<Parsed<WalletAddress>>
  {
    [ Map(ParseAddressGen(m, c), x => WalletAddress.Gen(x)),
      Map(ParseAddressOrAliasFind(m, c), x => WalletAddress.Find(x)),
      Map(ParseAddressList(m), _ => WalletAddress.List),
      Map(ParseAddressAdd(m, c), x => WalletAddress.Add(x)) ]
  }

  /** No two of the children of `WALLET_ADDRESS_DEF` share a token. */
  lemma WalletAddressTokensDistinct()
    ensures DistinctTokens(WALLET_ADDRESS_DEF.subs)
  {
  }

  function ParseWalletAddress(pm: Matches, c: D.Codecs): (r: Parsed<WalletAddress>)
    ensures Agrees(r, ResolveAt(WALLET_ADDRESS_DEF, pm), WalletAddressPath)
    ensures SubcommandMatches(pm, WALLET_ADDRESS_CMD).Some? ==>
      var m := SubcommandMatches(pm, WALLET_ADDRESS_CMD).value;
      forall k :: SelectedAt(m, WALLET_ADDRESS_DEF.subs, k) ==> r == WalletAddressSiblings(m, c)[k]
  {
    match SubcommandMatches(pm, WALLET_ADDRESS_CMD)
    case None => Absent
    case Some(m) =>
      WalletAddressTokensDistinct();
      ChainDispatch(WalletAddressSiblings(m, c), WALLET_ADDRESS_DEF.subs, m, a => [WalletAddressToken(a)]);
      NestAgrees(WALLET_ADDRESS_DEF, pm, FirstOf(WalletAddressSiblings(m, c)), a => [WalletAddressToken(a)], WalletAddressPath);
      FirstOf(WalletAddressSiblings(m, c))
  }

  function WalletSiblings(m: Matches, c: D.Codecs): seq<Parsed<AnomaWallet>>
  {
    [Map(ParseWalletKey(m, c), k => AnomaWallet.Key(k)), Map(ParseWalletAddress(m, c), a => AnomaWallet.Address(a))]
  }

  /** No two of the wallet's children share a token. */
  lemma WalletTokensDistinct()
    ensures DistinctTokens(WALLET_SUBS)
  {
  }

  function ParseAnomaWallet(m: Matches, c: D.Codecs): (r: Parsed<AnomaWallet>)
    ensures Agrees(r, ResolveSubs(WALLET_SUBS, m), WalletPath)
    ensures forall k :: SelectedAt(m, WALLET_SUBS, k) ==> r == WalletSiblings(m, c)[k]
  {
    WalletTokensDistinct();
    ChainDispatch(WalletSiblings(m, c), WALLET_SUBS, m, WalletPath);
    FirstOf(WalletSiblings(m, c))
  }

  function ParseAnomaWalletSub(pm: Matches, c: D.Codecs): (r: Parsed<AnomaWallet>)
    ensures Agrees(r, ResolveAt(WALLET_DEF, pm), w => [WALLET_CMD] + WalletPath(w))
    ensures SubcommandMatches(pm, WALLET_CMD).Some? ==>
      var m := SubcommandMatches(pm, WALLET_CMD).value;
      forall k :: SelectedAt(m, WALLET_SUBS, k) ==> r == WalletSiblings(m, c)[k]
  {
    match SubcommandMatches(pm, WALLET_CMD)
    case None => Absent
    case Some(m) => ParseAnomaWallet(m, c)
  }

  function UtilsSiblings(m: Matches, c: D.Codecs): seq<Parsed<Utils>>
    requires A.LiteralsParse(c)
  {
    [ Map(ParseJoinNetwork(m, c), x => Utils.JoinNetwork(x)),
      Map(ParseFetchWasms(m, c), x => Utils.FetchWasms(x)),
      Map(ParseInitNetwork(m, c), x => Utils.InitNetwork(x)),
      Map(ParseInitGenesisValidator(m, c), x => Utils.InitGenesisValidator(x)) ]
  }

  /** No two of the children of `UTILS_DEF` share a token. */
  lemma UtilsTokensDistinct()
    ensures DistinctTokens(UTILS_DEF.subs)
  {
  }

  function ParseUtils(pm: Matches, c: D.Codecs): (r: Parsed<Utils>)
    requires A.LiteralsParse(c)
    ensures Agrees(r, ResolveAt(UTILS_DEF, pm), UtilsPath)
    ensures SubcommandMatches(pm, UTILS_CMD).Some? ==>
      var m := SubcommandMatches(pm, UTILS_CMD).value;
      forall k :: SelectedAt(m, UTILS_DEF.subs, k) ==> r == UtilsSiblings(m, c)[k]
  {
    match SubcommandMatches(pm, UTILS_CMD)
    case None => Absent
    case Some(m) =>
      UtilsTokensDistinct();
      ChainDispatch(UtilsSiblings(m, c), UTILS_DEF.subs, m, u => [UtilsToken(u)]);
      NestAgrees(UTILS_DEF, pm, FirstOf(UtilsSiblings(m, c)), u => [UtilsToken(u)], UtilsPath);
      FirstOf(UtilsSiblings(m, c))
  }

  /** A selected command that needs a `Context`: only ever routed to `WithContext`. */
  function ParseWithCtx<T>(p: Parsed<T>, f: T -> AnomaClientWithContext): (r: Parsed<AnomaClient>)
    ensures r.Absent? <==> p.Absent?
    ensures r.Found? ==> p.Found? && r.value == AnomaClient.WithContext(f(p.value))
    ensures r.Exit? ==> p.Exit? && r.error == p.error
  {
    Map(p, x => AnomaClient.WithContext(f(x)))
  }

  /** The simple transactions. */
  function ClientSimpleTxSiblings(m: Matches, c: D.Codecs): seq<Parsed<AnomaClient>>
    requires A.LiteralsParse(c)
  {
    [ ParseWithCtx(ParseTxCustom(m, c), x => AnomaClientWithContext.TxCustom(x)),
      ParseWithCtx(ParseTxTransfer(m, c), x => AnomaClientWithContext.TxTransfer(x)),
      ParseWithCtx(ParseTxUpdateVp(m, c), x => AnomaClientWithContext.TxUpdateVp(x)),
      ParseWithCtx(ParseTxInitAccount(m, c), x => AnomaClientWithContext.TxInitAccount(x)),
      ParseWithCtx(ParseTxInitValidator(m, c), x => AnomaClientWithContext.TxInitValidator(x)) ]
  }

  lemma ClientSimpleTxAgree(m: Matches, c: D.Codecs)
    requires A.LiteralsParse(c)
    ensures EachAgrees(ClientSimpleTxSiblings(m, c), CLIENT_SIMPLE_TX_SUBS, m, ClientPath)
  {
    var s := ClientSimpleTxSiblings(m, c);
    forall i | 0 <= i < |CLIENT_SIMPLE_TX_SUBS|
      ensures Agrees(s[i], ResolveAt(CLIENT_SIMPLE_TX_SUBS[i], m), ClientPath)
    {
      if i == 0 {
      } else if i == 1 {
      } else if i == 2 {
      } else if i == 3 {
      } else if i == 4 {
      }
    }
  }

  /** The proposal transactions. */
  function ClientProposalTxSiblings(m: Matches, c: D.Codecs): seq<Parsed<AnomaClient>>
    requires A.LiteralsParse(c)
  {
    [ ParseWithCtx(ParseTxInitProposal(m, c), x => AnomaClientWithContext.TxInitProposal(x)),
      ParseWithCtx(ParseTxVoteProposal(m, c), x => AnomaClientWithContext.TxVoteProposal(x)) ]
  }

  lemma ClientProposalTxAgree(m: Matches, c: D.Codecs)
    requires A.LiteralsParse(c)
    ensures EachAgrees(ClientProposalTxSiblings(m, c), CLIENT_PROPOSAL_TX_SUBS, m, ClientPath)
  {
    var s := ClientProposalTxSiblings(m, c);
    forall i | 0 <= i < |CLIENT_PROPOSAL_TX_SUBS|
      ensures Agrees(s[i], ResolveAt(CLIENT_PROPOSAL_TX_SUBS[i], m), ClientPath)
    {
      if i == 0 {
      } else if i == 1 {
      }
    }
  }

  /** The proof-of-stake transactions. */
  function ClientPosSiblings(m: Matches, c: D.Codecs): seq<Parsed<AnomaClient>>
    requires A.LiteralsParse(c)
  {
    [ ParseWithCtx(ParseBond(m, c), x => AnomaClientWithContext.Bond(x)),
      ParseWithCtx(ParseUnbond(m, c), x => AnomaClientWithContext.Unbond(x)),
      ParseWithCtx(ParseWithdraw(m, c), x => AnomaClientWithContext.Withdraw(x)) ]
  }

  lemma ClientPosAgree(m: Matches, c: D.Codecs)
    requires A.LiteralsParse(c)
    ensures EachAgrees(ClientPosSiblings(m, c), CLIENT_POS_SUBS, m, ClientPath)
  {
    var s := ClientPosSiblings(m, c);
    forall i | 0 <= i < |CLIENT_POS_SUBS|
      ensures Agrees(s[i], ResolveAt(CLIENT_POS_SUBS[i], m), ClientPath)
    {
      if i == 0 {
      } else if i == 1 {
      } else if i == 2 {
      }
    }
  }

  /** The queries, first run: chain state and balances. */
  function ClientChainQuerySiblings(m: Matches, c: D.Codecs): seq<Parsed<AnomaClient>>
    requires A.LiteralsParse(c)
  {
    [ ParseWithCtx(ParseQueryEpoch(m, c), x => AnomaClientWithContext.QueryEpoch(x)),
      ParseWithCtx(ParseQueryBlock(m, c), x => AnomaClientWithContext.QueryBlock(x)),
      ParseWithCtx(ParseQueryBalance(m, c), x => AnomaClientWithContext.QueryBalance(x)),
      ParseWithCtx(ParseQueryBonds(m, c), x => AnomaClientWithContext.QueryBonds(x)) ]
  }

  lemma ClientChainQueryAgree(m: Matches, c: D.Codecs)
    requires A.LiteralsParse(c)
    ensures EachAgrees(ClientChainQuerySiblings(m, c), CLIENT_CHAIN_QUERY_SUBS, m, ClientPath)
  {
    var s := ClientChainQuerySiblings(m, c);
    forall i | 0 <= i < |CLIENT_CHAIN_QUERY_SUBS|
      ensures Agrees(s[i], ResolveAt(CLIENT_CHAIN_QUERY_SUBS[i], m), ClientPath)
    {
      if i == 0 {
      } else if i == 1 {
      } else if i == 2 {
      } else if i == 3 {
      }
    }
  }

  /** The queries, second run: stake, slashes and raw storage. */
  function ClientStakeQuerySiblings(m: Matches, c: D.Codecs): seq<Parsed<AnomaClient>>
    requires A.LiteralsParse(c)
  {
    [ ParseWithCtx(ParseQueryVotingPower(m, c), x => AnomaClientWithContext.QueryVotingPower(x)),
      ParseWithCtx(ParseQuerySlashes(m, c), x => AnomaClientWithContext.QuerySlashes(x)),
      ParseWithCtx(ParseQueryResult(m, c), x => AnomaClientWithContext.QueryResult(x)),
      ParseWithCtx(ParseQueryRawBytes(m, c), x => AnomaClientWithContext.QueryRawBytes(x)) ]
  }

  lemma ClientStakeQueryAgree(m: Matches, c: D.Codecs)
    requires A.LiteralsParse(c)
    ensures EachAgrees(ClientStakeQuerySiblings(m, c), CLIENT_STAKE_QUERY_SUBS, m, ClientPath)
  {
    var s := ClientStakeQuerySiblings(m, c);
    forall i | 0 <= i < |CLIENT_STAKE_QUERY_SUBS|
      ensures Agrees(s[i], ResolveAt(CLIENT_STAKE_QUERY_SUBS[i], m), ClientPath)
    {
      if i == 0 {
      } else if i == 1 {
      } else if i == 2 {
      } else if i == 3 {
      }
    }
  }

  /** The queries, last run: governance and protocol parameters. */
  function ClientGovQuerySiblings(m: Matches, c: D.Codecs): seq<Parsed<AnomaClient>>
    requires A.LiteralsParse(c)
  {
    [ ParseWithCtx(ParseQueryProposal(m, c), x => AnomaClientWithContext.QueryProposal(x)),
      ParseWithCtx(ParseQueryProposalResult(m, c), x => AnomaClientWithContext.QueryProposalResult(x)),
      ParseWithCtx(ParseQueryProtocolParameters(m, c), x => AnomaClientWithContext.QueryProtocolParameters(x)) ]
  }

  lemma ClientGovQueryAgree(m: Matches, c: D.Codecs)
    requires A.LiteralsParse(c)
    ensures EachAgrees(ClientGovQuerySiblings(m, c), CLIENT_GOV_QUERY_SUBS, m, ClientPath)
  {
    var s := ClientGovQuerySiblings(m, c);
    forall i | 0 <= i < |CLIENT_GOV_QUERY_SUBS|
      ensures Agrees(s[i], ResolveAt(CLIENT_GOV_QUERY_SUBS[i], m), ClientPath)
    {
      if i == 0 {
      } else if i == 1 {
      } else if i == 2 {
      }
    }
  }

  /** The utilities, which need no context. */
  function ClientUtilsSiblings(m: Matches, c: D.Codecs): seq<Parsed<AnomaClient>>
    requires A.LiteralsParse(c)
  {
    [ Map(ParseUtils(m, c), u => AnomaClient.WithoutContext(u)) ]
  }

  lemma ClientUtilsAgree(m: Matches, c: D.Codecs)
    requires A.LiteralsParse(c)
    ensures EachAgrees(ClientUtilsSiblings(m, c), CLIENT_UTILS_SUBS, m, ClientPath)
  {
    var s := ClientUtilsSiblings(m, c);
    forall i | 0 <= i < |CLIENT_UTILS_SUBS|
      ensures Agrees(s[i], ResolveAt(CLIENT_UTILS_SUBS[i], m), ClientPath)
    {
      if i == 0 {
      }
    }
  }

  /** The client's siblings, in registration order. */
  function ClientSiblings(m: Matches, c: D.Codecs): seq<Parsed<AnomaClient>>
    requires A.LiteralsParse(c)
  {
    ClientSimpleTxSiblings(m, c) + ClientProposalTxSiblings(m, c) + ClientPosSiblings(m, c) + ClientChainQuerySiblings(m, c) + ClientStakeQuerySiblings(m, c) + ClientGovQuerySiblings(m, c) + ClientUtilsSiblings(m, c)
  }

  lemma ClientSiblingsAgree(m: Matches, c: D.Codecs)
    requires A.LiteralsParse(c)
    ensures EachAgrees(ClientSiblings(m, c), CLIENT_SUBS, m, ClientPath)
  {
    ClientSimpleTxAgree(m, c);
    ClientProposalTxAgree(m, c);
    ClientPosAgree(m, c);
    ClientChainQueryAgree(m, c);
    ClientStakeQueryAgree(m, c);
    ClientGovQueryAgree(m, c);
    ClientUtilsAgree(m, c);
    EachAgreesAppend(ClientSimpleTxSiblings(m, c), ClientProposalTxSiblings(m, c), CLIENT_SIMPLE_TX_SUBS, CLIENT_PROPOSAL_TX_SUBS, m, ClientPath);
    EachAgreesAppend(ClientSimpleTxSiblings(m, c) + ClientProposalTxSiblings(m, c), ClientPosSiblings(m, c), CLIENT_SIMPLE_TX_SUBS + CLIENT_PROPOSAL_TX_SUBS, CLIENT_POS_SUBS, m, ClientPath);
    EachAgreesAppend(ClientSimpleTxSiblings(m, c) + ClientProposalTxSiblings(m, c) + ClientPosSiblings(m, c), ClientChainQuerySiblings(m, c), CLIENT_SIMPLE_TX_SUBS + CLIENT_PROPOSAL_TX_SUBS + CLIENT_POS_SUBS, CLIENT_CHAIN_QUERY_SUBS, m, ClientPath);
    EachAgreesAppend(ClientSimpleTxSiblings(m, c) + ClientProposalTxSiblings(m, c) + ClientPosSiblings(m, c) + ClientChainQuerySiblings(m, c), ClientStakeQuerySiblings(m, c), CLIENT_SIMPLE_TX_SUBS + CLIENT_PROPOSAL_TX_SUBS + CLIENT_POS_SUBS + CLIENT_CHAIN_QUERY_SUBS, CLIENT_STAKE_QUERY_SUBS, m, ClientPath);
    EachAgreesAppend(ClientSimpleTxSiblings(m, c) + ClientProposalTxSiblings(m, c) + ClientPosSiblings(m, c) + ClientChainQuerySiblings(m, c) + ClientStakeQuerySiblings(m, c), ClientGovQuerySiblings(m, c), CLIENT_SIMPLE_TX_SUBS + CLIENT_PROPOSAL_TX_SUBS + CLIENT_POS_SUBS + CLIENT_CHAIN_QUERY_SUBS + CLIENT_STAKE_QUERY_SUBS, CLIENT_GOV_QUERY_SUBS, m, ClientPath);
    EachAgreesAppend(ClientSimpleTxSiblings(m, c) + ClientProposalTxSiblings(m, c) + ClientPosSiblings(m, c) + ClientChainQuerySiblings(m, c) + ClientStakeQuerySiblings(m, c) + ClientGovQuerySiblings(m, c), ClientUtilsSiblings(m, c), CLIENT_SIMPLE_TX_SUBS + CLIENT_PROPOSAL_TX_SUBS + CLIENT_POS_SUBS + CLIENT_CHAIN_QUERY_SUBS + CLIENT_STAKE_QUERY_SUBS + CLIENT_GOV_QUERY_SUBS, CLIENT_UTILS_SUBS, m, ClientPath);
  }

  /**
   * The chain agrees with the reading of the registered children, and it is
   * the result bound for the selected child, wherever that child sits.
   */
  function ParseAnomaClient(m: Matches, c: D.Codecs): (r: Parsed<AnomaClient>)
    requires A.LiteralsParse(c)
    ensures Agrees(r, ResolveSubs(CLIENT_SUBS, m), ClientPath)
    ensures forall k :: SelectedAt(m, CLIENT_SUBS, k) ==> r == ClientSiblings(m, c)[k]
  {
    ClientSiblingsAgree(m, c);
    ClientTokensDistinct();
    ChainDispatch(ClientSiblings(m, c), CLIENT_SUBS, m, ClientPath);
    FirstOf(ClientSiblings(m, c))
  }

  function ParseAnomaClientSub(pm: Matches, c: D.Codecs): (r: Parsed<AnomaClient>)
    requires A.LiteralsParse(c)
    ensures Agrees(r, ResolveAt(CLIENT_DEF, pm), cl => [CLIENT_CMD] + ClientPath(cl))
    ensures SubcommandMatches(pm, CLIENT_CMD).Some? ==>
      var m := SubcommandMatches(pm, CLIENT_CMD).value;
      forall k :: SelectedAt(m, CLIENT_SUBS, k) ==> r == ClientSiblings(m, c)[k]
  {
    match SubcommandMatches(pm, CLIENT_CMD)
    case None => Absent
    case Some(m) => ParseAnomaClient(m, c)
  }

  /** The sub-binaries and the ledger. */
  function AnomaBinarySiblings(m: Matches, c: D.Codecs): seq<Parsed<Anoma>>
    requires A.LiteralsParse(c)
  {
    [ Map(ParseAnomaNodeSub(m), x => Anoma.Node(x)),
      Map(ParseAnomaClientSub(m, c), x => Anoma.Client(x)),
      Map(ParseAnomaWalletSub(m, c), x => Anoma.Wallet(x)),
      Map(ParseLedger(m), x => Anoma.Ledger(x)) ]
  }

  lemma AnomaBinaryAgree(m: Matches, c: D.Codecs)
    requires A.LiteralsParse(c)
    ensures EachAgrees(AnomaBinarySiblings(m, c), ANOMA_BINARY_SUBS, m, AnomaPath)
  {
    var s := AnomaBinarySiblings(m, c);
    forall i | 0 <= i < |ANOMA_BINARY_SUBS|
      ensures Agrees(s[i], ResolveAt(ANOMA_BINARY_SUBS[i], m), AnomaPath)
    {
      if i == 0 {
      } else if i == 1 {
      } else if i == 2 {
      } else if i == 3 {
      }
    }
  }

  /** The inlined client transactions. */
  function AnomaTxSiblings(m: Matches, c: D.Codecs): seq<Parsed<Anoma>>
    requires A.LiteralsParse(c)
  {
    [ Map(ParseTxCustom(m, c), x => Anoma.TxCustom(x)),
      Map(ParseTxTransfer(m, c), x => Anoma.TxTransfer(x)),
      Map(ParseTxUpdateVp(m, c), x => Anoma.TxUpdateVp(x)),
      Map(ParseTxInitProposal(m, c), x => Anoma.TxInitProposal(x)),
      Map(ParseTxVoteProposal(m, c), x => Anoma.TxVoteProposal(x)) ]
  }

  lemma AnomaTxAgree(m: Matches, c: D.Codecs)
    requires A.LiteralsParse(c)
    ensures EachAgrees(AnomaTxSiblings(m, c), ANOMA_TX_SUBS, m, AnomaPath)
  {
    var s := AnomaTxSiblings(m, c);
    forall i | 0 <= i < |ANOMA_TX_SUBS|
      ensures Agrees(s[i], ResolveAt(ANOMA_TX_SUBS[i], m), AnomaPath)
    {
      if i == 0 {
      } else if i == 1 {
      } else if i == 2 {
      } else if i == 3 {
      } else if i == 4 {
      }
    }
  }

  /** The root's siblings, in registration order. */
  function AnomaSiblings(m: Matches, c: D.Codecs): seq<Parsed<Anoma>>
    requires A.LiteralsParse(c)
  {
    AnomaBinarySiblings(m, c) + AnomaTxSiblings(m, c)
  }

  lemma AnomaSiblingsAgree(m: Matches, c: D.Codecs)
    requires A.LiteralsParse(c)
    ensures EachAgrees(AnomaSiblings(m, c), ANOMA_SUBS, m, AnomaPath)
  {
    AnomaBinaryAgree(m, c);
    AnomaTxAgree(m, c);
    EachAgreesAppend(AnomaBinarySiblings(m, c), AnomaTxSiblings(m, c), ANOMA_BINARY_SUBS, ANOMA_TX_SUBS, m, AnomaPath);
  }

  /**
   * The chain agrees with the reading of the registered children, and it is
   * the result bound for the selected child, wherever that child sits.
   */
  function ParseAnoma(m: Matches, c: D.Codecs): (r: Parsed<Anoma>)
    requires A.LiteralsParse(c)
    ensures Agrees(r, ResolveSubs(ANOMA_SUBS, m), AnomaPath)
    ensures forall k :: SelectedAt(m, ANOMA_SUBS, k) ==> r == AnomaSiblings(m, c)[k]
  {
    AnomaSiblingsAgree(m, c);
    AnomaTokensDistinct();
    ChainDispatch(AnomaSiblings(m, c), ANOMA_SUBS, m, AnomaPath);
    FirstOf(AnomaSiblings(m, c))
  }


  // Properties of the command tree.

  /** `ledger` with no child, or with `run`, runs the node; only `ledger reset` resets; it never exits. */
  lemma LedgerDefaultsToRun(pm: Matches)
    requires SubcommandMatches(pm, LEDGER_CMD).Some?
    ensures ParseLedger(pm) == Found(
      if SubcommandMatches(SubcommandMatches(pm, LEDGER_CMD).value, LEDGER_RESET_CMD).Some? then Ledger.Reset else Ledger.Run)
  {
    var m := SubcommandMatches(pm, LEDGER_CMD).value;
    var s := [Map(ParseLedgerRun(m), _ => Ledger.Run), Map(ParseLedgerReset(m), _ => Ledger.Reset)];
    FirstOfFallback(s, Ledger.Run);
    assert s[1..][1..] == [];
    assert FirstOf(s[1..]) == Or(s[1], Absent);
    assert FirstOf(s) == Or(s[0], Or(s[1], Absent));
  }

  /** Every command of the client that needs a context has a token other than `utils`. */
  lemma WithContextTokenNotUtils(s: AnomaClientWithContext)
    ensures WithContextToken(s) != UTILS_CMD
  {
  }

  /**
   * The client routes by the selected token: a command comes back exactly
   * when a registered child is selected, and it needs no context exactly when
   * that child is `utils`.
   */
  lemma ClientRouting(m: Matches, c: D.Codecs)
    requires A.LiteralsParse(c)
    requires ParseAnomaClient(m, c).Found?
    ensures m.sub.Some? && exists i :: 0 <= i < |CLIENT_SUBS| && CLIENT_SUBS[i].token == m.sub.value.name
    ensures ParseAnomaClient(m, c).value.WithoutContext? <==> m.sub.value.name == UTILS_CMD
    ensures ParseAnomaClient(m, c).value.WithContext? ==> WithContextToken(ParseAnomaClient(m, c).value.sub) == m.sub.value.name
  {
    ResolveSubsHead(CLIENT_SUBS, m);
    if ParseAnomaClient(m, c).value.WithContext? {
      WithContextTokenNotUtils(ParseAnomaClient(m, c).value.sub);
    }
  }

  lemma ClientSimpleTxTokens()
    ensures Tokens(CLIENT_SIMPLE_TX_SUBS) == [TX_CUSTOM_CMD, TX_TRANSFER_CMD, TX_UPDATE_VP_CMD, TX_INIT_ACCOUNT_CMD, TX_INIT_VALIDATOR_CMD]
  {
  }

  lemma ClientProposalTxTokens()
    ensures Tokens(CLIENT_PROPOSAL_TX_SUBS) == [TX_INIT_PROPOSAL_CMD, TX_VOTE_PROPOSAL_CMD]
  {
  }

  lemma ClientPosTokens()
    ensures Tokens(CLIENT_POS_SUBS) == [BOND_CMD, UNBOND_CMD, WITHDRAW_CMD]
  {
  }

  lemma ClientChainQueryTokens()
    ensures Tokens(CLIENT_CHAIN_QUERY_SUBS) == [QUERY_EPOCH_CMD, QUERY_BLOCK_CMD, QUERY_BALANCE_CMD, QUERY_BONDS_CMD]
  {
  }

  lemma ClientStakeQueryTokens()
    ensures Tokens(CLIENT_STAKE_QUERY_SUBS) == [QUERY_VOTING_POWER_CMD, QUERY_SLASHES_CMD, QUERY_RESULT_CMD, QUERY_RAW_BYTES_CMD]
  {
  }

  lemma ClientGovQueryTokens()
    ensures Tokens(CLIENT_GOV_QUERY_SUBS) == [QUERY_PROPOSAL_CMD, QUERY_PROPOSAL_RESULT_CMD, QUERY_PROTOCOL_PARAMETERS_CMD]
  {
  }

  lemma ClientUtilsTokens()
    ensures Tokens(CLIENT_UTILS_SUBS) == [UTILS_CMD]
  {
  }

  /** The client's registered tokens, in registration order. */
  lemma ClientTokens()
    ensures Tokens(CLIENT_SUBS) == [
      TX_CUSTOM_CMD, TX_TRANSFER_CMD, TX_UPDATE_VP_CMD, TX_INIT_ACCOUNT_CMD, TX_INIT_VALIDATOR_CMD,
      TX_INIT_PROPOSAL_CMD, TX_VOTE_PROPOSAL_CMD, BOND_CMD, UNBOND_CMD, WITHDRAW_CMD,
      QUERY_EPOCH_CMD, QUERY_BLOCK_CMD, QUERY_BALANCE_CMD, QUERY_BONDS_CMD, QUERY_VOTING_POWER_CMD,
      QUERY_SLASHES_CMD, QUERY_RESULT_CMD, QUERY_RAW_BYTES_CMD, QUERY_PROPOSAL_CMD,
      QUERY_PROPOSAL_RESULT_CMD, QUERY_PROTOCOL_PARAMETERS_CMD, UTILS_CMD]
  {
    ClientSimpleTxTokens();
    ClientProposalTxTokens();
    ClientPosTokens();
    ClientChainQueryTokens();
    ClientStakeQueryTokens();
    ClientGovQueryTokens();
    ClientUtilsTokens();
    TokensAppend(CLIENT_SIMPLE_TX_SUBS, CLIENT_PROPOSAL_TX_SUBS);
    TokensAppend(CLIENT_SIMPLE_TX_SUBS + CLIENT_PROPOSAL_TX_SUBS, CLIENT_POS_SUBS);
    TokensAppend(CLIENT_SIMPLE_TX_SUBS + CLIENT_PROPOSAL_TX_SUBS + CLIENT_POS_SUBS, CLIENT_CHAIN_QUERY_SUBS);
    TokensAppend(CLIENT_SIMPLE_TX_SUBS + CLIENT_PROPOSAL_TX_SUBS + CLIENT_POS_SUBS + CLIENT_CHAIN_QUERY_SUBS, CLIENT_STAKE_QUERY_SUBS);
    TokensAppend(CLIENT_SIMPLE_TX_SUBS + CLIENT_PROPOSAL_TX_SUBS + CLIENT_POS_SUBS + CLIENT_CHAIN_QUERY_SUBS + CLIENT_STAKE_QUERY_SUBS, CLIENT_GOV_QUERY_SUBS);
    TokensAppend(CLIENT_SIMPLE_TX_SUBS + CLIENT_PROPOSAL_TX_SUBS + CLIENT_POS_SUBS + CLIENT_CHAIN_QUERY_SUBS + CLIENT_STAKE_QUERY_SUBS + CLIENT_GOV_QUERY_SUBS, CLIENT_UTILS_SUBS);
  }

  /** The client's tokens are pairwise different strings. */
  lemma ClientTokenNamesDistinct()
    ensures Distinct([
      TX_CUSTOM_CMD, TX_TRANSFER_CMD, TX_UPDATE_VP_CMD, TX_INIT_ACCOUNT_CMD, TX_INIT_VALIDATOR_CMD,
      TX_INIT_PROPOSAL_CMD, TX_VOTE_PROPOSAL_CMD, BOND_CMD, UNBOND_CMD, WITHDRAW_CMD,
      QUERY_EPOCH_CMD, QUERY_BLOCK_CMD, QUERY_BALANCE_CMD, QUERY_BONDS_CMD, QUERY_VOTING_POWER_CMD,
      QUERY_SLASHES_CMD, QUERY_RESULT_CMD, QUERY_RAW_BYTES_CMD, QUERY_PROPOSAL_CMD,
      QUERY_PROPOSAL_RESULT_CMD, QUERY_PROTOCOL_PARAMETERS_CMD, UTILS_CMD])
  {
  }

  /** No two of the client's children share a token. */
  lemma ClientTokensDistinct()
    ensures DistinctTokens(CLIENT_SUBS)
  {
    ClientTokens();
    ClientTokenNamesDistinct();
    DistinctByTokens(CLIENT_SUBS);
  }

  /** The root's registered tokens, in registration order. */
  lemma AnomaTokens()
    ensures Tokens(ANOMA_SUBS) == [
      NODE_CMD, CLIENT_CMD, WALLET_CMD, LEDGER_CMD, TX_CUSTOM_CMD, TX_TRANSFER_CMD, TX_UPDATE_VP_CMD,
      TX_INIT_PROPOSAL_CMD, TX_VOTE_PROPOSAL_CMD]
  {
    TokensAppend(ANOMA_BINARY_SUBS, ANOMA_TX_SUBS);
  }

  /** The root's tokens are pairwise different strings. */
  lemma AnomaTokenNamesDistinct()
    ensures Distinct([
      NODE_CMD, CLIENT_CMD, WALLET_CMD, LEDGER_CMD, TX_CUSTOM_CMD, TX_TRANSFER_CMD, TX_UPDATE_VP_CMD,
      TX_INIT_PROPOSAL_CMD, TX_VOTE_PROPOSAL_CMD])
  {
  }

  /** No two of the root's children share a token. */
  lemma AnomaTokensDistinct()
    ensures DistinctTokens(ANOMA_SUBS)
  {
    AnomaTokens();
    AnomaTokenNamesDistinct();
    DistinctByTokens(ANOMA_SUBS);
  }

  /** Below the client, every node that does not demand a child names a default one. */
  lemma ClientWellDefaulted()
    ensures AllWellDefaulted(CLIENT_SUBS)
  {
    AllWellDefaultedAppend(CLIENT_SIMPLE_TX_SUBS, CLIENT_PROPOSAL_TX_SUBS);
    AllWellDefaultedAppend(CLIENT_SIMPLE_TX_SUBS + CLIENT_PROPOSAL_TX_SUBS, CLIENT_POS_SUBS);
    AllWellDefaultedAppend(CLIENT_SIMPLE_TX_SUBS + CLIENT_PROPOSAL_TX_SUBS + CLIENT_POS_SUBS, CLIENT_CHAIN_QUERY_SUBS);
    AllWellDefaultedAppend(CLIENT_SIMPLE_TX_SUBS + CLIENT_PROPOSAL_TX_SUBS + CLIENT_POS_SUBS + CLIENT_CHAIN_QUERY_SUBS, CLIENT_STAKE_QUERY_SUBS);
    AllWellDefaultedAppend(CLIENT_SIMPLE_TX_SUBS + CLIENT_PROPOSAL_TX_SUBS + CLIENT_POS_SUBS + CLIENT_CHAIN_QUERY_SUBS + CLIENT_STAKE_QUERY_SUBS, CLIENT_GOV_QUERY_SUBS);
    AllWellDefaultedAppend(CLIENT_SIMPLE_TX_SUBS + CLIENT_PROPOSAL_TX_SUBS + CLIENT_POS_SUBS + CLIENT_CHAIN_QUERY_SUBS + CLIENT_STAKE_QUERY_SUBS + CLIENT_GOV_QUERY_SUBS, CLIENT_UTILS_SUBS);
  }

  /** Under `node`, `ledger` and `config`, sibling tokens are pairwise distinct. */
  lemma NodeUniqueSiblings()
    ensures UniqueSiblings(LEDGER_DEF) && UniqueSiblings(NODE_DEF)
  {
    assert UniqueSiblings(LEDGER_RUN_DEF) && UniqueSiblings(LEDGER_RESET_DEF) && UniqueSiblings(CONFIG_GEN_DEF);
    assert UniqueSiblings(LEDGER_DEF) && UniqueSiblings(CONFIG_DEF);
  }

  /** Under `wallet`, `key` and `address`, sibling tokens are pairwise distinct. */
  lemma WalletUniqueSiblings()
    ensures UniqueSiblings(WALLET_DEF)
  {
    assert UniqueSiblings(KEY_GEN_DEF) && UniqueSiblings(KEY_FIND_DEF) && UniqueSiblings(KEY_LIST_DEF) && UniqueSiblings(KEY_EXPORT_DEF);
    assert UniqueSiblings(ADDRESS_GEN_DEF) && UniqueSiblings(ADDRESS_FIND_DEF) && UniqueSiblings(ADDRESS_LIST_DEF);
    assert UniqueSiblings(ADDRESS_ADD_DEF);
    assert UniqueSiblings(WALLET_KEY_DEF) && UniqueSiblings(WALLET_ADDRESS_DEF);
  }

  /** Under every node below the client, sibling tokens are pairwise distinct. */
  lemma ClientUniqueSiblings()
    ensures AllUniqueSiblings(CLIENT_SUBS)
  {
    AllUniqueSiblingsAppend(CLIENT_SIMPLE_TX_SUBS, CLIENT_PROPOSAL_TX_SUBS);
    AllUniqueSiblingsAppend(CLIENT_SIMPLE_TX_SUBS + CLIENT_PROPOSAL_TX_SUBS, CLIENT_POS_SUBS);
    AllUniqueSiblingsAppend(CLIENT_SIMPLE_TX_SUBS + CLIENT_PROPOSAL_TX_SUBS + CLIENT_POS_SUBS, CLIENT_CHAIN_QUERY_SUBS);
    AllUniqueSiblingsAppend(CLIENT_SIMPLE_TX_SUBS + CLIENT_PROPOSAL_TX_SUBS + CLIENT_POS_SUBS + CLIENT_CHAIN_QUERY_SUBS, CLIENT_STAKE_QUERY_SUBS);
    AllUniqueSiblingsAppend(CLIENT_SIMPLE_TX_SUBS + CLIENT_PROPOSAL_TX_SUBS + CLIENT_POS_SUBS + CLIENT_CHAIN_QUERY_SUBS + CLIENT_STAKE_QUERY_SUBS, CLIENT_GOV_QUERY_SUBS);
    AllUniqueSiblingsAppend(CLIENT_SIMPLE_TX_SUBS + CLIENT_PROPOSAL_TX_SUBS + CLIENT_POS_SUBS + CLIENT_CHAIN_QUERY_SUBS + CLIENT_STAKE_QUERY_SUBS + CLIENT_GOV_QUERY_SUBS, CLIENT_UTILS_SUBS);
  }

  /** Under every node below the root, sibling tokens are pairwise distinct. */
  lemma AnomaUniqueSiblings()
    ensures AllUniqueSiblings(ANOMA_SUBS)
  {
    NodeUniqueSiblings();
    ClientUniqueSiblings();
    ClientTokensDistinct();
    assert UniqueSiblings(CLIENT_DEF);
    WalletUniqueSiblings();
    assert AllUniqueSiblings(ANOMA_BINARY_SUBS);
    AllUniqueSiblingsAppend(ANOMA_BINARY_SUBS, ANOMA_TX_SUBS);
  }

  /** `ledger`, the one node that does not demand a child, names `run` as its default. */
  lemma NodeWellDefaulted()
    ensures WellDefaulted(LEDGER_DEF) && WellDefaulted(NODE_DEF)
  {
    assert WellDefaulted(LEDGER_RUN_DEF) && WellDefaulted(LEDGER_RESET_DEF) && WellDefaulted(CONFIG_GEN_DEF);
    assert WellDefaulted(LEDGER_DEF) && WellDefaulted(CONFIG_DEF);
  }

  lemma WalletWellDefaulted()
    ensures WellDefaulted(WALLET_DEF)
  {
    assert WellDefaulted(KEY_GEN_DEF) && WellDefaulted(KEY_FIND_DEF) && WellDefaulted(KEY_LIST_DEF) && WellDefaulted(KEY_EXPORT_DEF);
    assert WellDefaulted(ADDRESS_GEN_DEF) && WellDefaulted(ADDRESS_FIND_DEF) && WellDefaulted(ADDRESS_LIST_DEF);
    assert WellDefaulted(ADDRESS_ADD_DEF);
    assert WellDefaulted(WALLET_KEY_DEF) && WellDefaulted(WALLET_ADDRESS_DEF);
  }

  /** Below the root, every node that does not demand a child names a default one. */
  lemma AnomaWellDefaulted()
    ensures AllWellDefaulted(ANOMA_SUBS)
  {
    NodeWellDefaulted();
    ClientWellDefaulted();
    assert WellDefaulted(CLIENT_DEF);
    WalletWellDefaulted();
    assert AllWellDefaulted(ANOMA_BINARY_SUBS);
    AllWellDefaultedAppend(ANOMA_BINARY_SUBS, ANOMA_TX_SUBS);
  }

  /**
   * The client's result is the reading of the selected child alone, wherever
   * that child sits in the chain.
   */
  lemma ClientSelected(m: Matches, c: D.Codecs, k: nat)
    requires A.LiteralsParse(c)
    requires k < |CLIENT_SUBS| && m.sub.Some? && CLIENT_SUBS[k].token == m.sub.value.name
    ensures Agrees(ParseAnomaClient(m, c), ResolveAt(CLIENT_SUBS[k], m), ClientPath)
    ensures ParseAnomaClient(m, c) == ClientSiblings(m, c)[k]
  {
    ClientTokensDistinct();
    ResolveSelected(CLIENT_SUBS, m, k);
  }

  /** The root's result is the reading of the selected child alone, wherever that child sits in the chain. */
  lemma AnomaSelected(m: Matches, c: D.Codecs, k: nat)
    requires A.LiteralsParse(c)
    requires k < |ANOMA_SUBS| && m.sub.Some? && ANOMA_SUBS[k].token == m.sub.value.name
    ensures Agrees(ParseAnoma(m, c), ResolveAt(ANOMA_SUBS[k], m), AnomaPath)
    ensures ParseAnoma(m, c) == AnomaSiblings(m, c)[k]
  {
    AnomaTokensDistinct();
    ResolveSelected(ANOMA_SUBS, m, k);
  }

  /** `commission-rate` is not among the client's registered tokens. */
  lemma CommissionRateNotRegistered()
    ensures QUERY_COMMISSION_RATE_CMD !in Tokens(CLIENT_SUBS)
  {
    ClientTokens();
  }

  /** A result that agrees with the client's registered children never names `commission-rate`. */
  lemma CommissionRateNeverAgrees(r: Parsed<AnomaClient>, m: Matches, x: A.QueryCommissionRate)
    requires Agrees(r, ResolveSubs(CLIENT_SUBS, m), ClientPath)
    ensures r != Found(AnomaClient.WithContext(AnomaClientWithContext.QueryCommissionRate(x)))
  {
    var v := AnomaClient.WithContext(AnomaClientWithContext.QueryCommissionRate(x));
    assert ClientPath(v) == [QUERY_COMMISSION_RATE_CMD];
    if r == Found(v) {
      ResolveSubsHead(CLIENT_SUBS, m);
      CommissionRateNotRegistered();
      Unregistered(CLIENT_SUBS, m, QUERY_COMMISSION_RATE_CMD, SubMatch(QUERY_COMMISSION_RATE_CMD, m));
    }
  }

  /**
   * The `QueryCommissionRate` command has a variant and a node, but no parse
   * ever yields it; and clap rejects its token under the client.
   */
  lemma CommissionRateUnreachable(m: Matches, c: D.Codecs, x: A.QueryCommissionRate)
    requires A.LiteralsParse(c)
    ensures ParseAnomaClient(m, c) != Found(AnomaClient.WithContext(AnomaClientWithContext.QueryCommissionRate(x)))
  {
    CommissionRateNeverAgrees(ParseAnomaClient(m, c), m, x);
  }

  lemma CommissionRateRejected(m: Matches)
    ensures !AcceptsSub(CLIENT_SUBS, SubMatch(QUERY_COMMISSION_RATE_CMD, m))
  {
    CommissionRateNotRegistered();
    Unregistered(CLIENT_SUBS, m, QUERY_COMMISSION_RATE_CMD, SubMatch(QUERY_COMMISSION_RATE_CMD, m));
  }
}

