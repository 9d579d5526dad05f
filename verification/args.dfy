/**
 * `mod args`: the argument names, their static defaults, and the records each
 * command is parsed into.
 *
 * Every record parse reads its descriptors in the order the source reads
 * them and stops at the first one that fails (the source's descriptor exits
 * the process there). For every record the model states
 *   - when the parse succeeds: exactly when every required argument is present
 *     and every supplied fallible value decodes;
 *   - that a failure names one of the record's arguments and describes the input
 *     truthfully;
 *   - a round trip: any input that supplies the rendering of every field (or
 *     leaves a defaulted field out) parses back to that very record.
 * The descriptor table of each record (`*_ARGS`) is what its `def` registers,
 * with the declared conflicts and groups.
 */
module Args {
  import opened Wrappers
  import opened Clap
  import opened Domain
  import opened Descriptors

  // Argument names. Descriptors that differ only in kind share a name
  // (`ALIAS`/`ALIAS_OPT`, `RAW_ADDRESS`/`ADDRESS`, ...).

  const ADDRESS := "address"
  const ALIAS := "alias"
  const ALLOW_DUPLICATE_IP := "allow-duplicate-ip"
  const AMOUNT := "amount"
  const ARCHIVE_DIR := "archive-dir"
  const BASE_DIR := "base-dir"
  const BROADCAST_ONLY := "broadcast-only"
  const CHAIN_ID := "chain-id"
  const CHAIN_ID_PREFIX := "chain-prefix"
  const CODE_PATH := "code-path"
  const COMMISSION_RATE := "commission-rate"
  const CONSENSUS_TIMEOUT_COMMIT := "consensus-timeout-commit"
  const DATA_PATH := "data-path"
  const DECRYPT := "decrypt"
  const DONT_ARCHIVE := "dont-archive"
  const DRY_RUN_TX := "dry-run"
  const EPOCH := "epoch"
  const FEE_AMOUNT := "fee-amount"
  const FEE_TOKEN := "fee-token"
  const FORCE := "force"
  const DONT_PREFETCH_WASM := "dont-prefetch-wasm"
  const GAS_LIMIT := "gas-limit"
  const GENESIS_PATH := "genesis-path"
  const GENESIS_VALIDATOR := "genesis-validator"
  const LEDGER_ADDRESS := "ledger-address"
  const LOCALHOST := "localhost"
  const MAX_COMMISSION_RATE_CHANGE := "max-commission-rate-change"
  const MODE := "mode"
  const NET_ADDRESS := "net-address"
  const OWNER := "owner"
  const PROPOSAL_OFFLINE := "offline"
  const PROTOCOL_KEY := "protocol-key"
  const PRE_GENESIS_PATH := "pre-genesis-path"
  const PUBLIC_KEY := "public-key"
  const PROPOSAL_ID := "proposal-id"
  const PROPOSAL_VOTE := "vote"
  const SCHEME := "scheme"
  const SIGNER := "signer"
  const SIGNING_KEY := "signing-key"
  const SOURCE := "source"
  const STORAGE_KEY := "storage-key"
  const SUB_PREFIX := "sub-prefix"
  const TARGET := "target"
  const TOKEN := "token"
  const TX_HASH := "tx-hash"
  const UNSAFE_DONT_ENCRYPT := "unsafe-dont-encrypt"
  const UNSAFE_SHOW_SECRET := "unsafe-show-secret"
  const VALIDATOR := "validator"
  const VALIDATOR_ACCOUNT_KEY := "account-key"
  const VALIDATOR_CONSENSUS_KEY := "consensus-key"
  const VALIDATOR_CODE_PATH := "validator-code-path"
  const VALUE := "value"
  const WASM_CHECKSUMS_PATH := "wasm-checksums-path"
  const WASM_DIR := "wasm-dir"

  // Static defaults.

  const BASE_DIR_ENV := "ANOMA_BASE_DIR"
  /** `config::DEFAULT_BASE_DIR`, as the `base-dir` help text gives it. */
  const DEFAULT_BASE_DIR := ".anoma"
  const LEDGER_ADDRESS_TEXT := "127.0.0.1:26657"
  const CONSENSUS_TIMEOUT_COMMIT_TEXT := "1s"
  const FEE_TOKEN_DEFAULT := "NAM"
  const FEE_AMOUNT_DEFAULT := Amount(0)
  const GAS_LIMIT_DEFAULT := Amount(0)
  const SCHEME_DEFAULT := Ed25519

  /** The two default literals the source parses and `unwrap`s must parse. */
  predicate LiteralsParse(c: Codecs)
  {
    && c.tendermintAddress.decode(LEDGER_ADDRESS_TEXT).Some?
    && c.timeout.decode(CONSENSUS_TIMEOUT_COMMIT_TEXT).Some?
  }

  function LedgerAddressDefault(c: Codecs): TendermintAddress
    requires LiteralsParse(c)
  {
    c.tendermintAddress.decode(LEDGER_ADDRESS_TEXT).value
  }

  function TimeoutCommitDefault(c: Codecs): Timeout
    requires LiteralsParse(c)
  {
    c.timeout.decode(CONSENSUS_TIMEOUT_COMMIT_TEXT).value
  }

  /** The `base-dir` default: the environment variable, else the static directory. */
  function BaseDirDefault(env: map<string, string>): Path
  {
    if BASE_DIR_ENV in env then env[BASE_DIR_ENV] else DEFAULT_BASE_DIR
  }

  // ---------------------------------------------------------------- Global

  datatype Global = Global(chainId: Option<ChainId>, baseDir: Path, wasmDir: Option<Path>, mode: Option<TendermintMode>)

  const GLOBAL_ARGS: seq<ArgDef> := [
    ArgDef(CHAIN_ID, Optional, []),
    ArgDef(BASE_DIR, Defaulted, []),
    ArgDef(WASM_DIR, Optional, []),
    ArgDef(MODE, Optional, [])]

  /** `Global::parse`; `env` stands for the process environment. */
  function ParseGlobal(m: Matches, c: Codecs, env: map<string, string>): (r: Result<Global, ArgError>)
    ensures r.Ok? <==> Decodes(m, CHAIN_ID, c.chainId)
    ensures r.Err? ==> r.error.name == CHAIN_ID && Faulty(r.error, m)
    ensures r.Ok? ==> (r.value.mode.Some? <==> MODE in m.values)
  {
    var chainId :- ReadOpt(m, CHAIN_ID, c.chainId);
    var mode := ReadOptRaw(m, MODE);
    Ok(Global(chainId, ReadDefaultRaw(m, BASE_DIR, BaseDirDefault(env)), ReadOptRaw(m, WASM_DIR),
              if mode.Some? then Some(c.modeFrom(mode.value)) else None))
  }

  /**
   * `base-dir` precedence: the flag beats `ANOMA_BASE_DIR`, which beats the
   * static default; `wasm-dir` is the flag or nothing (no environment lookup
   * happens for it here).
   */
  lemma BaseDirPrecedence(m: Matches, c: Codecs, env: map<string, string>)
    requires Decodes(m, CHAIN_ID, c.chainId)
    ensures BASE_DIR in m.values ==> ParseGlobal(m, c, env).value.baseDir == m.values[BASE_DIR]
    ensures BASE_DIR !in m.values && BASE_DIR_ENV in env ==> ParseGlobal(m, c, env).value.baseDir == env[BASE_DIR_ENV]
    ensures BASE_DIR !in m.values && BASE_DIR_ENV !in env ==> ParseGlobal(m, c, env).value.baseDir == DEFAULT_BASE_DIR
    ensures ParseGlobal(m, c, env).value.wasmDir == (if WASM_DIR in m.values then Some(m.values[WASM_DIR]) else None)
  {
  }

  ghost predicate SuppliedGlobal(m: Matches, x: Global, c: Codecs, env: map<string, string>)
  {
    && HasOpt(m, CHAIN_ID, x.chainId, c.chainId)
    && HasDefault(m, BASE_DIR, x.baseDir, Text(), BaseDirDefault(env))
    && HasOpt(m, WASM_DIR, x.wasmDir, Text())
    && (if MODE in m.values then x.mode == Some(c.modeFrom(m.values[MODE])) else x.mode.None?)
  }

  lemma GlobalRoundTrip(m: Matches, x: Global, c: Codecs, env: map<string, string>)
    requires c.Lawful() && SuppliedGlobal(m, x, c, env)
    ensures ParseGlobal(m, c, env) == Ok(x)
  {
  }

  // ---------------------------------------------------------------- Tx, Query

  datatype Tx = Tx(
    dryRun: bool,
    force: bool,
    broadcastOnly: bool,
    ledgerAddress: TendermintAddress,
    initializedAccountAlias: Option<string>,
    feeAmount: Amount,
    feeToken: WalletAddress,
    gasLimit: GasLimit,
    signingKey: Option<WalletKeypair>,
    signer: Option<WalletAddress>)

  const TX_ARGS: seq<ArgDef> := [
    ArgDef(DRY_RUN_TX, Flag, []),
    ArgDef(FORCE, Flag, []),
    ArgDef(BROADCAST_ONLY, Flag, []),
    ArgDef(LEDGER_ADDRESS, Defaulted, []),
    ArgDef(ALIAS, Optional, []),
    ArgDef(FEE_AMOUNT, Defaulted, []),
    ArgDef(FEE_TOKEN, DefaultedFromContext, []),
    ArgDef(GAS_LIMIT, Defaulted, []),
    ArgDef(SIGNING_KEY, Optional, [SIGNER]),
    ArgDef(SIGNER, Optional, [SIGNING_KEY])]

  /** The arguments of `Tx` whose reading can fail. */
  const TX_FALLIBLE := {LEDGER_ADDRESS, FEE_AMOUNT, GAS_LIMIT}

  predicate TxReadable(m: Matches, c: Codecs)
  {
    Decodes(m, LEDGER_ADDRESS, c.tendermintAddress) && Decodes(m, FEE_AMOUNT, c.amount) && Decodes(m, GAS_LIMIT, c.amount)
  }

  function ParseTx(m: Matches, c: Codecs): (r: Result<Tx, ArgError>)
    requires LiteralsParse(c)
    ensures r.Ok? <==> TxReadable(m, c)
    ensures r.Err? ==> r.error.name in TX_FALLIBLE && Faulty(r.error, m)
  {
    var ledgerAddress :- ReadDefault(m, LEDGER_ADDRESS, c.tendermintAddress, LedgerAddressDefault(c));
    var feeAmount :- ReadDefault(m, FEE_AMOUNT, c.amount, FEE_AMOUNT_DEFAULT);
    var gasLimit :- ReadDefault(m, GAS_LIMIT, c.amount, GAS_LIMIT_DEFAULT);
    Ok(Tx(ReadFlag(m, DRY_RUN_TX), ReadFlag(m, FORCE), ReadFlag(m, BROADCAST_ONLY),
          ledgerAddress, ReadOptRaw(m, ALIAS), feeAmount, ReadDefaultFromCtx(m, FEE_TOKEN, FEE_TOKEN_DEFAULT),
          GasLimitOf(gasLimit), ReadOptCtx(m, SIGNING_KEY), ReadOptCtx(m, SIGNER)))
  }

  /** What an absent transaction argument reads as. */
  lemma TxDefaults(m: Matches, c: Codecs)
    requires LiteralsParse(c) && TxReadable(m, c)
    ensures FEE_AMOUNT !in m.values ==> ParseTx(m, c).value.feeAmount == Amount(0)
    ensures GAS_LIMIT !in m.values ==> ParseTx(m, c).value.gasLimit == GasLimit(0)
    ensures FEE_TOKEN !in m.values ==> ParseTx(m, c).value.feeToken.raw == "NAM"
    ensures LEDGER_ADDRESS !in m.values ==> Some(ParseTx(m, c).value.ledgerAddress) == c.tendermintAddress.decode("127.0.0.1:26657")
    ensures DRY_RUN_TX !in m.values ==> !ParseTx(m, c).value.dryRun
    ensures FORCE !in m.values ==> !ParseTx(m, c).value.force
    ensures BROADCAST_ONLY !in m.values ==> !ParseTx(m, c).value.broadcastOnly
  {
  }

  ghost predicate SuppliedTx(m: Matches, x: Tx, c: Codecs)
    requires LiteralsParse(c)
  {
    && HasFlag(m, DRY_RUN_TX, x.dryRun)
    && HasFlag(m, FORCE, x.force)
    && HasFlag(m, BROADCAST_ONLY, x.broadcastOnly)
    && HasDefault(m, LEDGER_ADDRESS, x.ledgerAddress, c.tendermintAddress, LedgerAddressDefault(c))
    && HasOpt(m, ALIAS, x.initializedAccountAlias, Text())
    && HasDefault(m, FEE_AMOUNT, x.feeAmount, c.amount, FEE_AMOUNT_DEFAULT)
    && HasDefault(m, FEE_TOKEN, x.feeToken, Contextual(), FromContext(FEE_TOKEN_DEFAULT))
    && HasDefault(m, GAS_LIMIT, Amount(x.gasLimit.micro), c.amount, GAS_LIMIT_DEFAULT)
    && HasOpt(m, SIGNING_KEY, x.signingKey, Contextual())
    && HasOpt(m, SIGNER, x.signer, Contextual())
  }

  lemma TxRoundTrip(m: Matches, x: Tx, c: Codecs)
    requires c.Lawful() && LiteralsParse(c) && SuppliedTx(m, x, c)
    ensures ParseTx(m, c) == Ok(x)
  {
    ReadDefaultSupplied(m, LEDGER_ADDRESS, x.ledgerAddress, c.tendermintAddress, LedgerAddressDefault(c));
    ReadDefaultSupplied(m, FEE_AMOUNT, x.feeAmount, c.amount, FEE_AMOUNT_DEFAULT);
    ReadDefaultSupplied(m, GAS_LIMIT, Amount(x.gasLimit.micro), c.amount, GAS_LIMIT_DEFAULT);
  }

  datatype Query = Query(ledgerAddress: TendermintAddress)

  const QUERY_ARGS: seq<ArgDef> := [ArgDef(LEDGER_ADDRESS, Defaulted, [])]

  function ParseQuery(m: Matches, c: Codecs): (r: Result<Query, ArgError>)
    requires LiteralsParse(c)
    ensures r.Ok? <==> Decodes(m, LEDGER_ADDRESS, c.tendermintAddress)
    ensures r.Err? ==> r.error.name == LEDGER_ADDRESS && Faulty(r.error, m)
    ensures r.Ok? && LEDGER_ADDRESS !in m.values ==> Some(r.value.ledgerAddress) == c.tendermintAddress.decode("127.0.0.1:26657")
  {
    var ledgerAddress :- ReadDefault(m, LEDGER_ADDRESS, c.tendermintAddress, LedgerAddressDefault(c));
    Ok(Query(ledgerAddress))
  }

  ghost predicate SuppliedQuery(m: Matches, x: Query, c: Codecs)
    requires LiteralsParse(c)
  {
    HasDefault(m, LEDGER_ADDRESS, x.ledgerAddress, c.tendermintAddress, LedgerAddressDefault(c))
  }

  lemma QueryRoundTrip(m: Matches, x: Query, c: Codecs)
    requires c.Lawful() && LiteralsParse(c) && SuppliedQuery(m, x, c)
    ensures ParseQuery(m, c) == Ok(x)
  {
  }

  // ---------------------------------------------------------------- QueryResult
  datatype QueryResult = QueryResult(query: Query, txHash: string)

  const QUERY_RESULT_ARGS: seq<ArgDef> := QUERY_ARGS + [ArgDef(TX_HASH, Required, [])]

  function ParseQueryResult(m: Matches, c: Codecs): (r: Result<QueryResult, ArgError>)
    requires LiteralsParse(c)
    ensures r.Ok? <==> Decodes(m, LEDGER_ADDRESS, c.tendermintAddress) && Present(m, TX_HASH)
    ensures r.Err? ==> r.error.name in {LEDGER_ADDRESS, TX_HASH} && Faulty(r.error, m)
  {
    var query :- ParseQuery(m, c);
    var txHash :- ReadArg(m, TX_HASH, Text());
    Ok(QueryResult(query, txHash))
  }

  ghost predicate SuppliedQueryResult(m: Matches, x: QueryResult, c: Codecs)
    requires LiteralsParse(c)
  {
    && SuppliedQuery(m, x.query, c)
    && Has(m, TX_HASH, x.txHash, Text())
  }

  lemma QueryResultRoundTrip(m: Matches, x: QueryResult, c: Codecs)
    requires c.Lawful() && LiteralsParse(c) && SuppliedQueryResult(m, x, c)
    ensures ParseQueryResult(m, c) == Ok(x)
  {
  }

  // ---------------------------------------------------------------- TxCustom
  datatype TxCustom = TxCustom(tx: Tx, codePath: Path, dataPath: Option<Path>)

  const TX_CUSTOM_ARGS: seq<ArgDef> := TX_ARGS + [ArgDef(CODE_PATH, Required, []), ArgDef(DATA_PATH, Optional, [])]

  function ParseTxCustom(m: Matches, c: Codecs): (r: Result<TxCustom, ArgError>)
    requires LiteralsParse(c)
    ensures r.Ok? <==> TxReadable(m, c) && Present(m, CODE_PATH)
    ensures r.Err? ==> r.error.name in TX_FALLIBLE + {CODE_PATH} && Faulty(r.error, m)
  {
    var tx :- ParseTx(m, c);
    var codePath :- ReadArg(m, CODE_PATH, Text());
    Ok(TxCustom(tx, codePath, ReadOptRaw(m, DATA_PATH)))
  }

  ghost predicate SuppliedTxCustom(m: Matches, x: TxCustom, c: Codecs)
    requires LiteralsParse(c)
  {
    && SuppliedTx(m, x.tx, c)
    && Has(m, CODE_PATH, x.codePath, Text())
    && HasOpt(m, DATA_PATH, x.dataPath, Text())
  }

  lemma TxCustomRoundTrip(m: Matches, x: TxCustom, c: Codecs)
    requires c.Lawful() && LiteralsParse(c) && SuppliedTxCustom(m, x, c)
    ensures ParseTxCustom(m, c) == Ok(x)
  {
    TxRoundTrip(m, x.tx, c);
  }

  // ---------------------------------------------------------------- TxTransfer
  datatype TxTransfer = TxTransfer(
    tx: Tx,
    source: WalletAddress,
    target: WalletAddress,
    token: WalletAddress,
    subPrefix: Option<string>,
    amount: Amount)

  const TX_TRANSFER_ARGS: seq<ArgDef> := TX_ARGS + [ArgDef(SOURCE, Required, []), ArgDef(TARGET, Required, []), ArgDef(TOKEN, Required, []),
     ArgDef(SUB_PREFIX, Optional, []), ArgDef(AMOUNT, Required, [])]

  function ParseTxTransfer(m: Matches, c: Codecs): (r: Result<TxTransfer, ArgError>)
    requires LiteralsParse(c)
    ensures r.Ok? <==>
      TxReadable(m, c)
      && Present(m, SOURCE)
      && Present(m, TARGET)
      && Present(m, TOKEN)
      && Present(m, AMOUNT) && Decodes(m, AMOUNT, c.amount)
    ensures r.Err? ==> r.error.name in TX_FALLIBLE + {SOURCE, TARGET, TOKEN, AMOUNT} && Faulty(r.error, m)
  {
    var tx :- ParseTx(m, c);
    var source :- ReadArg(m, SOURCE, Contextual());
    var target :- ReadArg(m, TARGET, Contextual());
    var token :- ReadArg(m, TOKEN, Contextual());
    var amount :- ReadArg(m, AMOUNT, c.amount);
    Ok(TxTransfer(tx, source, target, token, ReadOptRaw(m, SUB_PREFIX), amount))
  }

  ghost predicate SuppliedTxTransfer(m: Matches, x: TxTransfer, c: Codecs)
    requires LiteralsParse(c)
  {
    && SuppliedTx(m, x.tx, c)
    && Has(m, SOURCE, x.source, Contextual())
    && Has(m, TARGET, x.target, Contextual())
    && Has(m, TOKEN, x.token, Contextual())
    && HasOpt(m, SUB_PREFIX, x.subPrefix, Text())
    && Has(m, AMOUNT, x.amount, c.amount)
  }

  lemma TxTransferRoundTrip(m: Matches, x: TxTransfer, c: Codecs)
    requires c.Lawful() && LiteralsParse(c) && SuppliedTxTransfer(m, x, c)
    ensures ParseTxTransfer(m, c) == Ok(x)
  {
    TxRoundTrip(m, x.tx, c);
    ReadArgSupplied(m, AMOUNT, x.amount, c.amount);
  }

  // ---------------------------------------------------------------- TxInitAccount
  datatype TxInitAccount = TxInitAccount(
    tx: Tx,
    source: WalletAddress,
    vpCodePath: Option<Path>,
    publicKey: WalletPublicKey)

  const TX_INIT_ACCOUNT_ARGS: seq<ArgDef> := TX_ARGS + [ArgDef(SOURCE, Required, []), ArgDef(CODE_PATH, Optional, []), ArgDef(PUBLIC_KEY, Required, [])]

  function ParseTxInitAccount(m: Matches, c: Codecs): (r: Result<TxInitAccount, ArgError>)
    requires LiteralsParse(c)
    ensures r.Ok? <==> TxReadable(m, c) && Present(m, SOURCE) && Present(m, PUBLIC_KEY)
    ensures r.Err? ==> r.error.name in TX_FALLIBLE + {SOURCE, PUBLIC_KEY} && Faulty(r.error, m)
  {
    var tx :- ParseTx(m, c);
    var source :- ReadArg(m, SOURCE, Contextual());
    var publicKey :- ReadArg(m, PUBLIC_KEY, Contextual());
    Ok(TxInitAccount(tx, source, ReadOptRaw(m, CODE_PATH), publicKey))
  }

  ghost predicate SuppliedTxInitAccount(m: Matches, x: TxInitAccount, c: Codecs)
    requires LiteralsParse(c)
  {
    && SuppliedTx(m, x.tx, c)
    && Has(m, SOURCE, x.source, Contextual())
    && HasOpt(m, CODE_PATH, x.vpCodePath, Text())
    && Has(m, PUBLIC_KEY, x.publicKey, Contextual())
  }

  lemma TxInitAccountRoundTrip(m: Matches, x: TxInitAccount, c: Codecs)
    requires c.Lawful() && LiteralsParse(c) && SuppliedTxInitAccount(m, x, c)
    ensures ParseTxInitAccount(m, c) == Ok(x)
  {
    TxRoundTrip(m, x.tx, c);
  }

  // ---------------------------------------------------------------- TxInitValidator
  datatype TxInitValidator = TxInitValidator(
    tx: Tx,
    source: WalletAddress,
    scheme: SchemeType,
    accountKey: Option<WalletPublicKey>,
    consensusKey: Option<WalletKeypair>,
    protocolKey: Option<WalletPublicKey>,
    commissionRate: Decimal,
    maxCommissionRateChange: Decimal,
    validatorVpCodePath: Option<Path>,
    unsafeDontEncrypt: bool)

  const TX_INIT_VALIDATOR_ARGS: seq<ArgDef> := TX_ARGS + [ArgDef(SOURCE, Required, []), ArgDef(SCHEME, Defaulted, []), ArgDef(VALIDATOR_ACCOUNT_KEY, Optional, []),
     ArgDef(VALIDATOR_CONSENSUS_KEY, Optional, []), ArgDef(PROTOCOL_KEY, Optional, []), ArgDef(COMMISSION_RATE, Required, []),
     ArgDef(MAX_COMMISSION_RATE_CHANGE, Required, []), ArgDef(VALIDATOR_CODE_PATH, Optional, []), ArgDef(UNSAFE_DONT_ENCRYPT, Flag, [])]

  function ParseTxInitValidator(m: Matches, c: Codecs): (r: Result<TxInitValidator, ArgError>)
    requires LiteralsParse(c)
    ensures r.Ok? <==>
      TxReadable(m, c)
      && Present(m, SOURCE)
      && Decodes(m, SCHEME, c.scheme)
      && Present(m, COMMISSION_RATE) && Decodes(m, COMMISSION_RATE, c.decimal)
      && Present(m, MAX_COMMISSION_RATE_CHANGE) && Decodes(m, MAX_COMMISSION_RATE_CHANGE, c.decimal)
    ensures r.Err? ==> r.error.name in TX_FALLIBLE + {SOURCE, SCHEME, COMMISSION_RATE, MAX_COMMISSION_RATE_CHANGE} && Faulty(r.error, m)
  {
    var tx :- ParseTx(m, c);
    var source :- ReadArg(m, SOURCE, Contextual());
    var scheme :- ReadDefault(m, SCHEME, c.scheme, SCHEME_DEFAULT);
    var commissionRate :- ReadArg(m, COMMISSION_RATE, c.decimal);
    var maxCommissionRateChange :- ReadArg(m, MAX_COMMISSION_RATE_CHANGE, c.decimal);
    Ok(TxInitValidator(
      tx,
      source,
      scheme,
      ReadOptCtx(m, VALIDATOR_ACCOUNT_KEY),
      ReadOptCtx(m, VALIDATOR_CONSENSUS_KEY),
      ReadOptCtx(m, PROTOCOL_KEY),
      commissionRate,
      maxCommissionRateChange,
      ReadOptRaw(m, VALIDATOR_CODE_PATH),
      ReadFlag(m, UNSAFE_DONT_ENCRYPT)))
  }

  ghost predicate SuppliedTxInitValidator(m: Matches, x: TxInitValidator, c: Codecs)
    requires LiteralsParse(c)
  {
    && SuppliedTx(m, x.tx, c)
    && Has(m, SOURCE, x.source, Contextual())
    && HasDefault(m, SCHEME, x.scheme, c.scheme, SCHEME_DEFAULT)
    && HasOpt(m, VALIDATOR_ACCOUNT_KEY, x.accountKey, Contextual())
    && HasOpt(m, VALIDATOR_CONSENSUS_KEY, x.consensusKey, Contextual())
    && HasOpt(m, PROTOCOL_KEY, x.protocolKey, Contextual())
    && Has(m, COMMISSION_RATE, x.commissionRate, c.decimal)
    && Has(m, MAX_COMMISSION_RATE_CHANGE, x.maxCommissionRateChange, c.decimal)
    && HasOpt(m, VALIDATOR_CODE_PATH, x.validatorVpCodePath, Text())
    && HasFlag(m, UNSAFE_DONT_ENCRYPT, x.unsafeDontEncrypt)
  }

  lemma TxInitValidatorRoundTrip(m: Matches, x: TxInitValidator, c: Codecs)
    requires c.Lawful() && LiteralsParse(c) && SuppliedTxInitValidator(m, x, c)
    ensures ParseTxInitValidator(m, c) == Ok(x)
  {
    TxRoundTrip(m, x.tx, c);
    ReadDefaultSupplied(m, SCHEME, x.scheme, c.scheme, SCHEME_DEFAULT);
    ReadArgSupplied(m, COMMISSION_RATE, x.commissionRate, c.decimal);
    ReadArgSupplied(m, MAX_COMMISSION_RATE_CHANGE, x.maxCommissionRateChange, c.decimal);
  }

  // ---------------------------------------------------------------- TxUpdateVp
  datatype TxUpdateVp = TxUpdateVp(tx: Tx, vpCodePath: Path, addr: WalletAddress)

  const TX_UPDATE_VP_ARGS: seq<ArgDef> := TX_ARGS + [ArgDef(CODE_PATH, Required, []), ArgDef(ADDRESS, Required, [])]

  function ParseTxUpdateVp(m: Matches, c: Codecs): (r: Result<TxUpdateVp, ArgError>)
    requires LiteralsParse(c)
    ensures r.Ok? <==> TxReadable(m, c) && Present(m, CODE_PATH) && Present(m, ADDRESS)
    ensures r.Err? ==> r.error.name in TX_FALLIBLE + {CODE_PATH, ADDRESS} && Faulty(r.error, m)
  {
    var tx :- ParseTx(m, c);
    var vpCodePath :- ReadArg(m, CODE_PATH, Text());
    var addr :- ReadArg(m, ADDRESS, Contextual());
    Ok(TxUpdateVp(tx, vpCodePath, addr))
  }

  ghost predicate SuppliedTxUpdateVp(m: Matches, x: TxUpdateVp, c: Codecs)
    requires LiteralsParse(c)
  {
    && SuppliedTx(m, x.tx, c)
    && Has(m, CODE_PATH, x.vpCodePath, Text())
    && Has(m, ADDRESS, x.addr, Contextual())
  }

  lemma TxUpdateVpRoundTrip(m: Matches, x: TxUpdateVp, c: Codecs)
    requires c.Lawful() && LiteralsParse(c) && SuppliedTxUpdateVp(m, x, c)
    ensures ParseTxUpdateVp(m, c) == Ok(x)
  {
    TxRoundTrip(m, x.tx, c);
  }

  // ---------------------------------------------------------------- Bond
  datatype Bond = Bond(
    tx: Tx,
    validator: WalletAddress,
    amount: Amount,
    source: Option<WalletAddress>)

  const BOND_ARGS: seq<ArgDef> := TX_ARGS + [ArgDef(VALIDATOR, Required, []), ArgDef(AMOUNT, Required, []), ArgDef(SOURCE, Optional, [])]

  function ParseBond(m: Matches, c: Codecs): (r: Result<Bond, ArgError>)
    requires LiteralsParse(c)
    ensures r.Ok? <==>
      TxReadable(m, c)
      && Present(m, VALIDATOR)
      && Present(m, AMOUNT) && Decodes(m, AMOUNT, c.amount)
    ensures r.Err? ==> r.error.name in TX_FALLIBLE + {VALIDATOR, AMOUNT} && Faulty(r.error, m)
  {
    var tx :- ParseTx(m, c);
    var validator :- ReadArg(m, VALIDATOR, Contextual());
    var amount :- ReadArg(m, AMOUNT, c.amount);
    Ok(Bond(tx, validator, amount, ReadOptCtx(m, SOURCE)))
  }

  ghost predicate SuppliedBond(m: Matches, x: Bond, c: Codecs)
    requires LiteralsParse(c)
  {
    && SuppliedTx(m, x.tx, c)
    && Has(m, VALIDATOR, x.validator, Contextual())
    && Has(m, AMOUNT, x.amount, c.amount)
    && HasOpt(m, SOURCE, x.source, Contextual())
  }

  lemma BondRoundTrip(m: Matches, x: Bond, c: Codecs)
    requires c.Lawful() && LiteralsParse(c) && SuppliedBond(m, x, c)
    ensures ParseBond(m, c) == Ok(x)
  {
    TxRoundTrip(m, x.tx, c);
    ReadArgSupplied(m, AMOUNT, x.amount, c.amount);
  }

  // ---------------------------------------------------------------- Unbond
  datatype Unbond = Unbond(
    tx: Tx,
    validator: WalletAddress,
    amount: Amount,
    source: Option<WalletAddress>)

  const UNBOND_ARGS: seq<ArgDef> := TX_ARGS + [ArgDef(VALIDATOR, Required, []), ArgDef(AMOUNT, Required, []), ArgDef(SOURCE, Optional, [])]

  function ParseUnbond(m: Matches, c: Codecs): (r: Result<Unbond, ArgError>)
    requires LiteralsParse(c)
    ensures r.Ok? <==>
      TxReadable(m, c)
      && Present(m, VALIDATOR)
      && Present(m, AMOUNT) && Decodes(m, AMOUNT, c.amount)
    ensures r.Err? ==> r.error.name in TX_FALLIBLE + {VALIDATOR, AMOUNT} && Faulty(r.error, m)
  {
    var tx :- ParseTx(m, c);
    var validator :- ReadArg(m, VALIDATOR, Contextual());
    var amount :- ReadArg(m, AMOUNT, c.amount);
    Ok(Unbond(tx, validator, amount, ReadOptCtx(m, SOURCE)))
  }

  ghost predicate SuppliedUnbond(m: Matches, x: Unbond, c: Codecs)
    requires LiteralsParse(c)
  {
    && SuppliedTx(m, x.tx, c)
    && Has(m, VALIDATOR, x.validator, Contextual())
    && Has(m, AMOUNT, x.amount, c.amount)
    && HasOpt(m, SOURCE, x.source, Contextual())
  }

  lemma UnbondRoundTrip(m: Matches, x: Unbond, c: Codecs)
    requires c.Lawful() && LiteralsParse(c) && SuppliedUnbond(m, x, c)
    ensures ParseUnbond(m, c) == Ok(x)
  {
    TxRoundTrip(m, x.tx, c);
    ReadArgSupplied(m, AMOUNT, x.amount, c.amount);
  }

  // ---------------------------------------------------------------- InitProposal
  datatype InitProposal = InitProposal(tx: Tx, proposalData: Path, offline: bool)

  const INIT_PROPOSAL_ARGS: seq<ArgDef> := TX_ARGS + [ArgDef(DATA_PATH, Required, []), ArgDef(PROPOSAL_OFFLINE, Flag, [])]

  function ParseInitProposal(m: Matches, c: Codecs): (r: Result<InitProposal, ArgError>)
    requires LiteralsParse(c)
    ensures r.Ok? <==> TxReadable(m, c) && Present(m, DATA_PATH)
    ensures r.Err? ==> r.error.name in TX_FALLIBLE + {DATA_PATH} && Faulty(r.error, m)
  {
    var tx :- ParseTx(m, c);
    var proposalData :- ReadArg(m, DATA_PATH, Text());
    Ok(InitProposal(tx, proposalData, ReadFlag(m, PROPOSAL_OFFLINE)))
  }

  ghost predicate SuppliedInitProposal(m: Matches, x: InitProposal, c: Codecs)
    requires LiteralsParse(c)
  {
    && SuppliedTx(m, x.tx, c)
    && Has(m, DATA_PATH, x.proposalData, Text())
    && HasFlag(m, PROPOSAL_OFFLINE, x.offline)
  }

  lemma InitProposalRoundTrip(m: Matches, x: InitProposal, c: Codecs)
    requires c.Lawful() && LiteralsParse(c) && SuppliedInitProposal(m, x, c)
    ensures ParseInitProposal(m, c) == Ok(x)
  {
    TxRoundTrip(m, x.tx, c);
  }

  // ---------------------------------------------------------------- VoteProposal
  datatype VoteProposal = VoteProposal(
    tx: Tx,
    proposalId: Option<u64>,
    vote: ProposalVote,
    offline: bool,
    proposalData: Option<Path>)

  const VOTE_PROPOSAL_ARGS: seq<ArgDef> := TX_ARGS + [
    ArgDef(PROPOSAL_ID, Optional, [PROPOSAL_OFFLINE, DATA_PATH]),
    ArgDef(PROPOSAL_VOTE, Required, []),
    ArgDef(PROPOSAL_OFFLINE, Flag, [PROPOSAL_ID]),
    ArgDef(DATA_PATH, Optional, [PROPOSAL_ID])]

  function ParseVoteProposal(m: Matches, c: Codecs): (r: Result<VoteProposal, ArgError>)
    requires LiteralsParse(c)
    ensures r.Ok? <==>
      TxReadable(m, c)
      && Decodes(m, PROPOSAL_ID, c.proposalId)
      && Present(m, PROPOSAL_VOTE) && Decodes(m, PROPOSAL_VOTE, c.vote)
    ensures r.Err? ==> r.error.name in TX_FALLIBLE + {PROPOSAL_ID, PROPOSAL_VOTE} && Faulty(r.error, m)
  {
    var tx :- ParseTx(m, c);
    var proposalId :- ReadOpt(m, PROPOSAL_ID, c.proposalId);
    var vote :- ReadArg(m, PROPOSAL_VOTE, c.vote);
    Ok(VoteProposal(
      tx,
      proposalId,
      vote,
      ReadFlag(m, PROPOSAL_OFFLINE),
      ReadOptRaw(m, DATA_PATH)))
  }

  ghost predicate SuppliedVoteProposal(m: Matches, x: VoteProposal, c: Codecs)
    requires LiteralsParse(c)
  {
    && SuppliedTx(m, x.tx, c)
    && HasOpt(m, PROPOSAL_ID, x.proposalId, c.proposalId)
    && Has(m, PROPOSAL_VOTE, x.vote, c.vote)
    && HasFlag(m, PROPOSAL_OFFLINE, x.offline)
    && HasOpt(m, DATA_PATH, x.proposalData, Text())
  }

  lemma VoteProposalRoundTrip(m: Matches, x: VoteProposal, c: Codecs)
    requires c.Lawful() && LiteralsParse(c) && SuppliedVoteProposal(m, x, c)
    ensures ParseVoteProposal(m, c) == Ok(x)
  {
    TxRoundTrip(m, x.tx, c);
    ReadOptSupplied(m, PROPOSAL_ID, x.proposalId, c.proposalId);
    ReadArgSupplied(m, PROPOSAL_VOTE, x.vote, c.vote);
  }

  // ---------------------------------------------------------------- QueryProposal
  datatype QueryProposal = QueryProposal(query: Query, proposalId: Option<u64>)

  /** `QueryProposal::def` registers the transaction arguments, although the parse reads the query ones. */
  const QUERY_PROPOSAL_ARGS: seq<ArgDef> := TX_ARGS + [ArgDef(PROPOSAL_ID, Optional, [])]

  function ParseQueryProposal(m: Matches, c: Codecs): (r: Result<QueryProposal, ArgError>)
    requires LiteralsParse(c)
    ensures r.Ok? <==>
      Decodes(m, LEDGER_ADDRESS, c.tendermintAddress)
      && Decodes(m, PROPOSAL_ID, c.proposalId)
    ensures r.Err? ==> r.error.name in {LEDGER_ADDRESS, PROPOSAL_ID} && Faulty(r.error, m)
  {
    var query :- ParseQuery(m, c);
    var proposalId :- ReadOpt(m, PROPOSAL_ID, c.proposalId);
    Ok(QueryProposal(query, proposalId))
  }

  ghost predicate SuppliedQueryProposal(m: Matches, x: QueryProposal, c: Codecs)
    requires LiteralsParse(c)
  {
    && SuppliedQuery(m, x.query, c)
    && HasOpt(m, PROPOSAL_ID, x.proposalId, c.proposalId)
  }

  lemma QueryProposalRoundTrip(m: Matches, x: QueryProposal, c: Codecs)
    requires c.Lawful() && LiteralsParse(c) && SuppliedQueryProposal(m, x, c)
    ensures ParseQueryProposal(m, c) == Ok(x)
  {
    ReadOptSupplied(m, PROPOSAL_ID, x.proposalId, c.proposalId);
  }

  /**
   * `query-proposal` accepts every transaction argument, yet its parse reads
   * only `ledger-address` and `proposal-id`: whether any other of them is given
   * makes no difference to the record.
   */
  lemma QueryProposalIgnoresTxArgs(m: Matches, c: Codecs, n: string)
    requires LiteralsParse(c)
    requires n in Names(TX_ARGS) && n != LEDGER_ADDRESS
    ensures n in Names(QUERY_PROPOSAL_ARGS)
    ensures ParseQueryProposal(Matches(m.values - {n}, m.sub), c) == ParseQueryProposal(m, c)
  {
    var a :| a in TX_ARGS && a.name == n;
    assert a in QUERY_PROPOSAL_ARGS;
    assert n != PROPOSAL_ID;
  }

  // ---------------------------------------------------------------- QueryProposalResult
  datatype QueryProposalResult = QueryProposalResult(
    query: Query,
    proposalId: Option<u64>,
    offline: bool,
    proposalFolder: Option<Path>)

  const QUERY_PROPOSAL_RESULT_ARGS: seq<ArgDef> := QUERY_ARGS + [
    ArgDef(PROPOSAL_ID, Optional, []),
    ArgDef(PROPOSAL_OFFLINE, Flag, [PROPOSAL_ID]),
    ArgDef(DATA_PATH, Optional, [PROPOSAL_ID])]

  function ParseQueryProposalResult(m: Matches, c: Codecs): (r: Result<QueryProposalResult, ArgError>)
    requires LiteralsParse(c)
    ensures r.Ok? <==>
      Decodes(m, LEDGER_ADDRESS, c.tendermintAddress)
      && Decodes(m, PROPOSAL_ID, c.proposalId)
    ensures r.Err? ==> r.error.name in {LEDGER_ADDRESS, PROPOSAL_ID} && Faulty(r.error, m)
  {
    var query :- ParseQuery(m, c);
    var proposalId :- ReadOpt(m, PROPOSAL_ID, c.proposalId);
    Ok(QueryProposalResult(
      query,
      proposalId,
      ReadFlag(m, PROPOSAL_OFFLINE),
      ReadOptRaw(m, DATA_PATH)))
  }

  ghost predicate SuppliedQueryProposalResult(m: Matches, x: QueryProposalResult, c: Codecs)
    requires LiteralsParse(c)
  {
    && SuppliedQuery(m, x.query, c)
    && HasOpt(m, PROPOSAL_ID, x.proposalId, c.proposalId)
    && HasFlag(m, PROPOSAL_OFFLINE, x.offline)
    && HasOpt(m, DATA_PATH, x.proposalFolder, Text())
  }

  lemma QueryProposalResultRoundTrip(m: Matches, x: QueryProposalResult, c: Codecs)
    requires c.Lawful() && LiteralsParse(c) && SuppliedQueryProposalResult(m, x, c)
    ensures ParseQueryProposalResult(m, c) == Ok(x)
  {
    ReadOptSupplied(m, PROPOSAL_ID, x.proposalId, c.proposalId);
  }

  // ---------------------------------------------------------------- QueryProtocolParameters
  datatype QueryProtocolParameters = QueryProtocolParameters(query: Query)

  const QUERY_PROTOCOL_PARAMETERS_ARGS: seq<ArgDef> := QUERY_ARGS

  function ParseQueryProtocolParameters(m: Matches, c: Codecs): (r: Result<QueryProtocolParameters, ArgError>)
    requires LiteralsParse(c)
    ensures r.Ok? <==> Decodes(m, LEDGER_ADDRESS, c.tendermintAddress)
    ensures r.Err? ==> r.error.name in {LEDGER_ADDRESS} && Faulty(r.error, m)
  {
    var query :- ParseQuery(m, c);
    Ok(QueryProtocolParameters(query))
  }

  ghost predicate SuppliedQueryProtocolParameters(m: Matches, x: QueryProtocolParameters, c: Codecs)
    requires LiteralsParse(c)
  {
    SuppliedQuery(m, x.query, c)
  }

  lemma QueryProtocolParametersRoundTrip(m: Matches, x: QueryProtocolParameters, c: Codecs)
    requires c.Lawful() && LiteralsParse(c) && SuppliedQueryProtocolParameters(m, x, c)
    ensures ParseQueryProtocolParameters(m, c) == Ok(x)
  {
  }

  // ---------------------------------------------------------------- Withdraw
  datatype Withdraw = Withdraw(tx: Tx, validator: WalletAddress, source: Option<WalletAddress>)

  const WITHDRAW_ARGS: seq<ArgDef> := TX_ARGS + [ArgDef(VALIDATOR, Required, []), ArgDef(SOURCE, Optional, [])]

  function ParseWithdraw(m: Matches, c: Codecs): (r: Result<Withdraw, ArgError>)
    requires LiteralsParse(c)
    ensures r.Ok? <==> TxReadable(m, c) && Present(m, VALIDATOR)
    ensures r.Err? ==> r.error.name in TX_FALLIBLE + {VALIDATOR} && Faulty(r.error, m)
  {
    var tx :- ParseTx(m, c);
    var validator :- ReadArg(m, VALIDATOR, Contextual());
    Ok(Withdraw(tx, validator, ReadOptCtx(m, SOURCE)))
  }

  ghost predicate SuppliedWithdraw(m: Matches, x: Withdraw, c: Codecs)
    requires LiteralsParse(c)
  {
    && SuppliedTx(m, x.tx, c)
    && Has(m, VALIDATOR, x.validator, Contextual())
    && HasOpt(m, SOURCE, x.source, Contextual())
  }

  lemma WithdrawRoundTrip(m: Matches, x: Withdraw, c: Codecs)
    requires c.Lawful() && LiteralsParse(c) && SuppliedWithdraw(m, x, c)
    ensures ParseWithdraw(m, c) == Ok(x)
  {
    TxRoundTrip(m, x.tx, c);
  }

  // ---------------------------------------------------------------- QueryBalance
  datatype QueryBalance = QueryBalance(
    query: Query,
    owner: Option<WalletAddress>,
    token: Option<WalletAddress>,
    subPrefix: Option<string>)

  const QUERY_BALANCE_ARGS: seq<ArgDef> := QUERY_ARGS + [ArgDef(OWNER, Optional, []), ArgDef(TOKEN, Optional, []), ArgDef(SUB_PREFIX, Optional, [])]

  function ParseQueryBalance(m: Matches, c: Codecs): (r: Result<QueryBalance, ArgError>)
    requires LiteralsParse(c)
    ensures r.Ok? <==> Decodes(m, LEDGER_ADDRESS, c.tendermintAddress)
    ensures r.Err? ==> r.error.name in {LEDGER_ADDRESS} && Faulty(r.error, m)
  {
    var query :- ParseQuery(m, c);
    Ok(QueryBalance(query, ReadOptCtx(m, OWNER), ReadOptCtx(m, TOKEN), ReadOptRaw(m, SUB_PREFIX)))
  }

  ghost predicate SuppliedQueryBalance(m: Matches, x: QueryBalance, c: Codecs)
    requires LiteralsParse(c)
  {
    && SuppliedQuery(m, x.query, c)
    && HasOpt(m, OWNER, x.owner, Contextual())
    && HasOpt(m, TOKEN, x.token, Contextual())
    && HasOpt(m, SUB_PREFIX, x.subPrefix, Text())
  }

  lemma QueryBalanceRoundTrip(m: Matches, x: QueryBalance, c: Codecs)
    requires c.Lawful() && LiteralsParse(c) && SuppliedQueryBalance(m, x, c)
    ensures ParseQueryBalance(m, c) == Ok(x)
  {
  }

  // ---------------------------------------------------------------- QueryBonds
  datatype QueryBonds = QueryBonds(
    query: Query,
    owner: Option<WalletAddress>,
    validator: Option<WalletAddress>)

  const QUERY_BONDS_ARGS: seq<ArgDef> := QUERY_ARGS + [ArgDef(OWNER, Optional, []), ArgDef(VALIDATOR, Optional, [])]

  function ParseQueryBonds(m: Matches, c: Codecs): (r: Result<QueryBonds, ArgError>)
    requires LiteralsParse(c)
    ensures r.Ok? <==> Decodes(m, LEDGER_ADDRESS, c.tendermintAddress)
    ensures r.Err? ==> r.error.name in {LEDGER_ADDRESS} && Faulty(r.error, m)
  {
    var query :- ParseQuery(m, c);
    Ok(QueryBonds(query, ReadOptCtx(m, OWNER), ReadOptCtx(m, VALIDATOR)))
  }

  ghost predicate SuppliedQueryBonds(m: Matches, x: QueryBonds, c: Codecs)
    requires LiteralsParse(c)
  {
    && SuppliedQuery(m, x.query, c)
    && HasOpt(m, OWNER, x.owner, Contextual())
    && HasOpt(m, VALIDATOR, x.validator, Contextual())
  }

  lemma QueryBondsRoundTrip(m: Matches, x: QueryBonds, c: Codecs)
    requires c.Lawful() && LiteralsParse(c) && SuppliedQueryBonds(m, x, c)
    ensures ParseQueryBonds(m, c) == Ok(x)
  {
  }

  // ---------------------------------------------------------------- QueryVotingPower
  datatype QueryVotingPower = QueryVotingPower(
    query: Query,
    validator: Option<WalletAddress>,
    epoch: Option<Epoch>)

  const QUERY_VOTING_POWER_ARGS: seq<ArgDef> := QUERY_ARGS + [ArgDef(VALIDATOR, Optional, []), ArgDef(EPOCH, Optional, [])]

  function ParseQueryVotingPower(m: Matches, c: Codecs): (r: Result<QueryVotingPower, ArgError>)
    requires LiteralsParse(c)
    ensures r.Ok? <==> Decodes(m, LEDGER_ADDRESS, c.tendermintAddress) && Decodes(m, EPOCH, c.epoch)
    ensures r.Err? ==> r.error.name in {LEDGER_ADDRESS, EPOCH} && Faulty(r.error, m)
  {
    var query :- ParseQuery(m, c);
    var epoch :- ReadOpt(m, EPOCH, c.epoch);
    Ok(QueryVotingPower(query, ReadOptCtx(m, VALIDATOR), epoch))
  }

  ghost predicate SuppliedQueryVotingPower(m: Matches, x: QueryVotingPower, c: Codecs)
    requires LiteralsParse(c)
  {
    && SuppliedQuery(m, x.query, c)
    && HasOpt(m, VALIDATOR, x.validator, Contextual())
    && HasOpt(m, EPOCH, x.epoch, c.epoch)
  }

  lemma QueryVotingPowerRoundTrip(m: Matches, x: QueryVotingPower, c: Codecs)
    requires c.Lawful() && LiteralsParse(c) && SuppliedQueryVotingPower(m, x, c)
    ensures ParseQueryVotingPower(m, c) == Ok(x)
  {
    ReadOptSupplied(m, EPOCH, x.epoch, c.epoch);
  }

  // ---------------------------------------------------------------- QueryCommissionRate
  datatype QueryCommissionRate = QueryCommissionRate(
    query: Query,
    validator: Option<WalletAddress>,
    epoch: Option<Epoch>)

  const QUERY_COMMISSION_RATE_ARGS: seq<ArgDef> := QUERY_ARGS + [ArgDef(VALIDATOR, Optional, []), ArgDef(EPOCH, Optional, [])]

  function ParseQueryCommissionRate(m: Matches, c: Codecs): (r: Result<QueryCommissionRate, ArgError>)
    requires LiteralsParse(c)
    ensures r.Ok? <==> Decodes(m, LEDGER_ADDRESS, c.tendermintAddress) && Decodes(m, EPOCH, c.epoch)
    ensures r.Err? ==> r.error.name in {LEDGER_ADDRESS, EPOCH} && Faulty(r.error, m)
  {
    var query :- ParseQuery(m, c);
    var epoch :- ReadOpt(m, EPOCH, c.epoch);
    Ok(QueryCommissionRate(query, ReadOptCtx(m, VALIDATOR), epoch))
  }

  ghost predicate SuppliedQueryCommissionRate(m: Matches, x: QueryCommissionRate, c: Codecs)
    requires LiteralsParse(c)
  {
    && SuppliedQuery(m, x.query, c)
    && HasOpt(m, VALIDATOR, x.validator, Contextual())
    && HasOpt(m, EPOCH, x.epoch, c.epoch)
  }

  lemma QueryCommissionRateRoundTrip(m: Matches, x: QueryCommissionRate, c: Codecs)
    requires c.Lawful() && LiteralsParse(c) && SuppliedQueryCommissionRate(m, x, c)
    ensures ParseQueryCommissionRate(m, c) == Ok(x)
  {
    ReadOptSupplied(m, EPOCH, x.epoch, c.epoch);
  }

  // ---------------------------------------------------------------- QuerySlashes
  datatype QuerySlashes = QuerySlashes(query: Query, validator: Option<WalletAddress>)

  const QUERY_SLASHES_ARGS: seq<ArgDef> := QUERY_ARGS + [ArgDef(VALIDATOR, Optional, [])]

  function ParseQuerySlashes(m: Matches, c: Codecs): (r: Result<QuerySlashes, ArgError>)
    requires LiteralsParse(c)
    ensures r.Ok? <==> Decodes(m, LEDGER_ADDRESS, c.tendermintAddress)
    ensures r.Err? ==> r.error.name in {LEDGER_ADDRESS} && Faulty(r.error, m)
  {
    var query :- ParseQuery(m, c);
    Ok(QuerySlashes(query, ReadOptCtx(m, VALIDATOR)))
  }

  ghost predicate SuppliedQuerySlashes(m: Matches, x: QuerySlashes, c: Codecs)
    requires LiteralsParse(c)
  {
    && SuppliedQuery(m, x.query, c)
    && HasOpt(m, VALIDATOR, x.validator, Contextual())
  }

  lemma QuerySlashesRoundTrip(m: Matches, x: QuerySlashes, c: Codecs)
    requires c.Lawful() && LiteralsParse(c) && SuppliedQuerySlashes(m, x, c)
    ensures ParseQuerySlashes(m, c) == Ok(x)
  {
  }

  // ---------------------------------------------------------------- QueryRawBytes
  datatype QueryRawBytes = QueryRawBytes(storageKey: StorageKey, query: Query)

  const QUERY_RAW_BYTES_ARGS: seq<ArgDef> := QUERY_ARGS + [ArgDef(STORAGE_KEY, Required, [])]

  function ParseQueryRawBytes(m: Matches, c: Codecs): (r: Result<QueryRawBytes, ArgError>)
    requires LiteralsParse(c)
    ensures r.Ok? <==>
      Present(m, STORAGE_KEY) && Decodes(m, STORAGE_KEY, c.storageKey)
      && Decodes(m, LEDGER_ADDRESS, c.tendermintAddress)
    ensures r.Err? ==> r.error.name in {STORAGE_KEY, LEDGER_ADDRESS} && Faulty(r.error, m)
  {
    var storageKey :- ReadArg(m, STORAGE_KEY, c.storageKey);
    var query :- ParseQuery(m, c);
    Ok(QueryRawBytes(storageKey, query))
  }

  ghost predicate SuppliedQueryRawBytes(m: Matches, x: QueryRawBytes, c: Codecs)
    requires LiteralsParse(c)
  {
    && Has(m, STORAGE_KEY, x.storageKey, c.storageKey)
    && SuppliedQuery(m, x.query, c)
  }

  lemma QueryRawBytesRoundTrip(m: Matches, x: QueryRawBytes, c: Codecs)
    requires c.Lawful() && LiteralsParse(c) && SuppliedQueryRawBytes(m, x, c)
    ensures ParseQueryRawBytes(m, c) == Ok(x)
  {
    ReadArgSupplied(m, STORAGE_KEY, x.storageKey, c.storageKey);
  }

  // ---------------------------------------------------------------- KeyAndAddressGen
  datatype KeyAndAddressGen = KeyAndAddressGen(
    scheme: SchemeType,
    alias: Option<string>,
    unsafeDontEncrypt: bool)

  const KEY_AND_ADDRESS_GEN_ARGS: seq<ArgDef> := [ArgDef(SCHEME, Defaulted, []), ArgDef(ALIAS, Optional, []), ArgDef(UNSAFE_DONT_ENCRYPT, Flag, [])]

  function ParseKeyAndAddressGen(m: Matches, c: Codecs): (r: Result<KeyAndAddressGen, ArgError>)
    ensures r.Ok? <==> Decodes(m, SCHEME, c.scheme)
    ensures r.Err? ==> r.error.name in {SCHEME} && Faulty(r.error, m)
  {
    var scheme :- ReadDefault(m, SCHEME, c.scheme, SCHEME_DEFAULT);
    Ok(KeyAndAddressGen(scheme, ReadOptRaw(m, ALIAS), ReadFlag(m, UNSAFE_DONT_ENCRYPT)))
  }

  ghost predicate SuppliedKeyAndAddressGen(m: Matches, x: KeyAndAddressGen, c: Codecs)
  {
    && HasDefault(m, SCHEME, x.scheme, c.scheme, SCHEME_DEFAULT)
    && HasOpt(m, ALIAS, x.alias, Text())
    && HasFlag(m, UNSAFE_DONT_ENCRYPT, x.unsafeDontEncrypt)
  }

  lemma KeyAndAddressGenRoundTrip(m: Matches, x: KeyAndAddressGen, c: Codecs)
    requires c.Lawful() && SuppliedKeyAndAddressGen(m, x, c)
    ensures ParseKeyAndAddressGen(m, c) == Ok(x)
  {
    ReadDefaultSupplied(m, SCHEME, x.scheme, c.scheme, SCHEME_DEFAULT);
  }

  // ---------------------------------------------------------------- KeyFind
  datatype KeyFind = KeyFind(
    publicKey: Option<PublicKey>,
    alias: Option<string>,
    value: Option<string>,
    unsafeShowSecret: bool)

  const KEY_FIND_ARGS: seq<ArgDef> := [
    ArgDef(PUBLIC_KEY, Optional, [ALIAS, VALUE]),
    ArgDef(ALIAS, Optional, [VALUE]),
    ArgDef(VALUE, Optional, []),
    ArgDef(UNSAFE_SHOW_SECRET, Flag, [])]

  function ParseKeyFind(m: Matches, c: Codecs): (r: Result<KeyFind, ArgError>)
    ensures r.Ok? <==> Decodes(m, PUBLIC_KEY, c.publicKey)
    ensures r.Err? ==> r.error.name in {PUBLIC_KEY} && Faulty(r.error, m)
  {
    var publicKey :- ReadOpt(m, PUBLIC_KEY, c.publicKey);
    Ok(KeyFind(
      publicKey,
      ReadOptRaw(m, ALIAS),
      ReadOptRaw(m, VALUE),
      ReadFlag(m, UNSAFE_SHOW_SECRET)))
  }

  ghost predicate SuppliedKeyFind(m: Matches, x: KeyFind, c: Codecs)
  {
    && HasOpt(m, PUBLIC_KEY, x.publicKey, c.publicKey)
    && HasOpt(m, ALIAS, x.alias, Text())
    && HasOpt(m, VALUE, x.value, Text())
    && HasFlag(m, UNSAFE_SHOW_SECRET, x.unsafeShowSecret)
  }

  lemma KeyFindRoundTrip(m: Matches, x: KeyFind, c: Codecs)
    requires c.Lawful() && SuppliedKeyFind(m, x, c)
    ensures ParseKeyFind(m, c) == Ok(x)
  {
    ReadOptSupplied(m, PUBLIC_KEY, x.publicKey, c.publicKey);
  }

  // ---------------------------------------------------------------- KeyList
  datatype KeyList = KeyList(decrypt: bool, unsafeShowSecret: bool)

  const KEY_LIST_ARGS: seq<ArgDef> := [ArgDef(DECRYPT, Flag, []), ArgDef(UNSAFE_SHOW_SECRET, Flag, [])]

  function ParseKeyList(m: Matches, c: Codecs): (r: Result<KeyList, ArgError>)
    ensures r.Ok?
  {
    Ok(KeyList(ReadFlag(m, DECRYPT), ReadFlag(m, UNSAFE_SHOW_SECRET)))
  }

  ghost predicate SuppliedKeyList(m: Matches, x: KeyList, c: Codecs)
  {
    && HasFlag(m, DECRYPT, x.decrypt)
    && HasFlag(m, UNSAFE_SHOW_SECRET, x.unsafeShowSecret)
  }

  lemma KeyListRoundTrip(m: Matches, x: KeyList, c: Codecs)
    requires c.Lawful() && SuppliedKeyList(m, x, c)
    ensures ParseKeyList(m, c) == Ok(x)
  {
  }

  // ---------------------------------------------------------------- KeyExport
  datatype KeyExport = KeyExport(alias: string)

  const KEY_EXPORT_ARGS: seq<ArgDef> := [ArgDef(ALIAS, Required, [])]

  function ParseKeyExport(m: Matches, c: Codecs): (r: Result<KeyExport, ArgError>)
    ensures r.Ok? <==> Present(m, ALIAS)
    ensures r.Err? ==> r.error.name in {ALIAS} && Faulty(r.error, m)
  {
    var alias :- ReadArg(m, ALIAS, Text());
    Ok(KeyExport(alias))
  }

  ghost predicate SuppliedKeyExport(m: Matches, x: KeyExport, c: Codecs)
  {
    Has(m, ALIAS, x.alias, Text())
  }

  lemma KeyExportRoundTrip(m: Matches, x: KeyExport, c: Codecs)
    requires c.Lawful() && SuppliedKeyExport(m, x, c)
    ensures ParseKeyExport(m, c) == Ok(x)
  {
  }

  // ---------------------------------------------------------------- AddressOrAliasFind
  datatype AddressOrAliasFind = AddressOrAliasFind(alias: Option<string>, address: Option<Address>)

  const ADDRESS_OR_ALIAS_FIND_ARGS: seq<ArgDef> := [ArgDef(ALIAS, Optional, []), ArgDef(ADDRESS, Optional, [])]
  const ADDRESS_OR_ALIAS_FIND_GROUPS: seq<ArgGroup> := [ArgGroup("find_flags", [ALIAS, ADDRESS], true, false)]

  function ParseAddressOrAliasFind(m: Matches, c: Codecs): (r: Result<AddressOrAliasFind, ArgError>)
    ensures r.Ok? <==> Decodes(m, ADDRESS, c.address)
    ensures r.Err? ==> r.error.name in {ADDRESS} && Faulty(r.error, m)
  {
    var address :- ReadOpt(m, ADDRESS, c.address);
    Ok(AddressOrAliasFind(ReadOptRaw(m, ALIAS), address))
  }

  ghost predicate SuppliedAddressOrAliasFind(m: Matches, x: AddressOrAliasFind, c: Codecs)
  {
    && HasOpt(m, ALIAS, x.alias, Text())
    && HasOpt(m, ADDRESS, x.address, c.address)
  }

  lemma AddressOrAliasFindRoundTrip(m: Matches, x: AddressOrAliasFind, c: Codecs)
    requires c.Lawful() && SuppliedAddressOrAliasFind(m, x, c)
    ensures ParseAddressOrAliasFind(m, c) == Ok(x)
  {
    ReadOptSupplied(m, ADDRESS, x.address, c.address);
  }

  // ---------------------------------------------------------------- AddressAdd
  datatype AddressAdd = AddressAdd(alias: string, address: Address)

  const ADDRESS_ADD_ARGS: seq<ArgDef> := [ArgDef(ALIAS, Required, []), ArgDef(ADDRESS, Required, [])]

  function ParseAddressAdd(m: Matches, c: Codecs): (r: Result<AddressAdd, ArgError>)
    ensures r.Ok? <==> Present(m, ALIAS) && Present(m, ADDRESS) && Decodes(m, ADDRESS, c.address)
    ensures r.Err? ==> r.error.name in {ALIAS, ADDRESS} && Faulty(r.error, m)
  {
    var alias :- ReadArg(m, ALIAS, Text());
    var address :- ReadArg(m, ADDRESS, c.address);
    Ok(AddressAdd(alias, address))
  }

  ghost predicate SuppliedAddressAdd(m: Matches, x: AddressAdd, c: Codecs)
  {
    && Has(m, ALIAS, x.alias, Text())
    && Has(m, ADDRESS, x.address, c.address)
  }

  lemma AddressAddRoundTrip(m: Matches, x: AddressAdd, c: Codecs)
    requires c.Lawful() && SuppliedAddressAdd(m, x, c)
    ensures ParseAddressAdd(m, c) == Ok(x)
  {
    ReadArgSupplied(m, ADDRESS, x.address, c.address);
  }

  // ---------------------------------------------------------------- JoinNetwork
  datatype JoinNetwork = JoinNetwork(
    chainId: ChainId,
    genesisValidator: Option<string>,
    preGenesisPath: Option<Path>,
    dontPrefetchWasm: bool)

  const JOIN_NETWORK_ARGS: seq<ArgDef> := [ArgDef(CHAIN_ID, Required, []), ArgDef(GENESIS_VALIDATOR, Optional, []), ArgDef(PRE_GENESIS_PATH, Optional, []),
     ArgDef(DONT_PREFETCH_WASM, Flag, [])]

  function ParseJoinNetwork(m: Matches, c: Codecs): (r: Result<JoinNetwork, ArgError>)
    ensures r.Ok? <==> Present(m, CHAIN_ID) && Decodes(m, CHAIN_ID, c.chainId)
    ensures r.Err? ==> r.error.name in {CHAIN_ID} && Faulty(r.error, m)
  {
    var chainId :- ReadArg(m, CHAIN_ID, c.chainId);
    Ok(JoinNetwork(
      chainId,
      ReadOptRaw(m, GENESIS_VALIDATOR),
      ReadOptRaw(m, PRE_GENESIS_PATH),
      ReadFlag(m, DONT_PREFETCH_WASM)))
  }

  ghost predicate SuppliedJoinNetwork(m: Matches, x: JoinNetwork, c: Codecs)
  {
    && Has(m, CHAIN_ID, x.chainId, c.chainId)
    && HasOpt(m, GENESIS_VALIDATOR, x.genesisValidator, Text())
    && HasOpt(m, PRE_GENESIS_PATH, x.preGenesisPath, Text())
    && HasFlag(m, DONT_PREFETCH_WASM, x.dontPrefetchWasm)
  }

  lemma JoinNetworkRoundTrip(m: Matches, x: JoinNetwork, c: Codecs)
    requires c.Lawful() && SuppliedJoinNetwork(m, x, c)
    ensures ParseJoinNetwork(m, c) == Ok(x)
  {
    ReadArgSupplied(m, CHAIN_ID, x.chainId, c.chainId);
  }

  // ---------------------------------------------------------------- FetchWasms
  datatype FetchWasms = FetchWasms(chainId: ChainId)

  const FETCH_WASMS_ARGS: seq<ArgDef> := [ArgDef(CHAIN_ID, Required, [])]

  function ParseFetchWasms(m: Matches, c: Codecs): (r: Result<FetchWasms, ArgError>)
    ensures r.Ok? <==> Present(m, CHAIN_ID) && Decodes(m, CHAIN_ID, c.chainId)
    ensures r.Err? ==> r.error.name in {CHAIN_ID} && Faulty(r.error, m)
  {
    var chainId :- ReadArg(m, CHAIN_ID, c.chainId);
    Ok(FetchWasms(chainId))
  }

  ghost predicate SuppliedFetchWasms(m: Matches, x: FetchWasms, c: Codecs)
  {
    Has(m, CHAIN_ID, x.chainId, c.chainId)
  }

  lemma FetchWasmsRoundTrip(m: Matches, x: FetchWasms, c: Codecs)
    requires c.Lawful() && SuppliedFetchWasms(m, x, c)
    ensures ParseFetchWasms(m, c) == Ok(x)
  {
    ReadArgSupplied(m, CHAIN_ID, x.chainId, c.chainId);
  }

  // ---------------------------------------------------------------- InitNetwork
  datatype InitNetwork = InitNetwork(
    genesisPath: Path,
    wasmChecksumsPath: Path,
    chainIdPrefix: ChainIdPrefix,
    unsafeDontEncrypt: bool,
    consensusTimeoutCommit: Timeout,
    localhost: bool,
    allowDuplicateIp: bool,
    dontArchive: bool,
    archiveDir: Option<Path>)

  const INIT_NETWORK_ARGS: seq<ArgDef> := [ArgDef(GENESIS_PATH, Required, []), ArgDef(WASM_CHECKSUMS_PATH, Required, []), ArgDef(CHAIN_ID_PREFIX, Required, []),
     ArgDef(UNSAFE_DONT_ENCRYPT, Flag, []), ArgDef(CONSENSUS_TIMEOUT_COMMIT, Defaulted, []), ArgDef(LOCALHOST, Flag, []),
     ArgDef(ALLOW_DUPLICATE_IP, Flag, []), ArgDef(DONT_ARCHIVE, Flag, []), ArgDef(ARCHIVE_DIR, Optional, [])]

  function ParseInitNetwork(m: Matches, c: Codecs): (r: Result<InitNetwork, ArgError>)
    requires LiteralsParse(c)
    ensures r.Ok? <==>
      Present(m, GENESIS_PATH)
      && Present(m, WASM_CHECKSUMS_PATH)
      && Present(m, CHAIN_ID_PREFIX) && Decodes(m, CHAIN_ID_PREFIX, c.chainIdPrefix)
      && Decodes(m, CONSENSUS_TIMEOUT_COMMIT, c.timeout)
    ensures r.Err? ==> r.error.name in {GENESIS_PATH, WASM_CHECKSUMS_PATH, CHAIN_ID_PREFIX, CONSENSUS_TIMEOUT_COMMIT} && Faulty(r.error, m)
  {
    var genesisPath :- ReadArg(m, GENESIS_PATH, Text());
    var wasmChecksumsPath :- ReadArg(m, WASM_CHECKSUMS_PATH, Text());
    var chainIdPrefix :- ReadArg(m, CHAIN_ID_PREFIX, c.chainIdPrefix);
    var consensusTimeoutCommit :- ReadDefault(m, CONSENSUS_TIMEOUT_COMMIT, c.timeout, TimeoutCommitDefault(c));
    Ok(InitNetwork(
      genesisPath,
      wasmChecksumsPath,
      chainIdPrefix,
      ReadFlag(m, UNSAFE_DONT_ENCRYPT),
      consensusTimeoutCommit,
      ReadFlag(m, LOCALHOST),
      ReadFlag(m, ALLOW_DUPLICATE_IP),
      ReadFlag(m, DONT_ARCHIVE),
      ReadOptRaw(m, ARCHIVE_DIR)))
  }

  ghost predicate SuppliedInitNetwork(m: Matches, x: InitNetwork, c: Codecs)
    requires LiteralsParse(c)
  {
    && Has(m, GENESIS_PATH, x.genesisPath, Text())
    && Has(m, WASM_CHECKSUMS_PATH, x.wasmChecksumsPath, Text())
    && Has(m, CHAIN_ID_PREFIX, x.chainIdPrefix, c.chainIdPrefix)
    && HasFlag(m, UNSAFE_DONT_ENCRYPT, x.unsafeDontEncrypt)
    && HasDefault(m, CONSENSUS_TIMEOUT_COMMIT, x.consensusTimeoutCommit, c.timeout, TimeoutCommitDefault(c))
    && HasFlag(m, LOCALHOST, x.localhost)
    && HasFlag(m, ALLOW_DUPLICATE_IP, x.allowDuplicateIp)
    && HasFlag(m, DONT_ARCHIVE, x.dontArchive)
    && HasOpt(m, ARCHIVE_DIR, x.archiveDir, Text())
  }

  lemma InitNetworkRoundTrip(m: Matches, x: InitNetwork, c: Codecs)
    requires c.Lawful() && LiteralsParse(c) && SuppliedInitNetwork(m, x, c)
    ensures ParseInitNetwork(m, c) == Ok(x)
  {
    ReadArgSupplied(m, CHAIN_ID_PREFIX, x.chainIdPrefix, c.chainIdPrefix);
    ReadDefaultSupplied(m, CONSENSUS_TIMEOUT_COMMIT, x.consensusTimeoutCommit, c.timeout, TimeoutCommitDefault(c));
  }

  // ---------------------------------------------------------------- InitGenesisValidator
  datatype InitGenesisValidator = InitGenesisValidator(
    alias: string,
    commissionRate: Decimal,
    maxCommissionRateChange: Decimal,
    netAddress: SocketAddr,
    unsafeDontEncrypt: bool,
    keyScheme: SchemeType)

  const INIT_GENESIS_VALIDATOR_ARGS: seq<ArgDef> := [ArgDef(ALIAS, Required, []), ArgDef(NET_ADDRESS, Required, []), ArgDef(COMMISSION_RATE, Required, []),
     ArgDef(MAX_COMMISSION_RATE_CHANGE, Required, []), ArgDef(UNSAFE_DONT_ENCRYPT, Flag, []), ArgDef(SCHEME, Defaulted, [])]

  function ParseInitGenesisValidator(m: Matches, c: Codecs): (r: Result<InitGenesisValidator, ArgError>)
    ensures r.Ok? <==>
      Present(m, ALIAS)
      && Present(m, COMMISSION_RATE) && Decodes(m, COMMISSION_RATE, c.decimal)
      && Present(m, MAX_COMMISSION_RATE_CHANGE) && Decodes(m, MAX_COMMISSION_RATE_CHANGE, c.decimal)
      && Present(m, NET_ADDRESS) && Decodes(m, NET_ADDRESS, c.socketAddr)
      && Decodes(m, SCHEME, c.scheme)
    ensures r.Err? ==> r.error.name in {ALIAS, COMMISSION_RATE, MAX_COMMISSION_RATE_CHANGE, NET_ADDRESS, SCHEME} && Faulty(r.error, m)
  {
    var alias :- ReadArg(m, ALIAS, Text());
    var commissionRate :- ReadArg(m, COMMISSION_RATE, c.decimal);
    var maxCommissionRateChange :- ReadArg(m, MAX_COMMISSION_RATE_CHANGE, c.decimal);
    var netAddress :- ReadArg(m, NET_ADDRESS, c.socketAddr);
    var keyScheme :- ReadDefault(m, SCHEME, c.scheme, SCHEME_DEFAULT);
    Ok(InitGenesisValidator(
      alias,
      commissionRate,
      maxCommissionRateChange,
      netAddress,
      ReadFlag(m, UNSAFE_DONT_ENCRYPT),
      keyScheme))
  }

  ghost predicate SuppliedInitGenesisValidator(m: Matches, x: InitGenesisValidator, c: Codecs)
  {
    && Has(m, ALIAS, x.alias, Text())
    && Has(m, COMMISSION_RATE, x.commissionRate, c.decimal)
    && Has(m, MAX_COMMISSION_RATE_CHANGE, x.maxCommissionRateChange, c.decimal)
    && Has(m, NET_ADDRESS, x.netAddress, c.socketAddr)
    && HasFlag(m, UNSAFE_DONT_ENCRYPT, x.unsafeDontEncrypt)
    && HasDefault(m, SCHEME, x.keyScheme, c.scheme, SCHEME_DEFAULT)
  }

  lemma InitGenesisValidatorRoundTrip(m: Matches, x: InitGenesisValidator, c: Codecs)
    requires c.Lawful() && SuppliedInitGenesisValidator(m, x, c)
    ensures ParseInitGenesisValidator(m, c) == Ok(x)
  {
    ReadArgSupplied(m, COMMISSION_RATE, x.commissionRate, c.decimal);
    ReadArgSupplied(m, MAX_COMMISSION_RATE_CHANGE, x.maxCommissionRateChange, c.decimal);
    ReadArgSupplied(m, NET_ADDRESS, x.netAddress, c.socketAddr);
    ReadDefaultSupplied(m, SCHEME, x.keyScheme, c.scheme, SCHEME_DEFAULT);
  }

  // ---------------------------------------------------------------- declared constraints

  /** `signing-key` and `signer` exclude each other; nothing else constrains a transaction. */
  lemma TxConstraints(s: set<string>)
    ensures Admits(TX_ARGS, [], s) <==> s <= Names(TX_ARGS) && !(SIGNING_KEY in s && SIGNER in s)
  {
    TxConflicts(s);
  }

  lemma TxConflicts(s: set<string>)
    ensures ConflictFree(TX_ARGS, s) <==> !(SIGNING_KEY in s && SIGNER in s)
    ensures RequiredIn(TX_ARGS, s)
  {
    assert TX_ARGS[8] == ArgDef(SIGNING_KEY, Optional, [SIGNER]);
    assert SIGNER in TX_ARGS[8].conflicts;
    if !(SIGNING_KEY in s && SIGNER in s) {
      forall a, b | a in TX_ARGS && b in a.conflicts
        ensures !(a.name in s && b in s)
      {
        var i :| 0 <= i < |TX_ARGS| && TX_ARGS[i] == a;
      }
    }
  }

  /** `vote` is required, `proposal-id` excludes `offline` and `data-path`, on top of the transaction rule. */
  lemma VoteProposalConstraints(s: set<string>)
    ensures Admits(VOTE_PROPOSAL_ARGS, [], s) <==>
      && s <= Names(VOTE_PROPOSAL_ARGS)
      && PROPOSAL_VOTE in s
      && !(SIGNING_KEY in s && SIGNER in s)
      && !(PROPOSAL_ID in s && (PROPOSAL_OFFLINE in s || DATA_PATH in s))
  {
    var own := VOTE_PROPOSAL_ARGS[|TX_ARGS|..];
    assert VOTE_PROPOSAL_ARGS == TX_ARGS + own;
    assert own[0] == ArgDef(PROPOSAL_ID, Optional, [PROPOSAL_OFFLINE, DATA_PATH]);
    assert own[1] == ArgDef(PROPOSAL_VOTE, Required, []);
    assert PROPOSAL_OFFLINE in own[0].conflicts && DATA_PATH in own[0].conflicts;
    TxConflicts(s);
    if !(PROPOSAL_ID in s && (PROPOSAL_OFFLINE in s || DATA_PATH in s)) {
      forall a, b | a in own && b in a.conflicts
        ensures !(a.name in s && b in s)
      {
        var i :| 0 <= i < |own| && own[i] == a;
      }
    }
    if PROPOSAL_VOTE in s {
      forall a | a in own && a.kind == Required
        ensures a.name in s
      {
        var i :| 0 <= i < |own| && own[i] == a;
      }
    }
    AppendConstraints(TX_ARGS, own, s);
  }

  lemma QueryProposalResultConstraints(s: set<string>)
    ensures Admits(QUERY_PROPOSAL_RESULT_ARGS, [], s) <==>
      && s <= Names(QUERY_PROPOSAL_RESULT_ARGS)
      && !(PROPOSAL_ID in s && (PROPOSAL_OFFLINE in s || DATA_PATH in s))
  {
    var args := QUERY_PROPOSAL_RESULT_ARGS;
    assert args[2] == ArgDef(PROPOSAL_OFFLINE, Flag, [PROPOSAL_ID]);
    assert args[3] == ArgDef(DATA_PATH, Optional, [PROPOSAL_ID]);
    assert PROPOSAL_ID in args[2].conflicts && PROPOSAL_ID in args[3].conflicts;
    if s <= Names(args) && !(PROPOSAL_ID in s && (PROPOSAL_OFFLINE in s || DATA_PATH in s)) {
      forall a, b | a in args && b in a.conflicts
        ensures !(a.name in s && b in s)
      {
        var i :| 0 <= i < |args| && args[i] == a;
      }
    }
  }

  /** A key is looked up by at most one of public key, alias and value. */
  lemma KeyFindConstraints(s: set<string>)
    ensures Admits(KEY_FIND_ARGS, [], s) <==>
      && s <= Names(KEY_FIND_ARGS)
      && !(PUBLIC_KEY in s && ALIAS in s)
      && !(PUBLIC_KEY in s && VALUE in s)
      && !(ALIAS in s && VALUE in s)
  {
    var args := KEY_FIND_ARGS;
    assert ALIAS in args[0].conflicts && VALUE in args[0].conflicts && VALUE in args[1].conflicts;
    if && s <= Names(args) && !(PUBLIC_KEY in s && ALIAS in s) && !(PUBLIC_KEY in s && VALUE in s)
       && !(ALIAS in s && VALUE in s)
    {
      forall a, b | a in args && b in a.conflicts
        ensures !(a.name in s && b in s)
      {
        var i :| 0 <= i < |args| && args[i] == a;
      }
    }
  }

  /** The required, single-choice `find_flags` group: exactly one of alias and address. */
  lemma AddressOrAliasFindConstraints(s: set<string>)
    ensures Admits(ADDRESS_OR_ALIAS_FIND_ARGS, ADDRESS_OR_ALIAS_FIND_GROUPS, s) <==>
      && s <= Names(ADDRESS_OR_ALIAS_FIND_ARGS)
      && (ALIAS in s <==> ADDRESS !in s)
  {
    var g := ADDRESS_OR_ALIAS_FIND_GROUPS[0];
    assert g.members == [ALIAS, ADDRESS] && g.required && !g.multiple;
    if GroupHolds(g, s) {
      var x :| x in g.members && x in s;
    }
    if ALIAS in s <==> ADDRESS !in s {
      var x := if ALIAS in s then ALIAS else ADDRESS;
      assert x in g.members && x in s;
      assert GroupHolds(g, s);
    }
  }
}
