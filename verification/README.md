# Namada command-line dispatch, modelled in Dafny

This project models how the Namada (formerly Anoma) command-line front end in
`apps/src/lib/cli.rs` turns the arguments that clap has already matched into
typed commands. It covers three parts.

- **The command tree (`mod cmds`).** Every command is a token plus a parse
  function that looks at clap's matches. A node builds all of its children's
  results first (`let` bindings), then joins them with an `Option::or` chain,
  so the first present child wins. `ledger` falls back to `run` when no
  child is given. The client sends every command except `utils` through
  `parse_with_ctx`, which marks it as one that needs a loaded context.
- **The argument records (`mod args`).** Each record is read from
  descriptors. A required value that is missing stops the process, and so
  does a supplied value that does not decode. An absent optional value is
  `None`, an absent flag is false, and an absent defaulted value takes its
  default. The `def` side registers the descriptors, their conflicts and one
  argument group with clap.
- **The entry points `anoma_cli` and `anoma_client_cli`.** `anoma_cli`
  returns the command together with the raw top-level token. When nothing
  parses, it prints the help and exits with code 2. `anoma_client_cli` parses
  the command, then the global arguments, and loads a context only for a
  command that needs one.

Modules:

| module | file | contents |
|---|---|---|
| `Wrappers` | `wrappers.dfy` | `Option` and `Result` |
| `Clap` | `clap.dfy` | clap's matches and the registered command tree (`CmdDef`, `ArgDef`, `ArgGroup`). It gives a reference reading of the tree (`ResolveAt`/`ResolveSubs`: the token path a match selects, with default children filled in). It also states what clap admits (`Admits`: required arguments, conflicts, groups) and which matches it accepts (`Accepts`). |
| `Domain` | `domain.dfy` | the foreign value types (addresses, amounts, keys, chain ids), each with a `Codec` that stands for its `FromStr`/`Display` pair |
| `Descriptors` | `descriptors.dfy` | what reading `Arg`, `ArgOpt`, `ArgFlag`, `ArgDefault` and `ArgDefaultFromCtx` yields |
| `Args` | `args.dfy` | every record of `mod args`, with its descriptor table and its `parse` |
| `Choice` | `choice.dfy` | sibling results (`Absent`, `Found`, `Exit`), the `.or` chain, and `Agrees`, which ties a parse result to the reference reading |
| `Cmds` | `cmds.dfy` | every token, command definition and parse function of `mod cmds` |
| `Cli` | `cli.dfy` | `anoma_app`, `anoma_client_app`, `anoma_cli` and `anoma_client_cli` |

Each parse function in `Cmds` is proved to agree with the reference reading
of its node. It is absent exactly when that reading selects nothing, and a
command it returns names exactly the selected token path. Sibling tokens
are proved distinct, and from that every chain is proved equal to the
result bound for the selected child, whatever its position (the `ledger`
chain, whose default child may be implied, is stated on its own). Each record in `Args` has two proofs.
The first says it reads without error exactly when its required arguments
are present and its given values decode; otherwise the error names one of
its arguments. The second is a round trip: supplying each field's rendering
reads back the same record.

## Model

| member | source | states |
|---|---|---|
| Choice.Map | apps/src/lib/cli.rs:68-78 | a sibling result mapped into its parent variant keeps its outcome: absent, present (with the mapped value) or the same exit |
| Choice.Or | apps/src/lib/cli.rs:79-87 | `.or` over two evaluated siblings exits when either exits, is absent only when both are, and otherwise keeps the first present one |
| Choice.FirstOfOutcome | apps/src/lib/cli.rs:79-87 | a chain is absent exactly when every sibling is, exits exactly when some sibling exits, and a present result is one of the siblings |
| Choice.FirstOfSelected | apps/src/lib/cli.rs:79-87 | when every sibling but one is absent, the chain is that sibling, whatever its position |
| Choice.ChainAgrees | apps/src/lib/cli.rs:203-224 | a chain whose siblings each agree with the reading of their own command agrees with the reading of all of them |
| Choice.EachAgreesAppend | apps/src/lib/cli.rs:173-224 | two runs of siblings that each agree with their own commands, placed one after the other, agree with the concatenated registration |
| Choice.ChainSelects | apps/src/lib/cli.rs:203-224 | under distinct sibling tokens the chain is the result of the sibling whose token was selected, so the `.or` order never decides |
| Choice.ChainDispatch | apps/src/lib/cli.rs:203-224 | a chain whose siblings each agree with their own commands, under distinct tokens, agrees with the reading of all of them and is the result bound for the selected child, wherever it sits |
| Choice.FirstOfFallback | apps/src/lib/cli.rs:568-576 | a chain ending in a present fallback is the fallback exactly when every earlier sibling is absent, and otherwise the earlier outcome |
| Choice.FallbackAgrees | apps/src/lib/cli.rs:568-576 | falling back to the default child under a selected node agrees with the reading in which the default child is implied |
| Choice.NestAgrees | apps/src/lib/cli.rs:113-117 | below a selected node, the children's reading prefixed by the node's token is the node's reading |
| Args.ParseGlobal | apps/src/lib/cli.rs:1352-1364 | the global arguments read successfully exactly when a given `chain-id` decodes; the error names `chain-id` and matches the input; `mode` is set exactly when given |
| Args.BaseDirPrecedence | apps/src/lib/cli.rs:1256-1262 | `base-dir` is the flag, else `ANOMA_BASE_DIR`, else the static default; `wasm-dir` is the flag or nothing |
| Args.GlobalRoundTrip | apps/src/lib/cli.rs:1352-1364 | supplying the rendering of each global field reads back exactly that record |
| Args.ParseTx | apps/src/lib/cli.rs:2253-2277 | the transaction arguments read exactly when every given fallible value decodes; an error names one of them and matches the input |
| Args.TxDefaults | apps/src/lib/cli.rs:1280-1298 | absent fee amount and gas limit read as 0, absent fee token as `NAM`, absent ledger address as `127.0.0.1:26657`, absent flags as false |
| Args.TxRoundTrip | apps/src/lib/cli.rs:2253-2277 | supplying the rendering of each transaction field (or omitting a defaulted one) reads back exactly that record |
| Args.ParseQuery | apps/src/lib/cli.rs:2292-2295 | reads exactly when a given ledger address decodes; an absent one reads as `127.0.0.1:26657` |
| Args.QueryRoundTrip | apps/src/lib/cli.rs:2292-2295 | supplying the ledger address (or omitting the default) reads back exactly that record |
| Args.ParseQueryResult | apps/src/lib/cli.rs:1400-1404 | the `QueryResult` arguments read exactly when every required one is present and every given fallible value decodes; an error names one of them and matches the input |
| Args.QueryResultRoundTrip | apps/src/lib/cli.rs:1400-1404 | supplying the rendering of each `QueryResult` field (omitting absent optionals, defaulted values and unset flags) reads back exactly that record |
| Args.ParseTxCustom | apps/src/lib/cli.rs:1427-1436 | the `TxCustom` arguments read exactly when every required one is present and every given fallible value decodes; an error names one of them and matches the input |
| Args.TxCustomRoundTrip | apps/src/lib/cli.rs:1427-1436 | supplying the rendering of each `TxCustom` field (omitting absent optionals, defaulted values and unset flags) reads back exactly that record |
| Args.ParseTxTransfer | apps/src/lib/cli.rs:1471-1486 | the `TxTransfer` arguments read exactly when every required one is present and every given fallible value decodes; an error names one of them and matches the input |
| Args.TxTransferRoundTrip | apps/src/lib/cli.rs:1471-1486 | supplying the rendering of each `TxTransfer` field (omitting absent optionals, defaulted values and unset flags) reads back exactly that record |
| Args.ParseTxInitAccount | apps/src/lib/cli.rs:1515-1526 | the `TxInitAccount` arguments read exactly when every required one is present and every given fallible value decodes; an error names one of them and matches the input |
| Args.TxInitAccountRoundTrip | apps/src/lib/cli.rs:1515-1526 | supplying the rendering of each `TxInitAccount` field (omitting absent optionals, defaulted values and unset flags) reads back exactly that record |
| Args.ParseTxInitValidator | apps/src/lib/cli.rs:1561-1585 | the `TxInitValidator` arguments read exactly when every required one is present and every given fallible value decodes; an error names one of them and matches the input |
| Args.TxInitValidatorRoundTrip | apps/src/lib/cli.rs:1561-1585 | supplying the rendering of each `TxInitValidator` field (omitting absent optionals, defaulted values and unset flags) reads back exactly that record |
| Args.ParseTxUpdateVp | apps/src/lib/cli.rs:1641-1650 | the `TxUpdateVp` arguments read exactly when every required one is present and every given fallible value decodes; an error names one of them and matches the input |
| Args.TxUpdateVpRoundTrip | apps/src/lib/cli.rs:1641-1650 | supplying the rendering of each `TxUpdateVp` field (omitting absent optionals, defaulted values and unset flags) reads back exactly that record |
| Args.ParseBond | apps/src/lib/cli.rs:1681-1692 | the `Bond` arguments read exactly when every required one is present and every given fallible value decodes; an error names one of them and matches the input |
| Args.BondRoundTrip | apps/src/lib/cli.rs:1681-1692 | supplying the rendering of each `Bond` field (omitting absent optionals, defaulted values and unset flags) reads back exactly that record |
| Args.ParseUnbond | apps/src/lib/cli.rs:1720-1731 | the `Unbond` arguments read exactly when every required one is present and every given fallible value decodes; an error names one of them and matches the input |
| Args.UnbondRoundTrip | apps/src/lib/cli.rs:1720-1731 | supplying the rendering of each `Unbond` field (omitting absent optionals, defaulted values and unset flags) reads back exactly that record |
| Args.ParseInitProposal | apps/src/lib/cli.rs:1760-1770 | the `InitProposal` arguments read exactly when every required one is present and every given fallible value decodes; an error names one of them and matches the input |
| Args.InitProposalRoundTrip | apps/src/lib/cli.rs:1760-1770 | supplying the rendering of each `InitProposal` field (omitting absent optionals, defaulted values and unset flags) reads back exactly that record |
| Args.ParseVoteProposal | apps/src/lib/cli.rs:1800-1814 | the `VoteProposal` arguments read exactly when every required one is present and every given fallible value decodes; an error names one of them and matches the input |
| Args.VoteProposalRoundTrip | apps/src/lib/cli.rs:1800-1814 | supplying the rendering of each `VoteProposal` field (omitting absent optionals, defaulted values and unset flags) reads back exactly that record |
| Args.ParseQueryProposal | apps/src/lib/cli.rs:1859-1864 | the `QueryProposal` arguments read exactly when every required one is present and every given fallible value decodes; an error names one of them and matches the input |
| Args.QueryProposalRoundTrip | apps/src/lib/cli.rs:1859-1864 | supplying the rendering of each `QueryProposal` field (omitting absent optionals, defaulted values and unset flags) reads back exactly that record |
| Args.ParseQueryProposalResult | apps/src/lib/cli.rs:1885-1897 | the `QueryProposalResult` arguments read exactly when every required one is present and every given fallible value decodes; an error names one of them and matches the input |
| Args.QueryProposalResultRoundTrip | apps/src/lib/cli.rs:1885-1897 | supplying the rendering of each `QueryProposalResult` field (omitting absent optionals, defaulted values and unset flags) reads back exactly that record |
| Args.ParseQueryProtocolParameters | apps/src/lib/cli.rs:1930-1934 | the `QueryProtocolParameters` arguments read exactly when every required one is present and every given fallible value decodes; an error names one of them and matches the input |
| Args.QueryProtocolParametersRoundTrip | apps/src/lib/cli.rs:1930-1934 | supplying the rendering of each `QueryProtocolParameters` field (omitting absent optionals, defaulted values and unset flags) reads back exactly that record |
| Args.ParseWithdraw | apps/src/lib/cli.rs:1954-1963 | the `Withdraw` arguments read exactly when every required one is present and every given fallible value decodes; an error names one of them and matches the input |
| Args.WithdrawRoundTrip | apps/src/lib/cli.rs:1954-1963 | supplying the rendering of each `Withdraw` field (omitting absent optionals, defaulted values and unset flags) reads back exactly that record |
| Args.ParseQueryBalance | apps/src/lib/cli.rs:1990-2001 | the `QueryBalance` arguments read exactly when every required one is present and every given fallible value decodes; an error names one of them and matches the input |
| Args.QueryBalanceRoundTrip | apps/src/lib/cli.rs:1990-2001 | supplying the rendering of each `QueryBalance` field (omitting absent optionals, defaulted values and unset flags) reads back exactly that record |
| Args.ParseQueryBonds | apps/src/lib/cli.rs:2035-2044 | the `QueryBonds` arguments read exactly when every required one is present and every given fallible value decodes; an error names one of them and matches the input |
| Args.QueryBondsRoundTrip | apps/src/lib/cli.rs:2035-2044 | supplying the rendering of each `QueryBonds` field (omitting absent optionals, defaulted values and unset flags) reads back exactly that record |
| Args.ParseQueryVotingPower | apps/src/lib/cli.rs:2073-2082 | the `QueryVotingPower` arguments read exactly when every required one is present and every given fallible value decodes; an error names one of them and matches the input |
| Args.QueryVotingPowerRoundTrip | apps/src/lib/cli.rs:2073-2082 | supplying the rendering of each `QueryVotingPower` field (omitting absent optionals, defaulted values and unset flags) reads back exactly that record |
| Args.ParseQueryCommissionRate | apps/src/lib/cli.rs:2108-2117 | the `QueryCommissionRate` arguments read exactly when every required one is present and every given fallible value decodes; an error names one of them and matches the input |
| Args.QueryCommissionRateRoundTrip | apps/src/lib/cli.rs:2108-2117 | supplying the rendering of each `QueryCommissionRate` field (omitting absent optionals, defaulted values and unset flags) reads back exactly that record |
| Args.ParseQuerySlashes | apps/src/lib/cli.rs:2141-2145 | the `QuerySlashes` arguments read exactly when every required one is present and every given fallible value decodes; an error names one of them and matches the input |
| Args.QuerySlashesRoundTrip | apps/src/lib/cli.rs:2141-2145 | supplying the rendering of each `QuerySlashes` field (omitting absent optionals, defaulted values and unset flags) reads back exactly that record |
| Args.ParseQueryRawBytes | apps/src/lib/cli.rs:2165-2169 | the `QueryRawBytes` arguments read exactly when every required one is present and every given fallible value decodes; an error names one of them and matches the input |
| Args.QueryRawBytesRoundTrip | apps/src/lib/cli.rs:2165-2169 | supplying the rendering of each `QueryRawBytes` field (omitting absent optionals, defaulted values and unset flags) reads back exactly that record |
| Args.ParseKeyAndAddressGen | apps/src/lib/cli.rs:2310-2319 | the `KeyAndAddressGen` arguments read exactly when every required one is present and every given fallible value decodes; an error names one of them and matches the input |
| Args.KeyAndAddressGenRoundTrip | apps/src/lib/cli.rs:2310-2319 | supplying the rendering of each `KeyAndAddressGen` field (omitting absent optionals, defaulted values and unset flags) reads back exactly that record |
| Args.ParseKeyFind | apps/src/lib/cli.rs:2348-2360 | the `KeyFind` arguments read exactly when every required one is present and every given fallible value decodes; an error names one of them and matches the input |
| Args.KeyFindRoundTrip | apps/src/lib/cli.rs:2348-2360 | supplying the rendering of each `KeyFind` field (omitting absent optionals, defaulted values and unset flags) reads back exactly that record |
| Args.ParseKeyList | apps/src/lib/cli.rs:2396-2403 | the key listing always reads: every argument is a flag or a raw optional text |
| Args.KeyListRoundTrip | apps/src/lib/cli.rs:2396-2403 | supplying the rendering of each `KeyList` field (omitting absent optionals, defaulted values and unset flags) reads back exactly that record |
| Args.ParseKeyExport | apps/src/lib/cli.rs:2422-2426 | the `KeyExport` arguments read exactly when every required one is present and every given fallible value decodes; an error names one of them and matches the input |
| Args.KeyExportRoundTrip | apps/src/lib/cli.rs:2422-2426 | supplying the rendering of each `KeyExport` field (omitting absent optionals, defaulted values and unset flags) reads back exactly that record |
| Args.ParseAddressOrAliasFind | apps/src/lib/cli.rs:2445-2449 | the `AddressOrAliasFind` arguments read exactly when every required one is present and every given fallible value decodes; an error names one of them and matches the input |
| Args.AddressOrAliasFindRoundTrip | apps/src/lib/cli.rs:2445-2449 | supplying the rendering of each `AddressOrAliasFind` field (omitting absent optionals, defaulted values and unset flags) reads back exactly that record |
| Args.ParseAddressAdd | apps/src/lib/cli.rs:2478-2482 | the `AddressAdd` arguments read exactly when every required one is present and every given fallible value decodes; an error names one of them and matches the input |
| Args.AddressAddRoundTrip | apps/src/lib/cli.rs:2478-2482 | supplying the rendering of each `AddressAdd` field (omitting absent optionals, defaulted values and unset flags) reads back exactly that record |
| Args.ParseJoinNetwork | apps/src/lib/cli.rs:2507-2518 | the `JoinNetwork` arguments read exactly when every required one is present and every given fallible value decodes; an error names one of them and matches the input |
| Args.JoinNetworkRoundTrip | apps/src/lib/cli.rs:2507-2518 | supplying the rendering of each `JoinNetwork` field (omitting absent optionals, defaulted values and unset flags) reads back exactly that record |
| Args.ParseFetchWasms | apps/src/lib/cli.rs:2536-2539 | the `FetchWasms` arguments read exactly when every required one is present and every given fallible value decodes; an error names one of them and matches the input |
| Args.FetchWasmsRoundTrip | apps/src/lib/cli.rs:2536-2539 | supplying the rendering of each `FetchWasms` field (omitting absent optionals, defaulted values and unset flags) reads back exactly that record |
| Args.ParseInitNetwork | apps/src/lib/cli.rs:2560-2582 | the `InitNetwork` arguments read exactly when every required one is present and every given fallible value decodes; an error names one of them and matches the input |
| Args.InitNetworkRoundTrip | apps/src/lib/cli.rs:2560-2582 | supplying the rendering of each `InitNetwork` field (omitting absent optionals, defaulted values and unset flags) reads back exactly that record |
| Args.ParseInitGenesisValidator | apps/src/lib/cli.rs:2638-2654 | the `InitGenesisValidator` arguments read exactly when every required one is present and every given fallible value decodes; an error names one of them and matches the input |
| Args.InitGenesisValidatorRoundTrip | apps/src/lib/cli.rs:2638-2654 | supplying the rendering of each `InitGenesisValidator` field (omitting absent optionals, defaulted values and unset flags) reads back exactly that record |
| Args.QueryProposalIgnoresTxArgs | apps/src/lib/cli.rs:1866-1870 | the proposal query registers the whole transaction argument set, yet removing any of those arguments except the ledger address leaves the record unchanged |
| Args.TxConflicts | apps/src/lib/cli.rs:2233-2250 | `signing-key` and `signer` conflict with each other and with nothing else; no transaction argument is required |
| Args.TxConstraints | apps/src/lib/cli.rs:2233-2250 | a set of transaction arguments is accepted exactly when it uses known names and not both `signing-key` and `signer` |
| Args.VoteProposalConstraints | apps/src/lib/cli.rs:1816-1846 | a vote is accepted exactly when `vote` is given, signing is unambiguous, and `proposal-id` comes without `offline` and `data-path` |
| Args.QueryProposalResultConstraints | apps/src/lib/cli.rs:1899-1920 | a proposal-result query is accepted exactly when `proposal-id` comes without `offline` and `data-path` |
| Args.KeyFindConstraints | apps/src/lib/cli.rs:2362-2385 | a key lookup is accepted exactly when at most one of public key, alias and value is given |
| Args.AddressOrAliasFindConstraints | apps/src/lib/cli.rs:2451-2467 | an address lookup is accepted exactly when exactly one of alias and address is given |
| Cmds.Leaf | apps/src/lib/cli.rs:753-757 | a leaf command is absent exactly when its token is not selected, and otherwise is its record builder's result under the path of its token |
| Cmds.ParseLedgerRun | apps/src/lib/cli.rs:595-597 | present exactly when `run` is selected, with path [`run`]; it never exits |
| Cmds.ParseLedgerReset | apps/src/lib/cli.rs:610-612 | present exactly when `reset` is selected, with path [`reset`]; it never exits |
| Cmds.ParseConfigGen | apps/src/lib/cli.rs:650-652 | present exactly when `gen` is selected, with path [`gen`]; it never exits |
| Cmds.ParseAddressList | apps/src/lib/cli.rs:528-532 | present exactly when `list` is selected, with path [`list`]; it never exits |
| Cmds.ParseTxCustom | apps/src/lib/cli.rs:753-757 | absent exactly when `tx` is not selected; otherwise the outcome of reading `TxCustom` from the sub-matches of `tx` (the record or that reader's exit), with path [`tx`] |
| Cmds.ParseTxTransfer | apps/src/lib/cli.rs:772-776 | absent exactly when `transfer` is not selected; otherwise the outcome of reading `TxTransfer` from the sub-matches of `transfer` (the record or that reader's exit), with path [`transfer`] |
| Cmds.ParseTxUpdateVp | apps/src/lib/cli.rs:791-795 | absent exactly when `update` is not selected; otherwise the outcome of reading `TxUpdateVp` from the sub-matches of `update` (the record or that reader's exit), with path [`update`] |
| Cmds.ParseTxInitAccount | apps/src/lib/cli.rs:813-817 | absent exactly when `init-account` is not selected; otherwise the outcome of reading `TxInitAccount` from the sub-matches of `init-account` (the record or that reader's exit), with path [`init-account`] |
| Cmds.ParseTxInitValidator | apps/src/lib/cli.rs:835-839 | absent exactly when `init-validator` is not selected; otherwise the outcome of reading `TxInitValidator` from the sub-matches of `init-validator` (the record or that reader's exit), with path [`init-validator`] |
| Cmds.ParseTxInitProposal | apps/src/lib/cli.rs:1069-1076 | absent exactly when `init-proposal` is not selected; otherwise the outcome of reading `InitProposal` from the sub-matches of `init-proposal` (the record or that reader's exit), with path [`init-proposal`] |
| Cmds.ParseTxVoteProposal | apps/src/lib/cli.rs:1091-1098 | absent exactly when `vote-proposal` is not selected; otherwise the outcome of reading `VoteProposal` from the sub-matches of `vote-proposal` (the record or that reader's exit), with path [`vote-proposal`] |
| Cmds.ParseBond | apps/src/lib/cli.rs:857-861 | absent exactly when `bond` is not selected; otherwise the outcome of reading `Bond` from the sub-matches of `bond` (the record or that reader's exit), with path [`bond`] |
| Cmds.ParseUnbond | apps/src/lib/cli.rs:876-880 | absent exactly when `unbond` is not selected; otherwise the outcome of reading `Unbond` from the sub-matches of `unbond` (the record or that reader's exit), with path [`unbond`] |
| Cmds.ParseWithdraw | apps/src/lib/cli.rs:895-899 | absent exactly when `withdraw` is not selected; otherwise the outcome of reading `Withdraw` from the sub-matches of `withdraw` (the record or that reader's exit), with path [`withdraw`] |
| Cmds.ParseQueryEpoch | apps/src/lib/cli.rs:914-918 | absent exactly when `epoch` is not selected; otherwise the outcome of reading `Query` from the sub-matches of `epoch` (the record or that reader's exit), with path [`epoch`] |
| Cmds.ParseQueryBlock | apps/src/lib/cli.rs:933-937 | absent exactly when `block` is not selected; otherwise the outcome of reading `Query` from the sub-matches of `block` (the record or that reader's exit), with path [`block`] |
| Cmds.ParseQueryBalance | apps/src/lib/cli.rs:952-956 | absent exactly when `balance` is not selected; otherwise the outcome of reading `QueryBalance` from the sub-matches of `balance` (the record or that reader's exit), with path [`balance`] |
| Cmds.ParseQueryBonds | apps/src/lib/cli.rs:971-975 | absent exactly when `bonds` is not selected; otherwise the outcome of reading `QueryBonds` from the sub-matches of `bonds` (the record or that reader's exit), with path [`bonds`] |
| Cmds.ParseQueryVotingPower | apps/src/lib/cli.rs:990-994 | absent exactly when `voting-power` is not selected; otherwise the outcome of reading `QueryVotingPower` from the sub-matches of `voting-power` (the record or that reader's exit), with path [`voting-power`] |
| Cmds.ParseQueryCommissionRate | apps/src/lib/cli.rs:1009-1013 | absent exactly when `commission-rate` is not selected; otherwise the outcome of reading `QueryCommissionRate` from the sub-matches of `commission-rate` (the record or that reader's exit), with path [`commission-rate`] |
| Cmds.ParseQuerySlashes | apps/src/lib/cli.rs:1028-1035 | absent exactly when `slashes` is not selected; otherwise the outcome of reading `QuerySlashes` from the sub-matches of `slashes` (the record or that reader's exit), with path [`slashes`] |
| Cmds.ParseQueryResult | apps/src/lib/cli.rs:666-670 | absent exactly when `tx-result` is not selected; otherwise the outcome of reading `QueryResult` from the sub-matches of `tx-result` (the record or that reader's exit), with path [`tx-result`] |
| Cmds.ParseQueryRawBytes | apps/src/lib/cli.rs:1050-1054 | absent exactly when `query-bytes` is not selected; otherwise the outcome of reading `QueryRawBytes` from the sub-matches of `query-bytes` (the record or that reader's exit), with path [`query-bytes`] |
| Cmds.ParseQueryProposal | apps/src/lib/cli.rs:685-692 | absent exactly when `query-proposal` is not selected; otherwise the outcome of reading `QueryProposal` from the sub-matches of `query-proposal` (the record or that reader's exit), with path [`query-proposal`] |
| Cmds.ParseQueryProposalResult | apps/src/lib/cli.rs:707-714 | absent exactly when `query-proposal-result` is not selected; otherwise the outcome of reading `QueryProposalResult` from the sub-matches of `query-proposal-result` (the record or that reader's exit), with path [`query-proposal-result`] |
| Cmds.ParseQueryProtocolParameters | apps/src/lib/cli.rs:729-738 | absent exactly when `query-protocol-parameters` is not selected; otherwise the outcome of reading `QueryProtocolParameters` from the sub-matches of `query-protocol-parameters` (the record or that reader's exit), with path [`query-protocol-parameters`] |
| Cmds.ParseKeyGen | apps/src/lib/cli.rs:366-370 | absent exactly when `gen` is not selected; otherwise the outcome of reading `KeyAndAddressGen` from the sub-matches of `gen` (the record or that reader's exit), with path [`gen`] |
| Cmds.ParseKeyFind | apps/src/lib/cli.rs:389-393 | absent exactly when `find` is not selected; otherwise the outcome of reading `KeyFind` from the sub-matches of `find` (the record or that reader's exit), with path [`find`] |
| Cmds.ParseKeyList | apps/src/lib/cli.rs:408-412 | absent exactly when `list` is not selected; otherwise the outcome of reading `KeyList` from the sub-matches of `list` (the record or that reader's exit), with path [`list`] |
| Cmds.ParseExport | apps/src/lib/cli.rs:427-431 | absent exactly when `export` is not selected; otherwise the outcome of reading `KeyExport` from the sub-matches of `export` (the record or that reader's exit), with path [`export`] |
| Cmds.ParseAddressGen | apps/src/lib/cli.rs:482-486 | absent exactly when `gen` is not selected; otherwise the outcome of reading `KeyAndAddressGen` from the sub-matches of `gen` (the record or that reader's exit), with path [`gen`] |
| Cmds.ParseAddressOrAliasFind | apps/src/lib/cli.rs:506-510 | absent exactly when `find` is not selected; otherwise the outcome of reading `AddressOrAliasFind` from the sub-matches of `find` (the record or that reader's exit), with path [`find`] |
| Cmds.ParseAddressAdd | apps/src/lib/cli.rs:546-550 | absent exactly when `add` is not selected; otherwise the outcome of reading `AddressAdd` from the sub-matches of `add` (the record or that reader's exit), with path [`add`] |
| Cmds.ParseJoinNetwork | apps/src/lib/cli.rs:1151-1155 | absent exactly when `join-network` is not selected; otherwise the outcome of reading `JoinNetwork` from the sub-matches of `join-network` (the record or that reader's exit), with path [`join-network`] |
| Cmds.ParseFetchWasms | apps/src/lib/cli.rs:1170-1174 | absent exactly when `fetch-wasms` is not selected; otherwise the outcome of reading `FetchWasms` from the sub-matches of `fetch-wasms` (the record or that reader's exit), with path [`fetch-wasms`] |
| Cmds.ParseInitNetwork | apps/src/lib/cli.rs:1189-1193 | absent exactly when `init-network` is not selected; otherwise the outcome of reading `InitNetwork` from the sub-matches of `init-network` (the record or that reader's exit), with path [`init-network`] |
| Cmds.ParseInitGenesisValidator | apps/src/lib/cli.rs:1208-1212 | absent exactly when `init-genesis-validator` is not selected; otherwise the outcome of reading `InitGenesisValidator` from the sub-matches of `init-genesis-validator` (the record or that reader's exit), with path [`init-genesis-validator`] |
| Cmds.ParseLedger | apps/src/lib/cli.rs:568-576 | `ledger` agrees with the reading of its node, `run` being implied when no child is given |
| Cmds.LedgerDefaultsToRun | apps/src/lib/cli.rs:568-576 | once `ledger` is selected the result is always present: `reset` when selected, `run` otherwise |
| Cmds.ParseConfig | apps/src/lib/cli.rs:630-634 | `config` agrees with the reading of its node, whose only child is `gen` |
| Cmds.ParseAnomaNode | apps/src/lib/cli.rs:104-108 | the node commands agree with the reading of `ledger` and `config`, and are the result bound for whichever of them is selected |
| Cmds.ParseAnomaNodeSub | apps/src/lib/cli.rs:113-117 | `node` agrees with the reading of its node, the path prefixed by `node`; below it the result is that of the selected child |
| Cmds.ParseWalletKey | apps/src/lib/cli.rs:335-343 | `key` agrees with the reading of `gen`, `find`, `list` and `export`, and is the result bound for the selected one |
| Cmds.ParseWalletAddress | apps/src/lib/cli.rs:451-459 | `address` agrees with the reading of `gen`, `find`, `list` and `add`, and is the result bound for the selected one |
| Cmds.ParseAnomaWallet | apps/src/lib/cli.rs:298-302 | the wallet commands agree with the reading of `key` and `address`, and are the result bound for the selected one |
| Cmds.ParseAnomaWalletSub | apps/src/lib/cli.rs:308-312 | `wallet` agrees with the reading of its node, the path prefixed by `wallet`; below it the result is that of the selected child |
| Cmds.ParseUtils | apps/src/lib/cli.rs:1118-1132 | `utils` agrees with the reading of its four children, and is the result bound for the selected one |
| Cmds.ParseWithCtx | apps/src/lib/cli.rs:229-236 | a sibling wrapped as a command that needs a context keeps its outcome and its value |
| Cmds.ClientSimpleTxAgree | apps/src/lib/cli.rs:175-180 | each sibling bound for the five simple transactions agrees with the reading of the command registered at its position |
| Cmds.ClientProposalTxAgree | apps/src/lib/cli.rs:181-184 | each sibling bound for the two proposal transactions agrees with the reading of the command registered at its position |
| Cmds.ClientPosAgree | apps/src/lib/cli.rs:185-187 | each sibling bound for bond, unbond and withdraw agrees with the reading of the command registered at its position |
| Cmds.ClientChainQueryAgree | apps/src/lib/cli.rs:188-191 | each sibling bound for the epoch, block, balance and bonds queries agrees with the reading of the command registered at its position |
| Cmds.ClientStakeQueryAgree | apps/src/lib/cli.rs:192-196 | each sibling bound for the voting-power, slashes, tx-result and raw-bytes queries agrees with the reading of the command registered at its position |
| Cmds.ClientGovQueryAgree | apps/src/lib/cli.rs:197-201 | each sibling bound for the proposal, proposal-result and protocol-parameters queries agrees with the reading of the command registered at its position |
| Cmds.ClientUtilsAgree | apps/src/lib/cli.rs:202-202 | each sibling bound for `utils` agrees with the reading of the command registered at its position |
| Cmds.ClientSimpleTxTokens | apps/src/lib/cli.rs:144-149 | the five simple transactions are registered under these tokens, in this order |
| Cmds.ClientProposalTxTokens | apps/src/lib/cli.rs:150-152 | the two proposal transactions are registered under these tokens, in this order |
| Cmds.ClientPosTokens | apps/src/lib/cli.rs:153-156 | bond, unbond and withdraw are registered under these tokens, in this order |
| Cmds.ClientChainQueryTokens | apps/src/lib/cli.rs:157-161 | the epoch, block, balance and bonds queries are registered under these tokens, in this order |
| Cmds.ClientStakeQueryTokens | apps/src/lib/cli.rs:162-165 | the voting-power, slashes, tx-result and raw-bytes queries are registered under these tokens, in this order |
| Cmds.ClientGovQueryTokens | apps/src/lib/cli.rs:166-168 | the proposal, proposal-result and protocol-parameters queries are registered under these tokens, in this order |
| Cmds.ClientUtilsTokens | apps/src/lib/cli.rs:169-170 | `utils` are registered under these tokens, in this order |
| Cmds.ClientSiblingsAgree | apps/src/lib/cli.rs:173-224 | each of the 22 siblings the client binds agrees with the reading of the command registered at its position |
| Cmds.ParseAnomaClient | apps/src/lib/cli.rs:173-224 | the client chain agrees with the reading of the 22 registered client commands, and is the result bound for the selected one, wherever it sits |
| Cmds.ParseAnomaClientSub | apps/src/lib/cli.rs:242-246 | `client` agrees with the reading of its node, the path prefixed by `client`; below it the result is that of the selected child |
| Cmds.AnomaBinaryAgree | apps/src/lib/cli.rs:68-71 | each sibling bound for `node`, `client`, `wallet` and `ledger` agrees with the reading of the command registered at its position |
| Cmds.AnomaTxAgree | apps/src/lib/cli.rs:72-78 | each sibling bound for the five top-level transactions agrees with the reading of the command registered at its position |
| Cmds.AnomaSiblingsAgree | apps/src/lib/cli.rs:67-87 | each of the nine siblings the root binds agrees with the reading of the command registered at its position |
| Cmds.ParseAnoma | apps/src/lib/cli.rs:67-87 | the top-level chain agrees with the reading of the nine registered commands, and is the result bound for the selected one, wherever it sits |
| Cmds.WithContextTokenNotUtils | apps/src/lib/cli.rs:229-236 | no command that needs a context is `utils` |
| Cmds.ClientRouting | apps/src/lib/cli.rs:173-224 | a present client command was selected by a registered token; it needs no context exactly when that token is `utils`, and otherwise names the selected token |
| Cmds.ClientTokens | apps/src/lib/cli.rs:142-171 | the client registers these 22 tokens, in this order |
| Cmds.ClientTokenNamesDistinct | apps/src/lib/cli.rs:142-171 | the 22 client tokens are pairwise different |
| Cmds.ClientTokensDistinct | apps/src/lib/cli.rs:142-171 | no two client commands share a token |
| Cmds.AnomaTokens | apps/src/lib/cli.rs:55-65 | the `anoma` binary registers these nine tokens, in this order |
| Cmds.AnomaTokenNamesDistinct | apps/src/lib/cli.rs:55-65 | the nine top-level tokens are pairwise different |
| Cmds.AnomaTokensDistinct | apps/src/lib/cli.rs:55-65 | no two top-level commands share a token |
| Cmds.NodeUniqueSiblings | apps/src/lib/cli.rs:99-126 | under `node`, `ledger` and `config` no two children share a token |
| Cmds.WalletUniqueSiblings | apps/src/lib/cli.rs:292-321 | under `wallet`, `key` and `address` no two children share a token |
| Cmds.ClientUniqueSiblings | apps/src/lib/cli.rs:142-171 | under every client command no two children share a token |
| Cmds.AnomaUniqueSiblings | apps/src/lib/cli.rs:55-65 | under every top-level command no two children share a token |
| Cmds.ClientWellDefaulted | apps/src/lib/cli.rs:142-171 | every client command with children either requires one or names a default child |
| Cmds.NodeWellDefaulted | apps/src/lib/cli.rs:565-587 | under `node` and `ledger`, a command with children either requires one or names a default child (`ledger` names `run`) |
| Cmds.WalletWellDefaulted | apps/src/lib/cli.rs:292-321 | every wallet command with children requires one |
| Cmds.AnomaWellDefaulted | apps/src/lib/cli.rs:55-65 | every top-level command with children either requires one or names a default child |
| Cmds.ClientSelected | apps/src/lib/cli.rs:173-224 | with the token at position k selected, the client parse is the result bound for child k and agrees with that child's own reading |
| Cmds.AnomaSelected | apps/src/lib/cli.rs:67-87 | with the token at position k selected, the top-level parse is the result bound for child k and agrees with that child's own reading |
| Cmds.CommissionRateNotRegistered | apps/src/lib/cli.rs:142-171 | `commission-rate` is not among the client's registered tokens |
| Cmds.CommissionRateNeverAgrees | apps/src/lib/cli.rs:276-276 | no parse that agrees with the client reading yields the commission-rate command |
| Cmds.CommissionRateUnreachable | apps/src/lib/cli.rs:1006-1013 | the client parse never yields the commission-rate command, whatever the input |
| Cmds.CommissionRateRejected | apps/src/lib/cli.rs:1006-1013 | clap rejects `commission-rate` as a client subcommand |
| Cli.AnomaCli | apps/src/lib/cli.rs:2684-2697 | help and exit 2 exactly when no registered command resolves; a present parse is returned as is, paired with the raw top-level token it was selected by; a parse exit is returned unchanged |
| Cli.AnomaCliAccepted | apps/src/lib/cli.rs:2738-2744 | on any input the `anoma` app accepts, `anoma_cli` never falls through to the help |
| Cli.ClientCli | apps/src/lib/cli.rs:2709-2731 | help and exit 2 exactly when no client command resolves; otherwise the command's exit, the global arguments' exit, a `utils` command with the global arguments, or a command with the context loaded from those arguments (or the loader's error); a returned command is the one the client parse produced, and a present parse with valid global arguments always returns |
| Cli.UtilsNeedNoContext | apps/src/lib/cli.rs:2721-2723 | a `utils` command does not depend on the context loader |
| Cli.ClientCliAccepted | apps/src/lib/cli.rs:2754-2760 | on any input the client app accepts, `anoma_client_cli` never falls through to the help |
| Cli.ClientAppRegistersTwice | apps/src/lib/cli.rs:2709-2711 | as written the client app repeats every token (e.g. `tx` at positions 0 and 22), although what clap accepts and what resolves stay the same |
| Cli.ClientAppRegistersOnce | apps/src/lib/cli.rs:2754-2760 | the app as built by `anoma_client_app` registers each token once, under every node |
| Cli.AnomaAppUnique | apps/src/lib/cli.rs:2738-2744 | the `anoma` app registers each token once, under every node |

## Left out

- clap itself is not modelled: tokenising the process arguments, its own error exits, `--help`, `--version`, help text and `display_order`. The model starts from the matches clap produces. `Clap.Accepts` states which matches clap lets through; it is not derived from clap's code.
- The descriptor types (`Arg`, `ArgOpt`, `ArgFlag`, `ArgDefault`, `ArgDefaultFromCtx`) live in the CLI `utils` module, which is not part of this model. `Descriptors` states what reading each one yields, and the records rely on that.
- `FromStr` and `Display` of the foreign types are `Codec` parameters. A round trip assumes `decode(encode(v)) == Some(v)`.
- `TendermintMode::from` is the parameter `modeFrom`.
- Defaults written as literals and then unwrapped are assumed to decode (`Args.LiteralsParse`): the ledger address `127.0.0.1:26657` and the consensus timeout.
- The environment is a map parameter. `DEFAULT_BASE_DIR` is taken as `.anoma`, as the help text of `base-dir` says; the config module that defines it is not part of this model.
- `wasm-dir`: the help text mentions `ANOMA_WASM_DIR`, but `Global::parse` reads only the flag. The model follows the code.
- `Context::new` is the `load` parameter of `Cli.ClientCli`.
- `anoma_node_cli` and `anoma_wallet_cli` go through `parse_or_print_help`, which lives in `utils` and is not part of this model. The node and wallet command trees themselves are modelled.
- A newtype that wraps a single record (for example `TxCustom(args::TxCustom)`) is flattened into that record.
- Printing and the process exit are outcomes: `Help(2)` and `ArgExit`.
- Cli.ClientAppRegistersTwice: what clap does with a subcommand registered twice (keep the first, keep the last, or a debug assertion) is not modelled. The lemma shows that under a first-match reading the duplicate changes neither acceptance nor dispatch.

## Findings

| source | as written | input that shows it | evidently intended | confidence | as-written member | corrected member |
|---|---|---|---|---|---|---|
| apps/src/lib/cli.rs:2709-2711 | `anoma_client_cli` calls `AnomaClient::add_sub` on the app from `anoma_client_app`, and that app has already called it (line 2759). Every client subcommand is therefore registered twice. | any `anomac` invocation, e.g. `anomac tx`: `tx` is registered at positions 0 and 22 of the client's children | each client subcommand is registered once | not executed | `Cli.ClientAppRegistersTwice` | `Cli.ClientAppRegistersOnce` |
