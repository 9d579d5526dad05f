/**
 * The value types the argument records are built from.
 *
 * Their text formats belong to other crates (`namada::types`, `rust_decimal`,
 * the Tendermint configuration, `std::net`), so each fallible `FromStr` is a
 * `Codec` parameter: a partial `decode` and a rendering `encode`. `Lawful`
 * says that decoding what was rendered gives the value back, which is all the
 * round-trip lemmas about the records need.
 */
module Domain {
  import opened Wrappers

  datatype Codec<!T(!new)> = Codec(decode: string -> Option<T>, encode: T -> string)
  {
    ghost predicate Lawful()
    {
      forall v :: decode(encode(v)) == Some(v)
    }
  }

  /** `String` and `PathBuf` parse from any text. */
  function Text(): Codec<string>
  {
    Codec(s => Some(s), s => s)
  }

  /** A value kept as raw text until a `Context` resolves it (`FromContext<T>`). */
  datatype FromContext<T(!new)> = FromContext(raw: string)

  type WalletAddress = FromContext<Address>
  type WalletKeypair = FromContext<Keypair>
  type WalletPublicKey = FromContext<PublicKey>

  /** `FromContext::from_str` never fails: the text is resolved later. */
  function Contextual<T(!new)>(): Codec<FromContext<T>>
  {
    Codec(s => Some(FromContext(s)), (v: FromContext<T>) => v.raw)
  }

  type Path = string

  newtype u64 = x: int | 0 <= x < 0x1_0000_0000_0000_0000

  datatype ChainId = ChainId(id: string)
  datatype ChainIdPrefix = ChainIdPrefix(prefix: string)
  datatype Address = Address(encoded: string)
  datatype Keypair = Keypair(encoded: string)
  datatype PublicKey = PublicKey(encoded: string)
  /** `token::Amount`, counted in micro units. */
  datatype Amount = Amount(micro: nat)
  /** `GasLimit`, obtained from an amount with `.into()`. */
  datatype GasLimit = GasLimit(micro: nat)
  datatype Decimal = Decimal(text: string)
  datatype Epoch = Epoch(n: u64)
  datatype Timeout = Timeout(text: string)
  datatype SocketAddr = SocketAddr(text: string)
  datatype TendermintAddress = TendermintAddress(text: string)
  datatype StorageKey = StorageKey(text: string)
  datatype ProposalVote = Yay | Nay
  datatype SchemeType = Ed25519 | Secp256k1
  datatype TendermintMode = Validator | Full | Seed

  function GasLimitOf(a: Amount): GasLimit
  {
    GasLimit(a.micro)
  }

  /** The foreign parsers, one per fallible value type, plus `TendermintMode::from`. */
  datatype Codecs = Codecs(
    chainId: Codec<ChainId>,
    chainIdPrefix: Codec<ChainIdPrefix>,
    address: Codec<Address>,
    publicKey: Codec<PublicKey>,
    amount: Codec<Amount>,
    decimal: Codec<Decimal>,
    epoch: Codec<Epoch>,
    timeout: Codec<Timeout>,
    socketAddr: Codec<SocketAddr>,
    tendermintAddress: Codec<TendermintAddress>,
    storageKey: Codec<StorageKey>,
    vote: Codec<ProposalVote>,
    scheme: Codec<SchemeType>,
    proposalId: Codec<u64>,
    modeFrom: string -> TendermintMode)
  {
    ghost predicate Lawful()
    {
      && chainId.Lawful() && chainIdPrefix.Lawful() && address.Lawful() && publicKey.Lawful()
      && amount.Lawful() && decimal.Lawful() && epoch.Lawful() && timeout.Lawful()
      && socketAddr.Lawful() && tendermintAddress.Lawful() && storageKey.Lawful()
      && vote.Lawful() && scheme.Lawful() && proposalId.Lawful()
    }
  }
}
