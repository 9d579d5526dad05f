/**
 * The four descriptor kinds and what reading one from a `Matches` yields.
 *
 * Their implementations live in the CLI `utils` module, which is not part of
 * this model; the functions below are the contract the records rely on: a
 * required value that is missing, or any supplied value that does not decode,
 * stops the parse with an `ArgError` naming the argument (the process then
 * exits with clap's message), and a default is used only when the argument is
 * absent.
 */
module Descriptors {
  import opened Wrappers
  import opened Clap
  import opened Domain

  datatype ArgError = Missing(name: string) | Malformed(name: string, raw: string)

  /** `e` describes `m` truthfully: the named argument is absent, or holds exactly `raw`. */
  predicate Faulty(e: ArgError, m: Matches)
  {
    match e
    case Missing(n) => n !in m.values
    case Malformed(n, raw) => n in m.values && m.values[n] == raw
  }

  /** `Arg<T>::parse`. */
  function ReadArg<T(!new)>(m: Matches, name: string, c: Codec<T>): Result<T, ArgError>
  {
    if name !in m.values then Err(Missing(name))
    else
      match c.decode(m.values[name])
      case Some(v) => Ok(v)
      case None => Err(Malformed(name, m.values[name]))
  }

  /** `ArgOpt<T>::parse`. */
  function ReadOpt<T(!new)>(m: Matches, name: string, c: Codec<T>): Result<Option<T>, ArgError>
  {
    if name !in m.values then Ok(None)
    else
      match c.decode(m.values[name])
      case Some(v) => Ok(Some(v))
      case None => Err(Malformed(name, m.values[name]))
  }

  /** `ArgOpt<T>::parse` for a `T` whose `FromStr` cannot fail (`String`, `PathBuf`). */
  function ReadOptRaw(m: Matches, name: string): Option<string>
  {
    if name in m.values then Some(m.values[name]) else None
  }

  /** `ArgOpt<FromContext<T>>::parse`: the text is kept for the context to resolve. */
  function ReadOptCtx<T(!new)>(m: Matches, name: string): Option<FromContext<T>>
  {
    if name in m.values then Some(FromContext(m.values[name])) else None
  }

  /** `ArgFlag::parse`. */
  function ReadFlag(m: Matches, name: string): bool
  {
    name in m.values
  }

  /** `ArgDefault<T>::parse`; a malformed value is an error, never replaced by the default. */
  function ReadDefault<T(!new)>(m: Matches, name: string, c: Codec<T>, default: T): Result<T, ArgError>
  {
    if name !in m.values then Ok(default)
    else
      match c.decode(m.values[name])
      case Some(v) => Ok(v)
      case None => Err(Malformed(name, m.values[name]))
  }

  /** `ArgDefault<PathBuf>::parse`. */
  function ReadDefaultRaw(m: Matches, name: string, default: string): string
  {
    if name in m.values then m.values[name] else default
  }

  /** `ArgDefaultFromCtx<T>::parse`: the raw text, or the default text, for the context to resolve. */
  function ReadDefaultFromCtx<T(!new)>(m: Matches, name: string, default: string): FromContext<T>
  {
    FromContext(if name in m.values then m.values[name] else default)
  }

  // What a record needs of its input: every argument present where required,
  // and every supplied fallible value decodable.

  predicate Present(m: Matches, name: string)
  {
    name in m.values
  }

  predicate Decodes<T(!new)>(m: Matches, name: string, c: Codec<T>)
  {
    name in m.values ==> c.decode(m.values[name]).Some?
  }

  // How a user supplies a given field value: by typing its rendering, by
  // leaving an optional argument out, by giving a flag or not.

  ghost predicate Has<T(!new)>(m: Matches, name: string, v: T, c: Codec<T>)
  {
    name in m.values && m.values[name] == c.encode(v)
  }

  ghost predicate HasOpt<T(!new)>(m: Matches, name: string, v: Option<T>, c: Codec<T>)
  {
    if v.Some? then Has(m, name, v.value, c) else name !in m.values
  }

  ghost predicate HasFlag(m: Matches, name: string, b: bool)
  {
    b <==> name in m.values
  }

  /** Either typed explicitly, or left out when `v` is the default. */
  ghost predicate HasDefault<T(!new)>(m: Matches, name: string, v: T, c: Codec<T>, default: T)
  {
    Has(m, name, v, c) || (name !in m.values && v == default)
  }

  // Reading back what was supplied.

  lemma ReadArgSupplied<T(!new)>(m: Matches, name: string, v: T, c: Codec<T>)
    requires c.Lawful() && Has(m, name, v, c)
    ensures ReadArg(m, name, c) == Ok(v)
  {
    assert c.decode(c.encode(v)) == Some(v);
  }

  lemma ReadOptSupplied<T(!new)>(m: Matches, name: string, v: Option<T>, c: Codec<T>)
    requires c.Lawful() && HasOpt(m, name, v, c)
    ensures ReadOpt(m, name, c) == Ok(v)
  {
    if v.Some? {
      assert c.decode(c.encode(v.value)) == Some(v.value);
    }
  }

  lemma ReadDefaultSupplied<T(!new)>(m: Matches, name: string, v: T, c: Codec<T>, default: T)
    requires c.Lawful() && HasDefault(m, name, v, c, default)
    ensures ReadDefault(m, name, c, default) == Ok(v)
  {
    if name in m.values {
      assert c.decode(c.encode(v)) == Some(v);
    }
  }
}
