/**
 * How sibling parses combine.
 *
 * A `parse` in `mod cmds` yields `Option<Self>`, but reading a record's
 * descriptors can also end the process with an argument error. `Parsed` keeps
 * the three outcomes apart. The sibling results are bound with `let` before the
 * `.or` chain runs, so every sibling is evaluated: an exit in any of them ends
 * the process, and only otherwise does the first present result win.
 *
 * `Agrees` ties a hand-written parse result to the reference reading of the
 * command tree (`Clap.ResolveAt`): absent exactly when the reference resolves
 * nothing, and a present command names exactly the resolved token path.
 */
module Choice {
  import opened Wrappers
  import opened Clap
  import opened Descriptors

  datatype Parsed<+T> = Absent | Found(value: T) | Exit(error: ArgError)

  /** A record parse, once its node is selected: the record, or the exit its descriptors cause. */
  function Lift<T>(r: Result<T, ArgError>): (p: Parsed<T>)
    ensures p.Absent? == false
    ensures r.Ok? <==> p.Found?
    ensures p.Found? ==> p.value == r.value
    ensures p.Exit? ==> p.error == r.error
  {
    match r
    case Ok(v) => Found(v)
    case Err(e) => Exit(e)
  }

  /** `Option::map` into the parent's variant. */
  function Map<T, U>(p: Parsed<T>, f: T -> U): (r: Parsed<U>)
    ensures r.Absent? <==> p.Absent?
    ensures r.Found? <==> p.Found?
    ensures r.Found? ==> r.value == f(p.value)
    ensures r.Exit? ==> r.error == p.error
  {
    match p
    case Absent => Absent
    case Found(v) => Found(f(v))
    case Exit(e) => Exit(e)
  }

  /**
   * `a.or(b)` over two sibling results that have both been evaluated: an exit
   * in either ends the process, otherwise the first present one wins.
   */
  function Or<T>(p: Parsed<T>, q: Parsed<T>): (r: Parsed<T>)
    ensures r.Exit? <==> p.Exit? || q.Exit?
    ensures r.Absent? <==> p.Absent? && q.Absent?
    ensures r.Found? ==> r == (if p.Found? then p else q)
  {
    match p
    case Exit(_) => p
    case Found(_) => if q.Exit? then q else p
    case Absent => q
  }

  /** A sibling chain `s[0].or(s[1]).or(...)` over results evaluated in order. */
  function FirstOf<T>(s: seq<Parsed<T>>): Parsed<T>
  {
    if s == [] then Absent else Or(s[0], FirstOf(s[1..]))
  }

  predicate Agrees<T>(p: Parsed<T>, r: Option<seq<string>>, path: T -> seq<string>)
  {
    && (p.Absent? <==> r.None?)
    && (p.Found? ==> r == Some(path(p.value)))
  }

  /** Each sibling agrees with the reading of the command registered at its position. */
  predicate EachAgrees<T>(s: seq<Parsed<T>>, cs: seq<CmdDef>, m: Matches, path: T -> seq<string>)
  {
    |s| == |cs| && forall i :: 0 <= i < |s| ==> Agrees(s[i], ResolveAt(cs[i], m), path)
  }

  /** The chain is absent only when every sibling is; it exits when any sibling exits. */
  lemma {:induction false} FirstOfOutcome<T>(s: seq<Parsed<T>>)
    ensures FirstOf(s).Absent? <==> forall i :: 0 <= i < |s| ==> s[i].Absent?
    ensures FirstOf(s).Exit? <==> exists i :: 0 <= i < |s| && s[i].Exit?
    ensures FirstOf(s).Found? ==> exists i :: 0 <= i < |s| && s[i] == FirstOf(s)
  {
    if s != [] {
      FirstOfOutcome(s[1..]);
      if FirstOf(s[1..]).Exit? {
        var i :| 0 <= i < |s[1..]| && s[1..][i].Exit?;
        assert s[i + 1].Exit?;
      }
      if FirstOf(s).Found? && !s[0].Found? {
        var i :| 0 <= i < |s[1..]| && s[1..][i] == FirstOf(s[1..]);
        assert s[i + 1] == FirstOf(s);
      }
      if forall i :: 0 <= i < |s[1..]| ==> s[1..][i].Absent? {
        assert forall i :: 1 <= i < |s| ==> s[i].Absent? by {
          forall i | 1 <= i < |s| ensures s[i].Absent? {
            assert s[i] == s[1..][i - 1];
          }
        }
      }
    }
  }

  /** When every other sibling is absent, the chain is the one that is not, wherever it sits. */
  lemma {:induction false} FirstOfSelected<T>(s: seq<Parsed<T>>, k: nat)
    requires k < |s|
    requires forall i :: 0 <= i < |s| && i != k ==> s[i].Absent?
    ensures FirstOf(s) == s[k]
  {
    if k == 0 {
      FirstOfOutcome(s[1..]);
      assert forall i :: 0 <= i < |s[1..]| ==> s[1..][i].Absent? by {
        forall i | 0 <= i < |s[1..]| ensures s[1..][i].Absent? {
          assert s[1..][i] == s[i + 1];
        }
      }
    } else {
      assert s[0].Absent?;
      FirstOfSelected(s[1..], k - 1);
    }
  }

  /**
   * A chain whose siblings each agree with the reference reading of their
   * node agrees with the reference reading of the parent's children.
   */
  lemma {:induction false} ChainAgrees<T>(s: seq<Parsed<T>>, cs: seq<CmdDef>, m: Matches, path: T -> seq<string>)
    requires EachAgrees(s, cs, m, path)
    ensures Agrees(FirstOf(s), ResolveSubs(cs, m), path)
  {
    if s != [] {
      assert forall i :: 0 <= i < |s[1..]| ==> Agrees(s[1..][i], ResolveAt(cs[1..][i], m), path) by {
        forall i | 0 <= i < |s[1..]| ensures Agrees(s[1..][i], ResolveAt(cs[1..][i], m), path) {
          assert s[1..][i] == s[i + 1] && cs[1..][i] == cs[i + 1];
        }
      }
      ChainAgrees(s[1..], cs[1..], m, path);
      assert Agrees(s[0], ResolveAt(cs[0], m), path);
    }
  }

  /** Sibling lists that agree one by one, each with its own command, still do when placed side by side. */
  lemma EachAgreesAppend<T>(s1: seq<Parsed<T>>, s2: seq<Parsed<T>>, cs1: seq<CmdDef>, cs2: seq<CmdDef>, m: Matches, path: T -> seq<string>)
    requires EachAgrees(s1, cs1, m, path) && EachAgrees(s2, cs2, m, path)
    ensures EachAgrees(s1 + s2, cs1 + cs2, m, path)
  {
    forall i | 0 <= i < |s1 + s2|
      ensures Agrees((s1 + s2)[i], ResolveAt((cs1 + cs2)[i], m), path)
    {
      if i < |s1| {
        assert (s1 + s2)[i] == s1[i] && (cs1 + cs2)[i] == cs1[i];
      } else {
        assert (s1 + s2)[i] == s2[i - |s1|] && (cs1 + cs2)[i] == cs2[i - |s1|];
      }
    }
  }

  /** Appending a present fallback: the chain's own outcome unless that is absent. */
  lemma {:induction false} FirstOfFallback<T>(s: seq<Parsed<T>>, v: T)
    ensures FirstOf(s + [Found(v)]) == if FirstOf(s).Absent? then Found(v) else FirstOf(s)
  {
    if s == [] {
      assert [Found(v)][1..] == [];
    } else {
      assert (s + [Found(v)])[1..] == s[1..] + [Found(v)];
      FirstOfFallback(s[1..], v);
    }
  }

  /** A single child: the chain is that child's reading. */
  lemma SingleAgrees<T>(p: Parsed<T>, d: CmdDef, m: Matches, path: T -> seq<string>)
    requires Agrees(p, ResolveAt(d, m), path)
    ensures Agrees(p, ResolveSubs([d], m), path)
  {
    assert [d][1..] == [];
  }

  /**
   * Below a selected node without a default child, the children's reading
   * prefixed by the node's token is the node's reading.
   */
  lemma NestAgrees<T>(d: CmdDef, pm: Matches, p: Parsed<T>, inner: T -> seq<string>, path: T -> seq<string>)
    requires d.subs != [] && d.defaultSub.None?
    requires SubcommandMatches(pm, d.token).Some?
    requires Agrees(p, ResolveSubs(d.subs, SubcommandMatches(pm, d.token).value), inner)
    requires forall x :: path(x) == [d.token] + inner(x)
    ensures Agrees(p, ResolveAt(d, pm), path)
  {
  }

  /**
   * Below a selected node with a default child, falling back to the value the
   * default names agrees with the node's reading.
   */
  lemma FallbackAgrees<T>(d: CmdDef, pm: Matches, s: seq<Parsed<T>>, v: T, inner: T -> seq<string>, path: T -> seq<string>)
    requires d.subs != [] && d.defaultSub.Some?
    requires SubcommandMatches(pm, d.token).Some?
    requires Agrees(FirstOf(s), ResolveSubs(d.subs, SubcommandMatches(pm, d.token).value), inner)
    requires forall x :: path(x) == [d.token] + inner(x)
    requires path(v) == [d.token, d.defaultSub.value]
    ensures Agrees(FirstOf(s + [Found(v)]), ResolveAt(d, pm), path)
  {
    FirstOfFallback(s, v);
  }

  /**
   * The chain's outcome is that of the sibling whose token is selected,
   * whatever its position: the `.or` order does not matter.
   */
  lemma ChainSelects<T>(s: seq<Parsed<T>>, cs: seq<CmdDef>, m: Matches, path: T -> seq<string>, k: nat)
    requires EachAgrees(s, cs, m, path) && DistinctTokens(cs) && SelectedAt(m, cs, k)
    ensures FirstOf(s) == s[k]
  {
    forall i | 0 <= i < |s| && i != k
      ensures s[i].Absent?
    {
      assert Agrees(s[i], ResolveAt(cs[i], m), path);
    }
    FirstOfSelected(s, k);
  }

  /**
   * A chain over distinct sibling tokens whose siblings each agree with their
   * own command: it agrees with the reading of all of them, and it is the
   * result bound for the selected sibling.
   */
  lemma ChainDispatch<T>(s: seq<Parsed<T>>, cs: seq<CmdDef>, m: Matches, path: T -> seq<string>)
    requires EachAgrees(s, cs, m, path) && DistinctTokens(cs)
    ensures Agrees(FirstOf(s), ResolveSubs(cs, m), path)
    ensures forall k :: SelectedAt(m, cs, k) ==> FirstOf(s) == s[k]
  {
    ChainAgrees(s, cs, m, path);
    forall k | SelectedAt(m, cs, k)
      ensures FirstOf(s) == s[k]
    {
      ChainSelects(s, cs, m, path, k);
    }
  }
}
