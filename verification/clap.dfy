/**
 * The part of `clap` that the command layer consumes, taken as given input.
 *
 * `Matches` is what `App::get_matches` hands back at one level of the command
 * line: the raw text of every argument supplied at that level (a flag counts as
 * supplied when its name is a key) and the subcommand selected below it.
 *
 * `CmdDef` is what the `def()`/`add_sub()` builder chains produce, minus help
 * text: a token, the argument descriptors with their declared conflicts, the
 * argument groups, the child commands, whether the node carries
 * `SubcommandRequiredElseHelp`, and the child its parse falls back to when no
 * child is selected.
 *
 * Two readings of a `CmdDef` tree live here: `ResolveAt`, a table-driven
 * reference for which token path a matched input selects, and `Accepts`, the
 * inputs clap itself lets through (tokenising and the enforcement are clap's;
 * here they are a predicate).
 */
module Clap {
  import opened Wrappers

  datatype Matches = Matches(values: map<string, string>, sub: Option<SubMatch>)

  datatype SubMatch = SubMatch(name: string, matches: Matches)

  /** `ArgMatches::subcommand_matches`: the selected child's matches when its name is `name`. */
  function SubcommandMatches(m: Matches, name: string): Option<Matches>
  {
    if m.sub.Some? && m.sub.value.name == name then Some(m.sub.value.matches) else None
  }

  /** `ArgMatches::subcommand` with the name kept as the raw token. */
  function SubcommandName(m: Matches): Option<string>
  {
    if m.sub.Some? then Some(m.sub.value.name) else None
  }

  /** The kinds of descriptor: `arg`, `arg_opt`/`.opt()`, `flag`, `arg_default`/`.default()`, `arg_default_from_ctx`. */
  datatype Kind = Required | Optional | Flag | Defaulted | DefaultedFromContext

  datatype ArgDef = ArgDef(name: string, kind: Kind, conflicts: seq<string>)

  /** An `ArgGroup`; clap's default for `multiple` is false (at most one member). */
  datatype ArgGroup = ArgGroup(name: string, members: seq<string>, required: bool, multiple: bool)

  datatype CmdDef = CmdDef(
    token: string,
    args: seq<ArgDef>,
    groups: seq<ArgGroup>,
    subs: seq<CmdDef>,
    subRequired: bool,
    defaultSub: Option<string>)

  function Names(args: seq<ArgDef>): set<string>
  {
    set a | a in args :: a.name
  }

  /** The children's tokens, in registration order. */
  function Tokens(cs: seq<CmdDef>): (t: seq<string>)
    ensures |t| == |cs| && forall i :: 0 <= i < |cs| ==> t[i] == cs[i].token
  {
    seq(|cs|, i requires 0 <= i < |cs| => cs[i].token)
  }

  predicate DistinctTokens(cs: seq<CmdDef>)
  {
    forall i, j :: 0 <= i < j < |cs| ==> cs[i].token != cs[j].token
  }

  /** The child at position `k` of `cs` is the one whose token is selected in `m`. */
  predicate SelectedAt(m: Matches, cs: seq<CmdDef>, k: int)
  {
    0 <= k < |cs| && m.sub.Some? && cs[k].token == m.sub.value.name
  }

  /** No string occurs twice. */
  predicate Distinct(t: seq<string>)
  {
    forall i, j :: 0 <= i < j < |t| ==> t[i] != t[j]
  }

  /** Every child satisfies `UniqueSiblings`. */
  predicate AllUniqueSiblings(cs: seq<CmdDef>)
  {
    forall i :: 0 <= i < |cs| ==> UniqueSiblings(cs[i])
  }

  /** Every child satisfies `WellDefaulted`. */
  predicate AllWellDefaulted(cs: seq<CmdDef>)
  {
    forall i :: 0 <= i < |cs| ==> WellDefaulted(cs[i])
  }

  /** Sibling tokens are pairwise distinct under every node of the tree. */
  predicate UniqueSiblings(d: CmdDef)
    decreases d
  {
    DistinctTokens(d.subs) && forall i :: 0 <= i < |d.subs| ==> UniqueSiblings(d.subs[i])
  }

  /** A node that has children but does not demand one names a default child. */
  predicate WellDefaulted(d: CmdDef)
    decreases d
  {
    && (d.subs != [] && !d.subRequired ==> d.defaultSub.Some?)
    && forall i :: 0 <= i < |d.subs| ==> WellDefaulted(d.subs[i])
  }

  lemma TokensAppend(a: seq<CmdDef>, b: seq<CmdDef>)
    ensures Tokens(a + b) == Tokens(a) + Tokens(b)
  {
  }

  lemma DistinctByTokens(cs: seq<CmdDef>)
    requires Distinct(Tokens(cs))
    ensures DistinctTokens(cs)
  {
    forall i, j | 0 <= i < j < |cs|
      ensures cs[i].token != cs[j].token
    {
      assert Tokens(cs)[i] != Tokens(cs)[j];
    }
  }

  lemma AllUniqueSiblingsAppend(a: seq<CmdDef>, b: seq<CmdDef>)
    requires AllUniqueSiblings(a) && AllUniqueSiblings(b)
    ensures AllUniqueSiblings(a + b)
  {
    forall i | 0 <= i < |a + b|
      ensures UniqueSiblings((a + b)[i])
    {
      if i >= |a| {
        assert (a + b)[i] == b[i - |a|];
      }
    }
  }

  lemma AllWellDefaultedAppend(a: seq<CmdDef>, b: seq<CmdDef>)
    requires AllWellDefaulted(a) && AllWellDefaulted(b)
    ensures AllWellDefaulted(a + b)
  {
    forall i | 0 <= i < |a + b|
      ensures WellDefaulted((a + b)[i])
    {
      if i >= |a| {
        assert (a + b)[i] == b[i - |a|];
      }
    }
  }

  /**
   * Reference reading of a tree: the token path that node `d` resolves to when
   * its parent's matches are `pm`. None when `d`'s token is not the selected one
   * or when nothing below it resolves and it has no default child.
   */
  function ResolveAt(d: CmdDef, pm: Matches): Option<seq<string>>
    decreases d
  {
    match SubcommandMatches(pm, d.token)
    case None => None
    case Some(m) =>
      if d.subs == [] then Some([d.token])
      else
        match ResolveSubs(d.subs, m)
        case Some(p) => Some([d.token] + p)
        case None => if d.defaultSub.Some? then Some([d.token, d.defaultSub.value]) else None
  }

  /** The first child, in declaration order, that resolves against `m`. */
  function ResolveSubs(subs: seq<CmdDef>, m: Matches): Option<seq<string>>
    decreases subs
  {
    if subs == [] then None
    else
      match ResolveAt(subs[0], m)
      case Some(p) => Some(p)
      case None => ResolveSubs(subs[1..], m)
  }

  /** Argument constraints clap enforces for one node, over the names supplied at that level. */
  predicate Admits(args: seq<ArgDef>, groups: seq<ArgGroup>, supplied: set<string>)
  {
    && supplied <= Names(args)
    && RequiredIn(args, supplied)
    && ConflictFree(args, supplied)
    && GroupsHold(groups, supplied)
  }

  predicate RequiredIn(args: seq<ArgDef>, supplied: set<string>)
  {
    forall a :: a in args && a.kind == Required ==> a.name in supplied
  }

  predicate ConflictFree(args: seq<ArgDef>, supplied: set<string>)
  {
    forall a, b :: a in args && b in a.conflicts ==> !(a.name in supplied && b in supplied)
  }

  predicate GroupsHold(groups: seq<ArgGroup>, supplied: set<string>)
  {
    forall g :: g in groups ==> GroupHolds(g, supplied)
  }

  predicate GroupHolds(g: ArgGroup, supplied: set<string>)
  {
    && (g.required ==> exists x :: x in g.members && x in supplied)
    && (!g.multiple ==> forall x, y :: x in g.members && y in g.members && x in supplied && y in supplied ==> x == y)
  }

  /** The matched inputs clap lets through for node `d`, given `d`'s own matches `m`. */
  predicate Accepts(d: CmdDef, m: Matches)
    decreases d
  {
    && Admits(d.args, d.groups, m.values.Keys)
    && if d.subs == [] then m.sub.None?
       else match m.sub
         case None => !d.subRequired
         case Some(s) => AcceptsSub(d.subs, s)
  }

  predicate AcceptsSub(subs: seq<CmdDef>, s: SubMatch)
    decreases subs
  {
    && subs != []
    && ((subs[0].token == s.name && Accepts(subs[0], s.matches)) || AcceptsSub(subs[1..], s))
  }

  /** Reading a concatenation of children: the first run's reading, unless it resolves nothing. */
  lemma {:induction false} ResolveSubsAppend(cs1: seq<CmdDef>, cs2: seq<CmdDef>, m: Matches)
    ensures ResolveSubs(cs1 + cs2, m) == if ResolveSubs(cs1, m).Some? then ResolveSubs(cs1, m) else ResolveSubs(cs2, m)
    decreases cs1
  {
    if cs1 == [] {
      assert cs1 + cs2 == cs2;
    } else {
      assert (cs1 + cs2)[1..] == cs1[1..] + cs2;
      ResolveSubsAppend(cs1[1..], cs2, m);
    }
  }

  /** A resolved path starts with the token selected at that level, which is one of the children's. */
  lemma {:induction false} ResolveSubsHead(subs: seq<CmdDef>, m: Matches)
    requires ResolveSubs(subs, m).Some?
    ensures m.sub.Some?
    ensures ResolveSubs(subs, m).value != [] && ResolveSubs(subs, m).value[0] == m.sub.value.name
    ensures exists i :: 0 <= i < |subs| && subs[i].token == m.sub.value.name
    decreases subs
  {
    if ResolveAt(subs[0], m).None? {
      ResolveSubsHead(subs[1..], m);
      var i :| 0 <= i < |subs[1..]| && subs[1..][i].token == m.sub.value.name;
      assert subs[i + 1].token == m.sub.value.name;
    } else {
      assert subs[0].token == m.sub.value.name;
    }
  }

  /** clap only accepts a subcommand whose name one of the registered children carries. */
  lemma {:induction false} AcceptsSubHead(subs: seq<CmdDef>, s: SubMatch)
    requires AcceptsSub(subs, s)
    ensures exists i :: 0 <= i < |subs| && subs[i].token == s.name
    decreases subs
  {
    if subs[0].token != s.name {
      AcceptsSubHead(subs[1..], s);
      var i :| 0 <= i < |subs[1..]| && subs[1..][i].token == s.name;
      assert subs[i + 1].token == s.name;
    }
  }

  /** clap accepts a child of a concatenation exactly when it accepts one of either run. */
  lemma {:induction false} AcceptsSubAppend(a: seq<CmdDef>, b: seq<CmdDef>, s: SubMatch)
    ensures AcceptsSub(a + b, s) <==> AcceptsSub(a, s) || AcceptsSub(b, s)
    decreases a
  {
    if a == [] {
      assert a + b == b;
    } else {
      assert (a + b)[1..] == a[1..] + b;
      AcceptsSubAppend(a[1..], b, s);
    }
  }

  /** A token no child carries is never selected: no reading starts with it, and clap rejects it. */
  lemma Unregistered(subs: seq<CmdDef>, m: Matches, t: string, s: SubMatch)
    requires t !in Tokens(subs)
    ensures m.sub.Some? && m.sub.value.name == t ==> ResolveSubs(subs, m).None?
    ensures s.name == t ==> !AcceptsSub(subs, s)
  {
    if m.sub.Some? && m.sub.value.name == t && ResolveSubs(subs, m).Some? {
      ResolveSubsHead(subs, m);
    }
    if s.name == t && AcceptsSub(subs, s) {
      AcceptsSubHead(subs, s);
    }
  }

  /**
   * Under distinct tokens the reading is that of the selected child wherever it
   * was registered: the registration order does not matter.
   */
  lemma {:induction false} ResolveSelected(subs: seq<CmdDef>, m: Matches, k: nat)
    requires DistinctTokens(subs) && k < |subs|
    requires m.sub.Some? && subs[k].token == m.sub.value.name
    ensures ResolveSubs(subs, m) == ResolveAt(subs[k], m)
    decreases subs
  {
    assert DistinctTokens(subs[1..]) by {
      forall i, j | 0 <= i < j < |subs[1..]|
        ensures subs[1..][i].token != subs[1..][j].token
      {
        assert subs[1..][i] == subs[i + 1] && subs[1..][j] == subs[j + 1];
      }
    }
    if k > 0 {
      ResolveSelected(subs[1..], m, k - 1);
      assert subs[1..][k - 1] == subs[k];
      assert subs[0].token != m.sub.value.name;
    } else if ResolveSubs(subs[1..], m).Some? {
      ResolveSubsHead(subs[1..], m);
      assert false;
    }
  }

  /**
   * Nothing clap accepts is dropped: in a well-defaulted tree every accepted
   * selection resolves to a path.
   */
  lemma {:induction false} AcceptedResolves(d: CmdDef, pm: Matches)
    requires WellDefaulted(d)
    requires pm.sub.Some? && pm.sub.value.name == d.token && Accepts(d, pm.sub.value.matches)
    ensures ResolveAt(d, pm).Some?
    decreases d
  {
    var m := pm.sub.value.matches;
    if d.subs != [] && m.sub.Some? {
      AcceptedSubResolves(d.subs, m);
    }
  }

  lemma {:induction false} AcceptedSubResolves(subs: seq<CmdDef>, m: Matches)
    requires forall i :: 0 <= i < |subs| ==> WellDefaulted(subs[i])
    requires m.sub.Some? && AcceptsSub(subs, m.sub.value)
    ensures ResolveSubs(subs, m).Some?
    decreases subs
  {
    var s := m.sub.value;
    if subs[0].token == s.name && Accepts(subs[0], s.matches) {
      AcceptedResolves(subs[0], m);
    } else {
      AcceptedSubResolves(subs[1..], m);
    }
  }

  /** Constraints of a concatenated descriptor list are those of its parts. */
  lemma AppendConstraints(x: seq<ArgDef>, y: seq<ArgDef>, s: set<string>)
    ensures RequiredIn(x + y, s) <==> RequiredIn(x, s) && RequiredIn(y, s)
    ensures ConflictFree(x + y, s) <==> ConflictFree(x, s) && ConflictFree(y, s)
  {
  }
}
