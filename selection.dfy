/** Target selection on the command line: `glob_target` and
    `glob_targets`. An action is identified by its position in the
    configured list, as the source compares actions by identity. */
module Selection {
  import opened Wrappers
  import opened PyStr
  import opened Actions

  /** `fnmatch.fnmatch(name, pattern)` for the wildcards `*` (any run of
      characters) and `?` (any one character); every other character
      matches itself, and the whole name must match. */
  function Match(name: string, pattern: string): bool
    decreases |pattern| + |name|
  {
    if pattern == [] then name == []
    else if pattern[0] == '*' then Match(name, pattern[1..]) || (name != [] && Match(name[1..], pattern))
    else name != [] && (pattern[0] == '?' || pattern[0] == name[0]) && Match(name[1..], pattern[1..])
  }

  predicate Literal(pattern: string)
  {
    '*' !in pattern && '?' !in pattern
  }

  /** A pattern without wildcards matches only itself. */
  lemma {:induction false} MatchLiteral(name: string, pattern: string)
    requires Literal(pattern)
    ensures Match(name, pattern) <==> name == pattern
    decreases |pattern|
  {
    if pattern != [] && name != [] {
      assert pattern[0] in pattern;
      assert forall c :: c in pattern[1..] ==> c in pattern;
      MatchLiteral(name[1..], pattern[1..]);
      if name[1..] == pattern[1..] && name[0] == pattern[0] {
        assert name == [name[0]] + name[1..];
        assert pattern == [pattern[0]] + pattern[1..];
      }
    }
  }

  /** `*` matches every name. */
  lemma {:induction false} MatchAll(name: string)
    ensures Match(name, "*")
    decreases |name|
  {
    assert "*"[1..] == [];
    if name != [] {
      MatchAll(name[1..]);
    }
  }

  /** A literal prefix followed by `*` matches the names that start with it. */
  lemma {:induction false} MatchPrefix(name: string, prefix: string)
    requires Literal(prefix)
    ensures Match(name, prefix + "*") <==> StartsWith(name, prefix)
    decreases |prefix|
  {
    if prefix == [] {
      assert prefix + "*" == "*";
      MatchAll(name);
    } else {
      assert (prefix + "*")[0] == prefix[0] && (prefix + "*")[1..] == prefix[1..] + "*";
      assert prefix[0] in prefix;
      assert forall c :: c in prefix[1..] ==> c in prefix;
      if name != [] {
        MatchPrefix(name[1..], prefix[1..]);
        if StartsWith(name[1..], prefix[1..]) && name[0] == prefix[0] {
          assert name[..|prefix|] == [name[0]] + name[1..][..|prefix| - 1];
          assert prefix == [prefix[0]] + prefix[1..];
        }
        if StartsWith(name, prefix) {
          assert name[..|prefix|][0] == prefix[0];
          assert name[1..][..|prefix| - 1] == name[..|prefix|][1..];
        }
      }
    }
  }

  /** The two forms of a target: a pattern for any field of an action, or
      `first:second`, a pattern for the server or prefix and one for the
      other fields. */
  datatype Query = Any(pattern: string) | Qualified(first: string, second: string)

  /** `identifier.split(":", 2)` unpacked into two parts: more than one
      colon fails with `ValueError`. */
  function QueryOf(identifier: string): (r: Result<Query>)
    ensures r.Err? <==> CountChar(identifier, ':') >= 2
    ensures r.Err? ==> r.error == ValueError
    ensures r == Ok(Any(identifier)) <==> CountChar(identifier, ':') == 0
  {
    if ':' in identifier then
      CountPresent(identifier, ':');
      var parts := Split(identifier, ':');
      if |parts| != 2 then Err(ValueError) else Ok(Qualified(parts[0], parts[1]))
    else
      CountAbsent(identifier, ':');
      Ok(Any(identifier))
  }

  lemma {:induction false} CountPresent(s: string, c: char)
    requires c in s
    ensures CountChar(s, c) >= 1
  {
    if s[0] != c {
      assert c in s[1..];
      CountPresent(s[1..], c);
    }
  }

  /** The fields of an action a target pattern is matched against, after
      the server and the prefix. */
  predicate FieldsMatch(a: Action, pattern: string)
  {
    || Match(a.name, pattern) || Match(FullName(a), pattern)
    || (a.target.Files? && Match(a.target.remoteFolder, pattern))
    || (a.target.Database? && (Match(a.target.database, pattern) || Match(DbType(a.target.kind), pattern)))
  }

  /** Whether `glob_target` keeps an action. */
  predicate Selects(a: Action, q: Query)
  {
    match q
    case Any(p) => Match(a.server, p) || Match(a.prefix, p) || FieldsMatch(a, p)
    case Qualified(first, second) => (Match(a.server, first) || Match(a.prefix, first)) && FieldsMatch(a, second)
  }

  /** The positions, among the first `n` actions, of those selected. */
  function Picked(actions: seq<Action>, q: Query, n: nat): seq<nat>
    requires n <= |actions|
  {
    if n == 0 then [] else Picked(actions, q, n - 1) + (if Selects(actions[n - 1], q) then [n - 1] else [])
  }

  /** `glob_target(conf, identifier)`. */
  function GlobTarget(actions: seq<Action>, identifier: string): Result<seq<nat>>
  {
    match QueryOf(identifier)
    case Err(e) => Err(e)
    case Ok(q) =>
      var r := Picked(actions, q, |actions|);
      if r == [] then Err(RuntimeError("Unknown target " + identifier)) else Ok(r)
  }

  lemma {:induction false} PickedSpec(actions: seq<Action>, q: Query, n: nat)
    requires n <= |actions|
    ensures forall k, k' :: 0 <= k < k' < |Picked(actions, q, n)| ==> Picked(actions, q, n)[k] < Picked(actions, q, n)[k']
    ensures forall k :: 0 <= k < |Picked(actions, q, n)| ==> Picked(actions, q, n)[k] < n
    ensures forall t: nat :: t in Picked(actions, q, n) <==> t < n && Selects(actions[t], q)
  {
    if n > 0 {
      PickedSpec(actions, q, n - 1);
    }
  }

  /** `glob_target` returns, in the configured order and once each, the
      actions the target selects; it fails when it selects none. */
  lemma {:induction false} GlobTargetSpec(actions: seq<Action>, identifier: string)
    requires QueryOf(identifier).Ok?
    ensures var q := QueryOf(identifier).value;
      var r := GlobTarget(actions, identifier);
      && (r.Err? <==> forall t: nat :: t < |actions| ==> !Selects(actions[t], q))
      && (r.Err? ==> r.error == RuntimeError("Unknown target " + identifier))
      && (r.Ok? ==> (forall k, k' :: 0 <= k < k' < |r.value| ==> r.value[k] < r.value[k'])
                    && forall t: nat :: t in r.value <==> t < |actions| && Selects(actions[t], q))
  {
    var q := QueryOf(identifier).value;
    PickedSpec(actions, q, |actions|);
    var r := Picked(actions, q, |actions|);
    if r != [] {
      assert r[0] in r;
    }
  }

  /** `glob_target`'s loop. */
  method GlobTargetLoop(actions: seq<Action>, identifier: string) returns (r: Result<seq<nat>>)
    ensures r == GlobTarget(actions, identifier)
  {
    var q := QueryOf(identifier);
    if q.Err? {
      return Err(q.error);
    }
    var results := [];
    var i := 0;
    while i < |actions|
      invariant 0 <= i <= |actions| && results == Picked(actions, q.value, i)
    {
      if Selects(actions[i], q.value) {
        results := results + [i];
      }
      i := i + 1;
    }
    if results == [] {
      return Err(RuntimeError("Unknown target " + identifier));
    }
    return Ok(results);
  }

  /** The elements of a list of positions. */
  function AsSet(s: seq<nat>): (r: set<nat>)
    ensures forall t :: t in r <==> t in s
  {
    if s == [] then {} else AsSet(s[..|s| - 1]) + {s[|s| - 1]}
  }

  /** The results of `glob_target` for each identifier. */
  function Found(actions: seq<Action>, identifiers: seq<string>): (r: seq<Result<seq<nat>>>)
    ensures |r| == |identifiers| && forall j :: 0 <= j < |r| ==> r[j] == GlobTarget(actions, identifiers[j])
  {
    seq(|identifiers|, j requires 0 <= j < |identifiers| => GlobTarget(actions, identifiers[j]))
  }

  /** The union of the first `n` results, or the first failure among them. */
  function UnionOf(found: seq<Result<seq<nat>>>, n: nat): Result<set<nat>>
    requires n <= |found|
  {
    if n == 0 then Ok({})
    else
      match UnionOf(found, n - 1)
      case Err(e) => Err(e)
      case Ok(acc) =>
        match found[n - 1]
        case Err(e) => Err(e)
        case Ok(r) => Ok(acc + AsSet(r))
  }

  /** The positions of `n` actions. */
  function Indices(n: nat): (r: set<nat>)
    ensures forall t: nat :: t in r <==> t < n
  {
    if n == 0 then {} else Indices(n - 1) + {n - 1}
  }

  /** `glob_targets(conf, identifier_list, all_on_empty)`: an empty list
      selects every action when `all_on_empty` holds. */
  function GlobTargets(actions: seq<Action>, identifiers: seq<string>, allOnEmpty: bool): Result<set<nat>>
  {
    if identifiers == [] && allOnEmpty then Ok(Indices(|actions|))
    else UnionOf(Found(actions, identifiers), |identifiers|)
  }

  /** Whether result `found[j]` selects action `t`. */
  predicate SelectedBy(found: seq<Result<seq<nat>>>, j: nat, t: nat)
    requires j < |found|
  {
    found[j].Ok? && t in found[j].value
  }

  /** The union fails exactly when one of the results is a failure, and
      otherwise holds what some result selects. */
  lemma {:induction false} UnionOfSpec(found: seq<Result<seq<nat>>>, n: nat)
    requires n <= |found|
    ensures UnionOf(found, n).Err? <==> exists j: nat :: j < n && found[j].Err?
    ensures UnionOf(found, n).Ok? ==> forall t: nat ::
      t in UnionOf(found, n).value <==> exists j: nat :: j < n && SelectedBy(found, j, t)
  {
    if n > 0 {
      UnionOfSpec(found, n - 1);
      if UnionOf(found, n - 1).Ok? && found[n - 1].Ok? {
        forall t: nat
          ensures t in UnionOf(found, n).value <==> exists j: nat :: j < n && SelectedBy(found, j, t)
        {
          if t in found[n - 1].value {
            assert SelectedBy(found, n - 1, t);
          }
        }
      }
    }
  }

  /** `glob_targets` fails exactly when one of the targets fails, and
      otherwise selects what some target selects, all of it configured
      actions; an empty list selects all actions or none. */
  lemma {:induction false} GlobTargetsSpec(actions: seq<Action>, identifiers: seq<string>, allOnEmpty: bool)
    ensures identifiers == [] && allOnEmpty ==> GlobTargets(actions, identifiers, allOnEmpty) == Ok(Indices(|actions|))
    ensures identifiers == [] && !allOnEmpty ==> GlobTargets(actions, identifiers, allOnEmpty) == Ok({})
    ensures identifiers != [] ==>
      (GlobTargets(actions, identifiers, allOnEmpty).Err? <==> exists j :: 0 <= j < |identifiers| && GlobTarget(actions, identifiers[j]).Err?)
    ensures identifiers != [] && GlobTargets(actions, identifiers, allOnEmpty).Ok? ==> forall t: nat ::
      t in GlobTargets(actions, identifiers, allOnEmpty).value <==>
      t < |actions| && exists j :: 0 <= j < |identifiers| && GlobTarget(actions, identifiers[j]).Ok?
                                   && t in GlobTarget(actions, identifiers[j]).value
  {
    var found := Found(actions, identifiers);
    var n := |identifiers|;
    UnionOfSpec(found, n);
    if identifiers != [] && UnionOf(found, n).Ok? {
      forall t: nat
        ensures t in UnionOf(found, n).value <==>
          t < |actions| && exists j :: 0 <= j < n && GlobTarget(actions, identifiers[j]).Ok?
                                         && t in GlobTarget(actions, identifiers[j]).value
      {
        if t in UnionOf(found, n).value {
          var j: nat :| j < n && SelectedBy(found, j, t);
          PickedSpec(actions, QueryOf(identifiers[j]).value, |actions|);
        } else {
          forall j | 0 <= j < n && GlobTarget(actions, identifiers[j]).Ok?
            ensures t !in GlobTarget(actions, identifiers[j]).value
          {
            if t in found[j].value {
              assert SelectedBy(found, j, t);
            }
          }
        }
      }
    }
  }

  /** `glob_targets`: the targets' results are gathered in a list, then
      deduplicated through a set. */
  method GlobTargetsLoop(actions: seq<Action>, identifiers: seq<string>, allOnEmpty: bool) returns (r: Result<set<nat>>)
    ensures r == GlobTargets(actions, identifiers, allOnEmpty)
  {
    if identifiers == [] && allOnEmpty {
      return Ok(Indices(|actions|));
    }
    ghost var found := Found(actions, identifiers);
    var results: seq<nat> := [];
    var i := 0;
    while i < |identifiers|
      invariant 0 <= i <= |identifiers|
      invariant UnionOf(found, i) == Ok(AsSet(results))
    {
      var target := GlobTargetLoop(actions, identifiers[i]);
      UnionStep(found, i, results);
      if target.Err? {
        UnionErrorStays(found, i + 1);
        return Err(target.error);
      }
      results := results + target.value;
      i := i + 1;
    }
    r := Ok(AsSet(results));
  }

  /** One turn of `glob_targets`' loop. */
  lemma {:induction false} UnionStep(found: seq<Result<seq<nat>>>, i: nat, results: seq<nat>)
    requires i < |found| && UnionOf(found, i) == Ok(AsSet(results))
    ensures found[i].Err? ==> UnionOf(found, i + 1) == Err(found[i].error)
    ensures found[i].Ok? ==> UnionOf(found, i + 1) == Ok(AsSet(results + found[i].value))
  {
    if found[i].Ok? {
      assert AsSet(results + found[i].value) == AsSet(results) + AsSet(found[i].value);
    }
  }

  lemma {:induction false} UnionErrorStays(found: seq<Result<seq<nat>>>, n: nat)
    requires n <= |found| && UnionOf(found, n).Err?
    ensures UnionOf(found, |found|) == UnionOf(found, n)
    decreases |found| - n
  {
    if n < |found| {
      UnionErrorStays(found, n + 1);
    }
  }
}
