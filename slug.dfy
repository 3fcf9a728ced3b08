/** The default action names: `_filename_to_prefix` and `_db_to_prefix`
    turn every run of characters outside `[a-zA-Z0-9]` into one `_`, and
    strip `_` from both ends. */
module Slug {
  import opened PyStr

  /** `re.sub(r"[^a-zA-Z0-9]+", "_", s)`: a character outside the class
      right after another one is absorbed in the same run. Since `_` is
      itself outside the class, the following `re.sub(r"_+", "_", ...)`
      changes nothing. */
  function Squash(s: string): string
  {
    if s == [] then []
    else
      var p, c := s[..|s| - 1], s[|s| - 1];
      if IsAlnum(c) then Squash(p) + [c]
      else if p != [] && !IsAlnum(p[|p| - 1]) then Squash(p)
      else Squash(p) + ['_']
  }

  /** The slug of `s`. */
  function Slugify(s: string): string
  {
    StripChar(Squash(s), '_')
  }

  /** `_filename_to_prefix(file_path)`. */
  function FilenameToPrefix(path: string): string
  {
    var r := Slugify(path);
    if r == "exclude" then "file_exclude" else r
  }

  /** `_db_to_prefix(db_info)`: the slug of what comes before the first `:`. */
  function DbToPrefix(info: string): string
  {
    Slugify(Split(info, ':')[0])
  }

  /** Only `[a-zA-Z0-9_]`, and never two `_` in a row. */
  predicate Clean(t: string)
  {
    (forall i :: 0 <= i < |t| ==> IsAlnum(t[i]) || t[i] == '_')
    && (forall i :: 0 <= i < |t| - 1 ==> IsAlnum(t[i]) || IsAlnum(t[i + 1]))
  }

  /** A slug: clean, and no `_` at either end. */
  predicate SlugShape(t: string)
  {
    Clean(t) && (t == [] || (t[0] != '_' && t[|t| - 1] != '_'))
  }

  /** The letters and digits of `s`, in order. */
  function AlnumOf(s: string): string
  {
    if s == [] then []
    else AlnumOf(s[..|s| - 1]) + (if IsAlnum(s[|s| - 1]) then [s[|s| - 1]] else [])
  }

  /** A run ends the squashed string exactly when it ends `s`. */
  lemma {:induction false} SquashShape(s: string)
    ensures Clean(Squash(s))
    ensures |Squash(s)| <= |s|
    ensures Squash(s) == [] <==> s == []
    ensures s != [] ==> Squash(s)[|Squash(s)| - 1] == (if IsAlnum(s[|s| - 1]) then s[|s| - 1] else '_')
  {
    if s != [] {
      var p, c := s[..|s| - 1], s[|s| - 1];
      SquashShape(p);
      var q := Squash(p);
      if IsAlnum(c) {
        assert Squash(s) == q + [c];
      } else if p != [] && !IsAlnum(p[|p| - 1]) {
        assert Squash(s) == q;
      } else {
        assert Squash(s) == q + ['_'];
      }
    }
  }

  /** Squashing keeps every letter and digit, in order. */
  lemma {:induction false} SquashKeepsAlnum(s: string)
    ensures AlnumOf(Squash(s)) == AlnumOf(s)
  {
    if s != [] {
      var p, c := s[..|s| - 1], s[|s| - 1];
      SquashKeepsAlnum(p);
      var q := Squash(p);
      if IsAlnum(c) {
        assert (q + [c])[..|q + [c]| - 1] == q;
      } else if p != [] && !IsAlnum(p[|p| - 1]) {
      } else {
        assert (q + ['_'])[..|q + ['_']| - 1] == q;
      }
    }
  }

  /** A clean string is its own squash. */
  lemma {:induction false} SquashClean(t: string)
    requires Clean(t)
    ensures Squash(t) == t
  {
    if t != [] {
      var p := t[..|t| - 1];
      assert Clean(p) by {
        assert forall i :: 0 <= i < |p| ==> p[i] == t[i];
      }
      SquashClean(p);
      if !IsAlnum(t[|t| - 1]) && p != [] {
        assert IsAlnum(t[|t| - 2]);
      }
      assert p + [t[|t| - 1]] == t;
    }
  }

  lemma {:induction false} CleanSlices(t: string)
    requires Clean(t) && t != []
    ensures Clean(t[1..]) && Clean(t[..|t| - 1])
  {
    assert forall i :: 0 <= i < |t| - 1 ==> t[1..][i] == t[i + 1];
    assert forall i :: 0 <= i < |t| - 1 ==> t[..|t| - 1][i] == t[i];
  }

  /** Stripping `_` keeps a string clean. */
  lemma {:induction false} StripClean(t: string)
    requires Clean(t)
    ensures Clean(StripChar(t, '_'))
    decreases |t|
  {
    if |t| > 0 && t[0] == '_' {
      CleanSlices(t);
      StripClean(t[1..]);
    } else if |t| > 0 && t[|t| - 1] == '_' {
      CleanSlices(t);
      StripClean(t[..|t| - 1]);
    }
  }

  lemma {:induction false} AlnumOfConcat(a: string, b: string)
    ensures AlnumOf(a + b) == AlnumOf(a) + AlnumOf(b)
    decreases |b|
  {
    if b == [] {
      assert a + b == a;
    } else {
      var b' := b[..|b| - 1];
      assert (a + b)[..|a + b| - 1] == a + b';
      assert (a + b)[|a + b| - 1] == b[|b| - 1];
      AlnumOfConcat(a, b');
    }
  }

  /** Stripping `_` keeps every letter and digit. */
  lemma {:induction false} StripKeepsAlnum(t: string)
    ensures AlnumOf(StripChar(t, '_')) == AlnumOf(t)
    decreases |t|
  {
    if |t| > 0 && t[0] == '_' {
      StripKeepsAlnum(t[1..]);
      AlnumOfConcat([t[0]], t[1..]);
      assert [t[0]] + t[1..] == t;
      assert [t[0]][..0] == [];
    } else if |t| > 0 && t[|t| - 1] == '_' {
      StripKeepsAlnum(t[..|t| - 1]);
    }
  }

  /** A slug is made of letters, digits and single `_` separators, without
      `_` at either end, and has the letters and digits of its input in
      their order. */
  lemma {:induction false} SlugifySpec(s: string)
    ensures SlugShape(Slugify(s))
    ensures AlnumOf(Slugify(s)) == AlnumOf(s)
  {
    SquashShape(s);
    StripClean(Squash(s));
    SquashKeepsAlnum(s);
    StripKeepsAlnum(Squash(s));
  }

  /** Slugifying a slug changes nothing. */
  lemma {:induction false} SlugifyIdempotent(s: string)
    ensures Slugify(Slugify(s)) == Slugify(s)
  {
    SlugifySpec(s);
    var t := Slugify(s);
    SquashClean(t);
  }

  /** A file action never gets the default name `exclude`, the key that
      lists the exclusions of a `files` section. */
  lemma {:induction false} FilenamePrefixNotExclude(path: string)
    ensures FilenameToPrefix(path) != "exclude"
    ensures FilenameToPrefix(path) == Slugify(path) || Slugify(path) == "exclude"
  {
  }

  /** The default name of a database action is the slug of its `type`
      field, the part before the first `:`. */
  lemma {:induction false} DbPrefixOfType(info: string)
    ensures ':' in info ==> DbToPrefix(info) == Slugify(info[..IndexOf(info, ':')])
    ensures ':' !in info ==> DbToPrefix(info) == Slugify(info)
  {
  }
}
