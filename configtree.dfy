/** The parsed configuration tree (what the YAML/JSON loader returns) and
    the tool's utilities over it: `is_array`, `is_dict`, `is_primitive`,
    `to_list`, `deep_merge` and `extract_keys`. A dictionary is the list
    of its entries in insertion order. */
module ConfigTree {
  import opened Wrappers
  import opened PyStr

  datatype Value =
    | Null
    | Bool(b: bool)
    | Int(i: int)
    | Str(s: string)
    | List(items: seq<Value>)
    | Dict(entries: seq<(Value, Value)>)

  /** `is_primitive`: strings, integers and booleans. */
  predicate IsPrimitive(v: Value) { v.Bool? || v.Int? || v.Str? }

  /** `is_array`: iterable, but neither primitive nor a dictionary. */
  predicate IsArray(v: Value) { v.List? }

  predicate IsDict(v: Value) { v.Dict? }

  /** `str(v)` for the scalar values; a collection is shown by its kind. */
  function ToStr(v: Value): string
  {
    match v
    case Null => "None"
    case Bool(b) => if b then "True" else "False"
    case Int(i) => IntToString(i)
    case Str(s) => s
    case List(_) => "[...]"
    case Dict(_) => "{...}"
  }

  /** The keys of a dictionary, in order. */
  function Keys(es: seq<(Value, Value)>): seq<Value>
  {
    seq(|es|, i requires 0 <= i < |es| => es[i].0)
  }

  /** No key occurs twice, as in a Python dictionary. */
  predicate UniqueKeys(es: seq<(Value, Value)>)
  {
    forall i, j :: 0 <= i < j < |es| ==> es[i].0 != es[j].0
  }

  /** The position of key `k`, or -1. */
  function Find(es: seq<(Value, Value)>, k: Value): (r: int)
    ensures -1 <= r < |es|
    ensures r >= 0 ==> es[r].0 == k
  {
    if es == [] then -1
    else if es[0].0 == k then 0
    else
      var j := Find(es[1..], k);
      if j == -1 then -1 else j + 1
  }

  /** `k in d`. */
  predicate HasKey(es: seq<(Value, Value)>, k: Value)
  {
    Find(es, k) >= 0
  }

  /** `Find` finds a key exactly when some entry has it, and then the first. */
  lemma {:induction false} FindSpec(es: seq<(Value, Value)>, k: Value)
    ensures HasKey(es, k) <==> exists t :: 0 <= t < |es| && es[t].0 == k
    ensures forall t :: 0 <= t < Find(es, k) ==> es[t].0 != k
  {
    if es != [] && es[0].0 != k {
      FindSpec(es[1..], k);
      if HasKey(es, k) {
        assert es[1..][Find(es[1..], k)] == es[Find(es, k)];
      }
      if t :| 0 <= t < |es| && es[t].0 == k {
        assert es[1..][t - 1] == es[t];
      }
      forall t | 0 <= t < Find(es, k)
        ensures es[t].0 != k
      {
        if t > 0 {
          assert es[1..][t - 1] == es[t];
        }
      }
    }
  }

  /** A key no entry has is not found. */
  lemma {:induction false} NotHasKey(es: seq<(Value, Value)>, k: Value)
    requires forall t :: 0 <= t < |es| ==> es[t].0 != k
    ensures !HasKey(es, k)
  {
    FindSpec(es, k);
  }

  /** A key that is found is in no other entry of a dictionary. */
  lemma {:induction false} FindUnique(es: seq<(Value, Value)>, k: Value, t: int)
    requires UniqueKeys(es) && 0 <= t < |es| && es[t].0 == k
    ensures Find(es, k) == t
  {
    FindSpec(es, k);
  }

  /** `d.get(k)`. */
  function Lookup(es: seq<(Value, Value)>, k: Value): (r: Option<Value>)
    ensures r.Some? <==> HasKey(es, k)
  {
    var j := Find(es, k);
    if j == -1 then None else Some(es[j].1)
  }

  /** `d[k] = v`: replaces the value in place, or appends a new entry. */
  function Set(es: seq<(Value, Value)>, k: Value, v: Value): (r: seq<(Value, Value)>)
    ensures Lookup(r, k) == Some(v)
    ensures |r| == |es| + (if HasKey(es, k) then 0 else 1)
  {
    var j := Find(es, k);
    if j == -1 then
      assert Find(es + [(k, v)], k) == |es| by { FindAppend(es, k, v); }
      es + [(k, v)]
    else
      var r := es[j := (k, v)];
      assert Find(r, k) == j by { FindUpdate(es, j, k, v); }
      r
  }

  /** `d[k] = v` keeps every key in its place; a new key goes last. */
  lemma {:induction false} SetPrefix(es: seq<(Value, Value)>, k: Value, v: Value)
    ensures forall t :: 0 <= t < |es| ==> Set(es, k, v)[t].0 == es[t].0
    ensures !HasKey(es, k) ==> Set(es, k, v) == es + [(k, v)]
  {
  }

  /** `d[k] = v` keeps the keys of a dictionary distinct. */
  lemma {:induction false} SetUnique(es: seq<(Value, Value)>, k: Value, v: Value)
    requires UniqueKeys(es)
    ensures UniqueKeys(Set(es, k, v))
  {
    SetPrefix(es, k, v);
    FindSpec(es, k);
  }

  lemma {:induction false} FindAppend(es: seq<(Value, Value)>, k: Value, v: Value)
    requires !HasKey(es, k)
    ensures Find(es + [(k, v)], k) == |es|
  {
    if es != [] {
      assert (es + [(k, v)])[1..] == es[1..] + [(k, v)];
      FindAppend(es[1..], k, v);
    }
  }

  lemma {:induction false} FindUpdate(es: seq<(Value, Value)>, j: nat, k: Value, v: Value)
    requires j < |es| && Find(es, k) == j
    ensures Find(es[j := (k, v)], k) == j
  {
    if j > 0 {
      assert es[j := (k, v)][1..] == es[1..][j - 1 := (k, v)];
      FindUpdate(es[1..], j - 1, k, v);
    }
  }

  /** `d[k] = v` leaves the other keys' values. */
  lemma {:induction false} LookupOther(es: seq<(Value, Value)>, k: Value, v: Value, other: Value)
    requires other != k
    ensures Lookup(Set(es, k, v), other) == Lookup(es, other)
  {
    var j := Find(es, k);
    if j == -1 {
      FindOtherAppend(es, k, v, other);
    } else {
      FindOtherUpdate(es, j, k, v, other);
    }
  }

  /** A second `d[k] = v` overwrites the first in its place. */
  lemma {:induction false} SetTwice(es: seq<(Value, Value)>, k: Value, v1: Value, v2: Value)
    ensures Set(Set(es, k, v1), k, v2) == Set(es, k, v2)
  {
    var j := Find(es, k);
    if j == -1 {
      FindAppend(es, k, v1);
      assert (es + [(k, v1)])[|es| := (k, v2)] == es + [(k, v2)];
    } else {
      FindUpdate(es, j, k, v1);
    }
  }

  lemma {:induction false} FindOtherAppend(es: seq<(Value, Value)>, k: Value, v: Value, other: Value)
    requires other != k
    ensures Lookup(es + [(k, v)], other) == Lookup(es, other)
  {
    if es != [] {
      assert (es + [(k, v)])[1..] == es[1..] + [(k, v)];
      FindOtherAppend(es[1..], k, v, other);
    }
  }

  lemma {:induction false} FindOtherUpdate(es: seq<(Value, Value)>, j: nat, k: Value, v: Value, other: Value)
    requires j < |es| && es[j].0 == k && other != k
    ensures Lookup(es[j := (k, v)], other) == Lookup(es, other)
  {
    if j > 0 && es[0].0 != other {
      assert es[j := (k, v)][1..] == es[1..][j - 1 := (k, v)];
      FindOtherUpdate(es[1..], j - 1, k, v, other);
    }
  }

  /** `to_list`. */
  function ToList(v: Value): (r: Value)
    ensures r.List?
    ensures v.List? ==> r == v
    ensures !v.List? ==> r.items == [v]
  {
    if IsArray(v) then v else List([v])
  }

  /** `to_list` is idempotent. */
  lemma {:induction false} ToListIdempotent(v: Value)
    ensures ToList(ToList(v)) == ToList(v)
  {
  }

  /** `deep_merge(src, upd)`. Values have no identity here, so the copies
      the source makes are implicit and neither input can be changed. */
  function DeepMerge(src: Value, upd: Value): Value
    decreases upd, Rank(upd) + 1
  {
    if upd.Null? then src
    else if src.Null? then upd
    else if IsArray(src) then
      if IsArray(upd) then List(src.items + upd.items) else List(src.items + [upd])
    else if IsDict(src) then
      if IsArray(upd) then List(upd.items + [src])
      else if !IsDict(upd) then List([src, upd])
      else Dict(MergeFrom(src.entries, upd.entries, 0))
    else List([src, upd])
  }

  function Rank(v: Value): nat
  {
    if v.Dict? then |v.entries| + 1 else 0
  }

  /** The loop of `deep_merge` over the entries `es[i..]` of `upd`, in
      order: a shared key gets the merged value in its place, a new key
      is added at the end. */
  function MergeFrom(acc: seq<(Value, Value)>, es: seq<(Value, Value)>, i: nat): seq<(Value, Value)>
    requires i <= |es|
    decreases Dict(es), |es| - i
  {
    if i == |es| then acc
    else
      var (k, v) := es[i];
      assert es[i] in es;
      MergeFrom(Set(acc, k, MergeEntry(acc, k, v)), es, i + 1)
  }

  /** The value `deep_merge` stores under key `k` of `upd` with value `v`. */
  function MergeEntry(acc: seq<(Value, Value)>, k: Value, v: Value): Value
    decreases v, Rank(v) + 2
  {
    var j := Find(acc, k);
    if j >= 0 then DeepMerge(acc[j].1, v) else v
  }

  /** The rules of `deep_merge` by the kinds of its arguments: `None` on
      either side yields the other side, a list absorbs the new value (a
      list is concatenated), a dictionary is appended to a new list, two
      dictionaries are merged, and two other values make a two-element
      list. */
  lemma {:induction false} DeepMergeCases(src: Value, upd: Value)
    ensures upd.Null? ==> DeepMerge(src, upd) == src
    ensures src.Null? ==> DeepMerge(src, upd) == upd
    ensures src.List? && upd.List? ==> DeepMerge(src, upd) == List(src.items + upd.items)
    ensures src.List? && !upd.List? && !upd.Null? ==> DeepMerge(src, upd) == List(src.items + [upd])
    ensures src.Dict? && upd.List? ==> DeepMerge(src, upd) == List(upd.items + [src])
    ensures src.Dict? && upd.Dict? ==> DeepMerge(src, upd).Dict?
    ensures !src.Null? && !upd.Null? && !src.List? && !(src.Dict? && (upd.List? || upd.Dict?)) ==>
      DeepMerge(src, upd) == List([src, upd])
  {
  }

  /** The value merged into key `k`. */
  function MergedValue(a: Option<Value>, b: Option<Value>): Option<Value>
  {
    match (a, b)
    case (Some(x), Some(y)) => Some(DeepMerge(x, y))
    case (None, Some(y)) => Some(y)
    case (x, None) => x
  }

  lemma {:induction false} LookupCons(es: seq<(Value, Value)>, i: nat, k: Value)
    requires i < |es|
    ensures Lookup(es[i..], k) == if es[i].0 == k then Some(es[i].1) else Lookup(es[i + 1..], k)
  {
    assert es[i..][1..] == es[i + 1..];
  }

  /** Merging two dictionaries keeps every key, with the merged value on
      shared keys, the value of `src` on its own keys and the value of
      `upd` on the others. */
  lemma {:induction false} MergeFromSpec(acc: seq<(Value, Value)>, es: seq<(Value, Value)>, i: nat, k: Value)
    requires UniqueKeys(es) && i <= |es|
    ensures Lookup(MergeFrom(acc, es, i), k) == MergedValue(Lookup(acc, k), Lookup(es[i..], k))
    decreases |es| - i
  {
    if i < |es| {
      var (k0, v0) := es[i];
      var acc' := Set(acc, k0, MergeEntry(acc, k0, v0));
      MergeFromSpec(acc', es, i + 1, k);
      LookupCons(es, i, k);
      if k == k0 {
        var tail := es[i + 1..];
        forall t | 0 <= t < |tail|
          ensures tail[t].0 != k
        {
          assert tail[t] == es[i + 1 + t];
        }
        NotHasKey(tail, k);
      } else {
        LookupOther(acc, k0, MergeEntry(acc, k0, v0), k);
      }
    }
  }

  /** The keys of `src` keep their places; the other keys of `upd` follow. */
  lemma {:induction false} MergeFromPrefix(acc: seq<(Value, Value)>, es: seq<(Value, Value)>, i: nat)
    requires i <= |es|
    ensures |acc| <= |MergeFrom(acc, es, i)|
    ensures forall t :: 0 <= t < |acc| ==> MergeFrom(acc, es, i)[t].0 == acc[t].0
    decreases |es| - i
  {
    if i < |es| {
      var (k0, v0) := es[i];
      var acc' := Set(acc, k0, MergeEntry(acc, k0, v0));
      SetPrefix(acc, k0, MergeEntry(acc, k0, v0));
      MergeFromPrefix(acc', es, i + 1);
    }
  }

  /** The merged keys are the keys of either side. */
  lemma {:induction false} MergeFromKeys(acc: seq<(Value, Value)>, es: seq<(Value, Value)>, i: nat, k: Value)
    requires i <= |es|
    ensures HasKey(acc, k) || HasKey(es[i..], k) <==> HasKey(MergeFrom(acc, es, i), k)
    decreases |es| - i
  {
    if i < |es| {
      var (k0, v0) := es[i];
      var acc' := Set(acc, k0, MergeEntry(acc, k0, v0));
      MergeFromKeys(acc', es, i + 1, k);
      LookupCons(es, i, k);
      if k != k0 {
        LookupOther(acc, k0, MergeEntry(acc, k0, v0), k);
      }
    }
  }

  /** Merging into a dictionary keeps its keys distinct. */
  lemma {:induction false} MergeFromUnique(acc: seq<(Value, Value)>, es: seq<(Value, Value)>, i: nat)
    requires UniqueKeys(acc) && i <= |es|
    ensures UniqueKeys(MergeFrom(acc, es, i))
    decreases |es| - i
  {
    if i < |es| {
      var (k0, v0) := es[i];
      SetUnique(acc, k0, MergeEntry(acc, k0, v0));
      MergeFromUnique(Set(acc, k0, MergeEntry(acc, k0, v0)), es, i + 1);
    }
  }

  /** `deep_merge` of two dictionaries, key by key. */
  lemma {:induction false} DeepMergeDicts(src: seq<(Value, Value)>, upd: seq<(Value, Value)>, k: Value)
    requires UniqueKeys(upd)
    ensures DeepMerge(Dict(src), Dict(upd)).Dict?
    ensures Lookup(DeepMerge(Dict(src), Dict(upd)).entries, k) == MergedValue(Lookup(src, k), Lookup(upd, k))
    ensures HasKey(src, k) || HasKey(upd, k) <==> HasKey(DeepMerge(Dict(src), Dict(upd)).entries, k)
    ensures |src| <= |DeepMerge(Dict(src), Dict(upd)).entries|
    ensures forall t :: 0 <= t < |src| ==> DeepMerge(Dict(src), Dict(upd)).entries[t].0 == src[t].0
    ensures UniqueKeys(src) ==> UniqueKeys(DeepMerge(Dict(src), Dict(upd)).entries)
  {
    assert upd[0..] == upd;
    MergeFromSpec(src, upd, 0, k);
    MergeFromKeys(src, upd, 0, k);
    MergeFromPrefix(src, upd, 0);
    if UniqueKeys(src) {
      MergeFromUnique(src, upd, 0);
    }
  }

  /** `deep_merge` implemented as the source does it: a copy of `src`
      updated entry by entry. */
  method MergeValues(src: Value, upd: Value) returns (r: Value)
    ensures r == DeepMerge(src, upd)
  {
    if upd.Null? {
      r := src;
    } else if src.Null? {
      r := upd;
    } else if src.List? {
      r := if upd.List? then List(src.items + upd.items) else List(src.items + [upd]);
    } else if src.Dict? && upd.List? {
      r := List(upd.items + [src]);
    } else if src.Dict? && upd.Dict? {
      var entries := MergeDicts(src.entries, upd.entries);
      r := Dict(entries);
    } else {
      r := List([src, upd]);
    }
  }

  /** The loop of `deep_merge` over the entries of the new dictionary:
      `result[key] = deep_merge(result[key], val)` for a shared key,
      `result[key] = val` for a new one. */
  method MergeDicts(src: seq<(Value, Value)>, es: seq<(Value, Value)>) returns (result: seq<(Value, Value)>)
    ensures result == MergeFrom(src, es, 0)
  {
    result := src;
    var i := 0;
    while i < |es|
      invariant 0 <= i <= |es|
      invariant MergeFrom(result, es, i) == MergeFrom(src, es, 0)
    {
      var key, val := es[i].0, es[i].1;
      result := Set(result, key, MergeEntry(result, key, val));
      i := i + 1;
    }
  }

  /** `del d[k]`, the other entries keeping their order. */
  function Remove(es: seq<(Value, Value)>, k: Value): seq<(Value, Value)>
  {
    if es == [] then []
    else if es[0].0 == k then Remove(es[1..], k)
    else [es[0]] + Remove(es[1..], k)
  }

  /** After `del d[k]` the key is gone. */
  lemma {:induction false} RemoveGone(es: seq<(Value, Value)>, k: Value)
    ensures !HasKey(Remove(es, k), k)
  {
    if es != [] {
      RemoveGone(es[1..], k);
      if es[0].0 != k {
        assert ([es[0]] + Remove(es[1..], k))[1..] == Remove(es[1..], k);
      }
    }
  }

  /** `del d[k]` leaves the other keys' values. */
  lemma {:induction false} RemoveOther(es: seq<(Value, Value)>, k: Value, other: Value)
    requires other != k
    ensures Lookup(Remove(es, k), other) == Lookup(es, other)
  {
    if es != [] {
      RemoveOther(es[1..], k, other);
      if es[0].0 != k {
        assert ([es[0]] + Remove(es[1..], k))[1..] == Remove(es[1..], k);
      }
    }
  }

  /** Deleting a key that is not there changes nothing. */
  lemma {:induction false} RemoveAbsent(es: seq<(Value, Value)>, k: Value)
    requires !HasKey(es, k)
    ensures Remove(es, k) == es
  {
    if es != [] {
      RemoveAbsent(es[1..], k);
    }
  }

  /** The entries of `es` under `keys`, in the order of `keys`:
      the result of `extract_keys`. */
  function Extracted(es: seq<(Value, Value)>, keys: seq<Value>): seq<(Value, Value)>
    decreases |keys|
  {
    if keys == [] then []
    else
      var k := keys[0];
      var j := Find(es, k);
      if j >= 0 then [(k, es[j].1)] + Extracted(Remove(es, k), keys[1..])
      else Extracted(es, keys[1..])
  }

  /** What `extract_keys` leaves in its input dictionary. */
  function Remaining(es: seq<(Value, Value)>, keys: seq<Value>): seq<(Value, Value)>
    decreases |keys|
  {
    if keys == [] then es else Remaining(Remove(es, keys[0]), keys[1..])
  }

  /** A dictionary that the source updates in place. */
  class PyDict {
    var entries: seq<(Value, Value)>

    constructor (es: seq<(Value, Value)>)
      ensures entries == es
    {
      entries := es;
    }

    /** `extract_keys(self, *keys)`: moves the entries under `keys` into a
        new dictionary. */
    method ExtractKeys(keys: seq<Value>) returns (result: seq<(Value, Value)>)
      modifies this
      ensures result == Extracted(old(entries), keys)
      ensures entries == Remaining(old(entries), keys)
    {
      result := [];
      var i := 0;
      while i < |keys|
        invariant 0 <= i <= |keys|
        invariant result + Extracted(entries, keys[i..]) == Extracted(old(entries), keys)
        invariant Remaining(entries, keys[i..]) == Remaining(old(entries), keys)
      {
        var key := keys[i];
        assert keys[i..][1..] == keys[i + 1..];
        var j := Find(entries, key);
        if j >= 0 {
          result := result + [(key, entries[j].1)];
          entries := Remove(entries, key);
        } else {
          RemoveAbsent(entries, key);
        }
        i := i + 1;
      }
      assert keys[i..] == [];
    }
  }

  /** After `extract_keys`, the extracted dictionary holds exactly the
      listed keys the input had, with their values, and the input keeps
      exactly the others. */
  lemma {:induction false} ExtractSpec(es: seq<(Value, Value)>, keys: seq<Value>, k: Value)
    ensures Lookup(Extracted(es, keys), k) == if k in keys then Lookup(es, k) else None
    ensures Lookup(Remaining(es, keys), k) == if k in keys then None else Lookup(es, k)
    decreases |keys|
  {
    if keys != [] {
      var k0 := keys[0];
      var es' := Remove(es, k0);
      ExtractSpec(es', keys[1..], k);
      ExtractSpec(es, keys[1..], k);
      if k == k0 {
        RemoveGone(es, k0);
      } else {
        RemoveOther(es, k0, k);
      }
      assert k in keys <==> k == k0 || k in keys[1..];
    }
  }
}
