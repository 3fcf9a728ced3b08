/** `BackupConfig._load_conf` over an already loaded (and include-expanded)
    configuration tree: the top-level entries are sorted into the common,
    report and server sections; every server entry is merged with the
    common section and turned into storages and actions; two actions may
    not share a `full_name`; the report list is parsed last. */
module ConfigLoad {
  import opened Wrappers
  import opened PyStr
  import opened ConfigTree
  import opened Archives
  import opened Actions
  import opened ActionParse
  import opened StorageParse
  import opened ReportConf
  import opened Seqs

  /** The collaborators outside the model: whether an ssh key file exists,
      the default Glacier index file and the path resolution of a given
      one, whether a webhook mapping file exists, and `to_str` of an action. */
  datatype Env = Env(keyExists: string -> bool, defaultIndex: string, resolvePath: string -> string,
                     mappingExists: string -> bool, describe: Action -> string)

  // ---------------------------------------------------------------------
  // Second parsing: sorting the top-level entries
  // ---------------------------------------------------------------------

  /** The keys taken from the top level before the sections are read. */
  const CommonKeys: seq<Value> := [Str("ssh_user"), Str("ssh_key"), Str("dest_folder"), Str("db_user")]

  /** `common_info`, `server_info_dict` and `report_info_list`. */
  datatype Sections = Sections(common: Value, servers: Value, reports: Value)

  const NoSections: Sections := Sections(Dict([]), Dict([]), List([]))

  /** A top-level entry the source refuses: `key.lower()` fails on a key
      that is not a string, and a non-empty key may not hold a scalar. */
  predicate BadEntry(e: (Value, Value))
  {
    !e.0.Str? || (Normalize(e.0.s) != "" && IsPrimitive(e.1))
  }

  /** A top-level entry that describes server `name`. */
  predicate ServerEntry(e: (Value, Value), name: string)
  {
    e.0.Str? && Normalize(e.0.s) == name && name != ""
    && name != "common" && name != "global" && name != "report"
  }

  /** One turn of the sorting loop. */
  function Classify(s: Sections, e: (Value, Value)): (r: Result<Sections>)
    ensures r.Err? <==> BadEntry(e)
  {
    if !e.0.Str? then Err(AttributeError)
    else
      var key := Normalize(e.0.s);
      if key == "" then Ok(s)
      else if IsPrimitive(e.1) then Err(ConfigError(key + " section can't be a single value"))
      else if key == "common" || key == "global" then Ok(s.(common := DeepMerge(s.common, e.1)))
      else if key == "report" then Ok(s.(reports := DeepMerge(s.reports, ToList(e.1))))
      else Ok(s.(servers := DeepMerge(s.servers, Dict([(Str(key), ToList(e.1))]))))
  }

  /** The sections after the first `n` entries. */
  function Classified(es: seq<(Value, Value)>, n: nat): Result<Sections>
    requires n <= |es|
  {
    if n == 0 then Ok(NoSections)
    else
      match Classified(es, n - 1)
      case Err(err) => Err(err)
      case Ok(s) => Classify(s, es[n - 1])
  }

  /** The sorting loop of `_load_conf`. */
  method ClassifyLoop(es: seq<(Value, Value)>) returns (r: Result<Sections>)
    ensures r == Classified(es, |es|)
  {
    var s := NoSections;
    var i := 0;
    while i < |es|
      invariant 0 <= i <= |es| && Classified(es, i) == Ok(s)
    {
      var step := Classify(s, es[i]);
      if step.Err? {
        ClassifiedErrorStays(es, i + 1);
        return step;
      }
      s := step.value;
      i := i + 1;
    }
    return Ok(s);
  }

  lemma {:induction false} ClassifiedErrorStays(es: seq<(Value, Value)>, n: nat)
    requires n <= |es| && Classified(es, n).Err?
    ensures Classified(es, |es|) == Classified(es, n)
    decreases |es| - n
  {
    if n < |es| {
      ClassifiedErrorStays(es, n + 1);
    }
  }

  /** The sorting fails exactly when one of the entries is refused. */
  lemma {:induction false} ClassifiedErr(es: seq<(Value, Value)>, n: nat)
    requires n <= |es|
    ensures Classified(es, n).Err? <==> exists j :: 0 <= j < n && BadEntry(es[j])
  {
    if n > 0 {
      ClassifiedErr(es, n - 1);
    }
  }

  /** What the sorting guarantees: the servers form a dictionary from
      distinct server names to lists, and the reports a list. */
  predicate Shaped(s: Sections)
  {
    && s.servers.Dict? && UniqueKeys(s.servers.entries)
    && (forall t :: 0 <= t < |s.servers.entries| ==> s.servers.entries[t].0.Str? && s.servers.entries[t].1.List?)
    && s.reports.List?
  }

  /** Adding a server section keeps the servers a dictionary of lists. */
  lemma {:induction false} AddServerShaped(s: Sections, key: string, info: Value)
    requires Shaped(s)
    ensures var servers := DeepMerge(s.servers, Dict([(Str(key), ToList(info))]));
      Shaped(s.(servers := servers))
      && forall name :: HasKey(servers.entries, Str(name)) <==> HasKey(s.servers.entries, Str(name)) || name == key
  {
    var es := s.servers.entries;
    var upd := [(Str(key), ToList(info))];
    var servers := DeepMerge(s.servers, Dict(upd));
    DeepMergeDicts(es, upd, Str(key));
    forall k: Value
      ensures Lookup(servers.entries, k) == MergedValue(Lookup(es, k), Lookup(upd, k))
      ensures HasKey(es, k) || HasKey(upd, k) <==> HasKey(servers.entries, k)
    {
      DeepMergeDicts(es, upd, k);
    }
    forall t | 0 <= t < |servers.entries|
      ensures servers.entries[t].0.Str? && servers.entries[t].1.List?
    {
      var k := servers.entries[t].0;
      FindUnique(servers.entries, k, t);
      assert Lookup(servers.entries, k) == Some(servers.entries[t].1);
      if HasKey(es, k) {
        var j := Find(es, k);
        FindSpec(es, k);
        assert es[j].1.List?;
      }
    }
  }

  /** One turn of the sorting keeps the shape and adds the server the
      entry names, if any. */
  lemma {:induction false} ClassifyShaped(s: Sections, e: (Value, Value))
    requires Shaped(s) && Classify(s, e).Ok?
    ensures Shaped(Classify(s, e).value)
    ensures forall name :: HasKey(Classify(s, e).value.servers.entries, Str(name)) <==>
      HasKey(s.servers.entries, Str(name)) || ServerEntry(e, name)
  {
    var key := Normalize(e.0.s);
    if key != "" && key != "common" && key != "global" && key != "report" {
      AddServerShaped(s, key, e.1);
    }
  }

  /** After the sorting, the servers are exactly the names of the server
      entries, each with a list of descriptions, and the reports a list. */
  lemma {:induction false} ClassifiedServers(es: seq<(Value, Value)>, n: nat)
    requires n <= |es| && Classified(es, n).Ok?
    ensures Shaped(Classified(es, n).value)
    ensures forall name :: HasKey(Classified(es, n).value.servers.entries, Str(name)) <==>
      exists j :: 0 <= j < n && ServerEntry(es[j], name)
  {
    if n == 0 {
      assert Classified(es, n).value == NoSections;
    } else {
      ClassifiedServers(es, n - 1);
      var s := Classified(es, n - 1).value;
      assert Classified(es, n) == Classify(s, es[n - 1]);
      ClassifyShaped(s, es[n - 1]);
      NamesStep(es, n, s.servers.entries, Classified(es, n).value.servers.entries);
    }
  }

  lemma {:induction false} NamesStep(es: seq<(Value, Value)>, n: nat, before: seq<(Value, Value)>, after: seq<(Value, Value)>)
    requires 0 < n <= |es|
    requires forall name :: HasKey(before, Str(name)) <==> exists j :: 0 <= j < n - 1 && ServerEntry(es[j], name)
    requires forall name :: HasKey(after, Str(name)) <==> HasKey(before, Str(name)) || ServerEntry(es[n - 1], name)
    ensures forall name :: HasKey(after, Str(name)) <==> exists j :: 0 <= j < n && ServerEntry(es[j], name)
  {
    forall name
      ensures HasKey(after, Str(name)) <==> exists j :: 0 <= j < n && ServerEntry(es[j], name)
    {
      if ServerEntry(es[n - 1], name) {
        assert 0 <= n - 1 < n;
      }
    }
  }

  /** The second parsing: the top-level keys ssh_user, ssh_key,
      dest_folder and db_user are taken out first, sorted last under the
      common sections. */
  function Organised(data: Value): Result<Sections>
  {
    if !data.Dict? then Err(AttributeError)
    else
      var rest := Remaining(data.entries, CommonKeys);
      match Classified(rest, |rest|)
      case Err(err) => Err(err)
      case Ok(s) => Ok(s.(common := DeepMerge(Dict(Extracted(data.entries, CommonKeys)), s.common)))
  }

  /** The top-level common keys are defaults under the common sections:
      a `common` or `global` dictionary that gives no value for a key
      keeps the top-level one. */
  lemma {:induction false} OrganisedCommon(data: Value, k: Value)
    requires Organised(data).Ok?
    requires var rest := Remaining(data.entries, CommonKeys);
      Classified(rest, |rest|).value.common.Dict? && UniqueKeys(Classified(rest, |rest|).value.common.entries)
    ensures var rest := Remaining(data.entries, CommonKeys);
      var c := Classified(rest, |rest|).value.common.entries;
      Organised(data).value.common.Dict?
      && Lookup(Organised(data).value.common.entries, k) ==
         MergedValue(if k in CommonKeys then Lookup(data.entries, k) else None, Lookup(c, k))
  {
    var rest := Remaining(data.entries, CommonKeys);
    var c := Classified(rest, |rest|).value.common.entries;
    DeepMergeDicts(Extracted(data.entries, CommonKeys), c, k);
    ExtractSpec(data.entries, CommonKeys, k);
  }

  // ---------------------------------------------------------------------
  // The folds of the assembly loops
  // ---------------------------------------------------------------------

  /** The first `n` results, or the first failure among them. */
  function GatherOne<T>(rs: seq<Result<T>>, n: nat): Result<seq<T>>
    requires n <= |rs|
  {
    if n == 0 then Ok([])
    else
      match GatherOne(rs, n - 1)
      case Err(err) => Err(err)
      case Ok(prev) =>
        match rs[n - 1]
        case Err(err) => Err(err)
        case Ok(x) => Ok(prev + [x])
  }

  /** The first `n` lists of results, concatenated, or the first failure. */
  function Gather<T>(rs: seq<Result<seq<T>>>, n: nat): Result<seq<T>>
    requires n <= |rs|
  {
    if n == 0 then Ok([])
    else
      match Gather(rs, n - 1)
      case Err(err) => Err(err)
      case Ok(prev) =>
        match rs[n - 1]
        case Err(err) => Err(err)
        case Ok(xs) => Ok(prev + xs)
  }

  lemma {:induction false} GatherOneSpec<T>(rs: seq<Result<T>>, n: nat)
    requires n <= |rs|
    ensures GatherOne(rs, n).Err? <==> exists t :: 0 <= t < n && rs[t].Err?
    ensures GatherOne(rs, n).Ok? ==>
      |GatherOne(rs, n).value| == n && forall t :: 0 <= t < n ==> rs[t].Ok? && GatherOne(rs, n).value[t] == rs[t].value
  {
    if n > 0 {
      GatherOneSpec(rs, n - 1);
    }
  }

  lemma {:induction false} GatherSpec<T>(rs: seq<Result<seq<T>>>, n: nat)
    requires n <= |rs|
    ensures Gather(rs, n).Err? <==> exists t :: 0 <= t < n && rs[t].Err?
    ensures Gather(rs, n).Ok? ==> forall t :: 0 <= t < n ==> rs[t].Ok?
    ensures Gather(rs, n).Ok? ==> forall x :: x in Gather(rs, n).value ==> exists t :: 0 <= t < n && x in rs[t].value
  {
    if n > 0 {
      GatherSpec(rs, n - 1);
      if Gather(rs, n).Ok? {
        assert Gather(rs, n).value == Gather(rs, n - 1).value + rs[n - 1].value;
        forall x | x in Gather(rs, n).value
          ensures exists t :: 0 <= t < n && x in rs[t].value
        {
          if x in rs[n - 1].value {
            assert 0 <= n - 1 < n;
          }
        }
      }
    }
  }

  lemma {:induction false} GatherOneErrorStays<T>(rs: seq<Result<T>>, n: nat)
    requires n <= |rs| && GatherOne(rs, n).Err?
    ensures GatherOne(rs, |rs|) == GatherOne(rs, n)
    decreases |rs| - n
  {
    if n < |rs| {
      GatherOneErrorStays(rs, n + 1);
    }
  }

  /** One more list of results: its failure ends the fold, its values
      are appended. */
  lemma {:induction false} GatherNext<T>(rs: seq<Result<seq<T>>>, n: nat)
    requires n < |rs| && Gather(rs, n).Ok?
    ensures rs[n].Err? ==> Gather(rs, |rs|) == Err(rs[n].error)
    ensures rs[n].Ok? ==> Gather(rs, n + 1) == Ok(Gather(rs, n).value + rs[n].value)
  {
    if rs[n].Err? {
      GatherErrorStays(rs, n + 1);
    }
  }

  lemma {:induction false} GatherErrorStays<T>(rs: seq<Result<seq<T>>>, n: nat)
    requires n <= |rs| && Gather(rs, n).Err?
    ensures Gather(rs, |rs|) == Gather(rs, n)
    decreases |rs| - n
  {
    if n < |rs| {
      GatherErrorStays(rs, n + 1);
    }
  }

  // ---------------------------------------------------------------------
  // Third parsing: the actions of one server entry
  // ---------------------------------------------------------------------

  const LocalKeys: seq<Value> := [Str("local_history"), Str("local_history_folder"), Str("local_history_memory")]

  /** The Glacier keys, the last one spelled with a dash as in the source. */
  const GlacierKeys: seq<Value> := [Str("aws_glacier"), Str("aws_glacier_memory"), Str("aws_glacier_vault"), Str("aws-glacier_index_file")]

  const FilesKeys: seq<Value> := [Str("files")]

  const DbKeys: seq<Value> := [Str("databases"), Str("db_user")]

  /** `d.update(other)` for the first `n` entries of `other`. */
  function UpdateFrom(es: seq<(Value, Value)>, other: seq<(Value, Value)>, n: nat): seq<(Value, Value)>
    requires n <= |other|
  {
    if n == 0 then es else Set(UpdateFrom(es, other, n - 1), other[n - 1].0, other[n - 1].1)
  }

  /** After the update a key has the value `other` gives it, or keeps its
      own. */
  lemma {:induction false} UpdateFromSpec(es: seq<(Value, Value)>, other: seq<(Value, Value)>, n: nat, k: Value)
    requires n <= |other| && UniqueKeys(other)
    ensures Lookup(UpdateFrom(es, other, n), k) ==
      if 0 <= Find(other, k) < n then Some(other[Find(other, k)].1) else Lookup(es, k)
  {
    if n > 0 {
      UpdateFromSpec(es, other, n - 1, k);
      var (k', v') := other[n - 1];
      if k' == k {
        FindUnique(other, k, n - 1);
      } else {
        LookupOther(UpdateFrom(es, other, n - 1), k', v', k);
      }
    }
  }

  /** What iterating a string or a list yields: the one-character strings
      of the text, or the items. */
  function Items(v: Value): seq<Value>
  {
    match v
    case Str(s) => seq(|s|, t requires 0 <= t < |s| => Str([s[t]]))
    case List(items) => items
    case _ => []
  }

  /** A value that can be a dictionary key. */
  predicate Hashable(v: Value) { !v.List? && !v.Dict? }

  /** The key and value `dict.update` takes from one element of a sequence
      argument: the element is converted to a sequence (a dictionary gives
      its keys), which must have exactly two items, the first hashable. */
  function PairOf(x: Value): Result<(Value, Value)>
  {
    match x
    case Str(s) => if |s| != 2 then Err(ValueError) else Ok((Str([s[0]]), Str([s[1]])))
    case List(items) =>
      if |items| != 2 then Err(ValueError)
      else if !Hashable(items[0]) then Err(TypeError)
      else Ok((items[0], items[1]))
    case Dict(es) =>
      if |es| != 2 then Err(ValueError)
      else if !Hashable(es[0].0) then Err(TypeError)
      else Ok((es[0].0, es[1].0))
    case _ => Err(TypeError)
  }

  /** `d.update(xs)` for the first `n` elements of a sequence argument: each
      element's pair is stored in turn, and the first element that gives no
      pair raises. */
  function UpdatePairs(es: seq<(Value, Value)>, xs: seq<Value>, n: nat): Result<seq<(Value, Value)>>
    requires n <= |xs|
  {
    if n == 0 then Ok(es)
    else
      match UpdatePairs(es, xs, n - 1)
      case Err(err) => Err(err)
      case Ok(prev) =>
        match PairOf(xs[n - 1])
        case Err(err) => Err(err)
        case Ok(p) => Ok(Set(prev, p.0, p.1))
  }

  /** The pairs the elements give, a placeholder where one gives none. */
  function Pairs(xs: seq<Value>): seq<(Value, Value)>
  {
    seq(|xs|, t requires 0 <= t < |xs| => match PairOf(xs[t]) case Ok(p) => p case Err(_) => (Null, Null))
  }

  /** When every element gives a pair, the sequence update is the mapping
      update with those pairs. */
  lemma {:induction false} UpdatePairsOk(es: seq<(Value, Value)>, xs: seq<Value>, n: nat)
    requires n <= |xs| && forall t :: 0 <= t < n ==> PairOf(xs[t]).Ok?
    ensures UpdatePairs(es, xs, n) == Ok(UpdateFrom(es, Pairs(xs), n))
  {
    if n > 0 {
      UpdatePairsOk(es, xs, n - 1);
      assert PairOf(xs[n - 1]).Ok?;
      assert Pairs(xs)[n - 1] == PairOf(xs[n - 1]).value;
    }
  }

  /** The first element that gives no pair decides the exception. */
  lemma {:induction false} UpdatePairsFirstError(es: seq<(Value, Value)>, xs: seq<Value>, n: nat, t: nat)
    requires t < n <= |xs| && PairOf(xs[t]).Err? && forall u :: 0 <= u < t ==> PairOf(xs[u]).Ok?
    ensures UpdatePairs(es, xs, n) == Err(PairOf(xs[t]).error)
  {
    if n == t + 1 {
      UpdatePairsOk(es, xs, t);
    } else {
      UpdatePairsFirstError(es, xs, n - 1, t);
    }
  }

  /** `server_info = copy.deepcopy(common_info); server_info.update(info)`.
      A list `common_info` has no `update`. A dictionary `info` is merged
      key by key; a string or a list is read as a sequence of pairs; any
      other value is not iterable. */
  function ServerInfo(common: Value, info: Value): Result<seq<(Value, Value)>>
  {
    if !common.Dict? then Err(AttributeError)
    else if info.Dict? then Ok(UpdateFrom(common.entries, info.entries, |info.entries|))
    else if info.Str? || info.List? then UpdatePairs(common.entries, Items(info), |Items(info)|)
    else Err(TypeError)
  }

  /** A string description is a no-op when empty and a `ValueError`
      otherwise, since its one-character items are not pairs. */
  lemma {:induction false} ServerInfoStr(common: Value, s: string)
    requires common.Dict?
    ensures ServerInfo(common, Str(s)) == if s == [] then Ok(common.entries) else Err(ValueError)
  {
    var xs := Items(Str(s));
    if s != [] {
      assert xs[0] == Str([s[0]]);
      UpdatePairsFirstError(common.entries, xs, |xs|, 0);
    }
  }

  /** A list of two-item lists with hashable first items updates like the
      dictionary of those pairs. */
  lemma {:induction false} ServerInfoPairList(common: Value, info: seq<Value>)
    requires common.Dict?
    requires forall t :: 0 <= t < |info| ==> info[t].List? && |info[t].items| == 2 && Hashable(info[t].items[0])
    ensures ServerInfo(common, List(info)).Ok?
    ensures forall t :: 0 <= t < |info| ==> Pairs(info)[t] == (info[t].items[0], info[t].items[1])
    ensures ServerInfo(common, List(info)) == Ok(UpdateFrom(common.entries, Pairs(info), |info|))
  {
    UpdatePairsOk(common.entries, info, |info|);
  }

  /** The server entry's own keys win over the common ones. */
  lemma {:induction false} ServerInfoSpec(common: Value, info: Value, k: Value)
    requires common.Dict? && info.Dict? && UniqueKeys(info.entries)
    ensures ServerInfo(common, info).Ok?
    ensures Lookup(ServerInfo(common, info).value, k) ==
      if HasKey(info.entries, k) then Lookup(info.entries, k) else Lookup(common.entries, k)
  {
    UpdateFromSpec(common.entries, info.entries, |info.entries|, k);
  }

  /** The storages of a server entry: the local one, then the Glacier one. */
  function StoragesOf(info: seq<(Value, Value)>, server: string, env: Env): Result<seq<Storage>>
  {
    match LocalStorageList(Extracted(info, LocalKeys), server)
    case Err(err) => Err(err)
    case Ok(local) =>
      match GlacierStorageList(Extracted(Remaining(info, LocalKeys), GlacierKeys), server, env.defaultIndex, env.resolvePath)
      case Err(err) => Err(err)
      case Ok(glacier) => Ok(local + glacier)
  }

  /** `server_info` once the storage keys are taken out. */
  function AfterStorages(info: seq<(Value, Value)>): seq<(Value, Value)>
  {
    Remaining(Remaining(info, LocalKeys), GlacierKeys)
  }

  /** `server_info` once the files and databases keys are taken out too:
      the parameters every action of the entry is parsed with. */
  function ActionParams(info: seq<(Value, Value)>): seq<(Value, Value)>
  {
    Remaining(Remaining(AfterStorages(info), FilesKeys), DbKeys)
  }

  /** The action parameters hold none of the keys taken out. */
  lemma {:induction false} ActionParamsSpec(info: seq<(Value, Value)>, k: Value)
    ensures k in LocalKeys + GlacierKeys + FilesKeys + DbKeys ==> !HasKey(ActionParams(info), k)
    ensures k !in LocalKeys + GlacierKeys + FilesKeys + DbKeys ==> Lookup(ActionParams(info), k) == Lookup(info, k)
  {
    ExtractSpec(info, LocalKeys, k);
    ExtractSpec(Remaining(info, LocalKeys), GlacierKeys, k);
    ExtractSpec(AfterStorages(info), FilesKeys, k);
    ExtractSpec(Remaining(AfterStorages(info), FilesKeys), DbKeys, k);
  }

  /** What the `files` key leaves: the entries to build actions from, the
      `exclude` value and `files_info` itself. */
  datatype FilesPart = FilesPart(entries: seq<(Value, Value)>, excludes: Value, info: Value)

  /** The `files` block. A string becomes a one-element list, and a list is
      turned into a dictionary keyed by `_filename_to_prefix` of the whole
      list, which fails unless the list is empty. */
  function FilesOf(server: string, filesInfo: seq<(Value, Value)>): (r: Result<FilesPart>)
    ensures r.Ok? ==> r.value.info.Dict?
  {
    match Lookup(filesInfo, Str("files"))
    case None => Ok(FilesPart([], List([]), Dict(filesInfo)))
    case Some(v) =>
      var v' := if v.Str? then List([v]) else v;
      if v'.List? then
        if v'.items == [] then Ok(FilesPart([], List([]), Dict([]))) else Err(TypeError)
      else if !v'.Dict? then Err(ConfigError("Invalid 'files' section for server " + server + ": " + ToStr(v')))
      else
        match Lookup(v'.entries, Str("exclude"))
        case None => Ok(FilesPart(v'.entries, List([]), v'))
        case Some(x) =>
          var rest := Remove(v'.entries, Str("exclude"));
          Ok(FilesPart(rest, x, Dict(rest)))
  }

  /** The forms of `files`: a dictionary gives its entries but `exclude`,
      a string or a non-empty list fails, an empty list gives no action,
      and anything else is refused with its text. */
  lemma {:induction false} FilesOfSpec(server: string, filesInfo: seq<(Value, Value)>, v: Value)
    requires Lookup(filesInfo, Str("files")) == Some(v)
    ensures v.Str? || (v.List? && v.items != []) ==> FilesOf(server, filesInfo) == Err(TypeError)
    ensures v == List([]) ==> FilesOf(server, filesInfo) == Ok(FilesPart([], List([]), Dict([])))
    ensures v.Null? || v.Bool? || v.Int? ==>
      FilesOf(server, filesInfo) == Err(ConfigError("Invalid 'files' section for server " + server + ": " + ToStr(v)))
    ensures v.Dict? ==> (&& FilesOf(server, filesInfo).Ok?
                         && FilesOf(server, filesInfo).value.entries == Remove(v.entries, Str("exclude"))
                         && FilesOf(server, filesInfo).value.excludes ==
                            (if HasKey(v.entries, Str("exclude")) then Lookup(v.entries, Str("exclude")).value else List([])))
  {
    if v.Dict? && !HasKey(v.entries, Str("exclude")) {
      RemoveAbsent(v.entries, Str("exclude"));
    }
  }

  /** What `for to_exclude in file_excludes` walks through: the items of a
      list, the characters of a string, the keys of a dictionary. */
  function ExcludeItems(v: Value): Result<seq<Value>>
  {
    match v
    case List(items) => Ok(items)
    case Str(s) => Ok(seq(|s|, i requires 0 <= i < |s| => Str([s[i]])))
    case Dict(es) => Ok(Keys(es))
    case _ => Err(TypeError)
  }

  /** `_parse_file_action_conf` with the raw `exclude` value: the
      exclusions are walked last, after every other check. */
  function FileAction(server: string, name: Value, params: seq<(Value, Value)>, fileInfo: Value, excludes: Value,
                      keyExists: string -> bool): Result<Action>
  {
    match ExcludeItems(excludes)
    case Ok(xs) => ParseFileActionConf(server, name, params, fileInfo, xs, keyExists)
    case Err(err) =>
      match ParseFileActionConf(server, name, params, fileInfo, [], keyExists)
      case Err(e) => Err(e)
      case Ok(_) => Err(err)
  }

  /** An action given the storages of its server entry. */
  function Attach(r: Result<Action>, storages: seq<Storage>): Result<Action>
  {
    match r
    case Err(err) => Err(err)
    case Ok(a) => Ok(a.(storages := a.storages + storages))
  }

  /** The actions built by `parse` from each entry, in the order of the
      entries, each given the storages of its server entry; the first
      entry that fails stops the block. */
  function Built(entries: seq<(Value, Value)>, parse: (Value, Value) -> Result<Action>, storages: seq<Storage>)
    : Result<seq<Action>>
  {
    GatherOne(Results(entries, parse, storages), |entries|)
  }

  function Results(entries: seq<(Value, Value)>, parse: (Value, Value) -> Result<Action>, storages: seq<Storage>)
    : seq<Result<Action>>
  {
    seq(|entries|, t requires 0 <= t < |entries| => Attach(parse(entries[t].0, entries[t].1), storages))
  }

  /** One action per entry, each the parsed one with the storages, and a
      failure exactly when one entry fails. */
  lemma {:induction false} BuiltSpec(entries: seq<(Value, Value)>, parse: (Value, Value) -> Result<Action>, storages: seq<Storage>)
    ensures Built(entries, parse, storages).Err? <==>
      exists t :: 0 <= t < |entries| && parse(entries[t].0, entries[t].1).Err?
    ensures Built(entries, parse, storages).Ok? ==> |Built(entries, parse, storages).value| == |entries|
    ensures Built(entries, parse, storages).Ok? ==> forall t :: 0 <= t < |entries| ==>
      parse(entries[t].0, entries[t].1).Ok? &&
      Built(entries, parse, storages).value[t] ==
        parse(entries[t].0, entries[t].1).value.(storages := parse(entries[t].0, entries[t].1).value.storages + storages)
  {
    var rs := Results(entries, parse, storages);
    GatherOneSpec(rs, |entries|);
    forall t | 0 <= t < |entries|
      ensures rs[t].Err? <==> parse(entries[t].0, entries[t].1).Err?
    {
    }
  }

  /** The files actions, in the order of the entries. */
  function FileActions(server: string, entries: seq<(Value, Value)>, params: seq<(Value, Value)>, excludes: Value,
                       storages: seq<Storage>, keyExists: string -> bool): Result<seq<Action>>
  {
    Built(entries, FileParser(server, params, excludes, keyExists), storages)
  }

  function FileParser(server: string, params: seq<(Value, Value)>, excludes: Value, keyExists: string -> bool)
    : (Value, Value) -> Result<Action>
  {
    (name, fileInfo) => FileAction(server, name, params, fileInfo, excludes, keyExists)
  }

  /** `db_user`: the entry's own, else the common one, else `None`. */
  function DbUser(dbInfo: seq<(Value, Value)>, common: seq<(Value, Value)>): Value
  {
    match Lookup(dbInfo, Str("db_user"))
    case Some(u) => u
    case None =>
      match Lookup(common, Str("db_user"))
      case Some(u) => u
      case None => Null
  }

  /** The `databases` block. A string or a list goes through
      `_db_to_prefix` of the whole list, which fails unless the list is
      empty; the section is then checked to be a dictionary through
      `files_info`, and `.items()` fails on anything but a dictionary. */
  function DbEntries(server: string, v: Value, filesInfo: Value): Result<seq<(Value, Value)>>
  {
    var v' := if v.Str? then List([v]) else v;
    if v'.List? && v'.items != [] then Err(AttributeError)
    else
      var d := if v'.List? then Dict([]) else v';
      if !filesInfo.Dict? then Err(ConfigError("Invalid 'databases' section for server " + server))
      else if !d.Dict? then Err(AttributeError)
      else Ok(d.entries)
  }

  /** The forms of `databases`; the check of `files_info` never refuses,
      since the `files` block leaves a dictionary there. */
  lemma {:induction false} DbEntriesSpec(server: string, v: Value, filesInfo: seq<(Value, Value)>)
    requires FilesOf(server, filesInfo).Ok?
    ensures var r := DbEntries(server, v, FilesOf(server, filesInfo).value.info);
      && r != Err(ConfigError("Invalid 'databases' section for server " + server))
      && (v.Dict? ==> r == Ok(v.entries))
      && (v == List([]) ==> r == Ok([]))
      && (!v.Dict? && v != List([]) ==> r == Err(AttributeError))
  {
  }

  /** The database actions, in the order of the entries. */
  function DbActions(server: string, entries: seq<(Value, Value)>, params: seq<(Value, Value)>, dbUser: Value,
                     storages: seq<Storage>, keyExists: string -> bool): Result<seq<Action>>
  {
    Built(entries, DbParser(server, params, dbUser, keyExists), storages)
  }

  function DbParser(server: string, params: seq<(Value, Value)>, dbUser: Value, keyExists: string -> bool)
    : (Value, Value) -> Result<Action>
  {
    (name, dbInfo) => ParseDbActionConf(server, name, params, dbInfo, dbUser, keyExists)
  }

  /** The actions of one description `info` of a server: its files
      actions, then its database actions. */
  function InfoActions(server: string, common: Value, info: Value, env: Env): Result<seq<Action>>
  {
    match ServerInfo(common, info)
    case Err(err) => Err(err)
    case Ok(si) =>
      match StoragesOf(si, server, env)
      case Err(err) => Err(err)
      case Ok(storages) => EntryActions(server, common, si, storages, env)
  }

  /** The files and databases blocks of one server description. */
  function EntryActions(server: string, common: Value, si: seq<(Value, Value)>, storages: seq<Storage>, env: Env)
    : Result<seq<Action>>
  {
    var params := ActionParams(si);
    match FilesOf(server, Extracted(AfterStorages(si), FilesKeys))
    case Err(err) => Err(err)
    case Ok(fp) =>
      match FileActions(server, fp.entries, params, fp.excludes, storages, env.keyExists)
      case Err(err) => Err(err)
      case Ok(files) =>
        var dbInfo := Extracted(Remaining(AfterStorages(si), FilesKeys), DbKeys);
        match Lookup(dbInfo, Str("databases"))
        case None => Ok(files)
        case Some(v) =>
          match DbEntries(server, v, fp.info)
          case Err(err) => Err(err)
          case Ok(des) =>
            match DbActions(server, des, params, DbUser(dbInfo, Entries(common)), storages, env.keyExists)
            case Err(err) => Err(err)
            case Ok(dbs) => Ok(files + dbs)
  }

  function Entries(v: Value): seq<(Value, Value)>
  {
    if v.Dict? then v.entries else []
  }

  /** Every files action of a server entry belongs to the server, backs
      up a folder, and goes to the entry's storages; one is built per
      entry, and the block fails exactly when one entry does. */
  lemma {:induction false} FileActionsSpec(server: string, entries: seq<(Value, Value)>, params: seq<(Value, Value)>,
                        excludes: Value, storages: seq<Storage>, keyExists: string -> bool)
    ensures FileActions(server, entries, params, excludes, storages, keyExists).Err? <==>
      exists t :: 0 <= t < |entries| && FileAction(server, entries[t].0, params, entries[t].1, excludes, keyExists).Err?
    ensures FileActions(server, entries, params, excludes, storages, keyExists).Ok? ==>
      var r := FileActions(server, entries, params, excludes, storages, keyExists).value;
      |r| == |entries| && forall t :: 0 <= t < |r| ==> r[t].server == server && r[t].storages == storages && r[t].target.Files?
  {
    var parse := FileParser(server, params, excludes, keyExists);
    BuiltSpec(entries, parse, storages);
    if Built(entries, parse, storages).Ok? {
      forall t | 0 <= t < |entries|
        ensures parse(entries[t].0, entries[t].1).value.server == server
        ensures parse(entries[t].0, entries[t].1).value.target.Files?
        ensures parse(entries[t].0, entries[t].1).value.storages == []
      {
        FileActionParsed(server, entries[t].0, params, entries[t].1, excludes, keyExists);
      }
    }
  }

  lemma {:induction false} FileActionParsed(server: string, name: Value, params: seq<(Value, Value)>, fileInfo: Value, excludes: Value,
                         keyExists: string -> bool)
    ensures FileAction(server, name, params, fileInfo, excludes, keyExists).Ok? ==>
      var a := FileAction(server, name, params, fileInfo, excludes, keyExists).value;
      a.server == server && a.storages == [] && a.target.Files?
  {
    match ExcludeItems(excludes)
    case Ok(xs) =>
      if ParseFileActionConf(server, name, params, fileInfo, xs, keyExists).Ok? {
        FileActionShape(server, name, params, fileInfo, xs, keyExists);
      }
    case Err(_) =>
  }

  /** Every database action of a server entry belongs to the server,
      dumps a database as `db_user`, and goes to the entry's storages. */
  lemma {:induction false} DbActionsSpec(server: string, entries: seq<(Value, Value)>, params: seq<(Value, Value)>,
                      dbUser: Value, storages: seq<Storage>, keyExists: string -> bool)
    ensures DbActions(server, entries, params, dbUser, storages, keyExists).Err? <==>
      exists t :: 0 <= t < |entries| && ParseDbActionConf(server, entries[t].0, params, entries[t].1, dbUser, keyExists).Err?
    ensures DbActions(server, entries, params, dbUser, storages, keyExists).Ok? ==>
      var r := DbActions(server, entries, params, dbUser, storages, keyExists).value;
      |r| == |entries| && forall t :: 0 <= t < |r| ==>
        r[t].server == server && r[t].storages == storages && r[t].target.Database? && r[t].target.dbUser == dbUser
  {
    var parse := DbParser(server, params, dbUser, keyExists);
    BuiltSpec(entries, parse, storages);
    if Built(entries, parse, storages).Ok? {
      forall t | 0 <= t < |entries|
        ensures parse(entries[t].0, entries[t].1).value.server == server
        ensures parse(entries[t].0, entries[t].1).value.target.Database?
        ensures parse(entries[t].0, entries[t].1).value.target.dbUser == dbUser
        ensures parse(entries[t].0, entries[t].1).value.storages == []
      {
        DbActionShape(server, entries[t].0, params, entries[t].1, dbUser, keyExists);
      }
    }
  }

  /** The actions of one server description all belong to the server. */
  lemma {:induction false} InfoActionsServer(server: string, common: Value, info: Value, env: Env)
    requires InfoActions(server, common, info, env).Ok?
    ensures forall a :: a in InfoActions(server, common, info, env).value ==> a.server == server
  {
    var si := ServerInfo(common, info).value;
    EntryActionsServer(server, common, si, StoragesOf(si, server, env).value, env);
  }

  lemma {:induction false} EntryActionsServer(server: string, common: Value, si: seq<(Value, Value)>, storages: seq<Storage>,
                                              env: Env)
    requires EntryActions(server, common, si, storages, env).Ok?
    ensures forall a :: a in EntryActions(server, common, si, storages, env).value ==> a.server == server
  {
    var params := ActionParams(si);
    var fp := FilesOf(server, Extracted(AfterStorages(si), FilesKeys)).value;
    FileActionsSpec(server, fp.entries, params, fp.excludes, storages, env.keyExists);
    var dbInfo := Extracted(Remaining(AfterStorages(si), FilesKeys), DbKeys);
    var v := Lookup(dbInfo, Str("databases"));
    if v.Some? {
      var des := DbEntries(server, v.value, fp.info).value;
      DbActionsSpec(server, des, params, DbUser(dbInfo, Entries(common)), storages, env.keyExists);
    }
  }

  // ---------------------------------------------------------------------
  // Third parsing: all servers
  // ---------------------------------------------------------------------

  /** The actions of the descriptions of a server, in order. */
  function ListActions(server: string, common: Value, infos: seq<Value>, env: Env): Result<seq<Action>>
  {
    Gather(InfoResults(server, common, infos, env), |infos|)
  }

  /** The actions of each description of a server. */
  function InfoResults(server: string, common: Value, infos: seq<Value>, env: Env): seq<Result<seq<Action>>>
  {
    seq(|infos|, j requires 0 <= j < |infos| => InfoActions(server, common, infos[j], env))
  }

  /** The actions of each server. */
  function ServerResults(servers: seq<(Value, Value)>, common: Value, env: Env): seq<Result<seq<Action>>>
  {
    seq(|servers|, t requires 0 <= t < |servers| => ListActions(ToStr(servers[t].0), common, ToList(servers[t].1).items, env))
  }

  /** The actions of all servers, in the order of the servers. */
  function ServersActions(servers: seq<(Value, Value)>, common: Value, env: Env): Result<seq<Action>>
  {
    Gather(ServerResults(servers, common, env), |servers|)
  }

  lemma {:induction false} ListActionsServer(server: string, common: Value, infos: seq<Value>, env: Env)
    requires ListActions(server, common, infos, env).Ok?
    ensures forall a :: a in ListActions(server, common, infos, env).value ==> a.server == server
  {
    var rs := InfoResults(server, common, infos, env);
    GatherSpec(rs, |infos|);
    forall a: Action | a in Gather(rs, |infos|).value
      ensures a.server == server
    {
      var j :| 0 <= j < |infos| && a in rs[j].value;
      assert rs[j] == InfoActions(server, common, infos[j], env);
      InfoActionsServer(server, common, infos[j], env);
    }
  }

  /** Every action belongs to one of the servers. */
  lemma {:induction false} ServersActionsServer(servers: seq<(Value, Value)>, common: Value, env: Env)
    requires ServersActions(servers, common, env).Ok?
    ensures forall a :: a in ServersActions(servers, common, env).value ==>
      exists t :: 0 <= t < |servers| && a.server == ToStr(servers[t].0)
  {
    var rs := ServerResults(servers, common, env);
    GatherSpec(rs, |servers|);
    forall a: Action | a in Gather(rs, |servers|).value
      ensures exists t :: 0 <= t < |servers| && a.server == ToStr(servers[t].0)
    {
      var t :| 0 <= t < |servers| && a in rs[t].value;
      assert rs[t] == ListActions(ToStr(servers[t].0), common, ToList(servers[t].1).items, env);
      ListActionsServer(ToStr(servers[t].0), common, ToList(servers[t].1).items, env);
    }
  }

  /** `action.add_storage(storage)` for each storage of the entry. */
  method AddStorages(a: Action, storages: seq<Storage>) returns (a': Action)
    ensures a' == a.(storages := a.storages + storages)
  {
    a' := a;
    var k := 0;
    while k < |storages|
      invariant 0 <= k <= |storages| && a' == a.(storages := a.storages + storages[..k])
    {
      assert storages[..k + 1] == storages[..k] + [storages[k]];
      a' := a'.(storages := a'.storages + [storages[k]]);
      k := k + 1;
    }
    assert storages[..k] == storages;
  }

  /** The loop over the entries of a `files` or `databases` block: each
      action is parsed, given the storages and appended. */
  method BuildLoop(entries: seq<(Value, Value)>, parse: (Value, Value) -> Result<Action>, storages: seq<Storage>)
    returns (r: Result<seq<Action>>)
    ensures r == Built(entries, parse, storages)
  {
    ghost var rs := Results(entries, parse, storages);
    var actions: seq<Action> := [];
    var i := 0;
    while i < |entries|
      invariant 0 <= i <= |entries| && GatherOne(rs, i) == Ok(actions)
    {
      var (name, info) := entries[i];
      var parsed := parse(name, info);
      if parsed.Err? {
        assert rs[i] == Err(parsed.error);
        GatherOneErrorStays(rs, i + 1);
        return Err(parsed.error);
      }
      var action := AddStorages(parsed.value, storages);
      assert rs[i] == Ok(action);
      actions := actions + [action];
      i := i + 1;
    }
    return Ok(actions);
  }

  /** The body of the loop over the descriptions of a server: the merged
      `server_info` is emptied key group by key group, as the source does
      with `extract_keys`, and what is left is the action parameters. */
  method InfoActionsLoop(server: string, common: Value, info: Value, env: Env) returns (r: Result<seq<Action>>)
    ensures r == InfoActions(server, common, info, env)
  {
    var merged := ServerInfo(common, info);
    if merged.Err? {
      return Err(merged.error);
    }
    var serverInfo := new PyDict(merged.value);
    var localInfo := serverInfo.ExtractKeys(LocalKeys);
    var local := LocalStorageList(localInfo, server);
    if local.Err? {
      return Err(local.error);
    }
    var glacierInfo := serverInfo.ExtractKeys(GlacierKeys);
    var glacier := GlacierStorageList(glacierInfo, server, env.defaultIndex, env.resolvePath);
    if glacier.Err? {
      return Err(glacier.error);
    }
    var storages := local.value + glacier.value;
    var filesInfo := serverInfo.ExtractKeys(FilesKeys);
    var dbInfo := serverInfo.ExtractKeys(DbKeys);
    var params := serverInfo.entries;
    var part := FilesOf(server, filesInfo);
    if part.Err? {
      return Err(part.error);
    }
    var fp := part.value;
    var files := BuildLoop(fp.entries, FileParser(server, params, fp.excludes, env.keyExists), storages);
    if files.Err? {
      return files;
    }
    var databases := Lookup(dbInfo, Str("databases"));
    if databases.None? {
      return files;
    }
    var des := DbEntries(server, databases.value, fp.info);
    if des.Err? {
      return Err(des.error);
    }
    var dbUser := DbUser(dbInfo, Entries(common));
    var dbs := BuildLoop(des.value, DbParser(server, params, dbUser, env.keyExists), storages);
    if dbs.Err? {
      return dbs;
    }
    return Ok(files.value + dbs.value);
  }

  /** The loops of the third parsing: for each server, for each of its
      descriptions, its actions are appended to `actions`. */
  method ServersActionsLoop(servers: seq<(Value, Value)>, common: Value, env: Env) returns (r: Result<seq<Action>>)
    ensures r == ServersActions(servers, common, env)
  {
    ghost var rs := ServerResults(servers, common, env);
    r := Ok([]);
    var i := 0;
    while i < |servers| && r.Ok?
      invariant 0 <= i <= |servers| == |rs|
      invariant r.Ok? ==> Gather(rs, i) == r
      invariant r.Err? ==> Gather(rs, |rs|) == r
    {
      r := ServerStep(servers, common, env, rs, i, r.value);
      i := i + 1;
    }
  }

  /** One turn of that loop, for the server entry `servers[i]`. */
  method ServerStep(servers: seq<(Value, Value)>, common: Value, env: Env, ghost rs: seq<Result<seq<Action>>>,
                    i: nat, actions: seq<Action>) returns (r: Result<seq<Action>>)
    requires rs == ServerResults(servers, common, env)
    requires i < |servers| && Gather(rs, i) == Ok(actions)
    ensures r.Err? ==> Gather(rs, |rs|) == r
    ensures r.Ok? ==> Gather(rs, i + 1) == r
  {
    var server := ToStr(servers[i].0);
    var infos := ToList(servers[i].1).items;
    assert rs[i] == ListActions(server, common, infos, env);
    r := ListActionsLoop(server, common, infos, env, actions);
    GatherNext(rs, i);
  }

  /** The inner loop: the actions of each description of `server` are
      appended to `actions`. */
  method ListActionsLoop(server: string, common: Value, infos: seq<Value>, env: Env, actions: seq<Action>)
    returns (r: Result<seq<Action>>)
    ensures ListActions(server, common, infos, env).Err? ==> r == ListActions(server, common, infos, env)
    ensures ListActions(server, common, infos, env).Ok? ==> r == Ok(actions + ListActions(server, common, infos, env).value)
  {
    ghost var irs := InfoResults(server, common, infos, env);
    var acc := actions;
    var j := 0;
    while j < |infos|
      invariant 0 <= j <= |infos| && Gather(irs, j).Ok? && acc == actions + Gather(irs, j).value
    {
      var more := InfoStep(server, common, infos, env, j, actions, acc);
      if more.Err? {
        return more;
      }
      acc := more.value;
      j := j + 1;
    }
    return Ok(acc);
  }

  /** One turn of that loop, for the description `infos[j]`. */
  method InfoStep(server: string, common: Value, infos: seq<Value>, env: Env, j: nat, ghost actions: seq<Action>,
                  acc: seq<Action>) returns (r: Result<seq<Action>>)
    requires j < |infos| && Gather(InfoResults(server, common, infos, env), j).Ok?
    requires acc == actions + Gather(InfoResults(server, common, infos, env), j).value
    ensures r.Err? ==> r == ListActions(server, common, infos, env)
    ensures r.Ok? ==> (&& Gather(InfoResults(server, common, infos, env), j + 1).Ok?
                       && r.value == actions + Gather(InfoResults(server, common, infos, env), j + 1).value)
  {
    ghost var irs := InfoResults(server, common, infos, env);
    var more := InfoActionsLoop(server, common, infos[j], env);
    assert irs[j] == more;
    GatherNext(irs, j);
    if more.Err? {
      return Err(more.error);
    }
    Append3(actions, Gather(irs, j).value, more.value);
    return Ok(acc + more.value);
  }

  // ---------------------------------------------------------------------
  // The duplicate full_name check
  // ---------------------------------------------------------------------

  /** Two distinct actions with the same `full_name`. */
  predicate Clash(actions: seq<Action>, i: nat, j: nat)
    requires i < |actions| && j < |actions|
  {
    i != j && FullName(actions[i]) == FullName(actions[j])
  }

  /** The first `j' >= j` that clashes with action `i`. */
  function ClashWith(actions: seq<Action>, i: nat, j: nat): (r: Option<nat>)
    requires i < |actions| && j <= |actions|
    ensures r.Some? ==> j <= r.value < |actions| && Clash(actions, i, r.value)
    ensures r.None? <==> forall j' :: j <= j' < |actions| ==> !Clash(actions, i, j')
    ensures r.Some? ==> forall j' :: j <= j' < r.value ==> !Clash(actions, i, j')
    decreases |actions| - j
  {
    if j == |actions| then None
    else if Clash(actions, i, j) then Some(j)
    else ClashWith(actions, i, j + 1)
  }

  /** The first pair the nested loops meet, from action `i` on. */
  function FirstClash(actions: seq<Action>, i: nat): (r: Option<(nat, nat)>)
    requires i <= |actions|
    ensures r.Some? ==> i <= r.value.0 < |actions| && r.value.1 < |actions| && Clash(actions, r.value.0, r.value.1)
    ensures r.None? <==> forall i', j :: i <= i' < |actions| && 0 <= j < |actions| ==> !Clash(actions, i', j)
    decreases |actions| - i
  {
    if i == |actions| then None
    else
      match ClashWith(actions, i, 0)
      case Some(j) => Some((i, j))
      case None => FirstClash(actions, i + 1)
  }

  /** The pair reported is the first in the source's order, and its
      second action comes later in the list. */
  lemma {:induction false} FirstClashOrder(actions: seq<Action>)
    requires FirstClash(actions, 0).Some?
    ensures var (i, j) := FirstClash(actions, 0).value;
      i < j && forall i', j' :: 0 <= i' < i && 0 <= j' < |actions| ==> !Clash(actions, i', j')
  {
    FirstClashSkips(actions, 0);
    var (i, j) := FirstClash(actions, 0).value;
    if j < i {
      assert Clash(actions, j, i);
    }
  }

  lemma {:induction false} FirstClashSkips(actions: seq<Action>, i: nat)
    requires i <= |actions| && FirstClash(actions, i).Some?
    ensures forall i', j' :: i <= i' < FirstClash(actions, i).value.0 && 0 <= j' < |actions| ==> !Clash(actions, i', j')
    decreases |actions| - i
  {
    if ClashWith(actions, i, 0).None? {
      FirstClashSkips(actions, i + 1);
    }
  }

  /** The error the check raises. */
  function ClashError(a: Action, b: Action, describe: Action -> string): Error
  {
    ConfigError("Two actions have the same final archive name: " + "\n" + Indent(describe(a)) + "\n"
                + "is incompatible with:" + "\n" + Indent(describe(b)))
  }

  /** The nested loops of the check. */
  method CheckDuplicates(actions: seq<Action>) returns (r: Option<(nat, nat)>)
    ensures r == FirstClash(actions, 0)
  {
    var i := 0;
    while i < |actions|
      invariant 0 <= i <= |actions| && FirstClash(actions, i) == FirstClash(actions, 0)
    {
      var j := 0;
      while j < |actions|
        invariant 0 <= j <= |actions| && ClashWith(actions, i, j) == ClashWith(actions, i, 0)
      {
        if i != j && FullName(actions[i]) == FullName(actions[j]) {
          return Some((i, j));
        }
        j := j + 1;
      }
      i := i + 1;
    }
    return None;
  }

  // ---------------------------------------------------------------------
  // The whole load
  // ---------------------------------------------------------------------

  /** What `_load_conf` returns: the actions and the report targets. */
  datatype Config = Config(actions: seq<Action>, reports: seq<ReportTarget>)

  /** The actions of the sorted sections, refused when two share a
      `full_name`. */
  function LoadActions(s: Sections, env: Env): Result<seq<Action>>
  {
    match ServersActions(Entries(s.servers), s.common, env)
    case Err(err) => Err(err)
    case Ok(actions) =>
      match FirstClash(actions, 0)
      case Some((i, j)) => Err(ClashError(actions[i], actions[j], env.describe))
      case None => Ok(actions)
  }

  /** `_load_conf` on the loaded, include-expanded tree `data`. */
  function LoadConf(data: Value, env: Env): Result<Config>
  {
    match Organised(data)
    case Err(err) => Err(err)
    case Ok(s) =>
      match LoadActions(s, env)
      case Err(err) => Err(err)
      case Ok(actions) =>
        match ReportTargets(ToList(s.reports).items, env.mappingExists)
        case Err(err) => Err(err)
        case Ok(reports) => Ok(Config(actions, reports))
  }

  /** The actions are those of the servers exactly when no two of them
      share a `full_name`; otherwise the load is refused by a
      configuration error. */
  lemma {:induction false} LoadActionsSpec(s: Sections, env: Env)
    ensures ServersActions(Entries(s.servers), s.common, env).Err? ==>
      LoadActions(s, env) == Err(ServersActions(Entries(s.servers), s.common, env).error)
    ensures LoadActions(s, env).Ok? ==>
      LoadActions(s, env) == ServersActions(Entries(s.servers), s.common, env)
    ensures LoadActions(s, env).Ok? ==> forall i, j ::
      (0 <= i < |LoadActions(s, env).value| && 0 <= j < |LoadActions(s, env).value| && i != j) ==>
      FullName(LoadActions(s, env).value[i]) != FullName(LoadActions(s, env).value[j])
    ensures ServersActions(Entries(s.servers), s.common, env).Ok? ==> forall i, j ::
      (0 <= i < |ServersActions(Entries(s.servers), s.common, env).value| &&
       0 <= j < |ServersActions(Entries(s.servers), s.common, env).value| &&
       Clash(ServersActions(Entries(s.servers), s.common, env).value, i, j)) ==>
      LoadActions(s, env).Err? && LoadActions(s, env).error.ConfigError?
  {
    var sa := ServersActions(Entries(s.servers), s.common, env);
    if sa.Ok? {
      var actions := sa.value;
      if FirstClash(actions, 0).None? {
        forall i, j | 0 <= i < |actions| && 0 <= j < |actions| && i != j
          ensures FullName(actions[i]) != FullName(actions[j])
        {
          assert !Clash(actions, i, j);
        }
      }
    }
  }

  /** A configuration is only accepted when its top level is a
      dictionary none of whose entries is refused. */
  lemma {:induction false} LoadAccepted(data: Value, env: Env)
    requires LoadConf(data, env).Ok?
    ensures data.Dict?
    ensures forall j :: 0 <= j < |Remaining(data.entries, CommonKeys)| ==> !BadEntry(Remaining(data.entries, CommonKeys)[j])
  {
    var rest := Remaining(data.entries, CommonKeys);
    ClassifiedErr(rest, |rest|);
  }

  /** No two accepted actions share a `full_name`, so no two write the
      same archives. */
  lemma {:induction false} LoadDistinct(data: Value, env: Env)
    requires LoadConf(data, env).Ok?
    ensures forall i, j ::
      (0 <= i < |LoadConf(data, env).value.actions| && 0 <= j < |LoadConf(data, env).value.actions| && i != j) ==>
      FullName(LoadConf(data, env).value.actions[i]) != FullName(LoadConf(data, env).value.actions[j])
  {
    LoadActionsSpec(Organised(data).value, env);
  }

  /** Every accepted action belongs to a server named, lower-cased and
      stripped, by a top-level entry that is not `common`, `global` or
      `report`. */
  lemma {:induction false} LoadServers(data: Value, env: Env)
    requires LoadConf(data, env).Ok?
    ensures forall a :: a in LoadConf(data, env).value.actions ==>
      exists j :: 0 <= j < |Remaining(data.entries, CommonKeys)| && ServerEntry(Remaining(data.entries, CommonKeys)[j], a.server)
  {
    LoadConfParts(data, env);
    var rest := Remaining(data.entries, CommonKeys);
    var s := Organised(data).value;
    var servers := Entries(s.servers);
    LoadActionsSpec(s, env);
    ServersActionsServer(servers, s.common, env);
    SortedServers(rest, s);
    forall a | a in LoadConf(data, env).value.actions
      ensures exists j :: 0 <= j < |rest| && ServerEntry(rest[j], a.server)
    {
      var t :| 0 <= t < |servers| && a.server == ToStr(servers[t].0);
    }
  }

  /** An accepted load is made of sorted sections and of their actions. */
  lemma {:induction false} LoadConfParts(data: Value, env: Env)
    requires LoadConf(data, env).Ok?
    ensures data.Dict? && Classified(Remaining(data.entries, CommonKeys), |Remaining(data.entries, CommonKeys)|).Ok?
    ensures Organised(data).Ok? && Organised(data).value.servers ==
      Classified(Remaining(data.entries, CommonKeys), |Remaining(data.entries, CommonKeys)|).value.servers
    ensures LoadActions(Organised(data).value, env).Ok?
    ensures LoadConf(data, env).value.actions == LoadActions(Organised(data).value, env).value
  {
  }

  /** Every server section is named by one of the sorted entries. */
  lemma {:induction false} SortedServers(rest: seq<(Value, Value)>, s: Sections)
    requires Classified(rest, |rest|).Ok? && s.servers == Classified(rest, |rest|).value.servers
    ensures forall t :: 0 <= t < |Entries(s.servers)| ==>
      exists j :: 0 <= j < |rest| && ServerEntry(rest[j], ToStr(Entries(s.servers)[t].0))
  {
    ClassifiedServers(rest, |rest|);
    var servers := s.servers.entries;
    forall t | 0 <= t < |servers|
      ensures exists j :: 0 <= j < |rest| && ServerEntry(rest[j], ToStr(servers[t].0))
    {
      FindSpec(servers, servers[t].0);
      assert HasKey(servers, Str(ToStr(servers[t].0)));
    }
  }

  /** `_load_conf`, step by step as the source runs it. */
  method LoadConfLoop(data: Value, env: Env) returns (r: Result<Config>)
    ensures r == LoadConf(data, env)
  {
    if !data.Dict? {
      return Err(AttributeError);
    }
    var top := new PyDict(data.entries);
    var commonKeys := top.ExtractKeys(CommonKeys);
    var sorted := ClassifyLoop(top.entries);
    if sorted.Err? {
      return Err(sorted.error);
    }
    var common := MergeValues(Dict(commonKeys), sorted.value.common);
    var s := sorted.value.(common := common);
    var actions := ServersActionsLoop(Entries(s.servers), s.common, env);
    if actions.Err? {
      return Err(actions.error);
    }
    var clash := CheckDuplicates(actions.value);
    if clash.Some? {
      var (i, j) := clash.value;
      return Err(ClashError(actions.value[i], actions.value[j], env.describe));
    }
    var reports := ParseReports(ToList(s.reports).items, env.mappingExists);
    if reports.Err? {
      return Err(reports.error);
    }
    return Ok(Config(actions.value, reports.value));
  }
}
