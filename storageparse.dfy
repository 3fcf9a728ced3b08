/** The storages of a server: `_parse_local_storage_list` and
    `_parse_glacier_storage_list`. Both read the keys `extract_keys` took
    out of the server section; a sub-dictionary (`local_history`,
    `aws_glacier`) is first spread into prefixed keys. The home directory
    expansion and path resolution of the Glacier index file are the
    parameters `defaultIndex` and `resolvePath`. */
module StorageParse {
  import opened Wrappers
  import opened PyStr
  import opened ConfigTree
  import opened Archives
  import opened FreqParse

  /** The name a sub-dictionary key is read as. */
  function KeyName(e: (Value, Value)): string
  {
    Normalize(ToStr(e.0))
  }

  /** The key an accepted sub-dictionary key is stored under: it keeps a
      key that already starts with the prefix and prefixes the others. */
  function RenamedKey(k: string, prefix: string): (r: string)
    ensures StartsWith(r, prefix)
  {
    if StartsWith(k, prefix) then k else prefix + k
  }

  /** The loop over the sub-dictionary entries `sub[i..]`, storing each
      value in `info` under its renamed key. */
  function Renamed(sub: seq<(Value, Value)>, i: nat, info: seq<(Value, Value)>, names: seq<string>,
                   prefix: string, tag: string, server: string): Result<seq<(Value, Value)>>
    requires i <= |sub|
    decreases |sub| - i
  {
    if i == |sub| then Ok(info)
    else
      var k := KeyName(sub[i]);
      if k !in names then Err(ConfigError("Unknown key " + tag + "." + k + " for server " + server))
      else Renamed(sub, i + 1, Set(info, Str(RenamedKey(k, prefix)), sub[i].1), names, prefix, tag, server)
  }

  /** The section dictionary once its sub-dictionary `section`, if any, is
      removed and spread into it. */
  function Spread(info: seq<(Value, Value)>, section: string, names: seq<string>, prefix: string,
                  tag: string, server: string): Result<seq<(Value, Value)>>
  {
    match Lookup(info, Str(section))
    case None => Ok(info)
    case Some(sub) =>
      if !sub.Dict? then Err(ConfigError("Invalid '" + section + "' parameter for server " + server))
      else Renamed(sub.entries, 0, Remove(info, Str(section)), names, prefix, tag, server)
  }

  const LocalNames: seq<string> := ["folder", "memory", "local_history_folder", "local_history_memory"]
  const GlacierNames: seq<string> := ["vault", "memory", "index_file", "glacier_vault", "glacier_memory", "glacier_index_file"]

  /** `_parse_local_storage_list(info, server_name)`. */
  function LocalStorageList(info: seq<(Value, Value)>, server: string): Result<seq<Storage>>
  {
    if info == [] then Ok([])
    else
      match Spread(info, "local_history", LocalNames, "local_history_", "local_history", server)
      case Err(err) => Err(err)
      case Ok(d) => LocalStorageOf(d, server)
  }

  /** The local storage of a spread section. */
  function LocalStorageOf(d: seq<(Value, Value)>, server: string): Result<seq<Storage>>
  {
    match (Lookup(d, Str("local_history_folder")), Lookup(d, Str("local_history_memory")))
    case (None, _) => Err(ConfigError("Missing local history folder parameter for server " + server))
    case (_, None) => Err(ConfigError("Missing local history memory parameter for server " + server))
    case (Some(folder), Some(memory)) =>
      if !folder.Str? then Err(ConfigError("invalid 'local_history_folder' parameter for server " + server))
      else if !StartsWith(folder.s, "/") then
        Err(ConfigError("local_history_folder for server " + server + " should be an absolute path"))
      else
        match ParseFreq(memory)
        case Err(err) => Err(err)
        case Ok(freq) => Ok([Local(freq, folder.s)])
  }

  /** `_parse_glacier_storage_list(info, server_name)`. */
  function GlacierStorageList(info: seq<(Value, Value)>, server: string, defaultIndex: string,
                              resolvePath: string -> string): Result<seq<Storage>>
  {
    if info == [] then Ok([])
    else
      match Spread(info, "aws_glacier", GlacierNames, "aws_glacier_", "glacier", server)
      case Err(err) => Err(err)
      case Ok(d) => GlacierStorageOf(d, server, defaultIndex, resolvePath)
  }

  /** The Glacier storage of a spread section: the vault is
      `<region>:<name>`. */
  function GlacierStorageOf(d: seq<(Value, Value)>, server: string, defaultIndex: string,
                            resolvePath: string -> string): Result<seq<Storage>>
  {
    match (Lookup(d, Str("aws_glacier_vault")), Lookup(d, Str("aws_glacier_memory")))
    case (None, _) => Err(ConfigError("Missing aws glacier vault parameter for server " + server))
    case (_, None) => Err(ConfigError("Missing aws glacier memory parameter for server " + server))
    case (Some(vault), Some(memory)) =>
      if !vault.Str? || |Split(vault.s, ':')| != 2 then Err(ConfigError("invalid glacier vault parameter for server " + server))
      else
        match ParseFreq(memory)
        case Err(err) => Err(err)
        case Ok(freq) =>
          match Lookup(d, Str("aws_glacier_index_file"))
          case None => Ok([Glacier(freq, vault.s, defaultIndex)])
          case Some(p) =>
            if p.Str? then Ok([Glacier(freq, vault.s, resolvePath(p.s))])
            else Err(TypeError)
  }

  /** The sub-dictionary is spread exactly when all its keys are known. */
  lemma {:induction false} RenamedOk(sub: seq<(Value, Value)>, i: nat, info: seq<(Value, Value)>, names: seq<string>,
                                     prefix: string, tag: string, server: string)
    requires i <= |sub|
    ensures Renamed(sub, i, info, names, prefix, tag, server).Ok?
      <==> forall j :: i <= j < |sub| ==> KeyName(sub[j]) in names
    decreases |sub| - i
  {
    if i < |sub| {
      var k := KeyName(sub[i]);
      if k in names {
        var info' := Set(info, Str(RenamedKey(k, prefix)), sub[i].1);
        assert Renamed(sub, i, info, names, prefix, tag, server) == Renamed(sub, i + 1, info', names, prefix, tag, server);
        RenamedOk(sub, i + 1, info', names, prefix, tag, server);
        assert (forall j :: i <= j < |sub| ==> KeyName(sub[j]) in names)
          <==> (forall j :: i + 1 <= j < |sub| ==> KeyName(sub[j]) in names);
      }
    }
  }

  /** A key no sub-dictionary entry is renamed to keeps its value. */
  lemma {:induction false} RenamedUntouched(sub: seq<(Value, Value)>, i: nat, info: seq<(Value, Value)>, names: seq<string>,
                                            prefix: string, tag: string, server: string, target: string)
    requires i <= |sub| && Renamed(sub, i, info, names, prefix, tag, server).Ok?
    requires forall j :: i <= j < |sub| ==> RenamedKey(KeyName(sub[j]), prefix) != target
    ensures Lookup(Renamed(sub, i, info, names, prefix, tag, server).value, Str(target)) == Lookup(info, Str(target))
    decreases |sub| - i
  {
    if i < |sub| {
      var k := Str(RenamedKey(KeyName(sub[i]), prefix));
      LookupOther(info, k, sub[i].1, Str(target));
      RenamedUntouched(sub, i + 1, Set(info, k, sub[i].1), names, prefix, tag, server, target);
    }
  }

  /** A renamed key holds the value of the last entry renamed to it. */
  lemma {:induction false} RenamedLastWins(sub: seq<(Value, Value)>, i: nat, info: seq<(Value, Value)>, names: seq<string>,
                                           prefix: string, tag: string, server: string, j: nat)
    requires i <= j < |sub| && Renamed(sub, i, info, names, prefix, tag, server).Ok?
    requires forall j' :: j < j' < |sub| ==> RenamedKey(KeyName(sub[j']), prefix) != RenamedKey(KeyName(sub[j]), prefix)
    ensures Lookup(Renamed(sub, i, info, names, prefix, tag, server).value, Str(RenamedKey(KeyName(sub[j]), prefix)))
            == Some(sub[j].1)
    decreases |sub| - i
  {
    var k := Str(RenamedKey(KeyName(sub[i]), prefix));
    var info' := Set(info, k, sub[i].1);
    assert Renamed(sub, i, info, names, prefix, tag, server) == Renamed(sub, i + 1, info', names, prefix, tag, server);
    if i == j {
      RenamedUntouched(sub, i + 1, info', names, prefix, tag, server, RenamedKey(KeyName(sub[j]), prefix));
    } else {
      RenamedLastWins(sub, i + 1, info', names, prefix, tag, server, j);
    }
  }

  /** Without a sub-dictionary the section is read as it is. */
  lemma {:induction false} SpreadAbsent(info: seq<(Value, Value)>, section: string, names: seq<string>, prefix: string,
                     tag: string, server: string)
    requires !HasKey(info, Str(section))
    ensures Spread(info, section, names, prefix, tag, server) == Ok(info)
  {
  }

  /** An empty section gives no storage; otherwise the section gives one
      local storage whose folder is absolute and is the value stored under
      `local_history_folder`. */
  lemma {:induction false} LocalStorageShape(info: seq<(Value, Value)>, server: string)
    requires LocalStorageList(info, server).Ok?
    ensures info == [] <==> LocalStorageList(info, server).value == []
    ensures info != [] ==>
      var d := Spread(info, "local_history", LocalNames, "local_history_", "local_history", server).value;
      var l := LocalStorageList(info, server).value;
      |l| == 1 && l[0].Local? && Lookup(d, Str("local_history_folder")) == Some(Str(l[0].folder))
      && StartsWith(l[0].folder, "/")
      && ParseFreq(Lookup(d, Str("local_history_memory")).value) == Ok(l[0].freq)
  {
  }

  /** A local folder that is not absolute is refused. */
  lemma {:induction false} LocalFolderRelative(d: seq<(Value, Value)>, server: string, folder: string)
    requires Lookup(d, Str("local_history_folder")) == Some(Str(folder)) && HasKey(d, Str("local_history_memory"))
    requires !StartsWith(folder, "/")
    ensures LocalStorageOf(d, server) == Err(ConfigError("local_history_folder for server " + server + " should be an absolute path"))
  {
  }

  /** An empty section gives no storage; otherwise one Glacier storage
      whose vault is `<region>:<name>` and whose index file is the default
      one or the resolved `aws_glacier_index_file`. */
  lemma {:induction false} GlacierStorageShape(info: seq<(Value, Value)>, server: string, defaultIndex: string, resolvePath: string -> string)
    requires GlacierStorageList(info, server, defaultIndex, resolvePath).Ok?
    ensures info == [] <==> GlacierStorageList(info, server, defaultIndex, resolvePath).value == []
    ensures info != [] ==>
      var d := Spread(info, "aws_glacier", GlacierNames, "aws_glacier_", "glacier", server).value;
      var l := GlacierStorageList(info, server, defaultIndex, resolvePath).value;
      |l| == 1 && l[0].Glacier? && Lookup(d, Str("aws_glacier_vault")) == Some(Str(l[0].vault))
      && |Split(l[0].vault, ':')| == 2
      && l[0].indexFile == (if HasKey(d, Str("aws_glacier_index_file"))
                            then resolvePath(Lookup(d, Str("aws_glacier_index_file")).value.s) else defaultIndex)
  {
  }

  /** `glacier_vault` is accepted in the `aws_glacier` sub-dictionary but,
      not starting with `aws_glacier_`, it is stored as
      `aws_glacier_glacier_vault`, a key nothing reads. */
  lemma {:induction false} GlacierVaultKeyRenamed()
    ensures RenamedKey("glacier_vault", "aws_glacier_") == "aws_glacier_glacier_vault"
    ensures "glacier_vault" in GlacierNames
  {
    assert !StartsWith("glacier_vault", "aws_glacier_") by { assert "glacier_vault"[0] != "aws_glacier_"[0]; }
  }

  /** A known Glacier key other than `vault` is not renamed to
      `aws_glacier_vault`. */
  lemma {:induction false} NotVaultKey(k: string)
    requires k in GlacierNames && k != "vault"
    ensures RenamedKey(k, "aws_glacier_") != "aws_glacier_vault"
  {
    if !StartsWith(k, "aws_glacier_") {
      assert "aws_glacier_" + k != "aws_glacier_" + "vault";
    }
  }

  /** So a vault given in the sub-dictionary only as `glacier_vault` (no
      `vault` entry, and none beside the sub-dictionary) is reported
      missing. */
  lemma {:induction false} GlacierVaultMissing(info: seq<(Value, Value)>, sub: seq<(Value, Value)>, server: string,
                            defaultIndex: string, resolvePath: string -> string)
    requires Lookup(info, Str("aws_glacier")) == Some(Dict(sub)) && !HasKey(info, Str("aws_glacier_vault"))
    requires forall j :: 0 <= j < |sub| ==> KeyName(sub[j]) in GlacierNames && KeyName(sub[j]) != "vault"
    ensures GlacierStorageList(info, server, defaultIndex, resolvePath)
            == Err(ConfigError("Missing aws glacier vault parameter for server " + server))
  {
    var start := Remove(info, Str("aws_glacier"));
    RenamedOk(sub, 0, start, GlacierNames, "aws_glacier_", "glacier", server);
    forall j | 0 <= j < |sub|
      ensures RenamedKey(KeyName(sub[j]), "aws_glacier_") != "aws_glacier_vault"
    {
      NotVaultKey(KeyName(sub[j]));
    }
    RenamedUntouched(sub, 0, start, GlacierNames, "aws_glacier_", "glacier", server, "aws_glacier_vault");
    RemoveOther(info, Str("aws_glacier"), Str("aws_glacier_vault"));
  }

  /** The spreading of `section` as the source runs it: `del info[section]`,
      then one assignment per sub-dictionary entry. */
  method SpreadSection(info: PyDict, section: string, names: seq<string>, prefix: string, tag: string, server: string)
    returns (err: Option<Error>)
    modifies info
    ensures err.None? ==> Spread(old(info.entries), section, names, prefix, tag, server) == Ok(info.entries)
    ensures err.Some? ==> Spread(old(info.entries), section, names, prefix, tag, server) == Err(err.value)
  {
    var found := Lookup(info.entries, Str(section));
    if found.None? {
      return None;
    }
    var sub := found.value;
    info.entries := Remove(info.entries, Str(section));
    if !sub.Dict? {
      return Some(ConfigError("Invalid '" + section + "' parameter for server " + server));
    }
    var es := sub.entries;
    ghost var start := info.entries;
    var i := 0;
    while i < |es|
      invariant 0 <= i <= |es|
      invariant Renamed(es, i, info.entries, names, prefix, tag, server) == Renamed(es, 0, start, names, prefix, tag, server)
    {
      var key := KeyName(es[i]);
      if key !in names {
        return Some(ConfigError("Unknown key " + tag + "." + key + " for server " + server));
      }
      info.entries := Set(info.entries, Str(RenamedKey(key, prefix)), es[i].1);
      i := i + 1;
    }
    return None;
  }

  /** `_parse_local_storage_list` as the source runs it: `info` is the
      dictionary `extract_keys` returned, changed in place into its spread
      form. */
  method ParseLocalStorageList(info: PyDict, server: string) returns (r: Result<seq<Storage>>)
    modifies info
    ensures r == LocalStorageList(old(info.entries), server)
    ensures old(info.entries) == [] ==> info.entries == []
    ensures var spread := Spread(old(info.entries), "local_history", LocalNames, "local_history_", "local_history", server);
      old(info.entries) != [] && spread.Ok? ==> info.entries == spread.value
  {
    if info.entries == [] {
      return Ok([]);
    }
    var err := SpreadSection(info, "local_history", LocalNames, "local_history_", "local_history", server);
    if err.Some? {
      return Err(err.value);
    }
    r := LocalStorageOf(info.entries, server);
  }

  /** `_parse_glacier_storage_list` as the source runs it, spreading
      `info` in place the same way. */
  method ParseGlacierStorageList(info: PyDict, server: string, defaultIndex: string, resolvePath: string -> string)
    returns (r: Result<seq<Storage>>)
    modifies info
    ensures r == GlacierStorageList(old(info.entries), server, defaultIndex, resolvePath)
    ensures old(info.entries) == [] ==> info.entries == []
    ensures var spread := Spread(old(info.entries), "aws_glacier", GlacierNames, "aws_glacier_", "glacier", server);
      old(info.entries) != [] && spread.Ok? ==> info.entries == spread.value
  {
    if info.entries == [] {
      return Ok([]);
    }
    var err := SpreadSection(info, "aws_glacier", GlacierNames, "aws_glacier_", "glacier", server);
    if err.Some? {
      return Err(err.value);
    }
    r := GlacierStorageOf(info.entries, server, defaultIndex, resolvePath);
  }
}
