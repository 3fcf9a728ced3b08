/** The parsers of one action: `_parse_action_common` (the keys every
    action accepts), `_parse_file_action_conf` and `_parse_db_action_conf`.
    Whether an ssh key file exists is asked of `keyExists`. */
module ActionParse {
  import opened Wrappers
  import opened PyStr
  import opened ConfigTree
  import opened Archives
  import opened Slug
  import opened Actions

  /** What `_parse_action_common` collects. */
  datatype Common = Common(prefix: Option<string>, destFolder: Option<string>, sshUser: Option<string>, sshKey: Option<string>)

  const NoCommon: Common := Common(None, None, None, None)

  /** The key of a server entry as the parser reads it. */
  function CommonKey(e: (Value, Value)): string
  {
    if e.0.Str? then Normalize(e.0.s) else ""
  }

  predicate IsCommonKey(k: string)
  {
    k == "ssh_user" || k == "ssh_key" || k == "prefix" || k == "dest_folder"
  }

  /** One entry of the server section. An empty key is not skipped: it
      falls through to the unknown-key error. */
  function CommonEntry(e: (Value, Value), c: Common, server: string, keyExists: string -> bool): (r: Result<Common>)
    ensures r.Err? && e.0.Str? && !IsCommonKey(CommonKey(e)) ==>
      r == Err(RuntimeError("Unknown key " + CommonKey(e) + " for server " + server))
  {
    if !e.0.Str? then Err(ConfigError("Invalid configuration for server " + server))
    else
      var k, v := Normalize(e.0.s), e.1;
      if k == "ssh_user" then
        if !v.Str? || !LowerAlnumPattern(v.s) then Err(ConfigError("invalid 'ssh_user' parameter for server " + server))
        else Ok(c.(sshUser := Some(v.s)))
      else if k == "ssh_key" then
        if !v.Str? then Err(ConfigError("invalid 'ssh_key' parameter for server " + server))
        else if !keyExists(v.s) then Err(ConfigError("no existing file for 'ssh_key' parameter for server " + server))
        else Ok(c.(sshKey := Some(v.s)))
      else if k == "prefix" then
        if !v.Str? then Err(ConfigError("invalid 'prefix' parameter for server " + server))
        else Ok(c.(prefix := Some(v.s)))
      else if k == "dest_folder" then
        if !v.Str? then Err(ConfigError("invalid 'dest_folder' parameter for server " + server))
        else if !StartsWith(v.s, "/") then Err(ConfigError("dest_folder for server " + server + " should be an absolute path"))
        else Ok(c.(destFolder := Some(v.s)))
      else Err(RuntimeError("Unknown key " + k + " for server " + server))
  }

  /** The loop over `es[i..]`. */
  function CommonFrom(es: seq<(Value, Value)>, i: nat, c: Common, server: string, keyExists: string -> bool): Result<Common>
    requires i <= |es|
    decreases |es| - i
  {
    if i == |es| then Ok(c)
    else
      match CommonEntry(es[i], c, server, keyExists)
      case Err(err) => Err(err)
      case Ok(c') => CommonFrom(es, i + 1, c', server, keyExists)
  }

  /** `_parse_action_common(params, server_name)`: the prefix defaults to
      the server name. */
  function ParseActionCommon(params: seq<(Value, Value)>, server: string, keyExists: string -> bool): (r: Result<Common>)
    ensures r.Ok? ==> r.value.prefix.Some?
  {
    match CommonFrom(params, 0, NoCommon, server, keyExists)
    case Err(err) => Err(err)
    case Ok(c) => Ok(if c.prefix.None? then c.(prefix := Some(server)) else c)
  }

  /** `_parse_action_common` as the source runs it. */
  method ParseActionCommonLoop(params: seq<(Value, Value)>, server: string, keyExists: string -> bool) returns (r: Result<Common>)
    ensures r == ParseActionCommon(params, server, keyExists)
  {
    var c := NoCommon;
    var i := 0;
    while i < |params|
      invariant 0 <= i <= |params|
      invariant CommonFrom(params, i, c, server, keyExists) == CommonFrom(params, 0, NoCommon, server, keyExists)
    {
      var step := CommonEntry(params[i], c, server, keyExists);
      if step.Err? {
        return Err(step.error);
      }
      c := step.value;
      i := i + 1;
    }
    if c.prefix.None? {
      c := c.(prefix := Some(server));
    }
    return Ok(c);
  }

  /** What the checks of `_parse_action_common` guarantee. */
  predicate CommonValid(c: Common, keyExists: string -> bool)
  {
    (c.sshUser.Some? ==> LowerAlnumPattern(c.sshUser.value))
    && (c.sshKey.Some? ==> keyExists(c.sshKey.value))
    && (c.destFolder.Some? ==> StartsWith(c.destFolder.value, "/"))
  }

  lemma {:induction false} CommonFromValid(es: seq<(Value, Value)>, i: nat, c: Common, server: string, keyExists: string -> bool)
    requires i <= |es| && CommonValid(c, keyExists) && CommonFrom(es, i, c, server, keyExists).Ok?
    ensures CommonValid(CommonFrom(es, i, c, server, keyExists).value, keyExists)
    decreases |es| - i
  {
    if i < |es| {
      var c' := CommonEntry(es[i], c, server, keyExists).value;
      CommonEntryValid(es[i], c, server, keyExists);
      assert CommonFrom(es, i, c, server, keyExists) == CommonFrom(es, i + 1, c', server, keyExists);
      CommonFromValid(es, i + 1, c', server, keyExists);
    }
  }

  /** One accepted entry keeps the accepted fields valid. */
  lemma {:induction false} CommonEntryValid(e: (Value, Value), c: Common, server: string, keyExists: string -> bool)
    requires CommonValid(c, keyExists) && CommonEntry(e, c, server, keyExists).Ok?
    ensures CommonValid(CommonEntry(e, c, server, keyExists).value, keyExists)
  {
  }

  /** An accepted ssh user matches `^[a-z0-9]+$`, an accepted ssh key
      exists and an accepted destination folder is absolute. */
  lemma {:induction false} ParseActionCommonValid(params: seq<(Value, Value)>, server: string, keyExists: string -> bool)
    ensures ParseActionCommon(params, server, keyExists).Ok? ==> CommonValid(ParseActionCommon(params, server, keyExists).value, keyExists)
  {
    if CommonFrom(params, 0, NoCommon, server, keyExists).Ok? {
      CommonFromValid(params, 0, NoCommon, server, keyExists);
    }
  }

  /** Entries that do not name a prefix leave the prefix alone. */
  lemma {:induction false} CommonPrefixUntouched(es: seq<(Value, Value)>, i: nat, c: Common, server: string, keyExists: string -> bool)
    requires i <= |es| && CommonFrom(es, i, c, server, keyExists).Ok?
    requires forall j :: i <= j < |es| ==> CommonKey(es[j]) != "prefix"
    ensures CommonFrom(es, i, c, server, keyExists).value.prefix == c.prefix
    decreases |es| - i
  {
    if i < |es| {
      CommonPrefixUntouched(es, i + 1, CommonEntry(es[i], c, server, keyExists).value, server, keyExists);
    }
  }

  /** Without a `prefix` key the prefix is the server name. */
  lemma {:induction false} DefaultPrefix(params: seq<(Value, Value)>, server: string, keyExists: string -> bool)
    requires forall j :: 0 <= j < |params| ==> CommonKey(params[j]) != "prefix"
    ensures ParseActionCommon(params, server, keyExists).Ok? ==> ParseActionCommon(params, server, keyExists).value.prefix == Some(server)
  {
    if CommonFrom(params, 0, NoCommon, server, keyExists).Ok? {
      CommonPrefixUntouched(params, 0, NoCommon, server, keyExists);
    }
  }

  /** A string key other than the four known ones, the empty key
      included, is a `RuntimeError`, not a configuration error. */
  lemma {:induction false} UnknownKeyFails(e: (Value, Value), c: Common, server: string, keyExists: string -> bool)
    requires e.0.Str? && !IsCommonKey(CommonKey(e))
    ensures CommonEntry(e, c, server, keyExists) == Err(RuntimeError("Unknown key " + CommonKey(e) + " for server " + server))
  {
  }

  /** The `exclude` entries of a files action whose text starts with the
      folder's text, a plain string-prefix test (so a sibling such as
      `/var/www2` passes for the folder `/var/www`); the entries must all
      be strings, since `startswith` is called on each. */
  function Exclusions(excludes: seq<Value>, folder: string): (r: Result<seq<string>>)
  {
    if forall j :: 0 <= j < |excludes| ==> excludes[j].Str? then
      Ok(FilterMap(excludes, (x: Value) => x.Str? && StartsWith(x.s, folder), (x: Value) => if x.Str? then x.s else ""))
    else Err(AttributeError)
  }

  /** The exclusion loop of `_parse_file_action_conf`. */
  method ExclusionsLoop(excludes: seq<Value>, folder: string) returns (r: Result<seq<string>>)
    ensures r == Exclusions(excludes, folder)
  {
    var keep := (x: Value) => x.Str? && StartsWith(x.s, folder);
    var text := (x: Value) => if x.Str? then x.s else "";
    var result := [];
    var i := 0;
    while i < |excludes|
      invariant 0 <= i <= |excludes|
      invariant forall j :: 0 <= j < i ==> excludes[j].Str?
      invariant result == FilterMap(excludes[..i], keep, text)
    {
      assert excludes[..i + 1][..i] == excludes[..i];
      var x := excludes[i];
      if !x.Str? {
        return Err(AttributeError);
      }
      if StartsWith(x.s, folder) {
        result := result + [x.s];
      }
      i := i + 1;
    }
    assert excludes[..i] == excludes;
    return Ok(result);
  }

  /** The kept exclusions are exactly the listed strings that start with
      the folder's text. */
  lemma {:induction false} ExclusionsMembers(excludes: seq<Value>, folder: string, x: string)
    requires Exclusions(excludes, folder).Ok?
    ensures x in Exclusions(excludes, folder).value <==> Str(x) in excludes && StartsWith(x, folder)
  {
    var keep := (v: Value) => v.Str? && StartsWith(v.s, folder);
    var text := (v: Value) => if v.Str? then v.s else "";
    FilterMapMembers(excludes, keep, text, x);
    if Str(x) in excludes && StartsWith(x, folder) {
      var i :| 0 <= i < |excludes| && excludes[i] == Str(x);
      assert keep(excludes[i]) && x == text(excludes[i]);
    }
  }

  /** The prefix test keeps an exclusion in a sibling folder whose name
      extends the folder's. */
  lemma {:induction false} ExclusionSiblingKept()
    ensures Exclusions([Str("/var/www2/cache")], "/var/www") == Ok(["/var/www2/cache"])
  {
    var xs := [Str("/var/www2/cache")];
    var keep := (x: Value) => x.Str? && StartsWith(x.s, "/var/www");
    var text := (x: Value) => if x.Str? then x.s else "";
    assert xs[..|xs| - 1] == [];
    assert "/var/www2/cache"[..|"/var/www"|] == "/var/www";
    assert keep(xs[0]);
    assert FilterMap(xs, keep, text) == ["/var/www2/cache"];
    assert Exclusions(xs, "/var/www").Ok?;
  }

  /** `_parse_file_action_conf(server_name, name, params, file_info,
      file_excludes)`: the common keys are read first; a missing name
      defaults to the slug of the folder. */
  function ParseFileActionConf(server: string, name: Value, params: seq<(Value, Value)>, fileInfo: Value,
                               excludes: seq<Value>, keyExists: string -> bool): Result<Action>
  {
    match ParseActionCommon(params, server, keyExists)
    case Err(err) => Err(err)
    case Ok(c) =>
      if fileInfo.Null? then Err(ConfigError("Missing folder to backup for server " + server))
      else if !fileInfo.Str? then Err(ConfigError("invalid folder to backup for server " + server + ": " + ToStr(fileInfo)))
      else
        var folder := fileInfo.s;
        if !StartsWith(folder, "/") then
          Err(ConfigError("invalid folder to backup for server " + server + ": " + folder + ": it's not an absolute path"))
        else
          var n := if name.Null? then Str(FilenameToPrefix(folder)) else name;
          if !n.Str? then Err(ConfigError("invalid prefix for folder " + folder + " of server " + server + ": " + ToStr(n)))
          else
            match Exclusions(excludes, folder)
            case Err(err) => Err(err)
            case Ok(xs) =>
              Ok(Action(server, StripChar(c.prefix.value, '_'), n.s, c.destFolder, c.sshUser, c.sshKey, [], Files(folder, xs)))
  }

  /** An accepted files action backs up an absolute folder, excludes only
      listed strings that start with its text, has the stripped prefix and the given (or default)
      name, and no storage yet. */
  lemma {:induction false} FileActionShape(server: string, name: Value, params: seq<(Value, Value)>, fileInfo: Value,
                        excludes: seq<Value>, keyExists: string -> bool)
    requires ParseFileActionConf(server, name, params, fileInfo, excludes, keyExists).Ok?
    ensures var a := ParseFileActionConf(server, name, params, fileInfo, excludes, keyExists).value;
      a.server == server && a.storages == [] && a.target.Files? && fileInfo == Str(a.target.remoteFolder)
      && StartsWith(a.target.remoteFolder, "/")
      && (forall x :: x in a.target.exclusions ==> Str(x) in excludes && StartsWith(x, a.target.remoteFolder))
      && a.name == (if name.Null? then FilenameToPrefix(a.target.remoteFolder) else name.s)
      && a.prefix == StripChar(ParseActionCommon(params, server, keyExists).value.prefix.value, '_')
  {
    var folder := fileInfo.s;
    forall x | x in Exclusions(excludes, folder).value
      ensures Str(x) in excludes && StartsWith(x, folder)
    {
      ExclusionsMembers(excludes, folder, x);
    }
  }

  /** `_parse_db_action_conf(server_name, name, params, db_info, db_user)`:
      `db_info` is `type:port:database`; its fields are checked before the
      common keys are read. */
  function ParseDbActionConf(server: string, name: Value, params: seq<(Value, Value)>, dbInfo: Value,
                             dbUser: Value, keyExists: string -> bool): Result<Action>
  {
    if dbInfo.Null? then Err(ConfigError("Missing database information for server " + server))
    else if !dbInfo.Str? then Err(ConfigError("invalid database information for server " + server + ": " + ToStr(dbInfo)))
    else
      var parts := Split(dbInfo.s, ':');
      if |parts| != 3 then Err(ConfigError("invalid database information for server " + server + ": " + dbInfo.s))
      else
        var dbType := Lower(Strip(parts[0]));
        match KindOf(dbType)
        case None => Err(ConfigError("invalid database type " + dbType + " for server " + server))
        case Some(kind) =>
          match IntLiteral(Strip(parts[1]))
          case None => Err(ConfigError("invalid database port for server " + server + ": " + parts[1]))
          case Some(port) =>
            if port < 0 || port > 65534 then
              Err(ConfigError("invalid database port for server " + server + ": " + IntToString(port)))
            else
              var db := Strip(parts[2]);
              if db == [] then Err(ConfigError("missing database name for server " + server + ": " + dbInfo.s))
              else
                match ParseActionCommon(params, server, keyExists)
                case Err(err) => Err(err)
                case Ok(c) =>
                  var n := if name.Null? then Str(DbToPrefix(dbInfo.s)) else name;
                  if !n.Str? then Err(ConfigError("invalid prefix for database " + db + " of server " + server + ": " + ToStr(n)))
                  else Ok(Action(server, StripChar(c.prefix.value, '_'), n.s, c.destFolder, c.sshUser, c.sshKey, [],
                                 Database(kind, dbUser, db, port)))
  }

  /** The conditions under which `db_info` is accepted. */
  predicate DbInfoOk(dbInfo: Value)
  {
    dbInfo.Str? && |Split(dbInfo.s, ':')| == 3
    && KindOf(Lower(Strip(Split(dbInfo.s, ':')[0]))).Some?
    && IntLiteral(Strip(Split(dbInfo.s, ':')[1])).Some?
    && 0 <= IntLiteral(Strip(Split(dbInfo.s, ':')[1])).value <= 65534
    && Strip(Split(dbInfo.s, ':')[2]) != []
  }

  /** A database action is built exactly when `db_info` is well formed,
      the common keys are accepted and the name is a string or absent. */
  lemma {:induction false} DbActionAccepted(server: string, name: Value, params: seq<(Value, Value)>, dbInfo: Value,
                         dbUser: Value, keyExists: string -> bool)
    ensures ParseDbActionConf(server, name, params, dbInfo, dbUser, keyExists).Ok?
      <==> DbInfoOk(dbInfo) && ParseActionCommon(params, server, keyExists).Ok? && (name.Null? || name.Str?)
  {
  }

  /** An accepted database action has the type, port and database name of
      its `db_info`, the given or default name and the stripped prefix. */
  lemma {:induction false} DbActionShape(server: string, name: Value, params: seq<(Value, Value)>, dbInfo: Value,
                      dbUser: Value, keyExists: string -> bool)
    requires ParseDbActionConf(server, name, params, dbInfo, dbUser, keyExists).Ok?
    ensures var a := ParseDbActionConf(server, name, params, dbInfo, dbUser, keyExists).value;
      var parts := Split(dbInfo.s, ':');
      a.server == server && a.storages == [] && a.target.Database?
      && DbType(a.target.kind) == Lower(Strip(parts[0]))
      && Some(a.target.port) == IntLiteral(Strip(parts[1])) && 0 <= a.target.port <= 65534
      && a.target.database == Strip(parts[2]) && a.target.dbUser == dbUser
      && a.name == (if name.Null? then DbToPrefix(dbInfo.s) else name.s)
      && a.prefix == StripChar(ParseActionCommon(params, server, keyExists).value.prefix.value, '_')
  {
  }

  /** The three fields of `type:port:database`. */
  lemma {:induction false} DbInfoFields(kind: DbKind, n: nat, db: string)
    requires ':' !in db
    ensures Split(DbType(kind) + ":" + NatToString(n) + ":" + db, ':') == [DbType(kind), NatToString(n), db]
  {
    var t, p := DbType(kind), NatToString(n);
    assert ':' !in t && ':' !in p;
    assert t + ":" + p + ":" + db == t + [':'] + (p + [':'] + db);
    SplitAt(t, ':', p + [':'] + db);
    SplitAt(p, ':', db);
    SplitNone(db, ':');
  }

  /** A type name and a decimal port read as themselves. */
  lemma {:induction false} DbFieldsRead(kind: DbKind, n: nat)
    ensures Lower(Strip(DbType(kind))) == DbType(kind)
    ensures IntLiteral(Strip(NatToString(n))) == Some(n)
  {
    var t, p := DbType(kind), NatToString(n);
    StripNoSpace(t);
    LowerNoUpper(t);
    assert !IsSpace(p[0]) && !IsSpace(p[|p| - 1]);
    StripNoSpace(p);
    DecimalOfNatToString(n);
  }

  /** A port written in decimal is accepted up to 65534 and refused from
      65535 on. */
  lemma {:induction false} DbPortBound(server: string, name: Value, params: seq<(Value, Value)>, kind: DbKind, n: nat, db: string,
                    dbUser: Value, keyExists: string -> bool)
    requires ':' !in db && Strip(db) != []
    ensures var s := DbType(kind) + ":" + NatToString(n) + ":" + db;
      && (n > 65534 ==> ParseDbActionConf(server, name, params, Str(s), dbUser, keyExists)
                        == Err(ConfigError("invalid database port for server " + server + ": " + NatToString(n))))
      && (n <= 65534 ==> DbInfoOk(Str(s)))
  {
    DbInfoFields(kind, n, db);
    DbFieldsRead(kind, n);
    assert KindOf(DbType(kind)) == Some(kind);
  }
}
