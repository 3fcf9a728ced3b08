/** Backup actions: what to save (a remote folder or a database), where it
    comes from, and the storages its archives go to. */
module Actions {
  import opened Wrappers
  import opened PyStr
  import opened ConfigTree
  import opened Archives

  /** The three database action classes. */
  datatype DbKind = MySql | Postgres | Mongo

  datatype Target =
    | Files(remoteFolder: string, exclusions: seq<string>)
    | Database(kind: DbKind, dbUser: Value, database: string, port: int)

  /** An action. `destFolder`, `sshUser` and `sshKey` are `None` when the
      configuration leaves them out; `dbUser` is `Null` then. */
  datatype Action = Action(
    server: string,
    prefix: string,
    name: string,
    destFolder: Option<string>,
    sshUser: Option<string>,
    sshKey: Option<string>,
    storages: seq<Storage>,
    target: Target)

  /** `db_type` of the database action classes. */
  function DbType(k: DbKind): string
  {
    match k
    case MySql => "mysql"
    case Postgres => "postgres"
    case Mongo => "mongo"
  }

  /** The database type named by the `type` field of a `databases` entry. */
  function KindOf(t: string): (r: Option<DbKind>)
    ensures r.Some? ==> DbType(r.value) == t
    ensures (t == "mysql" || t == "postgres" || t == "mongo") ==> r.Some?
    ensures forall k :: t == DbType(k) ==> r == Some(k)
  {
    if t == "mysql" then Some(MySql)
    else if t == "postgres" then Some(Postgres)
    else if t == "mongo" then Some(Mongo)
    else None
  }

  /** `full_name`: the name of the action's archives and local copy. */
  function FullName(a: Action): string
  {
    a.prefix + "_" + a.name
  }

  /** `small_descr`, the description used in logs and reports. */
  function SmallDescr(a: Action): string
  {
    match a.target
    case Files(folder, _) => folder + " folder on " + a.server
    case Database(k, _, db, _) => db + " " + DbType(k) + " database on " + a.server
  }

  /** The extension given to `storage.save`: `tgz` for files, `sql.gz`,
      or `mongo.gz` for MongoDB dumps. */
  function Extension(a: Action): string
  {
    match a.target
    case Files(_, _) => "tgz"
    case Database(k, _, _, _) => (if k == Mongo then "mongo" else "sql") + ".gz"
  }
}
