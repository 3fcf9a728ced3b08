/** The backup commands over one action: `clean_archives`, `list_archives`,
    the saving loop of `run_backup`, and `do_backup`, which records exactly
    one issue or one success in the report. Listings, removals, the data
    fetch and the uploads are collaborators outside the model, given as
    `Oracles`. */
module Commands {
  import opened Wrappers
  import opened Seqs
  import opened Dates
  import opened Archives
  import opened Actions
  import opened Reports

  /** What the outside world answers. */
  datatype Oracles = Oracles(
    /** `os.listdir` of a local folder, each name with `os.path.isfile`. */
    listing: string -> Result<seq<(string, bool)>>,
    /** The archive names recorded in a Glacier index file. */
    index: string -> Result<seq<string>>,
    /** The failure, if any, of `storage.remove(archive)`. */
    removal: (Storage, string) -> Option<string>,
    /** The failure, if any, of fetching and packing an action's data
        (rsync and tar, or the database dump). */
    fetch: Action -> Option<string>,
    /** The failure, if any, of `storage.save` under an archive name. */
    saving: (Storage, string) -> Option<string>)

  /** The retention decisions of the storages: `should_keep(archive)` and
      `should_save()`. The commands are stated over any policy; `Retention`
      is the one the storages apply on a given day. */
  datatype Policy = Policy(keep: (Storage, string) -> Result<bool>, save: Storage -> Result<bool>)

  function Retention(today: Date): Policy
    requires Valid(today)
  {
    Policy((s, x) => StorageShouldKeep(s, x, today), s => StorageShouldSave(s, today))
  }

  /** The exception a command stopped at, if any, and the archives it
      removed or saved, each with its storage. */
  datatype Effects = Effects(error: Option<Error>, log: seq<(Storage, string)>)

  /** `storage.list_archives(full)`. */
  function StorageArchives(o: Oracles, s: Storage, full: string): Result<seq<string>>
  {
    match s
    case Local(_, folder) =>
      (match o.listing(folder)
       case Err(e) => Err(e)
       case Ok(entries) => Ok(LocalListing(folder, entries, full)))
    case Glacier(_, _, file) =>
      (match o.index(file)
       case Err(e) => Err(e)
       case Ok(names) => GlacierListing(names, full))
  }

  /** The inner loop of `clean_archives` over `archives[j..]`: every
      archive the policy does not keep is removed; the first exception
      stops the command. */
  function CleanFrom(o: Oracles, p: Policy, s: Storage, archives: seq<string>, j: nat, log: seq<(Storage, string)>): Effects
    requires j <= |archives|
    decreases |archives| - j
  {
    if j == |archives| then Effects(None, log)
    else
      match p.keep(s, archives[j])
      case Err(e) => Effects(Some(e), log)
      case Ok(keep) =>
        if keep then CleanFrom(o, p, s, archives, j + 1, log)
        else if o.removal(s, archives[j]).Some? then Effects(Some(External(o.removal(s, archives[j]).value)), log)
        else CleanFrom(o, p, s, archives, j + 1, log + [(s, archives[j])])
  }

  /** The outer loop of `clean_archives` over `storages[i..]`. */
  function CleanStorages(o: Oracles, p: Policy, storages: seq<Storage>, i: nat, full: string, log: seq<(Storage, string)>): Effects
    requires i <= |storages|
    decreases |storages| - i
  {
    if i == |storages| then Effects(None, log)
    else
      match StorageArchives(o, storages[i], full)
      case Err(e) => Effects(Some(e), log)
      case Ok(archives) =>
        var r := CleanFrom(o, p, storages[i], archives, 0, log);
        if r.error.Some? then r else CleanStorages(o, p, storages, i + 1, full, r.log)
  }

  /** `clean_archives(action)`. */
  function CleanRun(o: Oracles, a: Action, today: Date): Effects
    requires Valid(today)
  {
    CleanStorages(o, Retention(today), a.storages, 0, FullName(a), [])
  }

  /** A removal `clean_archives` may make: an archive listed by one of the
      action's storages that the policy does not keep. */
  predicate Removable(o: Oracles, p: Policy, storages: seq<Storage>, full: string, x: (Storage, string))
  {
    && x.0 in storages
    && StorageArchives(o, x.0, full).Ok? && x.1 in StorageArchives(o, x.0, full).value
    && p.keep(x.0, x.1) == Ok(false)
  }

  lemma {:induction false} CleanFromSound(o: Oracles, p: Policy, storages: seq<Storage>, i: nat, full: string,
                                         archives: seq<string>, j: nat, log: seq<(Storage, string)>)
    requires i < |storages| && j <= |archives|
    requires StorageArchives(o, storages[i], full) == Ok(archives)
    requires forall k :: 0 <= k < |log| ==> Removable(o, p, storages, full, log[k])
    ensures forall k :: 0 <= k < |CleanFrom(o, p, storages[i], archives, j, log).log| ==>
      Removable(o, p, storages, full, CleanFrom(o, p, storages[i], archives, j, log).log[k])
    decreases |archives| - j
  {
    if j < |archives| {
      var s := storages[i];
      var keep := p.keep(s, archives[j]);
      if keep == Ok(false) && o.removal(s, archives[j]).None? {
        var log' := log + [(s, archives[j])];
        assert Removable(o, p, storages, full, (s, archives[j]));
        assert forall k :: 0 <= k < |log'| ==> Removable(o, p, storages, full, log'[k]) by {
          forall k | 0 <= k < |log'|
            ensures Removable(o, p, storages, full, log'[k])
          {
            if k < |log| {
              assert log'[k] == log[k];
            }
          }
        }
        assert CleanFrom(o, p, s, archives, j, log) == CleanFrom(o, p, s, archives, j + 1, log');
        CleanFromSound(o, p, storages, i, full, archives, j + 1, log');
      } else if keep == Ok(true) {
        assert CleanFrom(o, p, s, archives, j, log) == CleanFrom(o, p, s, archives, j + 1, log);
        CleanFromSound(o, p, storages, i, full, archives, j + 1, log);
      } else {
        assert CleanFrom(o, p, s, archives, j, log).log == log;
      }
    }
  }

  lemma {:induction false} CleanStoragesSound(o: Oracles, p: Policy, storages: seq<Storage>, i: nat, full: string,
                                             log: seq<(Storage, string)>)
    requires i <= |storages|
    requires forall k :: 0 <= k < |log| ==> Removable(o, p, storages, full, log[k])
    ensures forall k :: 0 <= k < |CleanStorages(o, p, storages, i, full, log).log| ==>
      Removable(o, p, storages, full, CleanStorages(o, p, storages, i, full, log).log[k])
    decreases |storages| - i
  {
    if i < |storages| {
      var l := StorageArchives(o, storages[i], full);
      if l.Ok? {
        CleanFromSound(o, p, storages, i, full, l.value, 0, log);
        var r := CleanFrom(o, p, storages[i], l.value, 0, log);
        if r.error.None? {
          assert CleanStorages(o, p, storages, i, full, log) == CleanStorages(o, p, storages, i + 1, full, r.log);
          CleanStoragesSound(o, p, storages, i + 1, full, r.log);
        }
      }
    }
  }

  /** `clean_archives` never removes an archive its storage keeps, nor one
      the storage did not list. */
  lemma {:induction false} CleanRemovesOnlyOld(o: Oracles, a: Action, today: Date, k: nat)
    requires Valid(today) && k < |CleanRun(o, a, today).log|
    ensures var x := CleanRun(o, a, today).log[k];
      && x.0 in a.storages
      && StorageArchives(o, x.0, FullName(a)).Ok? && x.1 in StorageArchives(o, x.0, FullName(a)).value
      && StorageShouldKeep(x.0, x.1, today) == Ok(false)
  {
    CleanStoragesSound(o, Retention(today), a.storages, 0, FullName(a), []);
    var x := CleanRun(o, a, today).log[k];
    assert Removable(o, Retention(today), a.storages, FullName(a), x);
    assert Retention(today).keep(x.0, x.1) == StorageShouldKeep(x.0, x.1, today);
  }

  /** A run of the inner loop that meets no exception removes every
      archive of `archives[j..]` that is not kept, after the removals
      made before it. */
  lemma {:induction false} CleanFromComplete(o: Oracles, p: Policy, s: Storage, archives: seq<string>, j: nat,
                                            log: seq<(Storage, string)>)
    requires j <= |archives|
    requires CleanFrom(o, p, s, archives, j, log).error.None?
    ensures var r := CleanFrom(o, p, s, archives, j, log).log;
      && |log| <= |r| && r[..|log|] == log
      && forall j' :: j <= j' < |archives| && p.keep(s, archives[j']) == Ok(false) ==> (s, archives[j']) in r
    decreases |archives| - j
  {
    if j < |archives| {
      var keep := p.keep(s, archives[j]);
      var log' := if keep == Ok(true) then log else log + [(s, archives[j])];
      assert CleanFrom(o, p, s, archives, j, log) == CleanFrom(o, p, s, archives, j + 1, log');
      CleanFromComplete(o, p, s, archives, j + 1, log');
      var r := CleanFrom(o, p, s, archives, j + 1, log').log;
      assert r[..|log|] == r[..|log'|][..|log|];
      if keep == Ok(false) {
        assert r[|log|] == r[..|log'|][|log|] == (s, archives[j]);
      }
    }
  }

  lemma {:induction false} CleanStoragesComplete(o: Oracles, p: Policy, storages: seq<Storage>, i: nat, full: string,
                                                log: seq<(Storage, string)>)
    requires i <= |storages|
    requires CleanStorages(o, p, storages, i, full, log).error.None?
    ensures var r := CleanStorages(o, p, storages, i, full, log).log;
      && |log| <= |r| && r[..|log|] == log
      && forall i', x :: i <= i' < |storages| && StorageArchives(o, storages[i'], full).Ok?
           && x in StorageArchives(o, storages[i'], full).value && p.keep(storages[i'], x) == Ok(false)
           ==> (storages[i'], x) in r
    decreases |storages| - i
  {
    if i < |storages| {
      CleanStoragesNext(o, p, storages, i, full, log);
      var archives := StorageArchives(o, storages[i], full).value;
      var m := CleanFrom(o, p, storages[i], archives, 0, log).log;
      CleanStoragesComplete(o, p, storages, i + 1, full, m);
      var r := CleanStorages(o, p, storages, i + 1, full, m).log;
      assert r[..|log|] == r[..|m|][..|log|];
      forall x | x in archives && p.keep(storages[i], x) == Ok(false)
        ensures (storages[i], x) in r
      {
        PrefixMember(m, r, (storages[i], x));
      }
    }
  }

  /** A storage listed without exception, whose removals went through,
      hands its log to the next storage; every archive it does not keep is
      in that log. */
  lemma {:induction false} CleanStoragesNext(o: Oracles, p: Policy, storages: seq<Storage>, i: nat, full: string,
                                            log: seq<(Storage, string)>)
    requires i < |storages| && CleanStorages(o, p, storages, i, full, log).error.None?
    ensures StorageArchives(o, storages[i], full).Ok?
    ensures var archives := StorageArchives(o, storages[i], full).value;
      var m := CleanFrom(o, p, storages[i], archives, 0, log);
      && m.error.None?
      && CleanStorages(o, p, storages, i, full, log) == CleanStorages(o, p, storages, i + 1, full, m.log)
      && |log| <= |m.log| && m.log[..|log|] == log
      && forall x :: x in archives && p.keep(storages[i], x) == Ok(false) ==> (storages[i], x) in m.log
  {
    var archives := StorageArchives(o, storages[i], full).value;
    CleanFromComplete(o, p, storages[i], archives, 0, log);
  }

  /** What a log holds, its extensions hold. */
  lemma {:induction false} PrefixMember<T>(log: seq<T>, r: seq<T>, x: T)
    requires |log| <= |r| && r[..|log|] == log && x in log
    ensures x in r
  {
    var t :| 0 <= t < |log| && log[t] == x;
    assert r[t] == r[..|log|][t];
  }

  /** A `clean_archives` that meets no exception removes every archive
      listed by a storage that the storage does not keep. */
  lemma {:induction false} CleanRemovesAllOld(o: Oracles, a: Action, today: Date, s: Storage, x: string)
    requires Valid(today) && CleanRun(o, a, today).error.None?
    requires s in a.storages && StorageArchives(o, s, FullName(a)).Ok? && x in StorageArchives(o, s, FullName(a)).value
    requires StorageShouldKeep(s, x, today) == Ok(false)
    ensures (s, x) in CleanRun(o, a, today).log
  {
    CleanStoragesComplete(o, Retention(today), a.storages, 0, FullName(a), []);
    var i :| 0 <= i < |a.storages| && a.storages[i] == s;
  }

  /** The line `list_archives` logs for one archive. */
  function ListLine(archive: string, keep: bool, descr: string): string
  {
    archive + (if keep then "" else " [old]") + ": " + descr
  }

  /** The lines `list_archives(action)` logs for one storage, for the
      archives `archives[..j]`. */
  function ListLines(p: Policy, s: Storage, archives: seq<string>, j: nat, descr: string): Result<seq<string>>
    requires j <= |archives|
  {
    if j == 0 then Ok([])
    else
      match ListLines(p, s, archives, j - 1, descr)
      case Err(e) => Err(e)
      case Ok(lines) =>
        match p.keep(s, archives[j - 1])
        case Err(e) => Err(e)
        case Ok(keep) => Ok(lines + [ListLine(archives[j - 1], keep, descr)])
  }

  /** Every archive listed gets one line, marked `[old]` exactly when the
      policy would not keep it, that is exactly when `clean_archives` would
      remove it. */
  lemma {:induction false} ListLinesMark(p: Policy, s: Storage, archives: seq<string>, j: nat, descr: string, k: nat)
    requires k < j <= |archives| && ListLines(p, s, archives, j, descr).Ok?
    ensures |ListLines(p, s, archives, j, descr).value| == j
    ensures p.keep(s, archives[k]).Ok?
    ensures ListLines(p, s, archives, j, descr).value[k]
      == archives[k] + (if p.keep(s, archives[k]) == Ok(false) then " [old]" else "") + ": " + descr
  {
    var prev := ListLines(p, s, archives, j - 1, descr);
    ListLinesCount(p, s, archives, j - 1, descr);
    if k < j - 1 {
      ListLinesMark(p, s, archives, j - 1, descr, k);
      assert ListLines(p, s, archives, j, descr).value[k] == prev.value[k];
    }
  }

  lemma {:induction false} ListLinesCount(p: Policy, s: Storage, archives: seq<string>, j: nat, descr: string)
    requires j <= |archives| && ListLines(p, s, archives, j, descr).Ok?
    ensures |ListLines(p, s, archives, j, descr).value| == j
  {
    if j > 0 {
      ListLinesCount(p, s, archives, j - 1, descr);
    }
  }

  /** The lines `list_archives(action)` logs for one storage. */
  function StorageListing(o: Oracles, p: Policy, s: Storage, full: string, descr: string): Result<seq<string>>
  {
    match StorageArchives(o, s, full)
    case Err(e) => Err(e)
    case Ok(archives) => ListLines(p, s, archives, |archives|, descr)
  }

  /** The loop of `list_archives` over `storages[..i]`. */
  function ListAll(o: Oracles, p: Policy, storages: seq<Storage>, i: nat, full: string, descr: string): Result<seq<string>>
    requires i <= |storages|
  {
    if i == 0 then Ok([])
    else
      match ListAll(o, p, storages, i - 1, full, descr)
      case Err(e) => Err(e)
      case Ok(lines) =>
        match StorageListing(o, p, storages[i - 1], full, descr)
        case Err(e) => Err(e)
        case Ok(more) => Ok(lines + more)
  }

  /** The archives the saving loop saves under `name` when nothing fails:
      one on each storage of `storages[..i]` whose `should_save` holds. */
  function Due(p: Policy, storages: seq<Storage>, i: nat, name: string): seq<(Storage, string)>
    requires i <= |storages|
  {
    if i == 0 then []
    else Due(p, storages, i - 1, name) + (if p.save(storages[i - 1]) == Ok(true) then [(storages[i - 1], name)] else [])
  }

  /** The saving loop of `run_backup` over `storages[i..]`. No `try`
      surrounds `storage.save`, so the first failure stops the loop. */
  function SaveFrom(o: Oracles, p: Policy, storages: seq<Storage>, i: nat, name: string, log: seq<(Storage, string)>): Effects
    requires i <= |storages|
    decreases |storages| - i
  {
    if i == |storages| then Effects(None, log)
    else
      match p.save(storages[i])
      case Err(e) => Effects(Some(e), log)
      case Ok(save) =>
        if !save then SaveFrom(o, p, storages, i + 1, name, log)
        else if o.saving(storages[i], name).Some? then Effects(Some(External(o.saving(storages[i], name).value)), log)
        else SaveFrom(o, p, storages, i + 1, name, log + [(storages[i], name)])
  }

  /** Where the saving loop stops: at a storage whose `should_save`
      raises or whose `save` fails. */
  predicate SaveFails(o: Oracles, p: Policy, s: Storage, name: string)
  {
    p.save(s).Err? || (p.save(s) == Ok(true) && o.saving(s, name).Some?)
  }

  /** The index of the first storage of `storages[i..]` where the saving
      loop stops, or `|storages|`. */
  function FirstFailure(o: Oracles, p: Policy, storages: seq<Storage>, i: nat, name: string): (k: nat)
    requires i <= |storages|
    ensures i <= k <= |storages|
    ensures forall k' :: i <= k' < k ==> !SaveFails(o, p, storages[k'], name)
    ensures k < |storages| ==> SaveFails(o, p, storages[k], name)
    decreases |storages| - i
  {
    if i == |storages| || SaveFails(o, p, storages[i], name) then i
    else FirstFailure(o, p, storages, i + 1, name)
  }

  /** The saving loop saves on every storage due before the first failure
      and on none after it; it fails exactly when some storage fails. */
  lemma {:induction false} SaveFromSpec(o: Oracles, p: Policy, storages: seq<Storage>, i: nat, name: string)
    requires i <= |storages|
    ensures var r := SaveFrom(o, p, storages, i, name, Due(p, storages, i, name));
      var k := FirstFailure(o, p, storages, i, name);
      && (r.error.None? <==> k == |storages|)
      && r.log == Due(p, storages, k, name)
    decreases |storages| - i
  {
    if i < |storages| && !SaveFails(o, p, storages[i], name) {
      var d := Due(p, storages, i, name);
      if p.save(storages[i]) == Ok(true) {
        assert Due(p, storages, i + 1, name) == d + [(storages[i], name)];
      } else {
        assert Due(p, storages, i + 1, name) == d + [] == d;
      }
      assert SaveFrom(o, p, storages, i, name, d) == SaveFrom(o, p, storages, i + 1, name, Due(p, storages, i + 1, name));
      SaveFromSpec(o, p, storages, i + 1, name);
    }
  }

  /** `run_backup()`: the data is fetched and packed, then saved on every
      storage due, under `_archive_name(full_name, extension)`. */
  function RunBackup(o: Oracles, a: Action, today: Date): Effects
    requires Valid(today)
  {
    if o.fetch(a).Some? then Effects(Some(External(o.fetch(a).value)), [])
    else SaveFrom(o, Retention(today), a.storages, 0, ArchiveName(today, FullName(a), Extension(a)), [])
  }

  /** A backup that goes through saves one archive on each storage due
      today, in the order of the storages, every one under the name
      `_archive_name` builds; a backup that fails after the fetch saved on
      the storages due before the first failing one. */
  lemma {:induction false} RunBackupSaves(o: Oracles, a: Action, today: Date)
    requires Valid(today) && o.fetch(a).None?
    ensures var name := ArchiveName(today, FullName(a), Extension(a));
      var k := FirstFailure(o, Retention(today), a.storages, 0, name);
      && (RunBackup(o, a, today).error.None? <==> k == |a.storages|)
      && RunBackup(o, a, today).log == Due(Retention(today), a.storages, k, name)
  {
    SaveFromSpec(o, Retention(today), a.storages, 0, ArchiveName(today, FullName(a), Extension(a)));
  }

  /** The archives due are exactly the storages whose `should_save` holds. */
  lemma {:induction false} DueSpec(p: Policy, storages: seq<Storage>, i: nat, name: string, x: (Storage, string))
    requires i <= |storages|
    ensures x in Due(p, storages, i, name) <==> x.1 == name && exists k :: 0 <= k < i && storages[k] == x.0 && p.save(x.0) == Ok(true)
  {
    if i > 0 {
      DueSpec(p, storages, i - 1, name, x);
    }
  }

  /** The message `do_backup` files: an issue with the exception's text, or
      a success. */
  function BackupMessage(a: Action, error: Option<Error>): string
  {
    if error.Some? then "Unable to save data for " + SmallDescr(a) + ": " + error.value.Text()
    else SmallDescr(a) + " have been successfully backuped"
  }

  /** The exception `do_backup` catches, if any: the cleaning first, then
      the backup itself. */
  function BackupError(o: Oracles, a: Action, today: Date): Option<Error>
    requires Valid(today)
  {
    var c := CleanRun(o, a, today);
    if c.error.Some? then c.error else RunBackup(o, a, today).error
  }

  /** The outside world, with the archives removed and saved so far. */
  class World {
    const env: Oracles
    var removed: seq<(Storage, string)>
    var saved: seq<(Storage, string)>

    constructor (env: Oracles)
      ensures this.env == env && removed == [] && saved == []
    {
      this.env := env;
      removed := [];
      saved := [];
    }

    method ListDir(folder: string) returns (r: Result<seq<(string, bool)>>)
      ensures r == env.listing(folder)
    {
      r := env.listing(folder);
    }

    method ReadIndex(file: string) returns (r: Result<seq<string>>)
      ensures r == env.index(file)
    {
      r := env.index(file);
    }

    method Remove(s: Storage, archive: string) returns (failure: Option<string>)
      modifies this
      ensures failure == env.removal(s, archive)
      ensures removed == old(removed) + (if failure.None? then [(s, archive)] else []) && saved == old(saved)
    {
      failure := env.removal(s, archive);
      if failure.None? {
        removed := removed + [(s, archive)];
      }
    }

    method Fetch(a: Action) returns (failure: Option<string>)
      ensures failure == env.fetch(a)
    {
      failure := env.fetch(a);
    }

    method Save(s: Storage, name: string) returns (failure: Option<string>)
      modifies this
      ensures failure == env.saving(s, name)
      ensures saved == old(saved) + (if failure.None? then [(s, name)] else []) && removed == old(removed)
    {
      failure := env.saving(s, name);
      if failure.None? {
        saved := saved + [(s, name)];
      }
    }
  }

  /** `storage.list_archives(full)`. */
  method ListStorageArchives(w: World, s: Storage, full: string) returns (r: Result<seq<string>>)
    ensures r == StorageArchives(w.env, s, full)
  {
    if s.Local? {
      var entries := w.ListDir(s.folder);
      if entries.Err? {
        return Err(entries.error);
      }
      var names := ListLocalArchives(s.folder, entries.value, full);
      r := Ok(names);
    } else {
      var names := w.ReadIndex(s.indexFile);
      if names.Err? {
        return Err(names.error);
      }
      r := ListGlacierArchives(names.value, full);
    }
  }

  /** The inner loop of `clean_archives` for one storage; `done` holds
      the removals of the command so far, made after those of `base`. */
  method CleanStorage(w: World, s: Storage, archives: seq<string>, today: Date,
                      ghost base: seq<(Storage, string)>, ghost done: seq<(Storage, string)>)
    returns (error: Option<Error>, ghost done': seq<(Storage, string)>)
    requires Valid(today) && w.removed == base + done
    modifies w
    ensures var r := CleanFrom(w.env, Retention(today), s, archives, 0, done);
      error == r.error && done' == r.log && w.removed == base + done' && w.saved == old(w.saved)
  {
    ghost var p := Retention(today);
    done' := done;
    var j := 0;
    while j < |archives|
      invariant 0 <= j <= |archives| && w.saved == old(w.saved) && w.removed == base + done'
      invariant CleanFrom(w.env, p, s, archives, j, done') == CleanFrom(w.env, p, s, archives, 0, done)
    {
      var keep := StorageShouldKeep(s, archives[j], today);
      if keep.Err? {
        return Some(keep.error), done';
      }
      if !keep.value {
        var failure := w.Remove(s, archives[j]);
        if failure.Some? {
          return Some(External(failure.value)), done';
        }
        Append3(base, done', [(s, archives[j])]);
        done' := done' + [(s, archives[j])];
      }
      j := j + 1;
    }
    return None, done';
  }

  /** `clean_archives(action)`. */
  method CleanArchives(w: World, a: Action, today: Date) returns (error: Option<Error>)
    requires Valid(today)
    modifies w
    ensures error == CleanRun(w.env, a, today).error
    ensures w.removed == old(w.removed) + CleanRun(w.env, a, today).log && w.saved == old(w.saved)
  {
    ghost var p := Retention(today);
    ghost var done := [];
    assert w.removed == old(w.removed) + done;
    var i := 0;
    while i < |a.storages|
      invariant 0 <= i <= |a.storages| && w.saved == old(w.saved) && w.removed == old(w.removed) + done
      invariant CleanStorages(w.env, p, a.storages, i, FullName(a), done) == CleanRun(w.env, a, today)
    {
      var archives := ListStorageArchives(w, a.storages[i], FullName(a));
      if archives.Err? {
        return Some(archives.error);
      }
      error, done := CleanStorage(w, a.storages[i], archives.value, today, old(w.removed), done);
      if error.Some? {
        return;
      }
      i := i + 1;
    }
    return None;
  }

  /** The lines `list_archives(action)` logs for the archives of one
      storage. */
  method StorageLines(s: Storage, archives: seq<string>, descr: string, today: Date) returns (r: Result<seq<string>>)
    requires Valid(today)
    ensures r == ListLines(Retention(today), s, archives, |archives|, descr)
  {
    ghost var p := Retention(today);
    var lines := [];
    var j := 0;
    while j < |archives|
      invariant 0 <= j <= |archives| && ListLines(p, s, archives, j, descr) == Ok(lines)
    {
      var keep := StorageShouldKeep(s, archives[j], today);
      if keep.Err? {
        ListErrorStays(p, s, archives, j + 1, descr);
        return Err(keep.error);
      }
      lines := lines + [ListLine(archives[j], keep.value, descr)];
      j := j + 1;
    }
    return Ok(lines);
  }

  /** Once a line cannot be written, the listing of the storage fails. */
  lemma {:induction false} ListErrorStays(p: Policy, s: Storage, archives: seq<string>, j: nat, descr: string)
    requires j <= |archives| && ListLines(p, s, archives, j, descr).Err?
    ensures ListLines(p, s, archives, |archives|, descr) == ListLines(p, s, archives, j, descr)
    decreases |archives| - j
  {
    if j < |archives| {
      ListErrorStays(p, s, archives, j + 1, descr);
    }
  }

  /** The lines `list_archives(action)` logs for one storage. */
  method ListStorage(w: World, s: Storage, full: string, descr: string, today: Date) returns (r: Result<seq<string>>)
    requires Valid(today)
    ensures r == StorageListing(w.env, Retention(today), s, full, descr)
  {
    var archives := ListStorageArchives(w, s, full);
    if archives.Err? {
      return Err(archives.error);
    }
    r := StorageLines(s, archives.value, descr, today);
  }

  /** `list_archives(action)`: the lines it logs. */
  method ListArchives(w: World, a: Action, today: Date) returns (r: Result<seq<string>>)
    requires Valid(today)
    ensures r == ListAll(w.env, Retention(today), a.storages, |a.storages|, FullName(a), SmallDescr(a))
  {
    ghost var p := Retention(today);
    var full, descr := FullName(a), SmallDescr(a);
    var lines := [];
    var i := 0;
    while i < |a.storages|
      invariant 0 <= i <= |a.storages|
      invariant ListAll(w.env, p, a.storages, i, full, descr) == Ok(lines)
    {
      var more := ListStorage(w, a.storages[i], full, descr, today);
      if more.Err? {
        ListAllErrorStays(w.env, p, a.storages, i + 1, full, descr);
        return Err(more.error);
      }
      lines := lines + more.value;
      i := i + 1;
    }
    return Ok(lines);
  }

  lemma {:induction false} ListAllErrorStays(o: Oracles, p: Policy, storages: seq<Storage>, i: nat, full: string, descr: string)
    requires i <= |storages| && ListAll(o, p, storages, i, full, descr).Err?
    ensures ListAll(o, p, storages, |storages|, full, descr) == ListAll(o, p, storages, i, full, descr)
    decreases |storages| - i
  {
    if i < |storages| {
      ListAllErrorStays(o, p, storages, i + 1, full, descr);
    }
  }

  /** The saving loop of `run_backup`. */
  method SaveAll(w: World, storages: seq<Storage>, name: string, today: Date) returns (error: Option<Error>)
    requires Valid(today)
    modifies w
    ensures var r := SaveFrom(w.env, Retention(today), storages, 0, name, old(w.saved));
      error == r.error && w.saved == r.log && w.removed == old(w.removed)
  {
    ghost var p := Retention(today);
    var i := 0;
    while i < |storages|
      invariant 0 <= i <= |storages| && w.removed == old(w.removed)
      invariant SaveFrom(w.env, p, storages, i, name, w.saved) == SaveFrom(w.env, p, storages, 0, name, old(w.saved))
    {
      var due := StorageShouldSave(storages[i], today);
      if due.Err? {
        return Some(due.error);
      }
      if due.value {
        var failure := w.Save(storages[i], name);
        if failure.Some? {
          return Some(External(failure.value));
        }
      }
      i := i + 1;
    }
    return None;
  }

  /** The saving loop appends to whatever was saved before it. */
  lemma {:induction false} SaveFromShift(o: Oracles, p: Policy, storages: seq<Storage>, i: nat, name: string,
                                        before: seq<(Storage, string)>)
    requires i <= |storages|
    ensures SaveFrom(o, p, storages, i, name, before).error == SaveFrom(o, p, storages, i, name, []).error
    ensures SaveFrom(o, p, storages, i, name, before).log == before + SaveFrom(o, p, storages, i, name, []).log
    decreases |storages| - i
  {
    if i < |storages| && p.save(storages[i]).Ok? {
      if !p.save(storages[i]).value {
        SaveFromShift(o, p, storages, i + 1, name, before);
      } else if o.saving(storages[i], name).None? {
        var e := [(storages[i], name)];
        assert SaveFrom(o, p, storages, i, name, before) == SaveFrom(o, p, storages, i + 1, name, before + e);
        assert [] + e == e;
        assert SaveFrom(o, p, storages, i, name, []) == SaveFrom(o, p, storages, i + 1, name, e);
        SaveFromShift(o, p, storages, i + 1, name, before + e);
        SaveFromShift(o, p, storages, i + 1, name, e);
        var rest := SaveFrom(o, p, storages, i + 1, name, []).log;
        assert before + e + rest == before + (e + rest);
      }
    }
  }

  /** `action.run_backup()`. */
  method RunBackupOf(w: World, a: Action, today: Date) returns (error: Option<Error>)
    requires Valid(today)
    modifies w
    ensures var r := RunBackup(w.env, a, today);
      error == r.error && w.saved == old(w.saved) + r.log && w.removed == old(w.removed)
  {
    var failure := w.Fetch(a);
    if failure.Some? {
      return Some(External(failure.value));
    }
    var name := ArchiveName(today, FullName(a), Extension(a));
    error := SaveAll(w, a.storages, name, today);
    SaveFromShift(w.env, Retention(today), a.storages, 0, name, old(w.saved));
  }

  /** `do_backup(action, report)`: exactly one message is filed for the
      action, an issue when the cleaning or the backup raised, a success
      otherwise; the world gains the cleaning's removals and, when the
      cleaning did not raise, the backup's saves. */
  method DoBackup(w: World, report: Report, a: Action, today: Date)
    requires Valid(today) && report.Valid()
    modifies w, report
    ensures report.Valid()
    ensures var error := BackupError(w.env, a, today);
      && (error.Some? ==> report.issues == Extend(old(report.issues), a.server, [BackupMessage(a, error)])
                          && report.successes == old(report.successes))
      && (error.None? ==> report.successes == Extend(old(report.successes), a.server, [BackupMessage(a, error)])
                          && report.issues == old(report.issues))
      && report.warnings == old(report.warnings)
    ensures Total(report.issues) + Total(report.successes) == old(Total(report.issues) + Total(report.successes)) + 1
    ensures var c := CleanRun(w.env, a, today);
      && w.removed == old(w.removed) + c.log
      && w.saved == old(w.saved) + (if c.error.None? then RunBackup(w.env, a, today).log else [])
  {
    var error := CleanArchives(w, a, today);
    if error.None? {
      error := RunBackupOf(w, a, today);
    }
    assert error == BackupError(w.env, a, today);
    var message := BackupMessage(a, error);
    if error.Some? {
      TotalExtend(report.issues, a.server, [message]);
      report.AddIssue(a.server, message);
    } else {
      TotalExtend(report.successes, a.server, [message]);
      report.AddSuccess(a.server, message);
    }
  }
}
