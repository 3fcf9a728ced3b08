/** The write tests of a configuration check: `WriteTestCache`, the memo of
    the folders and Glacier vaults already tested, the checks that consult
    it (`Action.check_folder_writable`, `GlacierStorage._check_glacier_access`,
    `Action.check_dest_access`) and the `test_backup` command. */
module Probes {
  import opened Wrappers
  import opened Seqs
  import opened Archives
  import opened Actions

  /** What one real write test gives: `None` when the temporary file could
      be written (and, for a vault, sent and deleted again), else the text
      of the exception it raised. */
  type TestOutcome = Option<string>

  /** The memo and the real tests run so far, as values. A folder is `None`
      for an action without `dest_folder`. */
  datatype Probed = Probed(
    folders: map<Option<string>, bool>,
    vaults: map<string, bool>,
    folderLog: seq<Option<string>>,
    vaultLog: seq<string>)

  /** What a check returns (or raises), and the state it leaves. */
  datatype Checked = Checked(result: Result<seq<string>>, after: Probed)

  predicate NoDup<T(==)>(s: seq<T>)
  {
    forall i, j :: 0 <= i < j < |s| ==> s[i] != s[j]
  }

  /** Every key tested for real is in the memo, and none was tested twice. */
  predicate Sound(p: Probed)
  {
    && NoDup(p.folderLog) && (forall k :: 0 <= k < |p.folderLog| ==> p.folderLog[k] in p.folders)
    && NoDup(p.vaultLog) && (forall k :: 0 <= k < |p.vaultLog| ==> p.vaultLog[k] in p.vaults)
  }

  /** The message for a folder that failed its test; building it raises
      `TypeError` when the folder is `None`. */
  function FolderFailure(folder: Option<string>, suffix: string): Result<seq<string>>
  {
    if folder.Some? then Ok(["Unable to write to folder " + folder.value + suffix]) else Err(TypeError)
  }

  /** `Action.check_folder_writable(folder)`, given what a real test of
      `folder` would give. */
  function FolderCheck(p: Probed, folder: Option<string>, outcome: TestOutcome): Checked
  {
    if folder !in p.folders then
      var p' := p.(folders := p.folders[folder := outcome.None?], folderLog := p.folderLog + [folder]);
      match outcome
      case None => Checked(Ok([]), p')
      case Some(e) => Checked(FolderFailure(folder, ": " + e), p')
    else if p.folders[folder] then Checked(Ok([]), p)
    else Checked(FolderFailure(folder, " (see previous errors)"), p)
  }

  /** `GlacierStorage._check_glacier_access()` for `vault`, given what a
      real test of the vault would give. */
  function VaultCheck(p: Probed, vault: string, outcome: TestOutcome): (r: Checked)
    ensures r.result.Ok? && |r.result.value| <= 1
  {
    if vault !in p.vaults then
      var p' := p.(vaults := p.vaults[vault := outcome.None?], vaultLog := p.vaultLog + [vault]);
      match outcome
      case None => Checked(Ok([]), p')
      case Some(e) => Checked(Ok(["Unable to write to glacier vault " + vault + ": " + e]), p')
    else if p.vaults[vault] then Checked(Ok([]), p)
    else Checked(Ok(["Unable to write to glacier vault " + vault]), p)
  }

  /** A folder not tested yet is tested for real, once: the memo records
      the outcome, and a failure gives exactly one message. */
  lemma {:induction false} FolderFirstCheck(p: Probed, folder: Option<string>, outcome: TestOutcome)
    requires folder !in p.folders
    ensures var c := FolderCheck(p, folder, outcome);
      && c.after.folderLog == p.folderLog + [folder] && c.after.vaultLog == p.vaultLog
      && c.after.folders == p.folders[folder := outcome.None?] && c.after.vaults == p.vaults
      && (outcome.None? ==> c.result == Ok([]))
      && (outcome.Some? && folder.Some? ==> c.result == Ok(["Unable to write to folder " + folder.value + ": " + outcome.value]))
  {
    if outcome.Some? && folder.Some? {
      var m := "Unable to write to folder " + folder.value;
      assert m + (": " + outcome.value) == m + ": " + outcome.value;
    }
  }

  /** A folder tested before is not tested again and nothing changes: no
      message after a success, one message after a failure. */
  lemma {:induction false} FolderLaterCheck(p: Probed, folder: Option<string>, outcome: TestOutcome)
    requires folder in p.folders
    ensures var c := FolderCheck(p, folder, outcome);
      && c.after == p
      && (p.folders[folder] ==> c.result == Ok([]))
      && (!p.folders[folder] && folder.Some? ==> c.result == Ok(["Unable to write to folder " + folder.value + " (see previous errors)"]))
  {
  }

  /** Checking the same folder twice tests it once: the second check
      changes nothing and reports a failure again exactly when the first
      test failed. */
  lemma {:induction false} FolderCheckTwice(p: Probed, folder: Option<string>, first: TestOutcome, second: TestOutcome)
    requires folder.Some?
    ensures var c1 := FolderCheck(p, folder, first);
      var c2 := FolderCheck(c1.after, folder, second);
      && c2.after == c1.after
      && c2.result.Ok? && |c2.result.value| <= 1
      && (c2.result.value == [] <==> c1.after.folders[folder])
  {
  }

  /** The vault counterparts of the three lemmas above. */
  lemma {:induction false} VaultFirstCheck(p: Probed, vault: string, outcome: TestOutcome)
    requires vault !in p.vaults
    ensures var c := VaultCheck(p, vault, outcome);
      && c.after.vaultLog == p.vaultLog + [vault] && c.after.folderLog == p.folderLog
      && c.after.vaults == p.vaults[vault := outcome.None?] && c.after.folders == p.folders
      && (outcome.None? ==> c.result == Ok([]))
      && (outcome.Some? ==> c.result == Ok(["Unable to write to glacier vault " + vault + ": " + outcome.value]))
  {
  }

  lemma {:induction false} VaultLaterCheck(p: Probed, vault: string, outcome: TestOutcome)
    requires vault in p.vaults
    ensures var c := VaultCheck(p, vault, outcome);
      && c.after == p
      && (p.vaults[vault] ==> c.result == Ok([]))
      && (!p.vaults[vault] ==> c.result == Ok(["Unable to write to glacier vault " + vault]))
  {
  }

  /** The memo stays sound through a folder check. */
  lemma {:induction false} FolderCheckSound(p: Probed, folder: Option<string>, outcome: TestOutcome)
    requires Sound(p)
    ensures Sound(FolderCheck(p, folder, outcome).after)
  {
    if folder !in p.folders {
      var log := p.folderLog + [folder];
      assert forall k :: 0 <= k < |p.folderLog| ==> log[k] == p.folderLog[k];
    }
  }

  /** The memo stays sound through a vault check. */
  lemma {:induction false} VaultCheckSound(p: Probed, vault: string, outcome: TestOutcome)
    requires Sound(p)
    ensures Sound(VaultCheck(p, vault, outcome).after)
  {
    if vault !in p.vaults {
      var log := p.vaultLog + [vault];
      assert forall k :: 0 <= k < |p.vaultLog| ==> log[k] == p.vaultLog[k];
    }
  }

  /** `storage.check_writable()`: a local folder is tested like a
      destination folder, a Glacier storage by its vault. */
  function StorageCheck(p: Probed, s: Storage, fo: Option<string> -> TestOutcome, vo: string -> TestOutcome): Checked
  {
    match s
    case Local(_, folder) => FolderCheck(p, Some(folder), fo(Some(folder)))
    case Glacier(_, vault, _) => VaultCheck(p, vault, vo(vault))
  }

  /** The storage loop of `check_dest_access` over `storages[i..]`, with
      the messages `acc` gathered so far; a check that raises adds the
      text of its exception instead. */
  function StorageChecks(p: Probed, storages: seq<Storage>, i: nat, acc: seq<string>,
                         fo: Option<string> -> TestOutcome, vo: string -> TestOutcome): Checked
    requires i <= |storages|
    decreases |storages| - i
  {
    if i == |storages| then Checked(Ok(acc), p)
    else
      var c := StorageCheck(p, storages[i], fo, vo);
      StorageChecks(c.after, storages, i + 1, acc + Messages(c.result), fo, vo)
  }

  /** What `detected_errors` gains from one storage check: its messages, or
      the text of the exception it raised. */
  function Messages(r: Result<seq<string>>): seq<string>
  {
    match r
    case Ok(msgs) => msgs
    case Err(e) => [e.Text()]
  }

  /** `Action.check_dest_access()`: the destination folder first (outside
      any `try`, so its exception propagates), then every storage. */
  function DestAccess(p: Probed, a: Action, fo: Option<string> -> TestOutcome, vo: string -> TestOutcome): Checked
  {
    var c := FolderCheck(p, a.destFolder, fo(a.destFolder));
    if c.result.Err? then c else StorageChecks(c.after, a.storages, 0, c.result.value, fo, vo)
  }

  lemma {:induction false} StorageChecksSound(p: Probed, storages: seq<Storage>, i: nat, acc: seq<string>,
                                             fo: Option<string> -> TestOutcome, vo: string -> TestOutcome)
    requires i <= |storages| && Sound(p)
    ensures Sound(StorageChecks(p, storages, i, acc, fo, vo).after)
    decreases |storages| - i
  {
    if i < |storages| {
      var c := StorageCheck(p, storages[i], fo, vo);
      if storages[i].Local? {
        FolderCheckSound(p, Some(storages[i].folder), fo(Some(storages[i].folder)));
      } else {
        VaultCheckSound(p, storages[i].vault, vo(storages[i].vault));
      }
      var acc' := acc + Messages(c.result);
      StorageChecksSound(c.after, storages, i + 1, acc', fo, vo);
    }
  }

  /** Checking an action's destinations tests every folder and vault at
      most once, whatever was tested before. */
  lemma {:induction false} DestAccessSound(p: Probed, a: Action, fo: Option<string> -> TestOutcome, vo: string -> TestOutcome)
    requires Sound(p)
    ensures Sound(DestAccess(p, a, fo, vo).after)
  {
    FolderCheckSound(p, a.destFolder, fo(a.destFolder));
    var c := FolderCheck(p, a.destFolder, fo(a.destFolder));
    if c.result.Ok? {
      StorageChecksSound(c.after, a.storages, 0, c.result.value, fo, vo);
    }
  }

  /** The storage loop only appends to the messages gathered before it. */
  lemma {:induction false} StorageChecksKeep(p: Probed, storages: seq<Storage>, i: nat, acc: seq<string>,
                                            fo: Option<string> -> TestOutcome, vo: string -> TestOutcome)
    requires i <= |storages|
    ensures var r := StorageChecks(p, storages, i, acc, fo, vo).result;
      r.Ok? && |r.value| >= |acc| && r.value[..|acc|] == acc
    decreases |storages| - i
  {
    if i < |storages| {
      var c := StorageCheck(p, storages[i], fo, vo);
      var acc' := acc + Messages(c.result);
      StorageChecksKeep(c.after, storages, i + 1, acc', fo, vo);
      var r := StorageChecks(c.after, storages, i + 1, acc', fo, vo).result;
      assert r.value[..|acc|] == r.value[..|acc'|][..|acc|];
    }
  }

  /** `check_dest_access` raises only when the destination folder is
      missing and fails its test; otherwise its messages start with the
      destination folder's. */
  lemma {:induction false} DestAccessRaises(p: Probed, a: Action, fo: Option<string> -> TestOutcome, vo: string -> TestOutcome)
    ensures var c := FolderCheck(p, a.destFolder, fo(a.destFolder));
      var r := DestAccess(p, a, fo, vo).result;
      && (r.Err? <==> c.result.Err?)
      && (r.Err? ==> a.destFolder.None? && r.error == TypeError)
      && (r.Ok? ==> c.result.Ok? && |c.result.value| <= |r.value| && r.value[..|c.result.value|] == c.result.value)
  {
    var c := FolderCheck(p, a.destFolder, fo(a.destFolder));
    if c.result.Ok? {
      StorageChecksKeep(c.after, a.storages, 0, c.result.value, fo, vo);
    }
  }

  /** `[[action, to_str(m)] for m in msgs]`. */
  function Tagged(a: Action, msgs: seq<string>): (r: seq<(Action, string)>)
    ensures |r| == |msgs| && forall k :: 0 <= k < |r| ==> r[k] == (a, msgs[k])
  {
    if msgs == [] then [] else [(a, msgs[0])] + Tagged(a, msgs[1..])
  }

  datatype Tested = Tested(errors: seq<(Action, string)>, after: Probed)

  /** The source part of one round of `test_backup`: the text of the
      exception `check_src_access` raised, or the messages it returned. */
  function SrcErrors(a: Action, s: Result<seq<string>>): seq<(Action, string)>
  {
    if s.Err? then [(a, s.error.Text())] else Tagged(a, s.value)
  }

  /** The destination part: when `check_dest_access` raises, the text of
      the exception and then `detected_errors` again, which still holds
      the source messages. */
  function DestErrors(a: Action, s: Result<seq<string>>, d: Result<seq<string>>): seq<(Action, string)>
  {
    if d.Ok? then Tagged(a, d.value)
    else [(a, d.error.Text())] + (if s.Err? then [] else Tagged(a, s.value))
  }

  /** One round of `test_backup`: `check_src_access` (a collaborator
      outside the model, `src`), then `check_dest_access`. */
  function TestStep(p: Probed, a: Action, src: Action -> Result<seq<string>>,
                    fo: Option<string> -> TestOutcome, vo: string -> TestOutcome): Tested
  {
    var c := DestAccess(p, a, fo, vo);
    Tested(SrcErrors(a, src(a)) + DestErrors(a, src(a), c.result), c.after)
  }

  /** The loop of `test_backup` over `actions[i..]`. */
  function TestRun(p: Probed, actions: seq<Action>, i: nat, acc: seq<(Action, string)>, src: Action -> Result<seq<string>>,
                   fo: Option<string> -> TestOutcome, vo: string -> TestOutcome): Tested
    requires i <= |actions|
    decreases |actions| - i
  {
    if i == |actions| then Tested(acc, p)
    else
      var t := TestStep(p, actions[i], src, fo, vo);
      TestRun(t.after, actions, i + 1, acc + t.errors, src, fo, vo)
  }

  /** An action with source messages whose destination check raises gets
      its source messages twice, around the exception's text. */
  lemma {:induction false} TestStepRepeats(p: Probed, a: Action, src: Action -> Result<seq<string>>,
                        fo: Option<string> -> TestOutcome, vo: string -> TestOutcome)
    requires src(a).Ok? && DestAccess(p, a, fo, vo).result.Err?
    ensures TestStep(p, a, src, fo, vo).errors
      == Tagged(a, src(a).value) + [(a, TypeError.Text())] + Tagged(a, src(a).value)
  {
    DestAccessRaises(p, a, fo, vo);
  }

  /** An action adds no error exactly when both of its checks pass
      without a message. */
  lemma {:induction false} TestStepClean(p: Probed, a: Action, src: Action -> Result<seq<string>>,
                      fo: Option<string> -> TestOutcome, vo: string -> TestOutcome)
    ensures TestStep(p, a, src, fo, vo).errors == [] <==> src(a) == Ok([]) && DestAccess(p, a, fo, vo).result == Ok([])
  {
  }

  /** Every error of a round names the action of that round. */
  lemma {:induction false} TestStepNames(p: Probed, a: Action, src: Action -> Result<seq<string>>,
                      fo: Option<string> -> TestOutcome, vo: string -> TestOutcome)
    ensures forall k :: 0 <= k < |TestStep(p, a, src, fo, vo).errors| ==> TestStep(p, a, src, fo, vo).errors[k].0 == a
  {
  }

  /** Over a whole `test_backup` run, every error names one of the actions
      and the memo stays sound: no folder or vault is tested twice. */
  lemma {:induction false} TestRunSpec(p: Probed, actions: seq<Action>, i: nat, acc: seq<(Action, string)>,
                                      src: Action -> Result<seq<string>>, fo: Option<string> -> TestOutcome, vo: string -> TestOutcome)
    requires i <= |actions|
    requires forall k :: 0 <= k < |acc| ==> acc[k].0 in actions
    ensures Sound(p) ==> Sound(TestRun(p, actions, i, acc, src, fo, vo).after)
    ensures forall k :: 0 <= k < |TestRun(p, actions, i, acc, src, fo, vo).errors| ==>
      TestRun(p, actions, i, acc, src, fo, vo).errors[k].0 in actions
    decreases |actions| - i
  {
    if i < |actions| {
      var t := TestStep(p, actions[i], src, fo, vo);
      TestStepNames(p, actions[i], src, fo, vo);
      var acc' := acc + t.errors;
      assert forall k :: 0 <= k < |acc'| ==> acc'[k].0 in actions by {
        forall k | 0 <= k < |acc'|
          ensures acc'[k].0 in actions
        {
          if k >= |acc| {
            assert acc'[k] == t.errors[k - |acc|];
          }
        }
      }
      TestRunSpec(t.after, actions, i + 1, acc', src, fo, vo);
      var r := TestRun(t.after, actions, i + 1, acc', src, fo, vo);
      assert TestRun(p, actions, i, acc, src, fo, vo) == r;
      assert forall k :: 0 <= k < |r.errors| ==> r.errors[k].0 in actions;
      if Sound(p) {
        DestAccessSound(p, actions[i], fo, vo);
        assert t.after == DestAccess(p, actions[i], fo, vo).after;
        assert Sound(r.after);
      }
    }
  }

  /** `WriteTestCache`: the memos of the folders and vaults tested, `True`
      for a test that went through, `False` for one that failed. The
      source keeps them in class attributes; one object here. */
  class WriteTestCache {
    var folderCache: map<Option<string>, bool>
    var vaultCache: map<string, bool>

    constructor ()
      ensures folderCache == map[] && vaultCache == map[]
    {
      folderCache := map[];
      vaultCache := map[];
    }

    /** `is_folder_success(folder)`: `None` when untested. */
    function IsFolderSuccess(folder: Option<string>): (r: Option<bool>)
      reads this
      ensures r.None? <==> folder !in folderCache
      ensures r.Some? ==> r.value == folderCache[folder]
    {
      if folder in folderCache then Some(folderCache[folder]) else None
    }

    /** `set_folder_success(folder, value)`. */
    method SetFolderSuccess(folder: Option<string>, value: bool)
      modifies this
      ensures folderCache == old(folderCache)[folder := value] && vaultCache == old(vaultCache)
    {
      folderCache := folderCache[folder := value];
    }

    /** `is_glacier_success(vault)`: `None` when untested. */
    function IsGlacierSuccess(vault: string): (r: Option<bool>)
      reads this
      ensures r.None? <==> vault !in vaultCache
      ensures r.Some? ==> r.value == vaultCache[vault]
    {
      if vault in vaultCache then Some(vaultCache[vault]) else None
    }

    /** `set_glacier_success(vault, value)`. */
    method SetGlacierSuccess(vault: string, value: bool)
      modifies this
      ensures vaultCache == old(vaultCache)[vault := value] && folderCache == old(folderCache)
    {
      vaultCache := vaultCache[vault := value];
    }
  }

  /** The real write tests, outside the model: what each folder and vault
      gives, and the list of the tests run. */
  class Tester {
    const folderOutcome: Option<string> -> TestOutcome
    const vaultOutcome: string -> TestOutcome
    var folderLog: seq<Option<string>>
    var vaultLog: seq<string>

    constructor (fo: Option<string> -> TestOutcome, vo: string -> TestOutcome)
      ensures folderOutcome == fo && vaultOutcome == vo && folderLog == [] && vaultLog == []
    {
      folderOutcome := fo;
      vaultOutcome := vo;
      folderLog := [];
      vaultLog := [];
    }

    /** Writes a temporary file into `folder`. */
    method WriteFolder(folder: Option<string>) returns (o: TestOutcome)
      modifies this
      ensures o == folderOutcome(folder)
      ensures folderLog == old(folderLog) + [folder] && vaultLog == old(vaultLog)
    {
      o := folderOutcome(folder);
      folderLog := folderLog + [folder];
    }

    /** Sends a temporary file to `vault` and deletes it again. */
    method WriteVault(vault: string) returns (o: TestOutcome)
      modifies this
      ensures o == vaultOutcome(vault)
      ensures vaultLog == old(vaultLog) + [vault] && folderLog == old(folderLog)
    {
      o := vaultOutcome(vault);
      vaultLog := vaultLog + [vault];
    }
  }

  function StateOf(cache: WriteTestCache, tester: Tester): Probed
    reads cache, tester
  {
    Probed(cache.folderCache, cache.vaultCache, tester.folderLog, tester.vaultLog)
  }

  /** `Action.check_folder_writable(folder)`. */
  method CheckFolderWritable(cache: WriteTestCache, tester: Tester, folder: Option<string>) returns (r: Result<seq<string>>)
    modifies cache, tester
    ensures var c := FolderCheck(old(StateOf(cache, tester)), folder, tester.folderOutcome(folder));
      r == c.result && StateOf(cache, tester) == c.after
  {
    var cached := cache.IsFolderSuccess(folder);
    if cached.None? {
      var o := tester.WriteFolder(folder);
      if o.None? {
        cache.SetFolderSuccess(folder, true);
        r := Ok([]);
      } else {
        cache.SetFolderSuccess(folder, false);
        r := FolderFailure(folder, ": " + o.value);
      }
    } else if !cached.value {
      r := FolderFailure(folder, " (see previous errors)");
    } else {
      r := Ok([]);
    }
  }

  /** `GlacierStorage._check_glacier_access()` for `vault`. */
  method CheckGlacierAccess(cache: WriteTestCache, tester: Tester, vault: string) returns (r: seq<string>)
    modifies cache, tester
    ensures var c := VaultCheck(old(StateOf(cache, tester)), vault, tester.vaultOutcome(vault));
      Ok(r) == c.result && StateOf(cache, tester) == c.after
  {
    var cached := cache.IsGlacierSuccess(vault);
    if cached.None? {
      var o := tester.WriteVault(vault);
      if o.None? {
        cache.SetGlacierSuccess(vault, true);
        r := [];
      } else {
        cache.SetGlacierSuccess(vault, false);
        r := ["Unable to write to glacier vault " + vault + ": " + o.value];
      }
    } else if !cached.value {
      r := ["Unable to write to glacier vault " + vault];
    } else {
      r := [];
    }
  }

  /** `storage.check_writable()`. */
  method CheckWritable(cache: WriteTestCache, tester: Tester, s: Storage) returns (r: Result<seq<string>>)
    modifies cache, tester
    ensures var c := StorageCheck(old(StateOf(cache, tester)), s, tester.folderOutcome, tester.vaultOutcome);
      r == c.result && StateOf(cache, tester) == c.after
  {
    match s
    case Local(_, folder) =>
      r := CheckFolderWritable(cache, tester, Some(folder));
    case Glacier(_, vault, _) =>
      var msgs := CheckGlacierAccess(cache, tester, vault);
      r := Ok(msgs);
  }

  /** `Action.check_dest_access()`. */
  method CheckDestAccess(cache: WriteTestCache, tester: Tester, a: Action) returns (r: Result<seq<string>>)
    modifies cache, tester
    ensures var c := DestAccess(old(StateOf(cache, tester)), a, tester.folderOutcome, tester.vaultOutcome);
      r == c.result && StateOf(cache, tester) == c.after
  {
    ghost var p0 := StateOf(cache, tester);
    var first := CheckFolderWritable(cache, tester, a.destFolder);
    if first.Err? {
      return first;
    }
    var detected := first.value;
    var i := 0;
    while i < |a.storages|
      invariant 0 <= i <= |a.storages|
      invariant StorageChecks(StateOf(cache, tester), a.storages, i, detected, tester.folderOutcome, tester.vaultOutcome)
        == DestAccess(p0, a, tester.folderOutcome, tester.vaultOutcome)
    {
      var c := CheckWritable(cache, tester, a.storages[i]);
      detected := detected + Messages(c);
      i := i + 1;
    }
    r := Ok(detected);
  }

  /** `errors.append([action, to_str(m)])` for every `m` of `msgs`. */
  method AppendTagged(errors: seq<(Action, string)>, a: Action, msgs: seq<string>) returns (r: seq<(Action, string)>)
    ensures r == errors + Tagged(a, msgs)
  {
    r := errors;
    var k := 0;
    while k < |msgs|
      invariant 0 <= k <= |msgs| && r == errors + Tagged(a, msgs[..k])
    {
      assert msgs[..k + 1] == msgs[..k] + [msgs[k]];
      TaggedAppend(a, msgs[..k], msgs[k]);
      r := r + [(a, msgs[k])];
      k := k + 1;
    }
    assert msgs[..k] == msgs;
  }

  lemma {:induction false} TaggedAppend(a: Action, msgs: seq<string>, m: string)
    ensures Tagged(a, msgs + [m]) == Tagged(a, msgs) + [(a, m)]
  {
    var l, r := Tagged(a, msgs + [m]), Tagged(a, msgs) + [(a, m)];
    assert |l| == |r|;
    assert forall k :: 0 <= k < |l| ==> l[k] == r[k];
  }

  /** `test_backup(actions)`, with `check_src_access` given as `src`. */
  method TestBackup(cache: WriteTestCache, tester: Tester, actions: seq<Action>, src: Action -> Result<seq<string>>)
    returns (errors: seq<(Action, string)>)
    modifies cache, tester
    ensures var t := TestRun(old(StateOf(cache, tester)), actions, 0, [], src, tester.folderOutcome, tester.vaultOutcome);
      errors == t.errors && StateOf(cache, tester) == t.after
    ensures Sound(old(StateOf(cache, tester))) ==> Sound(StateOf(cache, tester))
    ensures forall k :: 0 <= k < |errors| ==> errors[k].0 in actions
  {
    ghost var p0 := StateOf(cache, tester);
    TestRunSpec(p0, actions, 0, [], src, tester.folderOutcome, tester.vaultOutcome);
    errors := [];
    var i := 0;
    while i < |actions|
      invariant 0 <= i <= |actions|
      invariant TestRun(StateOf(cache, tester), actions, i, errors, src, tester.folderOutcome, tester.vaultOutcome)
        == TestRun(p0, actions, 0, [], src, tester.folderOutcome, tester.vaultOutcome)
    {
      errors := TestOne(cache, tester, actions[i], src, errors);
      i := i + 1;
    }
  }

  /** One round of the loop of `test_backup`. */
  method TestOne(cache: WriteTestCache, tester: Tester, a: Action, src: Action -> Result<seq<string>>,
                 errors: seq<(Action, string)>) returns (r: seq<(Action, string)>)
    modifies cache, tester
    ensures var t := TestStep(old(StateOf(cache, tester)), a, src, tester.folderOutcome, tester.vaultOutcome);
      r == errors + t.errors && StateOf(cache, tester) == t.after
  {
    var detected := [];
    var s := src(a);
    r := errors;
    if s.Err? {
      r := r + [(a, s.error.Text())];
    } else {
      detected := s.value;
    }
    r := AppendTagged(r, a, detected);
    assert r == errors + SrcErrors(a, s);
    ghost var r1 := r;
    var d := CheckDestAccess(cache, tester, a);
    if d.Err? {
      r := r + [(a, d.error.Text())];
    } else {
      detected := d.value;
    }
    r := AppendTagged(r, a, detected);
    assert r == r1 + DestErrors(a, s, d);
    Append3(errors, SrcErrors(a, s), DestErrors(a, s, d));
  }
}
