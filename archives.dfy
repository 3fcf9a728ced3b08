/** Storages and their archives: the `YYYYMMDD_<full name>.<extension>`
    naming, the filename filter of `MemoryStorage.should_keep`, and the
    `list_archives` filters of the local-folder and Glacier storages. */
module Archives {
  import opened Wrappers
  import opened PyStr
  import opened Dates
  import opened Retention

  /** A storage. `freq` is `None` when the memory section was neither a
      string nor a dictionary (the parser then stores `None`). */
  datatype Storage =
    | Local(freq: Option<Freq>, folder: string)
    | Glacier(freq: Option<Freq>, vault: string, indexFile: string)

  /** `strftime("%Y%m%d")` of the reference date. */
  function DateStamp(today: Date): string
    requires Valid(today)
  {
    ZeroPad(today.year, 4) + ZeroPad(today.month, 2) + ZeroPad(today.day, 2)
  }

  /** `MemoryStorage._archive_name`. */
  function ArchiveName(today: Date, full: string, ext: string): string
    requires Valid(today)
  {
    DateStamp(today) + "_" + full + "." + ext
  }

  /** The filename test shared by `MemoryStorage.should_keep` and
      `LocalFolderStorage.list_archives`: at least 10 characters, `_` at
      index 8 and nowhere before, the first 8 matching `^[0-9]+$`, and
      `int` of the three date fields a valid date. Gives the date and the
      part after the first `_`. */
  function ParseArchiveFilename(name: string): (r: Option<(Date, string)>)
    ensures r.Some? ==> |name| >= 10 && name[8] == '_' && '_' !in name[..8]
    ensures r.Some? ==> DigitPattern(name[..8]) && Valid(r.value.0) && r.value.1 == name[9..]
  {
    if |name| < 10 || name[8] != '_' || '_' in name[..8] then None
    else
      var stamp := name[..8];
      if !DigitPattern(stamp) then None
      else
        match (IntLiteral(stamp[..4]), IntLiteral(stamp[4..6]), IntLiteral(stamp[6..8]))
        case (Some(y), Some(m), Some(d)) =>
          if Valid(Date(y, m, d)) then Some((Date(y, m, d), name[9..])) else None
        case _ => None
  }

  /** `MemoryStorage.should_keep(archive)`: names that are not archives are
      not kept; a storage without a frequency fails with `AttributeError`;
      otherwise the frequency judges the archive's date. */
  function StorageShouldKeep(s: Storage, archive: string, today: Date): (r: Result<bool>)
    requires Valid(today)
    ensures ParseArchiveFilename(Basename(archive)).None? ==> r == Ok(false)
    ensures ParseArchiveFilename(Basename(archive)).Some? && s.freq.None? ==> r == Err(AttributeError)
    ensures ParseArchiveFilename(Basename(archive)).Some? && s.freq.Some? ==>
      r == ShouldKeep(s.freq.value, ParseArchiveFilename(Basename(archive)).value.0, today)
  {
    match ParseArchiveFilename(Basename(archive))
    case None => Ok(false)
    case Some((d, _)) =>
      match s.freq
      case None => Err(AttributeError)
      case Some(f) => ShouldKeep(f, d, today)
  }

  /** `MemoryStorage.should_save()`. */
  function StorageShouldSave(s: Storage, today: Date): (r: Result<bool>)
    requires Valid(today)
    ensures s.freq.None? ==> r == Err(AttributeError)
    ensures s.freq.Some? ==> r == ShouldSave(s.freq.value, today)
  {
    match s.freq
    case None => Err(AttributeError)
    case Some(f) => ShouldSave(f, today)
  }

  /** The `action_fullname` filter: an empty name selects everything. */
  predicate NameSelected(rest: string, full: string)
  {
    full == [] || StartsWith(rest, full + ".")
  }

  /** A directory entry that `LocalFolderStorage.list_archives(full)` lists. */
  predicate LocalAccepts(entry: (string, bool), full: string)
  {
    entry.1 && ParseArchiveFilename(entry.0).Some? && NameSelected(ParseArchiveFilename(entry.0).value.1, full)
  }

  /** The images under `f` of the elements of `s` that satisfy `keep`, in order. */
  function FilterMap<T>(s: seq<T>, keep: T -> bool, f: T -> string): (r: seq<string>)
    ensures |r| <= |s|
  {
    if s == [] then []
    else
      var rest := FilterMap(s[..|s| - 1], keep, f);
      if keep(s[|s| - 1]) then rest + [f(s[|s| - 1])] else rest
  }

  lemma {:induction false} FilterMapMembers<T>(s: seq<T>, keep: T -> bool, f: T -> string, x: string)
    ensures x in FilterMap(s, keep, f) <==> exists i :: 0 <= i < |s| && keep(s[i]) && x == f(s[i])
  {
    if s != [] {
      var init := s[..|s| - 1];
      FilterMapMembers(init, keep, f, x);
      if x in FilterMap(init, keep, f) {
        var i :| 0 <= i < |init| && keep(init[i]) && x == f(init[i]);
        assert s[i] == init[i];
      }
      if exists i :: 0 <= i < |s| && keep(s[i]) && x == f(s[i]) {
        var i :| 0 <= i < |s| && keep(s[i]) && x == f(s[i]);
        if i < |init| {
          assert s[i] == init[i];
        }
      }
    }
  }

  /** The listing of a local folder, from its `(name, is a file)` entries
      in `os.listdir` order. */
  function LocalListing(folder: string, entries: seq<(string, bool)>, full: string): seq<string>
  {
    FilterMap(entries, e => LocalAccepts(e, full), (e: (string, bool)) => JoinPath(folder, e.0))
  }

  /** `LocalFolderStorage.list_archives` over a directory listing. */
  method ListLocalArchives(folder: string, entries: seq<(string, bool)>, full: string)
    returns (results: seq<string>)
    ensures results == LocalListing(folder, entries, full)
  {
    results := [];
    var i := 0;
    while i < |entries|
      invariant 0 <= i <= |entries|
      invariant results == LocalListing(folder, entries[..i], full)
    {
      LocalListingNext(folder, entries, full, i);
      var (name, isFile) := entries[i];
      if isFile {
        var parsed := ParseArchiveFilename(name);
        if parsed.Some? {
          var (_, rest) := parsed.value;
          if full == [] || StartsWith(rest, full + ".") {
            results := results + [JoinPath(folder, name)];
          }
        }
      }
      i := i + 1;
    }
    assert entries[..i] == entries;
  }

  /** The listing of one more directory entry. */
  lemma {:induction false} LocalListingNext(folder: string, entries: seq<(string, bool)>, full: string, i: nat)
    requires i < |entries|
    ensures LocalListing(folder, entries[..i + 1], full)
      == LocalListing(folder, entries[..i], full)
         + (if LocalAccepts(entries[i], full) then [JoinPath(folder, entries[i].0)] else [])
  {
    assert entries[..i + 1][..i] == entries[..i];
  }

  /** A path is listed iff it is the join of the folder with an entry
      that is a file, has an archive name, and matches the action's name. */
  lemma {:induction false} LocalListingMembers(folder: string, entries: seq<(string, bool)>, full: string, x: string)
    ensures x in LocalListing(folder, entries, full) <==>
      exists i :: 0 <= i < |entries| && LocalAccepts(entries[i], full) && x == JoinPath(folder, entries[i].0)
  {
    FilterMapMembers(entries, e => LocalAccepts(e, full), (e: (string, bool)) => JoinPath(folder, e.0), x);
  }

  /** The listing of a Glacier vault from the names in its index file:
      only the action-name filter applies, and a name without `_` fails
      the unpacking of `split("_", 1)`. */
  function GlacierListing(names: seq<string>, full: string): (r: Result<seq<string>>)
    ensures r.Ok? ==> |r.value| <= |names|
  {
    if names == [] then Ok([])
    else
      match GlacierListing(names[..|names| - 1], full)
      case Err(e) => Err(e)
      case Ok(rest) =>
        var n := names[|names| - 1];
        if '_' !in n then Err(ValueError)
        else if NameSelected(n[IndexOf(n, '_') + 1..], full) then Ok(rest + [n])
        else Ok(rest)
  }

  /** `GlacierStorage.list_archives` over the names of the index file. */
  method ListGlacierArchives(names: seq<string>, full: string) returns (r: Result<seq<string>>)
    ensures r == GlacierListing(names, full)
  {
    var results := [];
    var i := 0;
    while i < |names|
      invariant 0 <= i <= |names|
      invariant GlacierListing(names[..i], full) == Ok(results)
    {
      assert names[..i + 1][..i] == names[..i];
      var n := names[i];
      if '_' !in n {
        GlacierErrorStays(names, full, i + 1);
        return Err(ValueError);
      }
      var rest := n[IndexOf(n, '_') + 1..];
      if full == [] || StartsWith(rest, full + ".") {
        results := results + [n];
      }
      i := i + 1;
    }
    assert names[..i] == names;
    return Ok(results);
  }

  /** Once a prefix of the names fails, the whole listing fails the same way. */
  lemma {:induction false} GlacierErrorStays(names: seq<string>, full: string, j: nat)
    requires j <= |names| && GlacierListing(names[..j], full).Err?
    ensures GlacierListing(names, full) == GlacierListing(names[..j], full)
    decreases |names|
  {
    if j == |names| {
      assert names[..j] == names;
    } else {
      var init := names[..|names| - 1];
      assert init[..j] == names[..j];
      GlacierErrorStays(init, full, j);
    }
  }

  lemma {:induction false} DigitsStrip(s: string)
    requires AllDigits(s)
    ensures Strip(s) == s
  {
  }

  lemma {:induction false} IntLiteralOfDigits(s: string)
    requires |s| >= 1 && AllDigits(s)
    ensures IntLiteral(s) == Some(DecimalValue(s))
  {
    DigitsStrip(s);
  }

  lemma {:induction false} FieldOfStamp(n: nat, width: nat)
    requires 1 <= width && n < Pow10(width)
    ensures IntLiteral(ZeroPad(n, width)) == Some(n) && |ZeroPad(n, width)| == width
  {
    ZeroPadLength(n, width);
    ZeroPadRoundTrip(n, width);
    IntLiteralOfDigits(ZeroPad(n, width));
  }

  /** The filter accepts a name made of an eight-character stamp whose
      three fields read as a valid date, `_`, and a non-empty rest. */
  lemma {:induction false} ParseOfStamp(stamp: string, rest: string, y: int, m: int, d: int)
    requires |stamp| == 8 && DigitPattern(stamp) && '_' !in stamp && rest != []
    requires IntLiteral(stamp[..4]) == Some(y) && IntLiteral(stamp[4..6]) == Some(m)
    requires IntLiteral(stamp[6..8]) == Some(d) && Valid(Date(y, m, d))
    ensures ParseArchiveFilename(stamp + "_" + rest) == Some((Date(y, m, d), rest))
  {
    var name := stamp + "_" + rest;
    assert name[..8] == stamp;
    assert name[8] == '_';
    assert name[9..] == rest;
  }

  lemma {:induction false} StampSlices(y: string, m: string, d: string)
    requires |y| == 4 && |m| == 2 && |d| == 2
    ensures (y + m + d)[..4] == y && (y + m + d)[4..6] == m && (y + m + d)[6..8] == d
  {
  }

  /** The stamp of a valid date is eight digits whose fields read back as
      the year, month and day. */
  lemma {:induction false} StampFields(today: Date)
    requires Valid(today)
    ensures |DateStamp(today)| == 8 && AllDigits(DateStamp(today))
    ensures IntLiteral(DateStamp(today)[..4]) == Some(today.year)
    ensures IntLiteral(DateStamp(today)[4..6]) == Some(today.month)
    ensures IntLiteral(DateStamp(today)[6..8]) == Some(today.day)
  {
    assert Pow10(4) == 10000 && Pow10(2) == 100;
    FieldOfStamp(today.year, 4);
    FieldOfStamp(today.month, 2);
    FieldOfStamp(today.day, 2);
    StampSlices(ZeroPad(today.year, 4), ZeroPad(today.month, 2), ZeroPad(today.day, 2));
  }

  /** The name an archive is saved under parses back to the date it was
      saved on and to `full + "." + ext`. */
  lemma {:induction false} ArchiveNameRoundTrip(today: Date, full: string, ext: string)
    requires Valid(today)
    ensures ParseArchiveFilename(ArchiveName(today, full, ext)) == Some((today, full + "." + ext))
  {
    var stamp := DateStamp(today);
    StampFields(today);
    assert DigitPattern(stamp);
    assert '_' !in stamp by {
      assert forall i :: 0 <= i < |stamp| ==> IsDigit(stamp[i]);
    }
    assert ArchiveName(today, full, ext) == stamp + "_" + (full + "." + ext);
    ParseOfStamp(stamp, full + "." + ext, today.year, today.month, today.day);
  }

  /** An archive name holds a `/` only where the action name or the
      extension does. */
  lemma {:induction false} ArchiveNameNoSlash(today: Date, full: string, ext: string)
    requires Valid(today) && '/' !in full + "." + ext
    ensures '/' !in ArchiveName(today, full, ext)
  {
    var stamp := DateStamp(today);
    var tail := full + "." + ext;
    var name := ArchiveName(today, full, ext);
    DateStampDigits(today);
    assert name == stamp + "_" + tail;
    forall i | 0 <= i < |name|
      ensures name[i] != '/'
    {
      if i < |stamp| {
        assert name[i] == stamp[i];
      } else if i > |stamp| {
        assert name[i] == tail[i - |stamp| - 1];
      }
    }
  }

  /** An archive saved for an action is listed by `list_archives` for that
      action. */
  lemma {:induction false} SavedArchiveListed(today: Date, full: string, ext: string)
    requires Valid(today)
    ensures LocalAccepts((ArchiveName(today, full, ext), true), full)
  {
    ArchiveNameRoundTrip(today, full, ext);
    assert (full + "." + ext)[..|full + "."|] == full + ".";
  }

  /** An archive saved into a folder is judged by `should_keep` as
      `should_save` judged it on the day it was saved. */
  lemma {:induction false} SavedArchiveKept(today: Date, folder: string, full: string, ext: string, s: Storage)
    requires Valid(today) && '/' !in full + "." + ext
    ensures StorageShouldKeep(s, JoinPath(folder, ArchiveName(today, full, ext)), today) ==
      StorageShouldSave(s, today)
  {
    var name := ArchiveName(today, full, ext);
    ArchiveNameNoSlash(today, full, ext);
    assert |name| >= 1 by { DateStampDigits(today); }
    BasenameOfJoin(folder, name);
    ArchiveNameRoundTrip(today, full, ext);
  }

  lemma {:induction false} DateStampDigits(today: Date)
    requires Valid(today)
    ensures AllDigits(DateStamp(today))
  {
  }

  lemma {:induction false} ReadNewlineDay()
    ensures IntLiteral("1\n") == Some(1)
  {
    assert LStrip("1\n") == "1\n";
    assert "1\n"[..1] == "1";
    assert RStrip("1\n") == RStrip("1") == "1";
  }

  lemma {:induction false} ReadYear()
    ensures IntLiteral("2024") == Some(2024)
  {
    IntLiteralOfDigits("2024");
    assert DecimalValue("2") == 2;
    assert "20"[..1] == "2";
    assert DecimalValue("20") == 20;
    assert "202"[..2] == "20";
    assert DecimalValue("202") == 202;
    assert "2024"[..3] == "202";
  }

  lemma {:induction false} ReadMonth()
    ensures IntLiteral("01") == Some(1)
  {
    IntLiteralOfDigits("01");
    assert "01"[..1] == "0";
  }

  /** Python reads `$` as "end, or before a final newline", so a date
      field ending in a newline still passes the filter. */
  lemma {:induction false} NewlineStampAccepted()
    ensures ParseArchiveFilename("2024011\n_web_www.tgz") == Some((Date(2024, 1, 1), "web_www.tgz"))
  {
    var stamp := "2024011\n";
    assert "2024011\n_web_www.tgz" == stamp + "_" + "web_www.tgz";
    assert stamp[..7] == "2024011" && AllDigits(stamp[..7]);
    assert stamp[..4] == "2024" && stamp[4..6] == "01" && stamp[6..8] == "1\n";
    ReadYear();
    ReadMonth();
    ReadNewlineDay();
    ParseOfStamp(stamp, "web_www.tgz", 2024, 1, 1);
  }

  /** The Glacier listing applies no date filter: a name that is not an
      archive name for a local folder is still listed. */
  lemma {:induction false} GlacierSkipsDateFilter()
    ensures !LocalAccepts(("x_web_www.tgz", true), "web_www")
    ensures GlacierListing(["x_web_www.tgz"], "web_www") == Ok(["x_web_www.tgz"])
  {
    var n := "x_web_www.tgz";
    var names := [n];
    assert n[1] == '_' && '_' in n[..8];
    assert n[1..][0] == '_';
    assert IndexOf(n, '_') == 1;
    assert "web_www" + "." == "web_www.";
    assert n[2..][..8] == "web_www.";
    assert names[..0] == [];
    assert GlacierListing(names[..0], "web_www") == Ok([]);
    var none: seq<string> := [];
    assert none + [n] == [n];
  }
}
