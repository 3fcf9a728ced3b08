/** `Report`: the issues, warnings and successes of a run, each a
    dictionary from server names to lists of messages, and the text
    `ReportTarget` renders from it. */
module Reports {
  import opened PyStr
  import opened Seqs

  /** A dictionary from server names to lists, in insertion order. */
  type Log<T> = seq<(string, seq<T>)>

  /** Where `s` is a key of `log`, -1 when it is not. */
  function ServerIndex<T>(log: Log<T>, s: string): (r: int)
    ensures -1 <= r < |log|
    ensures r >= 0 ==> log[r].0 == s && forall j :: 0 <= j < r ==> log[j].0 != s
    ensures r == -1 ==> forall j :: 0 <= j < |log| ==> log[j].0 != s
  {
    if log == [] then -1
    else if log[0].0 == s then 0
    else
      var r := ServerIndex(log[1..], s);
      if r == -1 then -1 else r + 1
  }

  /** The first index holding `s` is the index found. */
  lemma {:induction false} ServerIndexIs<T>(log: Log<T>, s: string, r: nat)
    requires r < |log| && log[r].0 == s && forall j :: 0 <= j < r ==> log[j].0 != s
    ensures ServerIndex(log, s) == r
  {
  }

  predicate HasServer<T>(log: Log<T>, s: string)
  {
    ServerIndex(log, s) >= 0
  }

  /** `log.get(s, [])`. */
  function Get<T>(log: Log<T>, s: string): seq<T>
  {
    var j := ServerIndex(log, s);
    if j == -1 then [] else log[j].1
  }

  /** Keys of a dictionary are distinct. */
  predicate UniqueServers<T>(log: Log<T>)
  {
    forall i, j :: 0 <= i < j < |log| ==> log[i].0 != log[j].0
  }

  /** The keys of `log`, in order. */
  function Servers<T>(log: Log<T>): seq<string>
  {
    seq(|log|, j requires 0 <= j < |log| => log[j].0)
  }

  /** `if s not in log: log[s] = []`, then `items` appended to `log[s]`. */
  function Extend<T>(log: Log<T>, s: string, items: seq<T>): Log<T>
  {
    var j := ServerIndex(log, s);
    if j == -1 then log + [(s, items)] else log[j := (s, log[j].1 + items)]
  }

  /** Extending appends to the list of `s` only; a new server goes last
      and keys stay distinct. */
  lemma {:induction false} ExtendSpec<T>(log: Log<T>, s: string, items: seq<T>, other: string)
    ensures Get(Extend(log, s, items), s) == Get(log, s) + items
    ensures other != s ==> Get(Extend(log, s, items), other) == Get(log, other)
    ensures HasServer(Extend(log, s, items), other) <==> HasServer(log, other) || other == s
    ensures Servers(Extend(log, s, items)) == Servers(log) + (if HasServer(log, s) then [] else [s])
    ensures UniqueServers(log) ==> UniqueServers(Extend(log, s, items))
  {
    var j := ServerIndex(log, s);
    var r := Extend(log, s, items);
    if j == -1 {
      ServerIndexIs(r, s, |log|);
      var k := ServerIndex(log, other);
      if k >= 0 {
        ServerIndexIs(r, other, k);
      } else if other != s {
        assert forall t :: 0 <= t < |r| ==> r[t].0 != other;
      }
    } else {
      ServerIndexIs(r, s, j);
      var k := ServerIndex(log, other);
      if k >= 0 {
        ServerIndexIs(r, other, k);
      } else {
        assert forall t :: 0 <= t < |r| ==> r[t].0 == log[t].0;
      }
    }
    assert Servers(r) == Servers(log) + (if j == -1 then [s] else []);
  }

  /** The number of items over all servers. */
  function Total<T>(log: Log<T>): nat
  {
    if log == [] then 0 else Total(log[..|log| - 1]) + |log[|log| - 1].1|
  }

  lemma {:induction false} TotalUpdate<T>(log: Log<T>, j: nat, e: (string, seq<T>))
    requires j < |log|
    ensures Total(log[j := e]) == Total(log) - |log[j].1| + |e.1|
    decreases |log|
  {
    var n := |log|;
    var r := log[j := e];
    assert r[..n - 1] == if j == n - 1 then log[..n - 1] else log[..n - 1][j := e];
    if j < n - 1 {
      TotalUpdate(log[..n - 1], j, e);
    }
  }

  /** Extending adds its items to the total. */
  lemma {:induction false} TotalExtend<T>(log: Log<T>, s: string, items: seq<T>)
    ensures Total(Extend(log, s, items)) == Total(log) + |items|
  {
    var j := ServerIndex(log, s);
    if j == -1 {
      assert (log + [(s, items)])[..|log|] == log;
    } else {
      TotalUpdate(log, j, (s, log[j].1 + items));
    }
  }

  /** Every list is empty. */
  predicate AllEmpty<T>(log: Log<T>)
  {
    forall j :: 0 <= j < |log| ==> log[j].1 == []
  }

  lemma {:induction false} AllEmptyTotal<T>(log: Log<T>)
    ensures AllEmpty(log) <==> Total(log) == 0
    decreases |log|
  {
    if log != [] {
      var p := log[..|log| - 1];
      AllEmptyTotal(p);
      assert forall j :: 0 <= j < |p| ==> p[j] == log[j];
    }
  }

  /** The total is the sum of the lists of the servers. */
  lemma {:induction false} TotalGet<T>(log: Log<T>, s: string)
    requires UniqueServers(log)
    ensures |Get(log, s)| <= Total(log)
    decreases |log|
  {
    if log != [] {
      var p := log[..|log| - 1];
      assert forall j :: 0 <= j < |p| ==> p[j] == log[j];
      TotalGet(p, s);
      var k := ServerIndex(log, s);
      if k >= 0 && k < |p| {
        ServerIndexIs(p, s, k);
      } else if k == -1 {
        assert ServerIndex(p, s) == -1;
      }
    }
  }

  /** `is_empty`, over the three dictionaries. */
  predicate IsEmptyOf(issues: Log<string>, warnings: Log<string>, successes: Log<string>)
  {
    AllEmpty(issues) && AllEmpty(warnings) && AllEmpty(successes)
  }

  /** `is_success`. */
  predicate IsSuccessOf(issues: Log<string>, warnings: Log<string>, successes: Log<string>)
  {
    !IsEmptyOf(issues, warnings, successes) && Total(issues) == 0
  }

  /** A run is a success exactly when it has no issue and at least one
      warning or success. */
  lemma {:induction false} IsSuccessSpec(issues: Log<string>, warnings: Log<string>, successes: Log<string>)
    ensures IsEmptyOf(issues, warnings, successes) <==> Total(issues) + Total(warnings) + Total(successes) == 0
    ensures IsSuccessOf(issues, warnings, successes) <==> Total(issues) == 0 && Total(warnings) + Total(successes) > 0
  {
    AllEmptyTotal(issues);
    AllEmptyTotal(warnings);
    AllEmptyTotal(successes);
  }

  /** The entries `{"level": level, "info": m}` of a list of messages. */
  function Tag(level: string, msgs: seq<string>): (r: seq<(string, string)>)
    ensures |r| == |msgs| && forall i :: 0 <= i < |r| ==> r[i] == (level, msgs[i])
  {
    seq(|msgs|, i requires 0 <= i < |msgs| => (level, msgs[i]))
  }

  /** One loop of `by_server`: the lists of `log`, tagged with `level`,
      appended in `acc` server by server. */
  function Collect(acc: Log<(string, string)>, log: Log<string>, level: string): Log<(string, string)>
  {
    if log == [] then acc
    else
      var e := log[|log| - 1];
      Extend(Collect(acc, log[..|log| - 1], level), e.0, Tag(level, e.1))
  }

  /** `by_server`: issues (`error`), then warnings (`warning`), then
      successes (`server`). */
  function ByServerOf(issues: Log<string>, warnings: Log<string>, successes: Log<string>): Log<(string, string)>
  {
    Collect(Collect(Collect([], issues, "error"), warnings, "warning"), successes, "server")
  }

  /** The last entry of a dictionary, against the others. */
  lemma {:induction false} LastEntry<T>(log: Log<T>, s: string)
    requires log != []
    ensures var p, e := log[..|log| - 1], log[|log| - 1];
      && (HasServer(log, s) <==> HasServer(p, s) || e.0 == s)
      && (UniqueServers(log) ==> UniqueServers(p) && Get(log, s) == if e.0 == s then e.1 else Get(p, s))
  {
    var p, e := log[..|log| - 1], log[|log| - 1];
    assert forall j :: 0 <= j < |p| ==> p[j] == log[j];
    var k := ServerIndex(p, s);
    if k >= 0 {
      ServerIndexIs(log, s, k);
    } else if e.0 == s {
      ServerIndexIs(log, s, |p|);
    } else {
      assert ServerIndex(log, s) == -1;
    }
  }

  lemma {:induction false} CollectUnique(acc: Log<(string, string)>, log: Log<string>, level: string)
    requires UniqueServers(acc)
    ensures UniqueServers(Collect(acc, log, level))
    decreases |log|
  {
    if log != [] {
      var p, e := log[..|log| - 1], log[|log| - 1];
      CollectUnique(acc, p, level);
      ExtendSpec(Collect(acc, p, level), e.0, Tag(level, e.1), e.0);
    }
  }

  lemma {:induction false} CollectHas(acc: Log<(string, string)>, log: Log<string>, level: string, s: string)
    ensures HasServer(Collect(acc, log, level), s) <==> HasServer(acc, s) || HasServer(log, s)
    decreases |log|
  {
    if log != [] {
      var p, e := log[..|log| - 1], log[|log| - 1];
      CollectHas(acc, p, level, s);
      ExtendSpec(Collect(acc, p, level), e.0, Tag(level, e.1), s);
      LastEntry(log, s);
    }
  }

  lemma {:induction false} CollectGet(acc: Log<(string, string)>, log: Log<string>, level: string, s: string)
    requires UniqueServers(log)
    ensures Get(Collect(acc, log, level), s) == Get(acc, s) + Tag(level, Get(log, s))
    decreases |log|
  {
    if log == [] {
      assert Tag(level, []) == [];
    } else {
      var p, e := log[..|log| - 1], log[|log| - 1];
      LastEntry(log, s);
      CollectGet(acc, p, level, s);
      ExtendSpec(Collect(acc, p, level), e.0, Tag(level, e.1), s);
      if s == e.0 {
        LastEntry(log, s);
        assert forall k :: 0 <= k < |p| ==> p[k].0 != s by {
          assert forall k :: 0 <= k < |p| ==> p[k] == log[k];
        }
        assert Get(p, s) == [] && Tag(level, []) == [];
      }
    }
  }

  /** Every server of the report has, in `by_server`, its issues, then its
      warnings, then its successes, tagged with their level; the servers of
      `by_server` are those of the three dictionaries. */
  lemma {:induction false} ByServerSpec(issues: Log<string>, warnings: Log<string>, successes: Log<string>, s: string)
    requires UniqueServers(issues) && UniqueServers(warnings) && UniqueServers(successes)
    ensures Get(ByServerOf(issues, warnings, successes), s)
            == Tag("error", Get(issues, s)) + Tag("warning", Get(warnings, s)) + Tag("server", Get(successes, s))
    ensures HasServer(ByServerOf(issues, warnings, successes), s)
            <==> HasServer(issues, s) || HasServer(warnings, s) || HasServer(successes, s)
    ensures UniqueServers(ByServerOf(issues, warnings, successes))
  {
    var a := Collect([], issues, "error");
    var b := Collect(a, warnings, "warning");
    assert ByServerOf(issues, warnings, successes) == Collect(b, successes, "server");
    ByServerGet(a, b, issues, warnings, successes, s);
    CollectHas([], issues, "error", s);
    CollectHas(a, warnings, "warning", s);
    CollectHas(b, successes, "server", s);
    var none: Log<(string, string)> := [];
    assert !HasServer(none, s);
    CollectUnique([], issues, "error");
    CollectUnique(a, warnings, "warning");
    CollectUnique(b, successes, "server");
  }

  lemma {:induction false} ByServerGet(a: Log<(string, string)>, b: Log<(string, string)>,
                                       issues: Log<string>, warnings: Log<string>, successes: Log<string>, s: string)
    requires UniqueServers(issues) && UniqueServers(warnings) && UniqueServers(successes)
    requires a == Collect([], issues, "error") && b == Collect(a, warnings, "warning")
    ensures Get(Collect(b, successes, "server"), s)
            == Tag("error", Get(issues, s)) + Tag("warning", Get(warnings, s)) + Tag("server", Get(successes, s))
  {
    var none: Log<(string, string)> := [];
    var x, y := Tag("error", Get(issues, s)), Tag("warning", Get(warnings, s));
    CollectGet(none, issues, "error", s);
    assert Get(none, s) == [];
    assert Get(a, s) == x;
    CollectGet(a, warnings, "warning", s);
    assert Get(b, s) == x + y;
    CollectGet(b, successes, "server", s);
  }

  /** The report of a run, updated in place by the `add_*` methods. */
  class Report {
    var issues: Log<string>
    var successes: Log<string>
    var warnings: Log<string>

    ghost predicate Valid()
      reads this
    {
      UniqueServers(issues) && UniqueServers(successes) && UniqueServers(warnings)
    }

    constructor ()
      ensures Valid() && issues == [] && successes == [] && warnings == []
    {
      issues := [];
      successes := [];
      warnings := [];
    }

    /** `add_issue(server, error_details)`. */
    method AddIssue(server: string, details: string)
      requires Valid()
      modifies this
      ensures Valid()
      ensures issues == Extend(old(issues), server, [details])
      ensures successes == old(successes) && warnings == old(warnings)
    {
      ExtendSpec(issues, server, [details], server);
      issues := Extend(issues, server, [details]);
    }

    /** `add_success(server, success_details)`. */
    method AddSuccess(server: string, details: string)
      requires Valid()
      modifies this
      ensures Valid()
      ensures successes == Extend(old(successes), server, [details])
      ensures issues == old(issues) && warnings == old(warnings)
    {
      ExtendSpec(successes, server, [details], server);
      successes := Extend(successes, server, [details]);
    }

    /** `add_warning(server, warning_details)`. */
    method AddWarning(server: string, details: string)
      requires Valid()
      modifies this
      ensures Valid()
      ensures warnings == Extend(old(warnings), server, [details])
      ensures issues == old(issues) && successes == old(successes)
    {
      ExtendSpec(warnings, server, [details], server);
      warnings := Extend(warnings, server, [details]);
    }

    /** `issue_count`. */
    method IssueCount() returns (n: nat)
      ensures n == Total(issues)
    {
      n := CountAll(issues);
    }

    /** `warning_count`. */
    method WarningCount() returns (n: nat)
      ensures n == Total(warnings)
    {
      n := CountAll(warnings);
    }

    /** `is_empty`. */
    method IsEmpty() returns (r: bool)
      ensures r == IsEmptyOf(issues, warnings, successes)
    {
      var a := NoneNonEmpty(issues);
      if !a {
        return false;
      }
      var b := NoneNonEmpty(warnings);
      if !b {
        return false;
      }
      r := NoneNonEmpty(successes);
    }

    /** `is_success`. */
    method IsSuccess() returns (r: bool)
      ensures r == IsSuccessOf(issues, warnings, successes)
    {
      var empty := IsEmpty();
      var n := IssueCount();
      r := !empty && n == 0;
    }

    /** `by_server`. */
    method ByServer() returns (r: Log<(string, string)>)
      ensures r == ByServerOf(issues, warnings, successes)
    {
      r := CollectLoop([], issues, "error");
      r := CollectLoop(r, warnings, "warning");
      r := CollectLoop(r, successes, "server");
    }
  }

  /** The counting loop of `issue_count` and `warning_count`. */
  method CountAll(log: Log<string>) returns (n: nat)
    ensures n == Total(log)
  {
    n := 0;
    var i := 0;
    while i < |log|
      invariant 0 <= i <= |log| && n == Total(log[..i])
    {
      assert log[..i + 1][..i] == log[..i];
      n := n + |log[i].1|;
      i := i + 1;
    }
    assert log[..i] == log;
  }

  /** One loop of `is_empty`: false at the first non-empty list. */
  method NoneNonEmpty(log: Log<string>) returns (r: bool)
    ensures r == AllEmpty(log)
  {
    var i := 0;
    while i < |log|
      invariant 0 <= i <= |log| && forall j :: 0 <= j < i ==> log[j].1 == []
    {
      if |log[i].1| > 0 {
        return false;
      }
      i := i + 1;
    }
    return true;
  }

  /** One loop of `by_server`, with the inner loop that appends the
      tagged messages one by one. */
  method CollectLoop(acc: Log<(string, string)>, log: Log<string>, level: string) returns (r: Log<(string, string)>)
    ensures r == Collect(acc, log, level)
  {
    r := acc;
    var i := 0;
    while i < |log|
      invariant 0 <= i <= |log| && r == Collect(acc, log[..i], level)
    {
      assert log[..i + 1][..i] == log[..i];
      var server, msgs := log[i].0, log[i].1;
      var k := 0;
      var added := [];
      while k < |msgs|
        invariant 0 <= k <= |msgs| && added == Tag(level, msgs[..k])
      {
        added := added + [(level, msgs[k])];
        k := k + 1;
      }
      assert msgs[..k] == msgs;
      r := Extend(r, server, added);
      i := i + 1;
    }
    assert log[..i] == log;
  }

  /** The first line of `_get_default_content`. */
  function Header(issues: nat, warnings: nat, success: bool): string
  {
    "Backup report: "
    + (if issues > 0 then NatToString(issues) + " errors" + (if warnings > 0 then " and " else "") else "")
    + (if warnings > 0 then NatToString(warnings) + " warnings" else if success then "success" else "")
    + "\n"
  }

  /** The texts `f` gives the first `n` elements of `xs`, one after the
      other. */
  function ConcatMap<T>(xs: seq<T>, n: nat, f: T -> string): string
    requires n <= |xs|
  {
    if n == 0 then "" else ConcatMap(xs, n - 1, f) + f(xs[n - 1])
  }

  /** Texts that agree element by element concatenate alike. */
  lemma {:induction false} ConcatMapAgree<T>(xs: seq<T>, n: nat, f: T -> string, g: T -> string)
    requires n <= |xs| && forall k :: 0 <= k < n ==> f(xs[k]) == g(xs[k])
    ensures ConcatMap(xs, n, f) == ConcatMap(xs, n, g)
  {
    if n > 0 {
      ConcatMapAgree(xs, n - 1, f, g);
    }
  }

  /** The lines of one server's entries, each indented twice. */
  function InfoLines(infos: seq<(string, string)>, n: nat): string
    requires n <= |infos|
  {
    ConcatMap(infos, n, InfoLine)
  }

  /** `indent(indent(level + ": " + info))`, then a line break. */
  function InfoLine(e: (string, string)): string
  {
    Indent(Indent(e.0 + ": " + e.1)) + "\n"
  }

  /** `indent(server + ": ")`, then a line break. */
  function ServerLine(server: string): string
  {
    Indent(server + ": ") + "\n"
  }

  /** The server blocks of `_get_default_content`, for the first `n`
      servers. */
  function Body(byServer: Log<(string, string)>, n: nat): string
    requires n <= |byServer|
  {
    ConcatMap(byServer, n, ServerBlock)
  }

  /** One server's block: its line, then its entries. */
  function ServerBlock(e: (string, seq<(string, string)>)): string
  {
    ServerLine(e.0) + InfoLines(e.1, |e.1|)
  }

  /** `_get_default_content(report)`. */
  function DefaultContent(issues: Log<string>, warnings: Log<string>, successes: Log<string>): string
  {
    Header(Total(issues), Total(warnings), IsSuccessOf(issues, warnings, successes))
    + var byServer := ByServerOf(issues, warnings, successes); Body(byServer, |byServer|)
  }

  /** The subject of `_format_report(report)`. */
  function Subject(issues: Log<string>, warnings: Log<string>, successes: Log<string>): string
  {
    if IsSuccessOf(issues, warnings, successes) then "Backup: success"
    else "Backup: " + NatToString(Total(issues)) + " errors"
  }

  /** The first line says how many errors and warnings there were, or
      `success`, and is empty for an empty report. */
  lemma {:induction false} HeaderSpec(issues: Log<string>, warnings: Log<string>, successes: Log<string>)
    ensures var h := Header(Total(issues), Total(warnings), IsSuccessOf(issues, warnings, successes));
      var n, w := Total(issues), Total(warnings);
      && (IsEmptyOf(issues, warnings, successes) ==> h == "Backup report: \n")
      && (n > 0 && w > 0 ==> h == "Backup report: " + NatToString(n) + " errors and " + NatToString(w) + " warnings\n")
      && (n > 0 && w == 0 ==> h == "Backup report: " + NatToString(n) + " errors\n")
      && (n == 0 && w > 0 ==> h == "Backup report: " + NatToString(w) + " warnings\n")
      && (IsSuccessOf(issues, warnings, successes) && w == 0 ==> h == "Backup report: success\n")
  {
    IsSuccessSpec(issues, warnings, successes);
  }

  /** The subject reads `success` exactly for a successful run. */
  lemma {:induction false} SubjectSpec(issues: Log<string>, warnings: Log<string>, successes: Log<string>)
    ensures Subject(issues, warnings, successes) == "Backup: success" <==> IsSuccessOf(issues, warnings, successes)
  {
    var t := NatToString(Total(issues));
    assert ("Backup: " + t + " errors")[8] == t[0];
    assert IsDigit(t[0]);
  }

  /** A text without line breaks. */
  predicate SingleLine(s: string)
  {
    forall i :: 0 <= i < |s| ==> !IsLineBreak(s[i])
  }

  /** Every level and message of a server's entries is a single line. */
  predicate SingleLineInfos(infos: seq<(string, string)>)
  {
    forall k :: 0 <= k < |infos| ==> SingleLine(infos[k].0) && SingleLine(infos[k].1)
  }

  /** Every server name, level and message of `by_server` is a single line. */
  predicate SingleLineEntries(b: Log<(string, string)>)
  {
    forall j :: 0 <= j < |b| ==> SingleLine(b[j].0) && SingleLineInfos(b[j].1)
  }

  /** Every server name and message of a report dictionary is a single line. */
  predicate SingleLineLog(log: Log<string>)
  {
    forall j :: 0 <= j < |log| ==> SingleLine(log[j].0) && forall k :: 0 <= k < |log[j].1| ==> SingleLine(log[j].1[k])
  }

  /** A server name without line breaks gives one line indented once. */
  lemma {:induction false} ServerLineOfName(server: string)
    requires SingleLine(server)
    ensures ServerLine(server) == "  " + server + ": \n"
  {
    IndentSingleLine(server + ": ");
  }

  /** A message without line breaks gives one line indented twice. */
  lemma {:induction false} InfoLineOfMessage(level: string, info: string)
    requires SingleLine(level) && SingleLine(info)
    ensures InfoLine((level, info)) == "    " + level + ": " + info + "\n"
  {
    var b := level + ": " + info;
    IndentSingleLine(b);
    IndentSingleLine("  " + b);
  }

  /** An entry written out: `    level: info` on a line of its own. */
  function PlainInfo(e: (string, string)): string
  {
    "    " + e.0 + ": " + e.1 + "\n"
  }

  /** A server block written out: the line `  server: `, then the server's
      entries in order. */
  function PlainBlock(e: (string, seq<(string, string)>)): string
  {
    "  " + e.0 + ": \n" + ConcatMap(e.1, |e.1|, PlainInfo)
  }

  /** One single-line entry renders as its written-out line. */
  lemma {:induction false} InfoLinePlain(e: (string, string))
    requires SingleLine(e.0) && SingleLine(e.1)
    ensures InfoLine(e) == PlainInfo(e)
  {
    InfoLineOfMessage(e.0, e.1);
  }

  /** One single-line server block renders as its written-out lines. */
  lemma {:induction false} ServerBlockPlain(e: (string, seq<(string, string)>))
    requires SingleLine(e.0) && SingleLineInfos(e.1)
    ensures ServerBlock(e) == PlainBlock(e)
  {
    ServerLineOfName(e.0);
    forall k | 0 <= k < |e.1|
      ensures InfoLine(e.1[k]) == PlainInfo(e.1[k])
    {
      InfoLinePlain(e.1[k]);
    }
    ConcatMapAgree(e.1, |e.1|, InfoLine, PlainInfo);
  }

  /** When no server name, level or message holds a line break, the server
      blocks are, in order, each server's line indented once followed by
      its entries indented twice. */
  lemma {:induction false} BodyPlain(b: Log<(string, string)>)
    requires SingleLineEntries(b)
    ensures Body(b, |b|) == ConcatMap(b, |b|, PlainBlock)
  {
    forall k | 0 <= k < |b|
      ensures ServerBlock(b[k]) == PlainBlock(b[k])
    {
      ServerBlockPlain(b[k]);
    }
    ConcatMapAgree(b, |b|, ServerBlock, PlainBlock);
  }

  /** Appending single-line entries keeps `by_server` single-line. */
  lemma {:induction false} ExtendSingleLine(b: Log<(string, string)>, s: string, items: seq<(string, string)>)
    requires SingleLineEntries(b) && SingleLine(s) && SingleLineInfos(items)
    ensures SingleLineEntries(Extend(b, s, items))
  {
    var j := ServerIndex(b, s);
    if j != -1 {
      var merged := b[j].1 + items;
      assert SingleLineInfos(b[j].1);
      assert SingleLineInfos(merged) by {
        forall k | 0 <= k < |merged|
          ensures SingleLine(merged[k].0) && SingleLine(merged[k].1)
        {
          if k < |b[j].1| {
            assert merged[k] == b[j].1[k];
          } else {
            assert merged[k] == items[k - |b[j].1|];
          }
        }
      }
    }
  }

  /** One loop of `by_server` keeps the collection single-line. */
  lemma {:induction false} CollectSingleLine(acc: Log<(string, string)>, log: Log<string>, level: string)
    requires SingleLineEntries(acc) && SingleLineLog(log) && SingleLine(level)
    ensures SingleLineEntries(Collect(acc, log, level))
    decreases |log|
  {
    if log != [] {
      var p, e := log[..|log| - 1], log[|log| - 1];
      assert SingleLineLog(p) by {
        forall j | 0 <= j < |p|
          ensures SingleLine(p[j].0) && forall k :: 0 <= k < |p[j].1| ==> SingleLine(p[j].1[k])
        {
          assert p[j] == log[j];
        }
      }
      CollectSingleLine(acc, p, level);
      assert SingleLine(e.0) && forall k :: 0 <= k < |e.1| ==> SingleLine(e.1[k]);
      var tagged := Tag(level, e.1);
      assert SingleLineInfos(tagged) by {
        forall k | 0 <= k < |tagged|
          ensures SingleLine(tagged[k].0) && SingleLine(tagged[k].1)
        {
          assert tagged[k] == (level, e.1[k]);
        }
      }
      ExtendSingleLine(Collect(acc, p, level), e.0, tagged);
    }
  }

  /** For a report whose server names and messages are single lines,
      `_get_default_content` is the header, then for each server of
      `by_server` in order its line indented once and its entries indented
      twice. */
  lemma {:induction false} DefaultContentPlain(issues: Log<string>, warnings: Log<string>, successes: Log<string>)
    requires SingleLineLog(issues) && SingleLineLog(warnings) && SingleLineLog(successes)
    ensures var b := ByServerOf(issues, warnings, successes);
      DefaultContent(issues, warnings, successes)
      == Header(Total(issues), Total(warnings), IsSuccessOf(issues, warnings, successes)) + ConcatMap(b, |b|, PlainBlock)
  {
    var a := Collect([], issues, "error");
    CollectSingleLine([], issues, "error");
    var w := Collect(a, warnings, "warning");
    CollectSingleLine(a, warnings, "warning");
    CollectSingleLine(w, successes, "server");
    var b := ByServerOf(issues, warnings, successes);
    BodyPlain(b);
  }

  /** The inner loop of `_get_default_content`. */
  method AppendInfoLines(content: string, infos: seq<(string, string)>) returns (r: string)
    ensures r == content + InfoLines(infos, |infos|)
  {
    r := content;
    var k := 0;
    while k < |infos|
      invariant 0 <= k <= |infos| && r == content + InfoLines(infos, k)
    {
      r := AppendInfoLine(content, r, infos, k);
      k := k + 1;
    }
  }

  /** One round of the inner loop of `_get_default_content`. */
  method AppendInfoLine(content: string, r: string, infos: seq<(string, string)>, k: nat) returns (r': string)
    requires k < |infos| && r == content + InfoLines(infos, k)
    ensures r' == content + InfoLines(infos, k + 1)
  {
    Append3(content, InfoLines(infos, k), InfoLine(infos[k]));
    r' := r + InfoLine(infos[k]);
  }

  /** One round of the outer loop of `_get_default_content`. */
  method AppendServerBlock(content: string, e: (string, seq<(string, string)>)) returns (r: string)
    ensures r == content + ServerBlock(e)
  {
    r := content + ServerLine(e.0);
    r := AppendInfoLines(r, e.1);
  }

  /** The outer loop of `_get_default_content`. */
  method AppendBody(content: string, byServer: Log<(string, string)>) returns (r: string)
    ensures r == content + Body(byServer, |byServer|)
  {
    r := content;
    var i := 0;
    while i < |byServer|
      invariant 0 <= i <= |byServer|
      invariant r == content + Body(byServer, i)
    {
      r := AppendServer(content, r, byServer, i);
      i := i + 1;
    }
  }

  /** One round of the outer loop, for server `byServer[i]`. */
  method AppendServer(content: string, r: string, byServer: Log<(string, string)>, i: nat) returns (r': string)
    requires i < |byServer| && r == content + Body(byServer, i)
    ensures r' == content + Body(byServer, i + 1)
  {
    Append3(content, Body(byServer, i), ServerBlock(byServer[i]));
    r' := AppendServerBlock(r, byServer[i]);
  }

  /** `_get_default_content` as the source runs it. */
  method GetDefaultContent(report: Report) returns (content: string)
    ensures content == DefaultContent(report.issues, report.warnings, report.successes)
  {
    var n := report.IssueCount();
    var w := report.WarningCount();
    var success := report.IsSuccess();
    var byServer := report.ByServer();
    content := AppendBody(Header(n, w, success), byServer);
  }

  /** `_format_report(report)`: subject and content. */
  method FormatReport(report: Report) returns (subject: string, content: string)
    ensures subject == Subject(report.issues, report.warnings, report.successes)
    ensures content == DefaultContent(report.issues, report.warnings, report.successes)
  {
    var success := report.IsSuccess();
    if success {
      subject := "Backup: success";
    } else {
      var n := report.IssueCount();
      subject := "Backup: " + NatToString(n) + " errors";
    }
    content := GetDefaultContent(report);
  }
}
