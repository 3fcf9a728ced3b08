/** The Rocket.Chat webhook mapping `map_report(report, params)` of
    `conf_examples/default/mapping/rocketchat.py`: it fills the payload
    dictionary it is given, in place, and returns that same dictionary. */
module Rocketchat {
  import opened Wrappers
  import opened PyStr
  import opened ConfigTree
  import opened Reports
  import opened Seqs

  /** The three lists of a report, in the order the mapping reads them. */
  datatype Category = Issues | Warnings | Successes

  function Color(c: Category): string
  {
    match c
    case Issues => "danger"
    case Warnings => "warning"
    case Successes => "good"
  }

  function Title(c: Category, server: string, n: nat): string
  {
    match c
    case Issues => "server: " + server + ": " + NatToString(n) + " errors"
    case Warnings => "server: " + server + ": " + NatToString(n) + " warnings"
    case Successes => "server: " + server + ": "
  }

  /** The attachment built for the messages of one server. */
  function Attachment(c: Category, server: string, msgs: seq<string>): Value
  {
    Dict([(Str("title"), Str(Title(c, server, |msgs|))),
          (Str("title_link"), Str(server)),
          (Str("text"), Str(JoinWith("\n", msgs))),
          (Str("color"), Str(Color(c)))])
  }

  /** The attachments of the first `n` servers of one list: servers with
      no message are skipped. */
  function Attachments(c: Category, log: Log<string>, n: nat): seq<Value>
    requires n <= |log|
  {
    if n == 0 then []
    else Attachments(c, log, n - 1) + (if log[n - 1].1 == [] then [] else [Attachment(c, log[n - 1].0, log[n - 1].1)])
  }

  /** The positions, among the first `n`, of the servers with messages. */
  function Listed(log: Log<string>, n: nat): seq<nat>
    requires n <= |log|
  {
    if n == 0 then [] else Listed(log, n - 1) + (if log[n - 1].1 == [] then [] else [n - 1])
  }

  /** `Listed` holds, in increasing order, exactly the servers with
      messages. */
  lemma {:induction false} ListedSpec(log: Log<string>, n: nat)
    requires n <= |log|
    ensures forall k, k' :: 0 <= k < k' < |Listed(log, n)| ==> Listed(log, n)[k] < Listed(log, n)[k']
    ensures forall k :: 0 <= k < |Listed(log, n)| ==> Listed(log, n)[k] < n
    ensures forall t :: 0 <= t < n ==> (t in Listed(log, n) <==> log[t].1 != [])
  {
    if n > 0 {
      ListedSpec(log, n - 1);
    }
  }

  /** One attachment per server with messages, in the order of the list,
      each with that server's messages. */
  lemma {:induction false} AttachmentsSpec(c: Category, log: Log<string>, n: nat)
    requires n <= |log|
    ensures |Attachments(c, log, n)| == |Listed(log, n)|
    ensures forall k :: 0 <= k < |Listed(log, n)| ==>
      Listed(log, n)[k] < |log| && Attachments(c, log, n)[k] == Attachment(c, log[Listed(log, n)[k]].0, log[Listed(log, n)[k]].1)
  {
    if n > 0 {
      AttachmentsSpec(c, log, n - 1);
      ListedSpec(log, n - 1);
    }
  }

  /** The attachments of the whole report: issues, then warnings, then
      successes. */
  function AllAttachments(issues: Log<string>, warnings: Log<string>, successes: Log<string>): seq<Value>
  {
    Attachments(Issues, issues, |issues|) + Attachments(Warnings, warnings, |warnings|)
      + Attachments(Successes, successes, |successes|)
  }

  /** The attachments of one list, found at position `|pre|` of a longer
      sequence. */
  lemma {:induction false} SectionAt(c: Category, log: Log<string>, pre: seq<Value>, post: seq<Value>, all: seq<Value>)
    requires all == pre + Attachments(c, log, |log|) + post
    ensures |all| == |pre| + |Listed(log, |log|)| + |post|
    ensures forall k :: 0 <= k < |Listed(log, |log|)| ==>
      Listed(log, |log|)[k] < |log| && all[|pre| + k] == Attachment(c, log[Listed(log, |log|)[k]].0, log[Listed(log, |log|)[k]].1)
  {
    AttachmentsSpec(c, log, |log|);
    Index3(pre, Attachments(c, log, |log|), post);
  }

  /** Every server with messages gets one attachment; the issue
      attachments come first, then the warning ones, then the success
      ones, each in the order of its list. */
  lemma {:induction false} AllAttachmentsOrder(issues: Log<string>, warnings: Log<string>, successes: Log<string>)
    ensures var li := Listed(issues, |issues|);
      var lw := Listed(warnings, |warnings|);
      var ls := Listed(successes, |successes|);
      var all := AllAttachments(issues, warnings, successes);
      && |all| == |li| + |lw| + |ls|
      && (forall k :: 0 <= k < |li| ==> li[k] < |issues| && all[k] == Attachment(Issues, issues[li[k]].0, issues[li[k]].1))
      && (forall k :: 0 <= k < |lw| ==>
            lw[k] < |warnings| && all[|li| + k] == Attachment(Warnings, warnings[lw[k]].0, warnings[lw[k]].1))
      && (forall k :: 0 <= k < |ls| ==>
            ls[k] < |successes| && all[|li| + |lw| + k] == Attachment(Successes, successes[ls[k]].0, successes[ls[k]].1))
  {
    var a := Attachments(Issues, issues, |issues|);
    var w := Attachments(Warnings, warnings, |warnings|);
    var s := Attachments(Successes, successes, |successes|);
    var all := a + w + s;
    assert all == [] + a + (w + s);
    SectionAt(Issues, issues, [], w + s, all);
    SectionAt(Warnings, warnings, a, s, all);
    assert all == a + w + s + [];
    SectionAt(Successes, successes, a + w, [], all);
  }

  /** The `text` of the payload. */
  function Summary(issues: Log<string>, warnings: Log<string>, successes: Log<string>): string
  {
    if IsSuccessOf(issues, warnings, successes) then "Backup: success"
    else "Backup: " + NatToString(Total(issues)) + " errors"
  }

  /** The text announces a success exactly when the report is one. */
  lemma {:induction false} SummarySuccess(issues: Log<string>, warnings: Log<string>, successes: Log<string>)
    ensures Summary(issues, warnings, successes) == "Backup: success" <==> IsSuccessOf(issues, warnings, successes)
  {
    if !IsSuccessOf(issues, warnings, successes) {
      var r := "Backup: " + NatToString(Total(issues)) + " errors";
      assert r[8] == NatToString(Total(issues))[0];
      assert "Backup: success"[8] == 's';
    }
  }

  /** The payload `map_report` leaves in `params`. */
  function Payload(params: seq<(Value, Value)>, issues: Log<string>, warnings: Log<string>, successes: Log<string>): seq<(Value, Value)>
  {
    var p := Set(params, Str("username"), Str("Backups"));
    var p' := Set(p, Str("text"), Str(Summary(issues, warnings, successes)));
    Set(p', Str("attachments"), List(AllAttachments(issues, warnings, successes)))
  }

  /** The payload has the user name, the text and the attachments, and
      every other entry of `params` as it was, in its place. */
  lemma {:induction false} PayloadSpec(params: seq<(Value, Value)>, issues: Log<string>, warnings: Log<string>, successes: Log<string>, k: Value)
    ensures var r := Payload(params, issues, warnings, successes);
      && Lookup(r, Str("username")) == Some(Str("Backups"))
      && Lookup(r, Str("text")) == Some(Str(Summary(issues, warnings, successes)))
      && Lookup(r, Str("attachments")) == Some(List(AllAttachments(issues, warnings, successes)))
      && (k !in [Str("username"), Str("text"), Str("attachments")] ==> Lookup(r, k) == Lookup(params, k))
      && |params| <= |r| && forall t :: 0 <= t < |params| ==> r[t].0 == params[t].0
  {
    var p := Set(params, Str("username"), Str("Backups"));
    var p' := Set(p, Str("text"), Str(Summary(issues, warnings, successes)));
    LookupOther(p, Str("text"), Str(Summary(issues, warnings, successes)), Str("username"));
    LookupOther(p', Str("attachments"), List(AllAttachments(issues, warnings, successes)), Str("username"));
    LookupOther(p', Str("attachments"), List(AllAttachments(issues, warnings, successes)), Str("text"));
    SetPrefix(params, Str("username"), Str("Backups"));
    SetPrefix(p, Str("text"), Str(Summary(issues, warnings, successes)));
    SetPrefix(p', Str("attachments"), List(AllAttachments(issues, warnings, successes)));
    if k !in [Str("username"), Str("text"), Str("attachments")] {
      LookupOther(params, Str("username"), Str("Backups"), k);
      LookupOther(p, Str("text"), Str(Summary(issues, warnings, successes)), k);
      LookupOther(p', Str("attachments"), List(AllAttachments(issues, warnings, successes)), k);
    }
  }

  /** One loop of `map_report`: the attachments of one list are appended
      to `params["attachments"]`, which holds `items` on entry. */
  method AppendAttachments(params: PyDict, c: Category, log: Log<string>, ghost base: seq<(Value, Value)>, items: seq<Value>)
    returns (items': seq<Value>)
    requires params.entries == Set(base, Str("attachments"), List(items))
    modifies params
    ensures items' == items + Attachments(c, log, |log|)
    ensures params.entries == Set(base, Str("attachments"), List(items'))
  {
    items' := items;
    var i := 0;
    while i < |log|
      invariant 0 <= i <= |log|
      invariant items' == items + Attachments(c, log, i)
      invariant params.entries == Set(base, Str("attachments"), List(items'))
    {
      items' := AppendAttachment(params, c, log, i, base, items, items');
      i := i + 1;
    }
  }

  /** One turn of that loop, for server `log[i]`. */
  method AppendAttachment(params: PyDict, c: Category, log: Log<string>, i: nat, ghost base: seq<(Value, Value)>,
                          ghost items: seq<Value>, acc: seq<Value>) returns (acc': seq<Value>)
    requires i < |log| && acc == items + Attachments(c, log, i)
    requires params.entries == Set(base, Str("attachments"), List(acc))
    modifies params
    ensures acc' == items + Attachments(c, log, i + 1)
    ensures params.entries == Set(base, Str("attachments"), List(acc'))
  {
    var (server, msgs) := log[i];
    var more := if msgs == [] then [] else [Attachment(c, server, msgs)];
    assert Attachments(c, log, i + 1) == Attachments(c, log, i) + more;
    Append3(items, Attachments(c, log, i), more);
    if msgs == [] {
      acc' := acc;
    } else {
      SetTwice(base, Str("attachments"), List(acc), List(acc + more));
      acc' := acc + more;
      params.entries := Set(params.entries, Str("attachments"), List(acc'));
    }
  }

  /** `map_report(report, params)`. */
  method MapReport(report: Report, params: PyDict) returns (result: PyDict)
    modifies params
    ensures result == params
    ensures params.entries == Payload(old(params.entries), report.issues, report.warnings, report.successes)
  {
    result := params;
    result.entries := Set(result.entries, Str("username"), Str("Backups"));
    var success := report.IsSuccess();
    if success {
      result.entries := Set(result.entries, Str("text"), Str("Backup: success"));
    } else {
      var n := report.IssueCount();
      result.entries := Set(result.entries, Str("text"), Str("Backup: " + NatToString(n) + " errors"));
    }
    ghost var base := result.entries;
    assert base == Set(Set(old(params.entries), Str("username"), Str("Backups")), Str("text"),
                       Str(Summary(report.issues, report.warnings, report.successes)));
    result.entries := Set(result.entries, Str("attachments"), List([]));
    var items := AppendAttachments(result, Issues, report.issues, base, []);
    assert items == Attachments(Issues, report.issues, |report.issues|);
    items := AppendAttachments(result, Warnings, report.warnings, base, items);
    items := AppendAttachments(result, Successes, report.successes, base, items);
  }
}
