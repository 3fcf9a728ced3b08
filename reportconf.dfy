/** The report section of the configuration: `_parse_webhook_report` and
    the dispatch by report type at the end of `_load_conf`. Whether a
    mapping file exists is asked of `mappingExists`; the email, file and
    syslog targets keep their raw configuration. */
module ReportConf {
  import opened Wrappers
  import opened PyStr
  import opened ConfigTree

  const YesWords: seq<string> := ["yes", "true", "t", "y", "1", "o", "oui", "on"]
  const NoWords: seq<string> := ["no", "false", "f", "n", "0", "non", "off"]

  /** `int(float(v))` where `float(v)` accepts `v`, for integer literals. */
  function FloatInt(v: Value): Option<int>
  {
    match v
    case Int(n) => Some(n)
    case Str(s) => IntLiteral(s)
    case _ => None
  }

  /** `ll_bool(v)`: does `v` look like a boolean? */
  predicate LlBool(v: Value)
  {
    if v.Null? then false
    else if v.Bool? then true
    else if FloatInt(v).Some? then FloatInt(v).value == 0 || FloatInt(v).value == 1
    else Lower(ToStr(v)) in YesWords || Lower(ToStr(v)) in NoWords
  }

  /** `to_bool(v)`, a `TypeError` for what is not a boolean. */
  function ToBool(v: Value): Result<bool>
  {
    if v.Null? then Err(TypeError)
    else if v.Bool? then Ok(v.b)
    else if FloatInt(v).Some? then
      if FloatInt(v).value == 0 || FloatInt(v).value == 1 then Ok(FloatInt(v).value == 1) else Err(TypeError)
    else if Lower(ToStr(v)) in YesWords then Ok(true)
    else if Lower(ToStr(v)) in NoWords then Ok(false)
    else Err(TypeError)
  }

  /** `to_bool` converts exactly what `ll_bool` accepts; a boolean is its
      own value and the words of the two lists give `true` and `false`. */
  lemma {:induction false} ToBoolSpec(v: Value)
    ensures ToBool(v).Ok? <==> LlBool(v)
    ensures v.Bool? ==> ToBool(v) == Ok(v.b)
    ensures v.Int? && (v.i == 0 || v.i == 1) ==> ToBool(v) == Ok(v.i == 1)
    ensures v.Str? && IntLiteral(v.s).None? && Lower(v.s) in YesWords ==> ToBool(v) == Ok(true)
    ensures v.Str? && IntLiteral(v.s).None? && Lower(v.s) in NoWords ==> ToBool(v) == Ok(false)
  {
  }

  /** A mapping file and, after a `#`, the function it names. */
  datatype Mapping = Mapping(file: string, entry: Option<string>)

  /** A webhook target: `post` and `json` are resolved. */
  datatype Webhook = Webhook(urls: seq<string>, params: Option<seq<(Value, Value)>>, post: bool, json: bool,
                             mapping: Option<Mapping>)

  /** What the field loop has read so far. */
  datatype Fields = Fields(urls: seq<string>, params: Option<seq<(Value, Value)>>, mapping: Option<Mapping>,
                           post: Option<bool>, json: Option<bool>)

  const NoFields: Fields := Fields([], None, None, None, None)

  /** The url loop: every item must be a string. */
  function UrlsFrom(items: seq<Value>, i: nat, acc: seq<string>): (r: Result<seq<string>>)
    requires i <= |items|
    ensures r.Ok? ==> |r.value| == |acc| + |items| - i && r.value[..|acc|] == acc
    ensures r.Ok? ==> forall j :: i <= j < |items| ==> items[j] == Str(r.value[|acc| + j - i])
    ensures r.Err? <==> exists j :: i <= j < |items| && !items[j].Str?
    decreases |items| - i
  {
    if i == |items| then Ok(acc)
    else if !items[i].Str? then Err(ConfigError("Invalid 'url' field for webhook report configuration: " + ToStr(items[i])))
    else UrlsFrom(items, i + 1, acc + [items[i].s])
  }

  /** `val.lower().strip() == "False"`: what the `method` field sets
      `post_method` to. */
  function PostOf(m: string): bool
  {
    Normalize(m) == "False"
  }

  /** A normalised string has no capital `F`, so `post_method` is `False`
      whatever the `method` field says. */
  lemma {:induction false} PostOfFalse(m: string)
    ensures !PostOf(m)
  {
    NormalizeNoUpper(m);
    if |Normalize(m)| > 0 {
      assert Normalize(m)[0] != "False"[0];
    }
  }

  /** One field of a webhook configuration. */
  function WebhookEntry(e: (Value, Value), f: Fields, mappingExists: string -> bool): Result<Fields>
  {
    var k, v := Normalize(ToStr(e.0)), e.1;
    if k == "url" then
      match UrlsFrom(ToList(v).items, 0, f.urls)
      case Err(err) => Err(err)
      case Ok(urls) => Ok(f.(urls := urls))
    else if k == "params" || k == "parameters" then
      if !v.Dict? then Err(ConfigError("Invalid '" + k + "' field for webhook report configuration: " + ToStr(v)))
      else Ok(f.(params := Some(v.entries)))
    else if k == "mapping" then
      if !v.Str? then Err(ConfigError("Invalid mapping field for webhook report configuration: " + ToStr(v)))
      else
        var parts := Split(v.s, '#');
        if |parts| > 2 then Err(ValueError)
        else if !mappingExists(parts[0]) then
          Err(ConfigError("mapping file not found for webhook report configuration: " + parts[0]))
        else Ok(f.(mapping := Some(Mapping(parts[0], if |parts| == 2 then Some(parts[1]) else None))))
    else if k == "method" then
      if !v.Str? || (Normalize(v.s) != "get" && Normalize(v.s) != "post") then
        Err(ConfigError("Invalid 'method' field for webhook report configuration: " + ToStr(v)))
      else Ok(f.(post := Some(PostOf(v.s))))
    else if k == "json" then
      if !LlBool(v) then Err(ConfigError("Invalid 'json' field for webhook report configuration: " + ToStr(v)))
      else
        assert ToBool(v).Ok? by { ToBoolSpec(v); }
        Ok(f.(json := Some(ToBool(v).value)))
    else Err(ConfigError("Unknown " + k + " field for file report configuration"))
  }

  /** The field loop over `es[i..]`. */
  function WebhookFrom(es: seq<(Value, Value)>, i: nat, f: Fields, mappingExists: string -> bool): Result<Fields>
    requires i <= |es|
    decreases |es| - i
  {
    if i == |es| then Ok(f)
    else
      match WebhookEntry(es[i], f, mappingExists)
      case Err(err) => Err(err)
      case Ok(f') => WebhookFrom(es, i + 1, f', mappingExists)
  }

  /** The autodetection of the HTTP method and of the JSON body from one
      another; the result is `(post, json)`. */
  function Resolve(post: Option<bool>, json: Option<bool>): Result<(bool, bool)>
  {
    match (post, json)
    case (None, None) => Ok((true, true))
    case (Some(p), None) => Ok((p, p))
    case (None, Some(j)) => Ok((true, j))
    case (Some(p), Some(j)) =>
      if j && !p then Err(ConfigError("You can't use json paramters on GET webhook report configuration"))
      else Ok((p, j))
  }

  /** Resolution keeps what was given, fills in what was not, and never
      sends JSON with GET. */
  lemma {:induction false} ResolveSpec(post: Option<bool>, json: Option<bool>)
    ensures Resolve(post, json).Ok? <==> !(post == Some(false) && json == Some(true))
    ensures Resolve(post, json).Ok? ==>
      var (p, j) := Resolve(post, json).value;
      (j ==> p) && (post.Some? ==> p == post.value) && (json.Some? ==> j == json.value)
      && (post.None? ==> p) && (json.None? ==> j == p)
  {
  }

  /** The entries a webhook report configuration is read as: a list is
      the url list, a string the only url. */
  function WebhookEntries(config: Value): Option<seq<(Value, Value)>>
  {
    match config
    case List(_) => Some([(Str("url"), config)])
    case Str(_) => Some([(Str("url"), List([config]))])
    case Dict(es) => Some(es)
    case _ => None
  }

  /** `_parse_webhook_report(config_file, report_config)`. */
  function ParseWebhook(config: Value, mappingExists: string -> bool): Result<Webhook>
  {
    match WebhookEntries(config)
    case None => Err(ConfigError("Invalid webhook configuration for report: " + ToStr(config)))
    case Some(es) =>
      match WebhookFrom(es, 0, NoFields, mappingExists)
      case Err(err) => Err(err)
      case Ok(f) =>
        match Resolve(f.post, f.json)
        case Err(err) => Err(err)
        case Ok((p, j)) => Ok(Webhook(f.urls, f.params, p, j, f.mapping))
  }

  /** The url loop of `_parse_webhook_report`. */
  method CollectUrls(items: seq<Value>, acc: seq<string>) returns (r: Result<seq<string>>)
    ensures r == UrlsFrom(items, 0, acc)
  {
    var urls := acc;
    var j := 0;
    while j < |items|
      invariant 0 <= j <= |items|
      invariant UrlsFrom(items, j, urls) == UrlsFrom(items, 0, acc)
    {
      if !items[j].Str? {
        return Err(ConfigError("Invalid 'url' field for webhook report configuration: " + ToStr(items[j])));
      }
      urls := urls + [items[j].s];
      j := j + 1;
    }
    return Ok(urls);
  }

  /** A `url` field appends its urls. */
  lemma {:induction false} UrlEntry(e: (Value, Value), f: Fields, mappingExists: string -> bool)
    requires Normalize(ToStr(e.0)) == "url"
    ensures WebhookEntry(e, f, mappingExists)
            == match UrlsFrom(ToList(e.1).items, 0, f.urls) case Err(err) => Err(err) case Ok(urls) => Ok(f.(urls := urls))
  {
  }

  /** One round of the field loop, with the url loop inside it. */
  method ReadField(e: (Value, Value), f: Fields, mappingExists: string -> bool) returns (r: Result<Fields>)
    ensures r == WebhookEntry(e, f, mappingExists)
  {
    if Normalize(ToStr(e.0)) == "url" {
      var urls := CollectUrls(ToList(e.1).items, f.urls);
      UrlEntry(e, f, mappingExists);
      r := if urls.Err? then Err(urls.error) else Ok(f.(urls := urls.value));
    } else {
      r := WebhookEntry(e, f, mappingExists);
    }
  }

  /** `_parse_webhook_report` as the source runs it. */
  method ParseWebhookLoop(config: Value, mappingExists: string -> bool) returns (r: Result<Webhook>)
    ensures r == ParseWebhook(config, mappingExists)
  {
    var entries := WebhookEntries(config);
    if entries.None? {
      return Err(ConfigError("Invalid webhook configuration for report: " + ToStr(config)));
    }
    var es := entries.value;
    var f := NoFields;
    var i := 0;
    while i < |es|
      invariant 0 <= i <= |es|
      invariant WebhookFrom(es, i, f, mappingExists) == WebhookFrom(es, 0, NoFields, mappingExists)
    {
      var step := ReadField(es[i], f, mappingExists);
      if step.Err? {
        return Err(step.error);
      }
      f := step.value;
      i := i + 1;
    }
    var resolved := Resolve(f.post, f.json);
    if resolved.Err? {
      return Err(resolved.error);
    }
    return Ok(Webhook(f.urls, f.params, resolved.value.0, resolved.value.1, f.mapping));
  }

  /** The `post` a field loop has read is `false` or absent. */
  lemma {:induction false} WebhookFromPost(es: seq<(Value, Value)>, i: nat, f: Fields, mappingExists: string -> bool)
    requires i <= |es| && f.post != Some(true) && WebhookFrom(es, i, f, mappingExists).Ok?
    ensures WebhookFrom(es, i, f, mappingExists).value.post != Some(true)
    decreases |es| - i
  {
    if i < |es| {
      var k := Normalize(ToStr(es[i].0));
      if k == "method" && es[i].1.Str? {
        PostOfFalse(es[i].1.s);
      }
      var f' := WebhookEntry(es[i], f, mappingExists).value;
      assert f'.post != Some(true);
      assert WebhookFrom(es, i, f, mappingExists) == WebhookFrom(es, i + 1, f', mappingExists);
      WebhookFromPost(es, i + 1, f', mappingExists);
    }
  }

  /** As written, a webhook that names its `method`, `get` or `post`, is
      sent with GET and without JSON; one that names neither is sent with
      POST and JSON unless `json` says otherwise. */
  lemma {:induction false} WebhookMethod(config: Value, mappingExists: string -> bool)
    requires ParseWebhook(config, mappingExists).Ok?
    ensures var es := WebhookEntries(config).value;
      var f := WebhookFrom(es, 0, NoFields, mappingExists).value;
      var w := ParseWebhook(config, mappingExists).value;
      (f.post.Some? ==> !w.post && !w.json) && (f.post.None? ==> w.post)
  {
    var es := WebhookEntries(config).value;
    var f := WebhookFrom(es, 0, NoFields, mappingExists).value;
    WebhookFromPost(es, 0, NoFields, mappingExists);
    ResolveSpec(f.post, f.json);
    var w := ParseWebhook(config, mappingExists).value;
    assert w.post == Resolve(f.post, f.json).value.0 && w.json == Resolve(f.post, f.json).value.1;
  }

  /** With a `method` field, `json: true` is always refused. */
  lemma {:induction false} MethodWithJsonRefused(config: Value, mappingExists: string -> bool)
    requires WebhookEntries(config).Some?
    requires var f := WebhookFrom(WebhookEntries(config).value, 0, NoFields, mappingExists);
      f.Ok? && f.value.post.Some? && f.value.json == Some(true)
    ensures ParseWebhook(config, mappingExists)
            == Err(ConfigError("You can't use json paramters on GET webhook report configuration"))
  {
    WebhookFromPost(WebhookEntries(config).value, 0, NoFields, mappingExists);
  }

  /** A plain url is a POST webhook with a JSON body. */
  lemma {:induction false} WebhookOfUrl(url: string, mappingExists: string -> bool)
    ensures ParseWebhook(Str(url), mappingExists) == Ok(Webhook([url], None, true, true, None))
  {
    NormalizePlain("url");
    var es := [(Str("url"), List([Str(url)]))];
    assert UrlsFrom([Str(url)], 0, []) == Ok([url]);
    var f := WebhookEntry(es[0], NoFields, mappingExists).value;
    assert WebhookFrom(es, 1, f, mappingExists) == Ok(f);
  }

  /** A report target of the configuration. */
  datatype ReportTarget =
    | EmailReport(config: Value)
    | FileReport(config: Value)
    | WebhookReport(hook: Webhook)
    | SyslogReport(config: Value)

  /** One webhook target per item, the first error aborting. */
  function Webhooks(data: seq<Value>, mappingExists: string -> bool): (r: Result<seq<ReportTarget>>)
    ensures r.Ok? ==> |r.value| == |data|
  {
    HookTargets(seq(|data|, j requires 0 <= j < |data| => ParseWebhook(data[j], mappingExists)), 0)
  }

  /** The targets of the parsed items `rs[i..]`. */
  function HookTargets(rs: seq<Result<Webhook>>, i: nat): (r: Result<seq<ReportTarget>>)
    requires i <= |rs|
    ensures r.Ok? ==> |r.value| == |rs| - i
    decreases |rs| - i
  {
    if i == |rs| then Ok([])
    else
      match rs[i]
      case Err(err) => Err(err)
      case Ok(w) =>
        match HookTargets(rs, i + 1)
        case Err(err) => Err(err)
        case Ok(rest) => Ok([WebhookReport(w)] + rest)
  }

  /** The targets are there only when every item parses, each the parse
      of its item, in order; otherwise the first error is the result. */
  lemma {:induction false} HookTargetsSpec(rs: seq<Result<Webhook>>, i: nat)
    requires i <= |rs|
    ensures HookTargets(rs, i).Ok? <==> forall j :: i <= j < |rs| ==> rs[j].Ok?
    ensures HookTargets(rs, i).Ok? ==> forall j :: i <= j < |rs| ==> HookTargets(rs, i).value[j - i] == WebhookReport(rs[j].value)
    ensures HookTargets(rs, i).Err? ==> exists j :: i <= j < |rs| && rs[j].Err? && HookTargets(rs, i).error == rs[j].error
    decreases |rs| - i
  {
    if i < |rs| {
      HookTargetsSpec(rs, i + 1);
      if rs[i].Ok? && HookTargets(rs, i + 1).Ok? {
        assert HookTargets(rs, i).value == [WebhookReport(rs[i].value)] + HookTargets(rs, i + 1).value;
      }
    }
  }

  /** Each webhook target is the parse of its item, in the order of the
      items. */
  lemma {:induction false} WebhooksSpec(data: seq<Value>, mappingExists: string -> bool)
    requires Webhooks(data, mappingExists).Ok?
    ensures forall j :: 0 <= j < |data| ==>
      ParseWebhook(data[j], mappingExists).Ok?
      && Webhooks(data, mappingExists).value[j] == WebhookReport(ParseWebhook(data[j], mappingExists).value)
  {
    var rs := seq(|data|, j requires 0 <= j < |data| => ParseWebhook(data[j], mappingExists));
    HookTargetsSpec(rs, 0);
    forall j | 0 <= j < |data|
      ensures ParseWebhook(data[j], mappingExists).Ok?
      ensures Webhooks(data, mappingExists).value[j] == WebhookReport(ParseWebhook(data[j], mappingExists).value)
    {
      assert rs[j] == ParseWebhook(data[j], mappingExists);
      assert Webhooks(data, mappingExists).value[j - 0] == WebhookReport(rs[j].value);
    }
  }

  /** The key of a report dictionary: `to_str(key).strip().lower()`. */
  function ReportKey(k: Value): string
  {
    Lower(Strip(ToStr(k)))
  }

  /** The targets of one item of the report list. */
  function ReportItem(info: Value, mappingExists: string -> bool): Result<seq<ReportTarget>>
  {
    if info == Str("syslog") then Ok([SyslogReport(Dict([]))])
    else if !info.Dict? then Err(ConfigError("Invalid report configuration: " + ToStr(info)))
    else if |info.entries| != 1 then Err(ConfigError("Invalid report configuration: " + ToStr(info)))
    else
      var key, data := ReportKey(info.entries[0].0), ToList(info.entries[0].1).items;
      if key == "email" then Ok(seq(|data|, j requires 0 <= j < |data| => EmailReport(data[j])))
      else if key == "file" then Ok(seq(|data|, j requires 0 <= j < |data| => FileReport(data[j])))
      else if key == "webhook" then Webhooks(data, mappingExists)
      else if key == "syslog" then Ok(seq(|data|, j requires 0 <= j < |data| => SyslogReport(data[j])))
      else Err(ConfigError("Unknown report type " + key))
  }

  /** The report targets of the whole report list, in order. */
  function ReportTargets(infos: seq<Value>, mappingExists: string -> bool): Result<seq<ReportTarget>>
  {
    if infos == [] then Ok([])
    else
      match ReportTargets(infos[..|infos| - 1], mappingExists)
      case Err(err) => Err(err)
      case Ok(prev) =>
        match ReportItem(infos[|infos| - 1], mappingExists)
        case Err(err) => Err(err)
        case Ok(ts) => Ok(prev + ts)
  }

  /** The fourth pass of `_load_conf`, as the source runs it. */
  method ParseReports(infos: seq<Value>, mappingExists: string -> bool) returns (r: Result<seq<ReportTarget>>)
    ensures r == ReportTargets(infos, mappingExists)
  {
    var targets := [];
    var i := 0;
    while i < |infos|
      invariant 0 <= i <= |infos|
      invariant ReportTargets(infos[..i], mappingExists) == Ok(targets)
    {
      assert infos[..i + 1][..i] == infos[..i];
      var item := ReportItem(infos[i], mappingExists);
      if item.Err? {
        assert ReportTargets(infos[..i + 1], mappingExists) == Err(item.error);
        ReportTargetsErr(infos, i + 1, mappingExists);
        return Err(item.error);
      }
      targets := targets + item.value;
      i := i + 1;
    }
    assert infos[..i] == infos;
    return Ok(targets);
  }

  /** An error in a prefix of the report list is the error of the list. */
  lemma {:induction false} ReportTargetsErr(infos: seq<Value>, n: nat, mappingExists: string -> bool)
    requires n <= |infos| && ReportTargets(infos[..n], mappingExists).Err?
    ensures ReportTargets(infos, mappingExists) == ReportTargets(infos[..n], mappingExists)
    decreases |infos| - n
  {
    if n < |infos| {
      assert infos[..n + 1][..n] == infos[..n];
      ReportTargetsErr(infos, n + 1, mappingExists);
    } else {
      assert infos[..n] == infos;
    }
  }

  /** A report dictionary gives one target of its type per item of its
      data, and any other key or form is refused. */
  lemma {:induction false} ReportItemSpec(info: Value, mappingExists: string -> bool)
    requires info.Dict? && |info.entries| == 1
    ensures var key, data := ReportKey(info.entries[0].0), ToList(info.entries[0].1).items;
      && (key == "email" ==> ReportItem(info, mappingExists) == Ok(seq(|data|, j requires 0 <= j < |data| => EmailReport(data[j]))))
      && (key == "webhook" && ReportItem(info, mappingExists).Ok? ==>
            |ReportItem(info, mappingExists).value| == |data|
            && forall j :: 0 <= j < |data| ==> ReportItem(info, mappingExists).value[j].WebhookReport?)
      && (key != "email" && key != "file" && key != "webhook" && key != "syslog" ==>
            ReportItem(info, mappingExists) == Err(ConfigError("Unknown report type " + key)))
  {
    var key, data := ReportKey(info.entries[0].0), ToList(info.entries[0].1).items;
    if key == "webhook" {
      var r := Webhooks(data, mappingExists);
      assert ReportItem(info, mappingExists) == r;
      if r.Ok? {
        WebhooksSpec(data, mappingExists);
        forall j | 0 <= j < |data|
          ensures r.value[j].WebhookReport?
        {
          assert r.value[j] == WebhookReport(ParseWebhook(data[j], mappingExists).value);
        }
      }
    }
  }
}
