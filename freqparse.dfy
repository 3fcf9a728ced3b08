/** `BackupConfig._parse_freq`: a memory section, either the name of one
    tier (kept without limit) or a dictionary from tier names to `all`,
    `no` or a count. */
module FreqParse {
  import opened Wrappers
  import opened PyStr
  import opened Retention
  import opened ConfigTree

  const NoTiers: Freq := Freq(No, No, No, No)

  /** A tier count as the parser reads it: `str(v).lower().strip()` must be
      `all` (-1), `no` (0) or match `^[0-9]+$`. */
  function FreqValue(v: Value): Result<int>
  {
    var t := Normalize(ToStr(v));
    if t == "all" then Ok(All)
    else if t == "no" then Ok(No)
    else if !DigitPattern(t) then Err(ConfigError("Invalid memory frequency " + t))
    else
      assert AllDigits(t) by { StripSpec(Lower(ToStr(v))); }
      Ok(DecimalValue(t))
  }

  /** The tier named `k`, 0 for another name. */
  function TierOf(f: Freq, k: string): int
  {
    if k == "day" then f.day
    else if k == "week" then f.week
    else if k == "month" then f.month
    else if k == "year" then f.year
    else 0
  }

  predicate IsTierName(k: string)
  {
    k == "day" || k == "week" || k == "month" || k == "year"
  }

  /** The name an entry of the memory dictionary gives. */
  function EntryKey(e: (Value, Value)): string
  {
    if e.0.Str? then Normalize(e.0.s) else ""
  }

  /** One entry of the memory dictionary: the key must be a string, the
      value is read before the key is looked at. */
  function FreqEntry(e: (Value, Value), f: Freq): (r: Result<Freq>)
    ensures r.Ok? ==> e.0.Str? && IsTierName(EntryKey(e)) && FreqValue(e.1).Ok?
    ensures r.Ok? ==> TierOf(r.value, EntryKey(e)) == FreqValue(e.1).value
    ensures r.Ok? ==> forall k :: k != EntryKey(e) ==> TierOf(r.value, k) == TierOf(f, k)
  {
    if !e.0.Str? then Err(ConfigError("Invalid memory frequency " + ToStr(e.0)))
    else
      var k := Normalize(e.0.s);
      match FreqValue(e.1)
      case Err(err) => Err(err)
      case Ok(n) =>
        if IsTierName(k) then Ok(WithTier(f, k, n))
        else Err(ConfigError("Unknown memory frequency " + k))
  }

  /** The tiers `f` with the tier named `k` set to `n`. */
  function WithTier(f: Freq, k: string, n: int): (r: Freq)
    requires IsTierName(k)
    ensures TierOf(r, k) == n
    ensures forall k' :: k' != k ==> TierOf(r, k') == TierOf(f, k')
  {
    if k == "day" then f.(day := n)
    else if k == "week" then f.(week := n)
    else if k == "month" then f.(month := n)
    else f.(year := n)
  }

  /** The loop over the entries `es[i..]`, from the tiers `f`. */
  function FreqFrom(es: seq<(Value, Value)>, i: nat, f: Freq): Result<Freq>
    requires i <= |es|
    decreases |es| - i
  {
    if i == |es| then Ok(f)
    else
      match FreqEntry(es[i], f)
      case Err(err) => Err(err)
      case Ok(f') => FreqFrom(es, i + 1, f')
  }

  /** `_parse_freq(config)`: `None` when the section is neither a string
      nor a dictionary. */
  function ParseFreq(config: Value): Result<Option<Freq>>
  {
    var es := if config.Str? then [(config, Str("all"))] else if config.Dict? then config.entries else [];
    if !config.Str? && !config.Dict? then Ok(None)
    else
      match FreqFrom(es, 0, NoTiers)
      case Err(err) => Err(err)
      case Ok(f) => Ok(Some(f))
  }

  /** `_parse_freq` as the source runs it: one loop over the entries. */
  method ParseFreqLoop(config: Value) returns (r: Result<Option<Freq>>)
    ensures r == ParseFreq(config)
  {
    if !config.Str? && !config.Dict? {
      return Ok(None);
    }
    var es := if config.Str? then [(config, Str("all"))] else config.entries;
    var f := NoTiers;
    var i := 0;
    while i < |es|
      invariant 0 <= i <= |es|
      invariant FreqFrom(es, i, f) == FreqFrom(es, 0, NoTiers)
    {
      var e := es[i];
      if !e.0.Str? {
        return Err(ConfigError("Invalid memory frequency " + ToStr(e.0)));
      }
      var key := Normalize(e.0.s);
      var val := FreqValue(e.1);
      if val.Err? {
        return Err(val.error);
      }
      if key == "day" {
        f := f.(day := val.value);
      } else if key == "week" {
        f := f.(week := val.value);
      } else if key == "month" {
        f := f.(month := val.value);
      } else if key == "year" {
        f := f.(year := val.value);
      } else {
        return Err(ConfigError("Unknown memory frequency " + key));
      }
      i := i + 1;
    }
    return Ok(Some(f));
  }

  /** A count that was read is -1 (all), 0 (no) or a natural number. */
  lemma {:induction false} FreqValueRange(v: Value)
    ensures FreqValue(v).Ok? ==> FreqValue(v).value >= All
  {
  }

  /** Integers in the configuration: a natural number is its own count,
      a negative one is refused. */
  lemma {:induction false} FreqValueOfInt(n: int)
    ensures n >= 0 ==> FreqValue(Int(n)) == Ok(n)
    ensures n < 0 ==> FreqValue(Int(n)).Err?
  {
    var t := IntToString(n);
    NormalizeDigits(n);
    if n >= 0 {
      DecimalOfNatToString(n);
      assert t != "all" && t != "no" by { assert IsDigit(t[0]); }
    } else {
      assert !IsDigit(t[0]);
    }
  }

  /** `str(n)` reads as itself. */
  lemma {:induction false} NormalizeDigits(n: int)
    ensures Normalize(IntToString(n)) == IntToString(n)
  {
    var t := IntToString(n);
    var d := NatToString(if n < 0 then -n else n);
    assert t == (if n < 0 then "-" else "") + d;
    assert forall i :: 0 <= i < |t| ==> t[i] == '-' || IsDigit(t[i]);
    NormalizePlain(t);
  }

  /** The values `all` and `no`, in any case and with white space around. */
  lemma {:induction false} FreqValueWords(s: string)
    ensures Normalize(s) == "all" ==> FreqValue(Str(s)) == Ok(All)
    ensures Normalize(s) == "no" ==> FreqValue(Str(s)) == Ok(No)
  {
  }

  /** Every entry of `es[i..]` has a string key naming a tier and a
      readable count. */
  predicate EntriesOk(es: seq<(Value, Value)>, i: nat)
    requires i <= |es|
    decreases |es| - i
  {
    i == |es| || (EntryOk(es[i]) && EntriesOk(es, i + 1))
  }

  /** An entry with a string key naming a tier and a readable count. */
  predicate EntryOk(e: (Value, Value))
  {
    e.0.Str? && IsTierName(EntryKey(e)) && FreqValue(e.1).Ok?
  }

  lemma {:induction false} EntryOkSpec(e: (Value, Value), f: Freq)
    ensures FreqEntry(e, f).Ok? <==> EntryOk(e)
  {
  }

  /** A memory dictionary is read exactly when every entry is a known
      tier with a readable count. */
  lemma {:induction false} FreqFromOk(es: seq<(Value, Value)>, i: nat, f: Freq)
    requires i <= |es|
    ensures FreqFrom(es, i, f).Ok? <==> EntriesOk(es, i)
    decreases |es| - i
  {
    if i < |es| {
      EntryOkSpec(es[i], f);
      if FreqEntry(es[i], f).Ok? {
        FreqFromOk(es, i + 1, FreqEntry(es[i], f).value);
      }
    }
  }

  /** A tier no entry names keeps its value. */
  lemma {:induction false} FreqUntouched(es: seq<(Value, Value)>, i: nat, f: Freq, k: string)
    requires i <= |es| && FreqFrom(es, i, f).Ok?
    requires forall j :: i <= j < |es| ==> EntryKey(es[j]) != k
    ensures TierOf(FreqFrom(es, i, f).value, k) == TierOf(f, k)
    decreases |es| - i
  {
    if i < |es| {
      FreqUntouched(es, i + 1, FreqEntry(es[i], f).value, k);
    }
  }

  /** A tier ends with the count of the last entry that names it. */
  lemma {:induction false} FreqLastWins(es: seq<(Value, Value)>, i: nat, f: Freq, k: string, j: nat)
    requires i <= j < |es| && FreqFrom(es, i, f).Ok?
    requires EntryKey(es[j]) == k && forall j' :: j < j' < |es| ==> EntryKey(es[j']) != k
    ensures FreqValue(es[j].1) == Ok(TierOf(FreqFrom(es, i, f).value, k))
    decreases |es| - i
  {
    var r := FreqEntry(es[i], f);
    assert r.Ok? && FreqFrom(es, i, f) == FreqFrom(es, i + 1, r.value);
    var f' := r.value;
    if i == j {
      FreqUntouched(es, i + 1, f', k);
    } else {
      FreqLastWins(es, i + 1, f', k, j);
    }
  }

  /** A string section keeps its one tier without limit. */
  lemma {:induction false} ParseFreqString(s: string)
    ensures Normalize(s) == "day" ==> ParseFreq(Str(s)) == Ok(Some(Freq(All, No, No, No)))
    ensures Normalize(s) == "week" ==> ParseFreq(Str(s)) == Ok(Some(Freq(No, All, No, No)))
    ensures Normalize(s) == "month" ==> ParseFreq(Str(s)) == Ok(Some(Freq(No, No, All, No)))
    ensures Normalize(s) == "year" ==> ParseFreq(Str(s)) == Ok(Some(Freq(No, No, No, All)))
    ensures !IsTierName(Normalize(s)) ==> ParseFreq(Str(s)) == Err(ConfigError("Unknown memory frequency " + Normalize(s)))
  {
    NormalizePlain("all");
    assert FreqValue(Str("all")) == Ok(All);
    var es := [(Str(s), Str("all"))];
    var k := Normalize(s);
    if IsTierName(k) {
      var f' := FreqEntry(es[0], NoTiers).value;
      assert FreqFrom(es, 1, f') == Ok(f');
    }
  }

  predicate TiersInRange(f: Freq)
  {
    f.day >= All && f.week >= All && f.month >= All && f.year >= All
  }

  lemma {:induction false} FreqFromRange(es: seq<(Value, Value)>, i: nat, f: Freq)
    requires i <= |es| && TiersInRange(f) && FreqFrom(es, i, f).Ok?
    ensures TiersInRange(FreqFrom(es, i, f).value)
    decreases |es| - i
  {
    if i < |es| {
      var f' := FreqEntry(es[i], f).value;
      FreqEntryRange(es[i], f);
      assert FreqFrom(es, i, f) == FreqFrom(es, i + 1, f');
      FreqFromRange(es, i + 1, f');
    }
  }

  /** One entry read keeps every tier at -1 or more. */
  lemma {:induction false} FreqEntryRange(e: (Value, Value), f: Freq)
    requires TiersInRange(f) && FreqEntry(e, f).Ok?
    ensures TiersInRange(FreqEntry(e, f).value)
  {
    FreqValueRange(e.1);
  }

  /** A section that is neither a string nor a dictionary gives no
      frequency, and a parsed frequency has every tier at -1 or more. */
  lemma {:induction false} ParseFreqShape(config: Value)
    ensures !config.Str? && !config.Dict? ==> ParseFreq(config) == Ok(None)
    ensures ParseFreq(config).Ok? && ParseFreq(config).value.Some? ==> TiersInRange(ParseFreq(config).value.value)
  {
    if config.Str? || config.Dict? {
      var es := if config.Str? then [(config, Str("all"))] else config.entries;
      if FreqFrom(es, 0, NoTiers).Ok? {
        FreqFromRange(es, 0, NoTiers);
      }
    }
  }
}
