/**
 * Python values and exceptions as the bot's code sees them.
 *
 * Dictionaries keep their insertion order (an entry list), because `str()`
 * of a dict and the iteration order of a dict both depend on it.
 * Exceptions become values: an operation that may raise returns an
 * `Outcome`.
 */
module Py {
  import opened Text

  datatype Option<T> = None | Some(value: T)

  /** A Python value: what `json.loads`, `dict.get` and keyword arguments yield. */
  datatype Value =
    | Null
    | Bool(b: bool)
    | Int(i: int)
    | Str(s: string)
    | List(items: seq<Value>)
    | Dict(entries: seq<Entry>)

  datatype Entry = Entry(key: string, val: Value)

  /** Python's truth value (`bool(v)`). */
  predicate Truthy(v: Value)
  {
    match v
    case Null => false
    case Bool(b) => b
    case Int(i) => i != 0
    case Str(s) => s != ""
    case List(items) => items != []
    case Dict(entries) => entries != []
  }

  /** The value stored under `key`, if any (first entry wins, as keys are unique). */
  function Lookup(entries: seq<Entry>, key: string): Option<Value>
  {
    if entries == [] then None
    else if entries[0].key == key then Some(entries[0].val)
    else Lookup(entries[1..], key)
  }

  /** A key that no entry carries is not found. */
  lemma {:induction false} LookupAbsent(entries: seq<Entry>, key: string)
    requires forall e :: e in entries ==> e.key != key
    ensures Lookup(entries, key) == None
  {
    if entries != [] {
      assert entries[0] in entries;
      LookupAbsent(entries[1..], key);
    }
  }

  /** The entry at `i` is found when no earlier entry carries its key. */
  lemma {:induction false} LookupAt(entries: seq<Entry>, key: string, i: nat)
    requires i < |entries| && entries[i].key == key
    requires forall j :: 0 <= j < i ==> entries[j].key != key
    ensures Lookup(entries, key) == Some(entries[i].val)
  {
    if i > 0 {
      assert entries[0].key != key;
      assert entries[1..][i - 1] == entries[i];
      LookupAt(entries[1..], key, i - 1);
    }
  }

  /** A key is found exactly when some entry carries it, and then the value is the first such entry's. */
  lemma {:induction false} LookupFinds(entries: seq<Entry>, key: string)
    ensures Lookup(entries, key).Some? <==> exists i :: 0 <= i < |entries| && entries[i].key == key
    ensures Lookup(entries, key).Some? ==>
      exists i :: (0 <= i < |entries| && entries[i] == Entry(key, Lookup(entries, key).value)
        && forall j :: 0 <= j < i ==> entries[j].key != key)
  {
    if entries != [] && entries[0].key != key {
      LookupFinds(entries[1..], key);
      if Lookup(entries, key).Some? {
        var i :| 0 <= i < |entries[1..]| && entries[1..][i] == Entry(key, Lookup(entries, key).value)
          && forall j :: 0 <= j < i ==> entries[1..][j].key != key;
        assert entries[i + 1] == Entry(key, Lookup(entries, key).value);
      }
      if exists i :: 0 <= i < |entries| && entries[i].key == key {
        var i :| 0 <= i < |entries| && entries[i].key == key;
        assert entries[1..][i - 1].key == key;
      }
    } else if entries != [] {
      assert entries[0] == Entry(key, Lookup(entries, key).value);
    }
  }

  /** `d[key] = val`: an existing entry is replaced in place, a new key is appended. */
  function Assign(entries: seq<Entry>, key: string, val: Value): (r: seq<Entry>)
    ensures Lookup(r, key) == Some(val)
    ensures forall k :: k != key ==> Lookup(r, k) == Lookup(entries, k)
    ensures Lookup(entries, key).Some? ==> |r| == |entries|
  {
    if entries == [] then [Entry(key, val)]
    else if entries[0].key == key then [Entry(key, val)] + entries[1..]
    else [entries[0]] + Assign(entries[1..], key, val)
  }

  /** `key in d` for a dict `d`. */
  predicate Has(d: Value, key: string)
    requires d.Dict?
  {
    Lookup(d.entries, key).Some?
  }

  /** `d.get(key, default)` for a dict `d`. */
  function GetOr(d: Value, key: string, default: Value): Value
    requires d.Dict?
  {
    match Lookup(d.entries, key)
    case Some(v) => v
    case None => default
  }

  /** `d.get(key)`: `None` when the key is absent. */
  function Get(d: Value, key: string): Value
    requires d.Dict?
  {
    GetOr(d, key, Null)
  }

  /** `v[key]` for a string key. */
  function Subscript(v: Value, key: string): (r: Outcome<Value>)
    ensures v.Dict? ==> (r.Returned? <==> Has(v, key))
    ensures r.Returned? ==> v.Dict? && r.value == Get(v, key)
    ensures v.Dict? && !Has(v, key) ==> r == Raised(Exc(KeyError, Repr(Str(key))))
    ensures r.Raised? ==> r.exc.kind == KeyError || r.exc.kind == TypeError
  {
    match v
    case Dict(entries) =>
      (match Lookup(entries, key)
       case Some(x) => Returned(x)
       case None => Raised(Exc(KeyError, Repr(Str(key)))))
    case Str(_) => Raised(Exc(TypeError, "string indices must be integers, not 'str'"))
    case List(_) => Raised(Exc(TypeError, "list indices must be integers or slices, not str"))
    case _ => Raised(Exc(TypeError, "'" + TypeName(v) + "' object is not subscriptable"))
  }

  /** `type(v).__name__`. */
  function TypeName(v: Value): string
  {
    match v
    case Null => "NoneType"
    case Bool(_) => "bool"
    case Int(_) => "int"
    case Str(_) => "str"
    case List(_) => "list"
    case Dict(_) => "dict"
  }

  /** Decimal digits of a natural number, as `str(n)` writes them. */
  function NatToString(n: nat): (r: string)
    ensures |r| >= 1
    ensures forall i :: 0 <= i < |r| ==> '0' <= r[i] <= '9'
    decreases n
  {
    var d := [(('0' as int) + n % 10) as char];
    if n < 10 then d else NatToString(n / 10) + d
  }

  /** `str(i)` for an integer. */
  function IntToString(i: int): string
  {
    if i < 0 then "-" + NatToString(-i) else NatToString(i)
  }

  predicate AllDigits(s: string)
  {
    forall i :: 0 <= i < |s| ==> '0' <= s[i] <= '9'
  }

  /** The number a string of decimal digits spells. */
  function DigitsValue(ds: string): nat
    requires AllDigits(ds)
  {
    if ds == [] then 0 else 10 * DigitsValue(ds[..|ds| - 1]) + ((ds[|ds| - 1] as int) - ('0' as int))
  }

  predicate IsDigit(c: char)
  {
    '0' <= c <= '9'
  }

  /** Decimal digits with single underscores between them, the grouping `int()` accepts. */
  predicate Grouped(ds: string)
    decreases |ds|
  {
    && ds != [] && IsDigit(ds[0])
    && (|ds| == 1 || (if ds[1] == '_' then Grouped(ds[2..]) else Grouped(ds[1..])))
  }

  /** The digits of a grouped literal, its underscores dropped. */
  function DropUnderscores(ds: string): (r: string)
    requires Grouped(ds)
    ensures AllDigits(r) && 0 < |r| <= |ds|
    ensures AllDigits(ds) ==> r == ds
    decreases |ds|
  {
    if |ds| == 1 then ds
    else
      var rest := if ds[1] == '_' then DropUnderscores(ds[2..]) else DropUnderscores(ds[1..]);
      assert AllDigits(ds) ==> ds[1] != '_' && AllDigits(ds[1..]);
      assert AllDigits([ds[0]] + rest) by {
        forall i | 0 <= i < |rest| + 1
          ensures '0' <= ([ds[0]] + rest)[i] <= '9'
        {
          if i > 0 {
            assert ([ds[0]] + rest)[i] == rest[i - 1];
          }
        }
      }
      assert AllDigits(ds) ==> [ds[0]] + ds[1..] == ds;
      [ds[0]] + rest
  }

  /** Plain digits are a grouped literal. */
  lemma {:induction false} DigitsGrouped(ds: string)
    requires AllDigits(ds) && ds != []
    ensures Grouped(ds)
    decreases |ds|
  {
    if |ds| > 1 {
      assert AllDigits(ds[1..]);
      DigitsGrouped(ds[1..]);
    }
  }

  /** The integer a stripped literal denotes: an optional sign, then grouped decimal digits. */
  function LiteralValue(t: string): Option<int>
  {
    var signed := t != [] && (t[0] == '-' || t[0] == '+');
    var digits := if signed then t[1..] else t;
    if Grouped(digits) then
      var n: int := DigitsValue(DropUnderscores(digits));
      Some(if signed && t[0] == '-' then -n else n)
    else None
  }

  /**
   * `int(raw)` for a decimal literal: surrounding whitespace, one sign and
   * single underscores between digits are accepted; anything else raises
   * `ValueError`.
   */
  function ParseInt(raw: string): (r: Outcome<int>)
    ensures r.Raised? ==> r.exc.kind == ValueError
    ensures r.Returned? <==> LiteralValue(Strip(raw)).Some?
  {
    match LiteralValue(Strip(raw))
    case Some(n) => Returned(n)
    case None => Raised(Exc(ValueError, "invalid literal for int() with base 10: " + Repr(Str(raw))))
  }

  /** Reading back the digits `str(n)` writes gives `n`. */
  lemma {:induction false} DigitsRoundTrip(n: nat)
    ensures DigitsValue(NatToString(n)) == n
    decreases n
  {
    var r := NatToString(n);
    if n >= 10 {
      DigitsRoundTrip(n / 10);
      assert r[..|r| - 1] == NatToString(n / 10);
    }
  }

  lemma DigitNotSpace(c: char)
    requires c == '-' || '0' <= c <= '9'
    ensures !IsSpace(c)
  {
  }

  /** `str(i)` reads back as `i`. */
  lemma LiteralRoundTrip(i: int)
    ensures LiteralValue(IntToString(i)) == Some(i)
  {
    var m: nat := if i < 0 then -i else i;
    var ds := NatToString(m);
    DigitsRoundTrip(m);
    assert AllDigits(ds) && ds != [];
    if i < 0 {
      NegativeLiteral(ds);
    } else {
      PlainLiteral(ds);
    }
  }

  /** Plain digits denote their value... */
  lemma PlainLiteral(ds: string)
    requires AllDigits(ds) && ds != []
    ensures LiteralValue(ds) == Some(DigitsValue(ds))
  {
    DigitsGrouped(ds);
    assert ds[0] != '-' && ds[0] != '+';
  }

  /** ... and behind a minus sign, its negation. */
  lemma NegativeLiteral(ds: string)
    requires AllDigits(ds) && ds != []
    ensures LiteralValue("-" + ds) == Some(-(DigitsValue(ds) as int))
  {
    DigitsGrouped(ds);
    assert DropUnderscores(ds) == ds;
    var t := "-" + ds;
    assert t != [] && t[0] == '-' && t[1..] == ds;
  }

  /** `int(str(i)) == i`. */
  lemma ParseIntRoundTrip(i: int)
    ensures ParseInt(IntToString(i)) == Returned(i)
  {
    var t := IntToString(i);
    LiteralRoundTrip(i);
    DigitNotSpace(t[0]);
    DigitNotSpace(t[|t| - 1]);
    StripFixed(t);
  }

  lemma ThousandDigits()
    ensures Grouped("1_000") && DropUnderscores("1_000") == "1000"
  {
    ThousandGrouped();
    DigitsGrouped("000");
    assert AllDigits("000");
    assert DropUnderscores("000") == "000";
    assert "1_000"[2..] == "000";
  }

  lemma ThousandValue()
    ensures DigitsValue("1000") == 1000
  {
    assert "1000"[..3] == "100" && "100"[..2] == "10" && "10"[..1] == "1" && "1"[..0] == "";
  }

  lemma ThousandGrouped()
    ensures Grouped("1_000")
  {
    DigitsGrouped("000");
    assert "1_000"[2..] == "000";
  }

  lemma ThousandLiteral()
    ensures LiteralValue("1_000") == Some(1000)
  {
    ThousandGrouped();
    ThousandDigits();
    ThousandValue();
  }

  lemma ThousandStripped()
    ensures Strip("1_000") == "1_000"
  {
    StripFixed("1_000");
  }

  /** `int()` reads digit groups separated by single underscores... */
  lemma ParseIntGrouped()
    ensures ParseInt("1_000") == Returned(1000)
  {
    ThousandLiteral();
    ThousandStripped();
  }

  /** ... and refuses a doubled, leading or trailing underscore. */
  lemma ParseIntMisgrouped()
    ensures ParseInt("1__0").Raised? && ParseInt("_1").Raised? && ParseInt("1_").Raised?
  {
    StripFixed("1__0");
    StripFixed("_1");
    StripFixed("1_");
    assert !Grouped("1__0") by { assert "1__0"[1] == '_' && "1__0"[2..] == "_0"; }
    assert !Grouped("1_") by { assert "1_"[1] == '_' && "1_"[2..] == ""; }
  }

  /** `str(v)`. Strings print as themselves; containers print their `repr`. */
  function PyStr(v: Value): string
  {
    if v.Str? then v.s else Repr(v)
  }

  /**
   * `repr(v)`. Strings inside containers are quoted with single quotes;
   * escaping of quote characters inside them is not modelled.
   */
  function Repr(v: Value): string
    decreases v, 1
  {
    match v
    case Null => "None"
    case Bool(b) => if b then "True" else "False"
    case Int(i) => IntToString(i)
    case Str(s) => "'" + s + "'"
    case List(items) => "[" + ReprItems(v, 0) + "]"
    case Dict(entries) => "{" + ReprEntries(v, 0) + "}"
  }

  function ReprItems(v: Value, k: nat): string
    requires v.List?
    decreases v, 0, |v.items| - k
  {
    if k >= |v.items| then ""
    else (if k > 0 then ", " else "") + Repr(v.items[k]) + ReprItems(v, k + 1)
  }

  function ReprEntries(v: Value, k: nat): string
    requires v.Dict?
    decreases v, 0, |v.entries| - k
  {
    if k >= |v.entries| then ""
    else
      var e := v.entries[k];
      assert e.val < e;
      (if k > 0 then ", " else "") + "'" + e.key + "': " + Repr(e.val) + ReprEntries(v, k + 1)
  }

  /** The message of the `AttributeError` Python raises for `v.attr` on a value lacking it. */
  function NoAttribute(v: Value, attr: string): string
  {
    "'" + TypeName(v) + "' object has no attribute '" + attr + "'"
  }

  /** The exception classes the modelled code raises or catches. */
  datatype ExcKind =
    | ThreadsAuthenticationError
    | ThreadsPostingError
    | ThreadsMediaError
    | ThreadsAPIAuthError
    | ThreadsAPIPostError
    | KeyError
    | ValueError
    | TypeError
    | AttributeError
    | RequestException

  datatype Exc = Exc(kind: ExcKind, msg: string)

  /** The result of a Python call that may raise. */
  datatype Outcome<T> = Returned(value: T) | Raised(exc: Exc)

  /** The environment (`os.getenv`): variables that are set, with their values. */
  type Env = map<string, string>

  /** `os.getenv(name)`: a string, or `None` when unset. */
  function GetEnv(env: Env, name: string): Value
  {
    if name in env then Str(env[name]) else Null
  }

  /** `os.getenv(name, default)`. */
  function GetEnvOr(env: Env, name: string, default: string): string
  {
    if name in env then env[name] else default
  }

  /** `bool(os.getenv(name))`: set and non-empty. */
  predicate EnvSet(env: Env, name: string)
  {
    name in env && env[name] != ""
  }
}
