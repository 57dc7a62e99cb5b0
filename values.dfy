/**
  Python values as they reach the control-message and pipeline code:
  JSON-decoded values, keyword-argument dictionaries (insertion ordered,
  as Python dicts are), `dict(d, **k)`, `str()`, truthiness and `== 0`.
*/
module Values {

  import opened Common

  /**
    A Python value of the kinds JSON decoding and the pipeline defaults
    produce. A float carries its exact value and the text `str()` gives
    for it (Python's shortest round-trip representation).
  */
  datatype Value =
    | VNull
    | VBool(b: bool)
    | VInt(i: int)
    | VFloat(f: real, text: string)
    | VStr(s: string)
    | VList(items: seq<Value>)
    | VDict(entries: seq<(string, Value)>)

  /** An insertion-ordered dictionary with string keys. */
  type Dict = seq<(string, Value)>

  function Keys(d: Dict): (ks: seq<string>)
    ensures |ks| == |d|
    ensures forall i :: 0 <= i < |d| ==> ks[i] == d[i].0
  {
    if d == [] then [] else [d[0].0] + Keys(d[1..])
  }

  predicate UniqueKeys(d: Dict)
  {
    forall i, j :: 0 <= i < j < |d| ==> d[i].0 != d[j].0
  }

  /** `d.get(k)`: the value stored under the key, if any. */
  function Get(d: Dict, k: string): (r: Option<Value>)
    ensures r.Some? <==> k in Keys(d)
  {
    if d == [] then None
    else if d[0].0 == k then Some(d[0].1)
    else Get(d[1..], k)
  }

  /** `d.get(k)` finds the first entry under `k`. */
  lemma {:induction false} GetAt(d: Dict, i: int)
    requires 0 <= i < |d| && forall j :: 0 <= j < i ==> d[j].0 != d[i].0
    ensures Get(d, d[i].0) == Some(d[i].1)
  {
    if i > 0 {
      GetAt(d[1..], i - 1);
    }
  }

  /** `d[k]`, for a key known to be present. */
  function Lookup(d: Dict, k: string): (v: Value)
    requires k in Keys(d)
    ensures Get(d, k) == Some(v)
  {
    Get(d, k).value
  }

  /** `d[k] = v`: overwrites in place when the key exists, appends otherwise. */
  function Put(d: Dict, k: string, v: Value): (r: Dict)
    ensures Get(r, k) == Some(v)
    ensures |r| == if k in Keys(d) then |d| else |d| + 1
  {
    if d == [] then [(k, v)]
    else if d[0].0 == k then [(k, v)] + d[1..]
    else [d[0]] + Put(d[1..], k, v)
  }

  lemma {:induction false} PutGet(d: Dict, k: string, v: Value, k': string)
    ensures Get(Put(d, k, v), k') == if k' == k then Some(v) else Get(d, k')
  {
    if d != [] && d[0].0 != k {
      PutGet(d[1..], k, v, k');
      var r := [d[0]] + Put(d[1..], k, v);
      assert r[1..] == Put(d[1..], k, v);
    } else if d != [] {
      var r := [(k, v)] + d[1..];
      assert r[1..] == d[1..];
    }
  }

  /** Key order: an existing key keeps its place, a new key goes last. */
  lemma {:induction false} PutKeys(d: Dict, k: string, v: Value)
    ensures Keys(Put(d, k, v)) == if k in Keys(d) then Keys(d) else Keys(d) + [k]
  {
    if d != [] && d[0].0 != k {
      PutKeys(d[1..], k, v);
      assert Keys(d) == [d[0].0] + Keys(d[1..]);
    }
  }

  /** Assigning through `d[k] = v` never duplicates a key. */
  lemma PutUnique(d: Dict, k: string, v: Value)
    requires UniqueKeys(d)
    ensures UniqueKeys(Put(d, k, v))
  {
    PutKeys(d, k, v);
    var r := Put(d, k, v);
    forall i, j | 0 <= i < j < |r|
      ensures r[i].0 != r[j].0
    {
      assert Keys(r)[i] == r[i].0 && Keys(r)[j] == r[j].0;
    }
  }

  /** `dict(d, **e)`: `d` updated with the entries of `e`, in `e`'s order. */
  function Merge(d: Dict, e: Dict): (r: Dict)
    ensures |d| <= |r| <= |d| + |e|
    decreases |e|
  {
    if e == [] then d else Merge(Put(d, e[0].0, e[0].1), e[1..])
  }

  /** In `dict(d, **e)` the entries of `e` win and every other entry of `d` stays. */
  lemma {:induction false} MergeGet(d: Dict, e: Dict, k: string)
    requires UniqueKeys(e)
    ensures Get(Merge(d, e), k) == if k in Keys(e) then Get(e, k) else Get(d, k)
    decreases |e|
  {
    if e != [] {
      var t := e[1..];
      assert UniqueKeys(t);
      MergeGet(Put(d, e[0].0, e[0].1), t, k);
      PutGet(d, e[0].0, e[0].1, k);
      assert Keys(e) == [e[0].0] + Keys(t);
    }
  }

  /** The keys of `d` keep their positions at the front of `dict(d, **e)`. */
  lemma {:induction false} MergeKeysPrefix(d: Dict, e: Dict)
    ensures Keys(d) <= Keys(Merge(d, e))
    ensures forall k :: k in Keys(Merge(d, e)) <==> k in Keys(d) || k in Keys(e)
    decreases |e|
  {
    if e != [] {
      PutKeys(d, e[0].0, e[0].1);
      MergeKeysPrefix(Put(d, e[0].0, e[0].1), e[1..]);
      assert Keys(e) == [e[0].0] + Keys(e[1..]);
    }
  }

  // ---------------------------------------------------------------------
  // str(), truthiness and comparison with 0
  // ---------------------------------------------------------------------

  function DigitChar(d: int): (c: char)
    requires 0 <= d < 10
    ensures '0' <= c <= '9'
  {
    ('0' as int + d) as char
  }

  function NatToString(n: nat): (s: string)
    ensures |s| >= 1
    ensures forall i :: 0 <= i < |s| ==> '0' <= s[i] <= '9'
  {
    if n < 10 then [DigitChar(n)] else NatToString(n / 10) + [DigitChar(n % 10)]
  }

  function DigitValue(c: char): int
  {
    c as int - '0' as int
  }

  /** Reads a decimal numeral back. */
  function ParseNat(s: string): int
  {
    if s == [] then 0 else 10 * ParseNat(s[..|s| - 1]) + DigitValue(s[|s| - 1])
  }

  /** The decimal rendering of a natural number reads back as that number. */
  lemma {:induction false} NatToStringRoundTrip(n: nat)
    ensures ParseNat(NatToString(n)) == n
  {
    if n >= 10 {
      var q, d := n / 10, n % 10;
      NatToStringRoundTrip(q);
      var s := NatToString(q) + [DigitChar(d)];
      assert s[..|s| - 1] == NatToString(q);
      assert DigitValue(s[|s| - 1]) == d;
      assert n == 10 * q + d;
    } else {
      assert NatToString(n) == [DigitChar(n)];
      assert [DigitChar(n)][..0] == [];
    }
  }

  /** `str(n)` for a Python int. */
  function IntToString(n: int): string
  {
    if n < 0 then "-" + NatToString(-n) else NatToString(n)
  }

  // ---------------------------------------------------------------------
  // repr() of a string
  // ---------------------------------------------------------------------

  /** A lower-case hexadecimal digit. */
  function HexDigit(d: int): (c: char)
    requires 0 <= d < 16
    ensures HexValue(c) == d
  {
    if d < 10 then ('0' as int + d) as char else ('a' as int + d - 10) as char
  }

  function HexValue(c: char): int
  {
    if '0' <= c <= '9' then c as int - '0' as int
    else if 'a' <= c <= 'f' then c as int - 'a' as int + 10
    else 0
  }

  /**
    The Latin-1 characters that are not printable and have no short escape:
    the control characters other than tab, newline and carriage return,
    DEL up to the no-break space, and the soft hyphen.
  */
  predicate HexEscaped(c: char)
  {
    var n := c as int;
    (n < 32 && c != '\t' && c != '\n' && c != '\r') || (127 <= n <= 160) || n == 173
  }

  /** The quote `repr` puts around `s`: double quotes only when `s` holds a ' and no ". */
  function QuoteFor(s: string): (q: char)
    ensures q == '\'' || q == '"'
  {
    if '\'' in s && '"' !in s then '"' else '\''
  }

  /** How `repr` writes one character of a string quoted with `q`. */
  function EscapeChar(c: char, q: char): string
  {
    if c == '\\' then "\\\\"
    else if c == q then ['\\', q]
    else if c == '\t' then "\\t"
    else if c == '\n' then "\\n"
    else if c == '\r' then "\\r"
    else if HexEscaped(c) then ['\\', 'x', HexDigit(c as int / 16), HexDigit(c as int % 16)]
    else [c]
  }

  function EscapeBody(s: string, q: char): string
  {
    if s == [] then [] else EscapeChar(s[0], q) + EscapeBody(s[1..], q)
  }

  /** `repr(s)` of a `str`. */
  function StrRepr(s: string): (r: string)
    ensures |r| >= 2 && r[0] == r[|r| - 1] == QuoteFor(s)
  {
    [QuoteFor(s)] + EscapeBody(s, QuoteFor(s)) + [QuoteFor(s)]
  }

  /** Reads the text between the quotes of a string literal back. */
  function Unescape(t: string): string
    decreases |t|
  {
    if t == [] then []
    else if t[0] == '\\' && |t| >= 2 then
      if t[1] == 't' then ['\t'] + Unescape(t[2..])
      else if t[1] == 'n' then ['\n'] + Unescape(t[2..])
      else if t[1] == 'r' then ['\r'] + Unescape(t[2..])
      else if t[1] == 'x' && |t| >= 4 then [(16 * HexValue(t[2]) + HexValue(t[3])) as char] + Unescape(t[4..])
      else [t[1]] + Unescape(t[2..])
    else [t[0]] + Unescape(t[1..])
  }

  /** One escaped character reads back as itself, whatever follows it. */
  lemma UnescapeChar(c: char, q: char, rest: string)
    requires q == '\'' || q == '"'
    ensures Unescape(EscapeChar(c, q) + rest) == [c] + Unescape(rest)
  {
    var e := EscapeChar(c, q);
    var t := e + rest;
    if c == '\\' || c == q || c == '\t' || c == '\n' || c == '\r' {
      assert t[2..] == rest;
    } else if HexEscaped(c) {
      var n := c as int;
      assert t[0] == '\\' && t[1] == 'x' && t[2] == HexDigit(n / 16) && t[3] == HexDigit(n % 16);
      assert t[4..] == rest;
      assert 16 * (n / 16) + n % 16 == n;
    } else {
      assert t[0] == c && t[1..] == rest;
    }
  }

  /** The body of `repr(s)` reads back as `s`. */
  lemma {:induction false} EscapeBodyRoundTrip(s: string, q: char)
    requires q == '\'' || q == '"'
    ensures Unescape(EscapeBody(s, q)) == s
  {
    if s != [] {
      EscapeBodyRoundTrip(s[1..], q);
      UnescapeChar(s[0], q, EscapeBody(s[1..], q));
      assert s == [s[0]] + s[1..];
    }
  }

  /**
    `repr(s)` is `s` between two equal quotes, double exactly when `s` holds
    a ' and no ", and what lies between the quotes reads back as `s`.
  */
  lemma StrReprRoundTrip(s: string)
    ensures var r := StrRepr(s);
      && (r[0] == '"' <==> '\'' in s && '"' !in s)
      && Unescape(r[1..|r| - 1]) == s
  {
    var q := QuoteFor(s);
    var r := StrRepr(s);
    assert r[1..|r| - 1] == EscapeBody(s, q);
    EscapeBodyRoundTrip(s, q);
  }

  /** A character that `repr` copies as it is. */
  predicate Verbatim(c: char, q: char)
  {
    c != '\\' && c != q && c != '\t' && c != '\n' && c != '\r' && !HexEscaped(c)
  }

  lemma {:induction false} VerbatimBody(s: string, q: char)
    requires forall i :: 0 <= i < |s| ==> Verbatim(s[i], q)
    ensures EscapeBody(s, q) == s
  {
    if s != [] {
      VerbatimBody(s[1..], q);
      assert s == [s[0]] + s[1..];
    }
  }

  /** `repr("it's")` switches to double quotes and leaves the apostrophe as it is. */
  lemma StrReprApostrophe()
    ensures StrRepr("it's") == "\"it's\""
  {
    var s := "it's";
    assert s[2] == '\'' && s == ['i', 't', '\'', 's'];
    assert QuoteFor(s) == '"';
    VerbatimBody(s, '"');
  }

  /** `repr("a\\b")` keeps single quotes and doubles the backslash. */
  lemma StrReprBackslash()
    ensures StrRepr("a\\b") == "'a\\\\b'"
  {
    var s := "a\\b";
    assert QuoteFor(s) == '\'';
    assert s == ['a'] + ['\\'] + ['b'];
    assert EscapeBody(s, '\'') == "a" + EscapeBody(s[1..], '\'');
    assert EscapeBody(s[1..], '\'') == "\\\\" + EscapeBody(s[2..], '\'');
    VerbatimBody(s[2..], '\'');
  }

  /** `repr` of values inside a container: strings are quoted and escaped. */
  function Repr(v: Value): (r: string)
    ensures v.VStr? ==> |r| >= 2 && r[0] == r[|r| - 1] == QuoteFor(v.s) && Unescape(r[1..|r| - 1]) == v.s
    ensures !v.VStr? ==> r == Str(v)
    decreases v, 1
  {
    match v
    case VStr(s) => StrReprRoundTrip(s); StrRepr(s)
    case _ => Str(v)
  }

  function JoinWith(sep: string, parts: seq<string>): string
  {
    if parts == [] then ""
    else if |parts| == 1 then parts[0]
    else parts[0] + sep + JoinWith(sep, parts[1..])
  }

  /** Python's `str()` of a value, as `str.format` inserts it. */
  function Str(v: Value): (r: string)
    ensures v.VStr? ==> r == v.s
    ensures v.VBool? ==> r == (if v.b then "True" else "False")
    ensures v.VList? ==> |r| >= 2 && r[0] == '[' && r[|r| - 1] == ']'
    ensures v.VDict? ==> |r| >= 2 && r[0] == '{' && r[|r| - 1] == '}'
    decreases v, 0
  {
    match v
    case VNull => "None"
    case VBool(b) => if b then "True" else "False"
    case VInt(i) => IntToString(i)
    case VFloat(_, text) => text
    case VStr(s) => s
    case VList(items) =>
      "[" + JoinWith(", ", seq(|items|, i requires 0 <= i < |items| => Repr(items[i]))) + "]"
    case VDict(entries) =>
      "{" + JoinWith(", ", seq(|entries|, i requires 0 <= i < |entries| =>
                                 StrRepr(entries[i].0) + ": " + Repr(entries[i].1))) + "}"
  }

  /** Python truthiness (`if value:`). */
  function Truthy(v: Value): (b: bool)
    ensures EqualsZero(v) ==> !b
    ensures v.VBool? ==> b == v.b
  {
    match v
    case VNull => false
    case VBool(b) => b
    case VInt(i) => i != 0
    case VFloat(f, _) => f != 0.0
    case VStr(s) => s != ""
    case VList(items) => items != []
    case VDict(entries) => entries != []
  }

  /** Python's `value == 0` (note that `False == 0` holds in Python). */
  function EqualsZero(v: Value): (z: bool)
    ensures z ==> v.VBool? || v.VInt? || v.VFloat?
  {
    match v
    case VBool(b) => !b
    case VInt(i) => i == 0
    case VFloat(f, _) => f == 0.0
    case _ => false
  }
}
