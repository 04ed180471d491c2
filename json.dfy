/** Decoded JSON values and the handful of Python operations the integration applies to them:
    truthiness, `or`, `dict.get`, iteration, `str()`, `.lower()`, `.strip()`, `int()` and `float()`. */
module Json {
  import opened Wrappers

  /** A JSON document as Python's json module hands it over. An object keeps its members in
      document order; `Keys` and `Lookup` say how Python's dict reads them. Numbers are integers. */
  datatype Value =
    | Null
    | Bool(b: bool)
    | Int(i: int)
    | Str(s: string)
    | List(items: seq<Value>)
    | Dict(entries: seq<(string, Value)>)

  /** The exceptions the modelled code can raise. */
  datatype Error =
    | AttributeError                        // `.get`, `.items` or `.lower` on a value of the wrong type
    | TypeError                             // iterating a value that is not iterable
    | ApiFailed(path: string, body: Value)  // the client's envelope check
    | TransportError                        // connection failure, HTTP error status, undecodable body

  type Outcome<T> = Result<T, Error>

  const EmptyDict: Value := Dict([])

  // ---------- Objects as Python dicts ----------

  predicate HasKey<V>(e: seq<(string, V)>, k: string) {
    exists i :: 0 <= i < |e| && e[i].0 == k
  }

  predicate Distinct(s: seq<string>) {
    forall i, j :: 0 <= i < j < |s| ==> s[i] != s[j]
  }

  predicate DistinctKeys<V>(e: seq<(string, V)>) {
    forall i, j :: 0 <= i < j < |e| ==> e[i].0 != e[j].0
  }

  /** The keys of a dict built by inserting the members of `e` in order: each name sits
      where it was first inserted. */
  function Keys<V>(e: seq<(string, V)>): (r: seq<string>)
    ensures forall k :: k in r <==> HasKey(e, k)
    ensures Distinct(r)
  {
    if |e| == 0 then []
    else
      var ks := Keys(e[..|e| - 1]);
      assert forall k :: HasKey(e, k) <==> HasKey(e[..|e| - 1], k) || e[|e| - 1].0 == k by {
        forall k | HasKey(e, k) ensures HasKey(e[..|e| - 1], k) || e[|e| - 1].0 == k {
          var i :| 0 <= i < |e| && e[i].0 == k;
          if i < |e| - 1 { assert e[..|e| - 1][i].0 == k; }
        }
        forall k | HasKey(e[..|e| - 1], k) ensures HasKey(e, k) {
          var i :| 0 <= i < |e| - 1 && e[..|e| - 1][i].0 == k;
          assert e[i].0 == k;
        }
      }
      if e[|e| - 1].0 in ks then ks else ks + [e[|e| - 1].0]
  }

  /** `d.get(k)` on that dict: the value of the last member named `k` (a later insertion overwrites). */
  function Lookup<V>(e: seq<(string, V)>, k: string): (r: Option<V>)
    ensures r.Some? <==> HasKey(e, k)
  {
    if |e| == 0 then None
    else if e[|e| - 1].0 == k then Some(e[|e| - 1].1)
    else
      var r := Lookup(e[..|e| - 1], k);
      assert HasKey(e[..|e| - 1], k) ==> HasKey(e, k) by {
        if HasKey(e[..|e| - 1], k) {
          var i :| 0 <= i < |e| - 1 && e[..|e| - 1][i].0 == k;
          assert e[i].0 == k;
        }
      }
      assert HasKey(e, k) ==> HasKey(e[..|e| - 1], k) by {
        if HasKey(e, k) {
          var i :| 0 <= i < |e| && e[i].0 == k;
          assert e[..|e| - 1][i].0 == k;
        }
      }
      r
  }

  /** `d.items()`: one pair per key, in key order, each with the key's current value. */
  function Items<V>(e: seq<(string, V)>): (r: seq<(string, V)>)
    ensures |r| == |Keys(e)|
    ensures forall i :: 0 <= i < |r| ==> r[i].0 == Keys(e)[i] && Lookup(e, r[i].0) == Some(r[i].1)
  {
    var ks := Keys(e);
    seq(|ks|, i requires 0 <= i < |ks| => (ks[i], Lookup(e, ks[i]).value))
  }

  /** The member at position i is what `get` returns when no later member has its name. */
  lemma {:induction false} LookupLast<V>(e: seq<(string, V)>, i: nat)
    requires i < |e|
    requires forall j :: i < j < |e| ==> e[j].0 != e[i].0
    ensures Lookup(e, e[i].0) == Some(e[i].1)
  {
    if i < |e| - 1 {
      var p := e[..|e| - 1];
      assert p[i] == e[i];
      forall j | i < j < |p| ensures p[j].0 != p[i].0 {
        assert p[j] == e[j];
      }
      LookupLast(p, i);
    }
  }

  /** A dict built from members with distinct names has exactly those members, in that order. */
  lemma {:induction false} KeysOfDistinct<V>(e: seq<(string, V)>)
    requires DistinctKeys(e)
    ensures Keys(e) == seq(|e|, i requires 0 <= i < |e| => e[i].0)
  {
    if |e| > 0 {
      var p := e[..|e| - 1];
      assert DistinctKeys(p) by {
        forall i, j | 0 <= i < j < |p| ensures p[i].0 != p[j].0 {
          assert p[i] == e[i] && p[j] == e[j];
        }
      }
      KeysOfDistinct(p);
      forall i | 0 <= i < |p| ensures Keys(p)[i] != e[|e| - 1].0 {
        assert p[i] == e[i];
      }
    }
  }

  lemma ItemsOfDistinct<V>(e: seq<(string, V)>)
    requires DistinctKeys(e)
    ensures Items(e) == e
  {
    KeysOfDistinct(e);
    var r := Items(e);
    assert |r| == |e|;
    forall i | 0 <= i < |e| ensures r[i] == e[i] {
      LookupLast(e, i);
    }
  }

  // ---------- Python value semantics ----------

  /** Python's truthiness: None, False, 0 and empty strings, lists and dicts are falsy. */
  predicate Truthy(v: Value) {
    match v
    case Null => false
    case Bool(b) => b
    case Int(i) => i != 0
    case Str(s) => |s| > 0
    case List(xs) => |xs| > 0
    case Dict(e) => |e| > 0
  }

  /** Python's `a or b`. */
  function Or(a: Value, b: Value): Value {
    if Truthy(a) then a else b
  }

  /** `d.get(k, default)`; raises AttributeError when `d` is not a dict. */
  function Get(d: Value, k: string, default: Value): Outcome<Value> {
    if d.Dict? then Ok(Lookup(d.entries, k).GetOr(default)) else Err(AttributeError)
  }

  /** `for x in v`: a list yields its items, a dict its keys, a string its characters;
      anything else raises TypeError. */
  function Iter(v: Value): Outcome<seq<Value>> {
    match v
    case List(xs) => Ok(xs)
    case Dict(e) =>
      var ks := Keys(e);
      Ok(seq(|ks|, i requires 0 <= i < |ks| => Str(ks[i])))
    case Str(s) => Ok(seq(|s|, i requires 0 <= i < |s| => Str([s[i]])))
    case _ => Err(TypeError)
  }

  /** Python's `str(v)`. Arrays and objects are only rendered by their bracket. */
  function StrOf(v: Value): string {
    match v
    case Null => "None"
    case Bool(b) => if b then "True" else "False"
    case Int(i) => IntToString(i)
    case Str(s) => s
    case List(_) => "[...]"
    case Dict(_) => "{...}"
  }

  // ---------- Characters and strings ----------

  /** The ASCII characters for which Python's `str.isspace` holds. */
  predicate IsSpace(c: char) {
    c == ' ' || ('\t' <= c <= '\r') || ('\U{1C}' <= c <= '\U{1F}')
  }

  predicate Blank(s: string) {
    forall i :: 0 <= i < |s| ==> IsSpace(s[i])
  }

  function LowerChar(c: char): char {
    if 'A' <= c <= 'Z' then (c as int + 32) as char else c
  }

  /** `s.lower()` on ASCII letters. */
  function Lower(s: string): (r: string)
    ensures |r| == |s|
  {
    seq(|s|, i requires 0 <= i < |s| => LowerChar(s[i]))
  }

  function TrimLeft(s: string): string {
    if |s| > 0 && IsSpace(s[0]) then TrimLeft(s[1..]) else s
  }

  function TrimRight(s: string): string {
    if |s| > 0 && IsSpace(s[|s| - 1]) then TrimRight(s[..|s| - 1]) else s
  }

  /** `s.strip()`. */
  function Strip(s: string): string {
    TrimRight(TrimLeft(s))
  }

  /** `TrimLeft` drops a blank prefix and stops at the first character that is not white space. */
  lemma {:induction false} TrimLeftSpec(s: string) returns (a: nat)
    ensures a <= |s| && TrimLeft(s) == s[a..] && Blank(s[..a])
    ensures a < |s| ==> !IsSpace(s[a])
  {
    if |s| > 0 && IsSpace(s[0]) {
      var a' := TrimLeftSpec(s[1..]);
      a := a' + 1;
      assert s[1..][a'..] == s[a..];
      assert Blank(s[..a]) by {
        forall i | 0 <= i < a ensures IsSpace(s[i]) {
          if i > 0 { assert s[i] == s[1..][..a'][i - 1]; }
        }
      }
      if a < |s| { assert s[a] == s[1..][a']; }
    } else {
      a := 0;
      assert s == s[0..];
    }
  }

  /** `TrimRight` drops a blank suffix and stops at the last character that is not white space. */
  lemma {:induction false} TrimRightSpec(s: string) returns (b: nat)
    ensures b <= |s| && TrimRight(s) == s[..b] && Blank(s[b..])
    ensures 0 < b ==> !IsSpace(s[b - 1])
  {
    if |s| > 0 && IsSpace(s[|s| - 1]) {
      var p := s[..|s| - 1];
      b := TrimRightSpec(p);
      assert p[..b] == s[..b];
      assert Blank(s[b..]) by {
        forall i | 0 <= i < |s| - b ensures IsSpace(s[b..][i]) {
          if b + i < |s| - 1 { assert s[b..][i] == p[b..][i]; }
        }
      }
      if 0 < b { assert s[b - 1] == p[b - 1]; }
    } else {
      b := |s|;
      assert s == s[..|s|];
    }
  }

  /** The two cut points of `s.strip()`: white space before `a`, white space from `b` on. */
  lemma StripParts(s: string) returns (a: nat, b: nat)
    ensures a <= b <= |s| && Strip(s) == s[a..b] && Blank(s[..a]) && Blank(s[b..])
    ensures a < b ==> !IsSpace(s[a]) && !IsSpace(s[b - 1])
  {
    a := TrimLeftSpec(s);
    var t := s[a..];
    var c := TrimRightSpec(t);
    b := a + c;
    assert Strip(s) == TrimRight(t);
    assert t[..c] == s[a..b];
    assert t[c..] == s[b..];
    if a < b {
      assert s[a] == t[0];
      assert s[b - 1] == t[c - 1];
    }
  }

  /** `s.strip()` removes exactly the surrounding white space: what remains is an infix of `s`
      flanked by white space, it is empty precisely when `s` is blank, and otherwise it neither
      starts nor ends with white space. */
  lemma StripSpec(s: string)
    ensures exists a, b :: 0 <= a <= b <= |s| && Strip(s) == s[a..b] && Blank(s[..a]) && Blank(s[b..])
    ensures |Strip(s)| == 0 <==> Blank(s)
    ensures |Strip(s)| > 0 ==> !IsSpace(Strip(s)[0]) && !IsSpace(Strip(s)[|Strip(s)| - 1])
  {
    var a, b := StripParts(s);
    if a == b {
      assert Blank(s) by {
        forall i | 0 <= i < |s| ensures IsSpace(s[i]) {
          if i < a { assert s[i] == s[..a][i]; } else { assert s[i] == s[b..][i - b]; }
        }
      }
    } else {
      assert Strip(s)[0] == s[a];
    }
  }

  /** Stripping is idempotent. */
  lemma StripIdempotent(s: string)
    ensures Strip(Strip(s)) == Strip(s)
  {
    StripSpec(s);
    var t := Strip(s);
    if |t| > 0 {
      assert TrimLeft(t) == t;
      assert TrimRight(t) == t;
    }
  }

  // ---------- Numbers ----------

  predicate IsDigit(c: char) {
    '0' <= c <= '9'
  }

  predicate AllDigits(s: string) {
    forall i :: 0 <= i < |s| ==> IsDigit(s[i])
  }

  function DigitChar(d: nat): char
    requires d < 10
  {
    ('0' as int + d) as char
  }

  function DigitsValue(s: string): nat
    requires AllDigits(s)
  {
    if |s| == 0 then 0 else DigitsValue(s[..|s| - 1]) * 10 + (s[|s| - 1] as int - '0' as int)
  }

  function NatToString(n: nat): (r: string)
    ensures |r| > 0 && AllDigits(r)
  {
    if n < 10 then [DigitChar(n)] else NatToString(n / 10) + [DigitChar(n % 10)]
  }

  /** Python's `str(i)` of an integer: decimal digits, a minus sign for negatives. */
  function IntToString(i: int): string {
    if i < 0 then "-" + NatToString(-i) else NatToString(i)
  }

  /** Python's `int(s)` for a string: surrounding white space, an optional sign and at least one
      ASCII digit; anything else raises ValueError, modelled as None. */
  function ParseInt(s: string): Option<int> {
    var t := Strip(s);
    if |t| > 0 && (t[0] == '-' || t[0] == '+') then
      var body := t[1..];
      if |body| > 0 && AllDigits(body) then
        Some(if t[0] == '-' then -(DigitsValue(body) as int) else DigitsValue(body))
      else None
    else if |t| > 0 && AllDigits(t) then Some(DigitsValue(t))
    else None
  }

  lemma {:induction false} DigitsOfNat(n: nat)
    ensures DigitsValue(NatToString(n)) == n
  {
    if n >= 10 {
      DigitsOfNat(n / 10);
      var s := NatToString(n);
      assert s[..|s| - 1] == NatToString(n / 10);
    }
  }

  lemma StripNoSpace(s: string)
    requires |s| > 0 && !IsSpace(s[0]) && !IsSpace(s[|s| - 1])
    ensures Strip(s) == s
  {
  }

  /** `int(str(i)) == i`: parsing the decimal rendering gives the integer back. */
  lemma ParseIntRoundTrip(i: int)
    ensures ParseInt(IntToString(i)) == Some(i)
  {
    var n: nat := if i < 0 then -i else i;
    var d := NatToString(n);
    DigitsOfNat(n);
    var s := IntToString(i);
    assert !IsSpace(s[0]) && !IsSpace(s[|s| - 1]);
    StripNoSpace(s);
    if i < 0 {
      assert s[1..] == d;
    }
  }

  /** Python's `int(v)` inside a `try`: integers, booleans and numeric strings convert; None,
      lists, dicts and other strings raise, which the caller turns into None. */
  function PyInt(v: Value): Option<int> {
    match v
    case Int(i) => Some(i)
    case Bool(b) => Some(if b then 1 else 0)
    case Str(s) => ParseInt(s)
    case _ => None
  }

  function Pow10(n: nat): (r: nat)
    ensures r > 0
  {
    if n == 0 then 1 else 10 * Pow10(n - 1)
  }

  function IndexOf(s: string, c: char): (r: Option<nat>)
    ensures r.Some? ==> r.value < |s| && s[r.value] == c
    ensures r.None? ==> c !in s
  {
    if |s| == 0 then None
    else if s[0] == c then Some(0)
    else match IndexOf(s[1..], c)
      case Some(j) => Some(j + 1)
      case None => None
  }

  /** The unsigned part of a decimal literal: digits, optionally split by one point,
      with at least one digit. */
  function DecimalBody(b: string): Option<real> {
    match IndexOf(b, '.')
    case None =>
      if |b| > 0 && AllDigits(b) then Some(DigitsValue(b) as real) else None
    case Some(p) =>
      var whole, frac := b[..p], b[p + 1..];
      if AllDigits(whole) && AllDigits(frac) && |whole| + |frac| > 0 then
        Some(DigitsValue(whole) as real + (DigitsValue(frac) as real) / (Pow10(|frac|) as real))
      else None
  }

  /** Python's `float(s)` for a string written as a plain decimal numeral. */
  function ParseDecimal(s: string): Option<real> {
    var t := Strip(s);
    var neg := |t| > 0 && t[0] == '-';
    var body := if |t| > 0 && (t[0] == '-' || t[0] == '+') then t[1..] else t;
    match DecimalBody(body)
    case Some(x) => Some(if neg then -x else x)
    case None => None
  }

  /** Python's `float(v)` inside a `try`: None when it would raise. */
  function PyFloat(v: Value): Option<real> {
    match v
    case Int(i) => Some(i as real)
    case Bool(b) => Some(if b then 1.0 else 0.0)
    case Str(s) => ParseDecimal(s)
    case _ => None
  }
}
