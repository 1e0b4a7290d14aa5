/** Python values, exceptions and the few built-ins (int(), str(), %x, round())
    that the car's components rely on. Every float of the car is modelled as a
    `real`; the model does not capture IEEE rounding. */
module Py {

  datatype Option<+T> = None | Some(value: T)

  /** The Python exceptions that the modelled code raises or lets escape. */
  datatype Exc =
    | ValueError
    | TypeError
    | IndexError
    | KeyError
    | AttributeError
    | ZeroDivisionError
    | UnicodeDecodeError
    | StructError
    | FileNotFoundError

  datatype Result<+T> = Ok(value: T) | Err(error: Exc)

  /** A dynamically typed Python value as it appears in a YAML configuration,
      in a message payload or in a channel list. `VObject` stands for an object
      the model does not look into (a camera frame, an ndarray). */
  datatype Value =
    | VNone
    | VBool(b: bool)
    | VInt(i: int)
    | VFloat(r: real)
    | VStr(s: string)
    | VList(items: seq<Value>)
    | VDict(entries: seq<(string, Value)>)
    | VObject(id: nat)

  /** Whether p occurs in s starting at index i. */
  predicate OccursAt(p: string, s: string, i: int)
  {
    0 <= i <= |s| - |p| && s[i..i + |p|] == p
  }

  /** Python's `p in s` for two strings. */
  predicate IsSubstring(p: string, s: string)
  {
    exists i :: 0 <= i <= |s| - |p| && OccursAt(p, s, i)
  }

  /** Whether a value can be a dict key: lists and dicts are unhashable. */
  predicate Hashable(v: Value)
  {
    !v.VList? && !v.VDict?
  }

  /** Python's bool(v). */
  predicate Truthy(v: Value)
  {
    match v
    case VNone => false
    case VBool(b) => b
    case VInt(i) => i != 0
    case VFloat(r) => r != 0.0
    case VStr(s) => s != []
    case VList(items) => items != []
    case VDict(entries) => entries != []
    case VObject(_) => true
  }

  /** Python's `v == 0` (False == 0 and 0.0 == 0 hold in Python). */
  predicate EqualsZero(v: Value)
  {
    v == VBool(false) || v == VInt(0) || v == VFloat(0.0)
  }

  /** The numeric value Python arithmetic sees, if any (bool counts as 0/1). */
  function Number(v: Value): (r: Option<real>)
    ensures r.Some? <==> (v.VBool? || v.VInt? || v.VFloat?)
    ensures v.VInt? ==> r == Some(v.i as real)
    ensures v.VFloat? ==> r == Some(v.r)
  {
    match v
    case VBool(b) => Some(if b then 1.0 else 0.0)
    case VInt(i) => Some(i as real)
    case VFloat(r) => Some(r)
    case _ => None
  }

  /** `isinstance(v, typing.Iterable)`: strings, lists and dicts are iterable. */
  predicate IsIterable(v: Value)
  {
    v.VStr? || v.VList? || v.VDict?
  }

  /** The items `list.extend(v)` appends for an iterable v: the characters of a
      string (as one-character strings), the items of a list, the keys of a dict. */
  function IterItems(v: Value): (r: seq<Value>)
    requires IsIterable(v)
    ensures v.VStr? ==> |r| == |v.s| && forall i :: 0 <= i < |r| ==> r[i] == VStr([v.s[i]])
    ensures v.VList? ==> r == v.items
    ensures v.VDict? ==> |r| == |v.entries| && forall i :: 0 <= i < |r| ==> r[i] == VStr(v.entries[i].0)
  {
    match v
    case VStr(s) => seq(|s|, i requires 0 <= i < |s| => VStr([s[i]]))
    case VList(items) => items
    case VDict(entries) => seq(|entries|, i requires 0 <= i < |entries| => VStr(entries[i].0))
  }

  // ---------------------------------------------------------------- dicts

  /** `k in d` for a dict given by its entries in insertion order. */
  predicate HasKey(entries: seq<(string, Value)>, k: string)
  {
    exists i :: 0 <= i < |entries| && entries[i].0 == k
  }

  /** `d[k]`: the value stored under the key. */
  function Lookup(entries: seq<(string, Value)>, k: string): (v: Value)
    requires HasKey(entries, k)
    ensures exists i :: 0 <= i < |entries| && entries[i] == (k, v)
  {
    if entries[0].0 == k then entries[0].1 else Lookup(entries[1..], k)
  }

  /** The entries left after removing key k. */
  function Without(entries: seq<(string, Value)>, k: string): (r: seq<(string, Value)>)
    ensures !HasKey(r, k)
    ensures forall e :: e in r <==> e in entries && e.0 != k
  {
    if entries == [] then []
    else if entries[0].0 == k then Without(entries[1..], k)
    else [entries[0]] + Without(entries[1..], k)
  }

  /** `d.pop(k, None)`: the removed value (None when absent) and what remains. */
  function Pop(entries: seq<(string, Value)>, k: string): (r: (Value, seq<(string, Value)>))
    ensures !HasKey(r.1, k)
    ensures forall e :: e in r.1 <==> e in entries && e.0 != k
    ensures !HasKey(entries, k) ==> r.0 == VNone && r.1 == entries
    ensures HasKey(entries, k) ==> r.0 == Lookup(entries, k) && r.1 == Without(entries, k)
  {
    if HasKey(entries, k) then (Lookup(entries, k), Without(entries, k))
    else (VNone, WithoutAbsent(entries, k))
  }

  /** Removing one key leaves every other key, with the value stored under it. */
  lemma {:induction false} LookupWithout(entries: seq<(string, Value)>, k: string, j: string)
    requires k != j && HasKey(entries, j)
    ensures HasKey(Without(entries, k), j) && Lookup(Without(entries, k), j) == Lookup(entries, j)
  {
    var w := Without(entries, k);
    if entries[0].0 == j {
      assert w[0] == entries[0];
    } else {
      var i :| 0 <= i < |entries| && entries[i].0 == j;
      assert entries[1..][i - 1] == entries[i];
      LookupWithout(entries[1..], k, j);
      if entries[0].0 != k {
        var t := Without(entries[1..], k);
        assert w == [entries[0]] + t;
        HasKeyCons(entries[0], t, j);
        assert w[1..] == t;
      }
    }
  }

  lemma HasKeyCons(e: (string, Value), t: seq<(string, Value)>, j: string)
    requires HasKey(t, j)
    ensures HasKey([e] + t, j)
  {
    var m :| 0 <= m < |t| && t[m].0 == j;
    assert ([e] + t)[m + 1] == t[m];
  }

  /** Removing a key that is absent leaves the entries as they are. */
  function WithoutAbsent(entries: seq<(string, Value)>, k: string): (r: seq<(string, Value)>)
    requires !HasKey(entries, k)
    ensures r == entries && r == Without(entries, k)
  {
    WithoutAbsentLemma(entries, k);
    entries
  }

  lemma {:induction false} WithoutAbsentLemma(entries: seq<(string, Value)>, k: string)
    requires !HasKey(entries, k)
    ensures Without(entries, k) == entries
  {
    if entries != [] {
      assert entries[0].0 != k;
      assert !HasKey(entries[1..], k) by {
        forall i | 0 <= i < |entries[1..]| ensures entries[1..][i].0 != k {
          assert entries[1..][i] == entries[i + 1];
        }
      }
      WithoutAbsentLemma(entries[1..], k);
      assert entries == [entries[0]] + entries[1..];
    }
  }

  /** `d[k] = v` on a dict that already holds k: the value is replaced in place. */
  function Replace(entries: seq<(string, Value)>, k: string, v: Value): (r: seq<(string, Value)>)
    ensures |r| == |entries|
    ensures forall i :: 0 <= i < |r| ==> r[i] == (if entries[i].0 == k then (k, v) else entries[i])
  {
    if entries == [] then []
    else [if entries[0].0 == k then (k, v) else entries[0]] + Replace(entries[1..], k, v)
  }

  /** After `d[k] = v`, `d[k]` is v. */
  lemma {:induction false} LookupReplace(entries: seq<(string, Value)>, k: string, v: Value)
    requires HasKey(entries, k)
    ensures HasKey(Replace(entries, k, v), k) && Lookup(Replace(entries, k, v), k) == v
  {
    var r := Replace(entries, k, v);
    assert r[0].0 == k || r[0] == entries[0];
    if entries[0].0 != k {
      var i :| 0 <= i < |entries| && entries[i].0 == k;
      assert entries[1..][i - 1].0 == k;
      LookupReplace(entries[1..], k, v);
      assert r[1..] == Replace(entries[1..], k, v);
    }
  }

  /** Storing the value a key already holds changes nothing. */
  lemma ReplaceSame(entries: seq<(string, Value)>, k: string, v: Value)
    requires forall i :: 0 <= i < |entries| && entries[i].0 == k ==> entries[i].1 == v
    ensures Replace(entries, k, v) == entries
  {
    var r := Replace(entries, k, v);
    assert forall i :: 0 <= i < |r| ==> r[i] == entries[i];
  }

  // ---------------------------------------------------------------- int()

  /** Python's int(x) of a float: truncation toward zero. */
  function Trunc(x: real): (n: int)
    ensures x >= 0.0 ==> n as real <= x < n as real + 1.0
    ensures x < 0.0 ==> n as real - 1.0 < x <= n as real
  {
    if x >= 0.0 then x.Floor else -((-x).Floor)
  }

  lemma TruncOfInteger(n: int)
    ensures Trunc(n as real) == n
  {
  }

  // ---------------------------------------------------------------- str(n) and int(s)

  function DigitChar(d: nat): (c: char)
    requires d < 10
    ensures '0' <= c <= '9' && (c as int) - ('0' as int) == d
  {
    ('0' as int + d) as char
  }

  /** The decimal digits of n, most significant first, as `%d` prints them. */
  function Digits(n: nat): (s: string)
    ensures |s| > 0
    ensures forall i :: 0 <= i < |s| ==> '0' <= s[i] <= '9'
    decreases n
  {
    if n < 10 then [DigitChar(n)] else Digits(n / 10) + [DigitChar(n % 10)]
  }

  /** `'%d' % n` and `str(n)` for an integer. */
  function DecimalString(n: int): (s: string)
    ensures |s| > 0
    ensures n < 0 <==> s[0] == '-'
  {
    if n < 0 then "-" + Digits(-n) else Digits(n)
  }

  /** The value of a string of decimal digits. */
  function DigitsValue(s: string): (n: nat)
    requires forall i :: 0 <= i < |s| ==> '0' <= s[i] <= '9'
    decreases |s|
  {
    if s == [] then 0
    else DigitsValue(s[..|s| - 1]) * 10 + ((s[|s| - 1] as int) - ('0' as int))
  }

  predicate AllDigits(s: string)
  {
    forall i :: 0 <= i < |s| ==> '0' <= s[i] <= '9'
  }

  /** Python's int(s) for a string: an optional sign followed by at least one
      decimal digit; anything else raises ValueError. */
  function ParseInt(s: string): (r: Result<int>)
    ensures r.Err? ==> r.error == ValueError
  {
    if |s| > 1 && (s[0] == '-' || s[0] == '+') && AllDigits(s[1..]) then
      var m: int := DigitsValue(s[1..]);
      Ok(if s[0] == '-' then -m else m)
    else if |s| > 0 && AllDigits(s) then Ok(DigitsValue(s))
    else Err(ValueError)
  }

  lemma {:induction false} DigitsValueOfDigits(n: nat)
    ensures DigitsValue(Digits(n)) == n
    decreases n
  {
    if n >= 10 {
      DigitsValueOfDigits(n / 10);
      var s := Digits(n);
      assert s[..|s| - 1] == Digits(n / 10);
    }
  }

  /** int(str(n)) == n: parsing what `%d` prints gives back the number. */
  lemma ParseDecimal(n: int)
    ensures ParseInt(DecimalString(n)) == Ok(n)
  {
    if n < 0 {
      var d := Digits(-n);
      DigitsValueOfDigits(-n);
      var s := "-" + d;
      assert s == DecimalString(n);
      assert s[1..] == d;
      assert AllDigits(s[1..]);
    } else {
      var s := Digits(n);
      DigitsValueOfDigits(n);
      assert s == DecimalString(n);
      assert AllDigits(s);
      assert '0' <= s[0] <= '9';
    }
  }

  // ---------------------------------------------------------------- '%0Nx'

  function HexDigit(d: nat): (c: char)
    requires d < 16
  {
    "0123456789abcdef"[d]
  }

  /** The lower-case hexadecimal digits of n, most significant first. */
  function HexDigits(n: nat): (s: string)
    ensures |s| > 0
    decreases n
  {
    if n < 16 then [HexDigit(n)] else HexDigits(n / 16) + [HexDigit(n % 16)]
  }

  /** `'%0{width}x' % n`: hexadecimal, left-padded with zeros to `width`. */
  function Hex(n: nat, width: nat): string
  {
    var d := HexDigits(n);
    if |d| >= width then d else seq(width - |d|, _ => '0') + d
  }

  /** `'%0{width}x' % n` is at least `width` long: the hexadecimal digits of
      n, preceded by as many zeros as are needed to reach the width. */
  lemma HexLayout(n: nat, width: nat)
    ensures var s := Hex(n, width);
      |s| == (if |HexDigits(n)| >= width then |HexDigits(n)| else width)
      && s[|s| - |HexDigits(n)|..] == HexDigits(n)
      && forall i :: 0 <= i < |s| - |HexDigits(n)| ==> s[i] == '0'
  {
  }

  // ---------------------------------------------------------------- round(x, 2)

  /** Python's round() of a real to the nearest integer, ties to even. */
  function RoundHalfEven(x: real): (n: int)
    ensures (n as real) - 0.5 <= x <= (n as real) + 0.5
  {
    var f := x.Floor;
    var frac := x - f as real;
    if frac < 0.5 then f
    else if frac > 0.5 then f + 1
    else if f % 2 == 0 then f else f + 1
  }

  /** Python's round(x, 2) over the reals. */
  function Round2(x: real): (r: real)
    ensures -0.005 <= r - x <= 0.005
  {
    (RoundHalfEven(x * 100.0) as real) / 100.0
  }

  /** A number that already has at most two decimals is left unchanged by round(x, 2). */
  lemma Round2OfHundredths(k: int)
    ensures Round2((k as real) / 100.0) == (k as real) / 100.0
  {
    assert ((k as real) / 100.0) * 100.0 == k as real;
  }

  function Min(a: real, b: real): real { if a <= b then a else b }
  function Max(a: real, b: real): real { if a >= b then a else b }
}
