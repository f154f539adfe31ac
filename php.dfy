/**
 * The slice of PHP value semantics the extension relies on: loose
 * comparison with the empty string, `(int)` and `(string)` casts, array-key
 * coercion and the 32-bit id wrapper used for document ids.
 */
module Php {
  import opened Wrappers
  import opened Digits

  /** A scalar PHP value as it travels between MySQL rows, product data and documents. */
  datatype Value = Null | Bool(b: bool) | Int(i: int) | Str(s: string) | Obj(text: string)

  /** PHP's `md5()`, an uninterpreted hash from a string to its hex digest. */
  type Md5 = string -> string

  function IntToString(i: int): (s: string)
    ensures s != []
  {
    if i >= 0 then NatToString(i) else "-" + NatToString(-i)
  }

  /** `(string) $v`; an object is cast through its string conversion. */
  function ToPhpString(v: Value): string
  {
    match v
    case Null => ""
    case Bool(b) => if b then "1" else ""
    case Int(i) => IntToString(i)
    case Str(s) => s
    case Obj(t) => t
  }

  /** `$v == ''` under PHP 7 loose comparison. */
  predicate LooselyEmpty(v: Value)
  {
    match v
    case Null => true
    case Bool(b) => !b
    case Int(i) => i == 0
    case Str(s) => s == ""
    case Obj(t) => t == ""
  }

  /** `empty($v)`: null, false, 0, "" and "0"; an object is never empty. */
  predicate PhpEmpty(v: Value)
  {
    match v
    case Null => true
    case Bool(b) => !b
    case Int(i) => i == 0
    case Str(s) => s == "" || s == "0"
    case Obj(_) => false
  }

  /** Leading decimal integer of a string, with an optional sign; 0 when there is none. */
  function LeadingInt(s: string): int
  {
    if s != [] && s[0] == '-' then 0 - LeadingNat(s[1..])
    else if s != [] && s[0] == '+' then LeadingNat(s[1..])
    else LeadingNat(s)
  }

  function LeadingDigits(s: string): (p: string)
    ensures AllDigits(p) && |p| <= |s| && p == s[..|p|]
    ensures |p| < |s| ==> !IsDigit(s[|p|])
  {
    if s != [] && IsDigit(s[0]) then [s[0]] + LeadingDigits(s[1..]) else []
  }

  function LeadingNat(s: string): nat
  {
    DigitsValue(LeadingDigits(s))
  }

  /** `(int) $v`. */
  function IntCast(v: Value): int
  {
    match v
    case Null => 0
    case Bool(b) => if b then 1 else 0
    case Int(i) => i
    case Str(s) => LeadingInt(s)
    case Obj(_) => 1
  }

  const TwoTo32: int := 0x1_0000_0000
  const TwoTo31: int := 0x8000_0000

  predicate IsInt32(i: int) { -TwoTo31 <= i < TwoTo31 }

  /** `new MongoInt32($x)`: the two's-complement 32-bit wrap of an integer id. */
  function ToInt32(i: int): (r: int)
    ensures IsInt32(r)
    ensures (r - i) % TwoTo32 == 0
    ensures IsInt32(i) ==> r == i
  {
    (i + TwoTo31) % TwoTo32 - TwoTo31
  }

  /** A PHP array key: integers, and strings that do not spell a canonical integer. */
  datatype Key = IntKey(n: int) | StrKey(s: string)

  /** The key PHP uses for `$array[$v]`. */
  function KeyOf(v: Value): Key
  {
    match v
    case Null => StrKey("")
    case Bool(b) => IntKey(if b then 1 else 0)
    case Int(i) => IntKey(i)
    case Str(s) => StringKey(s)
    case Obj(t) => StringKey(t)
  }

  /** PHP_INT_MAX on a 64-bit build. */
  const PhpIntMax: int := 0x7FFF_FFFF_FFFF_FFFF

  /**
   * A string key is stored as an integer key exactly when it is the
   * canonical rendering of an integer in PHP_INT_MIN..PHP_INT_MAX.
   */
  function StringKey(s: string): (k: Key)
    ensures k.IntKey? ==> IntToString(k.n) == s && -PhpIntMax - 1 <= k.n <= PhpIntMax
  {
    if Canonical(s) && DigitsValue(s) <= PhpIntMax then
      NatToStringOfParseNat(s);
      IntKey(DigitsValue(s))
    else if |s| > 1 && s[0] == '-' && Canonical(s[1..]) && s[1] != '0' && DigitsValue(s[1..]) <= PhpIntMax + 1 then
      NatToStringOfParseNat(s[1..]);
      LeadingNonZeroPositive(s[1..]);
      assert s == "-" + s[1..];
      IntKey(0 - DigitsValue(s[1..]))
    else StrKey(s)
  }

  /**
   * The decimal rendering of an integer is an integer key exactly inside
   * PHP_INT_MIN..PHP_INT_MAX; outside it stays a string key.
   */
  lemma StringKeyOfInt(n: int)
    ensures StringKey(IntToString(n)) ==
      if -PhpIntMax - 1 <= n <= PhpIntMax then IntKey(n) else StrKey(IntToString(n))
  {
    if n >= 0 {
      NatToStringCanonical(n);
      DigitsValueOfNatToString(n);
    } else {
      var t := NatToString(-n);
      NatToStringCanonical(-n);
      DigitsValueOfNatToString(-n);
      var s := IntToString(n);
      assert s[1..] == t;
    }
  }

  /** Byte-wise (code point) ordering of strings, as the document store compares string values. */
  predicate StrLess(a: string, b: string)
    decreases |a|
  {
    if a == [] then b != []
    else if b == [] then false
    else if a[0] != b[0] then a[0] < b[0]
    else StrLess(a[1..], b[1..])
  }

  /** The order `ksort` puts keys in: integer keys numerically, then string keys. */
  predicate KeyLess(a: Key, b: Key)
  {
    match (a, b)
    case (IntKey(x), IntKey(y)) => x < y
    case (IntKey(_), StrKey(_)) => true
    case (StrKey(_), IntKey(_)) => false
    case (StrKey(x), StrKey(y)) => StrLess(x, y)
  }

  lemma {:induction false} StrLessTrichotomy(a: string, b: string)
    ensures a == b || StrLess(a, b) || StrLess(b, a)
    ensures !(StrLess(a, b) && StrLess(b, a))
    decreases |a|
  {
    if a != [] && b != [] && a[0] == b[0] {
      StrLessTrichotomy(a[1..], b[1..]);
      if a[1..] == b[1..] {
        assert a == [a[0]] + a[1..] && b == [b[0]] + b[1..];
      }
    }
  }

  lemma {:induction false} StrLessTransitive(a: string, b: string, c: string)
    requires StrLess(a, b) && StrLess(b, c)
    ensures StrLess(a, c)
    decreases |a|
  {
    if a != [] && a[0] == b[0] && b[0] == c[0] {
      StrLessTransitive(a[1..], b[1..], c[1..]);
    }
  }

  /** `KeyLess` is a strict total order, so a key-sorted array is well defined. */
  lemma KeyLessTotal(a: Key, b: Key)
    ensures a == b || KeyLess(a, b) || KeyLess(b, a)
    ensures !(KeyLess(a, b) && KeyLess(b, a))
  {
    if a.StrKey? && b.StrKey? {
      StrLessTrichotomy(a.s, b.s);
    }
  }

  lemma KeyLessTransitive(a: Key, b: Key, c: Key)
    requires KeyLess(a, b) && KeyLess(b, c)
    ensures KeyLess(a, c)
  {
    if a.StrKey? && b.StrKey? && c.StrKey? {
      StrLessTransitive(a.s, b.s, c.s);
    }
  }
}
