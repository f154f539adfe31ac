/**
 * The scope key codec: store id -> `attr_<store>` and (store, attribute
 * code) -> `attr_<store>.<code>`. Every writer and reader of the scoped
 * product document builds its field names this way, so the model decodes
 * them back, and the two round trips below are what keep paths written by
 * one component readable by the others.
 */
module ScopeCodec {
  import opened Wrappers
  import opened Digits

  const Prefix: string := "attr_"

  /** Store 0, the default (admin) scope every other store falls back to. */
  const DefaultStore: nat := 0

  function StoreKey(store: nat): string
  {
    Prefix + NatToString(store)
  }

  function FieldPath(store: nat, code: string): string
  {
    StoreKey(store) + "." + code
  }

  /** Index of the first occurrence of `c` in `s`. */
  function IndexOf(s: string, c: char): (r: Option<nat>)
    ensures r.Some? ==> r.value < |s| && s[r.value] == c && forall j :: 0 <= j < r.value ==> s[j] != c
    ensures r.None? ==> forall j :: 0 <= j < |s| ==> s[j] != c
  {
    if s == [] then None
    else if s[0] == c then Some(0)
    else match IndexOf(s[1..], c)
      case None => None
      case Some(i) => Some(i + 1)
  }

  function ParseStoreKey(key: string): Option<nat>
  {
    if |key| >= |Prefix| && key[..|Prefix|] == Prefix then ParseNat(key[|Prefix|..]) else None
  }

  /** Splits `attr_<store>.<code>` at the first dot; the store part must be a canonical decimal. */
  function ParseFieldPath(path: string): Option<(nat, string)>
  {
    if |path| >= |Prefix| && path[..|Prefix|] == Prefix then
      var rest := path[|Prefix|..];
      match IndexOf(rest, '.')
      case None => None
      case Some(i) =>
        match ParseNat(rest[..i])
        case None => None
        case Some(store) => Some((store, rest[i + 1..]))
    else None
  }

  lemma StoreKeyRoundTrip(store: nat)
    ensures ParseStoreKey(StoreKey(store)) == Some(store)
  {
    var k := StoreKey(store);
    assert k[..|Prefix|] == Prefix && k[|Prefix|..] == NatToString(store);
    ParseNatOfNatToString(store);
  }

  /** Decoding a key gives back exactly the key it was encoded from. */
  lemma StoreKeyCanonical(key: string)
    requires ParseStoreKey(key).Some?
    ensures StoreKey(ParseStoreKey(key).value) == key
  {
    var digits := key[|Prefix|..];
    NatToStringOfParseNat(digits);
    assert key == key[..|Prefix|] + digits;
  }

  /** Decoding an encoded path gives back the store and the code, whatever the code contains. */
  lemma {:induction false} FieldPathRoundTrip(store: nat, code: string)
    ensures ParseFieldPath(FieldPath(store, code)) == Some((store, code))
  {
    var digits := NatToString(store);
    var p := FieldPath(store, code);
    NatToStringCanonical(store);
    ParseNatOfNatToString(store);
    assert p == Prefix + (digits + "." + code);
    var rest := p[|Prefix|..];
    assert rest == digits + "." + code;
    assert forall j :: 0 <= j < |digits| ==> IsDigit(digits[j]);
    DotAfterDigits(digits, code);
  }

  /** In digits, a dot and a code, the first dot is the one after the digits. */
  lemma DotAfterDigits(digits: string, code: string)
    requires forall j :: 0 <= j < |digits| ==> IsDigit(digits[j])
    ensures IndexOf(digits + "." + code, '.') == Some(|digits|)
    ensures (digits + "." + code)[..|digits|] == digits && (digits + "." + code)[|digits| + 1..] == code
  {
    var rest := digits + "." + code;
    assert rest[|digits|] == '.';
    assert forall j :: 0 <= j < |digits| ==> rest[j] == digits[j];
  }

  /** A decodable path is the encoding of what it decodes to: paths and (store, code) pairs correspond one to one. */
  lemma FieldPathCanonical(path: string)
    requires ParseFieldPath(path).Some?
    ensures FieldPath(ParseFieldPath(path).value.0, ParseFieldPath(path).value.1) == path
  {
    var rest := path[|Prefix|..];
    var i := IndexOf(rest, '.').value;
    NatToStringOfParseNat(rest[..i]);
    assert rest == rest[..i] + "." + rest[i + 1..];
    assert path == Prefix + rest;
  }

  lemma FieldPathInjective(s1: nat, c1: string, s2: nat, c2: string)
    requires FieldPath(s1, c1) == FieldPath(s2, c2)
    ensures s1 == s2 && c1 == c2
  {
    FieldPathRoundTrip(s1, c1);
    FieldPathRoundTrip(s2, c2);
  }

  /** A field path is never mistaken for a bare scope key, and vice versa. */
  lemma FieldPathIsNotStoreKey(store: nat, code: string)
    ensures ParseStoreKey(FieldPath(store, code)).None?
  {
    var p := FieldPath(store, code);
    var digits := NatToString(store);
    assert p == Prefix + (digits + "." + code);
    assert p[|Prefix|..] == digits + "." + code;
    assert !IsDigit(p[|Prefix|..][|digits|]);
  }

  lemma AllFieldPathsRoundTrip()
    ensures forall s: nat, c: string {:trigger FieldPath(s, c)} :: ParseFieldPath(FieldPath(s, c)) == Some((s, c))
  {
    forall s: nat, c: string ensures ParseFieldPath(FieldPath(s, c)) == Some((s, c)) {
      FieldPathRoundTrip(s, c);
    }
  }

  lemma AllParsedPathsCanonical()
    ensures forall p {:trigger ParseFieldPath(p)} :: ParseFieldPath(p).Some? ==> FieldPath(ParseFieldPath(p).value.0, ParseFieldPath(p).value.1) == p
  {
    forall p | ParseFieldPath(p).Some? ensures FieldPath(ParseFieldPath(p).value.0, ParseFieldPath(p).value.1) == p {
      FieldPathCanonical(p);
    }
  }

  lemma AllStoreKeysRoundTrip()
    ensures forall s: nat {:trigger StoreKey(s)} :: ParseStoreKey(StoreKey(s)) == Some(s)
    ensures forall k {:trigger ParseStoreKey(k)} :: ParseStoreKey(k).Some? ==> StoreKey(ParseStoreKey(k).value) == k
  {
    forall s: nat ensures ParseStoreKey(StoreKey(s)) == Some(s) { StoreKeyRoundTrip(s); }
    forall k | ParseStoreKey(k).Some? ensures StoreKey(ParseStoreKey(k).value) == k { StoreKeyCanonical(k); }
  }
}
