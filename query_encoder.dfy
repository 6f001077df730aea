/**
 * The query encoder behind the impression pixel: an ordered key/value record
 * becomes `k=v&k=v`, every key and value percent-encoded, and a nested record is
 * first turned into its own query string, which is then percent-encoded as one
 * scalar value (double encoding).
 *
 * Beside the encoder stands the decoder a receiving endpoint applies
 * (percent-decoding, splitting on `&` and the first `=`); the round-trip lemmas
 * at the end say that the encoder loses nothing.
 */
module QueryEncoder {

  /** The value of one key: a string, or a nested record. */
  datatype Value = Scalar(s: string) | Nested(entries: seq<Entry>)

  /** One key/value pair of a record. */
  datatype Entry = Entry(key: string, value: Value)

  /** A record with its keys in insertion order, as JavaScript iterates an object. */
  type Query = seq<Entry>

  // ---------------------------------------------------------------------------
  // Percent-encoding (encodeURIComponent, restricted to ASCII)
  // ---------------------------------------------------------------------------

  /** The characters encodeURIComponent leaves alone. */
  predicate Unreserved(c: char) {
    || ('A' <= c <= 'Z')
    || ('a' <= c <= 'z')
    || ('0' <= c <= '9')
    || c == '-' || c == '_' || c == '.' || c == '!' || c == '~'
    || c == '*' || c == '\'' || c == '(' || c == ')'
  }

  const HexDigits: string := "0123456789ABCDEF"

  /** One character as encodeURIComponent writes it: unreserved characters as
      they are, other ASCII characters as `%` and two upper-case hex digits.
      Characters outside ASCII are passed through (UTF-8 is not modelled). */
  function EncodeChar(c: char): (r: string)
    ensures Unreserved(c) ==> r == [c]
    ensures !Unreserved(c) && c as int < 128 ==> |r| == 3 && r[0] == '%'
  {
    if Unreserved(c) || c as int >= 128 then [c]
    else ['%', HexDigits[c as int / 16], HexDigits[c as int % 16]]
  }

  /** encodeURIComponent: each character encoded in turn. */
  function EncodeComponent(s: string): (r: string)
    ensures |s| <= |r| <= 3 * |s|
  {
    if s == [] then [] else EncodeChar(s[0]) + EncodeComponent(s[1..])
  }

  /** No character is encoded as a text holding `&` or `=`. */
  lemma EncodeCharHasNoSeparators(c: char)
    ensures '&' !in EncodeChar(c) && '=' !in EncodeChar(c)
  {
  }

  /** An encoded component never contains the separators `&` and `=`. */
  lemma {:induction false} EncodeHasNoSeparators(s: string)
    ensures '&' !in EncodeComponent(s) && '=' !in EncodeComponent(s)
  {
    if s != [] {
      EncodeCharHasNoSeparators(s[0]);
      EncodeHasNoSeparators(s[1..]);
    }
  }

  /** A string of unreserved characters (letters, digits, `-_.!~*'()`) is encoded as itself. */
  lemma {:induction false} EncodePlain(s: string)
    requires forall i :: 0 <= i < |s| ==> Unreserved(s[i])
    ensures EncodeComponent(s) == s
  {
    if s != [] {
      EncodePlain(s[1..]);
      assert [s[0]] + s[1..] == s;
    }
  }

  /** Encoding works character by character, so it distributes over concatenation. */
  lemma {:induction false} EncodeConcat(a: string, b: string)
    ensures EncodeComponent(a + b) == EncodeComponent(a) + EncodeComponent(b)
  {
    if a == [] {
      assert a + b == b;
    } else {
      assert (a + b)[0] == a[0] && (a + b)[1..] == a[1..] + b;
      EncodeConcat(a[1..], b);
    }
  }

  /** The three separators the query format relies on are always escaped. */
  lemma EncodesSeparators()
    ensures EncodeComponent("/") == "%2F"
    ensures EncodeComponent("=") == "%3D"
    ensures EncodeComponent("&") == "%26"
  {
  }

  // ---------------------------------------------------------------------------
  // Percent-decoding (the inverse, as a receiving endpoint applies it)
  // ---------------------------------------------------------------------------

  predicate IsHex(h: char) {
    ('0' <= h <= '9') || ('A' <= h <= 'F') || ('a' <= h <= 'f')
  }

  function HexValue(h: char): (d: nat)
    requires IsHex(h)
    ensures d < 16
  {
    if '0' <= h <= '9' then h as int - '0' as int
    else if 'A' <= h <= 'F' then h as int - 'A' as int + 10
    else h as int - 'a' as int + 10
  }

  lemma HexDigitsDecode(d: nat)
    requires d < 16
    ensures IsHex(HexDigits[d]) && HexValue(HexDigits[d]) == d
  {
  }

  /** Replaces every `%XY` (two hex digits) by the character with that code;
      anything else is kept. */
  function DecodeComponent(s: string): string
  {
    if s == [] then []
    else if |s| >= 3 && s[0] == '%' && IsHex(s[1]) && IsHex(s[2]) then
      [(HexValue(s[1]) * 16 + HexValue(s[2])) as char] + DecodeComponent(s[3..])
    else [s[0]] + DecodeComponent(s[1..])
  }

  lemma DecodeEncodeChar(c: char, rest: string)
    ensures DecodeComponent(EncodeChar(c) + rest) == [c] + DecodeComponent(rest)
  {
    var e := EncodeChar(c) + rest;
    if Unreserved(c) || c as int >= 128 {
      assert e[0] == c && c != '%' && e[1..] == rest;
    } else {
      HexDigitsDecode(c as int / 16);
      HexDigitsDecode(c as int % 16);
      assert e[0] == '%' && e[1] == HexDigits[c as int / 16] && e[2] == HexDigits[c as int % 16];
      assert e[3..] == rest;
    }
  }

  /** Decoding undoes encoding. */
  lemma {:induction false} DecodeEncode(s: string)
    ensures DecodeComponent(EncodeComponent(s)) == s
  {
    if s != [] {
      DecodeEncodeChar(s[0], EncodeComponent(s[1..]));
      DecodeEncode(s[1..]);
    }
  }

  // ---------------------------------------------------------------------------
  // stringify
  // ---------------------------------------------------------------------------

  /** The text a value contributes before it is percent-encoded: a scalar as it
      is, a nested record as its own query string. */
  function ValueText(v: Value): string
  {
    match v
    case Scalar(s) => s
    case Nested(inner) => Stringify(inner)
  }

  /** `key=value`, both percent-encoded. */
  function Pair(e: Entry): string
  {
    EncodeComponent(e.key) + "=" + EncodeComponent(ValueText(e.value))
  }

  /** The pairs of `q`, in order, joined by `&`. */
  function Stringify(q: Query): (r: string)
    ensures r == [] <==> q == []
  {
    if q == [] then ""
    else if |q| == 1 then Pair(q[0])
    else Pair(q[0]) + "&" + Stringify(q[1..])
  }

  // ---------------------------------------------------------------------------
  // Parsing a query string back
  // ---------------------------------------------------------------------------

  /** Splits `s` at every occurrence of `sep`. */
  function SplitOn(s: string, sep: char): (r: seq<string>)
    ensures |r| >= 1
  {
    if s == [] then [[]]
    else
      var rest := SplitOn(s[1..], sep);
      if s[0] == sep then [[]] + rest else [[s[0]] + rest[0]] + rest[1..]
  }

  /** Splits one pair at its first `=`; a pair without `=` has an empty value. */
  function SplitPair(p: string): (string, string)
  {
    if p == [] then ([], [])
    else if p[0] == '=' then ([], p[1..])
    else var kv := SplitPair(p[1..]); ([p[0]] + kv.0, kv.1)
  }

  function ParsePairs(ps: seq<string>): (r: Query)
    ensures |r| == |ps|
  {
    if ps == [] then []
    else
      var kv := SplitPair(ps[0]);
      [Entry(DecodeComponent(kv.0), Scalar(DecodeComponent(kv.1)))] + ParsePairs(ps[1..])
  }

  /** What a receiving endpoint reads out of a query string: flat pairs of
      decoded strings. */
  function ParseQuery(s: string): Query
  {
    if s == [] then [] else ParsePairs(SplitOn(s, '&'))
  }

  /** `q` with every nested record replaced by the scalar text stringify sends
      for it: what the receiver sees. */
  function Flatten(q: Query): (r: Query)
    ensures |r| == |q|
  {
    if q == [] then [] else [Entry(q[0].key, Scalar(ValueText(q[0].value)))] + Flatten(q[1..])
  }

  /** Every value of `q` is a scalar. */
  predicate IsFlat(q: Query) {
    forall i :: 0 <= i < |q| ==> q[i].value.Scalar?
  }

  lemma {:induction false} SplitOnWithout(a: string, sep: char)
    requires sep !in a
    ensures SplitOn(a, sep) == [a]
  {
    if a != [] {
      assert a[0] != sep;
      SplitOnWithout(a[1..], sep);
      assert [a[0]] + a[1..] == a;
    }
  }

  lemma {:induction false} SplitOnFirst(a: string, sep: char, b: string)
    requires sep !in a
    ensures SplitOn(a + [sep] + b, sep) == [a] + SplitOn(b, sep)
  {
    if a == [] {
      assert a + [sep] + b == [sep] + b;
      assert ([sep] + b)[1..] == b;
    } else {
      assert (a + [sep] + b)[1..] == a[1..] + [sep] + b;
      SplitOnFirst(a[1..], sep, b);
      assert [a[0]] + a[1..] == a;
    }
  }

  lemma {:induction false} SplitPairAt(k: string, v: string)
    requires '=' !in k
    ensures SplitPair(k + "=" + v) == (k, v)
  {
    if k == [] {
      assert k + "=" + v == ['='] + v;
      assert (['='] + v)[1..] == v;
    } else {
      assert (k + "=" + v)[1..] == k[1..] + "=" + v;
      SplitPairAt(k[1..], v);
      assert [k[0]] + k[1..] == k;
    }
  }

  /** The receiver recovers each entry of a pair exactly. */
  lemma ParsePair(e: Entry)
    ensures '&' !in Pair(e) && Pair(e) != []
    ensures ParsePairs([Pair(e)]) == [Entry(e.key, Scalar(ValueText(e.value)))]
  {
    var k, v := EncodeComponent(e.key), EncodeComponent(ValueText(e.value));
    EncodeHasNoSeparators(e.key);
    EncodeHasNoSeparators(ValueText(e.value));
    assert Pair(e) == k + "=" + v;
    assert Pair(e)[|k|] == '=';
    SplitPairAt(k, v);
    DecodeEncode(e.key);
    DecodeEncode(ValueText(e.value));
  }

  /**
   * The round trip of stringify: the receiver reads back every key and every
   * value, in insertion order; a nested record arrives as its own query string.
   */
  lemma {:induction false} ParseStringify(q: Query)
    ensures ParseQuery(Stringify(q)) == Flatten(q)
  {
    if |q| == 1 {
      ParsePair(q[0]);
      SplitOnWithout(Pair(q[0]), '&');
    } else if |q| > 1 {
      ParsePair(q[0]);
      SplitOnFirst(Pair(q[0]), '&', Stringify(q[1..]));
      assert Stringify(q) == Pair(q[0]) + ['&'] + Stringify(q[1..]);
      ParseStringify(q[1..]);
      assert Stringify(q[1..]) != [] by {
        ParsePair(q[1]);
        assert Stringify(q[1..])[..|Pair(q[1])|] == Pair(q[1]);
      }
    }
  }

  lemma {:induction false} FlattenFlat(q: Query)
    requires IsFlat(q)
    ensures Flatten(q) == q
  {
    if q != [] {
      FlattenFlat(q[1..]);
    }
  }

  /** For a flat record the round trip is exact. */
  lemma FlatRoundTrip(q: Query)
    requires IsFlat(q)
    ensures ParseQuery(Stringify(q)) == q
  {
    ParseStringify(q);
    FlattenFlat(q);
  }

  /** Double encoding: the value the receiver reads for a nested key is the
      nested record's own query string, and parsing that gives the nested
      record back (flattened). Inner `=` and `&` never split the outer pair. */
  lemma NestedRoundTrip(q: Query, i: nat)
    requires i < |q| && q[i].value.Nested?
    ensures |ParseQuery(Stringify(q))| == |q|
    ensures ParseQuery(Stringify(q))[i] == Entry(q[i].key, Scalar(Stringify(q[i].value.entries)))
    ensures ParseQuery(ParseQuery(Stringify(q))[i].value.s) == Flatten(q[i].value.entries)
  {
    ParseStringify(q);
    FlattenAt(q, i);
    ParseStringify(q[i].value.entries);
  }

  lemma {:induction false} FlattenAt(q: Query, i: nat)
    requires i < |q|
    ensures Flatten(q)[i] == Entry(q[i].key, Scalar(ValueText(q[i].value)))
  {
    if i > 0 {
      FlattenAt(q[1..], i - 1);
    }
  }
}
