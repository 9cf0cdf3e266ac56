/** The DER writer, and the PrivateKeyInfo it puts around an RSA key. */
module Der {
  import opened Basics

  // Definite lengths as in section 8.1.3 of ITU-T X.690, in the fewest octets as section 10.1
  // demands; the PrivateKeyInfo of section 5 of RFC 5208.

  type Byte = n: nat | n < 256

  const WORD := 0x1_0000_0000

  // ---------------------------------------------------------------- writing

  /** The octets the loop prepends: an unsigned 32-bit shift after each. */
  function LengthOctets(remaining: nat): seq<Byte> {
    if remaining == 0 then [] else
      OctetsBound(remaining);
      LengthOctets((remaining % WORD) / 256) + [remaining % 256]
  }

  lemma OctetsBound(remaining: nat)
    ensures remaining > 0 ==> (remaining % WORD) / 256 < remaining
  {
  }

  lemma OctetsFit(n: nat)
    ensures |LengthOctets(n)| <= 4
  {
    if n > 0 {
      var a := (n % WORD) / 256;
      OctetsSmall(a, 3);
    }
  }

  function Power256(k: nat): nat {
    if k == 0 then 1 else 256 * Power256(k - 1)
  }

  lemma {:induction false} OctetsSmall(n: nat, k: nat)
    requires n < Power256(k) && n < WORD
    ensures |LengthOctets(n)| <= k
  {
    if n > 0 {
      assert n % WORD == n;
      OctetsSmall(n / 256, k - 1);
    }
  }

  function Length(n: nat): (r: seq<Byte>)
    ensures r != []
  {
    if n < 0x80 then [n]
    else
      OctetsFit(n);
      [0x80 + |LengthOctets(n)|] + LengthOctets(n)
  }

  function Element(tag: Byte, contents: seq<Byte>): seq<Byte> {
    [tag] + Length(|contents|) + contents
  }

  lemma NoOctets()
    ensures LengthOctets(0) == []
  {
  }

  lemma OctetsUnfold(n: nat)
    requires n > 0
    ensures LengthOctets(n) == LengthOctets((n % WORD) / 256) + [n % 256]
  {
  }

  method DerLength(length: nat) returns (r: seq<Byte>)
    ensures r == Length(length)
  {
    if length < 0x80 { return [length]; }
    hide LengthOctets;
    NoOctets();
    var bytes: seq<Byte> := [];
    var remaining: nat := length;
    while remaining > 0
      invariant LengthOctets(remaining) + bytes == LengthOctets(length)
    {
      OctetsBound(remaining);
      OctetsUnfold(remaining);
      var rest := (remaining % WORD) / 256;
      assert LengthOctets(rest) + ([remaining % 256] + bytes) == (LengthOctets(rest) + [remaining % 256]) + bytes;
      bytes := [remaining % 256] + bytes;
      remaining := rest;
    }
    OctetsFit(length);
    return [0x80 + |bytes|] + bytes;
  }

  function Concat(values: seq<seq<Byte>>): seq<Byte> {
    if values == [] then [] else Concat(values[..|values| - 1]) + values[|values| - 1]
  }

  /** Fills one buffer by offset. */
  method ConcatenateBytes(values: seq<seq<Byte>>) returns (combined: array<Byte>)
    ensures combined[..] == Concat(values) && fresh(combined)
  {
    var total := 0;
    var i := 0;
    while i < |values|
      invariant 0 <= i <= |values| && total == |Concat(values[..i])|
    {
      assert values[..i + 1][..i] == values[..i];
      total := total + |values[i]|;
      i := i + 1;
    }
    assert values[..i] == values;
    combined := new Byte[total](_ => 0);
    var offset := 0;
    i := 0;
    while i < |values|
      invariant 0 <= i <= |values| && offset == |Concat(values[..i])| <= total
      invariant combined[..offset] == Concat(values[..i])
    {
      assert values[..i + 1][..i] == values[..i];
      PrefixFits(values, i + 1);
      offset := CopyInto(combined, offset, values[i]);
      i := i + 1;
    }
    assert values[..i] == values;
    assert combined[..offset] == combined[..];
  }

  method CopyInto(combined: array<Byte>, offset: nat, value: seq<Byte>) returns (after: nat)
    requires offset + |value| <= combined.Length
    modifies combined
    ensures after == offset + |value| && combined[..after] == old(combined[..offset]) + value
  {
    var k := 0;
    while k < |value|
      invariant 0 <= k <= |value|
      invariant combined[..offset + k] == old(combined[..offset]) + value[..k]
    {
      combined[offset + k] := value[k];
      assert combined[..offset + k + 1] == combined[..offset + k] + [value[k]];
      assert value[..k + 1] == value[..k] + [value[k]];
      k := k + 1;
    }
    assert value[..k] == value;
    after := offset + |value|;
  }

  lemma {:induction false} PrefixFits(values: seq<seq<Byte>>, i: nat)
    requires i <= |values|
    ensures |Concat(values[..i])| <= |Concat(values)|
    decreases |values| - i
  {
    if i < |values| {
      assert values[..i + 1][..i] == values[..i];
      PrefixFits(values, i + 1);
    } else {
      assert values[..i] == values;
    }
  }

  method DerElement(tag: Byte, contents: seq<Byte>) returns (r: seq<Byte>)
    ensures r == Element(tag, contents)
  {
    var length := DerLength(|contents|);
    var parts := [[tag], length, contents];
    var combined := ConcatenateBytes(parts);
    ConcatThree([tag], length, contents);
    r := combined[..];
  }

  lemma ConcatThree(a: seq<Byte>, b: seq<Byte>, c: seq<Byte>)
    ensures Concat([a, b, c]) == a + b + c
  {
    assert [a, b, c][..2] == [a, b] && [a, b][..1] == [a] && [a][..0] == [];
    assert Concat([a]) == a;
    assert Concat([a, b]) == a + b;
  }

  // ---------------------------------------------------------------- reading

  function Value(octets: seq<Byte>): nat {
    if octets == [] then 0 else 256 * Value(octets[..|octets| - 1]) + octets[|octets| - 1]
  }

  /** Definite lengths: one octet below 128, or 128 plus the number of octets that follow. */
  function ReadLength(s: seq<Byte>): Option<(nat, seq<Byte>)> {
    if s == [] then None
    else if s[0] < 0x80 then Some((s[0], s[1..]))
    else
      var k := s[0] - 0x80;
      if k == 0 || |s| < 1 + k then None else Some((Value(s[1..1 + k]), s[1 + k..]))
  }

  /** Tag, contents and what follows the first element. */
  function ReadElement(s: seq<Byte>): Option<(Byte, seq<Byte>, seq<Byte>)> {
    if s == [] then None
    else match ReadLength(s[1..])
      case None => None
      case Some((n, rest)) => if |rest| < n then None else Some((s[0], rest[..n], rest[n..]))
  }

  // ---------------------------------------------------------------- round trip

  lemma {:induction false} OctetsValue(n: nat)
    requires n < WORD
    ensures Value(LengthOctets(n)) == n
  {
    if n > 0 {
      assert n % WORD == n;
      OctetsValue(n / 256);
      assert LengthOctets(n)[..|LengthOctets(n)| - 1] == LengthOctets(n / 256);
    }
  }

  /** A longer length keeps only its lowest 32 bits. */
  lemma LongOctetsValue(n: nat)
    requires n >= WORD
    ensures Value(LengthOctets(n)) == n % WORD
  {
    var a := (n % WORD) / 256;
    OctetsValue(a);
    assert LengthOctets(n)[..|LengthOctets(n)| - 1] == LengthOctets(a);
    assert n % 256 == (n % WORD) % 256 by {
      assert n == WORD * (n / WORD) + n % WORD;
      assert WORD == 256 * 0x100_0000;
      ModuloDrops(n % WORD, 0x100_0000 * (n / WORD));
    }
  }

  lemma ModuloDrops(a: nat, q: nat)
    ensures (256 * q + a) % 256 == a % 256
  {
  }

  /** What a written length reads back as, for every length. */
  lemma LengthReads(n: nat, suffix: seq<Byte>)
    ensures ReadLength(Length(n) + suffix) == Some((if n < WORD then n else n % WORD, suffix))
  {
    var s := Length(n) + suffix;
    if n < 0x80 {
      assert s[1..] == suffix;
    } else {
      var octets := LengthOctets(n);
      if n < WORD { OctetsValue(n); } else { LongOctetsValue(n); }
      OctetsFit(n);
      assert |octets| > 0 && s[0] == 0x80 + |octets|;
      assert s[1..1 + |octets|] == octets && s[1 + |octets|..] == suffix;
    }
  }

  /** Lengths are written faithfully exactly below 2^32. */
  lemma LengthRoundTripsExactly(n: nat, suffix: seq<Byte>)
    ensures ReadLength(Length(n) + suffix) == Some((n, suffix)) <==> n < WORD
  {
    LengthReads(n, suffix);
  }

  /** Any element below 2^32 octets reads back, whatever follows it. */
  lemma ElementRoundTrips(tag: Byte, contents: seq<Byte>, suffix: seq<Byte>)
    requires |contents| < WORD
    ensures ReadElement(Element(tag, contents) + suffix) == Some((tag, contents, suffix))
  {
    hide Length, ReadLength;
    var s, rest := Element(tag, contents) + suffix, contents + suffix;
    LengthReads(|contents|, rest);
    assert s[1..] == Length(|contents|) + rest && s[0] == tag;
    assert rest[..|contents|] == contents && rest[|contents|..] == suffix;
  }

  /** Streams of elements can be taken apart in one way only. */
  lemma ElementsAreUnique(t: Byte, a: seq<Byte>, x: seq<Byte>, u: Byte, b: seq<Byte>, y: seq<Byte>)
    requires |a| < WORD && |b| < WORD && Element(t, a) + x == Element(u, b) + y
    ensures t == u && a == b && x == y
  {
    ElementRoundTrips(t, a, x);
    ElementRoundTrips(u, b, y);
  }

  // ---------------------------------------------------------------- minimality

  lemma {:induction false} FirstOctetNotZero(n: nat)
    requires 0 < n < WORD
    ensures LengthOctets(n) != [] && LengthOctets(n)[0] != 0
    ensures Power256(|LengthOctets(n)| - 1) <= n
  {
    assert n % WORD == n;
    if n >= 256 {
      FirstOctetNotZero(n / 256);
    } else {
      assert LengthOctets(n) == [] + [n % 256];
    }
  }

  lemma {:induction false} ValueBelow(octets: seq<Byte>)
    ensures Value(octets) < Power256(|octets|)
  {
    if octets != [] { ValueBelow(octets[..|octets| - 1]); }
  }

  lemma {:induction false} PowerGrows(j: nat, k: nat)
    requires j <= k
    ensures Power256(j) <= Power256(k)
  {
    if j < k { PowerGrows(j, k - 1); }
  }

  /** The long form starts with no zero octet and is the shortest that carries the length. */
  lemma LengthIsMinimal(n: nat, other: seq<Byte>)
    requires n < WORD && ReadLength(other) == Some((n, []))
    ensures |Length(n)| <= |other|
    ensures n >= 0x80 ==> Length(n)[1] != 0
  {
    if n >= 0x80 {
      FirstOctetNotZero(n);
      var octets := other[1..];
      assert other[0] >= 0x80 && octets == other[1..1 + (other[0] - 0x80)];
      ValueBelow(octets);
      if |octets| < |LengthOctets(n)| {
        PowerGrows(|octets|, |LengthOctets(n)| - 1);
      }
    }
  }

  // ---------------------------------------------------------------- PKCS #8

  const VERSION: seq<Byte> := [0x02, 0x01, 0x00]
  const RSA_ALGORITHM: seq<Byte> :=
    [0x30, 0x0d, 0x06, 0x09, 0x2a, 0x86, 0x48, 0x86, 0xf7, 0x0d, 0x01, 0x01, 0x01, 0x05, 0x00]

  function PrivateKeyInfo(pkcs1: seq<Byte>): seq<Byte> {
    Element(0x30, VERSION + RSA_ALGORITHM + Element(0x04, pkcs1))
  }

  method WrapPkcs1(pkcs1: seq<Byte>) returns (r: seq<Byte>)
    ensures r == PrivateKeyInfo(pkcs1)
  {
    var octets := DerElement(0x04, pkcs1);
    var contents := ConcatenateBytes([VERSION, RSA_ALGORITHM, octets]);
    ConcatThree(VERSION, RSA_ALGORITHM, octets);
    r := DerElement(0x30, contents[..]);
  }

  /** The private key octets of a PrivateKeyInfo with version 0 and the given algorithm. */
  function Unwrap(s: seq<Byte>, algorithm: seq<Byte>): Option<seq<Byte>> {
    match ReadElement(s)
    case None => None
    case Some((tag, body, rest)) =>
      if tag != 0x30 || rest != [] then None
      else match ReadElement(body)
        case None => None
        case Some((tag1, version, rest1)) =>
          if tag1 != 0x02 || version != [0] then None
          else match ReadElement(rest1)
            case None => None
            case Some((tag2, identifier, rest2)) =>
              if tag2 != 0x30 || Element(tag2, identifier) != algorithm then None
              else match ReadElement(rest2)
                case None => None
                case Some((tag3, key, rest3)) => if tag3 == 0x04 && rest3 == [] then Some(key) else None
  }

  lemma VersionReads(rest: seq<Byte>)
    ensures ReadElement(VERSION + rest) == Some((0x02, [0x00], rest))
  {
    assert VERSION == Element(0x02, [0x00]);
    ElementRoundTrips(0x02, [0x00], rest);
  }

  lemma AlgorithmReads(rest: seq<Byte>)
    ensures RSA_ALGORITHM == Element(0x30, RSA_ALGORITHM[2..])
    ensures ReadElement(RSA_ALGORITHM + rest) == Some((0x30, RSA_ALGORITHM[2..], rest))
  {
    assert RSA_ALGORITHM == [0x30] + Length(13) + RSA_ALGORITHM[2..];
    ElementRoundTrips(0x30, RSA_ALGORITHM[2..], rest);
  }

  /** Seven bits to an octet, the high bit set. */
  function HighOctets(n: nat): seq<Byte> {
    if n == 0 then [] else HighOctets(n / 128) + [128 + n % 128]
  }

  /** One number of an object identifier, as section 8.19 of X.690 writes it. */
  function Arc(n: nat): seq<Byte> {
    HighOctets(n / 128) + [n % 128]
  }

  lemma ArcsOfRsa()
    ensures Arc(840) == [0x86, 0x48] && Arc(113549) == [0x86, 0xf7, 0x0d] && Arc(1) == [0x01]
  {
    assert HighOctets(0) == [] && HighOctets(6) == [0x86] && HighOctets(887) == [0x86, 0xf7];
  }

  lemma ShortElement(tag: Byte, contents: seq<Byte>)
    requires |contents| < 128
    ensures Element(tag, contents) == [tag, |contents|] + contents
  {
  }

  /** The algorithm is rsaEncryption, 1.2.840.113549.1.1.1, with the null parameters it asks for. */
  lemma AlgorithmIsRsa()
    ensures var identifier := [40 * 1 + 2] + Arc(840) + Arc(113549) + Arc(1) + Arc(1) + Arc(1);
            RSA_ALGORITHM == Element(0x30, Element(0x06, identifier) + Element(0x05, []))
  {
    ArcsOfRsa();
    hide Arc, Element;
    var identifier: seq<Byte> := [0x2a, 0x86, 0x48, 0x86, 0xf7, 0x0d, 0x01, 0x01, 0x01];
    assert identifier == [40 * 1 + 2] + Arc(840) + Arc(113549) + Arc(1) + Arc(1) + Arc(1);
    ShortElement(0x06, identifier);
    ShortElement(0x05, []);
    ShortElement(0x30, Element(0x06, identifier) + Element(0x05, []));
    assert RSA_ALGORITHM == [0x30, 13] + ([0x06, 9] + identifier + [0x05, 0]);
  }

  /** The wrapper gives the key back, version 0 and the RSA algorithm included. */
  lemma WrapperRoundTrips(pkcs1: seq<Byte>)
    requires |VERSION + RSA_ALGORITHM + Element(0x04, pkcs1)| < WORD
    ensures Unwrap(PrivateKeyInfo(pkcs1), RSA_ALGORITHM) == Some(pkcs1)
  {
    var key := Element(0x04, pkcs1);
    var body := VERSION + RSA_ALGORITHM + key;
    assert |pkcs1| <= |key| <= |body|;
    hide Element, ReadElement;
    ElementRoundTrips(0x30, body, []);
    assert PrivateKeyInfo(pkcs1) + [] == PrivateKeyInfo(pkcs1);
    assert body == VERSION + (RSA_ALGORITHM + key);
    VersionReads(RSA_ALGORITHM + key);
    AlgorithmReads(key);
    ElementRoundTrips(0x04, pkcs1, []);
    assert key + [] == key;
  }
}
