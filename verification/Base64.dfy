/** lib/utils/base64.cpp. The specification goes through sextets, the 6-bit groups of section 4
    of RFC 4648, in arithmetic; the methods do what the code does with shifts and masks. */
module Base64 {
  import opened Bits
  import opened Wrappers

  type Sextet = x: nat | x < 64

  datatype Error = BadLength | BadSymbol(c: char)

  // ---- The alphabet ----

  const UPPER := "ABCDEFGHIJKLMNOPQRSTUVWXYZ"
  const LOWER := "abcdefghijklmnopqrstuvwxyz"
  const REST := "0123456789+/"
  const TABLE: string := UPPER + LOWER + REST

  function Decode(c: char): Result<Sextet, Error> {
    if 'A' <= c <= 'Z' then Ok((c - 'A') as nat)
    else if 'a' <= c <= 'z' then Ok((c - 'a') as nat + 26)
    else if '0' <= c <= '9' then Ok((c - '0') as nat + 52)
    else if c == '+' then Ok(62)
    else if c == '/' then Ok(63)
    else Failure(BadSymbol(c))
  }

  predicate InAlphabet(c: char) { c in TABLE }

  lemma UpperIs()
    ensures |UPPER| == 26 && forall v :: 0 <= v < 26 ==> UPPER[v] == 'A' + v as char
  {}

  lemma LowerIs()
    ensures |LOWER| == 26 && forall v :: 0 <= v < 26 ==> LOWER[v] == 'a' + v as char
  {}

  lemma RestIs()
    ensures |REST| == 12 && REST[10] == '+' && REST[11] == '/'
    ensures forall v :: 0 <= v < 10 ==> REST[v] == '0' + v as char
  {}

  lemma TableIs(v: Sextet)
    ensures |TABLE| == 64
    ensures TABLE[v] == if v < 26 then 'A' + v as char
                        else if v < 52 then 'a' + (v - 26) as char
                        else if v < 62 then '0' + (v - 52) as char
                        else if v == 62 then '+' else '/'
  {
    UpperIs();
    LowerIs();
    RestIs();
  }

  function Symbol(v: Sextet): char {
    TableIs(v);
    TABLE[v]
  }

  /** decode is the inverse of the table and rejects every other character. */
  lemma DecodeInverts(c: char, v: Sextet)
    ensures Decode(Symbol(v)) == Ok(v)
    ensures Decode(c).Ok? ==> Symbol(Decode(c).value) == c
    ensures Decode(c).Ok? <==> InAlphabet(c)
  {
    DecodeSymbol(v);
    if Decode(c).Ok? {
      SymbolDecode(c);
    }
    if InAlphabet(c) {
      TableIs(0);
      var u: Sextet :| TABLE[u] == c;
      DecodeSymbol(u);
    }
  }

  lemma DecodeSymbol(v: Sextet)
    ensures Decode(Symbol(v)) == Ok(v)
  {
    TableIs(v);
  }

  lemma SymbolDecode(c: char)
    requires Decode(c).Ok?
    ensures Symbol(Decode(c).value) == c && InAlphabet(c)
  {
    TableIs(Decode(c).value);
    if 'A' <= c <= 'Z' { return; }
    if 'a' <= c <= 'z' { return; }
    if '0' <= c <= '9' { return; }
  }

  // ---- Bytes and sextets: section 4 of RFC 4648, 24 bits at a time ----

  type Bits24 = n: nat | n < 0x100_0000

  function FromOctets(a: Byte, b: Byte, c: Byte): Bits24 { (a * 0x100 + b) * 0x100 + c }
  function FromSextets(a: Sextet, b: Sextet, c: Sextet, d: Sextet): Bits24 { ((a * 0x40 + b) * 0x40 + c) * 0x40 + d }

  /** Digit k of a number to the base 256 or 64, from the least significant. */
  function Digit256(n: nat, k: nat): Byte {
    if k == 0 then n % 0x100 else Digit256(n / 0x100, k - 1)
  }

  function Digit64(n: nat, k: nat): Sextet {
    if k == 0 then n % 0x40 else Digit64(n / 0x40, k - 1)
  }

  function Octets(n: Bits24): (b: seq<Byte>)
    ensures |b| == 3
  {
    seq(3, k requires 0 <= k < 3 => Digit256(n, 2 - k))
  }

  function Sextets(n: Bits24): (x: seq<Sextet>)
    ensures |x| == 4
  {
    seq(4, k requires 0 <= k < 4 => Digit64(n, 3 - k))
  }

  lemma OctetsIs(n: Bits24)
    ensures Octets(n) == [n / 0x100 / 0x100, n / 0x100 % 0x100, n % 0x100]
  {
    assert Digit256(n, 1) == Digit256(n / 0x100, 0);
    assert Digit256(n, 2) == Digit256(n / 0x100, 1) == Digit256(n / 0x100 / 0x100, 0);
  }

  lemma SextetsIs(n: Bits24)
    ensures Sextets(n) == [n / 0x40 / 0x40 / 0x40, n / 0x40 / 0x40 % 0x40, n / 0x40 % 0x40, n % 0x40]
  {
    var p, q := n / 0x40, n / 0x40 / 0x40;
    assert Digit64(n, 1) == Digit64(p, 0);
    assert Digit64(n, 2) == Digit64(p, 1) == Digit64(q, 0);
    assert Digit64(n, 3) == Digit64(p, 2) == Digit64(q, 1) == Digit64(q / 0x40, 0);
  }

  /** The sextets of a byte sequence; missing bytes of the last group count as zeros and give
      no sextets of their own. */
  function Unpack(b: seq<Byte>): seq<Sextet> {
    if b == [] then []
    else if |b| == 1 then Sextets(FromOctets(b[0], 0, 0))[..2]
    else if |b| == 2 then Sextets(FromOctets(b[0], b[1], 0))[..3]
    else Sextets(FromOctets(b[0], b[1], b[2])) + Unpack(b[3..])
  }

  function Pack(x: seq<Sextet>): seq<Byte> {
    if |x| < 2 then []
    else if |x| == 2 then Octets(FromSextets(x[0], x[1], 0, 0))[..1]
    else if |x| == 3 then Octets(FromSextets(x[0], x[1], x[2], 0))[..2]
    else Octets(FromSextets(x[0], x[1], x[2], x[3])) + Pack(x[4..])
  }

  lemma GroupRoundTrip(n: Bits24)
    ensures var x := Sextets(n); FromSextets(x[0], x[1], x[2], x[3]) == n
  {
    SextetsIs(n);
    var q := n / 0x40;
    assert n == q * 0x40 + n % 0x40 && q == q / 0x40 * 0x40 + q % 0x40;
    assert q / 0x40 == q / 0x40 / 0x40 * 0x40 + q / 0x40 % 0x40;
  }

  lemma OctetsOf(a: Byte, b: Byte, c: Byte)
    ensures Octets(FromOctets(a, b, c)) == [a, b, c]
  {
    OctetsIs(FromOctets(a, b, c));
    DivUnique(FromOctets(a, b, c), 0x100, a * 0x100 + b, c);
    DivUnique(a * 0x100 + b, 0x100, a, b);
  }

  lemma {:induction false} PackUnpack(b: seq<Byte>)
    ensures Pack(Unpack(b)) == b
  {
    if b == [] {
    } else if |b| == 1 {
      LastOctet(b[0]);
    } else if |b| == 2 {
      LastOctets(b[0], b[1]);
    } else {
      var n := FromOctets(b[0], b[1], b[2]);
      GroupRoundTrip(n);
      OctetsOf(b[0], b[1], b[2]);
      PackUnpack(b[3..]);
      assert Unpack(b)[4..] == Unpack(b[3..]);
    }
  }

  lemma LastOctet(a: Byte)
    ensures Pack(Sextets(FromOctets(a, 0, 0))[..2]) == [a]
  {
    var n := FromOctets(a, 0, 0);
    SextetsIs(n);
    DivUnique(n, 0x40, a * 0x400, 0);
    DivUnique(a * 0x400, 0x40, a * 0x10, 0);
    ShortGroup(n);
    OctetsOf(a, 0, 0);
  }

  lemma LastOctets(a: Byte, b: Byte)
    ensures Pack(Sextets(FromOctets(a, b, 0))[..3]) == [a, b]
  {
    var n := FromOctets(a, b, 0);
    SextetsIs(n);
    DivUnique(n, 0x40, (a * 0x100 + b) * 4, 0);
    ShortGroup(n);
    OctetsOf(a, b, 0);
  }

  /** Sextets that are zero may be left out. */
  lemma ShortGroup(n: Bits24)
    requires n % 0x40 == 0
    ensures Pack(Sextets(n)[..3]) == Octets(n)[..2]
    ensures n / 0x40 % 0x40 == 0 ==> Pack(Sextets(n)[..2]) == Octets(n)[..1]
  {
    GroupRoundTrip(n);
    SextetsIs(n);
  }

  lemma {:induction false} PackConcat(x: seq<Sextet>, y: seq<Sextet>)
    requires |x| % 4 == 0
    ensures Pack(x + y) == Pack(x) + Pack(y)
    decreases |x|
  {
    if x == [] {
      assert x + y == y;
    } else {
      PackConcat(x[4..], y);
      assert (x + y)[4..] == x[4..] + y;
    }
  }

  lemma {:induction false} UnpackConcat(a: seq<Byte>, b: seq<Byte>)
    requires |a| % 3 == 0
    ensures Unpack(a + b) == Unpack(a) + Unpack(b)
    decreases |a|
  {
    if a == [] {
      assert a + b == b;
    } else {
      UnpackConcat(a[3..], b);
      assert (a + b)[3..] == a[3..] + b;
    }
  }

  // ---- Text ----

  function Symbols(x: seq<Sextet>): (s: string)
    ensures |s| == |x|
  {
    if x == [] then [] else [Symbol(x[0])] + Symbols(x[1..])
  }

  /** One result after the other; the first failure stays. */
  function Join(r: Result<seq<Sextet>, Error>, t: Result<seq<Sextet>, Error>): Result<seq<Sextet>, Error> {
    if r.Failure? then r else if t.Failure? then t else Ok(r.value + t.value)
  }

  /** Left to right, up to the first character that is not in the alphabet. */
  function DecodeAll(s: string): Result<seq<Sextet>, Error> {
    if s == [] then Ok([])
    else
      match Decode(s[0])
      case Failure(e) => Failure(e)
      case Ok(v) => Join(Ok([v]), DecodeAll(s[1..]))
  }

  function Padding(bytes: nat): string {
    if bytes % 3 == 1 then "==" else if bytes % 3 == 2 then "=" else ""
  }

  function Encoded(b: seq<Byte>): string { Symbols(Unpack(b)) + Padding(|b|) }

  lemma SextetsOf(w: Sextet, x: Sextet, y: Sextet, z: Sextet)
    ensures Sextets(FromSextets(w, x, y, z)) == [w, x, y, z]
  {
    var n := FromSextets(w, x, y, z);
    SextetsIs(n);
    DivUnique(n, 0x40, (w * 0x40 + x) * 0x40 + y, z);
    DivUnique((w * 0x40 + x) * 0x40 + y, 0x40, w * 0x40 + x, y);
    DivUnique(w * 0x40 + x, 0x40, w, x);
  }

  lemma UnpackShort(b: seq<Byte>, a0: Byte, a1: Byte, a2: Byte)
    requires 1 <= |b| <= 3 && a0 == b[0]
    requires a1 == (if |b| > 1 then b[1] else 0) && a2 == (if |b| > 2 then b[2] else 0)
    ensures Unpack(b) == Sextets(FromOctets(a0, a1, a2))[..|b| + 1]
  {
    if |b| == 3 {
      assert b[3..] == [];
      assert Unpack(b[3..]) == [];
    }
  }

  /** One group of at most three bytes as the standard draws it: the 24 bits of the bytes are
      those of the symbols, and one symbol more than there are bytes is written out. */
  lemma GroupIs(b: seq<Byte>, w: Sextet, x: Sextet, y: Sextet, z: Sextet)
    requires 1 <= |b| <= 3
    requires FromOctets(b[0], if |b| > 1 then b[1] else 0, if |b| > 2 then b[2] else 0) == FromSextets(w, x, y, z)
    ensures |Encoded(b)| == 4 && Encoded(b)[0] == Symbol(w) && Encoded(b)[1] == Symbol(x)
    ensures Encoded(b)[2] == if |b| > 1 then Symbol(y) else '='
    ensures Encoded(b)[3] == if |b| > 2 then Symbol(z) else '='
  {
    GroupUnpacks(b, b[0], if |b| > 1 then b[1] else 0, if |b| > 2 then b[2] else 0, w, x, y, z);
    GroupText(b, Unpack(b));
  }

  lemma GroupUnpacks(b: seq<Byte>, a0: Byte, a1: Byte, a2: Byte, w: Sextet, x: Sextet, y: Sextet, z: Sextet)
    requires 1 <= |b| <= 3 && a0 == b[0]
    requires a1 == (if |b| > 1 then b[1] else 0) && a2 == (if |b| > 2 then b[2] else 0)
    requires FromOctets(a0, a1, a2) == FromSextets(w, x, y, z)
    ensures Unpack(b) == [w, x, y, z][..|b| + 1]
  {
    UnpackShort(b, a0, a1, a2);
    SextetsOf(w, x, y, z);
  }

  lemma GroupText(b: seq<Byte>, u: seq<Sextet>)
    requires 1 <= |b| <= 3 && u == Unpack(b) && |u| == |b| + 1
    ensures |Encoded(b)| == 4 && Encoded(b)[0] == Symbol(u[0]) && Encoded(b)[1] == Symbol(u[1])
    ensures Encoded(b)[2] == if |b| > 1 then Symbol(u[2]) else '='
    ensures Encoded(b)[3] == if |b| > 2 then Symbol(u[3]) else '='
  {
    SymbolsAt(u, 0);
    SymbolsAt(u, 1);
    if |b| > 1 { SymbolsAt(u, 2); }
    if |b| > 2 { SymbolsAt(u, 3); }
  }

  /** Examples of section 10 of RFC 4648, and one with the last two symbols. */
  lemma Examples()
    ensures Encoded([0x66]) == "Zg==" && Encoded([0x66, 0x6f]) == "Zm8=" && Encoded([0x66, 0x6f, 0x6f]) == "Zm9v"
  {
    GroupIs([0x66], 25, 32, 0, 0);
    GroupIs([0x66, 0x6f], 25, 38, 60, 0);
    GroupIs([0x66, 0x6f, 0x6f], 25, 38, 61, 47);
    Letters();
  }

  lemma MoreExamples()
    ensures Encoded([0x62, 0x61, 0x72]) == "YmFy" && Encoded([0xfb, 0xff]) == "+/8="
  {
    GroupIs([0x62, 0x61, 0x72], 24, 38, 5, 50);
    GroupIs([0xfb, 0xff], 62, 63, 60, 0);
    Letters();
  }

  lemma Letters()
    ensures Symbol(25) == 'Z' && Symbol(32) == 'g' && Symbol(38) == 'm' && Symbol(60) == '8' && Symbol(61) == '9'
    ensures Symbol(47) == 'v' && Symbol(24) == 'Y' && Symbol(5) == 'F' && Symbol(50) == 'y'
    ensures Symbol(62) == '+' && Symbol(63) == '/'
  {
    TableIs(25); TableIs(32); TableIs(38); TableIs(60); TableIs(61);
    TableIs(47); TableIs(24); TableIs(5); TableIs(50); TableIs(62); TableIs(63);
  }

  /** How many of the characters are padding. */
  function Pads(s: string): (p: nat)
    ensures p <= |s|
  {
    if |s| >= 2 && s[|s| - 2..] == "==" then 2
    else if |s| >= 1 && s[|s| - 1] == '=' then 1
    else 0
  }

  function Decoded(s: string): Result<seq<Byte>, Error> {
    if |s| % 4 != 0 then Failure(BadLength)
    else
      match DecodeAll(s[..|s| - Pads(s)])
      case Ok(x) => Ok(Pack(x))
      case Failure(e) => Failure(e)
  }

  lemma {:induction false} DecodeSymbols(x: seq<Sextet>)
    ensures DecodeAll(Symbols(x)) == Ok(x)
  {
    if x != [] {
      DecodeInverts('A', x[0]);
      DecodeSymbols(x[1..]);
      assert Symbols(x)[1..] == Symbols(x[1..]);
      assert [x[0]] + x[1..] == x;
    }
  }

  lemma {:induction false} NoPadInside(x: seq<Sextet>)
    ensures '=' !in Symbols(x)
  {
    if x != [] {
      DecodeInverts('=', x[0]);
      NoPadInside(x[1..]);
    }
  }

  /** The text has four characters for every three bytes begun. */
  lemma {:induction false} UnpackLength(b: seq<Byte>)
    ensures |Unpack(b)| + |Padding(|b|)| == 4 * ((|b| + 2) / 3)
  {
    if |b| >= 3 {
      UnpackLength(b[3..]);
      assert (|b| - 3 + 2) / 3 == (|b| + 2) / 3 - 1 && |b[3..]| % 3 == |b| % 3;
    }
  }

  lemma EncodedShape(b: seq<Byte>)
    ensures |Encoded(b)| == 4 * ((|b| + 2) / 3) && |Encoded(b)| % 4 == 0
    ensures Pads(Encoded(b)) == |Padding(|b|)| == if |b| % 3 == 0 then 0 else 3 - |b| % 3
    ensures Encoded(b)[..|Encoded(b)| - Pads(Encoded(b))] == Symbols(Unpack(b))
  {
    UnpackLength(b);
    NoPadInside(Unpack(b));
    PadsOf(Symbols(Unpack(b)), |b|);
    FourTimes((|b| + 2) / 3);
  }

  lemma FourTimes(k: nat)
    ensures 4 * k % 4 == 0
  {}

  lemma PadsOf(t: string, n: nat)
    requires '=' !in t
    ensures var s := t + Padding(n); Pads(s) == |Padding(n)| && s[..|s| - Pads(s)] == t
    ensures |Padding(n)| == if n % 3 == 0 then 0 else 3 - n % 3
  {
    var s := t + Padding(n);
    if t != [] {
      assert s[|t| - 1] == t[|t| - 1] && t[|t| - 1] in t;
    }
  }

  lemma RoundTrip(b: seq<Byte>)
    ensures Decoded(Encoded(b)) == Ok(b)
  {
    EncodedShape(b);
    DecodesBack(b, Unpack(b), Encoded(b));
  }

  lemma DecodedOf(s: string, x: seq<Sextet>)
    requires |s| % 4 == 0 && DecodeAll(s[..|s| - Pads(s)]) == Ok(x)
    ensures Decoded(s) == Ok(Pack(x))
  {}

  lemma DecodesBack(b: seq<Byte>, x: seq<Sextet>, s: string)
    requires x == Unpack(b) && |s| % 4 == 0 && s[..|s| - Pads(s)] == Symbols(x)
    ensures Decoded(s) == Ok(b)
  {
    DecodeSymbols(x);
    PackUnpack(b);
  }

  // ---- When decoding succeeds ----

  /** A text is accepted exactly when its length is a multiple of four and every character
      before the trailing one or two '=' is in the alphabet. */
  lemma AcceptsIff(s: string)
    ensures Decoded(s).Ok? <==> |s| % 4 == 0 && AllSymbols(s[..|s| - Pads(s)])
  {
    DecodeAllOk(s[..|s| - Pads(s)]);
  }

  predicate AllSymbols(s: string) { forall i :: 0 <= i < |s| ==> InAlphabet(s[i]) }

  lemma {:induction false} DecodeAllOk(s: string)
    ensures DecodeAll(s).Ok? <==> AllSymbols(s)
    ensures DecodeAll(s).Ok? ==> |DecodeAll(s).value| == |s|
  {
    if s != [] {
      DecodeInverts(s[0], 0);
      DecodeAllOk(s[1..]);
      assert forall i :: 1 <= i < |s| ==> s[i] == s[1..][i - 1];
    }
  }

  lemma {:induction false} DecodeAllConcat(s: string, t: string)
    ensures DecodeAll(s + t) == Join(DecodeAll(s), DecodeAll(t))
  {
    if s == [] {
      assert s + t == t;
      JoinEmpty(DecodeAll(t));
    } else {
      DecodeAllConcat(s[1..], t);
      assert (s + t)[1..] == s[1..] + t;
      if Decode(s[0]).Ok? {
        JoinAssoc(Decode(s[0]).value, DecodeAll(s[1..]), DecodeAll(t));
      }
    }
  }

  lemma JoinEmpty(t: Result<seq<Sextet>, Error>)
    ensures Join(Ok([]), t) == t
  {
    if t.Ok? {
      assert [] + t.value == t.value;
    }
  }

  lemma JoinAssoc(v: Sextet, r: Result<seq<Sextet>, Error>, t: Result<seq<Sextet>, Error>)
    ensures Join(Join(Ok([v]), r), t) == Join(Ok([v]), Join(r, t))
  {
    if r.Ok? && t.Ok? {
      assert [v] + r.value + t.value == [v] + (r.value + t.value);
    }
  }

  // ---- Shifts and masks ----

  lemma OrShl(x: nat, k: nat, p: nat, y: nat)
    requires p == Pow2(k) && y < p
    ensures Or(Shl(x, k), y) == x * p + y
  {
    OrAdds(x, k, y);
    ShlIsMul(x, k);
  }

  lemma ShrDiv(x: nat, k: nat, p: nat)
    requires p == Pow2(k)
    ensures Shr(x, k) == x / p && And(x, p - 1) == x % p
  {
    ShrIsDiv(x, k);
    AndLowMask(x, k);
  }

  lemma Powers()
    ensures Pow2(2) == 4 && Pow2(4) == 16 && Pow2(6) == 64
  {}

  /** The three bytes the code puts together from four sextets. */
  function Byte1(by1: Sextet, by2: Sextet): nat { Or(Shl(by1, 2) % 0x100, Shr(by2, 4)) }
  function Byte2(by2: Sextet, by3: Sextet): nat { Or(Shl(And(by2, 0xf), 4) % 0x100, Shr(by3, 2)) }
  function Byte3(by3: Sextet, by4: Sextet): nat { Or(Shl(And(by3, 0x3), 6) % 0x100, by4) }

  lemma OrByte(x: nat, k: nat, p: nat, y: nat)
    requires p == Pow2(k) && y < p && x * p < 0x100
    ensures Or(Shl(x, k) % 0x100, y) == x * p + y
  {
    OrShl(x, k, p, y);
    ShlIsMul(x, k);
    DivUnique(x * p, 0x100, 0, x * p);
  }

  lemma Byte1Is(a: Sextet, b: Sextet)
    ensures Byte1(a, b) == a * 4 + b / 16
  {
    Powers();
    ShrDiv(b, 4, 16);
    OrByte(a, 2, 4, b / 16);
  }

  lemma Byte2Is(b: Sextet, c: Sextet)
    ensures Byte2(b, c) == b % 16 * 16 + c / 4
  {
    Powers();
    ShrDiv(b, 4, 16);
    ShrDiv(c, 2, 4);
    OrByte(b % 16, 4, 16, c / 4);
  }

  lemma Byte3Is(c: Sextet, d: Sextet)
    ensures Byte3(c, d) == c % 4 * 64 + d
  {
    Powers();
    ShrDiv(c, 2, 4);
    OrByte(c % 4, 6, 64, d);
  }

  lemma OctetsFrom(a: Sextet, b: Sextet, c: Sextet, d: Sextet)
    ensures Byte1(a, b) < 0x100 && Byte2(b, c) < 0x100 && Byte3(c, d) < 0x100
    ensures Octets(FromSextets(a, b, c, d)) == [Byte1(a, b), Byte2(b, c), Byte3(c, d)]
  {
    Byte1Is(a, b);
    Byte2Is(b, c);
    Byte3Is(c, d);
    var n := FromSextets(a, b, c, d);
    OctetsIs(n);
    var q := (a * 0x40 + b) * 0x10 + c / 4;
    DivUnique(n, 0x100, q, c % 4 * 0x40 + d);
    DivUnique(q, 0x100, a * 4 + b / 16, b % 16 * 16 + c / 4);
  }

  /** The four indices the code takes from three bytes. */
  function Index1(by1: Byte): nat { Shr(by1, 2) }
  function Index2(by1: Byte, by2: Byte): nat { Or(Shl(And(by1, 0x3), 4), Shr(by2, 4)) }
  function Index3(by2: Byte, by3: Byte): nat { Or(Shl(And(by2, 0xf), 2), Shr(by3, 6)) }
  function Index4(by3: Byte): nat { And(by3, 0x3f) }

  lemma SextetsFrom(a: Byte, b: Byte, c: Byte)
    ensures Sextets(FromOctets(a, b, c)) == [Index1(a), Index2(a, b), Index3(b, c), Index4(c)]
  {
    Powers();
    ShrDiv(a, 2, 4);
    ShrDiv(b, 4, 16);
    ShrDiv(c, 6, 64);
    OrShl(a % 4, 4, 16, b / 16);
    OrShl(b % 16, 2, 4, c / 64);
    var n := FromOctets(a, b, c);
    SextetsIs(n);
    var q2 := a * 16 + b / 16;
    var q1 := q2 * 64 + (b % 16 * 4 + c / 64);
    DivUnique(n, 0x40, q1, c % 64);
    DivUnique(q1, 0x40, q2, b % 16 * 4 + c / 64);
    DivUnique(q2, 0x40, a / 4, a % 4 * 16 + b / 16);
  }

  // ---- The code ----

  lemma {:induction false} SymbolsConcat(x: seq<Sextet>, y: seq<Sextet>)
    ensures Symbols(x + y) == Symbols(x) + Symbols(y)
  {
    if x == [] {
      assert x + y == y;
    } else {
      SymbolsConcat(x[1..], y);
      assert (x + y)[1..] == x[1..] + y;
    }
  }

  lemma {:induction false} SymbolsAt(x: seq<Sextet>, i: nat)
    requires i < |x|
    ensures Symbols(x)[i] == Symbol(x[i])
  {
    if i > 0 {
      SymbolsAt(x[1..], i - 1);
    }
  }

  /** One more group of bytes is its symbols appended. */
  lemma EncodeMore(b: seq<Byte>, i: nat, part: seq<Byte>, x: seq<Sextet>)
    requires i % 3 == 0 && i + |part| <= |b| && part == b[i..i + |part|] && x == Unpack(part)
    ensures Symbols(Unpack(b[..i + |part|])) == Symbols(Unpack(b[..i])) + Symbols(x)
  {
    assert b[..i + |part|] == b[..i] + part;
    UnpackConcat(b[..i], part);
    SymbolsConcat(Unpack(b[..i]), x);
  }

  lemma EncodeThree(a: Byte, b: Byte, c: Byte)
    ensures Index1(a) < 64 && Index2(a, b) < 64 && Index3(b, c) < 64 && Index4(c) < 64
    ensures Symbols(Unpack([a, b, c])) ==
            [Symbol(Index1(a)), Symbol(Index2(a, b)), Symbol(Index3(b, c)), Symbol(Index4(c))]
  {
    SextetsFrom(a, b, c);
    var x := Sextets(FromOctets(a, b, c));
    assert Unpack([a, b, c]) == x;
    SymbolsAt(x, 0);
    SymbolsAt(x, 1);
    SymbolsAt(x, 2);
    SymbolsAt(x, 3);
  }

  lemma EncodeOne(a: Byte)
    ensures Index1(a) < 64 && Shl(And(a, 0x3), 4) < 64
    ensures Symbols(Unpack([a])) == [Symbol(Index1(a)), Symbol(Shl(And(a, 0x3), 4))]
  {
    SextetsFrom(a, 0, 0);
    OrZero(Shl(And(a, 0x3), 4));
    var x := Sextets(FromOctets(a, 0, 0))[..2];
    SymbolsAt(x, 0);
    SymbolsAt(x, 1);
  }

  lemma EncodeTwo(a: Byte, b: Byte)
    ensures Index1(a) < 64 && Index2(a, b) < 64 && Shl(And(b, 0xf), 2) < 64
    ensures Symbols(Unpack([a, b])) == [Symbol(Index1(a)), Symbol(Index2(a, b)), Symbol(Shl(And(b, 0xf), 2))]
  {
    SextetsFrom(a, b, 0);
    OrZero(Shl(And(b, 0xf), 2));
    var x := Sextets(FromOctets(a, b, 0))[..3];
    SymbolsAt(x, 0);
    SymbolsAt(x, 1);
    SymbolsAt(x, 2);
  }

  function EncodedUpTo(b: seq<Byte>, i: nat): string
    requires i <= |b|
  {
    Symbols(Unpack(b[..i]))
  }

  method ToBase64(plainSeq: seq<Byte>) returns (retval: string)
    ensures retval == Encoded(plainSeq)
  {
    var i;
    retval, i := Groups(plainSeq);
    if i + 1 == |plainSeq| {
      var rest := Group1(plainSeq, i);
      retval := retval + rest + "==";
    } else if i + 2 == |plainSeq| {
      var rest := Group2(plainSeq, i);
      retval := retval + rest + "=";
    }
    assert plainSeq[..|plainSeq|] == plainSeq;
  }

  /** The loop of toBase64. */
  method Groups(plainSeq: seq<Byte>) returns (retval: string, i: nat)
    ensures i == |plainSeq| - |plainSeq| % 3 && retval == EncodedUpTo(plainSeq, i)
  {
    retval, i := "", 0;
    while i + 2 < |plainSeq|
      invariant i <= |plainSeq| && i % 3 == 0
      invariant retval == EncodedUpTo(plainSeq, i)
    {
      var group := Group3(plainSeq, i);
      retval := retval + group;
      i := i + 3;
    }
  }

  method Group3(plainSeq: seq<Byte>, i: nat) returns (s: string)
    requires i % 3 == 0 && i + 3 <= |plainSeq|
    ensures EncodedUpTo(plainSeq, i) + s == EncodedUpTo(plainSeq, i + 3)
  {
    var by1, by2, by3 := plainSeq[i], plainSeq[i + 1], plainSeq[i + 2];
    EncodeThree(by1, by2, by3);
    EncodeMore(plainSeq, i, [by1, by2, by3], Unpack([by1, by2, by3]));
    s := [Symbol(Shr(by1, 2))];
    s := s + [Symbol(Or(Shl(And(by1, 0x3), 4), Shr(by2, 4)))];
    s := s + [Symbol(Or(Shl(And(by2, 0xf), 2), Shr(by3, 6)))];
    s := s + [Symbol(And(by3, 0x3f))];
  }

  method Group1(plainSeq: seq<Byte>, i: nat) returns (s: string)
    requires i % 3 == 0 && i + 1 == |plainSeq|
    ensures EncodedUpTo(plainSeq, i) + s == EncodedUpTo(plainSeq, i + 1)
  {
    var by1 := plainSeq[i];
    EncodeOne(by1);
    EncodeMore(plainSeq, i, [by1], Unpack([by1]));
    s := [Symbol(Shr(by1, 2)), Symbol(Shl(And(by1, 0x3), 4))];
  }

  method Group2(plainSeq: seq<Byte>, i: nat) returns (s: string)
    requires i % 3 == 0 && i + 2 == |plainSeq|
    ensures EncodedUpTo(plainSeq, i) + s == EncodedUpTo(plainSeq, i + 2)
  {
    var by1, by2 := plainSeq[i], plainSeq[i + 1];
    EncodeTwo(by1, by2);
    EncodeMore(plainSeq, i, [by1, by2], Unpack([by1, by2]));
    s := [Symbol(Shr(by1, 2)), Symbol(Or(Shl(And(by1, 0x3), 4), Shr(by2, 4))), Symbol(Shl(And(by2, 0xf), 2))];
  }

  /** decode at one position, after everything before it has been decoded to x. */
  method DecodeAt(str: string, i: nat, ghost x: seq<Sextet>) returns (r: Result<Sextet, Error>)
    requires |str| % 4 == 0 && i < |str| - Pads(str) && DecodeAll(str[..i]) == Ok(x)
    ensures match r
      case Ok(v) => DecodeAll(str[..i + 1]) == Ok(x + [v])
      case Failure(e) => Decoded(str) == Failure(e)
  {
    r := Decode(str[i]);
    var body := str[..|str| - Pads(str)];
    assert str[..i + 1] == str[..i] + [str[i]];
    DecodeAllConcat(str[..i], [str[i]]);
    DecodeOne(str[i]);
    assert body == str[..i + 1] + body[i + 1..];
    DecodeAllConcat(str[..i + 1], body[i + 1..]);
  }

  lemma DecodeOne(c: char)
    ensures DecodeAll([c]) == match Decode(c) case Ok(v) => Ok([v]) case Failure(e) => Failure(e)
  {
    if Decode(c).Ok? {
      assert [Decode(c).value] + [] == [Decode(c).value];
    }
  }

  lemma PackFour(a: Sextet, b: Sextet, c: Sextet, d: Sextet)
    ensures Byte1(a, b) < 0x100 && Byte2(b, c) < 0x100 && Byte3(c, d) < 0x100
    ensures Pack([a, b, c, d]) == [Byte1(a, b), Byte2(b, c), Byte3(c, d)]
  {
    OctetsFrom(a, b, c, d);
    var x := [a, b, c, d];
    assert x[4..] == [];
  }

  lemma PackTwo(a: Sextet, b: Sextet)
    ensures Byte1(a, b) < 0x100 && Pack([a, b]) == [Byte1(a, b)]
  {
    OctetsFrom(a, b, 0, 0);
  }

  lemma PackThree(a: Sextet, b: Sextet, c: Sextet)
    ensures Byte1(a, b) < 0x100 && Byte2(b, c) < 0x100 && Pack([a, b, c]) == [Byte1(a, b), Byte2(b, c)]
  {
    OctetsFrom(a, b, c, 0);
  }

  /** Pack as a function value, with what the loop needs to know of it and no more. */
  ghost predicate IsPack(pack: seq<Sextet> -> seq<Byte>) {
    && pack([]) == []
    && (forall x: seq<Sextet> {:trigger Pack(x)} :: pack(x) == Pack(x))
    && forall x: seq<Sextet>, y: seq<Sextet> {:trigger pack(x + y)} :: |x| % 4 == 0 ==> pack(x + y) == pack(x) + pack(y)
  }

  function ThePack(): seq<Sextet> -> seq<Byte> { (x: seq<Sextet>) => Pack(x) }

  lemma ThePackIs()
    ensures IsPack(ThePack())
  {
    forall x: seq<Sextet>, y: seq<Sextet> | |x| % 4 == 0
      ensures ThePack()(x + y) == ThePack()(x) + ThePack()(y)
    {
      PackConcat(x, y);
    }
  }

  /** One group: four characters, three bytes. */
  method DecodeFour(str: string, i: nat, ghost x: seq<Sextet>, ghost pack: seq<Sextet> -> seq<Byte>)
    returns (r: Result<seq<Byte>, Error>, ghost y: seq<Sextet>)
    requires |str| % 4 == 0 && i + 4 <= |str| - Pads(str) && DecodeAll(str[..i]) == Ok(x) && IsPack(pack)
    ensures match r
      case Ok(bytes) => |y| == 4 && DecodeAll(str[..i + 4]) == Ok(x + y) && bytes == pack(y)
      case Failure(e) => Decoded(str) == Failure(e)
  {
    y := [];
    var by1 := DecodeAt(str, i, x);
    if by1.Failure? { return Failure(by1.error), y; }
    var by2 := DecodeAt(str, i + 1, x + [by1.value]);
    if by2.Failure? { return Failure(by2.error), y; }
    var by3 := DecodeAt(str, i + 2, x + [by1.value] + [by2.value]);
    if by3.Failure? { return Failure(by3.error), y; }
    var by4 := DecodeAt(str, i + 3, x + [by1.value] + [by2.value] + [by3.value]);
    if by4.Failure? { return Failure(by4.error), y; }
    y := [by1.value, by2.value, by3.value, by4.value];
    assert x + [by1.value] + [by2.value] + [by3.value] + [by4.value] == x + y;
    PackFour(by1.value, by2.value, by3.value, by4.value);
    r := Ok([Byte1(by1.value, by2.value), Byte2(by2.value, by3.value), Byte3(by3.value, by4.value)]);
  }

  /** The group with padding: two characters and one byte, or three and two. */
  method DecodeLast(str: string, ghost x: seq<Sextet>) returns (r: Result<seq<Byte>, Error>, ghost y: seq<Sextet>)
    requires |str| % 4 == 0 && |str| > 0 && str[|str| - 1] == '=' && DecodeAll(str[..|str| - 4]) == Ok(x)
    ensures match r
      case Ok(bytes) => DecodeAll(str[..|str| - Pads(str)]) == Ok(x + y) && bytes == Pack(y)
      case Failure(e) => Decoded(str) == Failure(e)
  {
    y := [];
    var strLen := |str|;
    var by1 := DecodeAt(str, strLen - 4, x);
    if by1.Failure? { return Failure(by1.error), y; }
    var by2 := DecodeAt(str, strLen - 3, x + [by1.value]);
    if by2.Failure? { return Failure(by2.error), y; }
    y := [by1.value, by2.value];
    assert x + [by1.value] + [by2.value] == x + y;
    if str[strLen - 2..] == "==" {
      PackTwo(by1.value, by2.value);
      return Ok([Byte1(by1.value, by2.value)]), y;
    }
    var by3 := DecodeAt(str, strLen - 2, x + y);
    if by3.Failure? { return Failure(by3.error), y; }
    assert x + y + [by3.value] == x + [by1.value, by2.value, by3.value];
    y := [by1.value, by2.value, by3.value];
    PackThree(by1.value, by2.value, by3.value);
    r := Ok([Byte1(by1.value, by2.value), Byte2(by2.value, by3.value)]);
  }

  /** The loop of fromBase64Impl, over the groups without padding. */
  method DecodeGroups(str: string, n: nat, ghost pack: seq<Sextet> -> seq<Byte>)
    returns (r: Result<seq<Byte>, Error>, ghost x: seq<Sextet>)
    requires |str| % 4 == 0 && n % 4 == 0 && n <= |str| - Pads(str) && IsPack(pack)
    ensures match r
      case Ok(retval) => DecodeAll(str[..n]) == Ok(x) && |x| % 4 == 0 && retval == pack(x)
      case Failure(e) => Decoded(str) == Failure(e)
  {
    var retval: seq<Byte> := [];
    x := [];
    var i := 0;
    while i < n
      invariant i <= n && i % 4 == 0 && |x| % 4 == 0
      invariant DecodeAll(str[..i]) == Ok(x) && retval == pack(x)
    {
      ghost var y;
      var bytes;
      bytes, y := DecodeFour(str, i, x, pack);
      if bytes.Failure? {
        return bytes, x;
      }
      retval := retval + bytes.value;
      x := x + y;
      i := i + 4;
    }
    r := Ok(retval);
  }

  method FromBase64Impl(str: string) returns (r: Result<seq<Byte>, Error>)
    ensures r == Decoded(str)
  {
    var strLen := |str|;
    if strLen == 0 {
      return Ok([]);
    }
    if strLen % 4 != 0 {
      return Failure(BadLength);
    }
    var n := if str[strLen - 1] == '=' then strLen - 4 else strLen;
    ghost var x;
    ThePackIs();
    r, x := DecodeGroups(str, n, ThePack());
    if r.Failure? {
      return;
    }
    var retval := r.value;
    if n < strLen {
      ghost var y;
      var bytes;
      bytes, y := DecodeLast(str, x);
      if bytes.Failure? {
        return bytes;
      }
      PackConcat(x, y);
      retval := retval + bytes.value;
      x := x + y;
    }
    DecodedOf(str, x);
    r := Ok(retval);
  }

  // ---- White space ----

  /** isspace of the C locale. */
  predicate IsSpace(c: char) { c == ' ' || '\t' <= c <= '\r' }

  function WithoutSpaces(s: string): string {
    if s == "" then "" else if IsSpace(s[0]) then WithoutSpaces(s[1..]) else [s[0]] + WithoutSpaces(s[1..])
  }

  lemma {:induction false} WithoutSpacesConcat(s: string, t: string)
    ensures WithoutSpaces(s + t) == WithoutSpaces(s) + WithoutSpaces(t)
  {
    if s == "" {
      assert s + t == t;
    } else {
      WithoutSpacesConcat(s[1..], t);
      assert (s + t)[1..] == s[1..] + t && (s + t)[0] == s[0];
      assert [s[0]] + (WithoutSpaces(s[1..]) + WithoutSpaces(t)) == [s[0]] + WithoutSpaces(s[1..]) + WithoutSpaces(t);
    }
  }

  method RemoveWhitespaces(s: string) returns (result: string)
    ensures result == WithoutSpaces(s)
  {
    result := "";
    for i := 0 to |s|
      invariant result + WithoutSpaces(s[i..]) == WithoutSpaces(s)
    {
      assert s[i..][1..] == s[i + 1..];
      if !IsSpace(s[i]) {
        assert result + ([s[i]] + WithoutSpaces(s[i + 1..])) == result + [s[i]] + WithoutSpaces(s[i + 1..]);
        result := result + [s[i]];
      }
    }
  }

  method FromBase64(str: string, skipSpaces: bool) returns (r: Result<seq<Byte>, Error>)
    ensures r == Decoded(if skipSpaces then WithoutSpaces(str) else str)
  {
    if skipSpaces {
      var compact := RemoveWhitespaces(str);
      r := FromBase64Impl(compact);
    } else {
      r := FromBase64Impl(str);
    }
  }

  lemma {:induction false} NoSpaces(s: string)
    requires forall i :: 0 <= i < |s| ==> !IsSpace(s[i])
    ensures WithoutSpaces(s) == s
  {
    if s != "" {
      NoSpaces(s[1..]);
    }
  }

  lemma SymbolNoSpace(v: Sextet)
    ensures !IsSpace(Symbol(v))
  {
    DecodeInverts(Symbol(v), v);
  }

  lemma {:induction false} SymbolsNoSpaces(x: seq<Sextet>)
    ensures WithoutSpaces(Symbols(x)) == Symbols(x)
  {
    if x != [] {
      SymbolNoSpace(x[0]);
      SymbolsNoSpaces(x[1..]);
    }
  }

  /** Space, tab, newline, vertical tab, form feed and carriage return. */
  predicate IsOneOfSix(c: char) {
    c == ' ' || c == '\t' || c == '\n' || c == 11 as char || c == 12 as char || c == '\r'
  }

  /** Any other character stays where it is. */
  lemma OthersKept(before: string, c: char, after: string)
    requires !IsOneOfSix(c)
    ensures WithoutSpaces(before + [c] + after) == WithoutSpaces(before) + [c] + WithoutSpaces(after)
  {
    WithoutSpacesConcat(before + [c], after);
    WithoutSpacesConcat(before, [c]);
    assert [c][1..] == "" && [c][0] == c;
    assert WithoutSpaces([c]) == [c];
  }

  /** White space put anywhere in a text changes nothing when it is skipped. */
  lemma SpacesIgnored(before: string, space: string, after: string)
    requires forall i :: 0 <= i < |space| ==> IsOneOfSix(space[i])
    ensures WithoutSpaces(before + space + after) == WithoutSpaces(before + after)
  {
    WithoutSpacesConcat(before + space, after);
    WithoutSpacesConcat(before, space);
    WithoutSpacesConcat(before, after);
    AllSpaces(space);
    assert WithoutSpaces(before) + "" == WithoutSpaces(before);
  }

  /** An encoded text has no white space of its own, so whatever comes to it when white space
      is taken out decodes to the bytes. */
  lemma SpacedRoundTrip(b: seq<Byte>, text: string)
    requires WithoutSpaces(text) == Encoded(b)
    ensures Decoded(WithoutSpaces(text)) == Ok(b)
    ensures WithoutSpaces(Encoded(b)) == Encoded(b)
  {
    RoundTrip(b);
    EncodedNoSpaces(b);
  }

  lemma EncodedNoSpaces(b: seq<Byte>)
    ensures WithoutSpaces(Encoded(b)) == Encoded(b)
  {
    SymbolsNoSpaces(Unpack(b));
    NoSpaces(Padding(|b|));
    JoinNoSpaces(Symbols(Unpack(b)), Padding(|b|));
  }

  lemma JoinNoSpaces(s: string, t: string)
    requires WithoutSpaces(s) == s && WithoutSpaces(t) == t
    ensures WithoutSpaces(s + t) == s + t
  {
    WithoutSpacesConcat(s, t);
  }

  lemma {:induction false} AllSpaces(s: string)
    requires forall i :: 0 <= i < |s| ==> IsSpace(s[i])
    ensures WithoutSpaces(s) == ""
  {
    if s != "" {
      AllSpaces(s[1..]);
    }
  }

  /** toBase64 and then fromBase64. */
  method EncodeAndDecode(b: seq<Byte>, skipSpaces: bool) returns (r: Result<seq<Byte>, Error>)
    ensures r == Ok(b)
  {
    var text := ToBase64(b);
    RoundTrip(b);
    EncodedNoSpaces(b);
    r := FromBase64(text, skipSpaces);
  }
}
