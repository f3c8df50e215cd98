/** MD5 as RFC 1321 defines it: section 3, steps 3.1 to 3.5, as functions on a whole message,
    in arithmetic on numbers rather than in machine operations. */
module Rfc1321 {
  import opened Bits

  datatype Vars = Vars(a: Word32, b: Word32, c: Word32, d: Word32)

  const BLOCK := 64

  // ---- 3.1, 3.2: padding and length ----

  function Zeros(n: nat): seq<Byte> { seq(n, _ => 0) }

  /** The least number of zero bytes that leaves the length 8 short of whole blocks. */
  function ZeroCount(length: nat): (k: nat)
    ensures (length + 1 + k) % BLOCK == 56 && k < BLOCK
  {
    (119 - length % BLOCK) % BLOCK
  }

  /** Byte i of a number, from the least significant. */
  function ByteAt(n: nat, i: nat): Byte {
    if i == 0 then n % 256 else ByteAt(n / 256, i - 1)
  }

  function LowBytes(n: nat, k: nat): (r: seq<Byte>)
    ensures |r| == k
  {
    seq(k, i requires 0 <= i < k => ByteAt(n, i))
  }

  function Pad(msg: seq<Byte>): (r: seq<Byte>)
    ensures |r| % BLOCK == 0
  {
    msg + [0x80] + Zeros(ZeroCount(|msg|)) + LowBytes(8 * |msg|, 8)
  }

  // ---- 3.3, 3.4: the rounds ----

  const INIT := Vars(0x67452301, 0xefcdab89, 0x98badcfe, 0x10325476)

  /** Section 3.3 writes the four words as bytes, low-order first. */
  lemma InitBytes()
    ensures LowBytes(INIT.a, 4) + LowBytes(INIT.b, 4) + LowBytes(INIT.c, 4) + LowBytes(INIT.d, 4) ==
            [0x01, 0x23, 0x45, 0x67, 0x89, 0xab, 0xcd, 0xef, 0xfe, 0xdc, 0xba, 0x98, 0x76, 0x54, 0x32, 0x10]
  {
    FourBytes(INIT.a);
    FourBytes(INIT.b);
    FourBytes(INIT.c);
    FourBytes(INIT.d);
  }

  lemma FourBytes(w: Word32)
    ensures LowBytes(w, 4) == [w % 256, w / 256 % 256, w / 256 / 256 % 256, w / 256 / 256 / 256 % 256]
  {
    assert ByteAt(w, 1) == ByteAt(w / 256, 0) && ByteAt(w, 2) == ByteAt(w / 256 / 256, 0);
    assert ByteAt(w, 3) == ByteAt(w / 256, 2) == ByteAt(w / 256 / 256, 1) == ByteAt(w / 256 / 256 / 256, 0);
  }

  lemma Width()
    ensures Pow2(32) == 0x1_0000_0000
  {
    assert Pow2(4) == 16;
    Pow2Add(4, 4);
    Pow2Add(8, 8);
    Pow2Add(16, 16);
  }

  function And32(x: Word32, y: Word32): Word32 { Width(); WithinWord(x, y, 32); And(x, y) }
  function Or32(x: Word32, y: Word32): Word32 { Width(); WithinWord(x, y, 32); Or(x, y) }
  function Xor32(x: Word32, y: Word32): Word32 { Width(); WithinWord(x, y, 32); Xor(x, y) }
  function Not32(x: Word32): Word32 { 0xffff_ffff - x }

  function F(x: Word32, y: Word32, z: Word32): Word32 { Or32(And32(x, y), And32(Not32(x), z)) }
  function G(x: Word32, y: Word32, z: Word32): Word32 { Or32(And32(x, z), And32(y, Not32(z))) }
  function H(x: Word32, y: Word32, z: Word32): Word32 { Xor32(Xor32(x, y), z) }
  function I(x: Word32, y: Word32, z: Word32): Word32 { Xor32(y, Or32(x, Not32(z))) }

  /** The four as section 3.4 explains them: in each bit position F is a conditional on x, G
      one on z, H the parity, and I as written. */
  lemma BitByBit(x: Word32, y: Word32, z: Word32, j: nat)
    requires j < 32
    ensures Bit(F(x, y, z), j) <==> if Bit(x, j) then Bit(y, j) else Bit(z, j)
    ensures Bit(G(x, y, z), j) <==> if Bit(z, j) then Bit(x, j) else Bit(y, j)
    ensures Bit(H(x, y, z), j) <==> (Bit(x, j) <==> (Bit(y, j) <==> Bit(z, j)))
    ensures Bit(I(x, y, z), j) <==> !(Bit(y, j) <==> (Bit(x, j) || !Bit(z, j)))
  {
    Width();
    NotBits(x, j, 32);
    NotBits(z, j, 32);
    BitsOf(x, y, j);
    BitsOf(Not32(x), z, j);
    BitsOf(And(x, y), And(Not32(x), z), j);
    BitsOf(x, z, j);
    BitsOf(y, Not32(z), j);
    BitsOf(And(x, z), And(y, Not32(z)), j);
    BitsOf(Xor(x, y), z, j);
    BitsOf(x, Not32(z), j);
    BitsOf(y, Or(x, Not32(z)), j);
  }

  lemma {:induction false} BitsOf(x: nat, y: nat, j: nat)
    ensures Bit(And(x, y), j) <==> Bit(x, j) && Bit(y, j)
    ensures Bit(Or(x, y), j) <==> Bit(x, j) || Bit(y, j)
    ensures Bit(Xor(x, y), j) <==> !(Bit(x, j) <==> Bit(y, j))
  {
    Halves(x, y);
    if j > 0 {
      BitsOf(x / 2, y / 2, j - 1);
      assert Shr(And(x, y), j) == Shr(And(x / 2, y / 2), j - 1);
      assert Shr(Or(x, y), j) == Shr(Or(x / 2, y / 2), j - 1);
      assert Shr(Xor(x, y), j) == Shr(Xor(x / 2, y / 2), j - 1);
    }
  }

  lemma Halves(x: nat, y: nat)
    ensures And(x, y) / 2 == And(x / 2, y / 2) && (And(x, y) % 2 == 1 <==> x % 2 == 1 && y % 2 == 1)
    ensures Or(x, y) / 2 == Or(x / 2, y / 2) && (Or(x, y) % 2 == 1 <==> x % 2 == 1 || y % 2 == 1)
    ensures Xor(x, y) / 2 == Xor(x / 2, y / 2) && (Xor(x, y) % 2 == 1 <==> x % 2 != y % 2)
  {}

  lemma {:induction false} NotBits(x: nat, j: nat, n: nat)
    requires j < n && x < Pow2(n)
    ensures Bit(Complement(x, n), j) <==> !Bit(x, j)
  {
    NotHalf(x, n);
    if j > 0 {
      NotBits(x / 2, j - 1, n - 1);
    }
  }

  /** The table T of section 3.4. */
  function T1(j: nat): Word32 {
    match j
    case 0 => 0xd76aa478 case 1 => 0xe8c7b756 case 2 => 0x242070db case 3 => 0xc1bdceee
    case 4 => 0xf57c0faf case 5 => 0x4787c62a case 6 => 0xa8304613 case 7 => 0xfd469501
    case 8 => 0x698098d8 case 9 => 0x8b44f7af case 10 => 0xffff5bb1 case 11 => 0x895cd7be
    case 12 => 0x6b901122 case 13 => 0xfd987193 case 14 => 0xa679438e case _ => 0x49b40821
  }

  function T2(j: nat): Word32 {
    match j
    case 0 => 0xf61e2562 case 1 => 0xc040b340 case 2 => 0x265e5a51 case 3 => 0xe9b6c7aa
    case 4 => 0xd62f105d case 5 => 0x02441453 case 6 => 0xd8a1e681 case 7 => 0xe7d3fbc8
    case 8 => 0x21e1cde6 case 9 => 0xc33707d6 case 10 => 0xf4d50d87 case 11 => 0x455a14ed
    case 12 => 0xa9e3e905 case 13 => 0xfcefa3f8 case 14 => 0x676f02d9 case _ => 0x8d2a4c8a
  }

  function T3(j: nat): Word32 {
    match j
    case 0 => 0xfffa3942 case 1 => 0x8771f681 case 2 => 0x6d9d6122 case 3 => 0xfde5380c
    case 4 => 0xa4beea44 case 5 => 0x4bdecfa9 case 6 => 0xf6bb4b60 case 7 => 0xbebfbc70
    case 8 => 0x289b7ec6 case 9 => 0xeaa127fa case 10 => 0xd4ef3085 case 11 => 0x04881d05
    case 12 => 0xd9d4d039 case 13 => 0xe6db99e5 case 14 => 0x1fa27cf8 case _ => 0xc4ac5665
  }

  function T4(j: nat): Word32 {
    match j
    case 0 => 0xf4292244 case 1 => 0x432aff97 case 2 => 0xab9423a7 case 3 => 0xfc93a039
    case 4 => 0x655b59c3 case 5 => 0x8f0ccc92 case 6 => 0xffeff47d case 7 => 0x85845dd1
    case 8 => 0x6fa87e4f case 9 => 0xfe2ce6e0 case 10 => 0xa3014314 case 11 => 0x4e0811a1
    case 12 => 0xf7537e82 case 13 => 0xbd3af235 case 14 => 0x2ad7d2bb case _ => 0xeb86d391
  }

  function T(i: nat): Word32 {
    if i < 16 then T1(i) else if i < 32 then T2(i - 16) else if i < 48 then T3(i - 32) else T4(i - 48)
  }

  /** Which word of the block operation i takes. */
  function Index(i: nat): (k: nat)
    ensures k < 16
  {
    if i < 16 then i
    else if i < 32 then (1 + 5 * i) % 16
    else if i < 48 then (5 + 3 * i) % 16
    else 7 * i % 16
  }

  function Shift(i: nat): (s: nat)
    ensures 0 < s < 32
  {
    var r := i % 4;
    if i < 16 then 7 + 5 * r
    else if i < 32 then if r == 0 then 5 else if r == 1 then 9 else if r == 2 then 14 else 20
    else if i < 48 then if r == 0 then 4 else if r == 1 then 11 else if r == 2 then 16 else 23
    else if r == 0 then 6 else if r == 1 then 10 else if r == 2 then 15 else 21
  }

  function Mix(i: nat, b: Word32, c: Word32, d: Word32): Word32 {
    if i < 16 then F(b, c, d) else if i < 32 then G(b, c, d) else if i < 48 then H(b, c, d) else I(b, c, d)
  }

  /** Addition wraps at 32 bits. */
  function Sum(x: nat): Word32 {
    if x < 0x1_0000_0000 then x else Sum(x - 0x1_0000_0000)
  }

  lemma {:induction false} SumIsMod(x: nat)
    ensures Sum(x) == x % 0x1_0000_0000
  {
    if x >= 0x1_0000_0000 {
      SumIsMod(x - 0x1_0000_0000);
    }
  }

  /** x <<< s, one place at a time: the high bit comes back at the bottom. */
  function Rotate(x: Word32, s: nat): Word32
    decreases s
  {
    if s == 0 then x
    else Rotate(if x < 0x8000_0000 then 2 * x else 2 * x - 0x1_0000_0000 + 1, s - 1)
  }

  /** a = b + ((a + mix(b, c, d) + X[k] + T(i)) <<< s), and the names move round by one. */
  function Operation(i: nat, v: Vars, x: seq<Word32>): Vars
    requires |x| == 16 && i < 4 * |x|
  {
    Vars(v.d, Sum(v.b + Rotate(Sum(v.a + Mix(i, v.b, v.c, v.d) + x[Index(i)] + T(i)), Shift(i))), v.b, v.c)
  }

  /** The first n operations. */
  function Operations(n: nat, v: Vars, x: seq<Word32>): Vars
    requires |x| == 16 && n <= 4 * |x|
  {
    if n == 0 then v else Operation(n - 1, Operations(n - 1, v, x), x)
  }

  /** Four bytes, the low-order one first. */
  function ToWord(b: seq<Byte>): Word32
    requires |b| == 4
  {
    (b[0] as nat) + 0x100 * (b[1] as nat) + 0x1_0000 * (b[2] as nat) + 0x100_0000 * (b[3] as nat)
  }

  function Words(block: seq<Byte>): (x: seq<Word32>)
    requires |block| == BLOCK
    ensures |x| == 16
  {
    seq(16, k requires 0 <= k < 16 => ToWord(block[4 * k..4 * k + 4]))
  }

  function Step(v: Vars, block: seq<Byte>): Vars
    requires |block| == BLOCK
  {
    var x := Words(block);
    var w := Operations(4 * |x|, v, x);
    Vars(Sum(v.a + w.a), Sum(v.b + w.b), Sum(v.c + w.c), Sum(v.d + w.d))
  }

  /** What one block does to the four words. */
  type Stepper = (Vars, seq<Byte>) -> Vars

  function TheStep(): Stepper {
    (v: Vars, block: seq<Byte>) => if |block| == BLOCK then Step(v, block) else v
  }

  function Fold(step: Stepper, v: Vars, data: seq<Byte>): Vars
    requires |data| % BLOCK == 0
    decreases |data|
  {
    if data == [] then v else Fold(step, step(v, data[..BLOCK]), data[BLOCK..])
  }

  // ---- 3.5: output ----

  function Output(v: Vars): (r: seq<Byte>)
    ensures |r| == 16
  {
    LowBytes(v.a, 4) + LowBytes(v.b, 4) + LowBytes(v.c, 4) + LowBytes(v.d, 4)
  }

  function Digest(msg: seq<Byte>): seq<Byte> { Output(Fold(TheStep(), INIT, Pad(msg))) }
}

/** lib/utils/md5.cpp */
module MD5 {
  import opened Bits
  import opened Rfc1321
  import opened Wrappers

  /** (x << n) | (x >> (32 - n)) on a 32-bit word. */
  function RotateLeft(x: Word32, n: nat): Word32
    requires 0 < n < 32
  {
    Width();
    ShiftsFit(x, n);
    Or32(Shl(x, n) % 0x1_0000_0000, Shr(x, 32 - n))
  }

  lemma ShiftsFit(x: Word32, n: nat)
    requires 0 < n < 32
    ensures Shr(x, 32 - n) <= x && Shr(x, 32 - n) == x / Pow2(32 - n) < Pow2(n)
    ensures Shl(x, n) % 0x1_0000_0000 == Shl(x % Pow2(32 - n), n) == x % Pow2(32 - n) * Pow2(n)
  {
    Width();
    Pow2Add(32 - n, n);
    ShrIsDiv(x, 32 - n);
    ShlIsMul(x, n);
    ShlIsMul(x % Pow2(32 - n), n);
    ScaleWord(x, Pow2(32 - n), Pow2(n));
    DivBelow(x, Pow2(32 - n));
  }

  lemma DivBelow(x: nat, p: nat)
    requires p > 0
    ensures x / p <= x
  {
    MulMono(1, p, x / p);
  }

  /** The word operations come to the rotation of RFC 1321. */
  lemma RotateIs(x: Word32, n: nat)
    requires 0 < n < 32
    ensures RotateLeft(x, n) == Rotate(x, n)
  {
    ShiftsFit(x, n);
    OrAdds(x % Pow2(32 - n), n, x / Pow2(32 - n));
    RotateSplit(x, n);
  }

  lemma {:induction false} RotateSplit(x: Word32, n: nat)
    requires n <= 32
    ensures Rotate(x, n) == x % Pow2(32 - n) * Pow2(n) + x / Pow2(32 - n)
    decreases n
  {
    Width();
    if n == 0 {
      DivUnique(x, Pow2(32), 0, x);
    } else {
      var y := if x < 0x8000_0000 then 2 * x else 2 * x - 0x1_0000_0000 + 1;
      RotateSplit(y, n - 1);
      assert Pow2(32 - (n - 1)) == 2 * Pow2(32 - n) && Pow2(n) == 2 * Pow2(n - 1);
      HalfWord(n);
      OnePlace(x, y, Pow2(32 - n), Pow2(n - 1));
    }
  }

  lemma HalfWord(n: nat)
    requires 0 < n <= 32
    ensures Pow2(32 - n) * Pow2(n - 1) == 0x8000_0000
  {
    Width();
    Pow2Add(32 - n, n - 1);
  }

  /** A word as p high values times 2 * r low ones: one place to the left moves the top bit
      of the high part under the low part. */
  lemma OnePlace(x: nat, y: nat, p: nat, r: nat)
    requires p > 0 && r > 0 && x < 2 * (p * r)
    requires y == if x < p * r then 2 * x else 2 * x - 2 * (p * r) + 1
    ensures y % (2 * p) * r + y / (2 * p) == x % p * (2 * r) + x / p
  {
    var h, l := x / p, x % p;
    var t := if x < p * r then 0 else 1;
    HighPart(x, p, 2 * r);
    HighBit(h, l, p, r);
    TopBit(x, y, h, l, p, r, t);
    DivUnique(y, 2 * p, h - t * r, 2 * l + t);
    Spread(l, t, r);
  }

  lemma HighBit(h: nat, l: nat, p: nat, r: nat)
    requires l < p
    ensures h * p + l < p * r <==> h < r
  {
    if h < r {
      MulStep(h, r, p);
    } else {
      MulMono(r, h, p);
    }
  }

  lemma Spread(l: nat, t: nat, r: nat)
    ensures (2 * l + t) * r == l * (2 * r) + t * r
  {}

  lemma TopBit(x: nat, y: nat, h: nat, l: nat, p: nat, r: nat, t: nat)
    requires x == h * p + l && t <= 1 && h >= t * r
    requires y == if t == 0 then 2 * x else 2 * x - 2 * (p * r) + 1
    ensures y == (h - t * r) * (2 * p) + (2 * l + t)
  {
    if t == 1 {
      assert (h - r) * (2 * p) == 2 * (h * p) - 2 * (p * r);
    }
  }

  // ---- transform ----

  lemma SumNests(a: nat, b: nat)
    ensures Sum(a + Sum(b)) == Sum(a + b)
  {
    SumIsMod(b);
    SumIsMod(a + b);
    SumIsMod(a + Sum(b));
  }

  /** a += mix + x + ac; a = rotateLeft(a, s); a += b; every addition wraps. */
  method Accumulate(a: Word32, mix: Word32, b: Word32, x: Word32, s: nat, ac: Word32) returns (r: Word32)
    requires 0 < s < 32
    ensures r == Sum(b + Rotate(Sum(a + mix + x + ac), s))
  {
    r := Sum(a + Sum(Sum(mix + x) + ac));
    SumNests(ac, mix + x);
    SumNests(a, mix + x + ac);
    RotateIs(r, s);
    r := RotateLeft(r, s);
    r := Sum(r + b);
  }

  /** What an operation puts in a, with everything else about it left open, so that the order
      of the operations can be followed on its own. */
  type Op = (nat, Vars) -> Word32

  function Turn(v: Vars, a: Word32): Vars { Vars(v.d, a, v.b, v.c) }

  ghost predicate IsOp(op: Op, x: seq<Word32>)
    requires |x| == 16
  {
    forall i: nat, v: Vars {:trigger Operation(i, v, x)} ::
      i < 4 * |x| ==> Operation(i, v, x) == Turn(v, op(i, v))
  }

  function Run(op: Op, n: nat, v: Vars): Vars {
    if n == 0 then v else Turn(Run(op, n - 1, v), op(n - 1, Run(op, n - 1, v)))
  }

  lemma {:induction false} RunIs(op: Op, n: nat, v: Vars, x: seq<Word32>)
    requires |x| == 16 && n <= 4 * |x| && IsOp(op, x)
    ensures Run(op, n, v) == Operations(n, v, x)
  {
    if n > 0 {
      RunIs(op, n - 1, v, x);
    }
  }

  /** Four operations, after which the names are where they were. */
  lemma Quad(op: Op, i: nat, v0: Vars, a: Word32, b: Word32, c: Word32, d: Word32)
    requires Vars(a, b, c, d) == Run(op, i, v0)
    ensures var a1 := op(i, Vars(a, b, c, d));
      var d1 := op(i + 1, Vars(d, a1, b, c));
      var c1 := op(i + 2, Vars(c, d1, a1, b));
      var b1 := op(i + 3, Vars(b, c1, d1, a1));
      Vars(a1, b1, c1, d1) == Run(op, i + 4, v0)
  {
    assert Run(op, i + 2, v0) == Turn(Run(op, i + 1, v0), op(i + 1, Run(op, i + 1, v0)));
    assert Run(op, i + 3, v0) == Turn(Run(op, i + 2, v0), op(i + 2, Run(op, i + 2, v0)));
  }

  /** What operation i takes: the word of the block, the shift and the constant. */
  datatype Row = Row(k: nat, s: nat, ac: Word32)

  type Rows = nat -> Row

  /** The rows of RFC 1321, hidden in the same way. */
  ghost predicate IsRows(rows: Rows) {
    forall i: nat {:trigger T(i)} :: i < 64 ==> rows(i) == Row(Index(i), Shift(i), T(i))
  }

  function TheRows(): Rows { (i: nat) => if i < 64 then Row(Index(i), Shift(i), T(i)) else Row(0, 0, 0) }

  lemma TheRowsAre()
    ensures IsRows(TheRows())
  {}

  predicate Takes(row: Row, xs: seq<Word32>, x: Word32, s: nat, ac: Word32) {
    row.k < |xs| && x == xs[row.k] && s == row.s && ac == row.ac
  }

  /** The operation behind the two function values. */
  lemma OpEquation(op: Op, rows: Rows, i: nat, v: Vars, xs: seq<Word32>, mix: Word32)
    requires i < 64 && |xs| == 16 && IsOp(op, xs) && IsRows(rows) && mix == Mix(i, v.b, v.c, v.d)
    ensures rows(i).k < 16 && 0 < rows(i).s < 32
    ensures op(i, v) == Sum(v.b + Rotate(Sum(v.a + mix + xs[rows(i).k] + rows(i).ac), rows(i).s))
  {
    assert rows(i) == Row(Index(i), Shift(i), T(i));
    assert Operation(i, v, xs).b == op(i, v);
  }

  method Ff(a: Word32, b: Word32, c: Word32, d: Word32, x: Word32, s: nat, ac: Word32,
            ghost i: nat, ghost xs: seq<Word32>, ghost op: Op, ghost rows: Rows)
    returns (r: Word32)
    requires 0 <= i < 16 && |xs| == 16 && IsOp(op, xs) && IsRows(rows)
    requires rows(i).k < 16 && x == xs[rows(i).k] && s == rows(i).s && ac == rows(i).ac
    ensures r == op(i, Vars(a, b, c, d))
  {
    OpEquation(op, rows, i, Vars(a, b, c, d), xs, F(b, c, d));
    r := Accumulate(a, F(b, c, d), b, x, s, ac);
  }

  method Gg(a: Word32, b: Word32, c: Word32, d: Word32, x: Word32, s: nat, ac: Word32,
            ghost i: nat, ghost xs: seq<Word32>, ghost op: Op, ghost rows: Rows)
    returns (r: Word32)
    requires 16 <= i < 32 && |xs| == 16 && IsOp(op, xs) && IsRows(rows)
    requires rows(i).k < 16 && x == xs[rows(i).k] && s == rows(i).s && ac == rows(i).ac
    ensures r == op(i, Vars(a, b, c, d))
  {
    OpEquation(op, rows, i, Vars(a, b, c, d), xs, G(b, c, d));
    r := Accumulate(a, G(b, c, d), b, x, s, ac);
  }

  method Hh(a: Word32, b: Word32, c: Word32, d: Word32, x: Word32, s: nat, ac: Word32,
            ghost i: nat, ghost xs: seq<Word32>, ghost op: Op, ghost rows: Rows)
    returns (r: Word32)
    requires 32 <= i < 48 && |xs| == 16 && IsOp(op, xs) && IsRows(rows)
    requires rows(i).k < 16 && x == xs[rows(i).k] && s == rows(i).s && ac == rows(i).ac
    ensures r == op(i, Vars(a, b, c, d))
  {
    OpEquation(op, rows, i, Vars(a, b, c, d), xs, H(b, c, d));
    r := Accumulate(a, H(b, c, d), b, x, s, ac);
  }

  method Ii(a: Word32, b: Word32, c: Word32, d: Word32, x: Word32, s: nat, ac: Word32,
            ghost i: nat, ghost xs: seq<Word32>, ghost op: Op, ghost rows: Rows)
    returns (r: Word32)
    requires 48 <= i < 64 && |xs| == 16 && IsOp(op, xs) && IsRows(rows)
    requires rows(i).k < 16 && x == xs[rows(i).k] && s == rows(i).s && ac == rows(i).ac
    ensures r == op(i, Vars(a, b, c, d))
  {
    OpEquation(op, rows, i, Vars(a, b, c, d), xs, I(b, c, d));
    r := Accumulate(a, I(b, c, d), b, x, s, ac);
  }

  const S11 := 7
  const S12 := 12
  const S13 := 17
  const S14 := 22
  const S21 := 5
  const S22 := 9
  const S23 := 14
  const S24 := 20
  const S31 := 4
  const S32 := 11
  const S33 := 16
  const S34 := 23
  const S41 := 6
  const S42 := 10
  const S43 := 15
  const S44 := 21

  method FourFf(v: Vars, x: seq<Word32>, ac: seq<Word32>,
                ghost i: nat, ghost xs: seq<Word32>, ghost op: Op, ghost rows: Rows, ghost v0: Vars)
    returns (r: Vars)
    requires |x| == 4 && |ac| == 4 && 0 <= i <= 12 && |xs| == 16
    requires IsOp(op, xs) && IsRows(rows) && v == Run(op, i, v0)
    requires Takes(rows(i), xs, x[0], S11, ac[0]) && Takes(rows(i + 1), xs, x[1], S12, ac[1])
    requires Takes(rows(i + 2), xs, x[2], S13, ac[2]) && Takes(rows(i + 3), xs, x[3], S14, ac[3])
    ensures r == Run(op, i + 4, v0)
  {
    var a, b, c, d := v.a, v.b, v.c, v.d;
    Quad(op, i, v0, a, b, c, d);
    a := Ff(a, b, c, d, x[0], S11, ac[0], i, xs, op, rows);
    d := Ff(d, a, b, c, x[1], S12, ac[1], i + 1, xs, op, rows);
    c := Ff(c, d, a, b, x[2], S13, ac[2], i + 2, xs, op, rows);
    b := Ff(b, c, d, a, x[3], S14, ac[3], i + 3, xs, op, rows);
    r := Vars(a, b, c, d);
  }

  method FourGg(v: Vars, x: seq<Word32>, ac: seq<Word32>,
                ghost i: nat, ghost xs: seq<Word32>, ghost op: Op, ghost rows: Rows, ghost v0: Vars)
    returns (r: Vars)
    requires |x| == 4 && |ac| == 4 && 16 <= i <= 28 && |xs| == 16
    requires IsOp(op, xs) && IsRows(rows) && v == Run(op, i, v0)
    requires Takes(rows(i), xs, x[0], S21, ac[0]) && Takes(rows(i + 1), xs, x[1], S22, ac[1])
    requires Takes(rows(i + 2), xs, x[2], S23, ac[2]) && Takes(rows(i + 3), xs, x[3], S24, ac[3])
    ensures r == Run(op, i + 4, v0)
  {
    var a, b, c, d := v.a, v.b, v.c, v.d;
    Quad(op, i, v0, a, b, c, d);
    a := Gg(a, b, c, d, x[0], S21, ac[0], i, xs, op, rows);
    d := Gg(d, a, b, c, x[1], S22, ac[1], i + 1, xs, op, rows);
    c := Gg(c, d, a, b, x[2], S23, ac[2], i + 2, xs, op, rows);
    b := Gg(b, c, d, a, x[3], S24, ac[3], i + 3, xs, op, rows);
    r := Vars(a, b, c, d);
  }

  method FourHh(v: Vars, x: seq<Word32>, ac: seq<Word32>,
                ghost i: nat, ghost xs: seq<Word32>, ghost op: Op, ghost rows: Rows, ghost v0: Vars)
    returns (r: Vars)
    requires |x| == 4 && |ac| == 4 && 32 <= i <= 44 && |xs| == 16
    requires IsOp(op, xs) && IsRows(rows) && v == Run(op, i, v0)
    requires Takes(rows(i), xs, x[0], S31, ac[0]) && Takes(rows(i + 1), xs, x[1], S32, ac[1])
    requires Takes(rows(i + 2), xs, x[2], S33, ac[2]) && Takes(rows(i + 3), xs, x[3], S34, ac[3])
    ensures r == Run(op, i + 4, v0)
  {
    var a, b, c, d := v.a, v.b, v.c, v.d;
    Quad(op, i, v0, a, b, c, d);
    a := Hh(a, b, c, d, x[0], S31, ac[0], i, xs, op, rows);
    d := Hh(d, a, b, c, x[1], S32, ac[1], i + 1, xs, op, rows);
    c := Hh(c, d, a, b, x[2], S33, ac[2], i + 2, xs, op, rows);
    b := Hh(b, c, d, a, x[3], S34, ac[3], i + 3, xs, op, rows);
    r := Vars(a, b, c, d);
  }

  method FourIi(v: Vars, x: seq<Word32>, ac: seq<Word32>,
                ghost i: nat, ghost xs: seq<Word32>, ghost op: Op, ghost rows: Rows, ghost v0: Vars)
    returns (r: Vars)
    requires |x| == 4 && |ac| == 4 && 48 <= i <= 60 && |xs| == 16
    requires IsOp(op, xs) && IsRows(rows) && v == Run(op, i, v0)
    requires Takes(rows(i), xs, x[0], S41, ac[0]) && Takes(rows(i + 1), xs, x[1], S42, ac[1])
    requires Takes(rows(i + 2), xs, x[2], S43, ac[2]) && Takes(rows(i + 3), xs, x[3], S44, ac[3])
    ensures r == Run(op, i + 4, v0)
  {
    var a, b, c, d := v.a, v.b, v.c, v.d;
    Quad(op, i, v0, a, b, c, d);
    a := Ii(a, b, c, d, x[0], S41, ac[0], i, xs, op, rows);
    d := Ii(d, a, b, c, x[1], S42, ac[1], i + 1, xs, op, rows);
    c := Ii(c, d, a, b, x[2], S43, ac[2], i + 2, xs, op, rows);
    b := Ii(b, c, d, a, x[3], S44, ac[3], i + 3, xs, op, rows);
    r := Vars(a, b, c, d);
  }

  /** Every row, wherever one is mentioned. */
  lemma AllRows(rows: Rows)
    requires IsRows(rows)
    ensures forall i: nat {:trigger rows(i)} :: i < 64 ==> rows(i) == Row(Index(i), Shift(i), T(i))
  {
    forall i: nat | i < 64
      ensures rows(i) == Row(Index(i), Shift(i), T(i))
    {
      assert rows(i).ac == T(i);
    }
  }

  method Round1(v: Vars, x: seq<Word32>, ghost op: Op, ghost rows: Rows, ghost v0: Vars)
    returns (r: Vars)
    requires |x| == 16 && IsOp(op, x) && IsRows(rows)
    requires v == Run(op, 0, v0)
    ensures r == Run(op, |x|, v0)
  {
    AllRows(rows);
    r := v;
    r := FourFf(r, [x[0], x[1], x[2], x[3]], [0xd76aa478, 0xe8c7b756, 0x242070db, 0xc1bdceee],
                0, x, op, rows, v0);
    r := FourFf(r, [x[4], x[5], x[6], x[7]], [0xf57c0faf, 0x4787c62a, 0xa8304613, 0xfd469501],
                4, x, op, rows, v0);
    r := Round1Rest(r, x, op, rows, v0);
  }

  method Round1Rest(v: Vars, x: seq<Word32>, ghost op: Op, ghost rows: Rows, ghost v0: Vars)
    returns (r: Vars)
    requires |x| == 16 && IsOp(op, x) && IsRows(rows)
    requires v == Run(op, 8, v0)
    ensures r == Run(op, |x|, v0)
  {
    AllRows(rows);
    r := v;
    r := FourFf(r, [x[8], x[9], x[10], x[11]], [0x698098d8, 0x8b44f7af, 0xffff5bb1, 0x895cd7be],
                8, x, op, rows, v0);
    r := FourFf(r, [x[12], x[13], x[14], x[15]], [0x6b901122, 0xfd987193, 0xa679438e, 0x49b40821],
                12, x, op, rows, v0);
  }

  method Round2(v: Vars, x: seq<Word32>, ghost op: Op, ghost rows: Rows, ghost v0: Vars)
    returns (r: Vars)
    requires |x| == 16 && IsOp(op, x) && IsRows(rows)
    requires v == Run(op, |x|, v0)
    ensures r == Run(op, 2 * |x|, v0)
  {
    AllRows(rows);
    r := v;
    r := FourGg(r, [x[1], x[6], x[11], x[0]], [0xf61e2562, 0xc040b340, 0x265e5a51, 0xe9b6c7aa],
                16, x, op, rows, v0);
    r := FourGg(r, [x[5], x[10], x[15], x[4]], [0xd62f105d, 0x2441453, 0xd8a1e681, 0xe7d3fbc8],
                20, x, op, rows, v0);
    r := Round2Rest(r, x, op, rows, v0);
  }

  method Round2Rest(v: Vars, x: seq<Word32>, ghost op: Op, ghost rows: Rows, ghost v0: Vars)
    returns (r: Vars)
    requires |x| == 16 && IsOp(op, x) && IsRows(rows)
    requires v == Run(op, 24, v0)
    ensures r == Run(op, 2 * |x|, v0)
  {
    AllRows(rows);
    r := v;
    r := FourGg(r, [x[9], x[14], x[3], x[8]], [0x21e1cde6, 0xc33707d6, 0xf4d50d87, 0x455a14ed],
                24, x, op, rows, v0);
    r := FourGg(r, [x[13], x[2], x[7], x[12]], [0xa9e3e905, 0xfcefa3f8, 0x676f02d9, 0x8d2a4c8a],
                28, x, op, rows, v0);
  }

  method Round3(v: Vars, x: seq<Word32>, ghost op: Op, ghost rows: Rows, ghost v0: Vars)
    returns (r: Vars)
    requires |x| == 16 && IsOp(op, x) && IsRows(rows)
    requires v == Run(op, 2 * |x|, v0)
    ensures r == Run(op, 3 * |x|, v0)
  {
    AllRows(rows);
    r := v;
    r := FourHh(r, [x[5], x[8], x[11], x[14]], [0xfffa3942, 0x8771f681, 0x6d9d6122, 0xfde5380c],
                32, x, op, rows, v0);
    r := FourHh(r, [x[1], x[4], x[7], x[10]], [0xa4beea44, 0x4bdecfa9, 0xf6bb4b60, 0xbebfbc70],
                36, x, op, rows, v0);
    r := Round3Rest(r, x, op, rows, v0);
  }

  method Round3Rest(v: Vars, x: seq<Word32>, ghost op: Op, ghost rows: Rows, ghost v0: Vars)
    returns (r: Vars)
    requires |x| == 16 && IsOp(op, x) && IsRows(rows)
    requires v == Run(op, 40, v0)
    ensures r == Run(op, 3 * |x|, v0)
  {
    AllRows(rows);
    r := v;
    r := FourHh(r, [x[13], x[0], x[3], x[6]], [0x289b7ec6, 0xeaa127fa, 0xd4ef3085, 0x4881d05],
                40, x, op, rows, v0);
    r := FourHh(r, [x[9], x[12], x[15], x[2]], [0xd9d4d039, 0xe6db99e5, 0x1fa27cf8, 0xc4ac5665],
                44, x, op, rows, v0);
  }

  method Round4(v: Vars, x: seq<Word32>, ghost op: Op, ghost rows: Rows, ghost v0: Vars)
    returns (r: Vars)
    requires |x| == 16 && IsOp(op, x) && IsRows(rows)
    requires v == Run(op, 3 * |x|, v0)
    ensures r == Run(op, 4 * |x|, v0)
  {
    AllRows(rows);
    r := v;
    r := FourIi(r, [x[0], x[7], x[14], x[5]], [0xf4292244, 0x432aff97, 0xab9423a7, 0xfc93a039],
                48, x, op, rows, v0);
    r := FourIi(r, [x[12], x[3], x[10], x[1]], [0x655b59c3, 0x8f0ccc92, 0xffeff47d, 0x85845dd1],
                52, x, op, rows, v0);
    r := Round4Rest(r, x, op, rows, v0);
  }

  method Round4Rest(v: Vars, x: seq<Word32>, ghost op: Op, ghost rows: Rows, ghost v0: Vars)
    returns (r: Vars)
    requires |x| == 16 && IsOp(op, x) && IsRows(rows)
    requires v == Run(op, 56, v0)
    ensures r == Run(op, 4 * |x|, v0)
  {
    AllRows(rows);
    r := v;
    r := FourIi(r, [x[8], x[15], x[6], x[13]], [0x6fa87e4f, 0xfe2ce6e0, 0xa3014314, 0x4e0811a1],
                56, x, op, rows, v0);
    r := FourIi(r, [x[4], x[11], x[2], x[9]], [0xf7537e82, 0xbd3af235, 0x2ad7d2bb, 0xeb86d391],
                60, x, op, rows, v0);
  }

  // ---- Bytes and words ----

  /** fromBytes, little endian. */
  function FromBytes(b: seq<Byte>): nat
    requires |b| == 4
  {
    Or(Or(Or(Shl(b[0], 0), Shl(b[1], 8)), Shl(b[2], 16)), Shl(b[3], 24))
  }

  lemma {:induction false} OrComm(x: nat, y: nat)
    ensures Or(x, y) == Or(y, x)
  {
    if x != 0 || y != 0 {
      OrComm(x / 2, y / 2);
    }
  }

  lemma OrAbove(low: nat, high: nat, k: nat, p: nat)
    requires low < p == Pow2(k)
    ensures Or(low, Shl(high, k)) == low + high * p
  {
    OrComm(low, Shl(high, k));
    OrAdds(high, k, low);
    ShlIsMul(high, k);
  }

  lemma BytePowers()
    ensures Pow2(8) == 0x100 && Pow2(16) == 0x1_0000 && Pow2(24) == 0x100_0000
  {
    assert Pow2(8) == 0x100;
    Pow2Add(8, 8);
    Pow2Add(16, 8);
  }

  lemma FromBytesIs(b: seq<Byte>)
    requires |b| == 4
    ensures FromBytes(b) == ToWord(b)
  {
    BytePowers();
    var x1: nat := (b[0] as nat) + (b[1] as nat) * 0x100;
    var x2: nat := x1 + (b[2] as nat) * 0x1_0000;
    assert Or(Shl(b[0], 0), Shl(b[1], 8)) == x1 by { OrAbove(b[0], b[1], 8, 0x100); }
    assert Or(x1, Shl(b[2], 16)) == x2 by { OrAbove(x1, b[2], 16, 0x1_0000); }
    assert Or(x2, Shl(b[3], 24)) == ToWord(b) by { OrAbove(x2, b[3], 24, 0x100_0000); }
  }

  /** decode: one word, then the rest. */
  function Decode(input: seq<Byte>): (x: seq<Word32>)
    requires |input| % 4 == 0
    ensures |x| == |input| / 4
    decreases |input|
  {
    if input == [] then []
    else
      FromBytesIs(input[..4]);
      [FromBytes(input[..4])] + Decode(input[4..])
  }

  lemma {:induction false} DecodeAt(input: seq<Byte>, k: nat)
    requires |input| % 4 == 0 && 4 * k + 4 <= |input|
    ensures Decode(input)[k] == ToWord(input[4 * k..4 * k + 4])
    decreases k
  {
    FromBytesIs(input[..4]);
    if k > 0 {
      DecodeAt(input[4..], k - 1);
      SliceOfRest(input, 4, 4 * (k - 1), 4 * k);
    }
  }

  lemma SliceOfRest(s: seq<Byte>, a: nat, from: nat, upTo: nat)
    requires from <= upTo && a + upTo <= |s|
    ensures s[a..][from..upTo] == s[a + from..a + upTo]
  {}

  lemma DecodeIsWords(block: seq<Byte>)
    requires |block| == BLOCK
    ensures Decode(block) == Words(block)
  {
    forall k | 0 <= k < 16
      ensures Decode(block)[k] == Words(block)[k]
    {
      DecodeAt(block, k);
    }
  }

  /** toBytes, little endian, of a word of k bytes. */
  function ToBytes(w: nat, k: nat): (b: seq<Byte>)
    ensures |b| == k
  {
    seq(k, i requires 0 <= i < k => Shr(w, 8 * i) % 0x100)
  }

  lemma ShrFour(w: nat, k: nat)
    ensures Shr(w, k + 4) == Shr(w / 16, k) && w / 16 / 16 == w / 256
  {
    assert Shr(w, k + 4) == Shr(w / 2, k + 3) == Shr(w / 4, k + 2) == Shr(w / 8, k + 1);
  }

  lemma {:induction false} ToBytesAt(w: nat, i: nat)
    ensures Shr(w, 8 * i) % 0x100 == ByteAt(w, i)
  {
    if i > 0 {
      ShrFour(w, 8 * i - 4);
      ShrFour(w / 16, 8 * i - 8);
      ToBytesAt(w / 256, i - 1);
    }
  }

  lemma ToBytesIs(w: nat, k: nat)
    ensures ToBytes(w, k) == LowBytes(w, k)
  {
    forall i | 0 <= i < k
      ensures ToBytes(w, k)[i] == LowBytes(w, k)[i]
    {
      ToBytesAt(w, i);
    }
  }

  /** encode of the state and decode of what comes out give the state back. */
  lemma WordsRoundTrip(w: Word32)
    ensures FromBytes(ToBytes(w, 4)) == w
  {
    ToBytesIs(w, 4);
    FromBytesIs(ToBytes(w, 4));
    ByteAtIs(w);
  }

  lemma ByteAtIs(w: nat)
    ensures ByteAt(w, 0) == w % 256 && ByteAt(w, 1) == w / 256 % 256
    ensures ByteAt(w, 2) == w / 256 / 256 % 256 && ByteAt(w, 3) == w / 256 / 256 / 256 % 256
  {
    var u, v := w / 256, w / 256 / 256;
    assert ByteAt(w, 1) == ByteAt(u, 0) && ByteAt(w, 2) == ByteAt(u, 1) == ByteAt(v, 0);
    assert ByteAt(w, 3) == ByteAt(u, 2) == ByteAt(v, 1) == ByteAt(v / 256, 0);
  }

  /** Only the low 8 * k bits of a number show in its k low bytes. */
  lemma {:induction false} LowBytesWrap(n: nat, k: nat, i: nat)
    requires i < k
    ensures ByteAt(n % Pow2(8 * k), i) == ByteAt(n, i)
    decreases i
  {
    var p := Pow2(8 * (k - 1));
    Pow2Add(8, 8 * (k - 1));
    assert Pow2(8) == 256;
    ByteSplit(n, p);
    if i > 0 {
      LowBytesWrap(n / 256, k - 1, i - 1);
    }
  }

  lemma ByteSplit(n: nat, p: nat)
    requires p > 0
    ensures n % (256 * p) % 256 == n % 256 && n % (256 * p) / 256 == n / 256 % p
  {
    var q, r := n / 256 / p, n / 256 % p;
    assert n / 256 == q * p + r;
    assert n == q * (256 * p) + (256 * r + n % 256) by {
      assert (q * p) * 256 == q * (256 * p);
    }
    DivUnique(n, 256 * p, q, 256 * r + n % 256);
  }

  /** The operation in full, hidden behind a function value. */
  function TheOp(x: seq<Word32>): Op
    requires |x| == 16
  {
    (i: nat, v: Vars) => if i < 4 * |x| then Operation(i, v, x).b else 0
  }

  lemma TheOpIs(x: seq<Word32>)
    requires |x| == 16
    ensures IsOp(TheOp(x), x)
  {}

  method Rounds(v0: Vars, x: seq<Word32>) returns (r: Vars)
    requires |x| == 16
    ensures r == Operations(4 * |x|, v0, x)
  {
    ghost var op := TheOp(x);
    TheOpIs(x);
    ghost var rows := TheRows();
    TheRowsAre();
    r := Round1(v0, x, op, rows, v0);
    r := Round2(r, x, op, rows, v0);
    r := Round3(r, x, op, rows, v0);
    r := Round4(r, x, op, rows, v0);
    RunIs(op, 4 * |x|, v0, x);
  }

  // ---- The blocks of a message ----

  /** step is the step of RFC 1321, again with everything else about it left open. */
  ghost predicate IsStep(step: Stepper) {
    forall v: Vars, block: seq<Byte> {:trigger Step(v, block)} ::
      |block| == BLOCK ==> step(v, block) == Step(v, block)
  }

  lemma TheStepIs()
    ensures IsStep(TheStep())
  {}

  /** A block at the end of the message is one more step on the state. */
  lemma {:induction false} FoldBlock(step: Stepper, v: Vars, a: seq<Byte>, block: seq<Byte>)
    requires |a| % BLOCK == 0 && |block| == BLOCK
    ensures Fold(step, v, a + block) == step(Fold(step, v, a), block)
    decreases |a|
  {
    if a == [] {
      assert a + block == block && block[..BLOCK] == block && block[BLOCK..] == [];
    } else {
      FoldBlock(step, step(v, a[..BLOCK]), a[BLOCK..], block);
      assert (a + block)[..BLOCK] == a[..BLOCK];
      assert (a + block)[BLOCK..] == a[BLOCK..] + block;
    }
  }

  // ---- The bit count ----

  const WRAP: nat := 0x1_0000_0000_0000_0000

  lemma CountWraps(n: nat)
    ensures 8 * n % WRAP / 8 % BLOCK == n % BLOCK
  {
    var w: nat := WRAP / 8;
    var q, r := n / w, n % w;
    DivUnique(8 * n, WRAP, q, 8 * r);
    DivUnique(n, BLOCK, q * (w / BLOCK) + r / BLOCK, r % BLOCK);
  }

  /** The index of the code, (count >> 3) & 0x3f, is where the buffered bytes end even after
      the count has wrapped. */
  lemma IndexIs(n: nat)
    ensures And(Shr(8 * n % WRAP, 3), 0x3f) == n % BLOCK
  {
    CountWraps(n);
    MaskIs(8 * n % WRAP);
  }

  lemma MaskIs(c: nat)
    ensures And(Shr(c, 3), 0x3f) == c / 8 % BLOCK
  {
    assert Pow2(6) == 64 && Pow2(3) == 8;
    ShrIsDiv(c, 3);
    AndLowMask(c / 8, 6);
  }

  /** The bytes of a message that are in whole blocks. */
  function Full(n: nat): (f: nat)
    ensures f % BLOCK == 0 && f <= n && f + n % BLOCK == n
  {
    n - n % BLOCK
  }

  /** Data that stays in the buffer. */
  lemma Joins(m: seq<Byte>, data: seq<Byte>)
    requires |m| % BLOCK + |data| < BLOCK
    ensures var all := m + data;
      && all[..Full(|all|)] == m[..Full(|m|)] && |all| % BLOCK == |m| % BLOCK + |data|
      && all[Full(|all|)..] == m[Full(|m|)..] + data
  {
    assert (m + data)[Full(|m|)..] == m[Full(|m|)..] + data;
  }

  /** Data that completes the block in the buffer. */
  lemma Completes(m: seq<Byte>, data: seq<Byte>)
    requires |m| % BLOCK + |data| >= BLOCK
    ensures var all, part := m + data, BLOCK - |m| % BLOCK;
      && all[..Full(|m|) + BLOCK] == m[..Full(|m|)] + m[Full(|m|)..] + data[..part]
      && all[Full(|m|) + BLOCK..] == data[part..]
  {
    CutWithin(m, data, BLOCK - |m| % BLOCK);
    assert m == m[..Full(|m|)] + m[Full(|m|)..];
  }

  lemma CutWithin(m: seq<Byte>, data: seq<Byte>, part: nat)
    requires part <= |data|
    ensures (m + data)[..|m| + part] == m + data[..part]
    ensures (m + data)[|m| + part..] == data[part..]
  {}

  lemma CountAdds(a: nat, b: nat)
    ensures (8 * a % WRAP + 8 * b % WRAP) % WRAP == 8 * (a + b) % WRAP
  {
    var x, y: nat := 8 * a, 8 * b;
    var s: nat := x % WRAP + y % WRAP;
    DivUnique(x + y, WRAP, x / WRAP + y / WRAP + s / WRAP, s % WRAP);
  }

  function Concat(chunks: seq<seq<Byte>>): seq<Byte> {
    if chunks == [] then [] else chunks[0] + Concat(chunks[1..])
  }

  class MD5 {
    const state: array<Word32>
    var count: nat
    const buffer: array<Byte>
    /** What has been given to update since the last reset. */
    ghost var msg: seq<Byte>

    ghost predicate ValidFor(step: Stepper)
      reads this, state, buffer
    {
      && state.Length == 4 && buffer.Length == BLOCK
      && count == 8 * |msg| % WRAP
      && StateVars() == Fold(step, INIT, msg[..Full(|msg|)])
      && buffer[..|msg| % BLOCK] == msg[Full(|msg|)..]
    }

    ghost predicate Valid()
      reads this, state, buffer
    {
      ValidFor(TheStep())
    }

    ghost function StateVars(): Vars
      requires state.Length == 4
      reads state
    {
      Vars(state[0], state[1], state[2], state[3])
    }

    constructor ()
      ensures Valid() && msg == [] && fresh(state) && fresh(buffer)
    {
      state, buffer := new Word32[4](_ => 0), new Byte[64](_ => 0);
      count, msg := 0, [];
      new;
      Reset();
    }

    method Reset()
      requires state.Length == 4 && buffer.Length == BLOCK
      modifies this, state, buffer
      ensures Valid() && msg == []
    {
      state[0], state[1], state[2], state[3] := INIT.a, INIT.b, INIT.c, INIT.d;
      count := 0;
      forall i | 0 <= i < buffer.Length { buffer[i] := 0; }
      msg := [];
    }

    method Transform(block: seq<Byte>)
      requires state.Length == 4 && |block| == BLOCK
      modifies state
      ensures StateVars() == Step(old(StateVars()), block)
    {
      var x := Decode(block);
      DecodeIsWords(block);
      var w := Rounds(Vars(state[0], state[1], state[2], state[3]), x);
      state[0] := Sum(state[0] + w.a);
      state[1] := Sum(state[1] + w.b);
      state[2] := Sum(state[2] + w.c);
      state[3] := Sum(state[3] + w.d);
    }

    /** transform, in terms of the message so far. */
    method Absorb(block: seq<Byte>, ghost m: seq<Byte>, ghost step: Stepper)
      requires state.Length == 4 && |block| == BLOCK && |m| % BLOCK == 0
      requires IsStep(step) && StateVars() == Fold(step, INIT, m)
      modifies state
      ensures StateVars() == Fold(step, INIT, m + block)
    {
      Transform(block);
      FoldBlock(step, INIT, m, block);
    }

    /** memcpy into the buffer. */
    method CopyIn(index: nat, data: seq<Byte>)
      requires index + |data| <= buffer.Length
      modifies buffer
      ensures buffer[..index] == old(buffer[..index]) && buffer[index..index + |data|] == data
    {
      forall i | 0 <= i < |data| { buffer[index + i] := data[i]; }
    }

    method Update(data: seq<Byte>)
      requires Valid()
      modifies this, state, buffer
      ensures Valid() && msg == old(msg) + data
    {
      TheStepIs();
      UpdateFor(data, TheStep());
    }

    method UpdateFor(data: seq<Byte>, ghost step: Stepper)
      requires ValidFor(step) && IsStep(step)
      modifies this, state, buffer
      ensures ValidFor(step) && msg == old(msg) + data
    {
      var index := Index();
      ghost var was := msg;
      CountAdds(|msg|, |data|);
      count := (count + 8 * |data| % WRAP) % WRAP;
      msg := msg + data;
      var partLen := 64 - index;
      if |data| < partLen {
        Joins(was, data);
        CopyIn(index, data);
        return;
      }
      Completes(was, data);
      Spill(index, data, was, step);
    }

    /** The data fills the buffer and the blocks after it. */
    method Spill(index: nat, data: seq<Byte>, ghost was: seq<Byte>, ghost step: Stepper)
      requires state.Length == 4 && buffer.Length == BLOCK && IsStep(step)
      requires index == |was| % BLOCK && |data| >= BLOCK - index && msg == was + data
      requires msg[..Full(|was|) + BLOCK] == was[..Full(|was|)] + was[Full(|was|)..] + data[..BLOCK - index]
      requires msg[Full(|was|) + BLOCK..] == data[BLOCK - index..]
      requires StateVars() == Fold(step, INIT, was[..Full(|was|)]) && buffer[..index] == was[Full(|was|)..]
      modifies state, buffer
      ensures StateVars() == Fold(step, INIT, msg[..Full(|msg|)])
      ensures buffer[..|msg| % BLOCK] == msg[Full(|msg|)..]
    {
      var partLen := BLOCK - index;
      FillBuffer(index, data[..partLen], was[..Full(|was|)], step);
      var rest := Blocks(data[partLen..], msg, step);
      CopyIn(0, rest);
    }

    /** The first block, which the data completes in the buffer. */
    method FillBuffer(index: nat, part: seq<Byte>, ghost full: seq<Byte>, ghost step: Stepper)
      requires state.Length == 4 && buffer.Length == BLOCK && index + |part| == BLOCK
      requires IsStep(step) && |full| % BLOCK == 0 && StateVars() == Fold(step, INIT, full)
      modifies state, buffer
      ensures StateVars() == Fold(step, INIT, full + old(buffer[..index]) + part)
    {
      CopyIn(index, part);
      assert full + buffer[..] == full + old(buffer[..index]) + part;
      Absorb(buffer[..], full, step);
    }

    method Index() returns (index: nat)
      requires count == 8 * |msg| % WRAP
      ensures index == |msg| % BLOCK
    {
      index := And(Shr(count, 3), 0x3f);
      IndexIs(|msg|);
    }

    /** One block less of what is left of m. */
    static lemma BlockLess(m: seq<Byte>, rest: seq<Byte>)
      requires 64 <= |rest| <= |m| && (|m| - |rest|) % BLOCK == 0 && rest == m[|m| - |rest|..]
      ensures (|m| - |rest[64..]|) % BLOCK == 0 && rest[64..] == m[|m| - |rest[64..]|..]
      ensures m[..|m| - |rest|] + rest[..64] == m[..|m| - |rest[64..]|]
    {}

    static lemma LeftOver(n: nat, left: nat)
      requires left <= n && left < BLOCK && (n - left) % BLOCK == 0
      ensures left == n % BLOCK
    {}

    /** The loop of update, over the blocks of the data that need no buffer. */
    method Blocks(data: seq<Byte>, ghost m: seq<Byte>, ghost step: Stepper) returns (rest: seq<Byte>)
      requires state.Length == 4 && IsStep(step)
      requires |data| <= |m| && (|m| - |data|) % BLOCK == 0 && data == m[|m| - |data|..]
      requires StateVars() == Fold(step, INIT, m[..|m| - |data|])
      modifies state
      ensures |rest| == |m| % BLOCK && rest == m[|m| - |rest|..]
      ensures StateVars() == Fold(step, INIT, m[..|m| - |rest|])
    {
      rest := data;
      while |rest| >= 64
        invariant |rest| <= |m| && (|m| - |rest|) % BLOCK == 0 && rest == m[|m| - |rest|..]
        invariant StateVars() == Fold(step, INIT, m[..|m| - |rest|])
        decreases |rest|
      {
        ghost var done := m[..|m| - |rest|];
        Absorb(rest[..64], done, step);
        BlockLess(m, rest);
        rest := rest[64..];
      }
      LeftOver(|m|, |rest|);
    }

    method UpdateChunks(chunks: seq<seq<Byte>>, ghost step: Stepper)
      requires ValidFor(step) && IsStep(step)
      modifies this, state, buffer
      ensures ValidFor(step) && msg == old(msg) + Concat(chunks)
    {
      assert chunks[0..] == chunks;
      for i := 0 to |chunks|
        invariant ValidFor(step) && msg + Concat(chunks[i..]) == old(msg) + Concat(chunks)
      {
        assert chunks[i..][1..] == chunks[i + 1..];
        Regroup(msg, chunks[i], Concat(chunks[i + 1..]));
        UpdateFor(chunks[i], step);
      }
    }

    /** A stream fills the buffer as long as its contents last. */
    method UpdateStream(contents: seq<Byte>, ghost step: Stepper)
      requires ValidFor(step) && IsStep(step)
      modifies this, state, buffer
      ensures ValidFor(step) && msg == old(msg) + contents
    {
      var left := contents;
      var n := if |left| < 4096 then |left| else 4096;
      while n > 0
        invariant ValidFor(step)
        invariant n == if |left| < 4096 then |left| else 4096
        invariant msg + left == old(msg) + contents
        decreases |left|
      {
        Regroup(msg, left[..n], left[n..]);
        assert left == left[..n] + left[n..];
        UpdateFor(left[..n], step);
        left := left[n..];
        n := if |left| < 4096 then |left| else 4096;
      }
    }

    /** digest: pad, append the length, give out the state and start afresh. */
    method Digest() returns (digest: seq<Byte>)
      requires Valid()
      modifies this, state, buffer
      ensures digest == Rfc1321.Digest(old(msg))
      ensures Valid() && msg == []
    {
      TheStepIs();
      digest := DigestFor(TheStep());
      Reset();
    }

    method DigestFor(ghost step: Stepper) returns (digest: seq<Byte>)
      requires ValidFor(step) && IsStep(step)
      modifies this, state, buffer
      ensures digest == Output(Fold(step, INIT, Pad(old(msg))))
      ensures state.Length == 4 && buffer.Length == BLOCK
    {
      var padding := [0x80] + Zeros(63);
      var bits := ToBytes(count, 8);
      var index := Index();
      var padLen := if index < 56 then 56 - index else 120 - index;
      PaddingIs(|msg|, padding, padLen, bits);
      ghost var m := msg;
      UpdateFor(padding[..padLen], step);
      UpdateFor(bits, step);
      assert msg == Pad(m);
      assert msg[..|msg|] == msg;
      digest := ToBytes(state[0], 4) + ToBytes(state[1], 4) + ToBytes(state[2], 4) + ToBytes(state[3], 4);
      EncodeIs(StateVars());
    }
  }

  lemma EncodeIs(v: Vars)
    ensures ToBytes(v.a, 4) + ToBytes(v.b, 4) + ToBytes(v.c, 4) + ToBytes(v.d, 4) == Output(v)
  {
    ToBytesIs(v.a, 4);
    ToBytesIs(v.b, 4);
    ToBytesIs(v.c, 4);
    ToBytesIs(v.d, 4);
  }

  /** What digest appends is the padding and the length of RFC 1321. */
  lemma PaddingIs(n: nat, padding: seq<Byte>, padLen: nat, bits: seq<Byte>)
    requires padding == [0x80] + Zeros(63) && bits == ToBytes(8 * n % WRAP, 8)
    requires padLen == if n % BLOCK < 56 then 56 - n % BLOCK else 120 - n % BLOCK
    ensures padLen <= 64 && padding[..padLen] == [0x80] + Zeros(ZeroCount(n)) && bits == LowBytes(8 * n, 8)
  {
    assert padLen == 1 + ZeroCount(n);
    ToBytesIs(8 * n % WRAP, 8);
    LengthWraps(8 * n);
  }

  lemma LengthWraps(bits: nat)
    ensures LowBytes(bits % WRAP, 8) == LowBytes(bits, 8)
  {
    Width();
    Pow2Add(32, 32);
    forall i | 0 <= i < 8
      ensures ByteAt(bits % WRAP, i) == ByteAt(bits, i)
    {
      LowBytesWrap(bits, 8, i);
    }
  }

  lemma Regroup(a: seq<Byte>, b: seq<Byte>, c: seq<Byte>)
    ensures a + b + c == a + (b + c)
  {}

  /** MD5::digest(data) */
  method DigestOf(data: seq<Byte>) returns (digest: seq<Byte>)
    ensures digest == Rfc1321.Digest(data)
  {
    var md5 := new MD5();
    md5.Update(data);
    assert md5.msg == data;
    digest := md5.Digest();
  }

  /** Any way of cutting a message into calls of update gives the digest of the message. */
  method DigestChunks(chunks: seq<seq<Byte>>) returns (digest: seq<Byte>)
    ensures digest == Rfc1321.Digest(Concat(chunks))
  {
    var md5 := new MD5();
    TheStepIs();
    md5.UpdateChunks(chunks, TheStep());
    assert md5.msg == Concat(chunks);
    digest := md5.Digest();
  }

  /** MD5::digest(stream): eof says whether the stream ends at the end of the file or has
      failed, with this error. */
  method DigestStream(contents: seq<Byte>, eof: bool, errno: nat) returns (r: Result<seq<Byte>, nat>)
    ensures r == if eof then Ok(Rfc1321.Digest(contents)) else Failure(errno)
  {
    var md5 := new MD5();
    TheStepIs();
    md5.UpdateStream(contents, TheStep());
    if !eof {
      return Failure(errno);
    }
    assert md5.msg == contents;
    var digest := md5.Digest();
    r := Ok(digest);
  }
}
