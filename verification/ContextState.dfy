/** The 64-bit word of an AOContext: four flags, a reference counter and a block-close
    counter in one atomic integer, and the record the rest of the model works with. */
module ContextState {
  import opened Bits

  const WORD: nat := 0x1_0000_0000_0000_0000

  const PREPARING_FOR_CLOSING: nat := 1
  const CLOSING: nat := 2
  const CLOSED: nat := 4
  const LOCK_CLOSE_HANDLER_LIST: nat := 8

  const REF_OFFSET: nat := 8
  const REF_MASK: nat := 0xFF_FFFF_FF00
  const BLOCK_OFFSET: nat := 40
  const BLOCK_MASK: nat := 0xFFFF_FF00_0000_0000
  const ONE_REF: nat := 0x100
  const ONE_BLOCK: nat := 0x100_0000_0000

  const MAX_REFS: nat := 0xFFFF_FFFF
  const MAX_BLOCKS: nat := 0xFF_FFFF

  /** What the word means. */
  datatype Fields = Fields(preparing: bool, closing: bool, closed: bool, locked: bool,
                           refs: int, blocks: int)
  {
    predicate InRange() { 0 <= refs <= MAX_REFS && 0 <= blocks <= MAX_BLOCKS }

    /** The word that stands for this record. */
    function Pack(): nat
      requires InRange()
    {
      (if preparing then PREPARING_FOR_CLOSING else 0) + (if closing then CLOSING else 0)
      + (if closed then CLOSED else 0) + (if locked then LOCK_CLOSE_HANDLER_LIST else 0)
      + ONE_REF * refs + ONE_BLOCK * blocks
    }
  }

  /** Reading the fields of a word with the masks and shifts of the source. */
  function View(w: nat): Fields {
    Fields(And(w, PREPARING_FOR_CLOSING) != 0, And(w, CLOSING) != 0, And(w, CLOSED) != 0,
           And(w, LOCK_CLOSE_HANDLER_LIST) != 0,
           Shr(And(w, REF_MASK), REF_OFFSET), Shr(And(w, BLOCK_MASK), BLOCK_OFFSET))
  }

  /** The atomic operations of AOContextState on its word. */
  datatype WordOp = Keep | Add(k: nat) | Sub(k: nat) | SetFlag(flag: nat) | ClearFlag(flag: nat)

  function OnWord(op: WordOp, w: nat): nat {
    match op
    case Keep => w
    case Add(k) => FetchAdd(w, k)
    case Sub(k) => FetchSub(w, k)
    case SetFlag(flag) => Or(w, flag)
    case ClearFlag(flag) => And(w, if flag < WORD then Not(flag) else 0)
  }

  /** std::atomic arithmetic: the sum and the difference modulo 2^64. */
  function FetchAdd(w: nat, k: nat): nat { (w + k) % WORD }
  function FetchSub(w: nat, k: nat): nat { (w - k) % WORD }
  function Not(x: nat): nat
    requires x < WORD
  {
    WORD - 1 - x
  }

  lemma {:induction false} ShrShl(x: nat, k: nat)
    ensures Shr(Shl(x, k), k) == x
  {
    if k > 0 { ShrShl(x, k - 1); }
  }

  /** The masked field of a word as a quotient and a remainder. */
  lemma FieldAt(w: nat, offset: nat, width: nat, mask: nat)
    requires mask == Shl(Pow2(width) - 1, offset)
    ensures And(w, mask) == Shl(w / Pow2(offset) % Pow2(width), offset)
    ensures Shr(And(w, mask), offset) == w / Pow2(offset) % Pow2(width)
  {
    AndShifted(w, Pow2(width) - 1, offset);
    AndLowMask(Shr(w, offset), width);
    ShrIsDiv(w, offset);
    ShrShl(w / Pow2(offset) % Pow2(width), offset);
  }

  lemma FlagAt(w: nat, j: nat)
    requires j < 4
    ensures Bit(w, j) <==> w / Pow2(j) % 2 == 1
    ensures And(w, Pow2(j)) != 0 <==> Bit(w, j)
  {
    ShlOne(j);
    ShrIsDiv(w, j);
    AndBit(w, j);
  }

  lemma Powers()
    ensures Pow2(0) == 1 && Pow2(1) == 2 && Pow2(2) == 4 && Pow2(3) == 8 && Pow2(8) == ONE_REF
    ensures Pow2(24) == 0x100_0000 && Pow2(32) == 0x1_0000_0000 && Pow2(40) == ONE_BLOCK
    ensures Shl(0xFFFF_FFFF, 8) == REF_MASK && Shl(0xFF_FFFF, 40) == BLOCK_MASK
  {
    assert Pow2(8) == ONE_REF;
    Pow2Add(8, 8); Pow2Add(16, 8); Pow2Add(16, 16); Pow2Add(32, 8);
    ShlIsMul(0xFFFF_FFFF, 8); ShlIsMul(0xFF_FFFF, 40);
  }

  /** View by arithmetic. */
  lemma ViewIs(w: nat)
    ensures View(w) == Fields(w % 2 == 1, w / 2 % 2 == 1, w / 4 % 2 == 1, w / 8 % 2 == 1,
                              w / ONE_REF % 0x1_0000_0000, w / ONE_BLOCK % 0x100_0000)
  {
    Powers();
    FlagAt(w, 0); FlagAt(w, 1); FlagAt(w, 2); FlagAt(w, 3);
    FieldAt(w, 8, 32, REF_MASK);
    FieldAt(w, 40, 24, BLOCK_MASK);
  }

  lemma LowBits(w: nat, q: nat, r: nat, x: nat, d: nat)
    requires d > 0 && r < d && x < 2 && w == (x + 2 * q) * d + r
    ensures w / d % 2 == x
  {
    DivUnique(w, d, x + 2 * q, r);
  }

  lemma BitOne(w: nat, low: nat, x: nat, rest: nat)
    requires low < 2 && x < 2 && w == low + 2 * x + 4 * rest
    ensures w % 2 == low && w / 2 % 2 == x
  {
    LowBits(w, rest, low, x, 2);
  }

  lemma BitTwo(w: nat, low: nat, x: nat, rest: nat)
    requires low < 4 && x < 2 && w == low + 4 * x + 8 * rest
    ensures w / 4 % 2 == x
  {
    LowBits(w, rest, low, x, 4);
  }

  lemma BitThree(w: nat, low: nat, x: nat, rest: nat)
    requires low < 8 && x < 2 && w == low + 8 * x + 16 * rest
    ensures w / 8 % 2 == x
  {
    LowBits(w, rest, low, x, 8);
  }

  lemma LayoutFlags(p: nat, c: nat, d: nat, l: nat, high: nat, w: nat)
    requires p < 2 && c < 2 && d < 2 && l < 2
    requires w == p + CLOSING * c + CLOSED * d + LOCK_CLOSE_HANDLER_LIST * l + ONE_REF * high
    ensures w % 2 == p && w / 2 % 2 == c && w / 4 % 2 == d && w / 8 % 2 == l
  {
    BitThree(w, p + 2 * c + 4 * d, l, 16 * high);
    BitTwo(w, p + 2 * c, d, l + 32 * high);
    BitOne(w, p, c, d + 2 * (l + 32 * high));
  }

  lemma LayoutCounts(low: nat, r: nat, b: nat, w: nat)
    requires low < ONE_REF && r <= MAX_REFS && b <= MAX_BLOCKS
    requires w == low + ONE_REF * r + ONE_BLOCK * b
    ensures w < WORD
    ensures w / ONE_REF % 0x1_0000_0000 == r && w / ONE_BLOCK % 0x100_0000 == b
  {
    var high := r + 0x1_0000_0000 * b;
    DivUnique(w, ONE_REF, high, low);
    DivUnique(high, 0x1_0000_0000, b, r);
    DivUnique(w, ONE_BLOCK, b, low + ONE_REF * r);
  }

  lemma Layout(p: nat, c: nat, d: nat, l: nat, r: nat, b: nat, w: nat)
    requires p < 2 && c < 2 && d < 2 && l < 2 && r <= MAX_REFS && b <= MAX_BLOCKS
    requires w == p + CLOSING * c + CLOSED * d + LOCK_CLOSE_HANDLER_LIST * l + ONE_REF * r + ONE_BLOCK * b
    ensures w < WORD
    ensures w % 2 == p && w / 2 % 2 == c && w / 4 % 2 == d && w / 8 % 2 == l
    ensures w / ONE_REF % 0x1_0000_0000 == r && w / ONE_BLOCK % 0x100_0000 == b
  {
    LayoutFlags(p, c, d, l, r + 0x1_0000_0000 * b, w);
    LayoutCounts(p + 2 * c + 4 * d + 8 * l, r, b, w);
  }

  /** The fields do not overlap: a record in range fits in the word and is read back. */
  lemma ViewPack(f: Fields)
    requires f.InRange()
    ensures f.Pack() < WORD && View(f.Pack()) == f
  {
    ViewIs(f.Pack());
    Layout(if f.preparing then 1 else 0, if f.closing then 1 else 0, if f.closed then 1 else 0,
           if f.locked then 1 else 0, f.refs, f.blocks, f.Pack());
  }

  lemma Modulo(a: nat, k: nat, b: nat)
    requires b < WORD && (a + k == b || a + k == b + WORD)
    ensures FetchAdd(a, k) == b
    ensures a < WORD ==> FetchSub(b, k) == a
  {
    if a < WORD {
      assert b - k == a || b - k == a - WORD;
    }
  }

  /** Adding references and blocks that fit moves the word from one record to the next,
      and subtracting them moves it back. */
  lemma Count(f: Fields, refs: nat, blocks: nat)
    requires f.InRange() && f.(refs := f.refs + refs, blocks := f.blocks + blocks).InRange()
    ensures var g := f.(refs := f.refs + refs, blocks := f.blocks + blocks);
            var k := ONE_REF * refs + ONE_BLOCK * blocks;
            FetchAdd(f.Pack(), k) == g.Pack() && FetchSub(g.Pack(), k) == f.Pack()
            && View(f.Pack()) == f && View(g.Pack()) == g
  {
    var g := f.(refs := f.refs + refs, blocks := f.blocks + blocks);
    ViewPack(f);
    ViewPack(g);
    Modulo(f.Pack(), ONE_REF * refs + ONE_BLOCK * blocks, g.Pack());
  }

  lemma BlockAndRef()
    ensures Or(ONE_BLOCK, ONE_REF) == ONE_BLOCK + ONE_REF
  {
    Powers();
    ShlOne(8);
    ShrIsDiv(ONE_BLOCK, 8);
    OrBit(ONE_BLOCK, 8);
  }

  /** One block and one reference at once, up from f to g and down again. */
  lemma CountBoth(f: Fields, g: Fields, both: nat)
    requires f.InRange() && g.InRange() && g == f.(refs := f.refs + 1, blocks := f.blocks + 1)
    requires both == ONE_BLOCK + ONE_REF
    ensures FetchAdd(f.Pack(), both) == g.Pack() && FetchSub(g.Pack(), both) == f.Pack()
    ensures View(f.Pack()) == f && View(g.Pack()) == g
  {
    Count(f, 1, 1);
  }

  lemma SetFlagIs(f: Fields, j: nat)
    requires f.InRange() && j < 4
    ensures OnWord(SetFlag(Pow2(j)), f.Pack())
            == (match j
                case 0 => f.(preparing := true)
                case 1 => f.(closing := true)
                case 2 => f.(closed := true)
                case _ => f.(locked := true)).Pack()
  {
    ViewPack(f);
    FlagAt(f.Pack(), j);
    ShlOne(j);
    OrBit(f.Pack(), j);
    assert Pow2(0) == 1 && Pow2(1) == 2 && Pow2(2) == 4 && Pow2(3) == 8;
  }

  lemma ClearedWord(w: nat)
    requires w < WORD
    ensures And(w, Not(LOCK_CLOSE_HANDLER_LIST)) == if w / 8 % 2 == 1 then w - 8 else w
    ensures w / 8 % 2 == 1 ==> w >= 8
  {
    Powers();
    Pow2Add(32, 32);
    ShlOne(3);
    FlagAt(w, 3);
    AndNotBit(w, 3, 64);
  }

  lemma ClearLockIs(f: Fields)
    requires f.InRange()
    ensures OnWord(ClearFlag(LOCK_CLOSE_HANDLER_LIST), f.Pack()) == f.(locked := false).Pack()
  {
    ViewPack(f);
    ViewIs(f.Pack());
    ClearedWord(f.Pack());
  }

  /** One more reference stays in its field exactly when the 32-bit counter is not full;
      a full counter carries into the block-close counter. */
  lemma AddRefExact(f: Fields)
    requires f.InRange() && f.blocks < MAX_BLOCKS
    ensures View(OnWord(Add(ONE_REF), f.Pack())) == f.(refs := f.refs + 1) <==> f.refs < MAX_REFS
    ensures f.refs == MAX_REFS ==>
              View(OnWord(Add(ONE_REF), f.Pack())) == f.(refs := 0, blocks := f.blocks + 1)
  {
    if f.refs < MAX_REFS {
      Count(f, 1, 0);
    } else {
      var g := f.(refs := 0, blocks := f.blocks + 1);
      ViewPack(g);
      Modulo(f.Pack(), ONE_REF, g.Pack());
    }
  }

  /** One reference less stays in its field exactly when there is one; an empty counter
      borrows from the block-close counter. */
  lemma RemoveRefExact(f: Fields)
    requires f.InRange() && f.blocks > 0
    ensures View(OnWord(Sub(ONE_REF), f.Pack()))
            == if f.refs > 0 then f.(refs := f.refs - 1) else f.(refs := MAX_REFS, blocks := f.blocks - 1)
  {
    if f.refs > 0 {
      Count(f.(refs := f.refs - 1), 1, 0);
    } else {
      var g := f.(refs := MAX_REFS, blocks := f.blocks - 1);
      ViewPack(f);
      ViewPack(g);
      Modulo(g.Pack(), ONE_REF, f.Pack());
    }
  }

  /** The block-close counter is the top field: counting past its end drops the carry and
      leaves flags and references alone. */
  lemma BlockExact(f: Fields)
    requires f.InRange()
    ensures View(OnWord(Add(ONE_BLOCK), f.Pack()))
            == f.(blocks := if f.blocks < MAX_BLOCKS then f.blocks + 1 else 0)
  {
    if f.blocks < MAX_BLOCKS {
      Count(f, 0, 1);
    } else {
      var g := f.(blocks := 0);
      ViewPack(g);
      Modulo(f.Pack(), ONE_BLOCK, g.Pack());
    }
  }

  /** The context's atomic word. Each method is proved against the record view. */
  class AOContextState {
    var word: nat

    ghost predicate Valid()
      reads this
    {
      View(word).InRange() && word == View(word).Pack()
    }

    constructor ()
      ensures Valid() && View(word) == Fields(false, false, false, false, 1, 0)
    {
      word := ONE_REF;
      ViewPack(Fields(false, false, false, false, 1, 0));
    }

    method BlockClose() returns (ok: bool)
      requires Valid() && View(word).blocks < MAX_BLOCKS
      modifies this
      ensures Valid() && ok == !old(View(word)).preparing
      ensures View(word) == if ok then old(View(word)).(blocks := old(View(word)).blocks + 1)
                            else old(View(word))
    {
      var oldState := word;
      ghost var f := View(word);
      word := FetchAdd(word, ONE_BLOCK);
      Count(f, 0, 1);
      if And(oldState, PREPARING_FOR_CLOSING) != 0 {
        UnblockClose();
        return false;
      }
      return true;
    }

    method BlockCloseAndAddRef() returns (ok: bool)
      requires Valid() && View(word).blocks < MAX_BLOCKS && View(word).refs < MAX_REFS
      modifies this
      ensures Valid() && ok == !old(View(word)).preparing
      ensures View(word) == if ok then old(View(word)).(blocks := old(View(word)).blocks + 1,
                                                        refs := old(View(word)).refs + 1)
                            else old(View(word))
    {
      var oldState := word;
      ghost var f := View(word);
      BlockAndRef();
      var both := Or(ONE_BLOCK, ONE_REF);
      CountBoth(f, f.(blocks := f.blocks + 1, refs := f.refs + 1), both);
      word := FetchAdd(word, both);
      if And(oldState, PREPARING_FOR_CLOSING) != 0 {
        var _ := UnblockCloseAndRemoveRef();
        return false;
      }
      return true;
    }

    method AddRef()
      requires Valid() && View(word).refs < MAX_REFS
      modifies this
      ensures Valid() && View(word) == old(View(word)).(refs := old(View(word)).refs + 1)
    {
      ghost var f := View(word);
      Count(f, 1, 0);
      word := FetchAdd(word, ONE_REF);
    }

    /** True for the caller that gave the last reference back. */
    method RemoveRef() returns (last: bool)
      requires Valid() && View(word).refs > 0
      modifies this
      ensures Valid() && View(word) == old(View(word)).(refs := old(View(word)).refs - 1)
      ensures last <==> View(word).refs == 0
    {
      var oldState := word;
      ghost var f := View(word);
      Count(f.(refs := f.refs - 1), 1, 0);
      LastRef(oldState);
      word := FetchSub(word, ONE_REF);
      last := And(oldState, REF_MASK) == ONE_REF;
    }

    method UnblockClose()
      requires Valid() && View(word).blocks > 0
      modifies this
      ensures Valid() && View(word) == old(View(word)).(blocks := old(View(word)).blocks - 1)
    {
      ghost var f := View(word);
      Count(f.(blocks := f.blocks - 1), 0, 1);
      word := FetchSub(word, ONE_BLOCK);
    }

    method UnblockCloseAndRemoveRef() returns (last: bool)
      requires Valid() && View(word).blocks > 0 && View(word).refs > 0
      modifies this
      ensures Valid() && View(word) == old(View(word)).(blocks := old(View(word)).blocks - 1,
                                                        refs := old(View(word)).refs - 1)
      ensures last <==> View(word).refs == 0
    {
      var oldState := word;
      ghost var f := View(word);
      BlockAndRef();
      var both := Or(ONE_BLOCK, ONE_REF);
      CountBoth(f.(blocks := f.blocks - 1, refs := f.refs - 1), f, both);
      LastRef(oldState);
      word := FetchSub(word, both);
      last := And(oldState, REF_MASK) == ONE_REF;
    }

    method StartClose() returns (first: bool)
      requires Valid()
      modifies this
      ensures Valid() && View(word) == old(View(word)).(preparing := true)
      ensures first == !old(View(word)).preparing
    {
      var oldState := word;
      SetFlagIs(View(word), 0);
      ViewPack(View(word).(preparing := true));
      word := Or(word, PREPARING_FOR_CLOSING);
      first := And(oldState, PREPARING_FOR_CLOSING) == 0;
    }

    method SetClosingFlag()
      requires Valid() && !View(word).closing
      modifies this
      ensures Valid() && View(word) == old(View(word)).(closing := true)
    {
      SetFlagIs(View(word), 1);
      ViewPack(View(word).(closing := true));
      word := Or(word, CLOSING);
    }

    method SetClosedFlag()
      requires Valid() && !View(word).closed
      modifies this
      ensures Valid() && View(word) == old(View(word)).(closed := true)
    {
      SetFlagIs(View(word), 2);
      ViewPack(View(word).(closed := true));
      word := Or(word, CLOSED);
    }

    method GetBlockCloseCounter() returns (n: nat)
      requires Valid()
      ensures n == View(word).blocks
    {
      n := Shr(And(word, BLOCK_MASK), BLOCK_OFFSET);
    }

    /** One turn of the outer loop of lockCloseHandlerList. */
    method TryLockCloseHandlerList() returns (acquired: bool)
      requires Valid()
      modifies this
      ensures Valid() && View(word) == old(View(word)).(locked := true)
      ensures acquired == !old(View(word)).locked
    {
      var oldState := word;
      SetFlagIs(View(word), 3);
      ViewPack(View(word).(locked := true));
      word := Or(word, LOCK_CLOSE_HANDLER_LIST);
      acquired := And(oldState, LOCK_CLOSE_HANDLER_LIST) == 0;
    }

    method UnlockCloseHandlerList()
      requires Valid() && View(word).locked
      modifies this
      ensures Valid() && View(word) == old(View(word)).(locked := false)
    {
      ClearLockIs(View(word));
      ViewPack(View(word).(locked := false));
      word := And(word, Not(LOCK_CLOSE_HANDLER_LIST));
    }
  }

  /** The source's test for the last reference, (old & refCounterMask) == oneRef. */
  lemma LastRef(w: nat)
    ensures And(w, REF_MASK) == ONE_REF <==> View(w).refs == 1
  {
    Powers();
    FieldAt(w, 8, 32, REF_MASK);
    ShlIsMul(w / ONE_REF % 0x1_0000_0000, 8);
    assert View(w).refs == w / ONE_REF % 0x1_0000_0000;
  }
}
