/** FNV-1a (kojin-core/src/message.rs:163-171), the hash behind content deduplication keys, in
    explicit 64-bit arithmetic. */
module Fnv {
  import opened Powers

  const WORD: nat := 0x1_0000_0000_0000_0000
  const OFFSET: U64 := 0xcbf29ce484222325
  const PRIME: nat := 0x100000001b3
  // PRIME * INVERSE == 1 + QUOTIENT * WORD
  const INVERSE: nat := 0xce965057aff6957b
  const QUOTIENT: nat := 0xce9650590f

  type U64 = n: nat | n < WORD
  type Byte = n: nat | n < 256

  /** Exclusive or, bit by bit from the lowest. */
  function Xor(a: nat, b: nat): nat {
    if a == 0 && b == 0 then 0 else (a % 2 + b % 2) % 2 + 2 * Xor(a / 2, b / 2)
  }

  /** Bit by bit, also when both are zero. */
  lemma XorParts(a: nat, b: nat)
    ensures Xor(a, b) / 2 == Xor(a / 2, b / 2) && Xor(a, b) % 2 == (a % 2 + b % 2) % 2
  {
  }

  lemma SameParts(a: nat, b: nat, bit: nat, y: nat)
    requires bit == (a % 2 + b % 2) % 2 && y / 2 == a / 2 && y % 2 == (bit + b % 2) % 2
    ensures y == a
  {
  }

  lemma {:induction false} XorTwice(a: nat, b: nat)
    ensures Xor(Xor(a, b), b) == a
  {
    if a != 0 || b != 0 {
      var x := Xor(a, b);
      XorParts(a, b);
      XorParts(x, b);
      assert Xor(x / 2, b / 2) == a / 2 by { XorTwice(a / 2, b / 2); }
      SameParts(a, b, x % 2, Xor(x, b));
    }
  }

  lemma {:induction false} XorCommutes(a: nat, b: nat)
    ensures Xor(a, b) == Xor(b, a)
  {
    if a != 0 || b != 0 { XorCommutes(a / 2, b / 2); }
  }

  lemma {:induction false} XorFits(a: nat, b: nat, bits: nat)
    requires a < Pow2(bits) && b < Pow2(bits)
    ensures Xor(a, b) < Pow2(bits)
  {
    if bits > 0 { XorFits(a / 2, b / 2, bits - 1); }
  }

  function Times(h: nat, k: nat): U64 {
    (h * k) % WORD
  }

  lemma Reduce(x: U64, t: int)
    ensures (x + t * WORD) % WORD == x
  {
  }

  lemma TimesBack(x: U64)
    ensures Times(Times(x, PRIME), INVERSE) == x
    ensures Times(Times(x, INVERSE), PRIME) == x
  {
    var d, r := (x * PRIME) / WORD, Times(x, PRIME);
    assert r * INVERSE == x + (QUOTIENT * x - INVERSE * d) * WORD;
    Reduce(x, QUOTIENT * x - INVERSE * d);
    var d', r' := (x * INVERSE) / WORD, Times(x, INVERSE);
    assert r' * PRIME == x + (QUOTIENT * x - PRIME * d') * WORD;
    Reduce(x, QUOTIENT * x - PRIME * d');
  }

  function XorByte(h: U64, byte: Byte): U64 {
    Pow2Of64(); XorFits(h, byte, 64);
    Xor(h, byte)
  }

  function Step(h: U64, byte: Byte): U64 {
    Times(XorByte(h, byte), PRIME)
  }

  function Back(h: U64, byte: Byte): U64 {
    Pow2Of64(); XorFits(Times(h, INVERSE), byte, 64);
    Xor(Times(h, INVERSE), byte)
  }

  /** The states before and after a byte correspond one to one. */
  lemma StepIsBijective(h: U64, byte: Byte)
    ensures Back(Step(h, byte), byte) == h && Step(Back(h, byte), byte) == h
  {
    Pow2Of64();
    XorFits(h, byte, 64);
    TimesBack(Xor(h, byte));
    XorTwice(h, byte);
    XorTwice(Times(h, INVERSE), byte);
    TimesBack(h);
  }

  /** From the same state, different bytes lead to different states. */
  lemma StepTellsBytes(h: U64, b: Byte, c: Byte)
    requires b != c
    ensures Step(h, b) != Step(h, c)
  {
    Pow2Of64();
    XorFits(h, b, 64);
    XorFits(h, c, 64);
    TimesBack(Xor(h, b));
    TimesBack(Xor(h, c));
    XorCommutes(h, b);
    XorCommutes(h, c);
    XorTwice(b, h);
    XorTwice(c, h);
  }

  function Fold(h: U64, data: seq<Byte>): U64 {
    if data == [] then h else Step(Fold(h, data[..|data| - 1]), data[|data| - 1])
  }

  method Fnv1a64(data: seq<Byte>) returns (hash: U64)
    ensures hash == Fold(OFFSET, data)
  {
    hash := OFFSET;
    for i := 0 to |data|
      invariant hash == Fold(OFFSET, data[..i])
    {
      assert data[..i + 1][..i] == data[..i];
      hash := XorByte(hash, data[i]);
      hash := Times(hash, PRIME);
    }
    assert data[..|data|] == data;
  }

  /** Hashing a concatenation continues from the hash of the front. */
  lemma {:induction false} FoldConcat(h: U64, a: seq<Byte>, b: seq<Byte>)
    ensures Fold(h, a + b) == Fold(Fold(h, a), b)
  {
    if b == [] {
      assert a + b == a;
    } else {
      FoldConcat(h, a, b[..|b| - 1]);
      assert (a + b)[..|a + b| - 1] == a + b[..|b| - 1];
    }
  }

  /** A common suffix keeps different states different. */
  lemma {:induction false} FoldTellsStates(h: U64, g: U64, data: seq<Byte>)
    requires h != g
    ensures Fold(h, data) != Fold(g, data)
  {
    if data != [] {
      var front, byte := data[..|data| - 1], data[|data| - 1];
      FoldTellsStates(h, g, front);
      StepIsBijective(Fold(h, front), byte);
      StepIsBijective(Fold(g, front), byte);
    }
  }

  /** Two inputs that differ in exactly one byte never collide, whatever came before. */
  lemma OneByteNeverCollides(h: U64, data: seq<Byte>, i: nat, c: Byte)
    requires i < |data| && data[i] != c
    ensures Fold(h, data) != Fold(h, data[i := c])
  {
    var front, back := data[..i], data[i + 1..];
    assert data == (front + [data[i]]) + back;
    assert data[i := c] == (front + [c]) + back;
    FoldConcat(h, front + [data[i]], back);
    FoldConcat(h, front + [c], back);
    FoldOne(h, front, data[i]);
    FoldOne(h, front, c);
    StepTellsBytes(Fold(h, front), data[i], c);
    FoldTellsStates(Fold(h, front + [data[i]]), Fold(h, front + [c]), back);
  }

  lemma FoldOne(h: U64, front: seq<Byte>, byte: Byte)
    ensures Fold(h, front + [byte]) == Step(Fold(h, front), byte)
  {
    assert (front + [byte])[..|front|] == front;
  }

  /** For every input, the states it leads to from all starting states are all states. */
  lemma {:induction false} FoldReachesAll(h: U64, data: seq<Byte>) returns (start: U64)
    ensures Fold(start, data) == h
    decreases |data|
  {
    if data == [] {
      start := h;
    } else {
      var byte := data[|data| - 1];
      StepIsBijective(h, byte);
      start := FoldReachesAll(Back(h, byte), data[..|data| - 1]);
    }
  }

  // ---------------------------------------------------------------- published values

  /** `x` is `a` with the `n` lowest bits, which `b` has at most, flipped where `b` says. */
  predicate Flipped(a: nat, b: nat, x: nat, n: nat) {
    if n == 0 then b == 0 && x == a else x % 2 == (a % 2 + b % 2) % 2 && Flipped(a / 2, b / 2, x / 2, n - 1)
  }

  lemma {:induction false} FlippedIsXor(a: nat, b: nat, x: nat, n: nat)
    requires Flipped(a, b, x, n)
    ensures Xor(a, b) == x
  {
    if n == 0 {
      XorZero(a);
    } else {
      FlippedIsXor(a / 2, b / 2, x / 2, n - 1);
      XorParts(a, b);
    }
  }

  lemma {:induction false} XorZero(a: nat)
    ensures Xor(a, 0) == a
  {
    if a != 0 { XorZero(a / 2); }
  }

  /** One more bit at the low end. */
  lemma FlipBit(a: nat, b: nat, x: nat, n: nat, flip: bool, was: bool)
    requires Flipped(a, b, x, n)
    ensures var bit := if was then 1 else 0;
      Flipped(2 * a + bit, 2 * b + (if flip then 1 else 0), 2 * x + (if flip then 1 - bit else bit), n + 1)
  {
    var bit := if was then 1 else 0;
    Halved(a, bit);
    Halved(b, if flip then 1 else 0);
    Halved(x, if flip then 1 - bit else bit);
  }

  lemma Halved(n: nat, bit: nat)
    requires bit < 2
    ensures (2 * n + bit) / 2 == n && (2 * n + bit) % 2 == bit
  {
  }

  lemma OffsetFlipped()
    ensures Flipped(OFFSET, 0x61, 0xcbf29ce484222344, 8)
  {
    FlipBit(0xcbf29ce4842223, 0x0, 0xcbf29ce4842223, 0, false, false);
    FlipBit(0x197e539c9084446, 0x0, 0x197e539c9084446, 1, true, false);
    FlipBit(0x32fca739210888c, 0x1, 0x32fca739210888d, 2, true, true);
    FlipBit(0x65f94e724211119, 0x3, 0x65f94e72421111a, 3, false, false);
    FlipBit(0xcbf29ce48422232, 0x6, 0xcbf29ce48422234, 4, false, false);
    FlipBit(0x197e539c90844464, 0xc, 0x197e539c90844468, 5, false, true);
    FlipBit(0x32fca739210888c9, 0x18, 0x32fca739210888d1, 6, false, false);
    FlipBit(0x65f94e7242111192, 0x30, 0x65f94e72421111a2, 7, true, true);
  }

  lemma FlippedTimes()
    ensures (0xcbf29ce484222344 * PRIME) % WORD == 0xaf63dc4c8601ec8c
  {
  }

  /** The state after one byte, given what the byte makes of it. */
  lemma OneByteHash(byte: Byte, x: U64, h: U64)
    requires Flipped(OFFSET, byte, x, 8) && (x * PRIME) % WORD == h
    ensures Fold(OFFSET, [byte]) == h
  {
    assert [byte][..0] == [];
    FlippedIsXor(OFFSET, byte, x, 8);
  }

  /** The published FNV-1a hashes of the empty input and of "a". */
  lemma PublishedHashes(a: Byte)
    requires a == 0x61
    ensures Fold(OFFSET, []) == 0xcbf29ce484222325
    ensures Fold(OFFSET, [a]) == 0xaf63dc4c8601ec8c
  {
    OffsetFlipped();
    FlippedTimes();
    OneByteHash(a, 0xcbf29ce484222344, 0xaf63dc4c8601ec8c);
  }
}
