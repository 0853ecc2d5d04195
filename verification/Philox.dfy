/** The dropout generator: counters of two 32-bit words, and ten multiply-xor rounds. */
module Philox {
  import opened Arithmetic

  const W: nat := 0x1_0000_0000

  type Word = x: nat | x < 0x1_0000_0000

  // ----- word arithmetic -----

  function Add(x: nat, y: nat): Word {
    (x + y) % W
  }

  function MulLo(x: Word, y: Word): Word {
    x * y % W
  }

  function MulHi(x: Word, y: Word): Word {
    ProductBound(x, y);
    x * y / W
  }

  lemma RowOfProduct(x: Word, y: nat)
    ensures x * y <= (W - 1) * y
  {
    var d: nat := W - 1 - x;
    assert d * y >= 0;
    assert (d + x) * y == d * y + x * y;
  }

  lemma ProductBound(x: Word, y: Word)
    ensures x * y / W < W
  {
    RowOfProduct(x, y);
    DivMod(x * y, W);
  }

  /** Bitwise exclusive or. */
  function Xor(x: nat, y: nat): nat
    decreases x + y
  {
    if x == 0 && y == 0 then 0 else (x + y) % 2 + 2 * Xor(x / 2, y / 2)
  }

  lemma {:induction false} XorBound(x: nat, y: nat, n: nat)
    requires x < Pow2(n) && y < Pow2(n)
    ensures Xor(x, y) < Pow2(n)
    decreases n
  {
    if x != 0 || y != 0 {
      assert n > 0;
      XorBound(x / 2, y / 2, n - 1);
    }
  }

  lemma XorParts(h: nat, x: nat)
    ensures Xor(h, x) % 2 == (h + x) % 2 && Xor(h, x) / 2 == Xor(h / 2, x / 2)
  {
    BitAndRest((h + x) % 2, Xor(h / 2, x / 2));
  }

  lemma BitAndRest(b: nat, z: nat)
    requires b < 2
    ensures (b + 2 * z) % 2 == b && (b + 2 * z) / 2 == z
  {
  }

  lemma SameHalves(h: nat, x: nat, y: nat)
    requires (h + x) % 2 == (h + y) % 2 && x / 2 == y / 2
    ensures x == y
  {
    assert x == 2 * (x / 2) + x % 2 && y == 2 * (y / 2) + y % 2;
  }

  /** Exclusive or with a known word can be undone. */
  lemma {:induction false} XorCancel(h: nat, x: nat, y: nat)
    requires Xor(h, x) == Xor(h, y)
    ensures x == y
    decreases h + x + y
  {
    if h != 0 || x != 0 || y != 0 {
      XorParts(h, x);
      XorParts(h, y);
      var g, u, v := h / 2, x / 2, y / 2;
      assert g + u + v < h + x + y;
      XorCancel(g, u, v);
      SameHalves(h, x, y);
    }
  }

  lemma {:induction false} XorComm(x: nat, y: nat)
    ensures Xor(x, y) == Xor(y, x)
    decreases x + y
  {
    if x != 0 || y != 0 {
      XorComm(x / 2, y / 2);
    }
  }

  lemma WordIsPow2()
    ensures Pow2(32) == W
  {
    assert Pow2(8) == 256;
    Pow2Add(8, 8);
    Pow2Add(16, 16);
  }

  function XorWord(x: Word, y: Word): Word {
    WordIsPow2();
    XorBound(x, y, 32);
    Xor(x, y)
  }

  // ----- counters -----

  /** Two words read as one 64-bit number. */
  function Wide(high: Word, low: Word): nat {
    high * W + low
  }

  /** The carry into the high word, as the kernels detect it: the low sum came out smaller. */
  function Carry(before: Word, after: Word): nat {
    if after < before then 1 else 0
  }

  lemma LowSum(a: Word, b: Word)
    ensures Add(a, b) + Carry(a, Add(a, b)) * W == a + b
  {
  }

  /** Adding word by word with the detected carry is addition modulo two to the 64. */
  lemma CarryAddition(high: Word, low: Word, h: Word, l: Word)
    ensures var sum := Add(low, l);
      Wide(Add(Add(high, h), Carry(low, sum)), sum) == (Wide(high, low) + Wide(h, l)) % (W * W)
  {
    var sum := Add(low, l);
    var c := Carry(low, sum);
    LowSum(low, l);
    var top := high + h + c;
    assert Add(Add(high, h), c) == top % W;
    var q := top / W;
    assert Wide(high, low) + Wide(h, l) == top * W + sum;
    assert top * W + sum == q * (W * W) + (top % W * W + sum);
    DivModUnique(top * W + sum, q, top % W * W + sum, W * W);
  }

  // ----- the rounds -----

  datatype Block = Block(a: Word, b: Word, c: Word, d: Word)
  datatype Key = Key(a: Word, b: Word)

  const M0: Word := 0xD251_1F53
  const M1: Word := 0xCD9E_8D57

  function Round(s: Block, k: Key): Block {
    Block(XorWord(XorWord(MulHi(s.c, M1), s.b), k.a), MulLo(s.c, M1),
      XorWord(XorWord(MulHi(s.a, M0), s.d), k.b), MulLo(s.a, M0))
  }

  function NextKey(k: Key): Key {
    Key(Add(k.a, 0x9E37_79B9), Add(k.b, 0xBB67_AE85))
  }

  function Rounds(s: Block, k: Key, n: nat): Block
    decreases n
  {
    if n == 0 then s else Rounds(Round(s, k), NextKey(k), n - 1)
  }

  /** The multipliers are odd: multiplying by the inverse brings every word back. */
  lemma OddInverse0(x: Word)
    ensures MulLo(x, M0) * 0x991A_7CDB % W == x
  {
    var h, l := x * M0 / W, x * M0 % W;
    assert x * M0 == h * W + l;
    assert M0 * 0x991A_7CDB == 1 + K0 * W;
    assert l * 0x991A_7CDB == (x * K0 - h * 0x991A_7CDB) * W + x;
    DivModUnique(l * 0x991A_7CDB, x * K0 - h * 0x991A_7CDB, x, W);
  }

  lemma OddInverse1(x: Word)
    ensures MulLo(x, M1) * 0x6D7C_AE67 % W == x
  {
    var h, l := x * M1 / W, x * M1 % W;
    assert x * M1 == h * W + l;
    assert M1 * 0x6D7C_AE67 == 1 + K1 * W;
    assert l * 0x6D7C_AE67 == (x * K1 - h * 0x6D7C_AE67) * W + x;
    DivModUnique(l * 0x6D7C_AE67, x * K1 - h * 0x6D7C_AE67, x, W);
  }

  const K0: nat := 2110275209
  const K1: nat := 1475389199

  lemma XorWordCancel(h: Word, x: Word, y: Word, k: Word)
    requires XorWord(XorWord(h, x), k) == XorWord(XorWord(h, y), k)
    ensures x == y
  {
    XorComm(Xor(h, x), k);
    XorComm(Xor(h, y), k);
    XorCancel(k, Xor(h, x), Xor(h, y));
    XorCancel(h, x, y);
  }

  /** One round loses nothing. */
  lemma RoundInjective(s: Block, t: Block, k: Key)
    requires Round(s, k) == Round(t, k)
    ensures s == t
  {
    OddInverse0(s.a);
    OddInverse0(t.a);
    OddInverse1(s.c);
    OddInverse1(t.c);
    assert s.a == t.a && s.c == t.c;
    XorWordCancel(MulHi(s.c, M1), s.b, t.b, k.a);
    XorWordCancel(MulHi(s.a, M0), s.d, t.d, k.b);
  }

  /** For each key, distinct blocks never share an output. */
  lemma {:induction false} RoundsInjective(s: Block, t: Block, k: Key, n: nat)
    requires Rounds(s, k, n) == Rounds(t, k, n)
    ensures s == t
    decreases n
  {
    if n > 0 {
      RoundsInjective(Round(s, k), Round(t, k), NextKey(k), n - 1);
      RoundInjective(s, t, k);
    }
  }

  // ----- an independent account of the rounds -----

  /** The two halves of a product. */
  lemma ProductSplits(x: Word, y: Word)
    ensures Wide(MulHi(x, y), MulLo(x, y)) == x * y
  {
    DivMod(x * y, W);
  }

  /** The key of round `n`: so many golden-ratio and square-root increments. */
  function KeyAt(k: Key, n: nat): Key {
    Key((k.a + n * 2654435769) % W, (k.b + n * 3144134277) % W)
  }

  lemma AddedAgain(x: nat, n: nat, w: nat)
    ensures Add((x + n * w) % W, w) == (x + (n + 1) * w) % W
  {
    AddInSteps(x, n * w, w, W);
    assert (n + 1) * w == n * w + w;
  }

  lemma KeyAfter(k: Key, n: nat)
    ensures NextKey(KeyAt(k, n)) == KeyAt(k, n + 1) && KeyAt(k, 0) == k
  {
    AddedAgain(k.a, n, 2654435769);
    AddedAgain(k.b, n, 3144134277);
    SmallWord(k.a);
    SmallWord(k.b);
  }

  /** The rounds told from the last one back, with the keys in closed form. */
  function Folded(s: Block, k: Key, n: nat): Block {
    if n == 0 then s else Round(Folded(s, k, n - 1), KeyAt(k, n - 1))
  }

  lemma {:induction false} RoundsFrom(s: Block, k: Key, i: nat, n: nat)
    ensures Rounds(Folded(s, k, i), KeyAt(k, i), n) == Folded(s, k, i + n)
    decreases n
  {
    if n > 0 {
      var p: nat, t, key := n - 1, Folded(s, k, i), KeyAt(k, i);
      KeyAfter(k, i);
      RoundsNext(t, key, p);
      FoldedNext(s, k, i);
      RoundsFrom(s, k, i + 1, p);
    }
  }

  lemma FoldedNext(s: Block, k: Key, n: nat)
    ensures Folded(s, k, n + 1) == Round(Folded(s, k, n), KeyAt(k, n))
  {
  }

  lemma RoundsAreFolded(s: Block, k: Key, n: nat)
    ensures Rounds(s, k, n) == Folded(s, k, n)
  {
    KeyAfter(k, 0);
    RoundsFrom(s, k, 0, n);
  }

  lemma SmallXors()
    ensures Xor(3, 5) == 6 && Xor(6, 16) == 22 && Xor(1, 9) == 8 && Xor(8, 32) == 40
  {
    assert Xor(0, 0) == 0 && Xor(0, 1) == 1 && Xor(1, 2) == 3 && Xor(3, 5) == 6;
    assert Xor(0, 2) == 2 && Xor(0, 4) == 4 && Xor(1, 4) == 5 && Xor(3, 8) == 11 && Xor(6, 16) == 22;
    assert Xor(1, 9) == 8 && Xor(1, 0) == 1 && Xor(1, 4) == 5 && Xor(2, 8) == 10 && Xor(4, 16) == 20 && Xor(8, 32) == 40;
  }

  /** A known answer: one round on small words, each product and each key word in its place. */
  lemma KnownRound()
    ensures Round(Block(2, 5, 4, 9), Key(16, 32)) == Block(22, 913978716, 40, 2762096294)
  {
    SmallXors();
    assert 4 * M1 == 3 * W + 913978716 && 2 * M0 == W + 2762096294;
    DivModUnique(4 * M1, 3, 913978716, W);
    DivModUnique(2 * M0, 1, 2762096294, W);
  }

  // ----- the dropout words -----

  datatype Counter = Counter(high: Word, low: Word) {
    function Value(): nat {
      Wide(high, low)
    }
  }

  /** `keep`: the block of the position is added to the base, its index cast to one word. */
  function KeepCounter(position: nat, base: Counter): Counter {
    var low := Add(base.low, position / 4 % W);
    Counter(Add(base.high, Carry(base.low, low)), low)
  }

  /** `keep_global` adds both words of the block and then calls `keep` inside that block. */
  function GlobalCounter(position: nat, base: Counter): Counter {
    var block := position / 4;
    var low := Add(base.low, block % W);
    var high := Add(Add(base.high, block / W % W), Carry(base.low, low));
    KeepCounter(position % 4, Counter(high, low))
  }

  function Lane(out: Block, lane: nat): Word {
    if lane == 1 then out.b else if lane == 2 then out.c else if lane == 3 then out.d else out.a
  }

  function Output(counter: Counter, key: Key): Block {
    Rounds(Block(counter.low, counter.high, 0, 0), key, 10)
  }

  /** Ten rounds on the counter's words, low word first; the lanes are the output's words in order. */
  lemma OutputMeans(counter: Counter, key: Key)
    ensures Output(counter, key) == Folded(Block(counter.low, counter.high, 0, 0), key, 10)
    ensures var out := Output(counter, key);
      [Lane(out, 0), Lane(out, 1), Lane(out, 2), Lane(out, 3)] == [out.a, out.b, out.c, out.d]
  {
    RoundsAreFolded(Block(counter.low, counter.high, 0, 0), key, 10);
  }

  /** The kernels' loop, which they run for ten rounds: four words and two key words, updated in place. */
  method RunRounds(start: Block, key: Key, rounds: nat) returns (out: Block)
    ensures out == Rounds(start, key, rounds) == Folded(start, key, rounds)
  {
    RoundsAreFolded(start, key, rounds);
    out := start;
    var k := key;
    for i := 0 to rounds
      invariant Rounds(start, key, rounds) == Rounds(out, k, rounds - i)
    {
      RoundsNext(out, k, rounds - i - 1);
      out, k := OneRound(out, k);
    }
  }

  method OneRound(s: Block, k: Key) returns (out: Block, next: Key)
    ensures out == Round(s, k) && next == NextKey(k)
  {
    var ha, hc := MulHi(s.a, M0), MulHi(s.c, M1);
    var la, lc := MulLo(s.a, M0), MulLo(s.c, M1);
    var a := XorWord(XorWord(hc, s.b), k.a);
    var c := XorWord(XorWord(ha, s.d), k.b);
    out, next := Block(a, lc, c, la), Key(Add(k.a, 0x9E37_79B9), Add(k.b, 0xBB67_AE85));
  }

  lemma RoundsNext(s: Block, k: Key, n: nat)
    ensures Rounds(s, k, n + 1) == Rounds(Round(s, k), NextKey(k), n)
  {
  }

  function KeepWord(position: nat, key: Key, base: Counter): Word {
    Lane(Output(KeepCounter(position, base), key), position % 4)
  }

  function GlobalWord(position: nat, key: Key, base: Counter): Word {
    Lane(Output(GlobalCounter(position, base), key), position % 4)
  }

  lemma KeepIsExact(position: nat, base: Counter)
    requires position / 4 < W
    ensures KeepCounter(position, base).Value() == (base.Value() + position / 4) % (W * W)
  {
    var block: Word := position / 4;
    SmallWord(block);
    SmallWord(base.high);
    CarryAddition(base.high, base.low, 0, block);
  }

  lemma SmallWord(x: Word)
    ensures x % W == x && Add(x, 0) == x
  {
  }

  lemma InsideBlock(position: nat, base: Counter)
    requires position < 4
    ensures KeepCounter(position, base) == base
  {
  }

  lemma GlobalIsExact(position: nat, base: Counter)
    requires position / 4 < W * W
    ensures GlobalCounter(position, base).Value() == (base.Value() + position / 4) % (W * W)
  {
    var block := position / 4;
    SplitBlock(block);
    CarryAddition(base.high, base.low, block / W, block % W);
    var low := Add(base.low, block % W);
    InsideBlock(position % 4, Counter(Add(Add(base.high, block / W % W), Carry(base.low, low)), low));
  }

  lemma SplitBlock(block: nat)
    requires block < W * W
    ensures block / W < W && block / W % W == block / W && Wide(block / W, block % W) == block
  {
  }

  /** Wherever both apply they read the same word. */
  lemma KeepAgreesWithGlobal(position: nat, key: Key, base: Counter)
    requires position / 4 < W
    ensures GlobalCounter(position, base) == KeepCounter(position, base)
    ensures GlobalWord(position, key, base) == KeepWord(position, key, base)
  {
    var block := position / 4;
    var low := Add(base.low, block % W);
    InsideBlock(position % 4, Counter(Add(Add(base.high, block / W % W), Carry(base.low, low)), low));
  }

  /** The counter of a row: the product of row and blocks as two words, added with a carry. */
  function RowCounter(row: Word, blocks: Word, base: Counter): Counter {
    var low := Add(base.low, MulLo(row, blocks));
    Counter(Add(Add(base.high, MulHi(row, blocks)), Carry(base.low, low)), low)
  }

  lemma RowIsExact(row: Word, blocks: Word, base: Counter)
    ensures RowCounter(row, blocks, base).Value() == (base.Value() + row * blocks) % (W * W)
  {
    CarryAddition(base.high, base.low, MulHi(row, blocks), MulLo(row, blocks));
    assert Wide(MulHi(row, blocks), MulLo(row, blocks)) == row * blocks by {
      DivMod(row * blocks, W);
    }
  }

  lemma AddInSteps(a: nat, b: nat, c: nat, m: nat)
    requires m > 0
    ensures ((a + b) % m + c) % m == (a + b + c) % m
  {
    DivMod(a + b, m);
    ModShift((a + b) % m + c, (a + b) / m, m);
  }

  /** The ring's counter: base, plus row times blocks, plus the key's block, as 64-bit numbers. */
  lemma RingCounterIsExact(row: Word, blocks: Word, key: nat, base: Counter)
    requires key / 4 < W
    ensures KeepCounter(key, RowCounter(row, blocks, base)).Value() == (base.Value() + row * blocks + key / 4) % (W * W)
  {
    RowIsExact(row, blocks, base);
    KeepIsExact(key, RowCounter(row, blocks, base));
    AddInSteps(base.Value(), row * blocks, key / 4, W * W);
  }

  function DocumentCounter(offset: Counter, base: Counter): Counter {
    var low := Add(base.low, offset.low);
    Counter(Add(Add(base.high, offset.high), Carry(base.low, low)), low)
  }

  /** Variable-length documents: the document's own offset comes on top. */
  lemma VarlenCounterIsExact(offset: Counter, row: Word, blocks: Word, token: nat, base: Counter)
    requires token / 4 < W
    ensures KeepCounter(token, RowCounter(row, blocks, DocumentCounter(offset, base))).Value() ==
      (base.Value() + offset.Value() + row * blocks + token / 4) % (W * W)
  {
    CarryAddition(base.high, base.low, offset.high, offset.low);
    var d := DocumentCounter(offset, base);
    assert d.Value() == (base.Value() + offset.Value()) % (W * W);
    RingCounterIsExact(row, blocks, token, d);
    SumsInSteps(base.Value(), offset.Value(), d.Value(), row * blocks, token / 4);
  }

  lemma SumsInSteps(a: nat, b: nat, d: nat, c: nat, e: nat)
    requires d == (a + b) % (W * W)
    ensures (d + c + e) % (W * W) == (a + b + c + e) % (W * W)
  {
    AddInSteps(a, b, c + e, W * W);
  }

  /** Counters with different values give different 128-bit outputs under every key. */
  lemma OutputsDiffer(c: Counter, d: Counter, key: Key)
    requires c.Value() != d.Value()
    ensures Output(c, key) != Output(d, key)
  {
    if Output(c, key) == Output(d, key) {
      RoundsInjective(Block(c.low, c.high, 0, 0), Block(d.low, d.high, 0, 0), key, 10);
    }
  }

  lemma SameSlot(q: nat, r: nat, p: nat, s: nat, n: nat)
    requires r < n && s < n && q * n + r == p * n + s
    ensures q == p && r == s
  {
    QuotientUnique(q, r, p, s, n);
  }

  /** Two places of the attention matrix that are not in the same row and block of four keys never share an output. */
  lemma PlacesDiffer(r1: Word, k1: nat, r2: Word, k2: nat, blocks: Word, base: Counter, key: Key)
    requires k1 / 4 < blocks && k2 / 4 < blocks && (r1 != r2 || k1 / 4 != k2 / 4)
    ensures Output(KeepCounter(k1, RowCounter(r1, blocks, base)), key) != Output(KeepCounter(k2, RowCounter(r2, blocks, base)), key)
  {
    RingCounterIsExact(r1, blocks, k1, base);
    RingCounterIsExact(r2, blocks, k2, base);
    var a, b := r1 * blocks + k1 / 4, r2 * blocks + k2 / 4;
    PlaceBound(r1, blocks, k1 / 4);
    PlaceBound(r2, blocks, k2 / 4);
    if a == b {
      SameSlot(r1, k1 / 4, r2, k2 / 4, blocks);
      assert false;
    }
    ShiftedDiffer(base.Value(), a, b, W * W);
    OutputsDiffer(KeepCounter(k1, RowCounter(r1, blocks, base)), KeepCounter(k2, RowCounter(r2, blocks, base)), key);
  }

  lemma PlaceBound(row: Word, blocks: Word, k: nat)
    requires k < blocks
    ensures row * blocks + k < W * W
  {
    RowOfProduct(row, blocks);
  }

  lemma ShiftedDiffer(base: nat, a: nat, b: nat, m: nat)
    requires a < m && b < m && a != b
    ensures (base + a) % m != (base + b) % m
  {
    if (base + a) % m == (base + b) % m {
      DivMod(base + a, m);
      DivMod(base + b, m);
      var c := (base + a) / m - (base + b) / m;
      assert c * m == a - b;
      MulAtLeast(c, m);
    }
  }
}
