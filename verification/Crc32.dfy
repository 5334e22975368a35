/** The CRC-32 of section 3.4 of RFC 2083, as it is computed bit by bit. */
module Crc32 {
  import opened Polynomials

  type Bytes = seq<bv8>

  /** The generator's lower powers, lowest bit first. */
  const REFLECTED: bv32 := 0xedb88320

  const ONES: bv32 := 0xffffffff

  /** The sum of two polynomials. */
  function Plus(a: bv32, b: bv32): (r: bv32) { a ^ b }

  function Half(a: bv32): (r: bv32) { a >> 1 }

  predicate Low(a: bv32) { a & 1 == 1 }

  function Wide(b: bv8): (word: bv32) { b as bv32 }

  /** One turn of the inner loop. */
  function Turn(c: bv32): (r: bv32) {
    (c >> 1) ^ (REFLECTED & (0 - (c & 1)))
  }

  function Turns(c: bv32, n: nat): (r: bv32)
    decreases n
  {
    if n == 0 then c else Turns(Turn(c), n - 1)
  }

  /** One byte taken in. */
  function Take(c: bv32, b: bv8): (r: bv32) {
    Turns(Plus(c, Wide(b)), 8)
  }

  function Feed(c: bv32, data: Bytes): (r: bv32)
    decreases |data|
  {
    if data == [] then c else Feed(Take(c, data[0]), data[1..])
  }

  function Complement(c: bv32): (r: bv32) { !c }

  function Crc(data: Bytes): (check: bv32) {
    Complement(Feed(ONES, data))
  }

  /** The loop of the source: a register updated for each byte, eight turns each. */
  method Compute(data: Bytes) returns (crc: bv32)
    ensures crc == Crc(data)
  {
    hide Turn, Plus, Wide, Complement;
    var c := ONES;
    for k := 0 to |data|
      invariant Feed(c, data[k..]) == Feed(ONES, data)
    {
      assert data[k..][1..] == data[k + 1..];
      c := TakeIn(c, data[k]);
    }
    crc := Complement(c);
  }

  /** One byte: xored into the low bits, then eight turns. */
  method TakeIn(c: bv32, byte: bv8) returns (r: bv32)
    ensures r == Take(c, byte)
  {
    r := c ^ (byte as bv32);
    assert r == Plus(c, Wide(byte));
    hide Plus, Wide;
    for i := 0 to 8
      invariant Turns(r, 8 - i) == Take(c, byte)
    {
      var next := (r >> 1) ^ (REFLECTED & (0 - (r & 1)));
      assert next == Turn(r);
      r := next;
      hide Turn;
    }
  }

  // -- Sums ---------------------------------------------------------------------------------------------------------------------------

  lemma PlusLaws(a: bv32, b: bv32)
    ensures Plus(a, b) == Plus(b, a) && Plus(a, a) == 0 && Plus(a, 0) == a && Plus(0, a) == a
  {
  }

  lemma Assoc(a: bv32, b: bv32, c: bv32)
    ensures Plus(Plus(a, b), c) == Plus(a, Plus(b, c))
  {
  }

  /** (a + b) + (c + d) is (a + c) + (b + d). */
  lemma Regroup(a: bv32, b: bv32, c: bv32, d: bv32)
    ensures Plus(Plus(a, b), Plus(c, d)) == Plus(Plus(a, c), Plus(b, d))
  {
    Assoc(a, b, Plus(c, d));
    Assoc(b, c, d);
    PlusLaws(b, c);
    Assoc(c, b, d);
    Assoc(a, c, Plus(b, d));
    hide Plus;
  }

  lemma EqualBySum(a: bv32, b: bv32)
    ensures Plus(a, b) == 0 <==> a == b
  {
    PlusLaws(a, b);
    Assoc(a, b, b);
    PlusLaws(b, b);
    PlusLaws(b, 0);
    hide Plus;
  }

  lemma HalfPlus(a: bv32, b: bv32)
    ensures Half(Plus(a, b)) == Plus(Half(a), Half(b))
  {
  }

  lemma LowPlus(a: bv32, b: bv32)
    ensures Low(Plus(a, b)) <==> Low(a) != Low(b)
  {
  }

  // -- Turns are linear and lose nothing ------------------------------------------------------------------------------------------------

  lemma TurnIs(c: bv32)
    ensures Turn(c) == if Low(c) then Plus(Half(c), REFLECTED) else Half(c)
  {
    assert c & 1 == 0 || c & 1 == 1;
  }

  lemma TurnIsLinear(a: bv32, b: bv32)
    ensures Turn(Plus(a, b)) == Plus(Turn(a), Turn(b))
  {
    TurnIs(a);
    TurnIs(b);
    TurnIs(Plus(a, b));
    HalfPlus(a, b);
    LowPlus(a, b);
    var r, z: bv32 := REFLECTED, 0;
    Regroup(Half(a), r, Half(b), r);
    Regroup(Half(a), r, Half(b), z);
    Regroup(Half(a), z, Half(b), r);
    PlusLaws(r, z);
    PlusLaws(Half(a), z);
    PlusLaws(Half(b), z);
    PlusLaws(Plus(Half(a), Half(b)), z);
    hide Turn, Plus, Half, Low;
  }

  lemma TurnLosesNothing(a: bv32)
    requires Turn(a) == 0
    ensures a == 0
  {
    assert (a >> 1) ^ (REFLECTED & (0 - (a & 1))) == 0;
  }

  lemma {:induction false} TurnsAreLinear(a: bv32, b: bv32, n: nat)
    ensures Turns(Plus(a, b), n) == Plus(Turns(a, n), Turns(b, n))
    decreases n
  {
    hide Turn, Plus;
    if n > 0 {
      TurnIsLinear(a, b);
      TurnsAreLinear(Turn(a), Turn(b), n - 1);
    }
  }

  lemma {:induction false} TurnsLoseNothing(a: bv32, b: bv32, n: nat)
    requires Turns(a, n) == Turns(b, n)
    ensures a == b
  {
    TurnsAreLinear(a, b, n);
    EqualBySum(Turns(a, n), Turns(b, n));
    SumOnlyOfNothing(Plus(a, b), n);
    EqualBySum(a, b);
    hide Plus;
  }

  lemma {:induction false} SumOnlyOfNothing(a: bv32, n: nat)
    requires Turns(a, n) == 0
    ensures a == 0
    decreases n
  {
    hide Turn;
    if n > 0 {
      SumOnlyOfNothing(Turn(a), n - 1);
      TurnLosesNothing(a);
    }
  }

  lemma {:induction false} TurnsInTwo(c: bv32, m: nat, n: nat)
    ensures Turns(c, m + n) == Turns(Turns(c, m), n)
    decreases m
  {
    hide Turn;
    if m > 0 { TurnsInTwo(Turn(c), m - 1, n); }
  }

  lemma {:induction false} FeedInTwo(c: bv32, a: Bytes, b: Bytes)
    ensures Feed(c, a + b) == Feed(Feed(c, a), b)
    decreases |a|
  {
    hide Take;
    if a == [] {
      assert [] + b == b;
    } else {
      assert (a + b)[1..] == a[1..] + b;
      FeedInTwo(Take(c, a[0]), a[1..], b);
    }
  }

  function PlusByte(a: bv8, b: bv8): (r: bv8) { a ^ b }

  function PlusBytes(a: Bytes, b: Bytes): (r: Bytes)
    requires |a| == |b|
    ensures |r| == |a|
    ensures forall i :: 0 <= i < |a| ==> r[i] == PlusByte(a[i], b[i])
  {
    seq(|a|, i requires 0 <= i < |a| => PlusByte(a[i], b[i]))
  }

  lemma WidePlus(a: bv8, b: bv8)
    ensures Wide(PlusByte(a, b)) == Plus(Wide(a), Wide(b))
  {
  }

  lemma TakeIsLinear(c: bv32, d: bv32, a: bv8, b: bv8)
    ensures Take(Plus(c, d), PlusByte(a, b)) == Plus(Take(c, a), Take(d, b))
  {
    hide Turns, Plus, Wide, PlusByte;
    WidePlus(a, b);
    Regroup(c, d, Wide(a), Wide(b));
    TurnsAreLinear(Plus(c, Wide(a)), Plus(d, Wide(b)), 8);
  }

  lemma {:induction false} FeedIsLinear(c: bv32, d: bv32, a: Bytes, b: Bytes)
    requires |a| == |b|
    ensures Feed(Plus(c, d), PlusBytes(a, b)) == Plus(Feed(c, a), Feed(d, b))
    decreases |a|
  {
    hide Take, Plus, PlusByte;
    if a != [] {
      TakeIsLinear(c, d, a[0], b[0]);
      assert PlusBytes(a, b)[1..] == PlusBytes(a[1..], b[1..]);
      FeedIsLinear(Take(c, a[0]), Take(d, b[0]), a[1..], b[1..]);
    }
  }

  lemma ComplementIs(c: bv32)
    ensures Complement(c) == Plus(ONES, c)
  {
  }

  /** Of three messages of one length, the sum's check is the sum of their checks. */
  lemma CrcIsAffine(a: Bytes, b: Bytes, d: Bytes)
    requires |a| == |b| == |d|
    ensures Crc(PlusBytes(PlusBytes(a, b), d)) == Plus(Plus(Crc(a), Crc(b)), Crc(d))
  {
    var i := ONES;
    var zero := Plus(i, i);
    PlusLaws(i, i);
    PlusLaws(i, zero);
    FeedIsLinear(i, i, a, b);
    FeedIsLinear(zero, i, PlusBytes(a, b), d);
    var x, y, z := Feed(i, a), Feed(i, b), Feed(i, d);
    ComplementIs(x);
    ComplementIs(y);
    ComplementIs(z);
    ComplementIs(Plus(Plus(x, y), z));
    Regroup(i, x, i, y);
    Regroup(zero, Plus(x, y), i, z);
    hide Plus, Feed, Complement, PlusBytes;
  }

  // -- The loop divides --------------------------------------------------------------------------------------------------------------------

  /** The lowest `n` bits, lowest first. */
  function LowBits(c: bv32, n: nat): (r: Bits)
    ensures |r| == n
    decreases n
  {
    if n == 0 then [] else [Low(c)] + LowBits(Half(c), n - 1)
  }

  function Halves(c: bv32, n: nat): (r: bv32)
    decreases n
  {
    if n == 0 then c else Halves(Half(c), n - 1)
  }

  /** A message's bits, lowest of each byte first. */
  function DataBits(data: Bytes): (r: Bits)
    ensures |r| == 8 * |data|
  {
    if data == [] then [] else LowBits(Wide(data[0]), 8) + DataBits(data[1..])
  }

  lemma {:induction false} BitsOfSum(a: bv32, b: bv32, n: nat)
    ensures LowBits(Plus(a, b), n) == Xor(LowBits(a, n), LowBits(b, n))
    decreases n
  {
    hide Plus, Half, Low;
    if n > 0 {
      HalfPlus(a, b);
      LowPlus(a, b);
      BitsOfSum(Half(a), Half(b), n - 1);
    }
  }

  lemma {:induction false} BitsInTwo(c: bv32, m: nat, n: nat)
    ensures LowBits(c, m + n) == LowBits(c, m) + LowBits(Halves(c, m), n)
    decreases m
  {
    hide Half, Low;
    if m > 0 { BitsInTwo(Half(c), m - 1, n); }
  }

  lemma {:induction false} NoBits(n: nat)
    ensures LowBits(0, n) == Zeros(n)
    decreases n
  {
    assert Half(0) == 0 && !Low(0);
    hide Half, Low;
    if n > 0 { NoBits(n - 1); }
  }

  lemma {:induction false} HalvesInTwo(c: bv32, m: nat, n: nat)
    ensures Halves(c, m + n) == Halves(Halves(c, m), n)
    decreases m
  {
    hide Half;
    if m > 0 { HalvesInTwo(Half(c), m - 1, n); }
  }

  lemma FourHalves(c: bv32)
    ensures Halves(c, 4) == c >> 4
  {
    assert Halves(c, 4) == Half(Half(Half(Half(c))));
  }

  lemma ShiftTwice(c: bv32)
    ensures (c >> 4) >> 4 == c >> 8
  {
  }

  lemma HalvesTwice(c: bv32, d: bv32, e: bv32)
    requires Halves(c, 4) == d && Halves(d, 4) == e
    ensures Halves(c, 8) == e
  {
    HalvesInTwo(c, 4, 4);
    hide Halves;
  }

  lemma EightHalves(c: bv32)
    ensures Halves(c, 8) == c >> 8
  {
    FourHalves(c);
    FourHalves(c >> 4);
    ShiftTwice(c);
    HalvesTwice(c, c >> 4, c >> 8);
    hide Halves;
  }

  lemma AllHalves(c: bv32)
    ensures Halves(c, 32) == 0
  {
    HalvesInTwo(c, 8, 24);
    HalvesInTwo(c >> 8, 8, 16);
    HalvesInTwo((c >> 8) >> 8, 8, 8);
    EightHalves(c);
    EightHalves(c >> 8);
    EightHalves((c >> 8) >> 8);
    EightHalves(((c >> 8) >> 8) >> 8);
    hide Halves;
  }

  /** Four more bits, written out. */
  lemma Nibble(c: bv32, rest: bv32, four: Bits, n: nat)
    requires rest == c >> 4 && four == [Low(c), Low(c >> 1), Low(c >> 2), Low(c >> 3)]
    ensures LowBits(c, 4 + n) == four + LowBits(rest, n)
  {
    var d, e, f := c >> 1, c >> 2, c >> 3;
    assert Half(c) == d && Half(d) == e && Half(e) == f && Half(f) == rest;
    hide Half, Low;
    assert LowBits(f, n + 1) == [Low(f)] + LowBits(rest, n);
    assert LowBits(e, n + 2) == [Low(e)] + LowBits(f, n + 1);
    assert LowBits(d, n + 3) == [Low(d)] + LowBits(e, n + 2);
  }

  lemma FirstByte(n: nat)
    ensures LowBits(0xedb88320, 8 + n) == [false, false, false, false, false, true, false, false] + LowBits(0xedb883, n)
  {
    hide LowBits;
    Nibble(0xedb88320, 0xedb8832, [false, false, false, false], 4 + n);
    Nibble(0xedb8832, 0xedb883, [false, true, false, false], n);
    hide Low;
  }

  lemma SecondByte(n: nat)
    ensures LowBits(0xedb883, 8 + n) == [true, true, false, false, false, false, false, true] + LowBits(0xedb8, n)
  {
    hide LowBits;
    Nibble(0xedb883, 0xedb88, [true, true, false, false], 4 + n);
    Nibble(0xedb88, 0xedb8, [false, false, false, true], n);
    hide Low;
  }

  lemma ThirdByte(n: nat)
    ensures LowBits(0xedb8, 8 + n) == [false, false, false, true, true, true, false, true] + LowBits(0xed, n)
  {
    hide LowBits;
    Nibble(0xedb8, 0xedb, [false, false, false, true], 4 + n);
    Nibble(0xedb, 0xed, [true, true, false, true], n);
    hide Low;
  }

  lemma FourthByte(n: nat)
    ensures LowBits(0xed, 8 + n) == [true, false, true, true, false, true, true, true] + LowBits(0x0, n)
  {
    hide LowBits;
    Nibble(0xed, 0xe, [true, false, true, true], 4 + n);
    Nibble(0xe, 0x0, [false, true, true, true], n);
    hide Low;
  }

  lemma GeneratorBits()
    ensures LowBits(REFLECTED, 32) == Generator()[1..]
  {
    hide LowBits, Low, Half;
    FirstByte(24);
    SecondByte(16);
    ThirdByte(8);
    FourthByte(0);
    assert |LowBits(0x0, 0)| == 0;
  }

  lemma TurnBits(c: bv32)
    ensures forall i | 0 <= i < 32 :: LowBits(Turn(c), 32)[i] == (LowBits(Half(c), 32)[i] != (Low(c) && Generator()[i + 1]))
  {
    TurnIs(c);
    GeneratorBits();
    BitsOfSum(Half(c), REFLECTED, 32);
    hide LowBits, Half, Turn, Plus, Low, Generator;
    forall i | 0 <= i < 32 ensures LowBits(REFLECTED, 32)[i] == Generator()[i + 1] {}
  }

  lemma HalfBits(c: bv32)
    ensures [Low(c)] + LowBits(Half(c), 32) == LowBits(c, 32) + [false]
  {
    BitsInTwo(c, 1, 32);
    BitsInTwo(c, 32, 1);
    AllHalves(c);
    NoBits(1);
    assert Halves(c, 1) == Half(c) && LowBits(c, 1) == [Low(c)];
    assert Zeros(1) == [false];
    hide LowBits, Halves, Half, Low;
  }

  /** A turn of the register is a step of the division, with nothing after its 32 powers. */
  lemma TurnDivides(c: bv32, n: nat)
    ensures DivStep(LowBits(c, 32) + Zeros(n + 1)) == LowBits(Turn(c), 32) + Zeros(n)
  {
    TurnBits(c);
    HalfBits(c);
    hide LowBits, Half, Turn, Low, Generator;
    RegisterSteps(LowBits(c, 32), LowBits(Half(c), 32), Low(c), LowBits(Turn(c), 32), n);
  }

  lemma {:induction false} TurnsDivide(c: bv32, k: nat, n: nat)
    ensures DivSteps(LowBits(c, 32) + Zeros(k + n), k) == LowBits(Turns(c, k), 32) + Zeros(n)
    decreases k
  {
    hide LowBits, Turn, DivStep, Generator;
    if k > 0 {
      TurnDivides(c, k - 1 + n);
      TurnsDivide(Turn(c), k - 1, n);
    }
  }

  lemma WideBits(b: bv8)
    ensures LowBits(Wide(b), 32) == LowBits(Wide(b), 8) + Zeros(24)
  {
    BitsInTwo(Wide(b), 8, 24);
    EightHalves(Wide(b));
    assert Wide(b) >> 8 == 0;
    NoBits(24);
    hide LowBits, Halves, Wide;
  }

  /** What is divided: the register over the first 32 bits of the message and 32 zeros. */
  function Dividend(c: bv32, data: Bytes): (r: Bits)
    ensures |r| == 8 * |data| + 32
  {
    Xor(LowBits(c, 32) + Zeros(8 * |data|), DataBits(data) + Zeros(32))
  }

  /** The register with a byte in it, then the rest of the message. */
  lemma FirstByteApart(c: bv32, b: bv8, rest: Bits)
    ensures Xor(LowBits(c, 32) + Zeros(8 + |rest|), LowBits(Wide(b), 8) + rest + Zeros(32))
         == Xor(LowBits(Plus(c, Wide(b)), 32) + Zeros(8 + |rest|), Zeros(8) + (rest + Zeros(32)))
  {
    hide LowBits, Plus, Wide, Xor, Zeros;
    BitsOfSum(c, Wide(b), 32);
    WideBits(b);
    FirstApart(LowBits(c, 32), LowBits(Wide(b), 8), rest);
  }

  lemma FirstByteIn(c: bv32, data: Bytes)
    requires data != []
    ensures Remainder(Dividend(c, data)) == Remainder(Dividend(Take(c, data[0]), data[1..]))
  {
    hide LowBits, Plus, Wide, Generator, Xor, Zeros, Remainder, DivSteps, Turns;
    var rest := DataBits(data[1..]);
    assert DataBits(data) == LowBits(Wide(data[0]), 8) + rest;
    FirstByteApart(c, data[0], rest);
    DivideFirst(Plus(c, Wide(data[0])), rest);
  }

  lemma DivideFirst(d: bv32, rest: Bits)
    ensures Remainder(Xor(LowBits(d, 32) + Zeros(8 + |rest|), Zeros(8) + (rest + Zeros(32))))
         == Remainder(Xor(LowBits(Turns(d, 8), 32) + Zeros(|rest|), rest + Zeros(32)))
  {
    hide LowBits, Generator, Xor, Zeros, Remainder, DivSteps, Turns;
    TurnsDivide(d, 8, |rest|);
    DivideOn(LowBits(d, 32) + Zeros(8 + |rest|), rest + Zeros(32), LowBits(Turns(d, 8), 32) + Zeros(|rest|));
  }

  /** The register after the whole message is what the division leaves. */
  lemma {:induction false} FeedDivides(c: bv32, data: Bytes)
    ensures LowBits(Feed(c, data), 32) == Remainder(Dividend(c, data))
    decreases |data|
  {
    if data == [] {
      NothingToDivide(c);
    } else {
      FirstByteIn(c, data);
      FeedDivides(Take(c, data[0]), data[1..]);
      hide LowBits, Take, Remainder, Dividend;
    }
  }

  lemma NothingToDivide(c: bv32)
    ensures LowBits(Feed(c, []), 32) == Remainder(Dividend(c, []))
  {
    hide LowBits;
    assert Dividend(c, []) == LowBits(c, 32);
  }

  /** The first 32 bits the other way round. */
  function Preset(m: Bits): (r: Bits)
    requires |m| >= 32
    ensures |r| == |m|
  {
    seq(|m|, i requires 0 <= i < |m| => if i < 32 then !m[i] else m[i])
  }

  function Not(m: Bits): (r: Bits)
    ensures |r| == |m|
  {
    seq(|m|, i requires 0 <= i < |m| => !m[i])
  }

  lemma OnesAreSet()
    ensures forall i | 0 <= i < 32 :: LowBits(ONES, 32)[i]
  {
    hide LowBits;
    var four := [true, true, true, true];
    assert four == [Low(ONES), Low(ONES >> 1), Low(ONES >> 2), Low(ONES >> 3)];
    Nibble(ONES, 0xfffffff, four, 28);
    Nibble(0xfffffff, 0xffffff, four, 24);
    Nibble(0xffffff, 0xfffff, four, 20);
    Nibble(0xfffff, 0xffff, four, 16);
    Nibble(0xffff, 0xfff, four, 12);
    Nibble(0xfff, 0xff, four, 8);
    Nibble(0xff, 0xf, four, 4);
    Nibble(0xf, 0, four, 0);
  }

  lemma NotBits(c: bv32)
    ensures LowBits(Complement(c), 32) == Not(LowBits(c, 32))
  {
    ComplementIs(c);
    BitsOfSum(ONES, c, 32);
    OnesAreSet();
    hide LowBits, Plus, Complement;
  }

  lemma PresetDividend(data: Bytes)
    ensures Dividend(ONES, data) == Preset(DataBits(data) + Zeros(32))
  {
    OnesAreSet();
    hide LowBits, DataBits;
    var m := DataBits(data) + Zeros(32);
    forall i | 0 <= i < |m| ensures Dividend(ONES, data)[i] == Preset(m)[i] {}
  }

  /** What is left, and the check, are each other's complement. */
  lemma CrcBits(data: Bytes)
    ensures Not(LowBits(Crc(data), 32)) == Remainder(Preset(DataBits(data) + Zeros(32)))
  {
    FeedDivides(ONES, data);
    PresetDividend(data);
    NotBits(Feed(ONES, data));
    hide LowBits, Feed, Complement, Remainder, DataBits, Dividend;
    var r := LowBits(Feed(ONES, data), 32);
    forall i | 0 <= i < 32 ensures Not(Not(r))[i] == r[i] {}
  }

  /**
   The check of section 3.4 of RFC 2083: the message's bits and 32 zeros, its first 32 preset, divided by the generator;
   the check is the complement of what is left, and nothing else is.
   */
  lemma CrcIsTheRemainder(data: Bytes, check: bv32)
    ensures IsRemainder(Preset(DataBits(data) + Zeros(32)), Not(LowBits(check, 32))) <==> check == Crc(data)
  {
    CrcBits(data);
    RemainderIsTheOne(Preset(DataBits(data) + Zeros(32)), Not(LowBits(check, 32)));
    hide LowBits, Crc, Remainder, DataBits, IsRemainder;
    if Not(LowBits(check, 32)) == Not(LowBits(Crc(data), 32)) {
      NotTwice(LowBits(check, 32), LowBits(Crc(data), 32));
      BitsTellAll(check, Crc(data));
    }
  }

  lemma NotTwice(a: Bits, b: Bits)
    requires Not(a) == Not(b)
    ensures a == b
  {
    forall i | 0 <= i < |a| ensures a[i] == b[i] { assert Not(a)[i] == Not(b)[i]; }
  }

  /** A register is its 32 bits. */
  lemma BitsTellAll(a: bv32, b: bv32)
    requires LowBits(a, 32) == LowBits(b, 32)
    ensures a == b
  {
    AllHalves(Plus(a, b));
    BitsOfSum(a, b, 32);
    assert LowBits(Plus(a, b), 32) == Zeros(32);
    NoBitsIsNothing(Plus(a, b), 32);
    EqualBySum(a, b);
    hide Plus, LowBits, Halves;
  }

  lemma {:induction false} NoBitsIsNothing(c: bv32, n: nat)
    requires Halves(c, n) == 0 && LowBits(c, n) == Zeros(n)
    ensures c == 0
    decreases n
  {
    if n > 0 {
      assert !Zeros(n)[0];
      assert LowBits(Half(c), n - 1) == LowBits(c, n)[1..] == Zeros(n - 1);
      NoBitsIsNothing(Half(c), n - 1);
      assert c >> 1 == 0 && c & 1 == 0;
    }
  }

  // -- By table ------------------------------------------------------------------------------------------------------------------------------

  /** None of the lowest `n` bits is set. */
  predicate NoneLow(c: bv32, n: nat)
    decreases n
  {
    n == 0 || (!Low(c) && NoneLow(Half(c), n - 1))
  }

  lemma {:induction false} TurnsOverNothing(c: bv32, n: nat)
    requires NoneLow(c, n)
    ensures Turns(c, n) == Halves(c, n)
    decreases n
  {
    hide Turn, Half, Low;
    if n > 0 {
      TurnIs(c);
      TurnsOverNothing(Half(c), n - 1);
    }
  }

  function LowByte(c: bv32): (r: bv8) { (c & 0xff) as bv8 }

  function Above(c: bv32): (r: bv32) { c >> 8 }

  function High(c: bv32): (r: bv32) { c & 0xffffff00 }

  lemma {:induction false} NoneLowInTwo(c: bv32, m: nat, n: nat)
    requires NoneLow(c, m) && NoneLow(Halves(c, m), n)
    ensures NoneLow(c, m + n)
    decreases m
  {
    hide Half, Low;
    if m > 0 { NoneLowInTwo(Half(c), m - 1, n); }
  }

  lemma NoneLowOfFour(c: bv32)
    requires c & 0xf == 0
    ensures NoneLow(c, 4)
  {
    var d, e, f := c >> 1, c >> 2, c >> 3;
    assert Half(c) == d && Half(d) == e && Half(e) == f;
    assert !Low(c) && !Low(d) && !Low(e) && !Low(f);
    hide Half, Low;
    assert NoneLow(f, 1);
    assert NoneLow(e, 2);
    assert NoneLow(d, 3);
  }

  lemma HighBits(c: bv32)
    ensures High(c) & 0xf == 0 && (High(c) >> 4) & 0xf == 0
    ensures High(c) >> 8 == Above(c)
  {
    RawHighBits(c);
  }

  lemma RawHighBits(c: bv32)
    ensures (c & 0xffffff00) & 0xf == 0 && ((c & 0xffffff00) >> 4) & 0xf == 0
    ensures (c & 0xffffff00) >> 8 == c >> 8
  {
  }

  lemma HighHasNoneLow(c: bv32)
    ensures NoneLow(High(c), 8) && Halves(High(c), 8) == Above(c)
  {
    var h := High(c);
    HighBits(c);
    hide High, Above, NoneLow, Halves;
    NoneLowOfFour(h);
    NoneLowOfFour(h >> 4);
    FourHalves(h);
    EightHalves(h);
    NoneLowInTwo(h, 4, 4);
  }

  lemma ByteAndHigh(c: bv32)
    ensures Plus(Wide(LowByte(c)), High(c)) == c
  {
  }

  /** Eight turns are those of the lowest byte alone, over what was above it. */
  lemma EightTurns(c: bv32)
    ensures Turns(c, 8) == Plus(Turns(Wide(LowByte(c)), 8), Above(c))
  {
    hide Turns, Plus, Wide, LowByte, High, Above;
    ByteAndHigh(c);
    HighHasNoneLow(c);
    TurnsAreLinear(Wide(LowByte(c)), High(c), 8);
    TurnsOverNothing(High(c), 8);
  }

  /** One of the 256 values a table would hold. */
  function Entry(b: bv8): (entry: bv32) {
    Turns(Wide(b), 8)
  }

  function FeedByTable(c: bv32, data: Bytes): (r: bv32)
    decreases |data|
  {
    if data == [] then c else FeedByTable(Plus(Entry(LowByte(Plus(c, Wide(data[0])))), Above(c)), data[1..])
  }

  lemma AboveTheByte(c: bv32, b: bv8)
    ensures Above(Plus(c, Wide(b))) == Above(c)
  {
  }

  /** The register by table is the register turn by turn. */
  lemma {:induction false} TableFormIsTheSame(c: bv32, data: Bytes)
    ensures FeedByTable(c, data) == Feed(c, data)
    decreases |data|
  {
    hide Turns, Plus, Wide, LowByte, Above;
    if data != [] {
      EightTurns(Plus(c, Wide(data[0])));
      AboveTheByte(c, data[0]);
      TableFormIsTheSame(Take(c, data[0]), data[1..]);
    }
  }

  // -- A message with its check ----------------------------------------------------------------------------------------------------------------

  /** The lowest `n` bytes, lowest first. */
  function LowBytes(w: bv32, n: nat): (r: Bytes)
    ensures |r| == n
    decreases n
  {
    if n == 0 then [] else [LowByte(w)] + LowBytes(Above(w), n - 1)
  }

  /** Bytes taken in turn the register they were added to as a whole, but for what is above them. */
  lemma {:induction false} BytesTurnTheSum(c: bv32, w: bv32, n: nat)
    ensures Turns(Plus(c, w), 8 * n) == Plus(Feed(c, LowBytes(w, n)), Halves(w, 8 * n))
    decreases n
  {
    if n == 0 {
      assert LowBytes(w, 0) == [] && Halves(w, 0) == w;
    } else {
      hide Turn, Plus, Wide, LowByte, Above, Half, High, Low;
      var b, up := LowByte(w), Above(w);
      FirstByteOfSum(c, w);
      TurnsInTwo(Plus(c, w), 8, 8 * (n - 1));
      BytesTurnTheSum(Take(c, b), up, n - 1);
      EightHalves(w);
      HalvesInTwo(w, 8, 8 * (n - 1));
      assert Halves(w, 8) == up by { AboveIs(w); }
      assert LowBytes(w, n)[0] == b && LowBytes(w, n)[1..] == LowBytes(up, n - 1);
      hide Turns, Halves, Take, LowBytes;
    }
  }

  lemma AboveIs(w: bv32)
    ensures Above(w) == w >> 8
  {
  }

  lemma FirstByteOfSum(c: bv32, w: bv32)
    ensures Turns(Plus(c, w), 8) == Plus(Take(c, LowByte(w)), Above(w))
  {
    hide Turns, Plus, Wide, LowByte, High, Above;
    ByteAndHigh(w);
    Assoc(c, Wide(LowByte(w)), High(w));
    TurnsAreLinear(Plus(c, Wide(LowByte(w))), High(w), 8);
    HighHasNoneLow(w);
    TurnsOverNothing(High(w), 8);
  }

  /** Four bytes, lowest first, are taken in as the word they are. */
  lemma FourBytesTurnTheSum(c: bv32, w: bv32)
    ensures Feed(c, LowBytes(w, 4)) == Turns(Plus(c, w), 32)
  {
    hide Turns, Plus, Feed, LowBytes, Halves;
    BytesTurnTheSum(c, w, 4);
    AllHalves(w);
    PlusLaws(Feed(c, LowBytes(w, 4)), 0);
  }

  /** A message followed by four bytes checks to one fixed value exactly when they are its own check, lowest byte first. */
  lemma OnlyItsOwnCheckFits(data: Bytes, w: bv32)
    ensures Crc(data + LowBytes(w, 4)) == Complement(Turns(ONES, 32)) <==> w == Crc(data)
  {
    var c := Feed(ONES, data);
    FeedInTwo(ONES, data, LowBytes(w, 4));
    FourBytesTurnTheSum(c, w);
    ComplementIs(c);
    PlusOnes(c, w);
    ComplementTwice(Turns(Plus(c, w), 32), Turns(ONES, 32));
    hide Turns, Plus, Feed, LowBytes, Complement;
    if Turns(Plus(c, w), 32) == Turns(ONES, 32) { TurnsLoseNothing(Plus(c, w), ONES, 32); }
  }

  lemma PlusOnes(c: bv32, w: bv32)
    ensures Plus(c, w) == ONES <==> w == Plus(ONES, c)
  {
    EqualBySum(Plus(c, w), ONES);
    EqualBySum(w, Plus(ONES, c));
    Assoc(c, w, ONES);
    PlusLaws(c, Plus(w, ONES));
    Assoc(w, ONES, c);
    hide Plus;
  }

  lemma ComplementTwice(a: bv32, b: bv32)
    ensures Complement(a) == Complement(b) <==> a == b
  {
  }

  lemma {:induction false} FeedLosesNothing(c: bv32, d: bv32, data: Bytes)
    requires Feed(c, data) == Feed(d, data)
    ensures c == d
    decreases |data|
  {
    hide Turns, Plus, Wide;
    if data != [] {
      FeedLosesNothing(Take(c, data[0]), Take(d, data[0]), data[1..]);
      var b := Wide(data[0]);
      TurnsLoseNothing(Plus(c, b), Plus(d, b), 8);
      Assoc(c, b, b);
      Assoc(d, b, b);
      PlusLaws(b, b);
      PlusLaws(c, 0);
      PlusLaws(d, 0);
    }
  }

  /** Four bytes as a word, lowest first. */
  function Word(x: Bytes): (word: bv32)
    requires |x| == 4
  {
    (x[0] as bv32) | ((x[1] as bv32) << 8) | ((x[2] as bv32) << 16) | ((x[3] as bv32) << 24)
  }

  lemma WordIs(w: bv32, a: bv8, b: bv8, c: bv8, d: bv8)
    requires w == (a as bv32) | ((b as bv32) << 8) | ((c as bv32) << 16) | ((d as bv32) << 24)
    ensures LowByte(w) == a && LowByte(Above(w)) == b && LowByte(Above(Above(w))) == c && LowByte(Above(Above(Above(w)))) == d
  {
  }

  lemma WordsBytes(x: Bytes)
    requires |x| == 4
    ensures LowBytes(Word(x), 4) == x
  {
    WordIs(Word(x), x[0], x[1], x[2], x[3]);
    hide LowByte, Above, Word;
    var w := Word(x);
    var v := Above(w);
    var u := Above(v);
    var t := Above(u);
    assert LowBytes(t, 1) == [LowByte(t)];
    assert LowBytes(u, 2) == [LowByte(u), LowByte(t)];
    assert LowBytes(v, 3) == [LowByte(v), LowByte(u), LowByte(t)];
  }

  /** Messages that differ only within four bytes in a row, whatever comes before and after, have different checks. */
  lemma BurstsAreSeen(before: Bytes, x: Bytes, y: Bytes, after: Bytes)
    requires |x| == |y| == 4 && x != y
    ensures Crc(before + x + after) != Crc(before + y + after)
  {
    hide Turns, Plus, Take, LowBytes, Word, Complement;
    var c := Feed(ONES, before);
    FeedInTwo(ONES, before + x, after);
    FeedInTwo(ONES, before + y, after);
    FeedInTwo(ONES, before, x);
    FeedInTwo(ONES, before, y);
    WordsBytes(x);
    WordsBytes(y);
    FourBytesTurnTheSum(c, Word(x));
    FourBytesTurnTheSum(c, Word(y));
    ComplementTwice(Feed(Feed(c, x), after), Feed(Feed(c, y), after));
    if Feed(Feed(c, x), after) == Feed(Feed(c, y), after) {
      FeedLosesNothing(Feed(c, x), Feed(c, y), after);
      TurnsLoseNothing(Plus(c, Word(x)), Plus(c, Word(y)), 32);
      PlusCancels(c, Word(x), Word(y));
    }
  }

  lemma PlusCancels(c: bv32, a: bv32, b: bv32)
    requires Plus(c, a) == Plus(c, b)
    ensures a == b
  {
    Assoc(c, c, a);
    Assoc(c, c, b);
    PlusLaws(c, c);
    PlusLaws(a, 0);
    PlusLaws(b, 0);
    hide Plus;
  }

  /** A register is its four bytes. */
  lemma LowBytesTellAll(c: bv32, d: bv32)
    requires LowBytes(c, 4) == LowBytes(d, 4)
    ensures c == d
  {
    hide Turns, Plus, LowBytes;
    FourBytesTurnTheSum(0, c);
    FourBytesTurnTheSum(0, d);
    TurnsLoseNothing(Plus(0, c), Plus(0, d), 32);
    PlusCancels(0, c, d);
  }
}
