/** CRC-32 as the firmware's library updates it, and as IEEE 802.3 defines it.

    `crc32_ieee_update` of the operating system is not part of the repository; it is modelled
    bit by bit.  The reference is section 3.2.9 of IEEE 802.3: complement the first 32 bits of
    the message, append 32 zero bits, divide by the generator, complement the remainder. */
module Crc {

  // ---------------------------------------------------------------- the update

  const POLYNOMIAL: bv32 := 0xEDB8_8320
  const ONES: bv32 := 0xFFFF_FFFF

  predicate Odd(x: bv32) { x & 1 == 1 }

  function Half(x: bv32): bv32 { x >> 1 }

  function Plus(x: bv32, y: bv32): bv32 { x ^ y }

  function Widen(b: bv8): bv32 { b as bv32 }

  function Shift(c: bv32): bv32 {
    if Odd(c) then Plus(Half(c), POLYNOMIAL) else Half(c)
  }

  function ShiftBy(c: bv32, n: nat): bv32
    decreases n
  {
    if n == 0 then c else ShiftBy(Shift(c), n - 1)
  }

  /** The register after data, without the two complements. */
  function Raw(c: bv32, data: seq<bv8>): bv32
    decreases |data|
  {
    if data == [] then c else Raw(ShiftBy(Plus(c, Widen(data[0])), 8), data[1..])
  }

  /** `crc32_ieee_update`. */
  function Update(crc: bv32, data: seq<bv8>): bv32 {
    Plus(Raw(Plus(crc, ONES), data), ONES)
  }

  lemma {:induction false} RawConcat(c: bv32, a: seq<bv8>, b: seq<bv8>)
    ensures Raw(c, a + b) == Raw(Raw(c, a), b)
    decreases |a|
  {
    if a == [] {
      assert a + b == b;
    } else {
      assert (a + b)[1..] == a[1..] + b;
      hide Plus, ShiftBy, Widen;
      RawConcat(ShiftBy(Plus(c, Widen(a[0])), 8), a[1..], b);
    }
  }

  lemma PlusTwice(x: bv32, y: bv32)
    ensures Plus(Plus(x, y), y) == x
  {
  }

  /** Updating with a and then with b is updating with both. */
  lemma UpdateConcat(crc: bv32, a: seq<bv8>, b: seq<bv8>)
    ensures Update(crc, a + b) == Update(Update(crc, a), b)
    ensures Update(crc, []) == crc
  {
    hide Shift;
    RawConcat(Plus(crc, ONES), a, b);
    PlusTwice(Raw(Plus(crc, ONES), a), ONES);
    PlusTwice(crc, ONES);
    hide Plus;
  }

  lemma ShiftInjective(a: bv32, b: bv32)
    requires Shift(a) == Shift(b)
    ensures a == b
  {
  }

  lemma {:induction false} ShiftByInjective(a: bv32, b: bv32, n: nat)
    requires ShiftBy(a, n) == ShiftBy(b, n)
    ensures a == b
    decreases n
  {
    hide Shift;
    if n > 0 {
      ShiftByInjective(Shift(a), Shift(b), n - 1);
      ShiftInjective(a, b);
    }
  }

  lemma {:induction false} RawInjective(a: bv32, b: bv32, data: seq<bv8>)
    requires Raw(a, data) == Raw(b, data)
    ensures a == b
    decreases |data|
  {
    hide ShiftBy, Plus, Widen;
    if data != [] {
      var d := Widen(data[0]);
      RawInjective(ShiftBy(Plus(a, d), 8), ShiftBy(Plus(b, d), 8), data[1..]);
      ShiftByInjective(Plus(a, d), Plus(b, d), 8);
      PlusTwice(a, d);
      PlusTwice(b, d);
    }
  }

  /** Different CRCs stay different under the same data. */
  lemma UpdateInjective(a: bv32, b: bv32, data: seq<bv8>)
    requires Update(a, data) == Update(b, data)
    ensures a == b
  {
    hide Raw, Plus;
    var x, y := Raw(Plus(a, ONES), data), Raw(Plus(b, ONES), data);
    PlusTwice(x, ONES);
    PlusTwice(y, ONES);
    RawInjective(Plus(a, ONES), Plus(b, ONES), data);
    PlusTwice(a, ONES);
    PlusTwice(b, ONES);
  }

  // ---------------------------------------------------------------- the definition

  /** Add b to the leading terms of a. */
  function Xor(a: seq<bool>, b: seq<bool>): (r: seq<bool>)
    requires |b| <= |a|
    ensures |r| == |a|
  {
    seq(|a|, i requires 0 <= i < |a| => if i < |b| then a[i] != b[i] else a[i])
  }

  function Zeros(n: nat): (r: seq<bool>)
    ensures |r| == n
  {
    seq(n, _ => false)
  }

  function Ones(n: nat): (r: seq<bool>)
    ensures |r| == n
  {
    seq(n, _ => true)
  }

  /** The generator x^32 + x^26 + x^23 + x^22 + x^16 + x^12 + x^11 + x^10 + x^8 + x^7 + x^5 + x^4
      + x^2 + x + 1 without its leading term, from x^31 down to x^0. */
  function Generator(): (g: seq<bool>)
    ensures |g| == 32
  {
    Terms(32)
  }

  /** The coefficients from x^(n-1) down. */
  function Terms(n: nat): (r: seq<bool>)
    ensures |r| == n
  {
    if n == 0 then [] else [Term(n - 1)] + Terms(n - 1)
  }

  predicate Term(exponent: nat) {
    || exponent == 26 || exponent == 23 || exponent == 22 || exponent == 16 || exponent == 12
    || exponent == 11 || exponent == 10 || exponent == 8 || exponent == 7 || exponent == 5
    || exponent == 4 || exponent == 2 || exponent == 1 || exponent == 0
  }

  /** Long division by the generator; polynomials are written from their leading term down. */
  function Remainder(p: seq<bool>): (r: seq<bool>)
    requires |p| >= 32
    ensures |r| == 32
    decreases |p|
  {
    if |p| == 32 then p
    else if p[0] then Remainder(Xor(p[1..], Generator()))
    else Remainder(p[1..])
  }

  /** The n low bits, lowest first: the order of transmission. */
  function Bits(x: bv32, n: nat): (r: seq<bool>)
    ensures |r| == n
    decreases n
  {
    if n == 0 then [] else [Odd(x)] + Bits(Half(x), n - 1)
  }

  function MessageBits(data: seq<bv8>): seq<bool> {
    if data == [] then [] else Bits(Widen(data[0]), 8) + MessageBits(data[1..])
  }

  /** The 32 bits of the CRC, from the coefficient of x^31 down. */
  function Crc32(data: seq<bv8>): seq<bool> {
    Xor(Remainder(Xor(MessageBits(data) + Zeros(32), Ones(32))), Ones(32))
  }

  // ---------------------------------------------------------------- the shift register

  /** One step of the division register, for one message bit. */
  function Next(c: seq<bool>, b: bool): (r: seq<bool>)
    requires |c| == 32
    ensures |r| == 32
  {
    if c[0] != b then Xor(c[1..] + [false], Generator()) else c[1..] + [false]
  }

  function Register(c: seq<bool>, bits: seq<bool>): (r: seq<bool>)
    requires |c| == 32
    ensures |r| == 32
    decreases |bits|
  {
    if bits == [] then c else Register(Next(c, bits[0]), bits[1..])
  }

  /** The register divides: it holds the remainder of the message times x^32, with the initial
      register added to its leading bits. */
  lemma {:induction false} RegisterDivides(c: seq<bool>, bits: seq<bool>)
    requires |c| == 32
    ensures Register(c, bits) == Remainder(Xor(bits + Zeros(32), c))
    decreases |bits|
  {
    var p := Xor(bits + Zeros(32), c);
    if bits == [] {
      assert p == c;
    } else {
      var rest := bits[1..] + Zeros(32);
      assert p[1..] == Xor(rest, c[1..] + [false]);
      if p[0] {
        assert Xor(p[1..], Generator()) == Xor(rest, Next(c, bits[0]));
      }
      RegisterDivides(Next(c, bits[0]), bits[1..]);
    }
  }

  lemma {:induction false} RegisterConcat(c: seq<bool>, a: seq<bool>, b: seq<bool>)
    requires |c| == 32
    ensures Register(c, a + b) == Register(Register(c, a), b)
    decreases |a|
  {
    if a == [] {
      assert a + b == b;
    } else {
      assert (a + b)[1..] == a[1..] + b;
      RegisterConcat(Next(c, a[0]), a[1..], b);
    }
  }

  // ---------------------------------------------------------------- words as registers

  lemma HalfOfSum(a: bv32, b: bv32)
    ensures Half(Plus(a, b)) == Plus(Half(a), Half(b))
    ensures Odd(Plus(a, b)) <==> Odd(a) != Odd(b)
  {
  }

  lemma {:induction false} BitsOfSum(a: bv32, b: bv32, n: nat)
    ensures Bits(Plus(a, b), n) == Xor(Bits(a, n), Bits(b, n))
    decreases n
  {
    hide Half, Odd, Plus;
    if n > 0 {
      HalfOfSum(a, b);
      BitsOfSum(Half(a), Half(b), n - 1);
    }
  }

  /** The word fits in n bits. */
  predicate Fits(x: bv32, n: nat)
    decreases n
  {
    if n == 0 then x == 0 else Fits(Half(x), n - 1)
  }

  lemma {:induction false} HighBitsZero(x: bv32, k: nat, n: nat)
    requires Fits(x, k) && k < n
    ensures !Bits(x, n)[k]
    decreases k
  {
    if k > 0 {
      hide Half, Odd;
      HighBitsZero(Half(x), k - 1, n - 1);
    }
  }

  function Nibble(x: bv32): bv32 { x >> 4 }

  lemma HalveFour(x: bv32)
    ensures Half(Half(Half(Half(x)))) == Nibble(x)
  {
  }

  lemma FitsNibble(x: bv32, n: nat)
    requires n >= 4
    ensures Fits(x, n) == Fits(Nibble(x), n - 4)
  {
    HalveFour(x);
    hide Half, Nibble;
    assert Fits(Half(x), n - 1) == Fits(Half(Half(x)), n - 2);
    assert Fits(Half(Half(x)), n - 2) == Fits(Half(Half(Half(x))), n - 3);
  }

  lemma ShiftedOut(x: bv32)
    ensures Nibble(Nibble(Nibble(Nibble(Nibble(Nibble(Nibble(Nibble(x)))))))) == 0
  {
  }

  lemma WordFits(x: bv32)
    ensures Fits(x, 32)
  {
    ShiftedOut(x);
    hide Half, Nibble;
    FitsNibble(x, 32);
    var a := Nibble(x);
    FitsNibble(a, 28);
    var b := Nibble(a);
    FitsNibble(b, 24);
    var c := Nibble(b);
    FitsNibble(c, 20);
    var d := Nibble(c);
    FitsNibble(d, 16);
    var e := Nibble(d);
    FitsNibble(e, 12);
    var f := Nibble(e);
    FitsNibble(f, 8);
    FitsNibble(Nibble(f), 4);
  }

  lemma HalfFits(x: bv32, n: nat)
    requires n > 0 && Fits(x, n)
    ensures Fits(Half(x), n - 1)
  {
  }

  /** Halving a word moves its bits up and brings in a zero. */
  lemma BitsOfHalf(x: bv32)
    ensures Bits(Half(x), 32) == Bits(x, 32)[1..] + [false]
  {
    hide Half, Odd, Fits, Bits;
    WordFits(x);
    HalfFits(x, 32);
    HighBitsZero(Half(x), 31, 32);
    BitsPrefix(Half(x), 31, 32);
    LowBit(x, 32);
    var h := Bits(Half(x), 32);
    assert h == h[..31] + [h[31]];
  }

  lemma {:induction false} BitsPrefix(x: bv32, k: nat, n: nat)
    requires k <= n
    ensures Bits(x, n)[..k] == Bits(x, k)
    decreases k
  {
    hide Half, Odd;
    if k > 0 {
      BitsPrefix(Half(x), k - 1, n - 1);
      assert Bits(x, n)[..k] == [Odd(x)] + Bits(Half(x), n - 1)[..k - 1];
    }
  }

  lemma LowBit(x: bv32, n: nat)
    requires n > 0
    ensures Bits(x, n) == [Odd(x)] + Bits(Half(x), n - 1)
  {
  }

  lemma NibbleBits(x: bv32, n: nat)
    requires n >= 4
    ensures Bits(x, n) == [x & 1 == 1, x & 2 == 2, x & 4 == 4, x & 8 == 8] + Bits(Nibble(x), n - 4)
  {
    HalveFour(x);
    LowBits(x);
    LowBit(x, n);
    LowBit(Half(x), n - 1);
    LowBit(Half(Half(x)), n - 2);
    LowBit(Half(Half(Half(x))), n - 3);
    hide Half, Nibble, Odd, Bits;
  }

  lemma LowBits(x: bv32)
    ensures Odd(x) == (x & 1 == 1) && Odd(Half(x)) == (x & 2 == 2)
    ensures Odd(Half(Half(x))) == (x & 4 == 4) && Odd(Half(Half(Half(x)))) == (x & 8 == 8)
  {
  }

  lemma FourTerms(n: nat)
    requires n >= 4
    ensures Terms(n) == [Term(n - 1), Term(n - 2), Term(n - 3), Term(n - 4)] + Terms(n - 4)
  {
    hide Term;
    assert Terms(n - 1) == [Term(n - 2)] + Terms(n - 2);
    assert Terms(n - 2) == [Term(n - 3)] + Terms(n - 3);
    assert Terms(n - 3) == [Term(n - 4)] + Terms(n - 4);
  }

  lemma GeneratorGrows(x: bv32, n: nat)
    requires n >= 4
    requires (x & 1 == 1) == Term(n - 1) && (x & 2 == 2) == Term(n - 2)
    requires (x & 4 == 4) == Term(n - 3) && (x & 8 == 8) == Term(n - 4)
    requires Bits(Nibble(x), n - 4) == Terms(n - 4)
    ensures Bits(x, n) == Terms(n)
  {
    NibbleBits(x, n);
    FourTerms(n);
    hide Half, Odd, Nibble, Bits, Term, Terms;
  }

  /** The constant of the update is the generator. */
  lemma PolynomialIsGenerator()
    ensures Bits(POLYNOMIAL, 32) == Generator()
  {
    assert Terms(0) == [];
    hide Half, Odd, Terms;
    GeneratorGrows(0x0000_000E, 4);
    GeneratorGrows(0x0000_00ED, 8);
    GeneratorGrows(0x0000_0EDB, 12);
    GeneratorGrows(0x0000_EDB8, 16);
    GeneratorGrows(0x000E_DB88, 20);
    GeneratorGrows(0x00ED_B883, 24);
    GeneratorGrows(0x0EDB_8832, 28);
    GeneratorGrows(0xEDB8_8320, 32);
  }

  lemma OnesGrow(x: bv32, n: nat)
    requires n >= 4 && x & 1 == 1 && x & 2 == 2 && x & 4 == 4 && x & 8 == 8
    requires Bits(Nibble(x), n - 4) == Ones(n - 4)
    ensures Bits(x, n) == Ones(n)
  {
    NibbleBits(x, n);
    hide Half, Odd, Nibble;
  }

  lemma OnesAreOnes()
    ensures Bits(ONES, 32) == Ones(32)
  {
    hide Ones, Half, Odd;
    OnesGrow(0x0000_000F, 4);
    OnesGrow(0x0000_00FF, 8);
    OnesGrow(0x0000_0FFF, 12);
    OnesGrow(0x0000_FFFF, 16);
    OnesGrow(0x000F_FFFF, 20);
    OnesGrow(0x00FF_FFFF, 24);
    OnesGrow(0x0FFF_FFFF, 28);
    OnesGrow(0xFFFF_FFFF, 32);
  }

  // ---------------------------------------------------------------- bytes

  lemma PlusSwaps(a: bv32, b: bv32, c: bv32)
    ensures Plus(Plus(a, b), c) == Plus(Plus(a, c), b)
    ensures Plus(a, 0) == a && Plus(0, a) == a
  {
  }

  /** The register word after one message bit. */
  function NextWord(c: bv32, b: bool): bv32 {
    if Odd(c) != b then Plus(Half(c), POLYNOMIAL) else Half(c)
  }

  lemma NextWordBits(c: bv32, b: bool)
    ensures Bits(NextWord(c, b), 32) == Next(Bits(c, 32), b)
  {
    BitsOfHalf(c);
    BitsOfSum(Half(c), POLYNOMIAL, 32);
    PolynomialIsGenerator();
    hide Half, Plus, Odd, Generator;
  }

  /** Shifting a register with b added is taking in the low bit of b, with the rest of b added. */
  lemma ShiftTakesBit(c: bv32, b: bv32)
    ensures Shift(Plus(c, b)) == Plus(NextWord(c, Odd(b)), Half(b))
  {
    HalfOfSum(c, b);
    PlusSwaps(Half(c), Half(b), POLYNOMIAL);
    hide Half, Plus, Odd;
  }

  /** Shifting a register that has a byte added to it is feeding the byte bit by bit. */
  lemma {:induction false} ShiftFeeds(c: bv32, b: bv32, n: nat)
    requires Fits(b, n)
    ensures Bits(ShiftBy(Plus(c, b), n), 32) == Register(Bits(c, 32), Bits(b, n))
    decreases n
  {
    if n == 0 {
      PlusSwaps(c, 0, 0);
    } else {
      ShiftTakesBit(c, b);
      NextWordBits(c, Odd(b));
      ShiftFeeds(NextWord(c, Odd(b)), Half(b), n - 1);
      hide Half, Plus, Odd, Shift, NextWord, Next;
    }
  }

  lemma ByteFits(b: bv8)
    ensures Fits(Widen(b), 8)
  {
    assert Nibble(Nibble(Widen(b))) == 0;
    hide Half, Nibble;
    FitsNibble(Widen(b), 8);
    FitsNibble(Nibble(Widen(b)), 4);
  }

  /** The update register is the division register. */
  lemma {:induction false} RawDivides(c: bv32, data: seq<bv8>)
    ensures Bits(Raw(c, data), 32) == Register(Bits(c, 32), MessageBits(data))
    decreases |data|
  {
    hide Plus, Odd, Half, ShiftBy, Next, Fits, Widen;
    if data != [] {
      var b := Widen(data[0]);
      ByteFits(data[0]);
      ShiftFeeds(c, b, 8);
      RawDivides(ShiftBy(Plus(c, b), 8), data[1..]);
      RegisterConcat(Bits(c, 32), Bits(b, 8), MessageBits(data[1..]));
    }
  }

  /** The update computes the CRC-32 of the standard. */
  lemma UpdateIsCrc32(data: seq<bv8>)
    ensures Bits(Update(0, data), 32) == Crc32(data)
  {
    hide Plus, Raw, Xor, Remainder, Register, Bits;
    PlusSwaps(ONES, 0, 0);
    RawDivides(ONES, data);
    OnesAreOnes();
    RegisterDivides(Ones(32), MessageBits(data));
    BitsOfSum(Raw(ONES, data), ONES, 32);
  }

  // ---------------------------------------------------------------- words and their bits

  lemma HalvesTell(a: bv32, b: bv32)
    requires Odd(a) == Odd(b) && Half(a) == Half(b)
    ensures a == b
  {
  }

  lemma {:induction false} BitsTell(a: bv32, b: bv32, n: nat)
    requires Fits(a, n) && Fits(b, n) && Bits(a, n) == Bits(b, n)
    ensures a == b
    decreases n
  {
    hide Half, Odd;
    if n > 0 {
      LowBit(a, n);
      LowBit(b, n);
      assert Bits(a, n)[0] == Bits(b, n)[0] && Bits(a, n)[1..] == Bits(b, n)[1..];
      BitsTell(Half(a), Half(b), n - 1);
      HalvesTell(a, b);
    }
  }

  /** The bits of a word determine it. */
  lemma BitsInjective(a: bv32, b: bv32)
    ensures Bits(a, 32) == Bits(b, 32) <==> a == b
  {
    hide Bits, Fits;
    WordFits(a);
    WordFits(b);
    if Bits(a, 32) == Bits(b, 32) {
      BitsTell(a, b, 32);
    }
  }
}
