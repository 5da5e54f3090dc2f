/** The Game Boy CPU's arithmetic and logic: each helper computes a result from its operands and the
  * flags, and returns the new flags. As a byte, F holds Z (bit 7), N (bit 6), H (bit 5) and C (bit 4)
  * and its low four bits are 0. */
module GbAlu {

  predicate IsByte(b: int)
  {
    0 <= b < 0x100
  }

  predicate IsWord(w: int)
  {
    0 <= w < 0x10000
  }

  /** The four flags of F: zero, subtract, half carry and carry. */
  datatype Flags = Flags(z: bool, n: bool, h: bool, c: bool)

  /** The carry as the number C code reads from the bit field. */
  function Carry(f: Flags): (c: int)
    ensures (c == 1 <==> f.c) && (c == 0 <==> !f.c)
  {
    if f.c then 1 else 0
  }

  /** F as a byte: the flags in bits 7 to 4 and a low nibble of 0. */
  function FlagsByte(f: Flags): (b: int)
    ensures IsByte(b) && b % 0x10 == 0
  {
    (if f.z then 0x80 else 0) + (if f.n then 0x40 else 0) + (if f.h then 0x20 else 0) + (if f.c then 0x10 else 0)
  }

  /** The flags bits 7 to 4 of a byte give. */
  function ByteFlags(b: int): (f: Flags)
    requires IsByte(b)
  {
    Flags(b / 0x80 % 2 == 1, b / 0x40 % 2 == 1, b / 0x20 % 2 == 1, b / 0x10 % 2 == 1)
  }

  /** Packing and unpacking F: the flags come back, and a byte comes back with its low nibble cleared,
    * which is the F &= 0xF0 of POP AF. */
  lemma FlagsRoundTrip(f: Flags, b: int)
    requires IsByte(b)
    ensures ByteFlags(FlagsByte(f)) == f
    ensures FlagsByte(ByteFlags(b)) == b - b % 0x10
  {
    var q := b / 0x10;
    assert b / 0x20 == q / 2 && b / 0x40 == q / 4 && b / 0x80 == q / 8;
    NibbleBits(q);
  }

  lemma NibbleBits(q: int)
    requires 0 <= q < 0x10
    ensures q == q / 8 % 2 * 8 + q / 4 % 2 * 4 + q / 2 % 2 * 2 + q % 2
  {
  }

  /** The value a helper computes and the flags it leaves. */
  datatype Result = Result(value: int, f: Flags)

  /** ADD_8: the sum in 8 bits; C when it wrapped below the second operand, H on a carry out of the low
    * nibble, N clear. */
  function Add8(a: int, b: int, f: Flags): (r: Result)
    requires IsByte(a) && IsByte(b)
    ensures IsByte(r.value) && r.value == (a + b) % 0x100
    ensures r.f.z <==> r.value == 0
    ensures !r.f.n && (r.f.h <==> a % 0x10 + b % 0x10 > 0xF) && (r.f.c <==> a + b > 0xFF)
  {
    var h := a % 0x10 + b % 0x10 > 0xF;
    var sum := (a + b) % 0x100;
    Result(sum, Flags(sum == 0, false, h, sum < b))
  }

  /** ADC_8: the sum with the carry in 8 bits; C when the sum wrapped below the second operand, or came
    * back to it with a carry in. */
  function Adc8(a: int, b: int, f: Flags): (r: Result)
    requires IsByte(a) && IsByte(b)
    ensures IsByte(r.value) && r.value == (a + b + Carry(f)) % 0x100
    ensures r.f.z <==> r.value == 0
    ensures !r.f.n && (r.f.h <==> a % 0x10 + b % 0x10 + Carry(f) > 0xF)
    ensures r.f.c <==> a + b + Carry(f) > 0xFF
  {
    var c := Carry(f);
    var h := a % 0x10 + b % 0x10 + c > 0xF;
    var sum := (a + b + c) % 0x100;
    Result(sum, Flags(sum == 0, false, h, sum < b || (c == 1 && sum == b)))
  }

  /** 0x0F + 0x01 carries out of the low nibble only; 0x00 - 0x01 borrows from both. */
  lemma AddSubExamples(f: Flags)
    ensures var r := Add8(0x0F, 0x01, f); r.value == 0x10 && r.f.h && !r.f.c && !r.f.z && !r.f.n
    ensures var r := Sub8(0x00, 0x01, f); r.value == 0xFF && r.f.h && r.f.c && !r.f.z && r.f.n
  {
  }

  /** SUB_8: the difference in 8 bits; N set, H on a borrow from the low nibble, C on a borrow, Z when
    * the operands are equal. */
  function Sub8(a: int, b: int, f: Flags): (r: Result)
    requires IsByte(a) && IsByte(b)
    ensures IsByte(r.value) && r.value == (a - b) % 0x100
    ensures r.f.z <==> r.value == 0
    ensures r.f.n && (r.f.h <==> a % 0x10 < b % 0x10) && (r.f.c <==> a - b < 0)
  {
    Result((a - b) % 0x100, Flags(a == b, true, a % 0x10 < b % 0x10, a < b))
  }

  /** SBC_8: the difference less the carry, computed in 16 bits; the flags as for SUB_8 with the carry
    * taken in. */
  function Sbc8(a: int, b: int, f: Flags): (r: Result)
    requires IsByte(a) && IsByte(b)
    ensures IsByte(r.value) && r.value == (a - b - Carry(f)) % 0x100
    ensures r.f.z <==> r.value == 0
    ensures r.f.n && (r.f.h <==> a % 0x10 - b % 0x10 - Carry(f) < 0) && (r.f.c <==> a - b - Carry(f) < 0)
  {
    var c := Carry(f);
    var result := a - b - c;
    Result(result % 0x100, Flags(result % 0x100 == 0, true, a % 0x10 - b % 0x10 - c < 0, result < 0))
  }

  /** C's & on non-negative numbers, bit by bit from the lowest. */
  function And(a: nat, b: nat): (r: nat)
    ensures r <= a && r <= b
  {
    if a == 0 || b == 0 then 0 else 2 * And(a / 2, b / 2) + (if a % 2 == 1 && b % 2 == 1 then 1 else 0)
  }

  /** C's |. */
  function Or(a: nat, b: nat): (r: nat)
    ensures a <= r && b <= r && (r == 0 <==> a == 0 && b == 0)
    decreases a + b
  {
    if a == 0 then b else if b == 0 then a else 2 * Or(a / 2, b / 2) + (if a % 2 == 1 || b % 2 == 1 then 1 else 0)
  }

  /** C's ^. */
  function Xor(a: nat, b: nat): (r: nat)
    ensures r == 0 <==> a == b
    decreases a + b
  {
    if a == 0 then b else if b == 0 then a else 2 * Xor(a / 2, b / 2) + (if a % 2 != b % 2 then 1 else 0)
  }

  /** OR and XOR of two n-bit numbers are n-bit numbers. */
  lemma {:induction false} BitwiseBound(a: nat, b: nat, n: nat)
    requires a < Pow2(n) && b < Pow2(n)
    ensures Or(a, b) < Pow2(n) && Xor(a, b) < Pow2(n)
    decreases n
  {
    if a != 0 && b != 0 {
      BitwiseBound(a / 2, b / 2, n - 1);
    }
  }

  lemma BytesBitwise(a: int, b: int)
    requires IsByte(a) && IsByte(b)
    ensures IsByte(Or(a, b)) && IsByte(Xor(a, b))
  {
    Pow2Values();
    BitwiseBound(a, b, 8);
  }

  /** XOR with the same operand twice gives the value back. */
  lemma {:induction false} XorTwice(a: nat, b: nat)
    ensures Xor(Xor(a, b), b) == a
    decreases a + b
  {
    if a != 0 && b != 0 {
      var x := Xor(a / 2, b / 2);
      var c := if a % 2 != b % 2 then 1 else 0;
      assert Xor(a, b) == 2 * x + c;
      if 2 * x + c == 0 {
        assert a / 2 == b / 2 && a % 2 == b % 2;
      } else {
        XorTwice(a / 2, b / 2);
        assert (2 * x + c) / 2 == x && (2 * x + c) % 2 == c;
        assert Xor(2 * x + c, b) == 2 * (a / 2) + (if c != b % 2 then 1 else 0);
      }
    }
  }

  /** AND_8: H set, N and C clear. */
  function And8(a: int, b: int, f: Flags): (r: Result)
    requires IsByte(a) && IsByte(b)
    ensures IsByte(r.value) && r.value == And(a, b) && (r.f.z <==> r.value == 0)
    ensures !r.f.n && r.f.h && !r.f.c
  {
    var v := And(a, b);
    Result(v, Flags(v == 0, false, true, false))
  }

  /** OR_8 and XOR_8: N, H and C clear. */
  function Or8(a: int, b: int, f: Flags): (r: Result)
    requires IsByte(a) && IsByte(b)
    ensures IsByte(r.value) && r.value == Or(a, b) && (r.f.z <==> a == 0 && b == 0)
    ensures !r.f.n && !r.f.h && !r.f.c
  {
    BytesBitwise(a, b);
    var v := Or(a, b);
    Result(v, Flags(v == 0, false, false, false))
  }

  function Xor8(a: int, b: int, f: Flags): (r: Result)
    requires IsByte(a) && IsByte(b)
    ensures IsByte(r.value) && r.value == Xor(a, b) && (r.f.z <==> a == b)
    ensures !r.f.n && !r.f.h && !r.f.c
  {
    BytesBitwise(a, b);
    var v := Xor(a, b);
    Result(v, Flags(v == 0, false, false, false))
  }

  /** CP_8: the flags of SUB_8 without its result. */
  function Cp8(a: int, b: int, f: Flags): (r: Flags)
    requires IsByte(a) && IsByte(b)
    ensures (r.z <==> a == b) && r.n && (r.h <==> a % 0x10 < b % 0x10) && (r.c <==> a < b)
  {
    Flags(a == b, true, a % 0x10 < b % 0x10, a < b)
  }

  /** A compare sets the flags exactly as the subtraction would. */
  lemma CompareIsSubtract(a: int, b: int, f: Flags)
    requires IsByte(a) && IsByte(b)
    ensures Cp8(a, b, f) == Sub8(a, b, f).f
  {
  }

  /** INC_8: one more in 8 bits; H when the new low nibble is 0; C kept. */
  function Inc8(v: int, f: Flags): (r: Result)
    requires IsByte(v)
    ensures IsByte(r.value) && r.value == (v + 1) % 0x100 && (r.f.z <==> v == 0xFF)
    ensures !r.f.n && (r.f.h <==> v % 0x10 == 0xF) && r.f.c == f.c
  {
    var w := (v + 1) % 0x100;
    Result(w, Flags(w == 0, false, w % 0x10 == 0, f.c))
  }

  /** DEC_8: one less in 8 bits; H when the new low nibble is 0xF; C kept. */
  function Dec8(v: int, f: Flags): (r: Result)
    requires IsByte(v)
    ensures IsByte(r.value) && r.value == (v - 1) % 0x100 && (r.f.z <==> v == 1)
    ensures r.f.n && (r.f.h <==> v % 0x10 == 0) && r.f.c == f.c
  {
    var w := (v - 1) % 0x100;
    Result(w, Flags(w == 0, true, w % 0x10 == 0xF, f.c))
  }

  /** INC_8 and DEC_8 undo each other, value and Z alike, and neither touches C. */
  lemma IncDecInverse(v: int, f: Flags)
    requires IsByte(v)
    ensures Dec8(Inc8(v, f).value, Inc8(v, f).f).value == v && Inc8(Dec8(v, f).value, Dec8(v, f).f).value == v
    ensures Dec8(Inc8(v, f).value, Inc8(v, f).f).f.z <==> v == 0
  {
  }

  /** ADD_16: the sum in 16 bits; H on a carry out of bit 11, C when the sum exceeds 0xFFFF; Z kept. */
  function Add16(a: int, b: int, f: Flags): (r: Result)
    requires IsWord(a) && IsWord(b)
    ensures IsWord(r.value) && r.value == (a + b) % 0x10000
    ensures r.f.z == f.z && !r.f.n
    ensures (r.f.h <==> a % 0x1000 + b % 0x1000 > 0xFFF) && (r.f.c <==> a + b > 0xFFFF)
  {
    Result((a + b) % 0x10000, Flags(f.z, false, a % 0x1000 + b % 0x1000 > 0x0FFF, 0xFFFF - a < b))
  }

  /** An 8-bit immediate read as two's complement: (n & 127) - (n & 128). */
  function Signed8(n: int): (s: int)
    requires IsByte(n)
    ensures -128 <= s < 128 && s % 0x100 == n && s % 0x10 == n % 0x10 && (n < 128 ==> s == n) && (n >= 128 ==> s == n - 256)
  {
    n % 128 - n / 128 % 2 * 128
  }

  function Pow2(k: nat): (p: nat)
    ensures p >= 1
  {
    if k == 0 then 1 else 2 * Pow2(k - 1)
  }

  lemma Pow2Values()
    ensures Pow2(4) == 16 && Pow2(8) == 256
  {
  }

  /** Bits 4 and 8 of a number in two's complement: division rounds down for a positive divisor, so a
    * negative number reads with its high bits set, as C's ^ sees it. */
  function Bit4(x: int): (b: int)
    ensures b == 0 || b == 1
  {
    x / 0x10 % 2
  }

  function Bit8(x: int): (b: int)
    ensures b == 0 || b == 1
  {
    x / 0x100 % 2
  }

  /** Z and N clear, H bit 4 and C bit 8 of x ^ y ^ z. */
  function XorCarries(x: int, y: int, z: int): (f: Flags)
    ensures !f.z && !f.n
  {
    Flags(false, false, (Bit4(x) + Bit4(y) + Bit4(z)) % 2 == 1, (Bit8(x) + Bit8(y) + Bit8(z)) % 2 == 1)
  }

  lemma SameCarries(x: int, x': int, y: int, z: int)
    requires Bit4(x) == Bit4(x') && Bit8(x) == Bit8(x')
    ensures XorCarries(x, y, z) == XorCarries(x', y, z)
  {
  }

  /** ADD_SP_IM8: SP plus the signed immediate in 16 bits, Z and N clear, C and H bits 8 and 4 of
    * (SP' - s8) ^ s8 ^ SP'. */
  function AddSpImm(sp: int, n: int, f: Flags): (r: Result)
    requires IsWord(sp) && IsByte(n)
    ensures IsWord(r.value) && r.value == (sp + Signed8(n)) % 0x10000 && !r.f.z && !r.f.n
  {
    var s := Signed8(n);
    var sp' := (sp + s) % 0x10000;
    Result(sp', XorCarries(sp' - s, s, sp'))
  }

  /** LD_HL_SP_n: HL becomes SP plus the signed immediate, with C and H bits 8 and 4 of SP ^ s8 ^ HL. */
  function LdHlSpImm(sp: int, n: int, f: Flags): (r: Result)
    requires IsWord(sp) && IsByte(n)
    ensures IsWord(r.value) && r.value == (sp + Signed8(n)) % 0x10000 && !r.f.z && !r.f.n
  {
    var s := Signed8(n);
    var hl := (sp + s) % 0x10000;
    Result(hl, XorCarries(sp, s, hl))
  }

  /** In x ^ y ^ (x + y), bit 4 is the carry out of the low nibbles and bit 8 the carry out of the low
    * bytes, also when the sum is cut to 16 bits. */
  lemma CarryBits(x: int, y: int)
    requires IsWord(x) && -128 <= y < 128
    ensures XorCarries(x, y, (x + y) % 0x10000).h <==> x % 0x10 + y % 0x10 >= 0x10
    ensures XorCarries(x, y, (x + y) % 0x10000).c <==> x % 0x100 + y % 0x100 >= 0x100
  {
    CutSum(x + y);
    Carry4(x, y);
    Carry8(x, y);
  }

  /** A sum of a word and a signed byte keeps bits 4 and 8 when it is cut to 16 bits. */
  lemma CutSum(z: int)
    requires -128 <= z < 0x10000 + 128
    ensures Bit4(z % 0x10000) == Bit4(z) && Bit8(z % 0x10000) == Bit8(z)
  {
    var w := z % 0x10000;
    if z < 0 {
      assert z == w - 0x10000;
      WrapBits(w, -1);
    } else if z >= 0x10000 {
      assert z == w + 0x10000;
      WrapBits(w, 1);
    }
  }

  /** Adding a multiple of 0x10000 leaves bits 4 and 8 as they were. */
  lemma WrapBits(z: int, k: int)
    requires k == -1 || k == 1
    ensures Bit4(z + k * 0x10000) == Bit4(z) && Bit8(z + k * 0x10000) == Bit8(z)
  {
    var q4, r4 := z / 0x10, z % 0x10;
    assert z + k * 0x10000 == (q4 + k * 0x1000) * 0x10 + r4;
    var q8, r8 := z / 0x100, z % 0x100;
    assert z + k * 0x10000 == (q8 + k * 0x100) * 0x100 + r8;
  }

  lemma Parity(a: int, b: int, c: int)
    requires c == 0 || c == 1
    ensures (a % 2 + b % 2 + (a + b + c) % 2) % 2 == c
  {
  }

  lemma Carry4(x: int, y: int)
    ensures (Bit4(x) + Bit4(y) + Bit4(x + y)) % 2 == 1 <==> x % 0x10 + y % 0x10 >= 0x10
  {
    var c := if x % 0x10 + y % 0x10 >= 0x10 then 1 else 0;
    assert (x + y) / 0x10 == x / 0x10 + y / 0x10 + c;
    Parity(x / 0x10, y / 0x10, c);
  }

  lemma Carry8(x: int, y: int)
    ensures (Bit8(x) + Bit8(y) + Bit8(x + y)) % 2 == 1 <==> x % 0x100 + y % 0x100 >= 0x100
  {
    var c := if x % 0x100 + y % 0x100 >= 0x100 then 1 else 0;
    assert (x + y) / 0x100 == x / 0x100 + y / 0x100 + c;
    Parity(x / 0x100, y / 0x100, c);
  }

  /** Both SP additions set H and C from the unsigned addition of the immediate to SP's low byte: H on a
    * carry out of bit 3, C on a carry out of bit 7. */
  lemma SpFlags(sp: int, n: int, f: Flags)
    requires IsWord(sp) && IsByte(n)
    ensures AddSpImm(sp, n, f) == LdHlSpImm(sp, n, f)
    ensures LdHlSpImm(sp, n, f).f.h <==> sp % 0x10 + n % 0x10 > 0xF
    ensures LdHlSpImm(sp, n, f).f.c <==> sp % 0x100 + n > 0xFF
  {
    var s := Signed8(n);
    var r := (sp + s) % 0x10000;
    SpBack(sp, s);
    SameCarries(r - s, sp, s, r);
    CarryBits(sp, s);
    assert LdHlSpImm(sp, n, f).f == XorCarries(sp, s, r);
  }

  /** Taking the immediate back off the cut sum gives SP up to a multiple of 0x10000. */
  lemma SpBack(sp: int, s: int)
    requires IsWord(sp) && -128 <= s < 128
    ensures var t := (sp + s) % 0x10000 - s; Bit4(t) == Bit4(sp) && Bit8(t) == Bit8(sp)
  {
    var t := (sp + s) % 0x10000 - s;
    if sp + s < 0 {
      assert t == sp + 0x10000;
      WrapBits(sp, 1);
    } else if sp + s >= 0x10000 {
      assert t == sp - 0x10000;
      WrapBits(sp, -1);
    }
  }

  /** SWAP_n: the two nibbles exchanged; Z from the result, N, H and C clear. */
  function Swap(v: int, f: Flags): (r: Result)
    requires IsByte(v)
    ensures IsByte(r.value) && r.value / 0x10 == v % 0x10 && r.value % 0x10 == v / 0x10
    ensures (r.f.z <==> v == 0) && !r.f.n && !r.f.h && !r.f.c
  {
    var w := v % 0x10 * 0x10 + v / 0x10;
    Result(w, Flags(w == 0, false, false, false))
  }

  /** Swapping twice gives the byte back. */
  lemma SwapTwice(v: int, f: Flags)
    requires IsByte(v)
    ensures Swap(Swap(v, f).value, f).value == v
  {
  }

  /** CPL: every bit of A flipped, N and H set. */
  function Cpl(a: int, f: Flags): (r: Result)
    requires IsByte(a)
    ensures IsByte(r.value) && r.value + a == 0xFF && r.f.n && r.f.h && r.f.z == f.z && r.f.c == f.c
  {
    Result(0xFF - a, Flags(f.z, true, true, f.c))
  }

  /** CCF flips the carry and SCF sets it; both clear N and H and keep Z. */
  function Ccf(f: Flags): (r: Flags)
    ensures r.c == !f.c && !r.n && !r.h && r.z == f.z
  {
    Flags(f.z, false, false, !f.c)
  }

  function Scf(f: Flags): (r: Flags)
    ensures r.c && !r.n && !r.h && r.z == f.z
  {
    Flags(f.z, false, false, true)
  }

  /** RLC_N: bit 7 to the carry and to bit 0. RLCA (zero flag false) rotates A the same way. */
  function Rlc(v: int, f: Flags, zero: bool): (r: Result)
    requires IsByte(v)
    ensures IsByte(r.value) && (r.f.c <==> v >= 0x80) && r.value % 2 == v / 0x80 && r.value / 2 == v % 0x80
    ensures (r.f.z <==> zero && r.value == 0) && !r.f.n && !r.f.h
  {
    var c := v / 0x80;
    var w := (v * 2 + c) % 0x100;
    Result(w, Flags(zero && w == 0, false, false, c == 1))
  }

  /** RL_N: through the carry; bit 7 to the carry, the old carry to bit 0. */
  function Rl(v: int, f: Flags, zero: bool): (r: Result)
    requires IsByte(v)
    ensures IsByte(r.value) && (r.f.c <==> v >= 0x80) && r.value % 2 == Carry(f) && r.value / 2 == v % 0x80
    ensures (r.f.z <==> zero && r.value == 0) && !r.f.n && !r.f.h
  {
    var w := (v * 2 + Carry(f)) % 0x100;
    Result(w, Flags(zero && w == 0, false, false, v / 0x80 == 1))
  }

  /** RRC_N: bit 0 to the carry and to bit 7. */
  function Rrc(v: int, f: Flags, zero: bool): (r: Result)
    requires IsByte(v)
    ensures IsByte(r.value) && (r.f.c <==> v % 2 == 1) && r.value / 0x80 == v % 2 && r.value % 0x80 == v / 2
    ensures (r.f.z <==> zero && r.value == 0) && !r.f.n && !r.f.h
  {
    var c := v % 2;
    var w := v / 2 + c * 0x80;
    Result(w, Flags(zero && w == 0, false, false, c == 1))
  }

  /** RR_N: through the carry; bit 0 to the carry, the old carry to bit 7. */
  function Rr(v: int, f: Flags, zero: bool): (r: Result)
    requires IsByte(v)
    ensures IsByte(r.value) && (r.f.c <==> v % 2 == 1) && r.value / 0x80 == Carry(f) && r.value % 0x80 == v / 2
    ensures (r.f.z <==> zero && r.value == 0) && !r.f.n && !r.f.h
  {
    var w := v / 2 + Carry(f) * 0x80;
    Result(w, Flags(zero && w == 0, false, false, v % 2 == 1))
  }

  /** Rotating right undoes rotating left, and through the carry it also gives the carry back. */
  lemma RotateInverse(v: int, f: Flags, zero: bool)
    requires IsByte(v)
    ensures Rrc(Rlc(v, f, zero).value, f, zero).value == v && Rlc(Rrc(v, f, zero).value, f, zero).value == v
    ensures var l := Rl(v, f, zero); var back := Rr(l.value, l.f, zero); back.value == v && back.f.c == f.c
    ensures var rr := Rr(v, f, zero); var back := Rl(rr.value, rr.f, zero); back.value == v && back.f.c == f.c
  {
  }

  /** SLA_N: shift left, bit 7 to the carry, 0 into bit 0. */
  function Sla(v: int, f: Flags): (r: Result)
    requires IsByte(v)
    ensures IsByte(r.value) && (r.f.c <==> v > 0x7F) && r.value == v * 2 % 0x100
    ensures (r.f.z <==> r.value == 0) && !r.f.n && !r.f.h
  {
    var w := v * 2 % 0x100;
    Result(w, Flags(w == 0, false, false, v > 0x7F))
  }

  /** SRA_N: shift right keeping bit 7, bit 0 to the carry. */
  function Sra(v: int, f: Flags): (r: Result)
    requires IsByte(v)
    ensures IsByte(r.value) && (r.f.c <==> v % 2 == 1) && r.value / 0x80 == v / 0x80 && r.value % 0x40 == v / 2 % 0x40
    ensures (r.f.z <==> r.value == 0) && !r.f.n && !r.f.h
  {
    var w := v / 2 + v / 0x80 * 0x80;
    Result(w, Flags(w == 0, false, false, v % 2 == 1))
  }

  /** SRL_N: shift right, 0 into bit 7, bit 0 to the carry. */
  function Srl(v: int, f: Flags): (r: Result)
    requires IsByte(v)
    ensures IsByte(r.value) && (r.f.c <==> v % 2 == 1) && r.value == v / 2
    ensures (r.f.z <==> r.value == 0) && !r.f.n && !r.f.h
  {
    var w := v / 2;
    Result(w, Flags(w == 0, false, false, v % 2 == 1))
  }

  /** Read as a signed byte, SRA halves rounding down. */
  lemma SraHalves(v: int, f: Flags)
    requires IsByte(v)
    ensures Signed8(Sra(v, f).value) == Signed8(v) / 2
  {
  }

  /** v >> k, for a non-negative v. */
  function Shr(v: nat, k: nat): (r: nat)
    ensures r <= v
  {
    if k == 0 then v else Shr(v / 2, k - 1)
  }

  /** The shift's value: v >> k is v divided by 2^k, rounding down. */
  lemma {:induction false} ShrValue(v: nat, k: nat)
    ensures Shr(v, k) == v / Pow2(k)
  {
    if k > 0 {
      ShrValue(v / 2, k - 1);
      HalveThenDivide(v, Pow2(k - 1));
    }
  }

  /** A nonzero multiple of a positive d is at least d in magnitude. */
  lemma MulAtLeast(k: int, d: int)
    requires d > 0
    ensures k >= 1 ==> k * d >= d
    ensures k <= -1 ==> k * d <= -d
  {
  }

  /** Quotient and remainder are unique. */
  lemma DivUnique(n: int, d: int, q: int, r: int)
    requires d > 0 && 0 <= r < d && n == q * d + r
    ensures n / d == q && n % d == r
  {
    var q', r' := n / d, n % d;
    assert (q - q') * d == r' - r;
    MulAtLeast(q - q', d);
  }

  /** Halving and then dividing by m is dividing by 2m. */
  lemma HalveThenDivide(v: nat, m: nat)
    requires m >= 1
    ensures (v / 2) / m == v / (2 * m)
  {
    var q, r := (v / 2) / m, (v / 2) % m;
    assert v == q * (2 * m) + (2 * r + v % 2);
    DivUnique(v, 2 * m, q, 2 * r + v % 2);
  }

  /** (v >> k) & 1: bit k of v. */
  function BitOf(v: nat, k: nat): (x: nat)
    ensures x <= 1
  {
    Shr(v, k) % 2
  }

  lemma {:induction false} ZeroBits(k: nat)
    ensures BitOf(0, k) == 0
  {
    if k > 0 {
      ZeroBits(k - 1);
    }
  }

  /** Bit k of a & b is set exactly when it is set in both. */
  lemma {:induction false} AndBit(a: nat, b: nat, k: nat)
    ensures BitOf(And(a, b), k) == (if BitOf(a, k) == 1 && BitOf(b, k) == 1 then 1 else 0)
  {
    if a == 0 || b == 0 {
      ZeroBits(k);
    } else if k > 0 {
      AndBit(a / 2, b / 2, k - 1);
    }
  }

  /** Bit k of a | b is set exactly when it is set in either. */
  lemma {:induction false} OrBit(a: nat, b: nat, k: nat)
    ensures BitOf(Or(a, b), k) == (if BitOf(a, k) == 1 || BitOf(b, k) == 1 then 1 else 0)
    decreases k
  {
    if a == 0 || b == 0 {
      ZeroBits(k);
    } else if k > 0 {
      OrBit(a / 2, b / 2, k - 1);
    }
  }

  /** 1 << b has only bit b set. */
  lemma {:induction false} PowerBit(b: nat, k: nat)
    ensures BitOf(Pow2(b), k) == (if k == b then 1 else 0)
  {
    if b == 0 {
      if k > 0 {
        ZeroBits(k - 1);
      }
    } else if k > 0 {
      PowerBit(b - 1, k - 1);
    } else {
      assert Pow2(b) % 2 == 0;
    }
  }

  /** 2^n - 1 - 2^b, that is ~(1 << b) cut to n bits, has every bit below n set except bit b. */
  lemma {:induction false} NotPowerBit(n: nat, b: nat, k: nat)
    requires b < n && k < n && Pow2(b) < Pow2(n)
    ensures BitOf(Pow2(n) - 1 - Pow2(b), k) == (if k == b then 0 else 1)
  {
    if b == 0 {
      if k > 0 {
        OnesBit(n - 1, k - 1);
      }
    } else if k > 0 {
      NotPowerBit(n - 1, b - 1, k - 1);
    }
  }

  /** 2^n - 1 has its n lowest bits set. */
  lemma {:induction false} OnesBit(n: nat, k: nat)
    requires k < n
    ensures BitOf(Pow2(n) - 1, k) == 1
  {
    if k > 0 {
      OnesBit(n - 1, k - 1);
    }
  }

  lemma {:induction false} Pow2Monotone(b: nat, n: nat)
    requires b <= n
    ensures Pow2(b) <= Pow2(n)
    decreases n
  {
    if b < n {
      Pow2Monotone(b, n - 1);
    }
  }

  /** BIT_b_r: Z is the opposite of bit b; H set, N clear, C kept. */
  function TestBit(v: int, b: int, f: Flags): (r: Flags)
    requires IsByte(v) && 0 <= b < 8
    ensures (r.z <==> BitOf(v, b) == 0) && r.h && !r.n && r.c == f.c
  {
    Flags(BitOf(v, b) == 0, false, true, f.c)
  }

  /** SET_b_r: v | (1 << b); no flag changes. */
  function SetBit(v: int, b: int): (w: int)
    requires IsByte(v) && 0 <= b < 8
    ensures IsByte(w)
  {
    Pow2Monotone(b, 8);
    Pow2Values();
    BitwiseBound(v, Pow2(b), 8);
    Or(v, Pow2(b))
  }

  /** RES_b_r: v & ~(1 << b); no flag changes. */
  function ResBit(v: int, b: int): (w: int)
    requires IsByte(v) && 0 <= b < 8
    ensures IsByte(w)
  {
    Pow2Monotone(b, 7);
    Pow2Values();
    And(v, 0xFF - Pow2(b))
  }

  /** SET and RES write bit b and leave every other bit as it was, so a BIT test afterwards sees what was
    * written. */
  lemma SetResBits(v: int, b: int, k: int, f: Flags)
    requires IsByte(v) && 0 <= b < 8 && 0 <= k < 8
    ensures BitOf(SetBit(v, b), b) == 1 && BitOf(ResBit(v, b), b) == 0
    ensures k != b ==> BitOf(SetBit(v, b), k) == BitOf(v, k) && BitOf(ResBit(v, b), k) == BitOf(v, k)
    ensures !TestBit(SetBit(v, b), b, f).z && TestBit(ResBit(v, b), b, f).z
  {
    Pow2Values();
    Pow2Monotone(b, 7);
    forall j: nat | j < 8
      ensures BitOf(SetBit(v, b), j) == (if j == b then 1 else BitOf(v, j))
      ensures BitOf(ResBit(v, b), j) == (if j == b then 0 else BitOf(v, j))
    {
      OrBit(v, Pow2(b), j);
      PowerBit(b, j);
      AndBit(v, 0xFF - Pow2(b), j);
      NotPowerBit(8, b, j);
    }
  }

  /** DAA: after an addition (N clear) add 0x60 when C is set or A exceeds 0x99, setting C, then 0x06
    * when H is set or the low nibble exceeds 9; after a subtraction take 0x66, 0x60 or 0x06 off by the
    * carries. H is cleared, and Z set from the result. */
  function Daa(a: int, f: Flags): (r: Result)
    requires IsByte(a)
    ensures IsByte(r.value) && (r.f.z <==> r.value == 0) && !r.f.h && r.f.n == f.n
    ensures !f.n ==> (r.f.c <==> f.c || a > 0x99)
    ensures f.n ==> r.f.c == f.c
  {
    if !f.n then
      var c := f.c || a > 0x99;
      var a1 := if c then (a + 0x60) % 0x100 else a;
      var a2 := if f.h || a1 % 0x10 > 9 then (a1 + 0x06) % 0x100 else a1;
      Result(a2, Flags(a2 == 0, false, false, c))
    else
      var a1 := if f.h && f.c then (a + 0x9A) % 0x100
                else if f.c then (a + 0xA0) % 0x100
                else if f.h then (a + 0xFA) % 0x100
                else a;
      Result(a1, Flags(a1 == 0, true, false, f.c))
  }

  /** A byte holding two decimal digits, and the number they make. */
  predicate IsBcd(v: int)
  {
    IsByte(v) && v / 0x10 <= 9 && v % 0x10 <= 9
  }

  function Decimal(v: int): int
  {
    v / 0x10 * 10 + v % 0x10
  }

  function ToBcd(n: int): (v: int)
    requires 0 <= n < 100
    ensures IsBcd(v) && Decimal(v) == n
  {
    n / 10 * 0x10 + n % 10
  }

  /** DAA after adding two decimal bytes gives their decimal sum modulo 100, with the carry set exactly
    * when the sum reaches 100. */
  lemma DaaAfterAdd(a: int, b: int, f: Flags)
    requires IsBcd(a) && IsBcd(b)
    ensures var s := Add8(a, b, f); var d := Daa(s.value, s.f);
            d.value == ToBcd((Decimal(a) + Decimal(b)) % 100) && (d.f.c <==> Decimal(a) + Decimal(b) >= 100)
  {
    var ah, al, bh, bl := a / 0x10, a % 0x10, b / 0x10, b % 0x10;
    assert a == ah * 0x10 + al && b == bh * 0x10 + bl;
    var hi, lo := ah + bh, al + bl;
    assert Decimal(a) + Decimal(b) == hi * 10 + lo;
    var s := Add8(a, b, f);
    assert s.value == (hi * 0x10 + lo) % 0x100;
    assert !s.f.n && (s.f.h <==> lo > 0xF) && (s.f.c <==> hi * 0x10 + lo > 0xFF);
    DaaDigitsAdd(hi, lo, s.f);
  }

  /** DAA on the sum of digit columns hi and lo, with the flags the addition left. */
  lemma DaaDigitsAdd(hi: int, lo: int, f: Flags)
    requires 0 <= hi <= 18 && 0 <= lo <= 18 && !f.n
    requires (f.h <==> lo > 0xF) && (f.c <==> hi * 0x10 + lo > 0xFF)
    ensures var d := Daa((hi * 0x10 + lo) % 0x100, f);
            d.value == ToBcd((hi * 10 + lo) % 100) && (d.f.c <==> hi * 10 + lo >= 100)
  {
    if lo <= 9 {
      DaaAddExact(hi, lo, f);
      BcdDigits(hi, lo);
    } else {
      DaaAddAdjusted(hi + 1, lo - 10, f);
      BcdDigits(hi + 1, lo - 10);
    }
  }

  /** The decimal number with tens h and units l, modulo 100, in BCD. */
  lemma BcdDigits(h: int, l: int)
    requires 0 <= h <= 19 && 0 <= l <= 9
    ensures ToBcd((h * 10 + l) % 100) == if h >= 10 then (h - 10) * 0x10 + l else h * 0x10 + l
  {
    var n := h * 10 + l;
    if h <= 9 {
      assert n % 100 == n && n / 10 == h && n % 10 == l;
    } else {
      assert n % 100 == n - 100 && (n - 100) / 10 == h - 10 && (n - 100) % 10 == l;
    }
  }

  /** The units column did not carry: only the tens may need 0x60. */
  lemma DaaAddExact(h: int, l: int, f: Flags)
    requires 0 <= h <= 18 && 0 <= l <= 9 && !f.n && !f.h && (f.c <==> h * 0x10 + l > 0xFF)
    ensures var d := Daa((h * 0x10 + l) % 0x100, f);
            d.value == (if h >= 10 then (h - 10) * 0x10 + l else h * 0x10 + l) && (d.f.c <==> h >= 10)
  {
    var v := (h * 0x10 + l) % 0x100;
    if h <= 9 {
      assert v == h * 0x10 + l && v <= 0x99;
      Nibbles(h, l);
    } else {
      var t := (h - 10) * 0x10 + l;
      if h >= 0x10 {
        assert v == (h - 0x10) * 0x10 + l && v + 0x60 == t;
      } else {
        assert v == h * 0x10 + l && v > 0x99 && v + 0x60 == t + 0x100;
      }
      assert (v + 0x60) % 0x100 == t;
      Nibbles(h - 10, l);
    }
  }

  /** The byte with high nibble hi and low nibble lo. */
  lemma Nibbles(hi: int, lo: int)
    requires 0 <= lo < 0x10
    ensures (hi * 0x10 + lo) % 0x10 == lo && (hi * 0x10 + lo) / 0x10 == hi
  {
  }

  /** The units column reached 10 or more, so the byte sum is 6 short of the BCD digits h and l. */
  lemma DaaAddAdjusted(h: int, l: int, f: Flags)
    requires 1 <= h <= 19 && 0 <= l <= 9 && !f.n && (f.h <==> l >= 6) && (f.c <==> h * 0x10 + l - 6 > 0xFF)
    ensures var d := Daa((h * 0x10 + l - 6) % 0x100, f);
            d.value == (if h >= 10 then (h - 10) * 0x10 + l else h * 0x10 + l) && (d.f.c <==> h >= 10)
  {
    if h <= 9 {
      DaaAddNoTens(h, l, f);
    } else {
      DaaAddTens(h, l, f);
    }
  }

  /** The tens need no adjustment: only the units get their 6 back. */
  lemma DaaAddNoTens(h: int, l: int, f: Flags)
    requires 1 <= h <= 9 && 0 <= l <= 9 && !f.n && (f.h <==> l >= 6) && (f.c <==> h * 0x10 + l - 6 > 0xFF)
    ensures Daa(h * 0x10 + l - 6, f).value == h * 0x10 + l && !Daa(h * 0x10 + l - 6, f).f.c
  {
    var v := h * 0x10 + l - 6;
    assert !f.c && v <= 0x99;
    assert f.h || v % 0x10 == l + 10;
  }

  /** The tens passed 9: 0x60 goes on, and the units get their 6 back. */
  lemma DaaAddTens(h: int, l: int, f: Flags)
    requires 10 <= h <= 19 && 0 <= l <= 9 && !f.n && (f.h <==> l >= 6) && (f.c <==> h * 0x10 + l - 6 > 0xFF)
    ensures var d := Daa((h * 0x10 + l - 6) % 0x100, f); d.value == (h - 10) * 0x10 + l && d.f.c
  {
    var w := h * 0x10 + l - 6;
    var v := w % 0x100;
    var t := (h - 10) * 0x10 + l;
    var a1 := (v + 0x60) % 0x100;
    assert a1 == (t - 6) % 0x100 by {
      if w >= 0x100 {
        assert v == w - 0x100;
      } else {
        assert v == w;
      }
    }
    LowAdjust(t, a1, f.h);
    assert f.c || v > 0x99;
  }

  /** Six short of a BCD byte t whose units digit is l: the nibble shows it by exceeding 9 unless l >= 6. */
  lemma LowAdjust(t: int, a1: int, h: bool)
    requires IsBcd(t) && a1 == (t - 6) % 0x100 && (h <==> t % 0x10 >= 6)
    ensures (h || a1 % 0x10 > 9) && (a1 + 6) % 0x100 == t
  {
    if t < 6 {
      assert a1 == t + 0xFA;
    }
  }

  /** DAA after subtracting two decimal bytes gives their decimal difference modulo 100, with the carry
    * set exactly when the subtraction borrowed. */
  lemma DaaAfterSub(a: int, b: int, f: Flags)
    requires IsBcd(a) && IsBcd(b)
    ensures var s := Sub8(a, b, f); var d := Daa(s.value, s.f);
            d.value == ToBcd((Decimal(a) - Decimal(b)) % 100) && (d.f.c <==> Decimal(a) < Decimal(b))
  {
    var ah, al, bh, bl := a / 0x10, a % 0x10, b / 0x10, b % 0x10;
    assert a == ah * 0x10 + al && b == bh * 0x10 + bl;
    var hi, lo := ah - bh, al - bl;
    assert Decimal(a) - Decimal(b) == hi * 10 + lo;
    var s := Sub8(a, b, f);
    assert s.value == (hi * 0x10 + lo) % 0x100;
    assert s.f.n && (s.f.h <==> lo < 0) && (s.f.c <==> hi * 0x10 + lo < 0);
    DaaDigitsSub(hi, lo, s.f);
  }

  /** DAA on the difference of digit columns hi and lo, with the flags the subtraction left. */
  lemma DaaDigitsSub(hi: int, lo: int, f: Flags)
    requires -9 <= hi <= 9 && -9 <= lo <= 9 && f.n
    requires (f.h <==> lo < 0) && (f.c <==> hi * 0x10 + lo < 0)
    ensures var d := Daa((hi * 0x10 + lo) % 0x100, f);
            d.value == ToBcd((hi * 10 + lo) % 100) && (d.f.c <==> hi * 10 + lo < 0)
  {
    if lo >= 0 {
      DaaSubExact(hi, lo, f);
      BcdSigned(hi, lo);
    } else {
      DaaSubAdjusted(hi - 1, lo + 10, f);
      BcdSigned(hi - 1, lo + 10);
    }
  }

  /** The decimal number with (possibly negative) tens h and units l, modulo 100, in BCD. */
  lemma BcdSigned(h: int, l: int)
    requires -10 <= h <= 9 && 0 <= l <= 9
    ensures ToBcd((h * 10 + l) % 100) == if h >= 0 then h * 0x10 + l else (h + 10) * 0x10 + l
  {
    var n := h * 10 + l;
    if h >= 0 {
      assert n % 100 == n && n / 10 == h && n % 10 == l;
    } else {
      assert n % 100 == n + 100 && (n + 100) / 10 == h + 10 && (n + 100) % 10 == l;
    }
  }

  /** The units column did not borrow: only the tens may need 0x60 taken off. */
  lemma DaaSubExact(h: int, l: int, f: Flags)
    requires -9 <= h <= 9 && 0 <= l <= 9 && f.n && !f.h && (f.c <==> h * 0x10 + l < 0)
    ensures var d := Daa((h * 0x10 + l) % 0x100, f);
            d.value == (if h >= 0 then h * 0x10 + l else (h + 10) * 0x10 + l) && (d.f.c <==> h < 0)
  {
    if h < 0 {
      var v := (h * 0x10 + l) % 0x100;
      assert v == h * 0x10 + l + 0x100;
      assert (v + 0xA0) % 0x100 == (h + 10) * 0x10 + l;
    }
  }

  /** The units column borrowed, so the byte difference is 6 over the BCD digits h and l. */
  lemma DaaSubAdjusted(h: int, l: int, f: Flags)
    requires -10 <= h <= 8 && 0 <= l <= 9 && f.n && f.h && (f.c <==> h * 0x10 + l + 6 < 0)
    ensures var d := Daa((h * 0x10 + l + 6) % 0x100, f);
            d.value == (if h >= 0 then h * 0x10 + l else (h + 10) * 0x10 + l) && (d.f.c <==> h < 0)
  {
    var w := h * 0x10 + l + 6;
    var v := w % 0x100;
    if h < 0 {
      assert v == w + 0x100;
      assert (v + 0x9A) % 0x100 == (h + 10) * 0x10 + l;
    } else {
      assert v == w;
      assert (v + 0xFA) % 0x100 == h * 0x10 + l;
    }
  }
}
