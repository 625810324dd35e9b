/** FNV-1a in 32 bits and its fixed-width hexadecimal form, as `shortHash` uses them. */
module Fnv {
  const WORD := 0x1_0000_0000
  const OFFSET_BASIS: nat := 2166136261
  const PRIME: nat := 16777619

  type Byte = b: nat | b < 256

  /** Bitwise exclusive or of two `n`-bit numbers. */
  function Xor(a: nat, b: nat, n: nat): nat {
    if n == 0 then 0
    else 2 * Xor(a / 2, b / 2, n - 1) + (if a % 2 == b % 2 then 0 else 1)
  }

  function Pow2(n: nat): nat {
    if n == 0 then 1 else 2 * Pow2(n - 1)
  }

  lemma {:induction false} XorIsInvolution(a: nat, b: nat, n: nat)
    requires a < Pow2(n) && b < Pow2(n)
    ensures Xor(a, b, n) < Pow2(n)
    ensures Xor(Xor(a, b, n), b, n) == a
    ensures Xor(Xor(a, b, n), a, n) == b
  {
    if n > 0 {
      XorIsInvolution(a / 2, b / 2, n - 1);
      var x := Xor(a, b, n);
      assert x / 2 == Xor(a / 2, b / 2, n - 1);
    }
  }

  /** Bit number `i` of a number. */
  function Bit(x: nat, i: nat): nat {
    if i == 0 then x % 2 else Bit(x / 2, i - 1)
  }

  /** The exclusive or has exactly the bits in which the two numbers differ, below bit `n`. */
  lemma {:induction false} XorIsBitwise(a: nat, b: nat, n: nat, i: nat)
    ensures Bit(Xor(a, b, n), i) == if i < n && Bit(a, i) != Bit(b, i) then 1 else 0
    decreases i
  {
    if n == 0 {
      NoBits(i);
    } else {
      var rest := Xor(a / 2, b / 2, n - 1);
      assert Xor(a, b, n) / 2 == rest && Xor(a, b, n) % 2 == if a % 2 == b % 2 then 0 else 1;
      if i > 0 {
        XorIsBitwise(a / 2, b / 2, n - 1, i - 1);
      }
    }
  }

  lemma {:induction false} NoBits(i: nat)
    ensures Bit(0, i) == 0
  {
    if i > 0 {
      NoBits(i - 1);
    }
  }

  /** The xor of a word with a byte, which only reaches the low eight bits. */
  function XorByte(h: nat, b: Byte): nat {
    h / 256 * 256 + Xor(h % 256, b, 8)
  }

  lemma XorByteParts(h: nat, b: Byte)
    ensures XorByte(h, b) / 256 == h / 256
    ensures XorByte(h, b) % 256 == Xor(h % 256, b, 8)
    ensures Xor(Xor(h % 256, b, 8), b, 8) == h % 256
    ensures Xor(Xor(h % 256, b, 8), h % 256, 8) == b
    ensures h < WORD ==> XorByte(h, b) < WORD
  {
    ByteBound();
    XorIsInvolution(h % 256, b, 8);
    Split(h / 256, Xor(h % 256, b, 8));
  }

  lemma ByteBound()
    ensures Pow2(8) == 256
  {
    assert Pow2(4) == 16;
  }

  lemma Split(high: nat, low: nat)
    requires low < 256
    ensures (high * 256 + low) / 256 == high && (high * 256 + low) % 256 == low
    ensures high < WORD / 256 ==> high * 256 + low < WORD
  {
  }

  lemma XorByteInjective(h: nat, g: nat, b: Byte, c: Byte)
    requires XorByte(h, b) == XorByte(g, c)
    ensures b == c ==> h == g
    ensures h == g ==> b == c
  {
    XorByteParts(h, b);
    XorByteParts(g, c);
  }

  /** 16777619 * 899433627 == 1 + 3513497 * 2^32, so the product can be undone. */
  lemma DivideByPrime(d: int, q: int)
    requires d * 16777619 == q * 0x1_0000_0000
    ensures d == (q * 899433627 - d * 3513497) * 0x1_0000_0000
  {
  }

  lemma SmallMultiple(d: int, m: int)
    requires d == m * 0x1_0000_0000 && -0x1_0000_0000 < d < 0x1_0000_0000
    ensures d == 0
  {
  }

  /** Multiplication by the odd prime is a bijection modulo 2^32. */
  lemma MultiplyInjective(x: nat, y: nat)
    requires x < WORD && y < WORD && x * PRIME % WORD == y * PRIME % WORD
    ensures x == y
  {
    var q := x * PRIME / WORD - y * PRIME / WORD;
    DivideByPrime(x - y, q);
    SmallMultiple(x - y, q * 899433627 - (x - y) * 3513497);
  }

  /** One round: xor in the byte, then multiply in the ring of 32-bit words. */
  function Round(h: nat, b: Byte): (r: nat)
    ensures r < WORD
  {
    XorByte(h, b) * PRIME % WORD
  }

  lemma RoundInjective(h: nat, g: nat, b: Byte, c: Byte)
    requires h < WORD && g < WORD && Round(h, b) == Round(g, c)
    ensures b == c ==> h == g
    ensures h == g ==> b == c
  {
    XorByteParts(h, b);
    XorByteParts(g, c);
    MultiplyInjective(XorByte(h, b), XorByte(g, c));
    XorByteInjective(h, g, b, c);
  }

  function HashFrom(h: nat, data: seq<Byte>): nat
    decreases data
  {
    if data == [] then h else HashFrom(Round(h, data[0]), data[1..])
  }

  function Hash(data: seq<Byte>): nat {
    HashFrom(OFFSET_BASIS, data)
  }

  /** Published answers of the 32-bit FNV-1a hash, for the empty text and for `a`. */
  lemma KnownAnswers()
    ensures Hash([]) == 0x811C_9DC5
    ensures Hash([97]) == 0xE40C_292C
  {
    hide Xor, Round;
    XorOfLetter();
    LetterRound();
    assert [97 as Byte][1..] == [];
    assert Hash([97]) == HashFrom(Round(OFFSET_BASIS, 97), []);
  }

  lemma XorOfLetter()
    ensures Xor(0xC5, 97, 8) == 0xA4
  {
    assert Xor(3, 1, 2) == 2;
    assert Xor(12, 6, 4) == 10;
    assert Xor(49, 24, 6) == 41;
  }

  lemma LetterRound()
    requires Xor(0xC5, 97, 8) == 0xA4
    ensures Round(OFFSET_BASIS, 97) == 0xE40C_292C
  {
    hide Xor;
    assert OFFSET_BASIS % 256 == 0xC5;
    assert XorByte(OFFSET_BASIS, 97) == 0x811C_9DA4;
    assert 0x811C_9DA4 * 16777619 % 0x1_0000_0000 == 0xE40C_292C;
  }

  /** The library's write loop. */
  method Sum32a(data: seq<Byte>) returns (h: nat)
    ensures h == Hash(data)
  {
    h := OFFSET_BASIS;
    for i := 0 to |data|
      invariant HashFrom(h, data[i..]) == Hash(data)
    {
      assert data[i..][0] == data[i] && data[i..][1..] == data[i + 1..];
      h := Round(h, data[i]);
    }
  }

  /** The hash of any fixed tail is injective in the state it starts from. */
  lemma {:induction false} TailInjective(h: nat, g: nat, data: seq<Byte>)
    requires h < WORD && g < WORD
    ensures HashFrom(h, data) < WORD
    ensures HashFrom(h, data) == HashFrom(g, data) ==> h == g
    decreases data
  {
    if data != [] {
      TailInjective(Round(h, data[0]), Round(g, data[0]), data[1..]);
      if Round(h, data[0]) == Round(g, data[0]) {
        RoundInjective(h, g, data[0], data[0]);
      }
    }
  }

  /** Inputs of equal length that differ in exactly one byte never collide. */
  lemma {:induction false} OneByteNeverCollides(h: nat, x: seq<Byte>, y: seq<Byte>, i: nat)
    requires h < WORD && |x| == |y| && i < |x| && x[i] != y[i]
    requires forall j | 0 <= j < |x| && j != i :: x[j] == y[j]
    ensures HashFrom(h, x) != HashFrom(h, y)
    decreases i
  {
    if i == 0 {
      assert x[1..] == y[1..];
      if Round(h, x[0]) == Round(h, y[0]) {
        RoundInjective(h, h, x[0], y[0]);
      }
      TailInjective(Round(h, x[0]), Round(h, y[0]), x[1..]);
    } else {
      OneByteNeverCollides(Round(h, x[0]), x[1..], y[1..], i - 1);
    }
  }

  function HexDigit(d: nat): char
    requires d < 16
  {
    if d < 10 then '0' + d as char else 'a' + (d - 10) as char
  }

  /** `%0nx`, for a number of at most `n` digits. */
  function Hex(h: nat, n: nat): (r: string)
    ensures |r| == n
    ensures forall c | c in r :: '0' <= c <= '9' || 'a' <= c <= 'f'
  {
    if n == 0 then "" else Hex(h / 16, n - 1) + [HexDigit(h % 16)]
  }

  function Pow16(n: nat): nat {
    if n == 0 then 1 else 16 * Pow16(n - 1)
  }

  lemma {:induction false} HexInjective(a: nat, b: nat, n: nat)
    requires a < Pow16(n) && b < Pow16(n) && Hex(a, n) == Hex(b, n)
    ensures a == b
  {
    if n > 0 {
      assert Hex(a, n)[n - 1] == HexDigit(a % 16) && Hex(b, n)[n - 1] == HexDigit(b % 16);
      assert Hex(a, n)[..n - 1] == Hex(a / 16, n - 1) && Hex(b, n)[..n - 1] == Hex(b / 16, n - 1);
      HexInjective(a / 16, b / 16, n - 1);
    }
  }
}
