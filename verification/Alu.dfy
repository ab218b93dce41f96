/** The CPU's 8- and 16-bit arithmetic with its flags (core/src/cpu.rs), and what chains of it compute. */
module Alu {
  import opened Base

  datatype Flags = Flags(z: bool, n: bool, h: bool, c: bool)

  /** The accumulator with the flags. */
  datatype Acc = Acc(a: byte, f: Flags)

  function Unit(b: bool): (n: int)
    ensures n == 0 || n == 1
  {
    if b then 1 else 0
  }

  function Add(s: Acc, v: byte): Acc {
    var r := (s.a + v) % 256;
    Acc(r, Flags(r == 0, false, s.a % 16 + v % 16 > 15, s.a + v > 255))
  }

  function Adc(s: Acc, v: byte): Acc {
    var carry := Unit(s.f.c);
    var r := (s.a + v + carry) % 256;
    Acc(r, Flags(r == 0, false, s.a % 16 + v % 16 + carry > 15, s.a + v + carry > 255))
  }

  function Sub(s: Acc, v: byte): Acc {
    var r := (s.a - v) % 256;
    Acc(r, Flags(r == 0, true, s.a % 16 < v % 16, s.a < v))
  }

  function Sbc(s: Acc, v: byte): Acc {
    var carry := Unit(s.f.c);
    var r := (s.a - v - carry) % 256;
    Acc(r, Flags(r == 0, true, s.a % 16 < v % 16 + carry, s.a < v + carry))
  }

  function And(s: Acc, v: byte): Acc {
    var r := ((s.a as bv8) & (v as bv8)) as int;
    Acc(r, Flags(r == 0, false, true, false))
  }

  function Xor(s: Acc, v: byte): Acc {
    var r := ((s.a as bv8) ^ (v as bv8)) as int;
    Acc(r, Flags(r == 0, false, false, false))
  }

  function Or(s: Acc, v: byte): Acc {
    var r := ((s.a as bv8) | (v as bv8)) as int;
    Acc(r, Flags(r == 0, false, false, false))
  }

  function Compare(s: Acc, v: byte): Acc { Acc(s.a, Sub(s, v).f) }

  function Daa(s: Acc): Acc {
    if !s.f.n then
      var low := s.f.h || s.a % 16 > 9;
      var high := s.f.c || s.a > 0x99;
      var r := (s.a + (if low then 0x06 else 0) + (if high then 0x60 else 0)) % 256;
      Acc(r, Flags(r == 0, false, false, high))
    else
      var r := (s.a - (if s.f.h then 0x06 else 0) - (if s.f.c then 0x60 else 0)) % 256;
      Acc(r, Flags(r == 0, true, false, s.f.c))
  }

  function Alu8(op: int, s: Acc, v: byte): Acc
    requires 0 <= op < 8
  {
    match op
    case 0 => Add(s, v)
    case 1 => Adc(s, v)
    case 2 => Sub(s, v)
    case 3 => Sbc(s, v)
    case 4 => And(s, v)
    case 5 => Xor(s, v)
    case 6 => Or(s, v)
    case _ => Compare(s, v)
  }

  // ----------------------------------------------------------------- the class

  /** The accumulator half of the CPU, instruction by instruction. */
  class Accumulator {
    var a: byte
    var f: Flags

    function State(): Acc
      reads this
    {
      Acc(a, f)
    }

    method AdcToA(value: byte)
      modifies this
      ensures State() == Adc(old(State()), value)
      ensures a + 256 * Unit(f.c) == old(a) + value + Unit(old(f.c))
    {
      var carryIn := Unit(f.c);
      var previous := a;
      a := (previous + value + carryIn) % 256;
      f := f.(z := a == 0, n := false, h := previous % 16 + value % 16 + carryIn > 15);
      f := f.(c := previous + value + carryIn > 255);
    }

    method SbcFromA(value: byte)
      modifies this
      ensures State() == Sbc(old(State()), value)
      ensures a - 256 * Unit(f.c) == old(a) - value - Unit(old(f.c))
    {
      var carryIn := Unit(f.c);
      var previous := a;
      a := (previous - value - carryIn) % 256;
      f := f.(z := a == 0, n := true, h := previous % 16 < value % 16 + carryIn);
      f := f.(c := previous < value + carryIn);
    }

    method DecimalAdjust()
      modifies this
      ensures State() == Daa(old(State()))
    {
      var adjust, setCarry := 0, false;
      if !f.n {
        if f.h || a % 16 > 9 {
          adjust := adjust + 0x06;
        }
        if f.c || a > 0x99 {
          adjust, setCarry := adjust + 0x60, true;
        }
        a := (a + adjust) % 256;
      } else {
        if f.h {
          adjust := adjust + 0x06;
        }
        if f.c {
          adjust := adjust + 0x60;
        }
        a := (a - adjust) % 256;
        setCarry := f.c;
      }
      f := f.(z := a == 0, h := false, c := setCarry);
    }
  }

  // ------------------------------------------------- chains of any byte length

  /** Little-endian value of a byte string in a given base, `digit` giving each byte's worth. */
  function Value(s: seq<byte>): int { if s == [] then 0 else s[0] + 256 * Value(s[1..]) }

  function Power(base: int, n: nat): int { if n == 0 then 1 else base * Power(base, n - 1) }

  datatype Op = Plus | Minus | DecimalPlus | DecimalMinus

  /** One link of the chain: load a byte, apply the operation with the carry flag of the link before. */
  function Link(op: Op, x: byte, y: byte, f: Flags): Acc {
    match op
    case Plus => Adc(Acc(x, f), y)
    case Minus => Sbc(Acc(x, f), y)
    case DecimalPlus => Daa(Adc(Acc(x, f), y))
    case DecimalMinus => Daa(Sbc(Acc(x, f), y))
  }

  datatype Chained = Chained(bytes: seq<byte>, f: Flags)

  /** The chain over two operands, low byte first. */
  function Chain(op: Op, xs: seq<byte>, ys: seq<byte>, f: Flags): (r: Chained)
    requires |xs| == |ys|
    ensures |r.bytes| == |xs|
  {
    if xs == [] then Chained([], f)
    else
      var link := Link(op, xs[0], ys[0], f);
      var rest := Chain(op, xs[1..], ys[1..], link.f);
      Chained([link.a] + rest.bytes, rest.f)
  }

  lemma ScaleStep(r: int, c: int, rest: int, c': int, sum: int, restSum: int, base: int, p: int)
    requires r + base * c == sum && rest + p * c' == restSum + c
    ensures (r + base * rest) + (base * p) * c' == sum + base * restSum
  {
    assert base * (rest + p * c') == base * (restSum + c);
    assert (base * p) * c' == base * (p * c');
    assert base * (rest + p * c') == base * rest + base * (p * c');
    assert base * (restSum + c) == base * restSum + base * c;
  }

  /** ADC over n bytes adds the integers; the final carry is the overflow. */
  lemma {:induction false} AdcChainAdds(xs: seq<byte>, ys: seq<byte>, f: Flags)
    requires |xs| == |ys|
    ensures var r := Chain(Plus, xs, ys, f);
      Value(r.bytes) + Power(256, |xs|) * Unit(r.f.c) == Value(xs) + Value(ys) + Unit(f.c)
  {
    hide Adc, Unit;
    if xs != [] {
      var link := Adc(Acc(xs[0], f), ys[0]);
      AdcExact(Acc(xs[0], f), ys[0]);
      AdcChainAdds(xs[1..], ys[1..], link.f);
      var rest := Chain(Plus, xs[1..], ys[1..], link.f);
      assert ([link.a] + rest.bytes)[1..] == rest.bytes;
      ScaleStep(link.a, Unit(link.f.c), Value(rest.bytes), Unit(rest.f.c), xs[0] + ys[0] + Unit(f.c),
                Value(xs[1..]) + Value(ys[1..]), 256, Power(256, |xs| - 1));
    }
  }

  lemma AdcExact(s: Acc, v: byte)
    ensures Adc(s, v).a + 256 * Unit(Adc(s, v).f.c) == s.a + v + Unit(s.f.c)
  {
  }

  lemma SbcExact(s: Acc, v: byte)
    ensures Sbc(s, v).a - 256 * Unit(Sbc(s, v).f.c) == s.a - v - Unit(s.f.c)
  {
  }

  /** SBC over n bytes subtracts the integers; the final carry is the borrow. */
  lemma {:induction false} SbcChainSubtracts(xs: seq<byte>, ys: seq<byte>, f: Flags)
    requires |xs| == |ys|
    ensures var r := Chain(Minus, xs, ys, f);
      Value(r.bytes) - Power(256, |xs|) * Unit(r.f.c) == Value(xs) - Value(ys) - Unit(f.c)
  {
    hide Sbc, Unit;
    if xs != [] {
      var link := Sbc(Acc(xs[0], f), ys[0]);
      SbcExact(Acc(xs[0], f), ys[0]);
      SbcChainSubtracts(xs[1..], ys[1..], link.f);
      var rest := Chain(Minus, xs[1..], ys[1..], link.f);
      assert ([link.a] + rest.bytes)[1..] == rest.bytes;
      ScaleStep(link.a, -Unit(link.f.c), Value(rest.bytes), -Unit(rest.f.c), xs[0] - ys[0] - Unit(f.c),
                Value(xs[1..]) - Value(ys[1..]), 256, Power(256, |xs| - 1));
    }
  }

  // ------------------------------------------------------------ packed decimals

  predicate Bcd(b: byte) { b / 16 <= 9 && b % 16 <= 9 }

  predicate AllBcd(s: seq<byte>) { forall i | 0 <= i < |s| :: Bcd(s[i]) }

  function Digits(b: byte): int { (b / 16) * 10 + b % 16 }

  function Decimal(s: seq<byte>): int { if s == [] then 0 else Digits(s[0]) + 100 * Decimal(s[1..]) }

  lemma Nibbles(high: int, low: int)
    requires 0 <= high < 16 && 0 <= low < 16
    ensures (16 * high + low) / 16 == high && (16 * high + low) % 16 == low
  {
  }

  /** DAA on the binary sum of two decimal bytes, given by its nibble sums. */
  lemma DaaOfSum(high: int, low: int, f: Flags)
    requires 0 <= low <= 19 && 0 <= high <= 18
    requires !f.n && f.h == (low > 15) && f.c == (16 * high + low > 255)
    ensures var lowCarry := Unit(low > 9);
      var highCarry := Unit(high + lowCarry > 9);
      var r := Daa(Acc((16 * high + low) % 256, f));
      r.a == 16 * (high + lowCarry - 10 * highCarry) + (low - 10 * lowCarry) && r.f.c == (highCarry == 1)
  {
    var carry := Unit(low > 15);
    var x, y := high + carry, low - 16 * carry;
    var x' := if x > 15 then x - 16 else x;
    WrapByte(16 * high + low);
    Nibbles(x', y);
    WrapByte(16 * x' + y + (if f.h || y > 9 then 0x06 else 0) + (if f.c || 16 * x' + y > 0x99 then 0x60 else 0));
  }

  lemma WrapByte(v: int)
    requires 0 <= v < 512
    ensures v % 256 == if v > 255 then v - 256 else v
  {
  }

  /** DAA on the binary difference of two decimal bytes, given by its nibble differences. */
  lemma DaaOfDifference(high: int, low: int, f: Flags)
    requires -10 <= low <= 9 && -9 <= high <= 9
    requires f.n && f.h == (low < 0) && f.c == (16 * high + low < 0)
    ensures var lowBorrow := Unit(low < 0);
      var highBorrow := Unit(high - lowBorrow < 0);
      var r := Daa(Acc((16 * high + low) % 256, f));
      r.a == 16 * (high - lowBorrow + 10 * highBorrow) + (low + 10 * lowBorrow) && r.f.c == (highBorrow == 1)
  {
  }

  lemma DigitsOf(high: int, low: int)
    requires 0 <= high <= 9 && 0 <= low <= 9
    ensures Bcd(16 * high + low) && Digits(16 * high + low) == 10 * high + low
  {
    Nibbles(high, low);
  }

  /** DAA after ADC of two packed decimals and a carry is their decimal sum. */
  lemma DaaAfterAdc(x: byte, y: byte, f: Flags)
    requires Bcd(x) && Bcd(y)
    ensures var r := Link(DecimalPlus, x, y, f);
      Bcd(r.a) && Digits(r.a) + 100 * Unit(r.f.c) == Digits(x) + Digits(y) + Unit(f.c)
  {
    var low, high := x % 16 + y % 16 + Unit(f.c), x / 16 + y / 16;
    assert x + y + Unit(f.c) == 16 * high + low;
    DaaOfSum(high, low, Adc(Acc(x, f), y).f);
    hide Daa;
    var lowCarry := Unit(low > 9);
    var highCarry := Unit(high + lowCarry > 9);
    DigitsOf(high + lowCarry - 10 * highCarry, low - 10 * lowCarry);
  }

  /** DAA after SBC of two packed decimals and a borrow is their decimal difference. */
  lemma DaaAfterSbc(x: byte, y: byte, f: Flags)
    requires Bcd(x) && Bcd(y)
    ensures var r := Link(DecimalMinus, x, y, f);
      Bcd(r.a) && Digits(r.a) - 100 * Unit(r.f.c) == Digits(x) - Digits(y) - Unit(f.c)
  {
    var low, high := x % 16 - y % 16 - Unit(f.c), x / 16 - y / 16;
    assert x - y - Unit(f.c) == 16 * high + low;
    DaaOfDifference(high, low, Sbc(Acc(x, f), y).f);
    hide Daa;
    var lowBorrow := Unit(low < 0);
    var highBorrow := Unit(high - lowBorrow < 0);
    DigitsOf(high - lowBorrow + 10 * highBorrow, low + 10 * lowBorrow);
  }

  lemma {:induction false} DecimalChainAdds(xs: seq<byte>, ys: seq<byte>, f: Flags)
    requires |xs| == |ys| && AllBcd(xs) && AllBcd(ys)
    ensures var r := Chain(DecimalPlus, xs, ys, f);
      AllBcd(r.bytes) &&
      Decimal(r.bytes) + Power(100, |xs|) * Unit(r.f.c) == Decimal(xs) + Decimal(ys) + Unit(f.c)
  {
    hide Link, Unit, Bcd, Digits;
    if xs != [] {
      var link := Link(DecimalPlus, xs[0], ys[0], f);
      DaaAfterAdc(xs[0], ys[0], f);
      DecimalChainAdds(xs[1..], ys[1..], link.f);
      var rest := Chain(DecimalPlus, xs[1..], ys[1..], link.f);
      assert ([link.a] + rest.bytes)[1..] == rest.bytes;
      ScaleStep(Digits(link.a), Unit(link.f.c), Decimal(rest.bytes), Unit(rest.f.c),
                Digits(xs[0]) + Digits(ys[0]) + Unit(f.c), Decimal(xs[1..]) + Decimal(ys[1..]), 100,
                 Power(100, |xs| - 1));
    }
  }

  lemma {:induction false} DecimalChainSubtracts(xs: seq<byte>, ys: seq<byte>, f: Flags)
    requires |xs| == |ys| && AllBcd(xs) && AllBcd(ys)
    ensures var r := Chain(DecimalMinus, xs, ys, f);
      AllBcd(r.bytes) &&
      Decimal(r.bytes) - Power(100, |xs|) * Unit(r.f.c) == Decimal(xs) - Decimal(ys) - Unit(f.c)
  {
    hide Link, Unit, Bcd, Digits;
    if xs != [] {
      var link := Link(DecimalMinus, xs[0], ys[0], f);
      DaaAfterSbc(xs[0], ys[0], f);
      DecimalChainSubtracts(xs[1..], ys[1..], link.f);
      var rest := Chain(DecimalMinus, xs[1..], ys[1..], link.f);
      assert ([link.a] + rest.bytes)[1..] == rest.bytes;
      ScaleStep(Digits(link.a), -Unit(link.f.c), Decimal(rest.bytes), -Unit(rest.f.c),
                Digits(xs[0]) - Digits(ys[0]) - Unit(f.c), Decimal(xs[1..]) - Decimal(ys[1..]), 100,
                 Power(100, |xs| - 1));
    }
  }
}
