/**
 * The permission mask as an integer, and its byte and hex codecs (app/core/rbac/mask.py).
 *
 * The other modules speak of a mask as the set of its bits. This one proves that reading
 * exact: integers and finite bit sets correspond one to one, and the operators the program
 * applies to masks (`|`, `&`, `& ~`, `1 << k`) are union, intersection, difference and
 * singleton under that correspondence.
 */
module Mask {
  import opened Wrappers

  // ------------------------------------------------------------------
  // Integer operators, digit by digit
  // ------------------------------------------------------------------

  function Or(a: nat, b: nat): nat
    decreases a + b
  {
    if a == 0 && b == 0 then 0
    else 2 * Or(a / 2, b / 2) + if a % 2 == 1 || b % 2 == 1 then 1 else 0
  }

  function And(a: nat, b: nat): nat {
    if a == 0 then 0
    else 2 * And(a / 2, b / 2) + if a % 2 == 1 && b % 2 == 1 then 1 else 0
  }

  // a & ~b
  function AndNot(a: nat, b: nat): nat {
    if a == 0 then 0
    else 2 * AndNot(a / 2, b / 2) + if a % 2 == 1 && b % 2 == 0 then 1 else 0
  }

  // 1 << k
  function Shift(k: nat): nat {
    if k == 0 then 1 else 2 * Shift(k - 1)
  }

  predicate Bit(m: nat, k: nat)
    decreases k
  {
    if k == 0 then m % 2 == 1 else Bit(m / 2, k - 1)
  }

  function Bits(m: nat): set<nat> {
    set k: nat | k < m && Bit(m, k)
  }

  lemma {:induction false} BitBelow(m: nat, k: nat)
    requires Bit(m, k)
    ensures k < m
  {
    if k != 0 {
      BitBelow(m / 2, k - 1);
    }
  }

  lemma InBits(m: nat, k: nat)
    ensures k in Bits(m) <==> Bit(m, k)
  {
  }

  lemma {:induction false} ZeroHasNoBit(k: nat)
    ensures !Bit(0, k)
  {
    if k != 0 {
      ZeroHasNoBit(k - 1);
    }
  }

  lemma Halves(rest: nat, digit: nat)
    requires digit < 2
    ensures (2 * rest + digit) / 2 == rest && (2 * rest + digit) % 2 == digit
  {
  }

  lemma {:induction false} OrBit(a: nat, b: nat, k: nat)
    ensures Bit(Or(a, b), k) <==> Bit(a, k) || Bit(b, k)
    decreases k
  {
    if a == 0 && b == 0 {
      ZeroHasNoBit(k);
    } else {
      Halves(Or(a / 2, b / 2), if a % 2 == 1 || b % 2 == 1 then 1 else 0);
      if k != 0 {
        OrBit(a / 2, b / 2, k - 1);
      }
    }
  }

  lemma {:induction false} AndBit(a: nat, b: nat, k: nat)
    ensures Bit(And(a, b), k) <==> Bit(a, k) && Bit(b, k)
    decreases k
  {
    if a == 0 {
      ZeroHasNoBit(k);
    } else {
      Halves(And(a / 2, b / 2), if a % 2 == 1 && b % 2 == 1 then 1 else 0);
      if k != 0 {
        AndBit(a / 2, b / 2, k - 1);
      }
    }
  }

  lemma {:induction false} AndNotBit(a: nat, b: nat, k: nat)
    ensures Bit(AndNot(a, b), k) <==> Bit(a, k) && !Bit(b, k)
    decreases k
  {
    if a == 0 {
      ZeroHasNoBit(k);
    } else {
      Halves(AndNot(a / 2, b / 2), if a % 2 == 1 && b % 2 == 0 then 1 else 0);
      if k != 0 {
        AndNotBit(a / 2, b / 2, k - 1);
      }
    }
  }

  lemma {:induction false} ShiftBit(k: nat, j: nat)
    ensures Bit(Shift(k), j) <==> j == k
    decreases k
  {
    if k == 0 {
      if j != 0 { ZeroHasNoBit(j - 1); }
    } else if j != 0 {
      ShiftBit(k - 1, j - 1);
      assert Shift(k) / 2 == Shift(k - 1);
    }
  }

  // ------------------------------------------------------------------
  // Integers and bit sets are the same thing
  // ------------------------------------------------------------------

  lemma OperatorsAreSetOperators(a: nat, b: nat, k: nat)
    ensures Bits(Or(a, b)) == Bits(a) + Bits(b)
    ensures Bits(And(a, b)) == Bits(a) * Bits(b)
    ensures Bits(AndNot(a, b)) == Bits(a) - Bits(b)
    ensures Bits(Shift(k)) == {k} && Bits(0) == {}
  {
    forall j: nat
      ensures j in Bits(Or(a, b)) <==> j in Bits(a) + Bits(b)
      ensures j in Bits(And(a, b)) <==> j in Bits(a) * Bits(b)
      ensures j in Bits(AndNot(a, b)) <==> j in Bits(a) - Bits(b)
      ensures j in Bits(Shift(k)) <==> j == k
    {
      InBits(Or(a, b), j); InBits(And(a, b), j); InBits(AndNot(a, b), j); InBits(Shift(k), j);
      InBits(a, j); InBits(b, j);
      OrBit(a, b, j); AndBit(a, b, j); AndNotBit(a, b, j); ShiftBit(k, j);
    }
  }

  lemma {:induction false} BitsDetermineMask(a: nat, b: nat)
    requires Bits(a) == Bits(b)
    ensures a == b
    decreases a + b
  {
    InBits(a, 0);
    InBits(b, 0);
    if a != 0 || b != 0 {
      forall j: nat ensures j in Bits(a / 2) <==> j in Bits(b / 2) {
        InBits(a / 2, j); InBits(b / 2, j);
        InBits(a, j + 1); InBits(b, j + 1);
      }
      BitsDetermineMask(a / 2, b / 2);
    }
  }

  // The integer with the given bits, built as the program builds one: by OR-ing 1 << k.
  ghost function OfBits(s: set<nat>): nat {
    if s == {} then 0 else var k :| k in s; Or(OfBits(s - {k}), Shift(k))
  }

  lemma {:induction false} EveryBitSetIsAMask(s: set<nat>)
    ensures Bits(OfBits(s)) == s
  {
    if s == {} {
      OperatorsAreSetOperators(0, 0, 0);
    } else {
      var k :| k in s && OfBits(s) == Or(OfBits(s - {k}), Shift(k));
      EveryBitSetIsAMask(s - {k});
      OperatorsAreSetOperators(OfBits(s - {k}), Shift(k), k);
      assert (s - {k}) + {k} == s;
    }
  }

  // `requested & ~allowed` is zero exactly when nothing is requested that is not allowed.
  lemma SubsetTest(requested: nat, allowed: nat)
    ensures AndNot(requested, allowed) == 0 <==> Bits(requested) <= Bits(allowed)
  {
    OperatorsAreSetOperators(requested, allowed, 0);
    if Bits(requested) <= Bits(allowed) {
      assert Bits(AndNot(requested, allowed)) == {};
      BitsDetermineMask(AndNot(requested, allowed), 0);
    }
  }

  // ------------------------------------------------------------------
  // Codecs
  // ------------------------------------------------------------------

  type Byte = n: nat | n < 256

  const MASK_BYTES := 32

  function Pow256(n: nat): (p: nat)
    ensures 0 < p
  {
    if n == 0 then 1 else 256 * Pow256(n - 1)
  }

  // int.to_bytes(width, "big"), without its overflow check
  function BigEndian(m: nat, width: nat): seq<Byte> {
    if width == 0 then [] else BigEndian(m / 256, width - 1) + [m % 256]
  }

  // int.from_bytes(data, "big")
  function FromBigEndian(data: seq<Byte>): nat {
    if data == [] then 0 else 256 * FromBigEndian(data[..|data| - 1]) + data[|data| - 1]
  }

  function MaskToBytes(mask: Option<nat>): Option<seq<Byte>> {
    var m := if mask.Some? then mask.value else 0;
    if m < Pow256(MASK_BYTES) then Some(BigEndian(m, MASK_BYTES)) else None
  }

  function BytesToMask(data: Option<seq<Byte>>): nat {
    if data.Some? && data.value != [] then FromBigEndian(data.value) else 0
  }

  const HEX: string := "0123456789abcdef"

  function HexDigit(c: char): Option<nat> {
    if '0' <= c <= '9' then Some(c as nat - '0' as nat)
    else if 'a' <= c <= 'f' then Some(c as nat - 'a' as nat + 10)
    else if 'A' <= c <= 'F' then Some(c as nat - 'A' as nat + 10)
    else None
  }

  // bytes.hex()
  function ToHex(data: seq<Byte>): string {
    if data == [] then "" else [HEX[data[0] / 16], HEX[data[0] % 16]] + ToHex(data[1..])
  }

  predicate IsSpace(c: char) {
    c == ' ' || 9 as char <= c <= 13 as char
  }

  // bytes.fromhex(): white space between bytes is skipped, anything else is an error
  function FromHex(s: string): Option<seq<Byte>> {
    if s == "" then Some([])
    else if IsSpace(s[0]) then FromHex(s[1..])
    else if |s| == 1 then None
    else
      match (HexDigit(s[0]), HexDigit(s[1]), FromHex(s[2..]))
      case (Some(hi), Some(lo), Some(rest)) => if hi < 16 && lo < 16 then Some([16 * hi + lo] + rest) else None
      case _ => None
  }

  function MaskToHex(mask: Option<nat>): Option<string> {
    match MaskToBytes(mask)
    case Some(data) => Some(ToHex(data))
    case None => None
  }

  function HexToMask(value: Option<string>): Option<nat> {
    if value.Some? && value.value != "" then
      match FromHex(value.value)
      case Some(data) => Some(FromBigEndian(data))
      case None => None
    else Some(0)
  }

  lemma {:induction false} BytesOfMask(m: nat, width: nat)
    requires m < Pow256(width)
    ensures |BigEndian(m, width)| == width && FromBigEndian(BigEndian(m, width)) == m
  {
    if width != 0 {
      BytesOfMask(m / 256, width - 1);
      var data := BigEndian(m, width);
      assert data[..|data| - 1] == BigEndian(m / 256, width - 1);
    }
  }

  lemma {:induction false} MaskOfBytes(data: seq<Byte>)
    ensures FromBigEndian(data) < Pow256(|data|) && BigEndian(FromBigEndian(data), |data|) == data
  {
    if data != [] {
      MaskOfBytes(data[..|data| - 1]);
    }
  }

  lemma {:induction false} HexRoundTrip(data: seq<Byte>)
    ensures FromHex(ToHex(data)) == Some(data)
  {
    if data != [] {
      HexRoundTrip(data[1..]);
      HexPair(data[0], ToHex(data[1..]), data[1..]);
      assert [data[0]] + data[1..] == data;
    }
  }

  lemma HexPair(b: Byte, tail: string, rest: seq<Byte>)
    requires FromHex(tail) == Some(rest)
    ensures FromHex([HEX[b / 16], HEX[b % 16]] + tail) == Some([b] + rest)
  {
    HexDigitRoundTrip(b / 16);
    HexDigitRoundTrip(b % 16);
    assert ([HEX[b / 16], HEX[b % 16]] + tail)[2..] == tail;
  }

  lemma HexDigitRoundTrip(d: nat)
    requires d < 16
    ensures HexDigit(HEX[d]) == Some(d) && !IsSpace(HEX[d])
  {
  }

  // Storing and loading a mask, either way round; only a mask of 2^256 or more is refused.
  lemma ByteCodecRoundTrip(mask: Option<nat>, data: seq<Byte>)
    ensures MaskToBytes(mask).Some? <==> (mask.Some? ==> mask.value < Pow256(MASK_BYTES))
    ensures MaskToBytes(mask).Some? ==>
              BytesToMask(MaskToBytes(mask)) == if mask.Some? then mask.value else 0
    ensures |data| == MASK_BYTES ==> MaskToBytes(Some(BytesToMask(Some(data)))) == Some(data)
  {
    if MaskToBytes(mask).Some? {
      BytesOfMask(if mask.Some? then mask.value else 0, MASK_BYTES);
    }
    MaskOfBytes(data);
  }

  // The claim a token carries decodes to the mask it was minted with.
  lemma HexCodecRoundTrip(mask: Option<nat>)
    requires MaskToBytes(mask).Some?
    ensures MaskToHex(mask).Some?
    ensures HexToMask(MaskToHex(mask)) == Some(if mask.Some? then mask.value else 0)
  {
    var m := if mask.Some? then mask.value else 0;
    BytesOfMask(m, MASK_BYTES);
    HexRoundTrip(BigEndian(m, MASK_BYTES));
  }
}
