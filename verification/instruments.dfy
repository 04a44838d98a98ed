/** The packed option id (shared/src/instruments.ts): expiry, strike and call flag in 96 bits. */
module Instruments {

  const UINT32_MAX := 0xffff_ffff
  const UINT63_MAX := 0x7fff_ffff_ffff_ffff
  const UINT96_MAX := 0xffff_ffff_ffff_ffff_ffff_ffff
  const STRIKE_GRANULARITY := 10_000_000_000

  // ------------------------------------------------------------------ bit operators of bigint

  function Magnitude(a: int): nat { if a < 0 then -a - 1 else a }

  /** a | b in two's complement of unbounded width. */
  function BitOr(a: int, b: int): int
    decreases Magnitude(a) + Magnitude(b)
  {
    if a == -1 || b == -1 then -1
    else if a == 0 then b
    else if b == 0 then a
    else 2 * BitOr(a / 2, b / 2) + (if a % 2 == 1 || b % 2 == 1 then 1 else 0)
  }

  /** a & b for a non-negative mask. */
  function BitAnd(a: int, b: nat): (r: nat)
    decreases b
  {
    if b == 0 then 0
    else 2 * BitAnd(a / 2, b / 2) + (if a % 2 == 1 && b % 2 == 1 then 1 else 0)
  }

  function Pow2(k: nat): (p: nat)
    ensures p > 0
  {
    if k == 0 then 1 else 2 * Pow2(k - 1)
  }

  function ShiftLeft(a: int, k: nat): int { a * Pow2(k) }

  function ShiftRight(a: int, k: nat): int { a / Pow2(k) }

  lemma {:induction false} OrDisjoint(a: nat, b: nat, k: nat)
    requires a < Pow2(k)
    ensures BitOr(a, ShiftLeft(b, k)) == a + b * Pow2(k)
    decreases k
  {
    if a != 0 && b != 0 {
      var half := b * Pow2(k - 1);
      assert b * Pow2(k) == 2 * half;
      assert half > 0 by { Positive(b, Pow2(k - 1)); }
      OrDisjoint(a / 2, b, k - 1);
    } else if b == 0 {
    } else {
      assert BitOr(0, ShiftLeft(b, k)) == ShiftLeft(b, k);
    }
  }

  lemma Positive(b: nat, p: nat)
    requires b > 0 && p > 0
    ensures b * p > 0
  {
  }

  lemma {:induction false} OrNegative(a: int, b: int)
    requires a < 0 || b < 0
    ensures BitOr(a, b) < 0
    decreases Magnitude(a) + Magnitude(b)
  {
    if a != -1 && b != -1 && a != 0 && b != 0 { OrNegative(a / 2, b / 2); }
  }

  lemma {:induction false} MaskIsMod(a: int, k: nat)
    ensures BitAnd(a, Pow2(k) - 1) == a % Pow2(k)
    decreases k
  {
    if k > 0 {
      var p := Pow2(k - 1);
      assert Pow2(k) - 1 == 2 * (p - 1) + 1;
      MaskIsMod(a / 2, k - 1);
      ModStep(a, p);
    }
  }

  lemma ModStep(a: int, p: nat)
    requires p > 0
    ensures a % (2 * p) == 2 * ((a / 2) % p) + a % 2
  {
    var q, m := (a / 2) / p, (a / 2) % p;
    assert a == 2 * (q * p + m) + a % 2;
    assert q * (2 * p) == 2 * (q * p);
    ModUnique(a, q, 2 * m + a % 2, 2 * p);
  }

  lemma AtLeast(x: int, d: nat)
    requires x >= 1
    ensures x * d >= d
  {
    assert x * d == (x - 1) * d + d;
    assert (x - 1) * d >= 0;
  }

  lemma ModUnique(a: int, q: int, r: int, d: nat)
    requires a == q * d + r && 0 <= r < d
    ensures a / d == q && a % d == r
  {
    var q', r' := a / d, a % d;
    Euclid(a, d);
    assert (q - q') * d == q * d - q' * d;
    assert (q' - q) * d == q' * d - q * d;
    if q > q' { AtLeast(q - q', d); }
    if q < q' { AtLeast(q' - q, d); }
  }

  lemma Euclid(a: int, d: nat)
    requires d > 0
    ensures a == (a / d) * d + a % d && 0 <= a % d < d
  {
  }

  // ------------------------------------------------------------------ encoding

  datatype OptionDetails = OptionDetails(expiry: int, strike: int, isCall: bool)

  datatype Result<+T> = Ok(value: T) | Err(error: string)

  /** The remainder of bigint's truncating division is zero exactly for multiples, whatever the sign. */
  function EncodeOptionSubId(o: OptionDetails): Result<int> {
    if o.expiry > UINT32_MAX then Err("OE_ExpiryTooLarge")
    else if o.expiry == 0 then Err("OE_ZeroExpiry")
    else if o.strike % STRIKE_GRANULARITY != 0 then Err("OE_StrikeTooGranular")
    else
      var strike8 := o.strike / STRIKE_GRANULARITY;
      if strike8 > UINT63_MAX then Err("OE_StrikeTooLarge")
      else Ok(BitOr(BitOr(o.expiry, ShiftLeft(strike8, 32)), ShiftLeft(if o.isCall then 1 else 0, 95)))
  }

  function DecodeOptionSubId(subId: int): Result<OptionDetails> {
    if subId < 0 || subId > UINT96_MAX then Err("subId out of uint96")
    else Ok(OptionDetails(
      BitAnd(subId, UINT32_MAX),
      BitAnd(ShiftRight(subId, 32), UINT63_MAX) * STRIKE_GRANULARITY,
      ShiftRight(subId, 95) > 0))
  }

  lemma Widths()
    ensures Pow2(32) == UINT32_MAX + 1 && Pow2(63) == UINT63_MAX + 1 && Pow2(95) == Pow2(32) * Pow2(63)
    ensures 2 * Pow2(95) == UINT96_MAX + 1
  {
    assert Pow2(8) == 256;
    assert Pow2(16) == 65536;
    assert Pow2(24) == 0x100_0000;
    assert Pow2(32) == 0x1_0000_0000;
    assert Pow2(40) == 0x100_0000_0000;
    assert Pow2(48) == 0x1_0000_0000_0000;
    assert Pow2(56) == 0x100_0000_0000_0000;
    assert Pow2(63) == 0x8000_0000_0000_0000;
    assert Pow2(64) == 0x1_0000_0000_0000_0000;
    assert Pow2(72) == 0x100_0000_0000_0000_0000;
    assert Pow2(80) == 0x1_0000_0000_0000_0000_0000;
    assert Pow2(88) == 0x100_0000_0000_0000_0000_0000;
    assert Pow2(95) == 0x8000_0000_0000_0000_0000_0000;
  }

  /** The three fields do not overlap: the id is their weighted sum. */
  lemma Packed(expiry: nat, strike8: nat, call: nat)
    requires expiry <= UINT32_MAX && strike8 <= UINT63_MAX && call <= 1
    ensures BitOr(BitOr(expiry, ShiftLeft(strike8, 32)), ShiftLeft(call, 95))
         == expiry + strike8 * (UINT32_MAX + 1) + call * 0x8000_0000_0000_0000_0000_0000
  {
    Widths();
    OrDisjoint(expiry, strike8, 32);
    var low := expiry + strike8 * Pow2(32);
    assert low < Pow2(95);
    OrDisjoint(low, call, 95);
  }

  lemma Unpacked(expiry: nat, strike8: nat, call: nat)
    requires expiry <= UINT32_MAX && strike8 <= UINT63_MAX && call <= 1
    ensures DecodeOptionSubId(expiry + strike8 * (UINT32_MAX + 1) + call * 0x8000_0000_0000_0000_0000_0000)
         == Ok(OptionDetails(expiry, strike8 * STRIKE_GRANULARITY, call == 1))
  {
    hide BitAnd, Pow2;
    var id := expiry + strike8 * (UINT32_MAX + 1) + call * 0x8000_0000_0000_0000_0000_0000;
    Widths();
    var high := strike8 + call * Pow2(63);
    assert id == high * Pow2(32) + expiry;
    ModUnique(id, high, expiry, Pow2(32));
    MaskIsMod(id, 32);
    ModUnique(high, call, strike8, Pow2(63));
    MaskIsMod(high, 63);
    ModUnique(id, call, expiry + strike8 * Pow2(32), Pow2(95));
  }

  lemma NegativeIsRejected(expiry: int, strike8: int, call: nat)
    requires expiry < 0 || strike8 < 0
    ensures DecodeOptionSubId(BitOr(BitOr(expiry, ShiftLeft(strike8, 32)), ShiftLeft(call, 95))).Err?
  {
    if strike8 < 0 { Negative(strike8, Pow2(32)); }
    hide BitAnd, Pow2;
    OrNegative(expiry, ShiftLeft(strike8, 32));
    OrNegative(BitOr(expiry, ShiftLeft(strike8, 32)), ShiftLeft(call, 95));
  }

  lemma Negative(a: int, p: nat)
    requires a < 0 && p > 0
    ensures a * p < 0
  {
    AtLeast(-a, p);
    assert a * p == -((-a) * p);
  }

  /** Decoding undoes encoding exactly for the accepted options with positive expiry and non-negative
      strike. The encoder also lets negative values through; their ids are rejected by the decoder. */
  lemma DecodeOfEncode(o: OptionDetails)
    requires EncodeOptionSubId(o).Ok?
    ensures o.expiry > 0 && o.strike >= 0 <==> DecodeOptionSubId(EncodeOptionSubId(o).value) == Ok(o)
    ensures !(o.expiry > 0 && o.strike >= 0) ==> DecodeOptionSubId(EncodeOptionSubId(o).value).Err?
  {
    hide BitOr, BitAnd, Pow2, ShiftLeft, ShiftRight, DecodeOptionSubId;
    var strike8 := o.strike / STRIKE_GRANULARITY;
    var call := if o.isCall then 1 else 0;
    if o.expiry > 0 && o.strike >= 0 {
      Packed(o.expiry, strike8, call);
      Unpacked(o.expiry, strike8, call);
    } else {
      NegativeIsRejected(o.expiry, strike8, call);
    }
  }

  /** A 96-bit number is made of its three fields. */
  lemma Fields(id: int) returns (expiry: nat, strike8: nat, call: nat)
    requires 0 <= id <= UINT96_MAX
    ensures expiry <= UINT32_MAX && strike8 <= UINT63_MAX && call <= 1
    ensures id == expiry + strike8 * (UINT32_MAX + 1) + call * 0x8000_0000_0000_0000_0000_0000
  {
    var high := id / (UINT32_MAX + 1);
    expiry, strike8, call := id % (UINT32_MAX + 1), high % (UINT63_MAX + 1), high / (UINT63_MAX + 1);
  }

  /** Every 96-bit id with a non-zero expiry is the encoding of what it decodes to. */
  lemma EncodeOfDecode(id: int)
    requires DecodeOptionSubId(id).Ok?
    ensures var o := DecodeOptionSubId(id).value;
            if o.expiry == 0 then EncodeOptionSubId(o) == Err("OE_ZeroExpiry") else EncodeOptionSubId(o) == Ok(id)
  {
    hide BitOr, BitAnd, Pow2, ShiftLeft, ShiftRight;
    var expiry, strike8, call := Fields(id);
    Unpacked(expiry, strike8, call);
    hide DecodeOptionSubId;
    Packed(expiry, strike8, call);
    assert strike8 * STRIKE_GRANULARITY / STRIKE_GRANULARITY == strike8;
    assert strike8 * STRIKE_GRANULARITY % STRIKE_GRANULARITY == 0;
  }

  /** Two accepted options with positive expiry and non-negative strike never share an id. */
  lemma EncodingIsInjective(o: OptionDetails, p: OptionDetails)
    requires EncodeOptionSubId(o).Ok? && EncodeOptionSubId(o) == EncodeOptionSubId(p)
    requires o.expiry > 0 && o.strike >= 0 && p.expiry > 0 && p.strike >= 0
    ensures o == p
  {
    DecodeOfEncode(o);
    DecodeOfEncode(p);
  }
}
