/**
  The STMPE I/O expander's pin multiplexer. Each pin has a field of one or two
  bits; the fields are packed into bytes, the most significant register first.
*/
module Stmpe {

  /** The bits of a field, as a mask at the bottom of a byte. */
  function FieldMask(afBits: nat): bv8
    requires afBits in {1, 2}
  {
    if afBits == 1 then 1 else 3
  }

  /** Shifts written out, so that every shift is by a constant. */
  function Shl(b: bv8, n: nat): bv8
    requires n < 8
  {
    match n
    case 0 => b
    case 1 => b << 1
    case 2 => b << 2
    case 3 => b << 3
    case 4 => b << 4
    case 5 => b << 5
    case 6 => b << 6
    case _ => b << 7
  }

  function Shr(b: bv8, n: nat): bv8
    requires n < 8
  {
    match n
    case 0 => b
    case 1 => b >> 1
    case 2 => b >> 2
    case 3 => b >> 3
    case 4 => b >> 4
    case 5 => b >> 5
    case 6 => b >> 6
    case _ => b >> 7
  }

  function NumRegs(numGpios: nat, afBits: nat): nat { (numGpios * afBits + 7) / 8 }

  /** How many fields the registers hold; the last ones may belong to no pin. */
  function Slots(numRegs: nat, afBits: nat): nat
    requires afBits in {1, 2}
  {
    numRegs * (8 / afBits)
  }

  /** The register of a pin's field, and the field's place in it. */
  function RegOf(numRegs: nat, afBits: nat, pin: nat): int
    requires afBits in {1, 2}
  {
    numRegs - pin / (8 / afBits) - 1
  }

  function PosOf(afBits: nat, pin: nat): nat
    requires afBits in {1, 2}
  {
    pin % (8 / afBits) * afBits
  }

  /** The function a pin is set to. */
  function Field(regs: seq<bv8>, numRegs: nat, afBits: nat, pin: nat): bv8
    requires afBits in {1, 2} && 0 <= RegOf(numRegs, afBits, pin) < |regs|
  {
    Shr(regs[RegOf(numRegs, afBits, pin)], PosOf(afBits, pin)) & FieldMask(afBits)
  }

  /** The byte update of the loop: clear the field, then set it. */
  function SetField(b: bv8, afBits: nat, pos: nat, af: bv8): bv8
    requires afBits in {1, 2} && pos < 8
  {
    (b & !Shl(FieldMask(afBits), pos)) | Shl(af, pos)
  }

  lemma SetFieldGets1(b: bv8, pos: nat, other: nat, af: bv8)
    requires pos < 8 && other < 8 && af <= 1
    ensures Shr(SetField(b, 1, pos, af), other) & 1 == if other == pos then af else Shr(b, other) & 1
  {
  }

  lemma SetFieldGets2(b: bv8, pos: nat, af: bv8)
    requires pos in {0, 2, 4, 6} && af <= 3
    ensures Shr(SetField(b, 2, pos, af), pos) & 3 == af
  {
  }

  lemma SetFieldKeeps2(b: bv8, pos: nat, other: nat, af: bv8)
    requires pos in {0, 2, 4, 6} && other in {0, 2, 4, 6} && other != pos && af <= 3
    ensures Shr(SetField(b, 2, pos, af), other) & 3 == Shr(b, other) & 3
  {
  }

  /** Setting a field of a byte gives that field the value and leaves the byte's other fields. */
  lemma SetFieldGets(b: bv8, afBits: nat, pin: nat, other: nat, af: bv8)
    requires afBits in {1, 2} && af <= FieldMask(afBits)
    ensures Shr(SetField(b, afBits, PosOf(afBits, pin), af), PosOf(afBits, other)) & FieldMask(afBits) ==
            if PosOf(afBits, other) == PosOf(afBits, pin) then af
            else Shr(b, PosOf(afBits, other)) & FieldMask(afBits)
  {
    hide Shl, Shr, SetField;
    if afBits == 1 {
      SetFieldGets1(b, PosOf(1, pin), PosOf(1, other), af);
    } else {
      if PosOf(2, other) == PosOf(2, pin) {
        SetFieldGets2(b, PosOf(2, pin), af);
      } else {
        SetFieldKeeps2(b, PosOf(2, pin), PosOf(2, other), af);
      }
    }
  }

  /** Different pins have different fields. */
  lemma FieldsDiffer(numRegs: nat, afBits: nat, p: nat, q: nat)
    requires afBits in {1, 2} && RegOf(numRegs, afBits, p) == RegOf(numRegs, afBits, q)
    requires PosOf(afBits, p) == PosOf(afBits, q)
    ensures p == q
  {
  }

  lemma RegInRange(numRegs: nat, afBits: nat, pin: nat)
    requires afBits in {1, 2} && pin < Slots(numRegs, afBits)
    ensures 0 <= RegOf(numRegs, afBits, pin) < numRegs
  {
  }

  lemma PinsHaveSlots(numGpios: nat, afBits: nat)
    requires afBits in {1, 2}
    ensures numGpios <= Slots(NumRegs(numGpios, afBits), afBits)
  {
  }

  /** One pass of the loop: the pin's field is set, every other field is not touched. */
  lemma OnePin(regs: seq<bv8>, n: nat, afBits: nat, pin: nat, af: bv8, other: nat)
    requires afBits in {1, 2} && pin < Slots(n, afBits) && other < Slots(n, afBits) && af <= FieldMask(afBits)
    requires |regs| >= n && 0 <= RegOf(n, afBits, pin) < n && 0 <= RegOf(n, afBits, other) < n
    ensures var r := RegOf(n, afBits, pin);
            var after := regs[r := SetField(regs[r], afBits, PosOf(afBits, pin), af)];
            Field(after, n, afBits, other) == if other == pin then af else Field(regs, n, afBits, other)
  {
    var r := RegOf(n, afBits, pin);
    SetFieldGets(regs[r], afBits, pin, other, af);
    hide Shl, Shr, SetField, FieldMask, RegOf, PosOf, Slots;
    if RegOf(n, afBits, other) == r && PosOf(afBits, other) == PosOf(afBits, pin) {
      FieldsDiffer(n, afBits, pin, other);
    }
  }

  // ---------- the registers as one number ----------

  function Pow2(n: nat): (r: nat)
    ensures r > 0
  {
    if n == 0 then 1 else 2 * Pow2(n - 1)
  }

  /** The registers as one number, the first the most significant byte. */
  function Number(regs: seq<bv8>): nat {
    if regs == [] then 0 else 256 * Number(regs[..|regs| - 1]) + regs[|regs| - 1] as nat
  }

  /** The p-th group of afBits bits of a number, from the least significant. */
  function Digit(number: nat, afBits: nat, p: nat): nat {
    number / Pow2(afBits * p) % Pow2(afBits)
  }

  /**
    The groups of the pins in `pins` have become af, and every other group of bits
    is as it was; both sequences are read as numbers, most significant byte first.
  */
  ghost predicate SetOnly(before: seq<bv8>, after: seq<bv8>, afBits: nat, pins: set<nat>, af: bv8) {
    |after| == |before| &&
    forall p: nat :: p * afBits < 8 * |before| ==>
      Digit(Number(after), afBits, p) == if p in pins then af as nat else Digit(Number(before), afBits, p)
  }

  lemma {:induction false} PowAdd(a: nat, b: nat)
    ensures Pow2(a + b) == Pow2(a) * Pow2(b)
  {
    if a > 0 {
      PowAdd(a - 1, b);
      Associate(2, Pow2(a - 1), Pow2(b));
    }
  }

  lemma Distribute(a: int, b: int, c: int)
    ensures a * (b + c) == a * b + a * c
  {
  }

  lemma Associate(a: int, b: int, c: int)
    ensures a * (b * c) == (a * b) * c
  {
  }

  lemma Cancel(c: int, x: int, y: int)
    requires c > 0
    ensures c * x < c * y <==> x < y
  {
  }

  lemma Unique(x: nat, d: nat, q: nat, r: nat)
    requires x == d * q + r && r < d
    ensures x / d == q && x % d == r
  {
    var p := x / d;
    assert x == d * p + x % d;
    Distribute(d, p, 1);
    Distribute(d, q, 1);
    Cancel(d, p, q + 1);
    Cancel(d, q, p + 1);
  }

  lemma DivDiv(x: nat, a: nat, b: nat)
    requires a > 0 && b > 0
    ensures a * b > 0 && x / (a * b) == x / a / b
  {
    var y, r := x / a, x % a;
    var q, t := y / b, y % b;
    assert y == b * q + t && x == a * y + r;
    Distribute(a, b * q, t);
    Associate(a, b, q);
    Distribute(a, t, 1);
    Cancel(a, 0, b);
    Cancel(a, b, t + 1);
    Cancel(a, -1, t);
    Distribute(a, t + 1, -1);
    UniqueProduct(x, a * b, q, a * t + r, a * y, a * t);
  }

  lemma UniqueProduct(x: nat, d: nat, q: nat, rest: int, ay: int, at: int)
    requires x == ay + (rest - at) && ay == d * q + at && 0 <= rest < d
    ensures x / d == q
  {
    Unique(x, d, q, rest);
  }

  /** Dividing by 256 drops the last register. */
  lemma {:induction false} DropRegs(regs: seq<bv8>, j: nat)
    requires j <= |regs|
    ensures Number(regs) / Pow2(8 * j) == Number(regs[..|regs| - j])
  {
    var n := |regs|;
    if j == 0 {
      assert regs[..n] == regs;
    } else {
      DropRegs(regs, j - 1);
      var pre := regs[..n - (j - 1)];
      assert pre[..|pre| - 1] == regs[..n - j];
      PowAdd(8 * (j - 1), 8);
      assert Pow2(8) == 256;
      DivDiv(Number(regs), Pow2(8 * (j - 1)), 256);
    }
  }

  /** Bit i of a byte. */
  function Bit(b: bv8, i: nat): (r: nat)
    requires i < 8
    ensures r <= 1
  {
    (Shr(b, i) & 1) as nat
  }

  lemma SumOfBits(b: bv8)
    ensures b as nat == Bit(b, 0) + 2 * Bit(b, 1) + 4 * Bit(b, 2) + 8 * Bit(b, 3) + 16 * Bit(b, 4) + 32 * Bit(b, 5)
                        + 64 * Bit(b, 6) + 128 * Bit(b, 7)
  {
  }

  lemma BitOf(v: nat, low: nat, bit: nat, high: nat, d: nat)
    requires v == low + d * (bit + 2 * high) && low < d && bit <= 1
    ensures v / d % 2 == bit
  {
    Unique(v, d, bit + 2 * high, low);
  }

  lemma BitDigit(b: bv8, pos: nat)
    requires pos < 8
    ensures Bit(b, pos) == b as nat / Pow2(pos) % 2
  {
    SumOfBits(b);
    PowValues();
    hide Bit, Pow2;
    var v := b as nat;
    var x0, x1, x2, x3 := Bit(b, 0), Bit(b, 1), Bit(b, 2), Bit(b, 3);
    var x4, x5, x6, x7 := Bit(b, 4), Bit(b, 5), Bit(b, 6), Bit(b, 7);
    match pos
    case 0 => BitOf(v, 0, x0, x1 + 2 * x2 + 4 * x3 + 8 * x4 + 16 * x5 + 32 * x6 + 64 * x7, 1);
    case 1 => BitOf(v, x0, x1, x2 + 2 * x3 + 4 * x4 + 8 * x5 + 16 * x6 + 32 * x7, 2);
    case 2 => BitOf(v, x0 + 2 * x1, x2, x3 + 2 * x4 + 4 * x5 + 8 * x6 + 16 * x7, 4);
    case 3 => BitOf(v, x0 + 2 * x1 + 4 * x2, x3, x4 + 2 * x5 + 4 * x6 + 8 * x7, 8);
    case 4 => BitOf(v, x0 + 2 * x1 + 4 * x2 + 8 * x3, x4, x5 + 2 * x6 + 4 * x7, 16);
    case 5 => BitOf(v, x0 + 2 * x1 + 4 * x2 + 8 * x3 + 16 * x4, x5, x6 + 2 * x7, 32);
    case 6 => BitOf(v, x0 + 2 * x1 + 4 * x2 + 8 * x3 + 16 * x4 + 32 * x5, x6, x7, 64);
    case _ => BitOf(v, x0 + 2 * x1 + 4 * x2 + 8 * x3 + 16 * x4 + 32 * x5 + 64 * x6, x7, 0, 128);
  }

  lemma TwoBits(b: bv8, pos: nat)
    requires pos in {0, 2, 4, 6}
    ensures (Shr(b, pos) & 3) as nat == Bit(b, pos) + 2 * Bit(b, pos + 1)
  {
  }

  /** Two adjacent bits of a number. */
  lemma FourOf(v: nat, d: nat)
    requires d > 0
    ensures v / d % 4 == v / d % 2 + 2 * (v / (d * 2) % 2)
  {
    DivDiv(v, d, 2);
  }

  /** The field of afBits bits at pos, as the loop masks it. */
  lemma ByteField(b: bv8, afBits: nat, pos: nat)
    requires (afBits == 1 && pos < 8) || (afBits == 2 && pos in {0, 2, 4, 6})
    ensures (Shr(b, pos) & FieldMask(afBits)) as nat == b as nat / Pow2(pos) % Pow2(afBits)
  {
    PowValues();
    BitDigit(b, pos);
    if afBits == 2 {
      TwoBits(b, pos);
      hide Shr;
      BitDigit(b, pos + 1);
      FourOf(b as nat, Pow2(pos));
    }
  }

  lemma PowValues()
    ensures Pow2(0) == 1 && Pow2(1) == 2 && Pow2(2) == 4 && Pow2(3) == 8 && Pow2(4) == 16 && Pow2(5) == 32
    ensures Pow2(6) == 64 && Pow2(7) == 128 && Pow2(8) == 256
  {
  }

  /** Bits inside the last byte do not depend on the bytes before it. */
  lemma LastByte(high: nat, b: nat, pos: nat, afBits: nat)
    requires afBits in {1, 2} && pos + afBits <= 8 && b < 256
    ensures (256 * high + b) / Pow2(pos) % Pow2(afBits) == b / Pow2(pos) % Pow2(afBits)
  {
    var d, m, c := Pow2(pos), Pow2(afBits), Pow2(8 - pos - afBits);
    PowAdd(pos, 8 - pos);
    PowAdd(afBits, 8 - pos - afBits);
    PowValues();
    hide Pow2;
    LowBits(high, b, d, m, c);
  }

  lemma LowBits(high: nat, b: nat, d: nat, m: nat, c: nat)
    requires d > 0 && m > 0 && d * (m * c) == 256
    ensures (256 * high + b) / d % m == b / d % m
  {
    var k := (m * c) * high;
    Associate(d, m * c, high);
    Distribute(d, k, b / d);
    Unique(256 * high + b, d, k + b / d, b % d);
    Associate(m, c, high);
    SameMod(c * high, b / d, m);
  }

  lemma SameMod(k: nat, x: nat, m: nat)
    requires m > 0
    ensures (m * k + x) % m == x % m
  {
    Distribute(m, k, x / m);
    Unique(m * k + x, m, k + x / m, x % m);
  }

  lemma NumberSnoc(regs: seq<bv8>)
    requires regs != []
    ensures Number(regs) == 256 * Number(regs[..|regs| - 1]) + regs[|regs| - 1] as nat
  {
  }

  /** A group of bits of the number lies in one register. */
  lemma DigitAt(regs: seq<bv8>, j: nat, pos: nat, afBits: nat)
    requires j < |regs| && afBits in {1, 2} && pos + afBits <= 8
    ensures Number(regs) / Pow2(8 * j + pos) % Pow2(afBits) ==
            regs[|regs| - j - 1] as nat / Pow2(pos) % Pow2(afBits)
  {
    hide Number, Pow2;
    PowAdd(8 * j, pos);
    DivDiv(Number(regs), Pow2(8 * j), Pow2(pos));
    DropRegs(regs, j);
    var pre := regs[..|regs| - j];
    assert pre[|pre| - 1] == regs[|regs| - j - 1];
    NumberSnoc(pre);
    LastByte(Number(pre[..|pre| - 1]), pre[|pre| - 1] as nat, pos, afBits);
  }

  lemma Place(n: nat, afBits: nat, p: nat)
    requires afBits in {1, 2} && p < Slots(n, afBits)
    ensures var j, pos := p / (8 / afBits), PosOf(afBits, p);
            afBits * p == 8 * j + pos && j < n && RegOf(n, afBits, p) == n - j - 1 && pos + afBits <= 8
    ensures afBits == 2 ==> PosOf(afBits, p) in {0, 2, 4, 6}
  {
  }

  /** A pin's field is its group of bits of the number. */
  lemma FieldIsDigit(regs: seq<bv8>, afBits: nat, p: nat)
    requires afBits in {1, 2} && p < Slots(|regs|, afBits)
    ensures 0 <= RegOf(|regs|, afBits, p) < |regs|
    ensures Field(regs, |regs|, afBits, p) as nat == Digit(Number(regs), afBits, p)
  {
    hide Shr, FieldMask, Number, Pow2, RegOf, PosOf, Slots;
    Place(|regs|, afBits, p);
    DigitAt(regs, p / (8 / afBits), PosOf(afBits, p), afBits);
    ByteField(regs[RegOf(|regs|, afBits, p)], afBits, PosOf(afBits, p));
  }

  /** The same for the first n registers of a longer buffer. */
  lemma FieldsAreDigits(regs: seq<bv8>, n: nat, afBits: nat)
    requires afBits in {1, 2} && n <= |regs|
    ensures forall p :: 0 <= p < Slots(n, afBits) ==>
              0 <= RegOf(n, afBits, p) < n &&
              Field(regs, n, afBits, p) as nat == Digit(Number(regs[..n]), afBits, p)
  {
    forall p | 0 <= p < Slots(n, afBits)
      ensures 0 <= RegOf(n, afBits, p) < n
      ensures Field(regs, n, afBits, p) as nat == Digit(Number(regs[..n]), afBits, p)
    {
      FieldIsDigit(regs[..n], afBits, p);
      assert regs[..n][RegOf(n, afBits, p)] == regs[RegOf(n, afBits, p)];
    }
  }

  /**
    The results of enabling the block, of the block read and of the block write,
    and the registers that took their new value if the write failed on the way.
  */
  datatype Bus = Bus(enable: int, read: int, write: int, stored: set<nat>)

  /** The lowest pin of a mask (find first set). */
  method FirstSet(pins: set<nat>) returns (pin: nat)
    requires pins != {} && forall p :: p in pins ==> p < 32
    ensures pin in pins && forall p :: p in pins ==> pin <= p
  {
    pin := 0;
    while pin !in pins
      invariant pin <= 32 && forall p :: p in pins ==> pin <= p
      decreases 32 - pin
    {
      ghost var some :| some in pins;
      pin := pin + 1;
    }
  }

  /**
    The loop over the mask: after it exactly the requested pins have the
    function `af`, and every other field, of a pin or of none, keeps its value.
  */
  method SetFunctions(regs: array<bv8>, pins: set<nat>, numGpios: nat, afBits: nat, af: bv8)
    requires afBits in {1, 2} && af <= FieldMask(afBits)
    requires regs.Length == 8 && NumRegs(numGpios, afBits) <= 8 && numGpios <= 32
    requires forall p :: p in pins ==> p < numGpios
    modifies regs
    ensures forall p :: 0 <= p < Slots(NumRegs(numGpios, afBits), afBits) ==>
              0 <= RegOf(NumRegs(numGpios, afBits), afBits, p) < 8 &&
              Field(regs[..], NumRegs(numGpios, afBits), afBits, p) ==
              if p in pins then af else Field(old(regs[..]), NumRegs(numGpios, afBits), afBits, p)
    ensures forall i :: NumRegs(numGpios, afBits) <= i < 8 ==> regs[i] == old(regs[i])
    ensures var n := (numGpios * afBits + 7) / 8;
            SetOnly(old(regs[..n]), regs[..n], afBits, pins, af)
  {
    var numRegs := NumRegs(numGpios, afBits);
    ghost var was := regs[..];
    var left := pins;
    PinsHaveSlots(numGpios, afBits);
    forall p | 0 <= p < Slots(numRegs, afBits)
      ensures 0 <= RegOf(numRegs, afBits, p) < numRegs
    {
      RegInRange(numRegs, afBits, p);
    }
    hide Slots, NumRegs, RegOf, PosOf, SetField, Shl, Shr, FieldMask, Field;
    while left != {}
      invariant left <= pins
      invariant forall p :: 0 <= p < Slots(numRegs, afBits) ==>
                  Field(regs[..], numRegs, afBits, p) ==
                  if p in pins - left then af else Field(was, numRegs, afBits, p)
      invariant forall i :: numRegs <= i < 8 ==> regs[i] == was[i]
      decreases left
    {
      var pin := FirstSet(left);
      var regoffset := RegOf(numRegs, afBits, pin);
      var pos := PosOf(afBits, pin);
      ghost var before := regs[..];
      PosInByte(afBits, pin);
      regs[regoffset] := SetField(regs[regoffset], afBits, pos, af);
      assert regs[..] == before[regoffset := SetField(before[regoffset], afBits, pos, af)];
      forall p | 0 <= p < Slots(numRegs, afBits)
        ensures Field(regs[..], numRegs, afBits, p) == if p == pin then af else Field(before, numRegs, afBits, p)
      {
        OnePin(before, numRegs, afBits, pin, af, p);
      }
      left := left - {pin};
    }
    FieldsAreDigits(regs[..], numRegs, afBits);
    FieldsAreDigits(was, numRegs, afBits);
    SlotsBits(numRegs, afBits);
    assert regs[..][..numRegs] == regs[..numRegs] && was[..numRegs] == old(regs[..numRegs]);
  }

  lemma SlotsBits(numRegs: nat, afBits: nat)
    requires afBits in {1, 2}
    ensures forall p: nat :: p * afBits < 8 * numRegs <==> p < Slots(numRegs, afBits)
  {
  }

  /**
    Sets pins to a block's function. An error before the write leaves the device's
    registers; a failed write leaves every field of a register it did not reach,
    and the other fields are as after a whole one.
  */
  method SetAltFunction(device: array<bv8>, pins: set<nat>, numGpios: nat, afBits: nat, af: bv8, bus: Bus)
    returns (ret: int)
    requires afBits in {1, 2} && af <= FieldMask(afBits)
    requires NumRegs(numGpios, afBits) <= 8 && numGpios <= 32
    requires forall p :: p in pins ==> p < numGpios
    requires device.Length == (numGpios * afBits + 7) / 8
    modifies device
    ensures ret == if bus.enable < 0 then bus.enable else if bus.read < 0 then bus.read else bus.write
    ensures bus.enable < 0 || bus.read < 0 ==> device[..] == old(device[..])
    ensures bus.enable >= 0 && bus.read >= 0 ==>
              exists after ::
                && SetOnly(old(device[..]), after, afBits, pins, af)
                && forall i :: 0 <= i < device.Length ==>
                     device[i] == if ret >= 0 || i in bus.stored then after[i] else old(device[i])
    ensures bus.enable >= 0 && bus.read >= 0 ==>
              forall p :: 0 <= p < Slots(device.Length, afBits) ==>
                0 <= RegOf(device.Length, afBits, p) < device.Length &&
                Field(device[..], device.Length, afBits, p) ==
                if p in pins && (ret >= 0 || RegOf(device.Length, afBits, p) in bus.stored) then af
                else Field(old(device[..]), device.Length, afBits, p)
  {
    ret := bus.enable;
    if ret < 0 {
      return;
    }
    ret := bus.read;
    if ret < 0 {
      return;
    }
    var n := device.Length;
    var regs := new bv8[8](_ => 0);
    forall i | 0 <= i < n {
      regs[i] := device[i];
    }
    ghost var read := regs[..];
    forall p | 0 <= p < Slots(n, afBits)
      ensures 0 <= RegOf(n, afBits, p) < n
    {
      RegInRange(n, afBits, p);
    }
    SetFunctions(regs, pins, numGpios, afBits, af);
    hide Slots, NumRegs, RegOf, PosOf, Shr, FieldMask, SetOnly;
    ret := bus.write;
    assert read[..n] == old(device[..]) && SetOnly(old(device[..]), regs[..n], afBits, pins, af);
    forall i | 0 <= i < n && (ret >= 0 || i in bus.stored) {
      device[i] := regs[i];
    }
    forall p | 0 <= p < Slots(n, afBits)
      ensures var r := RegOf(n, afBits, p);
              Field(device[..], n, afBits, p) ==
              Field(if ret >= 0 || r in bus.stored then regs[..] else old(device[..]), n, afBits, p)
      ensures Field(old(device[..]), n, afBits, p) == Field(read, n, afBits, p)
    {
    }
  }

  lemma PosInByte(afBits: nat, pin: nat)
    requires afBits in {1, 2}
    ensures PosOf(afBits, pin) < 8
  {
  }
}
