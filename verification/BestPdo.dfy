/**
  The S2MM005 Type-C controller's choice among a USB PD source's capabilities:
  which of the fixed supplies it can sink gives most power, ties going to voltage.

  A power data object (PDO) is a 32-bit word (USB Power Delivery specification,
  section 6.4.1): type in bits 31:30, and for a fixed supply the voltage in bits
  19:10 (50 mV) and the maximum current in bits 9:0 (10 mA).
*/
module BestPdo {

  type Pdo = w: nat | w < 0x1_0000_0000

  predicate Fixed(p: Pdo) { p / 0x4000_0000 == 0 }

  function Mv(p: Pdo): nat { p / 0x400 % 0x400 * 50 }

  function Ma(p: Pdo): nat { p % 0x400 * 10 }

  function Mw(p: Pdo): nat { Mv(p) * Ma(p) / 1000 }

  /**
    What a word built from its fields means: type in the top two bits, ten further
    ones of flags, voltage v times 50 mV, current a times 10 mA.
  */
  lemma PdoFields(kind: nat, flags: nat, v: nat, a: nat)
    requires kind < 4 && flags < 1024 && v < 1024 && a < 1024
    ensures var p := 0x4000_0000 * kind + 0x10_0000 * flags + 0x400 * v + a;
            && p < 0x1_0000_0000
            && (Fixed(p) <==> kind == 0) && Mv(p) == 50 * v && Ma(p) == 10 * a && Mw(p) == v * a / 2
  {
    var p := 0x4000_0000 * kind + 0x10_0000 * flags + 0x400 * v + a;
    PdoParts(kind, flags, v, a);
    assert Mv(p) == 50 * v && Ma(p) == 10 * a && (Fixed(p) <==> kind == 0);
    hide Mv, Ma, Fixed;
    HalfProduct(v, a);
  }

  lemma PdoParts(kind: nat, flags: nat, v: nat, a: nat)
    requires kind < 4 && flags < 1024 && v < 1024 && a < 1024
    ensures var p := 0x4000_0000 * kind + 0x10_0000 * flags + 0x400 * v + a;
            p < 0x1_0000_0000 && p / 0x4000_0000 == kind && p / 0x400 % 0x400 == v && p % 0x400 == a
  {
    var p := 0x4000_0000 * kind + 0x10_0000 * flags + 0x400 * v + a;
    assert p / 0x400 == 0x10_0000 * kind + 0x400 * flags + v;
  }

  lemma HalfProduct(v: nat, a: nat)
    ensures v * 50 * (a * 10) / 1000 == v * a / 2
  {
    assert v * 50 * (a * 10) == 500 * (v * a) by {
      assert v * 50 * (a * 10) == (v * 50 * a) * 10;
      assert v * 50 * a == 50 * (v * a);
    }
  }

  lemma ProductBound(x: nat, y: nat, a: nat, b: nat)
    requires x <= a && y <= b
    ensures x * y <= a * b
  {
    assert x * y <= a * y <= a * b;
  }

  /** The product of the two fits the driver's 32-bit arithmetic. */
  lemma PowerFits(p: Pdo)
    ensures Mv(p) * Ma(p) < 0x1_0000_0000
  {
    ProductBound(Mv(p), Ma(p), 51150, 10230);
  }

  predicate Takes(sink: seq<Pdo>, p: Pdo) {
    exists j :: 0 <= j < |sink| && Fixed(sink[j]) && Mv(sink[j]) == Mv(p)
  }

  predicate Eligible(sink: seq<Pdo>, p: Pdo) { Fixed(p) && Takes(sink, p) }

  /** More power, or the same at a higher voltage. */
  predicate Beats(p: Pdo, q: Pdo) {
    Mw(p) > Mw(q) || (Mw(p) == Mw(q) && Mv(p) > Mv(q))
  }

  /** The answer for the first n capabilities: a position from 1, or 0 for none. */
  predicate Best(caps: seq<Pdo>, sink: seq<Pdo>, n: nat, best: nat)
    requires n <= |caps|
  {
    if best == 0 then forall i :: 0 <= i < n && Eligible(sink, caps[i]) ==> Mv(caps[i]) == 0
    else
      && best <= n && Eligible(sink, caps[best - 1]) && Mv(caps[best - 1]) > 0
      && (forall i :: 0 <= i < n && Eligible(sink, caps[i]) ==> !Beats(caps[i], caps[best - 1]))
      && (forall i :: 0 <= i < best - 1 && Eligible(sink, caps[i]) ==> Beats(caps[best - 1], caps[i]))
  }

  /** There is exactly one such answer. */
  lemma BestUnique(caps: seq<Pdo>, sink: seq<Pdo>, a: nat, b: nat)
    requires Best(caps, sink, |caps|, a) && Best(caps, sink, |caps|, b)
    ensures a == b
  {
  }

  lemma NoVoltageNoPower(p: Pdo)
    ensures Mv(p) == 0 ==> Mw(p) == 0
  {
  }

  /**
    The first position that maximises power, then voltage, among the fixed
    supplies at a sink voltage; 0 exactly when none of those has a voltage.
  */
  method ChooseBest(caps: seq<Pdo>, sink: seq<Pdo>) returns (best: nat)
    ensures Best(caps, sink, |caps|, best)
    ensures best <= |caps|
    ensures best > 0 ==>
              var p := caps[best - 1];
              && Fixed(p) && Mv(p) > 0 && (exists j :: 0 <= j < |sink| && Fixed(sink[j]) && Mv(sink[j]) == Mv(p))
              && forall i, j :: 0 <= i < |caps| && 0 <= j < |sink| && Fixed(caps[i]) && Fixed(sink[j])
                                && Mv(sink[j]) == Mv(caps[i]) ==>
                   || Mw(caps[i]) < Mw(p)
                   || (Mw(caps[i]) == Mw(p) && (Mv(caps[i]) < Mv(p) || (Mv(caps[i]) == Mv(p) && best - 1 <= i)))
  {
    hide Mw, Mv, Fixed;
    best := 0;
    var bestMv, bestMw := 0, 0;
    var i := 0;
    while i < |caps|
      invariant 0 <= i <= |caps| && Best(caps, sink, i, best)
      invariant if best == 0 then bestMv == bestMw == 0
                else bestMv == Mv(caps[best - 1]) && bestMw == Mw(caps[best - 1])
    {
      if Fixed(caps[i]) {
        var mv, mw := Mv(caps[i]), Mw(caps[i]);
        NoVoltageNoPower(caps[i]);
        ghost var wins := mw > bestMw || (mw == bestMw && mv > bestMv);
        ghost var was := best;
        ghost var matched := false;
        var j := 0;
        while j < |sink|
          invariant 0 <= j <= |sink|
          invariant matched <==> exists k :: 0 <= k < j && Fixed(sink[k]) && Mv(sink[k]) == mv
          invariant if matched && wins then best == i + 1 && bestMv == mv && bestMw == mw
                    else best == was && (if best == 0 then bestMv == bestMw == 0
                                         else bestMv == Mv(caps[best - 1]) && bestMw == Mw(caps[best - 1]))
        {
          if Fixed(sink[j]) && Mv(sink[j]) == mv {
            matched := true;
            if mw > bestMw || (mw == bestMw && mv > bestMv) {
              best := i + 1;
              bestMv := mv;
              bestMw := mw;
            }
          }
          j := j + 1;
        }
        assert matched <==> Takes(sink, caps[i]);
        NextBest(caps, sink, i, was, best);
      }
      i := i + 1;
    }
  }

  /** One more capability: it becomes the best exactly when it is eligible and beats the best so far. */
  lemma NextBest(caps: seq<Pdo>, sink: seq<Pdo>, i: nat, was: nat, best: nat)
    requires i < |caps| && Best(caps, sink, i, was)
    requires var wins := if was == 0 then Mw(caps[i]) > 0 || Mv(caps[i]) > 0 else Beats(caps[i], caps[was - 1]);
             best == if Eligible(sink, caps[i]) && wins then i + 1 else was
    ensures Best(caps, sink, i + 1, best)
  {
    hide Mw, Mv, Fixed, Takes;
    NoVoltageNoPower(caps[i]);
    forall k | 0 <= k < i && Eligible(sink, caps[k])
      ensures Mv(caps[k]) == 0 ==> Mw(caps[k]) == 0
    {
      NoVoltageNoPower(caps[k]);
    }
  }
}
