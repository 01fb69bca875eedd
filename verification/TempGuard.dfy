/**
  The battery temperature guard of the SM5705 charger: five zones with
  hysteresis, in tenths of a degree.
*/
module TempGuard {

  const ALERT_HYST := 50
  const WARM := 410
  const WARM_HYST := 20
  const COOL := 150
  const COOL_HYST := 50

  datatype Zone = Normal | Cool | Warm | Cold | Hot

  function NextZone(zone: Zone, min: int, max: int, temp: int): Zone {
    if temp >= max || (zone == Hot && temp >= max - ALERT_HYST) then Hot
    else if temp < min || (zone == Cold && temp <= min + ALERT_HYST) then Cold
    else if temp >= WARM || ((zone == Warm || zone == Hot) && temp >= WARM - WARM_HYST) then Warm
    else if temp < COOL || ((zone == Cool || zone == Cold) && temp <= COOL + COOL_HYST) then Cool
    else Normal
  }

  /** Reading the same temperature again never changes the zone. */
  lemma Stable(zone: Zone, min: int, max: int, temp: int)
    ensures NextZone(NextZone(zone, min, max, temp), min, max, temp) == NextZone(zone, min, max, temp)
  {
  }

  /** The zone after a run of readings. */
  function ZoneAfter(zone: Zone, min: int, max: int, temps: seq<int>): Zone {
    if temps == [] then zone
    else NextZone(ZoneAfter(zone, min, max, temps[..|temps| - 1]), min, max, temps[|temps| - 1])
  }

  /** Reading i was at least `enter`, and none since has been below `stay`. */
  ghost predicate HighFrom(temps: seq<int>, i: int, enter: int, stay: int) {
    0 <= i < |temps| && temps[i] >= enter && forall j :: i < j < |temps| ==> temps[j] >= stay
  }

  ghost predicate HighSince(temps: seq<int>, enter: int, stay: int) {
    exists i :: HighFrom(temps, i, enter, stay)
  }

  lemma HighPrefix(temps: seq<int>, i: int, enter: int, stay: int)
    requires temps != [] && i < |temps| - 1
    ensures var n := |temps| - 1;
            HighFrom(temps, i, enter, stay) <==> HighFrom(temps[..n], i, enter, stay) && temps[n] >= stay
  {
  }

  lemma HighStep(temps: seq<int>, enter: int, stay: int)
    requires temps != []
    ensures var n := |temps| - 1;
            HighSince(temps, enter, stay) <==>
              temps[n] >= enter || (HighSince(temps[..n], enter, stay) && temps[n] >= stay)
  {
    var n := |temps| - 1;
    if temps[n] >= enter {
      assert HighFrom(temps, n, enter, stay);
    }
    forall i | i < n
      ensures HighFrom(temps, i, enter, stay) <==> HighFrom(temps[..n], i, enter, stay) && temps[n] >= stay
    {
      HighPrefix(temps, i, enter, stay);
    }
  }

  /** Reading i was below `enter`, and none since has been above `stay`. */
  ghost predicate LowFrom(temps: seq<int>, i: int, enter: int, stay: int) {
    0 <= i < |temps| && temps[i] < enter && forall j :: i < j < |temps| ==> temps[j] <= stay
  }

  ghost predicate LowSince(temps: seq<int>, enter: int, stay: int) {
    exists i :: LowFrom(temps, i, enter, stay)
  }

  lemma LowPrefix(temps: seq<int>, i: int, enter: int, stay: int)
    requires temps != [] && i < |temps| - 1
    ensures var n := |temps| - 1;
            LowFrom(temps, i, enter, stay) <==> LowFrom(temps[..n], i, enter, stay) && temps[n] <= stay
  {
  }

  lemma LowStep(temps: seq<int>, enter: int, stay: int)
    requires temps != []
    ensures var n := |temps| - 1;
            LowSince(temps, enter, stay) <==>
              temps[n] < enter || (LowSince(temps[..n], enter, stay) && temps[n] <= stay)
  {
    var n := |temps| - 1;
    if temps[n] < enter {
      assert LowFrom(temps, n, enter, stay);
    }
    forall i | i < n
      ensures LowFrom(temps, i, enter, stay) <==> LowFrom(temps[..n], i, enter, stay) && temps[n] <= stay
    {
      LowPrefix(temps, i, enter, stay);
    }
  }

  /** HOT holds exactly since a reading reached the upper limit and none fell 5 degrees below it. */
  lemma {:induction false} HotExactly(min: int, max: int, temps: seq<int>)
    ensures ZoneAfter(Normal, min, max, temps) == Hot <==> HighSince(temps, max, max - 50)
  {
    if temps != [] {
      HotExactly(min, max, temps[..|temps| - 1]);
      HighStep(temps, max, max - 50);
      hide HighSince;
    }
  }

  /** COLD holds exactly since a reading was below the lower limit and none rose 5 degrees above it. */
  ghost predicate ColdRight(min: int, max: int, temps: seq<int>) {
    ZoneAfter(Normal, min, max, temps) == Cold <==> LowSince(temps, min, min + 50)
  }

  /** WARM or HOT holds exactly since a reading reached 41 degrees and none fell below 39. */
  ghost predicate WarmRight(min: int, max: int, temps: seq<int>) {
    ZoneAfter(Normal, min, max, temps) in {Warm, Hot} <==> HighSince(temps, 410, 390)
  }

  /** COOL or COLD holds exactly since a reading was below 15 degrees and none rose above 20. */
  ghost predicate CoolRight(min: int, max: int, temps: seq<int>) {
    ZoneAfter(Normal, min, max, temps) in {Cool, Cold} <==> LowSince(temps, 150, 200)
  }

  lemma {:induction false} ColdRun(min: int, max: int, temps: seq<int>)
    requires max - min > 50
    ensures ColdRight(min, max, temps)
  {
    if temps != [] {
      ColdRun(min, max, temps[..|temps| - 1]);
      LowStep(temps, min, min + 50);
      hide LowSince;
    }
  }

  lemma {:induction false} WarmRun(min: int, max: int, temps: seq<int>)
    requires min < 360 && max >= 440
    ensures WarmRight(min, max, temps)
  {
    if temps != [] {
      WarmRun(min, max, temps[..|temps| - 1]);
      HighStep(temps, 410, 390);
      hide HighSince;
    }
  }

  lemma {:induction false} CoolRun(min: int, max: int, temps: seq<int>)
    requires min <= 150 && max > 200
    ensures CoolRight(min, max, temps)
  {
    if temps != [] {
      CoolRun(min, max, temps[..|temps| - 1]);
      LowStep(temps, 150, 200);
      hide LowSince;
    }
  }

  /** The zone after one reading and after two. */
  lemma Unrolled(min: int, max: int, a: int, b: int)
    ensures ZoneAfter(Normal, min, max, [a]) == NextZone(Normal, min, max, a)
    ensures ZoneAfter(Normal, min, max, [a, b]) == NextZone(NextZone(Normal, min, max, a), min, max, b)
    ensures forall enter, stay :: HighSince([a, b], enter, stay) <==> b >= enter || (a >= enter && b >= stay)
    ensures forall enter, stay :: LowSince([a, b], enter, stay) <==> b < enter || (a < enter && b <= stay)
    ensures forall enter, stay :: LowSince([a], enter, stay) <==> a < enter
    ensures forall enter, stay :: HighSince([a], enter, stay) <==> a >= enter
  {
    hide NextZone, HighSince, LowSince;
    assert [a, b][..1] == [a] && [a][..0] == [];
    forall enter, stay
      ensures HighSince([a], enter, stay) <==> a >= enter
      ensures HighSince([a, b], enter, stay) <==> b >= enter || (a >= enter && b >= stay)
      ensures LowSince([a], enter, stay) <==> a < enter
      ensures LowSince([a, b], enter, stay) <==> b < enter || (a < enter && b <= stay)
    {
      NoReadings(enter, stay);
      HighStep([a], enter, stay);
      HighStep([a, b], enter, stay);
      LowStep([a], enter, stay);
      LowStep([a, b], enter, stay);
    }
  }

  lemma NoReadings(enter: int, stay: int)
    ensures !HighSince([], enter, stay) && !LowSince([], enter, stay)
  {
  }

  // Each description of a zone by its readings holds for all of them exactly if
  // the alert limits leave the zone room.

  lemma ColdExactly(min: int, max: int)
    ensures (forall temps :: ColdRight(min, max, temps)) <==> max - min > 50
  {
    hide HighSince, LowSince;
    if max - min > 50 {
      forall temps
        ensures ColdRight(min, max, temps)
      {
        ColdRun(min, max, temps);
      }
    } else {
      var first := (if min < max then min else max) - 1;
      Unrolled(min, max, first, max);
      assert !ColdRight(min, max, [first, max]);
    }
  }

  lemma WarmExactly(min: int, max: int)
    ensures (forall temps :: WarmRight(min, max, temps)) <==> min < 360 && max >= 440
  {
    hide HighSince, LowSince;
    if max < 440 {
      Unrolled(min, max, max, max - 50);
      assert !WarmRight(min, max, [max, max - 50]);
    } else if min > 410 {
      Unrolled(min, max, 410, 410);
      assert !WarmRight(min, max, [410]);
    } else if min >= 360 {
      Unrolled(min, max, min - 1, 410);
      assert !WarmRight(min, max, [min - 1, 410]);
    } else {
      forall temps
        ensures WarmRight(min, max, temps)
      {
        WarmRun(min, max, temps);
      }
    }
  }

  lemma CoolExactly(min: int, max: int)
    ensures (forall temps :: CoolRight(min, max, temps)) <==> min <= 150 && max > 200
  {
    hide HighSince, LowSince;
    if max < 200 {
      Unrolled(min, max, max, max - 50);
      assert !CoolRight(min, max, [max, max - 50]);
    } else if max == 200 {
      Unrolled(min, max, 149, 200);
      assert !CoolRight(min, max, [149, 200]);
    } else if min > 150 {
      Unrolled(min, max, 150, 150);
      assert !CoolRight(min, max, [150]);
    } else {
      forall temps
        ensures CoolRight(min, max, temps)
      {
        CoolRun(min, max, temps);
      }
    }
  }

  /** How often a run of readings enters or leaves zone z. */
  function Toggles(z: Zone, zone: Zone, min: int, max: int, temps: seq<int>): nat
    decreases |temps|
  {
    if temps == [] then 0
    else
      var next := NextZone(zone, min, max, temps[0]);
      (if (next == z) != (zone == z) then 1 else 0) + Toggles(z, next, min, max, temps[1..])
  }

  function Abs(x: int): nat {
    if x < 0 then -x else x
  }

  /** The total variation of the readings after temperature p. */
  function Variation(p: int, temps: seq<int>): nat
    decreases |temps|
  {
    if temps == [] then 0 else Abs(temps[0] - p) + Variation(temps[0], temps[1..])
  }

  /** The total variation of a sequence of readings. */
  function Total(temps: seq<int>): nat {
    if temps == [] then 0 else Variation(temps[0], temps)
  }

  function Clamp(x: int, lo: int, hi: int): int {
    if x < lo then lo else if x > hi then hi else x
  }

  /** How far temperature p has already moved towards the next toggle of HOT. */
  function HotProgress(zone: Zone, max: int, p: int): int {
    if zone == Hot then Clamp(max - p, 0, 51) else Clamp(p - (max - 51), 0, 51)
  }

  lemma HotStep(zone: Zone, min: int, max: int, p: int, temp: int)
    ensures var next := NextZone(zone, min, max, temp);
            (if (next == Hot) != (zone == Hot) then 51 else 0) + HotProgress(next, max, temp)
              <= Abs(temp - p) + HotProgress(zone, max, p)
  {
  }

  lemma {:induction false} HotTogglesFrom(zone: Zone, min: int, max: int, p: int, temps: seq<int>)
    ensures 51 * Toggles(Hot, zone, min, max, temps) <= Variation(p, temps) + HotProgress(zone, max, p)
    decreases |temps|
  {
    if temps != [] {
      HotStep(zone, min, max, p, temps[0]);
      HotTogglesFrom(NextZone(zone, min, max, temps[0]), min, max, temps[0], temps[1..]);
    }
  }

  /**
    Over any readings, from any zone, every toggle of HOT after the first costs
    51 tenths of a degree of variation.
  */
  lemma HotToggles(zone: Zone, min: int, max: int, temps: seq<int>)
    ensures 51 * (Toggles(Hot, zone, min, max, temps) - 1) <= Total(temps)
  {
    HotTogglesFrom(zone, min, max, if temps == [] then 0 else temps[0], temps);
  }

  function ColdProgress(zone: Zone, min: int, p: int): int {
    if zone == Cold then Clamp(p - (min - 1), 0, 52) else Clamp(min + 51 - p, 0, 52)
  }

  lemma ColdStep(zone: Zone, min: int, max: int, p: int, temp: int)
    requires max - min > ALERT_HYST
    ensures var next := NextZone(zone, min, max, temp);
            (if (next == Cold) != (zone == Cold) then 52 else 0) + ColdProgress(next, min, temp)
              <= Abs(temp - p) + ColdProgress(zone, min, p)
  {
  }

  lemma {:induction false} ColdTogglesFrom(zone: Zone, min: int, max: int, p: int, temps: seq<int>)
    requires max - min > ALERT_HYST
    ensures 52 * Toggles(Cold, zone, min, max, temps) <= Variation(p, temps) + ColdProgress(zone, min, p)
    decreases |temps|
  {
    if temps != [] {
      ColdStep(zone, min, max, p, temps[0]);
      ColdTogglesFrom(NextZone(zone, min, max, temps[0]), min, max, temps[0], temps[1..]);
    }
  }

  /**
    COLD is left only above its recovery point, so its toggles cost 52 each, when
    the alert range is wider than the hysteresis.
  */
  lemma ColdToggles(zone: Zone, min: int, max: int, temps: seq<int>)
    requires max - min > ALERT_HYST
    ensures 52 * (Toggles(Cold, zone, min, max, temps) - 1) <= Total(temps)
  {
    ColdTogglesFrom(zone, min, max, if temps == [] then 0 else temps[0], temps);
  }

  /** The bounds hold for every sequence exactly when COLD's alert range is wider than the hysteresis. */
  lemma ColdTogglesExactly(min: int, max: int)
    ensures max - min > ALERT_HYST <==>
            forall zone, temps :: 52 * (Toggles(Cold, zone, min, max, temps) - 1) <= Total(temps)
  {
    if max - min > ALERT_HYST {
      forall zone, temps
        ensures 52 * (Toggles(Cold, zone, min, max, temps) - 1) <= Total(temps)
      {
        ColdToggles(zone, min, max, temps);
      }
    } else {
      var first := (if min < max then min else max) - 1;
      var temps := [first, max];
      assert temps[1..] == [max];
      assert NextZone(Normal, min, max, first) == Cold && NextZone(Cold, min, max, max) == Hot;
      assert Toggles(Cold, Cold, min, max, [max]) == 1;
      assert Toggles(Cold, Normal, min, max, temps) == 2;
      assert Variation(first, [max]) == max - first;
      assert Total(temps) == Variation(first, temps) == max - first <= 51;
    }
  }

  /** Both bounds are reached: one swing, with as many toggles as the variation allows. */
  lemma TogglesTight()
    ensures Toggles(Hot, Normal, 0, 500, [500, 449]) == 2 && Total([500, 449]) == 51
    ensures Toggles(Cold, Normal, 0, 500, [-1, 51]) == 2 && Total([-1, 51]) == 52
  {
    assert [500, 449][1..] == [449];
    assert [-1, 51][1..] == [51];
  }
}
