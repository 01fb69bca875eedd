/**
  The Wacom W9000 pen digitizer: its power transitions over a regulator that may
  refuse at any time, and the events it sends to user space.
*/
module Digitizer {

  newtype byte = x: int | 0 <= x < 256

  // ---------- the event stream ----------

  datatype Code = Stylus | Touch | ToolPen | ToolRubber

  datatype Event =
    | Key(code: Code, down: bool)
    | Pressure(value: nat)
    | Distance(value: nat)
    | Position(x: nat, y: nat)
    | Sync

  /** The keys user space sees as down. */
  datatype Keys = Keys(stylus: bool, touch: bool, pen: bool, rubber: bool)

  const AllUp := Keys(false, false, false, false)

  function Press(k: Keys, e: Event): Keys {
    match e
    case Key(Stylus, d) => k.(stylus := d)
    case Key(Touch, d) => k.(touch := d)
    case Key(ToolPen, d) => k.(pen := d)
    case Key(ToolRubber, d) => k.(rubber := d)
    case _ => k
  }

  function KeysAfter(events: seq<Event>): Keys {
    if events == [] then AllUp else Press(KeysAfter(events[..|events| - 1]), events[|events| - 1])
  }

  /** The axes user space has seen last. */
  datatype Axes = Axes(x: nat, y: nat, pressure: nat, distance: nat)

  function Move(a: Axes, e: Event): Axes {
    match e
    case Position(x, y) => a.(x := x, y := y)
    case Pressure(v) => a.(pressure := v)
    case Distance(v) => a.(distance := v)
    case _ => a
  }

  function AxesAfter(events: seq<Event>): Axes {
    if events == [] then Axes(0, 0, 0, 0) else Move(AxesAfter(events[..|events| - 1]), events[|events| - 1])
  }

  /** How often user space has been told that a report is complete. */
  function Syncs(events: seq<Event>): nat {
    if events == [] then 0 else Syncs(events[..|events| - 1]) + if events[|events| - 1] == Sync then 1 else 0
  }

  /** The stream with one more event. */
  function Emit(events: seq<Event>, e: Event): (r: seq<Event>)
    ensures KeysAfter(r) == Press(KeysAfter(events), e) && AxesAfter(r) == Move(AxesAfter(events), e)
    ensures Syncs(r) == Syncs(events) + if e == Sync then 1 else 0
  {
    assert (events + [e])[..|events|] == events;
    events + [e]
  }

  /** User space has seen every event so far. */
  predicate Synced(events: seq<Event>) {
    events == [] || events[|events| - 1] == Sync
  }

  // ---------- reports ----------

  datatype Format = Format(length: nat, specialByte: nat, hasDistance: bool)

  datatype Features = Features(maxX: nat, maxY: nat, maxPressure: nat)

  datatype Report = Report(x: nat, y: nat, pressure: nat, distance: nat,
                           proximity: bool, touch: bool, rubber: bool, sideButton: bool)

  /** The result of parsing a packet. */
  datatype Parsed = Invalid | Packet(report: Report)

  predicate Bit(b: byte, n: nat)
    requires n < 8
  {
    b as int / [1, 2, 4, 8, 16, 32, 64, 128][n] % 2 == 1
  }

  function Be16(data: seq<byte>, i: nat): nat
    requires i + 1 < |data|
  {
    256 * (data[i] as int) + data[i + 1] as int
  }

  function Parse(data: seq<byte>, f: Format, limits: Features): Parsed {
    var n := |data|;
    if n != f.length || n < 7 || (f.hasDistance && n <= 7) || (f.specialByte != 0 && f.specialByte >= n) then
      Invalid
    else if !Bit(data[0], 7) || (f.specialByte != 0 && Bit(data[f.specialByte], 7)) then
      Packet(Report(0, 0, 0, 0, false, false, false, false))
    else if Be16(data, 1) > limits.maxX || Be16(data, 3) > limits.maxY || Be16(data, 5) > limits.maxPressure then
      Invalid
    else
      Packet(Report(Be16(data, 1), Be16(data, 3), Be16(data, 5), if f.hasDistance then data[7] as int else 0,
                    true, Bit(data[0], 4), Bit(data[0], 6), Bit(data[0], 5)))
  }

  function PackBe16(n: nat): (r: seq<byte>)
    requires n < 65536
    ensures |r| == 2
  {
    [(n / 256) as byte, (n % 256) as byte]
  }

  /** The packet a digitizer sends for a report; `rest` fills it up. */
  function Pack(r: Report, rest: seq<byte>): seq<byte>
    requires r.x < 65536 && r.y < 65536 && r.pressure < 65536
  {
    var flags := (if r.proximity then 128 else 0) + (if r.rubber then 64 else 0) +
                 (if r.sideButton then 32 else 0) + (if r.touch then 16 else 0);
    [flags as byte] + PackBe16(r.x) + PackBe16(r.y) + PackBe16(r.pressure) + rest
  }

  /** Parsing undoes packing for every report in range that is no special packet. */
  lemma ParseUndoesPack(r: Report, rest: seq<byte>, f: Format, limits: Features)
    requires r.proximity && r.x <= limits.maxX && r.y <= limits.maxY && r.pressure <= limits.maxPressure
    requires limits.maxX < 65536 && limits.maxY < 65536 && limits.maxPressure < 65536
    requires f.length == 7 + |rest| && (f.hasDistance ==> rest != []) && f.specialByte < f.length
    requires f.specialByte == 0 || (f.specialByte >= 7 && !Bit(rest[f.specialByte - 7], 7))
    requires r.distance == if f.hasDistance then rest[0] as int else 0
    ensures Parse(Pack(r, rest), f, limits) == Packet(r)
  {
    var d := Pack(r, rest);
    assert d[1..3] == PackBe16(r.x) && d[3..5] == PackBe16(r.y) && d[5..7] == PackBe16(r.pressure);
    assert d[1] == d[1..3][0] && d[2] == d[1..3][1];
    assert d[3] == d[3..5][0] && d[4] == d[3..5][1];
    assert d[5] == d[5..7][0] && d[6] == d[5..7][1];
    assert Be16(d, 1) == r.x && Be16(d, 3) == r.y && Be16(d, 5) == r.pressure;
    assert d[7..] == rest;
    assert Bit(d[0], 7) && Bit(d[0], 4) == r.touch && Bit(d[0], 6) == r.rubber && Bit(d[0], 5) == r.sideButton;
  }

  // ---------- specification ----------

  datatype Config = Config(format: Format, limits: Features)

  /**
    The driver's two states, whether user space has the device open, and what the
    callbacks did: the event stream, the regulator's use count, how often the
    interrupt was enabled more than disabled, and the reset line.
  */
  datatype State = State(cfg: Config, supply: bool, irq: bool, proximity: bool, open: bool,
                         events: seq<Event>, uses: int, irqs: int, inReset: bool)

  function ReleaseInput(s: State): State {
    if !s.proximity then s
    else
      var e1 := Emit(s.events, Pressure(0));
      var e2 := if s.cfg.format.hasDistance then Emit(e1, Distance(255)) else e1;
      var e3 := Emit(Emit(e2, Key(Stylus, false)), Key(Touch, false));
      var e4 := Emit(Emit(e3, Key(ToolPen, false)), Key(ToolRubber, false));
      s.(events := Emit(e4, Sync), proximity := false)
  }

  function ReportInput(s: State, r: Report): State {
    if !r.proximity then ReleaseInput(s)
    else
      var e1 := Emit(Emit(s.events, Position(r.x, r.y)), Pressure(r.pressure));
      var e2 := if s.cfg.format.hasDistance then Emit(e1, Distance(r.distance)) else e1;
      var e3 := Emit(Emit(e2, Key(Stylus, r.sideButton)), Key(Touch, r.touch));
      var e4 := Emit(Emit(e3, Key(ToolPen, !r.rubber)), Key(ToolRubber, r.rubber));
      s.(events := Emit(e4, Sync), proximity := true)
  }

  /** An interrupt, which only an enabled line delivers. */
  function OnPacket(s: State, data: seq<byte>): State {
    if !s.irq then s
    else
      var p := Parse(data, s.cfg.format, s.cfg.limits);
      if p.Invalid? then s else ReportInput(s, p.report)
  }

  function IrqOn(s: State): State {
    if s.irq then s else s.(irq := true, irqs := s.irqs + 1)
  }

  /** `enable` is the regulator's result. */
  function PowerOn(s: State, enable: int): State {
    if !s.supply && enable != 0 then s
    else IrqOn((if s.supply then s else s.(supply := true, uses := s.uses + 1)).(inReset := false))
  }

  function PowerOnResult(s: State, enable: int): int {
    if s.supply then 0 else enable
  }

  function SupplyOff(s: State, disable: int): State {
    if s.supply && disable == 0 then s.(supply := false, uses := s.uses - 1) else s
  }

  function PowerOff(s: State, disable: int, restore: bool): State {
    var s1 := if s.irq then s.(irq := false, irqs := s.irqs - 1) else s;
    var s2 := ReleaseInput(s1).(inReset := true);
    if s2.supply && disable != 0 && restore then IrqOn(s2.(inReset := false))
    else SupplyOff(s2, disable)
  }

  datatype Action =
    | Open(enable: int)
    | Close(disable: int)
    | Suspend(disable: int)
    | Resume(enable: int)
    | Interrupt(data: seq<byte>)
    | Unbind(closing: int, disable: int)

  /** The input core opens a closed device and closes an open one; a failed open leaves it closed. */
  function Step(s: State, a: Action): State {
    match a
    case Open(enable) =>
      if s.open then s else PowerOn(s, enable).(open := PowerOnResult(s, enable) == 0)
    case Close(disable) =>
      if s.open then PowerOff(s, disable, false).(open := false) else s
    case Suspend(disable) =>
      if s.open then PowerOff(s, disable, true)
      else if s.supply then PowerOff(s, disable, false) else s
    case Resume(enable) =>
      if s.open then PowerOn(s, enable) else s
    case Interrupt(data) => OnPacket(s, data)
    case Unbind(closing, disable) =>
      SupplyOff(if s.open then PowerOff(s, closing, false).(open := false) else s, disable)
  }

  function Run(s: State, actions: seq<Action>): State {
    if actions == [] then s else Step(Run(s, actions[..|actions| - 1]), actions[|actions| - 1])
  }

  /** After probe, which powers the digitizer only to query it; a failed switch-off fails the probe. */
  function Attached(cfg: Config): State {
    State(cfg, false, false, false, false, [], 0, 0, true)
  }

  // ---------- what every run keeps ----------

  predicate PowerKept(s: State) {
    && s.uses == (if s.supply then 1 else 0)
    && s.irqs == (if s.irq then 1 else 0)
    && (s.irq ==> s.supply && !s.inReset && s.open)
    && (s.proximity ==> s.irq)
  }

  /** In proximity exactly one tool is down; out of it every key is up, and user space knows. */
  predicate KeysKept(s: State) {
    && Synced(s.events)
    && (s.proximity ==> KeysAfter(s.events).pen != KeysAfter(s.events).rubber)
    && (!s.proximity ==> KeysAfter(s.events) == AllUp)
  }

  predicate InLimits(limits: Features, events: seq<Event>) {
    forall i :: 0 <= i < |events| && events[i].Position? ==> events[i].x <= limits.maxX && events[i].y <= limits.maxY
  }

  predicate Inv(s: State) {
    PowerKept(s) && KeysKept(s) && InLimits(s.cfg.limits, s.events)
  }

  lemma EmitInLimits(limits: Features, events: seq<Event>, e: Event)
    requires InLimits(limits, events) && (e.Position? ==> e.x <= limits.maxX && e.y <= limits.maxY)
    ensures InLimits(limits, Emit(events, e))
  {
  }

  /** Releasing leaves every key up and says so. */
  lemma ReleaseFacts(s: State)
    requires KeysKept(s) && InLimits(s.cfg.limits, s.events)
    ensures var t := ReleaseInput(s);
            KeysKept(t) && InLimits(t.cfg.limits, t.events) && !t.proximity &&
            t == s.(events := t.events, proximity := false)
  {
    if s.proximity {
      var l := s.cfg.limits;
      var e1 := Emit(s.events, Pressure(0));
      EmitInLimits(l, s.events, Pressure(0));
      EmitInLimits(l, e1, Distance(255));
      var e2 := if s.cfg.format.hasDistance then Emit(e1, Distance(255)) else e1;
      KeyFacts(l, e2, false, false, false, false);
    }
  }

  /** The four keys and the sync that end every report. */
  lemma KeyFacts(limits: Features, events: seq<Event>, stylus: bool, touch: bool, pen: bool, rubber: bool)
    requires InLimits(limits, events)
    ensures var e3 := Emit(Emit(events, Key(Stylus, stylus)), Key(Touch, touch));
            var e4 := Emit(Emit(e3, Key(ToolPen, pen)), Key(ToolRubber, rubber));
            var e5 := Emit(e4, Sync);
            Synced(e5) && InLimits(limits, e5) && KeysAfter(e5) == Keys(stylus, touch, pen, rubber)
  {
    var a := Emit(events, Key(Stylus, stylus));
    var b := Emit(a, Key(Touch, touch));
    var c := Emit(b, Key(ToolPen, pen));
    EmitInLimits(limits, events, Key(Stylus, stylus));
    EmitInLimits(limits, a, Key(Touch, touch));
    EmitInLimits(limits, b, Key(ToolPen, pen));
    EmitInLimits(limits, c, Key(ToolRubber, rubber));
    EmitInLimits(limits, Emit(c, Key(ToolRubber, rubber)), Sync);
  }

  lemma ReportFacts(s: State, r: Report)
    requires KeysKept(s) && InLimits(s.cfg.limits, s.events)
    requires r.proximity && r.x <= s.cfg.limits.maxX && r.y <= s.cfg.limits.maxY
    ensures var t := ReportInput(s, r);
            KeysKept(t) && InLimits(t.cfg.limits, t.events) && t == s.(events := t.events, proximity := true)
    ensures KeysAfter(ReportInput(s, r).events) == Keys(r.sideButton, r.touch, !r.rubber, r.rubber)
  {
    hide Emit, Press, KeysAfter, Synced, InLimits;
    var l := s.cfg.limits;
    var e0 := Emit(s.events, Position(r.x, r.y));
    var e1 := Emit(e0, Pressure(r.pressure));
    EmitInLimits(l, s.events, Position(r.x, r.y));
    EmitInLimits(l, e0, Pressure(r.pressure));
    EmitInLimits(l, e1, Distance(r.distance));
    KeyFacts(l, if s.cfg.format.hasDistance then Emit(e1, Distance(r.distance)) else e1,
             r.sideButton, r.touch, !r.rubber, r.rubber);
  }

  /**
    What user space sees after a packet: the report's position, pressure, distance
    (where the digitizer has one) and keys, or the pen gone, each as one complete
    report; and nothing after a packet that is not valid.
  */
  lemma PacketShows(s: State, data: seq<byte>)
    requires Inv(s) && s.irq
    ensures var before, e := AxesAfter(s.events), OnPacket(s, data).events;
            var far := if s.cfg.format.hasDistance then 255 else before.distance;
            match Parse(data, s.cfg.format, s.cfg.limits)
            case Invalid => e == s.events
            case Packet(r) =>
              if r.proximity then
                && AxesAfter(e) == Axes(r.x, r.y, r.pressure,
                                        if s.cfg.format.hasDistance then r.distance else before.distance)
                && KeysAfter(e) == Keys(r.sideButton, r.touch, !r.rubber, r.rubber)
                && Syncs(e) == Syncs(s.events) + 1 && OnPacket(s, data).proximity
              else
                && KeysAfter(e) == AllUp && !OnPacket(s, data).proximity
                && (if s.proximity then
                      AxesAfter(e) == Axes(before.x, before.y, 0, far) && Syncs(e) == Syncs(s.events) + 1
                    else e == s.events)
  {
    hide Emit, KeysAfter, AxesAfter, Syncs, Parse, InLimits, Synced;
  }

  /** Packets that mean the pen is away: without the proximity bit, or special ones. */
  lemma AwayParses(data: seq<byte>, f: Format, limits: Features)
    requires |data| == f.length >= 7 && (f.hasDistance ==> f.length > 7) && f.specialByte < f.length
    requires data[0] as int < 128 || (f.specialByte != 0 && data[f.specialByte] as int >= 128)
    ensures Parse(data, f, limits) == Packet(Report(0, 0, 0, 0, false, false, false, false))
  {
  }

  /** Every other packet: position, pressure and distance with the high byte first, the keys one bit each. */
  lemma AcceptedParses(data: seq<byte>, f: Format, limits: Features)
    requires Parse(data, f, limits).Packet? && Parse(data, f, limits).report.proximity
    ensures var r, b := Parse(data, f, limits).report, data[0] as int;
            && b >= 128 && |data| == f.length
            && r.x == 256 * (data[1] as int) + data[2] as int
            && r.y == 256 * (data[3] as int) + data[4] as int
            && r.pressure == 256 * (data[5] as int) + data[6] as int
            && r.distance == (if f.hasDistance then data[7] as int else 0)
            && (r.touch <==> b / 16 % 2 == 1) && (r.sideButton <==> b / 32 % 2 == 1) && (r.rubber <==> b / 64 % 2 == 1)
  {
  }

  /** Packets that are refused: of another length, or out of the digitizer's range. */
  lemma RefusedParses(data: seq<byte>, f: Format, limits: Features)
    requires f.specialByte == 0 && f.length >= 7 && (f.hasDistance ==> f.length > 7)
    ensures Parse(data, f, limits) == Invalid <==>
            || |data| != f.length
            || (data[0] as int >= 128 &&
                (256 * (data[1] as int) + data[2] as int > limits.maxX
                 || 256 * (data[3] as int) + data[4] as int > limits.maxY
                 || 256 * (data[5] as int) + data[6] as int > limits.maxPressure))
  {
  }

  lemma PacketKeepsInv(s: State, data: seq<byte>)
    requires Inv(s)
    ensures Inv(OnPacket(s, data))
  {
    hide ReportInput, ReleaseInput;
    var p := Parse(data, s.cfg.format, s.cfg.limits);
    if s.irq && p.Packet? {
      if p.report.proximity {
        ReportFacts(s, p.report);
      } else {
        ReleaseFacts(s);
        assert ReportInput(s, p.report) == ReleaseInput(s) by {
          NoProximity(s, p.report);
        }
      }
    }
  }

  lemma NoProximity(s: State, r: Report)
    requires !r.proximity
    ensures ReportInput(s, r) == ReleaseInput(s)
  {
  }

  /** Power off always releases the pen, and ends with the interrupt off unless it is restored. */
  lemma PowerOffKeepsInv(s: State, disable: int, restore: bool)
    requires Inv(s) && (restore ==> s.open)
    ensures Inv(PowerOff(s, disable, restore))
    ensures !restore ==> Inv(PowerOff(s, disable, restore).(open := false))
    ensures !(restore && disable != 0) ==> !PowerOff(s, disable, restore).irq
  {
    hide ReleaseInput, KeysKept, InLimits;
    var s1 := if s.irq then s.(irq := false, irqs := s.irqs - 1) else s;
    SameKeys(s, s1);
    ReleaseFacts(s1);
    var s2 := ReleaseInput(s1).(inReset := true);
    SameKeys(ReleaseInput(s1), s2);
    SameKeys(s2, PowerOff(s, disable, restore));
    SameKeys(s2, PowerOff(s, disable, restore).(open := false));
  }

  lemma SameKeys(s: State, t: State)
    requires s.events == t.events && s.proximity == t.proximity
    ensures KeysKept(s) == KeysKept(t)
  {
  }

  lemma StepKeepsInv(s: State, a: Action)
    requires Inv(s)
    ensures Inv(Step(s, a))
  {
    hide PowerOff, KeysKept, InLimits, OnPacket;
    match a
    case Open(enable) => SameKeys(s, Step(s, a));
    case Close(disable) => PowerOffKeepsInv(s, disable, false);
    case Suspend(disable) => PowerOffKeepsInv(s, disable, s.open);
    case Resume(enable) => SameKeys(s, Step(s, a));
    case Interrupt(data) => PacketKeepsInv(s, data);
    case Unbind(closing, disable) =>
      PowerOffKeepsInv(s, closing, false);
      var t := if s.open then PowerOff(s, closing, false).(open := false) else s;
      SameKeys(t, SupplyOff(t, disable));
  }

  /**
    After every run, whatever the regulator answered: its use count and the
    interrupt's enable count match the driver's flags, an enabled interrupt means
    power without reset, and without it user space sees every key up.
  */
  lemma {:induction false} RunKeepsInv(cfg: Config, actions: seq<Action>)
    ensures Inv(Run(Attached(cfg), actions))
  {
    hide Step;
    if actions != [] {
      RunKeepsInv(cfg, actions[..|actions| - 1]);
      StepKeepsInv(Run(Attached(cfg), actions[..|actions| - 1]), actions[|actions| - 1]);
    }
  }

  /** While the device is closed or its supply is off, no key is down. */
  lemma ClosedMeansUp(cfg: Config, actions: seq<Action>)
    ensures var s := Run(Attached(cfg), actions);
            !s.open || !s.supply ==> KeysAfter(s.events) == AllUp && Synced(s.events)
  {
    RunKeepsInv(cfg, actions);
  }

  /** Supply on, out of reset, interrupt on, and open. */
  predicate Running(s: State) { s.open && s.supply && s.irq && !s.inReset }

  /**
    What each action leaves of power: opening and resuming run the device unless
    the regulator refuses, which changes nothing; closing, suspending and unbinding
    stop it and switch the supply off unless the regulator refuses, and a refused
    suspend of an open device runs it again.
  */
  lemma PowerOutcome(s: State, a: Action)
    requires Inv(s)
    ensures var t := Step(s, a);
            match a
            case Open(e) => if s.open then t == s else if s.supply || e == 0 then Running(t) else t == s
            case Resume(e) => if s.open && (s.supply || e == 0) then Running(t) else t == s
            case Close(d) =>
              if !s.open then t == s
              else !t.open && !t.irq && t.inReset && t.supply == (s.supply && d != 0)
            case Suspend(d) =>
              if s.open && s.supply && d != 0 then Running(t)
              else if s.open || s.supply then
                t.open == s.open && !t.irq && t.inReset && t.supply == (s.supply && d != 0)
              else t == s
            case Interrupt(_) =>
              t.open == s.open && t.supply == s.supply && t.irq == s.irq && t.inReset == s.inReset
            case Unbind(c, d) =>
              !t.open && (s.open ==> !t.irq && t.inReset) &&
              t.supply == (s.supply && d != 0 && (s.open ==> c != 0))
  {
    hide ReleaseInput, ReportInput, Parse, KeysKept, InLimits;
    match a
    case Open(e) =>
    case Resume(e) =>
    case Close(d) => OffLeaves(s, d, false);
    case Suspend(d) => OffLeaves(s, d, s.open);
    case Interrupt(data) =>
      ReleaseLeavesPower(s);
      ReportLeavesPower(s, Parse(data, s.cfg.format, s.cfg.limits));
    case Unbind(c, d) => OffLeaves(s, c, false);
  }

  lemma OffLeaves(s: State, disable: int, restore: bool)
    requires PowerKept(s)
    ensures var t := PowerOff(s, disable, restore);
            && t.open == s.open
            && (if s.supply && disable != 0 && restore then t.supply && t.irq && !t.inReset
                else !t.irq && t.inReset && t.supply == (s.supply && disable != 0))
  {
    hide ReleaseInput;
    ReleaseLeavesPower(s.(irq := false, irqs := s.irqs - 1));
    ReleaseLeavesPower(s);
  }

  lemma ReportLeavesPower(s: State, p: Parsed)
    ensures p.Packet? ==>
              var t := ReportInput(s, p.report); t == s.(events := t.events, proximity := t.proximity)
  {
    hide Emit, ReleaseInput;
    ReleaseLeavesPower(s);
  }

  /** A failed suspend of an open, powered device restores it; the pen is released all the same. */
  lemma FailedSuspend(s: State, disable: int)
    requires Inv(s) && s.open && s.supply && disable != 0
    ensures var t := Step(s, Suspend(disable));
            t.irq && t.supply && !t.inReset && !t.proximity && KeysAfter(t.events) == AllUp
  {
    hide ReleaseInput;
    ReleaseFacts(if s.irq then s.(irq := false, irqs := s.irqs - 1) else s);
  }

  // ---------- the driver ----------

  class Driver {
    const cfg: Config
    var supplyEnabled: bool
    var irqEnabled: bool
    var penProximity: bool
    var open: bool

    // what the callbacks did
    var events: seq<Event>
    var uses: int
    var irqs: int
    var inReset: bool

    function Model(): State
      reads this
    {
      State(cfg, supplyEnabled, irqEnabled, penProximity, open, events, uses, irqs, inReset)
    }

    constructor (cfg: Config)
      ensures Model() == Attached(cfg)
    {
      this.cfg := cfg;
      supplyEnabled, irqEnabled, penProximity, open := false, false, false, false;
      events, uses, irqs, inReset := [], 0, 0, true;
    }

    method Tell(e: Event)
      modifies this`events
      ensures events == Emit(old(events), e)
    {
      events := events + [e];
    }

    method Release()
      modifies this`events, this`penProximity
      ensures Model() == ReleaseInput(old(Model()))
    {
      hide Emit;
      if !penProximity {
        return;
      }
      Tell(Pressure(0));
      if cfg.format.hasDistance {
        Tell(Distance(255));
      }
      Tell(Key(Stylus, false));
      Tell(Key(Touch, false));
      Tell(Key(ToolPen, false));
      Tell(Key(ToolRubber, false));
      Tell(Sync);
      penProximity := false;
    }

    method Send(r: Report)
      modifies this`events, this`penProximity
      ensures Model() == ReportInput(old(Model()), r)
    {
      hide Emit, ReleaseInput;
      if !r.proximity {
        Release();
        return;
      }
      penProximity := true;
      Tell(Position(r.x, r.y));
      Tell(Pressure(r.pressure));
      if cfg.format.hasDistance {
        Tell(Distance(r.distance));
      }
      Tell(Key(Stylus, r.sideButton));
      Tell(Key(Touch, r.touch));
      Tell(Key(ToolPen, !r.rubber));
      Tell(Key(ToolRubber, r.rubber));
      Tell(Sync);
    }

    method PowerOnTransition(enable: int) returns (error: int)
      modifies this
      ensures Model() == PowerOn(old(Model()), enable)
      ensures error == PowerOnResult(old(Model()), enable)
    {
      if !supplyEnabled {
        if enable != 0 {
          return enable;
        }
        uses := uses + 1;
        supplyEnabled := true;
      }
      inReset := false;
      if !irqEnabled {
        irqs := irqs + 1;
        irqEnabled := true;
      }
      error := 0;
    }

    method SwitchSupplyOff(disable: int) returns (error: int)
      modifies this
      ensures Model() == SupplyOff(old(Model()), disable)
      ensures error == if old(supplyEnabled) then disable else 0
    {
      if !supplyEnabled {
        return 0;
      }
      if disable != 0 {
        return disable;
      }
      uses := uses - 1;
      supplyEnabled := false;
      error := 0;
    }

    method PowerOffTransition(disable: int, restore: bool) returns (error: int)
      modifies this
      ensures Model() == PowerOff(old(Model()), disable, restore)
      ensures error == if old(supplyEnabled) then disable else 0
    {
      hide ReleaseInput;
      ReleaseLeavesPower(Model().(irq := false, irqs := irqs - if irqEnabled then 1 else 0));
      if irqEnabled {
        irqs := irqs - 1;
        irqEnabled := false;
      }
      Release();
      inReset := true;
      if !supplyEnabled {
        return 0;
      }
      error := SwitchSupplyOff(disable);
      if error != 0 {
        if restore {
          inReset := false;
          if !irqEnabled {
            irqs := irqs + 1;
            irqEnabled := true;
          }
        }
      }
    }

    /** Open and close, as the input core calls them: open only when closed, close only when open. */
    method OpenDevice(enable: int) returns (error: int)
      requires !open
      modifies this
      ensures Model() == Step(old(Model()), Open(enable))
      ensures error == PowerOnResult(old(Model()), enable)
    {
      hide IrqOn;
      error := PowerOnTransition(enable);
      open := error == 0;
    }

    method CloseDevice(disable: int)
      requires open
      modifies this
      ensures Model() == Step(old(Model()), Close(disable))
    {
      hide PowerOff;
      var _ := PowerOffTransition(disable, false);
      open := false;
    }

    method SuspendDevice(disable: int) returns (error: int)
      modifies this
      ensures Model() == Step(old(Model()), Suspend(disable))
    {
      hide PowerOff;
      if open {
        error := PowerOffTransition(disable, true);
        return;
      }
      if supplyEnabled {
        error := PowerOffTransition(disable, false);
        return;
      }
      error := 0;
    }

    method ResumeDevice(enable: int) returns (error: int)
      modifies this
      ensures Model() == Step(old(Model()), Resume(enable))
    {
      hide PowerOn, PowerOnResult;
      if open {
        error := PowerOnTransition(enable);
        return;
      }
      error := 0;
    }

    method HandleIrq(data: seq<byte>)
      modifies this
      ensures Model() == OnPacket(old(Model()), data)
    {
      hide ReportInput, Parse;
      if irqEnabled {
        var p := Parse(data, cfg.format, cfg.limits);
        if p.Packet? {
          Send(p.report);
        }
      }
    }
  }

  lemma ReleaseLeavesPower(s: State)
    ensures var t := ReleaseInput(s); t == s.(events := t.events, proximity := t.proximity)
  {
    hide Emit;
  }
}
