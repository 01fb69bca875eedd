/**
  The SM5705 charger driver: charge limits under the temperature guard, the
  operating mode, the torch, USB OTG, and the charger's side of holding VBUS at
  5 V together with the MUIC driver.

  Each function here is one critical section of the charger's lock; the call into
  the MUIC driver nests that driver's lock. Register writes do not fail; what is
  read (VBUS good, extcon states, the Type-C supplier) is an input, so the extcon
  states may be stale.
*/
module Charger {
  import opened TempGuard
  import M = Muic

  const EINVAL := 22
  const EBUSY := 16
  const ENODEV := 19

  const CHG_OFF := 4
  const CHG_ON := 5
  const FLASH_BOOST := 6
  const USB_OTG := 7
  const BSTOUT_OTG := 0xb
  const OTG_CURRENT_1500MA := 3

  const SDP_INPUT_UA := 500000
  const CDP_INPUT_UA := 1500000
  const DCP_INPUT_UA := 1800000
  const FAST_INPUT_UA := 1650000
  const TYPEC_INPUT_UA := 3000000
  const HV_MIN_UV := 5500000
  const FAST_CHARGE_UA := 2700000
  const DEFAULT_CHARGE_UA := 2000000
  const FAST_SOURCE_MW := 14000
  const WARM_VOLTAGE_UV := 4100000
  const WARM_CURRENT_UA := 1350000
  const COOL_CURRENT_UA := 900000
  const BATREG_MIN_UV := 4010000
  const BATREG_MAX_UV := 4620000

  datatype UsbType = Unknown | Sdp | Dcp | Cdp | TypeC | Pd

  /** Whether the charger has a MUIC node, and whether that device's driver is bound. */
  datatype Link = NoNode | Unbound | Bound

  /** What never changes after probe, apart from the link. A battery limit of 0 or less is none. */
  datatype Config = Config(batV: int, batI: int, batTerm: int, tempMin: int, tempMax: int, bstout: nat, link: Link)

  datatype Regs = Regs(mode: nat, fastchg: nat, batreg: nat, vbusLimit: nat, topoff: nat,
                       boost: nat, otgCurrent: nat, led: bool, torchLevel: nat)

  datatype State = State(
    cfg: Config, regs: Regs, usbType: UsbType, fast: bool, hv: bool, usbC: bool, hold: bool,
    torchOn: bool, otgOn: bool, zone: Zone, cfgV: int, cfgI: int)

  /** The charger and the MUIC it is linked to. */
  datatype System = System(chg: State, muic: M.State)

  function Min(a: int, b: int): int { if a < b then a else b }

  // ---------- charge limits ----------

  function DecodeI(val: nat): int { 100000 + val * 50000 }

  function DecodeV(val: nat): int {
    if val == 0 then 3800000 else if val == 1 then 4000000 else BATREG_MIN_UV + (val - 2) * 10000
  }

  predicate AcceptsI(cfg: Config, ua: int) { !(cfg.batI > 0 && ua > cfg.batI) && ua >= 200000 }

  predicate AcceptsV(cfg: Config, uv: int) {
    !(cfg.batV > 0 && uv > cfg.batV) && BATREG_MIN_UV <= uv <= BATREG_MAX_UV
  }

  /** A rejected value leaves the register as it was. */
  function SetI(cfg: Config, r: Regs, ua: int): Regs {
    if AcceptsI(cfg, ua) then r.(fastchg := Min((ua - 100000) / 50000, 0x3f)) else r
  }

  function SetV(cfg: Config, r: Regs, uv: int): Regs {
    if AcceptsV(cfg, uv) then r.(batreg := (uv - BATREG_MIN_UV) / 10000 + 2) else r
  }

  predicate Charging(zone: Zone) { zone != Hot && zone != Cold }

  function TargetI(s: State): int {
    var ua := if s.fast then FAST_CHARGE_UA else s.cfgI;
    if s.zone == Warm then Min(ua, WARM_CURRENT_UA) else if s.zone == Cool then Min(ua, COOL_CURRENT_UA) else ua
  }

  function TargetV(s: State): int {
    if s.zone == Warm then Min(s.cfgV, WARM_VOLTAGE_UV) else s.cfgV
  }

  predicate Drivable(mode: nat) { CHG_OFF <= mode <= USB_OTG }

  /** The operating mode the driver wants. */
  function Mode(s: State, vbusOk: bool): nat {
    if s.otgOn then USB_OTG
    else if s.torchOn && (!Charging(s.zone) || !vbusOk) then FLASH_BOOST
    else if Charging(s.zone) then CHG_ON else CHG_OFF
  }

  function Limits(s: State): Regs { SetI(s.cfg, SetV(s.cfg, s.regs, TargetV(s)), TargetI(s)) }

  /** Writes the limits of the zone and picks the mode; another mode than the driver's stays. */
  function ApplyZone(s: State, vbusOk: bool): State {
    var r := Limits(s);
    s.(regs := if Drivable(r.mode) then r.(mode := Mode(s, vbusOk)) else r)
  }

  function SetCurrent(s: State, ua: int, vbusOk: bool): State {
    if AcceptsI(s.cfg, ua) then ApplyZone(s.(regs := SetI(s.cfg, s.regs, ua), cfgI := ua), vbusOk) else s
  }

  function SetVoltage(s: State, uv: int, vbusOk: bool): State {
    if AcceptsV(s.cfg, uv) then ApplyZone(s.(regs := SetV(s.cfg, s.regs, uv), cfgV := uv), vbusOk) else s
  }

  function SetInputLimit(r: Regs, ua: int): Regs {
    if ua < 100000 then r else r.(vbusLimit := Min((ua - 100000) / 25000, 0x7f))
  }

  function SetTerm(r: Regs, ua: int): Regs {
    if ua < 100000 then r else r.(topoff := Min((ua - 100000) / 25000, 0xf))
  }

  /** A temperature reading; the limits change only with the zone. */
  function Temperature(s: State, temp: int, vbusOk: bool): State {
    var zone := NextZone(s.zone, s.cfg.tempMin, s.cfg.tempMax, temp);
    if zone == s.zone then s else ApplyZone(s.(zone := zone), vbusOk)
  }

  // ---------- USB OTG ----------

  function OtgEnable(s: State, vbusOk: bool): State {
    var s' := s.(regs := s.regs.(otgCurrent := OTG_CURRENT_1500MA, boost := BSTOUT_OTG), otgOn := true);
    if Drivable(s.regs.mode) then ApplyZone(s', vbusOk)
    else s'.(otgOn := false, regs := Limits(s').(boost := s.cfg.bstout))
  }

  function OtgOff(s: State, vbusOk: bool): State {
    var s' := ApplyZone(s.(otgOn := false), vbusOk);
    if Drivable(s.regs.mode) then s'.(regs := s'.regs.(boost := s.cfg.bstout)) else s'
  }

  function OtgFail(s: State, vbusOk: bool): State {
    if s.otgOn then OtgOff(s, vbusOk) else s
  }

  function Shutdown(s: State, vbusOk: bool): State {
    OtgFail(s.(regs := s.regs.(led := false)), vbusOk)
  }

  // ---------- holding VBUS at 5 V ----------

  function CallHold(y: System, hold: bool, p: M.Polls): System {
    if y.chg.cfg.link == NoNode || hold == y.chg.hold then y
    else System(y.chg.(hold := hold), if y.chg.cfg.link == Bound then M.Hold(y.muic, hold, p) else y.muic)
  }

  function HoldResult(y: System, hold: bool, p: M.Polls): int {
    if y.chg.cfg.link == NoNode || hold == y.chg.hold then 0
    else if y.chg.cfg.link == Bound then M.HoldResult(y.muic, hold, p)
    else -ENODEV
  }

  /** The LED on, at a brightness of 10 mA steps. */
  function Lit(s: State, brightness: nat): State
    requires brightness > 0
  {
    s.(regs := s.regs.(torchLevel := (brightness - 1) % 32, led := true), torchOn := true)
  }

  /** The LED off when 9 V is on VBUS. */
  function Guarded(s: State): State {
    if s.hv && s.torchOn then s.(regs := s.regs.(led := false), torchOn := false) else s
  }

  /** The torch: brightness 0 is off; it is refused while 9 V may be on VBUS. */
  function Torch(y: System, brightness: nat, p: M.Polls, vbusOk: bool): System {
    if brightness == 0 then
      var s := ApplyZone(y.chg.(regs := y.chg.regs.(led := false), torchOn := false), vbusOk);
      CallHold(System(s, y.muic), s.usbC, p)
    else
      var y' := CallHold(y, true, p);
      var s := if HoldResult(y, true, p) == 0 then y'.chg.(hv := false) else y'.chg;
      if s.hv then System(s, y'.muic)
      else
        System(ApplyZone(Lit(s, brightness), vbusOk), y'.muic)
  }

  function TorchResult(y: System, brightness: nat, p: M.Polls): int {
    if brightness > 0 && y.chg.hv && HoldResult(y, true, p) != 0 then -EBUSY else 0
  }

  // ---------- cable changes ----------

  /** What the Type-C controller says it supplies. */
  datatype Supplier = Absent | Present(uv: nat, ua: nat, kind: UsbType)

  /** The extcon states, read before the lock is taken, and the supplier. */
  datatype Cable = Cable(fast: bool, dcp: bool, cdp: bool, sdp: bool, supplier: Supplier)

  datatype Source = Source(kind: UsbType, limit: int, fast: bool, hv: bool)

  function LegacySource(c: Cable): Source {
    if c.fast then Source(Dcp, FAST_INPUT_UA, true, true)
    else if c.dcp then Source(Dcp, DCP_INPUT_UA, false, false)
    else if c.cdp then Source(Cdp, CDP_INPUT_UA, false, false)
    else if c.sdp then Source(Sdp, SDP_INPUT_UA, false, false)
    else Source(Unknown, 0, false, false)
  }

  function TypeCSource(uv: nat, ua: nat, kind: UsbType): Source {
    var limit := Min(ua, if uv > HV_MIN_UV then FAST_INPUT_UA else TYPEC_INPUT_UA);
    Source(kind, limit, (uv / 1000) * (limit / 1000) / 1000 >= FAST_SOURCE_MW, uv > HV_MIN_UV)
  }

  function SourceOf(c: Cable): Source {
    var legacy := LegacySource(c);
    if c.supplier.Absent? then legacy
    else
      var typec := TypeCSource(c.supplier.uv, c.supplier.ua, c.supplier.kind);
      if typec.limit > legacy.limit || typec.hv then typec else legacy
  }

  predicate IsUsbC(c: Cable) {
    c.supplier.Present? && (c.supplier.kind == Pd || c.supplier.ua > SDP_INPUT_UA)
  }

  /** The locked part of a cable change, after the input limit is set. */
  function CableLocked(y: System, src: Source, usbC: bool, p: M.Polls, vbusOk: bool): System {
    var y' := CallHold(y.(chg := y.chg.(usbC := usbC)), usbC || y.chg.torchOn, p);
    var s := y'.chg.(hv := src.hv, fast := src.fast);
    System(ApplyZone(Guarded(s), vbusOk), y'.muic)
  }

  function CableWork(y: System, c: Cable, p: M.Polls, vbusOk: bool): System {
    var src := SourceOf(c);
    var r := if src.limit != 0 then SetInputLimit(y.chg.regs, src.limit) else y.chg.regs;
    CableLocked(y.(chg := y.chg.(regs := r, usbType := src.kind)), src, IsUsbC(c), p, vbusOk)
  }

  // ---------- probe ----------

  /** Brings the limits to the battery's; None when the battery node's values are rejected. */
  datatype Probed = Failed | Ready(s: State)

  function Probe(cfg: Config, r: Regs, vbusOk: bool): Probed {
    if cfg.batV > 0 && !AcceptsV(cfg, cfg.batV) then Failed
    else if cfg.batI > 0 && !AcceptsI(cfg, cfg.batI) then Failed
    else if 0 < cfg.batTerm < 100000 then Failed
    else
      var r1 := if cfg.batV > 0 then SetV(cfg, r, cfg.batV) else r;
      var r2 := SetI(cfg, r1, if cfg.batI > 0 then cfg.batI else DEFAULT_CHARGE_UA);
      var r3 := if cfg.batTerm > 0 then SetTerm(r2, cfg.batTerm) else r2;
      var s := State(cfg.(bstout := r.boost), r3, Unknown, false, false, false, false, false, false, Normal,
                     DecodeV(r3.batreg), DecodeI(r3.fastchg));
      Ready(ApplyZone(s, vbusOk).(regs := ApplyZone(s, vbusOk).regs.(led := false)))
  }

  // ---------- invariants ----------

  /** Where the zone's limits are acceptable, the registers hold them, rounded down to a step. */
  predicate LimitsExact(s: State) {
    && (AcceptsI(s.cfg, TargetI(s)) ==> s.regs.fastchg == Min((TargetI(s) - 100000) / 50000, 0x3f))
    && (AcceptsV(s.cfg, TargetV(s)) ==> s.regs.batreg == (TargetV(s) - BATREG_MIN_UV) / 10000 + 2)
  }

  /** The configured limits and the registers are within the battery's limits. */
  predicate LimitsReady(s: State) {
    && s.cfgI >= 200000 && (s.cfg.batI > 0 ==> s.cfgI <= s.cfg.batI && DecodeI(s.regs.fastchg) <= s.cfg.batI)
    && s.cfgV <= BATREG_MAX_UV && (s.cfg.batV > 0 ==> s.cfgV <= s.cfg.batV && DecodeV(s.regs.batreg) <= s.cfg.batV)
    && (s.cfgV < BATREG_MIN_UV ==> DecodeV(s.regs.batreg) == s.cfgV)
  }

  /** The register limits, whatever was accepted or rejected on the way. */
  predicate LimitsKept(s: State) {
    && LimitsReady(s) && LimitsExact(s)
    && (s.zone == Warm ==> DecodeI(s.regs.fastchg) <= WARM_CURRENT_UA)
    && (s.zone == Cool ==> DecodeI(s.regs.fastchg) <= COOL_CURRENT_UA)
    && (s.zone == Warm ==> DecodeV(s.regs.batreg) <= WARM_VOLTAGE_UV)
  }

  /** What holds before the mode is picked: another mode than the driver's means no OTG. */
  predicate Settled(s: State) {
    && (!Drivable(s.regs.mode) ==> !s.otgOn)
    && s.regs.boost == (if s.otgOn then BSTOUT_OTG else s.cfg.bstout)
    && (s.regs.led ==> s.torchOn)
    && !(s.hv && s.torchOn)
  }

  /** The operating mode agrees with the zone, the torch and OTG. */
  predicate ModeKept(s: State) {
    && Settled(s)
    && (s.regs.mode == USB_OTG <==> s.otgOn)
    && (s.regs.mode == CHG_ON ==> Charging(s.zone))
    && (s.regs.mode == CHG_OFF ==> !Charging(s.zone) && !s.torchOn)
    && (s.regs.mode == FLASH_BOOST ==> s.torchOn)
  }

  /** The torch or a USB-C source implies that the charger has asked for the hold. */
  predicate HoldKept(y: System) {
    && M.Inv(y.muic)
    && (y.chg.cfg.link != NoNode && (y.chg.torchOn || y.chg.usbC) ==> y.chg.hold)
  }

  predicate Inv(y: System) {
    LimitsKept(y.chg) && ModeKept(y.chg) && HoldKept(y)
  }

  /** Charger and MUIC agree on the hold. */
  predicate Agreed(y: System) {
    y.chg.cfg.link == Bound ==> y.chg.hold == y.muic.hold
  }

  // ---------- what each operation keeps ----------

  lemma SetIKeeps(cfg: Config, r: Regs, ua: int)
    ensures AcceptsI(cfg, ua) ==> DecodeI(SetI(cfg, r, ua).fastchg) <= ua
    ensures !AcceptsI(cfg, ua) ==> SetI(cfg, r, ua) == r
    ensures var r' := SetI(cfg, r, ua);
            r'.batreg == r.batreg && r'.mode == r.mode && r'.boost == r.boost && r'.led == r.led
  {
  }

  lemma SetVKeeps(cfg: Config, r: Regs, uv: int)
    ensures AcceptsV(cfg, uv) ==> DecodeV(SetV(cfg, r, uv).batreg) <= uv
    ensures !AcceptsV(cfg, uv) ==> SetV(cfg, r, uv) == r
    ensures var r' := SetV(cfg, r, uv);
            r'.fastchg == r.fastchg && r'.mode == r.mode && r'.boost == r.boost && r'.led == r.led
  {
  }

  /** The zone's limits hold after ApplyZone even when a limit was rejected and the old register survives. */
  lemma ApplyKeepsLimits(s: State, vbusOk: bool)
    requires LimitsReady(s)
    ensures LimitsKept(ApplyZone(s, vbusOk))
  {
    hide SetI, SetV, Mode, DecodeI, DecodeV;
    SetVKeeps(s.cfg, s.regs, TargetV(s));
    SetIKeeps(s.cfg, SetV(s.cfg, s.regs, TargetV(s)), TargetI(s));
    ApplyExact(s, vbusOk);
    hide LimitsExact;
  }

  lemma ApplyExact(s: State, vbusOk: bool)
    ensures LimitsExact(ApplyZone(s, vbusOk))
  {
    hide Mode;
  }

  lemma ApplyKeepsMode(s: State, vbusOk: bool)
    requires Settled(s)
    ensures ModeKept(ApplyZone(s, vbusOk))
  {
    hide SetI, SetV;
    SetVKeeps(s.cfg, s.regs, TargetV(s));
    SetIKeeps(s.cfg, SetV(s.cfg, s.regs, TargetV(s)), TargetI(s));
  }

  lemma SetCurrentKeeps(s: State, ua: int, vbusOk: bool)
    requires LimitsKept(s) && ModeKept(s)
    ensures LimitsKept(SetCurrent(s, ua, vbusOk)) && ModeKept(SetCurrent(s, ua, vbusOk))
  {
    hide ApplyZone, SetI, DecodeI, DecodeV;
    if AcceptsI(s.cfg, ua) {
      SetIKeeps(s.cfg, s.regs, ua);
      var s' := s.(regs := SetI(s.cfg, s.regs, ua), cfgI := ua);
      ApplyKeepsLimits(s', vbusOk);
      ApplyKeepsMode(s', vbusOk);
    }
  }

  lemma SetVoltageKeeps(s: State, uv: int, vbusOk: bool)
    requires LimitsKept(s) && ModeKept(s)
    ensures LimitsKept(SetVoltage(s, uv, vbusOk)) && ModeKept(SetVoltage(s, uv, vbusOk))
  {
    hide ApplyZone, SetV, DecodeI, DecodeV;
    if AcceptsV(s.cfg, uv) {
      SetVKeeps(s.cfg, s.regs, uv);
      var s' := s.(regs := SetV(s.cfg, s.regs, uv), cfgV := uv);
      ApplyKeepsLimits(s', vbusOk);
      ApplyKeepsMode(s', vbusOk);
    }
  }

  /** What ApplyZone keeps, and what it leaves alone. */
  lemma ApplyKeeps(s: State, vbusOk: bool)
    requires LimitsReady(s) && Settled(s)
    ensures LimitsKept(ApplyZone(s, vbusOk)) && ModeKept(ApplyZone(s, vbusOk))
    ensures ApplyZone(s, vbusOk) == s.(regs := ApplyZone(s, vbusOk).regs)
  {
    hide LimitsKept, LimitsReady, ModeKept, Settled;
    ApplyKeepsLimits(s, vbusOk);
    ApplyKeepsMode(s, vbusOk);
  }

  lemma TemperatureKeeps(s: State, temp: int, vbusOk: bool)
    requires LimitsKept(s) && ModeKept(s)
    ensures LimitsKept(Temperature(s, temp, vbusOk)) && ModeKept(Temperature(s, temp, vbusOk))
  {
    hide ApplyZone, NextZone, DecodeI, DecodeV;
    var zone := NextZone(s.zone, s.cfg.tempMin, s.cfg.tempMax, temp);
    if zone != s.zone {
      ApplyKeeps(s.(zone := zone), vbusOk);
    }
  }

  /** What the limits depend on. */
  predicate SameLimits(s: State, t: State) {
    && s.cfg == t.cfg && s.zone == t.zone && s.fast == t.fast && s.cfgV == t.cfgV && s.cfgI == t.cfgI
    && s.regs.fastchg == t.regs.fastchg && s.regs.batreg == t.regs.batreg
  }

  lemma SameLimitsKept(s: State, t: State)
    requires SameLimits(s, t)
    ensures LimitsKept(s) == LimitsKept(t) && LimitsReady(s) == LimitsReady(t)
  {
    hide DecodeI, DecodeV;
  }

  lemma LimitsOthers(s: State)
    ensures Limits(s).mode == s.regs.mode && Limits(s).boost == s.regs.boost && Limits(s).led == s.regs.led
  {
  }

  lemma OtgEnableKeeps(s: State, vbusOk: bool)
    requires LimitsKept(s) && ModeKept(s)
    ensures LimitsKept(OtgEnable(s, vbusOk)) && ModeKept(OtgEnable(s, vbusOk))
  {
    hide LimitsKept, LimitsReady, Limits, Mode;
    var s' := s.(regs := s.regs.(otgCurrent := OTG_CURRENT_1500MA, boost := BSTOUT_OTG), otgOn := true);
    KeptIsReady(s);
    SameLimitsKept(s, s');
    if Drivable(s.regs.mode) {
      ApplyKeeps(s', vbusOk);
    } else {
      // a refused enable has written the limits, and takes the rest back
      ApplyKeepsLimits(s', vbusOk);
      LimitsOthers(s');
      SameLimitsKept(ApplyZone(s', vbusOk), OtgEnable(s, vbusOk));
    }
  }

  lemma KeptIsReady(s: State)
    ensures LimitsKept(s) ==> LimitsReady(s)
  {
    hide DecodeI, DecodeV, LimitsExact;
  }

  lemma OtgOffKeeps(s: State, vbusOk: bool)
    requires LimitsKept(s) && ModeKept(s)
    ensures LimitsKept(OtgOff(s, vbusOk)) && ModeKept(OtgOff(s, vbusOk))
  {
    hide LimitsKept, LimitsReady, Limits;
    var t := s.(otgOn := false);
    KeptIsReady(s);
    SameLimitsKept(s, t);
    ApplyKeepsLimits(t, vbusOk);
    SameLimitsKept(ApplyZone(t, vbusOk), OtgOff(s, vbusOk));
    LimitsOthers(t);
  }

  /** Asking for 5 V touches only the hold; both sides then agree on it, if they did or it changes. */
  lemma CallHoldKeeps(y: System, hold: bool, p: M.Polls)
    requires M.Inv(y.muic)
    ensures Agreed(y) || hold != y.chg.hold ==> Agreed(CallHold(y, hold, p))
    ensures var y' := CallHold(y, hold, p);
            M.Inv(y'.muic) &&
            y'.chg == y.chg.(hold := y'.chg.hold) && (y.chg.cfg.link != NoNode ==> y'.chg.hold == hold)
  {
    hide M.Inv, M.Hold;
    M.StepKeepsInv(y.muic, M.Request(hold, p));
    assert M.Step(y.muic, M.Request(hold, p)) == M.Hold(y.muic, hold, p);
  }

  /** The part of the invariant that involves only the charger. */
  predicate ChargerKept(s: State) {
    && LimitsKept(s) && ModeKept(s)
    && (s.cfg.link != NoNode && (s.torchOn || s.usbC) ==> s.hold)
  }

  /** Changes ahead of ApplyZone that leave what the guard relies on. */
  lemma ApplyGives(s: State, t: State, vbusOk: bool)
    requires ChargerKept(s)
    requires t.cfg == s.cfg && t.zone == s.zone && t.cfgV == s.cfgV && t.cfgI == s.cfgI && t.otgOn == s.otgOn
    requires t.regs.mode == s.regs.mode && t.regs.fastchg == s.regs.fastchg && t.regs.batreg == s.regs.batreg
    requires t.regs.boost == s.regs.boost && (t.regs.led ==> t.torchOn) && !(t.hv && t.torchOn)
    ensures LimitsKept(ApplyZone(t, vbusOk)) && ModeKept(ApplyZone(t, vbusOk))
    ensures ApplyZone(t, vbusOk) == t.(regs := ApplyZone(t, vbusOk).regs)
  {
    hide ApplyZone, DecodeI, DecodeV;
    ApplyKeeps(t, vbusOk);
  }

  lemma TorchOffKeeps(y: System, p: M.Polls, vbusOk: bool)
    requires Inv(y)
    ensures Inv(Torch(y, 0, p, vbusOk)) && (Agreed(y) ==> Agreed(Torch(y, 0, p, vbusOk)))
  {
    hide ApplyZone, CallHold, M.Inv, LimitsKept, ModeKept;
    assert ChargerKept(y.chg);
    var s := y.chg.(regs := y.chg.regs.(led := false), torchOn := false);
    ApplyGives(y.chg, s, vbusOk);
    var y' := System(ApplyZone(s, vbusOk), y.muic);
    CallHoldKeeps(y', s.usbC, p);
    HoldOnly(y'.chg, CallHold(y', s.usbC, p).chg.hold);
  }

  /** The limits and the mode do not depend on the hold. */
  lemma HoldOnly(s: State, hold: bool)
    ensures LimitsKept(s.(hold := hold)) == LimitsKept(s) && ModeKept(s.(hold := hold)) == ModeKept(s)
  {
  }

  lemma TorchOnKeeps(y: System, brightness: nat, p: M.Polls, vbusOk: bool)
    requires Inv(y) && brightness > 0
    ensures Inv(Torch(y, brightness, p, vbusOk)) && (Agreed(y) ==> Agreed(Torch(y, brightness, p, vbusOk)))
  {
    hide ApplyZone, CallHold, HoldResult, M.Inv, LimitsKept;
    assert ChargerKept(y.chg);
    var y' := CallHold(y, true, p);
    CallHoldKeeps(y, true, p);
    HoldOnly(y.chg, y'.chg.hold);
    var s := if HoldResult(y, true, p) == 0 then y'.chg.(hv := false) else y'.chg;
    if s.hv {
      assert s == y.chg.(hold := s.hold);
    } else {
      ApplyGives(y.chg, Lit(s, brightness), vbusOk);
    }
  }

  /** The locked part of a cable change, up to ApplyZone. */
  lemma CableGuards(s: State, hold: bool, src: Source, usbC: bool, vbusOk: bool)
    requires ChargerKept(s)
    ensures var t := s.(usbC := usbC, hold := hold, hv := src.hv, fast := src.fast);
            LimitsKept(ApplyZone(Guarded(t), vbusOk)) && ModeKept(ApplyZone(Guarded(t), vbusOk)) &&
            ApplyZone(Guarded(t), vbusOk) == Guarded(t).(regs := ApplyZone(Guarded(t), vbusOk).regs)
  {
    hide ApplyZone, LimitsKept;
    var t := s.(usbC := usbC, hold := hold, hv := src.hv, fast := src.fast);
    ApplyGives(s, Guarded(t), vbusOk);
  }

  lemma GuardedFlags(t: State)
    ensures var u := Guarded(t);
            u.cfg == t.cfg && u.hold == t.hold && u.usbC == t.usbC && (u.torchOn ==> t.torchOn)
  {
  }

  /** The locked part of a cable change, taken apart. */
  lemma CableParts(y: System, src: Source, usbC: bool, p: M.Polls, vbusOk: bool)
    requires M.Inv(y.muic)
    ensures var z := CableLocked(y, src, usbC, p, vbusOk);
            var h := CallHold(y.(chg := y.chg.(usbC := usbC)), usbC || y.chg.torchOn, p);
            var t := y.chg.(usbC := usbC, hold := h.chg.hold, hv := src.hv, fast := src.fast);
            z.chg == ApplyZone(Guarded(t), vbusOk) && z.muic == h.muic && M.Inv(z.muic) &&
            (Agreed(y) && t.cfg.link == Bound ==> t.hold == z.muic.hold) &&
            (t.cfg.link != NoNode ==> t.hold == (usbC || y.chg.torchOn))
  {
    hide ApplyZone, CallHold, Guarded, M.Inv;
    CallHoldKeeps(y.(chg := y.chg.(usbC := usbC)), usbC || y.chg.torchOn, p);
  }

  lemma CableLockedKeeps(y: System, src: Source, usbC: bool, p: M.Polls, vbusOk: bool)
    requires Inv(y)
    ensures Inv(CableLocked(y, src, usbC, p, vbusOk)) && (Agreed(y) ==> Agreed(CableLocked(y, src, usbC, p, vbusOk)))
  {
    hide ApplyZone, CallHold, CableLocked, Guarded, M.Inv, LimitsKept, ModeKept;
    CableParts(y, src, usbC, p, vbusOk);
    var h := CallHold(y.(chg := y.chg.(usbC := usbC)), usbC || y.chg.torchOn, p).chg.hold;
    var t := y.chg.(usbC := usbC, hold := h, hv := src.hv, fast := src.fast);
    CableGuards(y.chg, h, src, usbC, vbusOk);
    GuardedFlags(t);
  }

  lemma InputLimitKeeps(y: System, ua: int, kind: UsbType)
    requires Inv(y)
    ensures Inv(y.(chg := y.chg.(regs := SetInputLimit(y.chg.regs, ua), usbType := kind)))
    ensures Inv(y.(chg := y.chg.(usbType := kind)))
  {
    hide M.Inv, LimitsKept, ModeKept;
    OtherLimitsKeep(y.chg, ua);
    TypeOnly(y.chg, kind);
    TypeOnly(y.chg.(regs := SetInputLimit(y.chg.regs, ua)), kind);
  }

  lemma TypeOnly(s: State, kind: UsbType)
    ensures LimitsKept(s.(usbType := kind)) == LimitsKept(s) && ModeKept(s.(usbType := kind)) == ModeKept(s)
  {
    hide DecodeI, DecodeV;
  }

  lemma CableKeeps(y: System, c: Cable, p: M.Polls, vbusOk: bool)
    requires Inv(y)
    ensures Inv(CableWork(y, c, p, vbusOk)) && (Agreed(y) ==> Agreed(CableWork(y, c, p, vbusOk)))
  {
    hide CableLocked, Inv, SourceOf, IsUsbC, SetInputLimit;
    var src := SourceOf(c);
    InputLimitKeeps(y, src.limit, src.kind);
    var r := if src.limit != 0 then SetInputLimit(y.chg.regs, src.limit) else y.chg.regs;
    assert y.chg.(regs := y.chg.regs, usbType := src.kind) == y.chg.(usbType := src.kind);
    CableLockedKeeps(y.(chg := y.chg.(regs := r, usbType := src.kind)), src, IsUsbC(c), p, vbusOk);
  }

  // ---------- input limits ----------

  /** Above 5.5 V a source is never limited to more than the 9 V setting, below it to 3 A at most. */
  lemma SourceLimits(c: Cable)
    ensures var src := SourceOf(c);
            src.limit <= (if src.hv then FAST_INPUT_UA else TYPEC_INPUT_UA) &&
            (src.limit > 0 ==> SDP_INPUT_UA <= src.limit || c.supplier.Present?)
    ensures c.supplier.Present? && c.supplier.uv > HV_MIN_UV ==>
              SourceOf(c).hv && SourceOf(c).kind == c.supplier.kind && SourceOf(c).limit <= c.supplier.ua
  {
  }

  function DecodeInput(val: nat): int { 100000 + val * 25000 }

  /** A cable change leaves an input limit the source allows, or the old one when nothing usable is attached. */
  lemma CableInputLimit(y: System, c: Cable, p: M.Polls, vbusOk: bool)
    ensures var r := CableWork(y, c, p, vbusOk).chg.regs;
            if SourceOf(c).limit >= 100000 then DecodeInput(r.vbusLimit) <= SourceOf(c).limit
            else r.vbusLimit == y.chg.regs.vbusLimit
  {
    hide SourceOf, IsUsbC, M.Hold, Mode, TargetI, TargetV;
  }

  // ---------- runs ----------

  datatype Event =
    | Irq(irq: M.Irq)
    | CableChange(cable: Cable, polls: M.Polls, vbusOk: bool)
    | TorchSet(brightness: nat, polls: M.Polls, vbusOk: bool)
    | WriteCurrent(ua: int, vbusOk: bool)
    | WriteVoltage(uv: int, vbusOk: bool)
    | WriteInputLimit(ua: int)
    | WriteTermCurrent(ua: int)
    | TempReading(temp: int, vbusOk: bool)
    | OtgOn(vbusOk: bool)
    | OtgRelease(vbusOk: bool)
    | OtgOvercurrent(vbusOk: bool)
    | PowerDown(vbusOk: bool)
    | MuicUnbinds
    | MuicBinds(muic: M.State)

  /** The MUIC's driver bound or unbound while the charger's goes on; a bound one starts afresh. */
  function Relink(y: System, link: Link, m: M.State): System {
    System(y.chg.(cfg := y.chg.cfg.(link := link)), m)
  }

  function Step(y: System, e: Event): System {
    match e
    case MuicUnbinds => if y.chg.cfg.link == Bound then Relink(y, Unbound, y.muic) else y
    case MuicBinds(m) => if y.chg.cfg.link == Unbound && M.Initial(m) then Relink(y, Bound, m) else y
    case Irq(i) => y.(muic := M.OnIrq(y.muic, i))
    case CableChange(c, p, vbusOk) => CableWork(y, c, p, vbusOk)
    case TorchSet(b, p, vbusOk) => Torch(y, b, p, vbusOk)
    case _ => y.(chg := ChargerOnly(y.chg, e))
  }

  /** The operations that involve no MUIC. */
  function ChargerOnly(s: State, e: Event): State {
    match e
    case WriteCurrent(ua, vbusOk) => SetCurrent(s, ua, vbusOk)
    case WriteVoltage(uv, vbusOk) => SetVoltage(s, uv, vbusOk)
    case WriteInputLimit(ua) => s.(regs := SetInputLimit(s.regs, ua))
    case WriteTermCurrent(ua) => s.(regs := SetTerm(s.regs, ua))
    case TempReading(temp, vbusOk) => Temperature(s, temp, vbusOk)
    case OtgOn(vbusOk) => OtgEnable(s, vbusOk)
    case OtgRelease(vbusOk) => OtgOff(s, vbusOk)
    case OtgOvercurrent(vbusOk) => OtgFail(s, vbusOk)
    case PowerDown(vbusOk) => Shutdown(s, vbusOk)
    case _ => s
  }

  function Run(y: System, es: seq<Event>): System {
    if es == [] then y else Step(Run(y, es[..|es| - 1]), es[|es| - 1])
  }

  predicate SameFlags(s: State, t: State) {
    s.cfg == t.cfg && s.hold == t.hold && s.torchOn == t.torchOn && s.usbC == t.usbC && s.hv == t.hv
  }

  lemma ChargerOnlyFlags(s: State, e: Event)
    ensures SameFlags(s, ChargerOnly(s, e))
  {
    hide ApplyZone, SetCurrent, SetVoltage, Temperature, OtgEnable, OtgOff, SetInputLimit, SetTerm;
    match e
    case WriteCurrent(ua, vbusOk) => LimitFlags(s, ua, vbusOk);
    case WriteVoltage(uv, vbusOk) => LimitFlags(s, uv, vbusOk);
    case TempReading(temp, vbusOk) => TempFlags(s, temp, vbusOk);
    case OtgOn(vbusOk) => OtgFlags(s, vbusOk);
    case OtgRelease(vbusOk) => OtgFlags(s, vbusOk);
    case OtgOvercurrent(vbusOk) => OtgFlags(s, vbusOk);
    case PowerDown(vbusOk) => OtgFlags(s.(regs := s.regs.(led := false)), vbusOk);
    case _ =>
  }

  lemma LimitFlags(s: State, x: int, vbusOk: bool)
    ensures SameFlags(s, SetCurrent(s, x, vbusOk)) && SameFlags(s, SetVoltage(s, x, vbusOk))
  {
    hide ApplyZone, SetI, SetV, AcceptsI, AcceptsV;
    ApplyFlags(vbusOk);
  }

  lemma TempFlags(s: State, temp: int, vbusOk: bool)
    ensures SameFlags(s, Temperature(s, temp, vbusOk))
  {
    hide ApplyZone, NextZone;
    ApplyFlags(vbusOk);
  }

  lemma OtgFlags(s: State, vbusOk: bool)
    ensures SameFlags(s, OtgEnable(s, vbusOk)) && SameFlags(s, OtgOff(s, vbusOk))
  {
    hide ApplyZone, Limits;
    ApplyFlags(vbusOk);
  }

  lemma ApplyFlags(vbusOk: bool)
    ensures forall s :: SameFlags(s, ApplyZone(s, vbusOk))
  {
    hide Limits, Mode;
  }

  lemma ChargerOnlyKeeps(s: State, e: Event)
    requires LimitsKept(s) && ModeKept(s)
    ensures LimitsKept(ChargerOnly(s, e)) && ModeKept(ChargerOnly(s, e))
  {
    hide LimitsKept, ModeKept, ApplyZone, SetCurrent, SetVoltage, Temperature;
    hide OtgEnable, OtgOff, Shutdown, SetInputLimit, SetTerm;
    match e
    case WriteCurrent(ua, vbusOk) => SetCurrentKeeps(s, ua, vbusOk);
    case WriteVoltage(uv, vbusOk) => SetVoltageKeeps(s, uv, vbusOk);
    case WriteInputLimit(ua) => OtherLimitsKeep(s, ua);
    case WriteTermCurrent(ua) => OtherLimitsKeep(s, ua);
    case TempReading(temp, vbusOk) => TemperatureKeeps(s, temp, vbusOk);
    case OtgOn(vbusOk) => OtgEnableKeeps(s, vbusOk);
    case OtgRelease(vbusOk) => OtgOffKeeps(s, vbusOk);
    case OtgOvercurrent(vbusOk) => OtgOffKeeps(s, vbusOk);
    case PowerDown(vbusOk) => PowerDownKeeps(s, vbusOk);
    case _ =>
  }

  lemma OtherLimitsKeep(s: State, ua: int)
    requires LimitsKept(s) && ModeKept(s)
    ensures LimitsKept(s.(regs := SetInputLimit(s.regs, ua))) && ModeKept(s.(regs := SetInputLimit(s.regs, ua)))
    ensures LimitsKept(s.(regs := SetTerm(s.regs, ua))) && ModeKept(s.(regs := SetTerm(s.regs, ua)))
  {
    hide DecodeI, DecodeV;
  }

  lemma PowerDownKeeps(s: State, vbusOk: bool)
    requires LimitsKept(s) && ModeKept(s)
    ensures LimitsKept(Shutdown(s, vbusOk)) && ModeKept(Shutdown(s, vbusOk))
  {
    hide OtgOff;
    OtgOffKeeps(s.(regs := s.regs.(led := false)), vbusOk);
  }

  lemma IrqKeeps(y: System, i: M.Irq)
    requires Inv(y)
    ensures Inv(y.(muic := M.OnIrq(y.muic, i))) && (Agreed(y) ==> Agreed(y.(muic := M.OnIrq(y.muic, i))))
  {
    hide M.OnIrq, M.Inv, LimitsKept, ModeKept;
    M.StepKeepsInv(y.muic, M.Interrupt(i));
    assert M.Step(y.muic, M.Interrupt(i)) == M.OnIrq(y.muic, i);
  }

  /** The MUIC's driver is bound while the charger believes in a hold it has asked an earlier one for. */
  predicate StaleBind(y: System, e: Event) {
    e.MuicBinds? && y.chg.cfg.link == Unbound && M.Initial(e.muic) && y.chg.hold
  }

  lemma RelinkKeeps(y: System, link: Link, m: M.State)
    requires Inv(y) && M.Inv(m) && y.chg.cfg.link != NoNode
    ensures Inv(Relink(y, link, m))
  {
    hide M.Inv;
    LinkOnly(y.chg, link);
    hide LimitsKept, ModeKept;
  }

  lemma LinkOnly(s: State, link: Link)
    ensures LimitsKept(s.(cfg := s.cfg.(link := link))) == LimitsKept(s)
    ensures ModeKept(s.(cfg := s.cfg.(link := link))) == ModeKept(s)
  {
    hide DecodeI, DecodeV;
  }

  /** Every operation keeps the invariant; the agreement is lost exactly by a stale bind. */
  lemma StepKeepsInv(y: System, e: Event)
    requires Inv(y)
    ensures Inv(Step(y, e)) && (Agreed(y) ==> (Agreed(Step(y, e)) <==> !StaleBind(y, e)))
  {
    hide LimitsKept, ModeKept, Torch, CableWork, ChargerOnly, M.Inv, M.OnIrq;
    match e
    case Irq(i) => IrqKeeps(y, i);
    case CableChange(c, p, vbusOk) => CableKeeps(y, c, p, vbusOk);
    case TorchSet(b, p, vbusOk) =>
      if b == 0 {
        TorchOffKeeps(y, p, vbusOk);
      } else {
        TorchOnKeeps(y, b, p, vbusOk);
      }
    case MuicUnbinds =>
      if y.chg.cfg.link == Bound {
        RelinkKeeps(y, Unbound, y.muic);
      }
    case MuicBinds(m) =>
      if y.chg.cfg.link == Unbound && M.Initial(m) {
        FreshInv(m);
        RelinkKeeps(y, Bound, m);
      }
    case _ =>
      ChargerOnlyKeeps(y.chg, e);
      ChargerOnlyFlags(y.chg, e);
  }

  lemma FreshInv(m: M.State)
    requires M.Initial(m)
    ensures M.Inv(m)
  {
  }

  /** A system right after a successful probe of the charger, with the MUIC already running. */
  predicate Initial(y: System, cfg: Config, r: Regs) {
    exists vbusOk :: Probe(cfg, r, vbusOk) == Ready(y.chg) && M.Inv(y.muic) && !y.muic.hold
  }

  lemma ProbeGivesInv(y: System, cfg: Config, r: Regs)
    requires Initial(y, cfg, r) && r.fastchg < 64 && r.batreg < 64
    ensures Inv(y) && Agreed(y)
  {
    hide M.Inv, ApplyZone, SetTerm, DecodeI, DecodeV, LimitsKept, LimitsReady;
    var vbusOk :| Probe(cfg, r, vbusOk) == Ready(y.chg);
    var r1 := if cfg.batV > 0 then SetV(cfg, r, cfg.batV) else r;
    var r2 := SetI(cfg, r1, if cfg.batI > 0 then cfg.batI else DEFAULT_CHARGE_UA);
    var r3 := if cfg.batTerm > 0 then SetTerm(r2, cfg.batTerm) else r2;
    var s := State(cfg.(bstout := r.boost), r3, Unknown, false, false, false, false, false, false, Normal,
                   DecodeV(r3.batreg), DecodeI(r3.fastchg));
    ProbeLimits(cfg, r, r1, r2, r3, s);
    ApplyKeeps(s.(regs := r3.(led := false)), vbusOk);
    LedOnly(s, vbusOk);
  }

  /** The LED bit takes no part in ApplyZone. */
  lemma LedOnly(s: State, vbusOk: bool)
    ensures ApplyZone(s.(regs := s.regs.(led := false)), vbusOk) ==
            ApplyZone(s, vbusOk).(regs := ApplyZone(s, vbusOk).regs.(led := false))
  {
  }

  lemma ProbeLimits(cfg: Config, r: Regs, r1: Regs, r2: Regs, r3: Regs, s: State)
    requires r.fastchg < 64 && r.batreg < 64
    requires (cfg.batV > 0 ==> AcceptsV(cfg, cfg.batV)) && (cfg.batI > 0 ==> AcceptsI(cfg, cfg.batI))
    requires r1 == if cfg.batV > 0 then SetV(cfg, r, cfg.batV) else r
    requires r2 == SetI(cfg, r1, if cfg.batI > 0 then cfg.batI else DEFAULT_CHARGE_UA)
    requires r3 == if cfg.batTerm > 0 then SetTerm(r2, cfg.batTerm) else r2
    requires s.cfg == cfg.(bstout := r.boost) && s.regs == r3
    requires s.cfgV == DecodeV(r3.batreg) && s.cfgI == DecodeI(r3.fastchg)
    ensures LimitsReady(s.(regs := r3.(led := false))) && r3.boost == r.boost
  {
    SetVKeeps(cfg, r, cfg.batV);
    SetIKeeps(cfg, r1, if cfg.batI > 0 then cfg.batI else DEFAULT_CHARGE_UA);
  }

  /** No stale bind in the run. */
  predicate NoStaleBind(y: System, es: seq<Event>) {
    forall k :: 0 <= k < |es| ==> !StaleBind(Run(y, es[..k]), es[k])
  }

  /**
    After every run: limits, mode, boost voltage, LED, and a hold asked for while
    the torch is on or a USB-C source attached. Both drivers agree on the hold at
    every moment exactly if no bind is stale.
  */
  lemma {:induction false} RunKeepsInv(y: System, cfg: Config, r: Regs, es: seq<Event>)
    requires Initial(y, cfg, r) && r.fastchg < 64 && r.batreg < 64
    ensures Inv(Run(y, es))
    ensures (forall k :: 0 <= k <= |es| ==> Agreed(Run(y, es[..k]))) <==> NoStaleBind(y, es)
  {
    hide Inv, Agreed, Step, Initial, StaleBind;
    if es == [] {
      assert es[..0] == es;
      ProbeGivesInv(y, cfg, r);
    } else {
      var n := |es| - 1;
      assert es[..n][..n] == es[..n];
      RunKeepsInv(y, cfg, r, es[..n]);
      StepKeepsInv(Run(y, es[..n]), es[n]);
      StalePrefix(y, es);
      AgreedPrefix(y, es);
      hide NoStaleBind;
    }
  }

  lemma StalePrefix(y: System, es: seq<Event>)
    requires es != []
    ensures var n := |es| - 1;
            NoStaleBind(y, es) <==> NoStaleBind(y, es[..n]) && !StaleBind(Run(y, es[..n]), es[n])
  {
    hide Run, StaleBind;
    assert forall k :: 0 <= k < |es| ==> es[..|es| - 1][..k] == es[..k];
  }

  lemma AgreedPrefix(y: System, es: seq<Event>)
    requires es != []
    ensures var n := |es| - 1;
            (forall k :: 0 <= k <= |es| ==> Agreed(Run(y, es[..k]))) <==>
            (forall k :: 0 <= k <= n ==> Agreed(Run(y, es[..n][..k]))) && Agreed(Run(y, es))
  {
    hide Run, Agreed;
    var n := |es| - 1;
    assert es[..|es|] == es && forall k :: 0 <= k <= n ==> es[..n][..k] == es[..k];
  }

  /**
    After every run with AFC on, the MUIC bound and no stale bind: while the torch
    is on or a USB-C source is attached, no 9 V request is pending, none has been
    granted, and no 9 V charger is reported.
  */
  lemma TorchMeansFiveVolts(y: System, cfg: Config, r: Regs, es: seq<Event>)
    requires Initial(y, cfg, r) && r.fastchg < 64 && r.batreg < 64
    ensures var z := Run(y, es);
            NoStaleBind(y, es) && z.chg.cfg.link == Bound && z.muic.afc && (z.chg.torchOn || z.chg.usbC) ==>
              z.muic.hold && M.Quiet(z.muic) && !z.muic.cable.fast
  {
    hide LimitsKept, ModeKept, Initial, NoStaleBind, Run;
    RunKeepsInv(y, cfg, r, es);
    assert es[..|es|] == es;
  }

  /**
    After a stale bind 9 V does come on with the torch lit: the torch is lit, the
    MUIC's driver unbound and bound again, and a charger answers and is measured.
  */
  lemma ReboundGrants(y: System, cfg: Config, r: Regs, p: M.Polls, m: M.State, vbusOk: bool)
    requires Initial(y, cfg, r) && cfg.link == Bound && M.Initial(m) && m.afc
    ensures var es := [TorchSet(1, p, vbusOk), MuicUnbinds, MuicBinds(m), Irq(ChargerAtNine())];
            var z := Run(y, es);
            StaleBind(Run(y, es[..2]), es[2]) && z.chg.cfg.link == Bound && z.muic.afc &&
            z.chg.torchOn && z.muic.afc9v && z.muic.cable.fast
  {
    hide Run, Torch, Initial, M.OnIrq, M.Inv;
    var es := [TorchSet(1, p, vbusOk), MuicUnbinds, MuicBinds(m), Irq(ChargerAtNine())];
    FirstTorch(y, cfg, r, p, vbusOk);
    FreshInv(m);
    GrantedIrq(m, ChargerAtNine());
    RunFour(y, es[0], es[1], es[2], es[3]);
    assert es[..2] == [es[0], es[1]];
    var z := Step(Step(y, es[0]), es[1]);
    assert z.chg.torchOn && z.chg.hold && z.chg.cfg.link == Unbound;
  }

  /** The first torch request after probe is granted, and asks for the hold. */
  lemma FirstTorch(y: System, cfg: Config, r: Regs, p: M.Polls, vbusOk: bool)
    requires Initial(y, cfg, r) && cfg.link == Bound
    ensures var s := Torch(y, 1, p, vbusOk).chg; s.torchOn && s.hold && s.cfg.link == Bound
  {
    hide ApplyZone, Initial, M.Hold, M.HoldResult;
    StartFlags(y, cfg, r);
    ApplyFlags(vbusOk);
  }

  /** An AFC charger that answers and is measured at 9 V in the same interrupt. */
  function ChargerAtNine(): M.Irq {
    M.Irq(true, false, true, false, true, 0, 4, false, 0, M.Reading(true, M.TYPE_DCP, 0))
  }

  lemma RunFour(y: System, a: Event, b: Event, c: Event, d: Event)
    ensures Run(y, [a, b]) == Step(Step(y, a), b)
    ensures Run(y, [a, b, c, d]) == Step(Step(Step(Step(y, a), b), c), d)
  {
    hide Step;
    assert [a, b][..1] == [a] && [a][..0] == [];
    assert Run(y, [a]) == Step(y, a);
    assert [a, b, c, d][..3] == [a, b, c] && [a, b, c][..2] == [a, b];
    assert Run(y, [a, b, c]) == Step(Run(y, [a, b]), c);
  }

  // ---------- the torch has its supply ----------

  /** The zones in which the battery is not charged. */
  predicate NoCharge(zone: Zone) { zone == Hot || zone == Cold }

  /**
    A lit torch has a supply: the OTG boost, the flash boost, or VBUS read good
    while charging. The flash boost runs only where there is no other one.
  */
  predicate Supplied(s: State, vbusOk: bool) {
    && (s.regs.led ==> s.regs.mode == 7 || s.regs.mode == 6 || (s.regs.mode == 5 && vbusOk))
    && (s.regs.mode == 6 ==> !s.otgOn && (NoCharge(s.zone) || !vbusOk))
    && (s.regs.mode == 5 ==> !s.otgOn && !NoCharge(s.zone))
    && (s.regs.mode == 4 ==> !s.otgOn && !s.torchOn && NoCharge(s.zone))
    && 4 <= s.regs.mode <= 7
  }

  lemma ApplySupplies(s: State, vbusOk: bool)
    requires 4 <= s.regs.mode <= 7 && (s.regs.led ==> s.torchOn)
    ensures Supplied(ApplyZone(s, vbusOk), vbusOk)
  {
    LimitsOthers(s);
    hide Limits;
  }

  /** This event of the charger alone writes limits and mode. */
  predicate AppliesOnly(s: State, e: Event) {
    match e
    case WriteCurrent(ua, _) => AcceptsI(s.cfg, ua)
    case WriteVoltage(uv, _) => AcceptsV(s.cfg, uv)
    case TempReading(temp, _) => NextZone(s.zone, s.cfg.tempMin, s.cfg.tempMax, temp) != s.zone
    case OtgOn(_) => true
    case OtgRelease(_) => true
    case OtgOvercurrent(_) => s.otgOn
    case PowerDown(_) => s.otgOn
    case _ => false
  }

  /** This event writes limits and mode, with a reading of VBUS of its own. */
  predicate Applies(y: System, e: Event) {
    match e
    case CableChange(_, _, _) => true
    case TorchSet(b, p, _) => TorchResult(y, b, p) == 0
    case _ => AppliesOnly(y.chg, e)
  }

  function VbusOf(e: Event): bool {
    match e
    case WriteCurrent(_, ok) => ok
    case WriteVoltage(_, ok) => ok
    case TempReading(_, ok) => ok
    case CableChange(_, _, ok) => ok
    case TorchSet(_, _, ok) => ok
    case OtgOn(ok) => ok
    case OtgRelease(ok) => ok
    case OtgOvercurrent(ok) => ok
    case PowerDown(ok) => ok
    case _ => false
  }

  lemma LimitKeepsMode(cfg: Config, r: Regs, x: int)
    ensures SetI(cfg, r, x).mode == r.mode && SetI(cfg, r, x).led == r.led
    ensures SetV(cfg, r, x).mode == r.mode && SetV(cfg, r, x).led == r.led
    ensures SetInputLimit(r, x).mode == r.mode && SetInputLimit(r, x).led == r.led
  {
  }

  /** Supply as the hold sees it: not at all. */
  lemma HoldSupplies(s: State, hold: bool, vbusOk: bool)
    ensures Supplied(s.(hold := hold), vbusOk) == Supplied(s, vbusOk)
  {
  }

  lemma ChargerOnlySupplies(s: State, e: Event)
    requires 4 <= s.regs.mode <= 7 && (s.regs.led ==> s.torchOn) && AppliesOnly(s, e)
    ensures Supplied(ChargerOnly(s, e), VbusOf(e))
  {
    hide Supplied, ApplyZone, SetI, SetV, AcceptsI, AcceptsV, NextZone;
    match e
    case WriteCurrent(ua, ok) =>
      LimitKeepsMode(s.cfg, s.regs, ua);
      ApplySupplies(s.(regs := SetI(s.cfg, s.regs, ua), cfgI := ua), ok);
    case WriteVoltage(uv, ok) =>
      LimitKeepsMode(s.cfg, s.regs, uv);
      ApplySupplies(s.(regs := SetV(s.cfg, s.regs, uv), cfgV := uv), ok);
    case TempReading(temp, ok) =>
      ApplySupplies(s.(zone := NextZone(s.zone, s.cfg.tempMin, s.cfg.tempMax, temp)), ok);
    case OtgOn(ok) =>
      ApplySupplies(s.(regs := s.regs.(otgCurrent := OTG_CURRENT_1500MA, boost := BSTOUT_OTG), otgOn := true), ok);
    case OtgRelease(ok) => OtgOffSupplies(s, ok);
    case OtgOvercurrent(ok) => OtgOffSupplies(s, ok);
    case PowerDown(ok) => OtgOffSupplies(s.(regs := s.regs.(led := false)), ok);
    case _ =>
  }

  lemma OtgOffSupplies(s: State, vbusOk: bool)
    requires 4 <= s.regs.mode <= 7 && (s.regs.led ==> s.torchOn)
    ensures Supplied(OtgOff(s, vbusOk), vbusOk)
  {
    hide ApplyZone;
    ApplySupplies(s.(otgOn := false), vbusOk);
  }

  lemma CableSupplies(y: System, c: Cable, p: M.Polls, vbusOk: bool)
    requires 4 <= y.chg.regs.mode <= 7 && (y.chg.regs.led ==> y.chg.torchOn) && M.Inv(y.muic)
    ensures Supplied(CableWork(y, c, p, vbusOk).chg, vbusOk)
  {
    hide ApplyZone, CallHold, Supplied, M.Inv, SourceOf, IsUsbC;
    var src := SourceOf(c);
    var r := if src.limit != 0 then SetInputLimit(y.chg.regs, src.limit) else y.chg.regs;
    LimitKeepsMode(y.chg.cfg, y.chg.regs, src.limit);
    hide SetInputLimit;
    var y1 := y.(chg := y.chg.(regs := r, usbType := src.kind, usbC := IsUsbC(c)));
    CallHoldKeeps(y1, IsUsbC(c) || y.chg.torchOn, p);
    ApplySupplies(Guarded(CallHold(y1, IsUsbC(c) || y.chg.torchOn, p).chg.(hv := src.hv, fast := src.fast)), vbusOk);
  }

  lemma TorchSupplies(y: System, b: nat, p: M.Polls, vbusOk: bool)
    requires 4 <= y.chg.regs.mode <= 7 && (y.chg.regs.led ==> y.chg.torchOn) && M.Inv(y.muic)
    requires TorchResult(y, b, p) == 0
    ensures Supplied(Torch(y, b, p, vbusOk).chg, vbusOk)
  {
    hide ApplyZone, CallHold, HoldResult, Supplied, M.Inv;
    if b == 0 {
      var s := y.chg.(regs := y.chg.regs.(led := false), torchOn := false);
      ApplySupplies(s, vbusOk);
      var t := System(ApplyZone(s, vbusOk), y.muic);
      CallHoldKeeps(t, t.chg.usbC, p);
      HoldSupplies(t.chg, CallHold(t, t.chg.usbC, p).chg.hold, vbusOk);
      ApplyFlags(vbusOk);
    } else {
      CallHoldKeeps(y, true, p);
      var s := CallHold(y, true, p).chg;
      ApplySupplies(Lit(if HoldResult(y, true, p) == 0 then s.(hv := false) else s, b), vbusOk);
    }
  }

  lemma StepSupplies(y: System, e: Event)
    requires Inv(y) && 4 <= y.chg.regs.mode <= 7 && Applies(y, e)
    ensures Supplied(Step(y, e).chg, VbusOf(e))
  {
    hide Supplied, M.Inv, LimitsKept, ChargerOnly, CableWork, Torch, TorchResult, AppliesOnly;
    match e
    case CableChange(c, p, ok) => CableSupplies(y, c, p, ok);
    case TorchSet(b, p, ok) => TorchSupplies(y, b, p, ok);
    case _ =>
      OnlyCharger(y, e);
      ChargerOnlySupplies(y.chg, e);
  }

  lemma OnlyCharger(y: System, e: Event)
    requires AppliesOnly(y.chg, e)
    ensures Step(y, e) == y.(chg := ChargerOnly(y.chg, e))
  {
    hide ChargerOnly, AcceptsI, AcceptsV, NextZone;
  }

  /** The mode stays one of the driver's. */
  lemma StepKeepsDrivable(y: System, e: Event)
    requires Inv(y) && 4 <= y.chg.regs.mode <= 7
    ensures 4 <= Step(y, e).chg.regs.mode <= 7
  {
    if Applies(y, e) {
      StepSupplies(y, e);
    } else {
      NotApplied(y, e);
    }
  }

  lemma NotApplied(y: System, e: Event)
    requires !Applies(y, e)
    ensures Step(y, e).chg.regs.mode == y.chg.regs.mode
  {
    hide ApplyZone, M.Hold, M.HoldResult, M.OnIrq, NextZone, AcceptsI, AcceptsV;
    if e.WriteInputLimit? {
      LimitKeepsMode(y.chg.cfg, y.chg.regs, e.ua);
    }
  }

  /**
    After every run from probe in one of the driver's modes, and one more
    operation that applies the zone: a lit torch has its supply.
  */
  lemma {:induction false} RunSupplies(y: System, cfg: Config, r: Regs, es: seq<Event>, e: Event)
    requires Initial(y, cfg, r) && r.fastchg < 64 && r.batreg < 64 && 4 <= r.mode <= 7
    ensures 4 <= Run(y, es).chg.regs.mode <= 7
    ensures Applies(Run(y, es), e) ==> Supplied(Step(Run(y, es), e).chg, VbusOf(e))
  {
    hide Step, Applies, Initial, Inv, Supplied;
    RunKeepsInv(y, cfg, r, es);
    if es == [] {
      StartDrivable(y, cfg, r);
    } else {
      var n := |es| - 1;
      RunSupplies(y, cfg, r, es[..n], e);
      RunKeepsInv(y, cfg, r, es[..n]);
      StepKeepsDrivable(Run(y, es[..n]), es[n]);
    }
    if Applies(Run(y, es), e) {
      StepSupplies(Run(y, es), e);
    }
  }

  lemma StartDrivable(y: System, cfg: Config, r: Regs)
    requires Initial(y, cfg, r) && 4 <= r.mode <= 7
    ensures 4 <= y.chg.regs.mode <= 7
  {
    hide Limits, SetI, SetV, M.Inv;
    var vbusOk :| Probe(cfg, r, vbusOk) == Ready(y.chg);
    var r1 := if cfg.batV > 0 then SetV(cfg, r, cfg.batV) else r;
    LimitKeepsMode(cfg, r, cfg.batV);
    var r2 := SetI(cfg, r1, if cfg.batI > 0 then cfg.batI else DEFAULT_CHARGE_UA);
    LimitKeepsMode(cfg, r1, if cfg.batI > 0 then cfg.batI else DEFAULT_CHARGE_UA);
    var r3 := if cfg.batTerm > 0 then SetTerm(r2, cfg.batTerm) else r2;
    LimitsOthers(State(cfg.(bstout := r.boost), r3, Unknown, false, false, false, false, false, false, Normal,
                       DecodeV(r3.batreg), DecodeI(r3.fastchg)));
  }

  // ---------- what the registers and fields stand for ----------

  /** The register holds the greatest step that is not above x, or the greatest there is. */
  predicate Holds(first: int, step: int, top: int, val: int, x: int) {
    first + step * val <= x && (x < first + step * val + step || val == top)
  }

  /**
    The limits in force: the charge current is the greatest step not above the
    configured one (2.7 A from a 15 W source), capped to 1.35 A in WARM and 0.9 A
    in COOL, and the voltage that configured, capped to 4.10 V in WARM.
  */
  lemma LimitsInForce(s: State)
    requires LimitsKept(s)
    ensures var wanted := if s.fast then 2700000 else s.cfgI;
            var cap := if s.zone == Warm then 1350000 else if s.zone == Cool then 900000 else wanted;
            var ua := if cap < wanted then cap else wanted;
            s.cfg.batI <= 0 || ua <= s.cfg.batI ==> Holds(100000, 50000, 63, s.regs.fastchg, ua)
    ensures var uv := if s.zone == Warm && s.cfgV > 4100000 then 4100000 else s.cfgV;
            uv >= 4010000 ==> Holds(4010000, 10000, 63, s.regs.batreg - 2, uv)
  {
  }

  /** Which events set the configured limits, and to what; the zone follows the temperature only. */
  lemma FieldsFollow(y: System, e: Event)
    ensures var s, t := y.chg, Step(y, e).chg;
            && t.cfgI == (if e.WriteCurrent? && e.ua >= 200000 && (s.cfg.batI <= 0 || e.ua <= s.cfg.batI) then e.ua
                          else s.cfgI)
            && t.cfgV == (if e.WriteVoltage? && 4010000 <= e.uv <= 4620000 && (s.cfg.batV <= 0 || e.uv <= s.cfg.batV)
                          then e.uv else s.cfgV)
            && t.zone == (if e.TempReading? then NextZone(s.zone, s.cfg.tempMin, s.cfg.tempMax, e.temp) else s.zone)
            && t.cfg == s.cfg.(link := t.cfg.link)
  {
    hide ChargerOnly, CableWork, Torch, NextZone, M.OnIrq, M.Initial;
    match e
    case CableChange(c, p, ok) => CableFields(y, c, p, ok);
    case TorchSet(b, p, ok) => TorchFields(y, b, p, ok);
    case MuicUnbinds =>
    case MuicBinds(_) =>
    case Irq(_) =>
    case WriteCurrent(_, _) => WriteFields(y.chg, e);
    case WriteVoltage(_, _) => WriteFields(y.chg, e);
    case TempReading(_, _) => WriteFields(y.chg, e);
    case _ => RestFields(y.chg, e);
  }

  predicate SameFields(s: State, t: State) {
    t.cfgI == s.cfgI && t.cfgV == s.cfgV && t.zone == s.zone && t.cfg == s.cfg
  }

  lemma CableFields(y: System, c: Cable, p: M.Polls, vbusOk: bool)
    ensures SameFields(y.chg, CableWork(y, c, p, vbusOk).chg)
  {
    hide SourceOf, IsUsbC, ApplyZone, SetInputLimit, CallHold;
    var src := SourceOf(c);
    var r := if src.limit != 0 then SetInputLimit(y.chg.regs, src.limit) else y.chg.regs;
    HoldLeaves(y.(chg := y.chg.(regs := r, usbType := src.kind, usbC := IsUsbC(c))), IsUsbC(c) || y.chg.torchOn, p);
    ApplyOnlyRegs(vbusOk);
  }

  lemma TorchFields(y: System, b: nat, p: M.Polls, vbusOk: bool)
    ensures SameFields(y.chg, Torch(y, b, p, vbusOk).chg)
  {
    hide ApplyZone, CallHold, HoldResult;
    ApplyOnlyRegs(vbusOk);
    if b == 0 {
      var t := ApplyZone(y.chg.(regs := y.chg.regs.(led := false), torchOn := false), vbusOk);
      HoldLeaves(System(t, y.muic), t.usbC, p);
    } else {
      HoldLeaves(y, true, p);
    }
  }

  lemma WriteFields(s: State, e: Event)
    requires e.WriteCurrent? || e.WriteVoltage? || e.TempReading?
    ensures var t := ChargerOnly(s, e);
            && t.cfgI == (if e.WriteCurrent? && e.ua >= 200000 && (s.cfg.batI <= 0 || e.ua <= s.cfg.batI) then e.ua
                          else s.cfgI)
            && t.cfgV == (if e.WriteVoltage? && 4010000 <= e.uv <= 4620000 && (s.cfg.batV <= 0 || e.uv <= s.cfg.batV)
                          then e.uv else s.cfgV)
            && t.zone == (if e.TempReading? then NextZone(s.zone, s.cfg.tempMin, s.cfg.tempMax, e.temp) else s.zone)
            && t.cfg == s.cfg
  {
    hide SetCurrent, SetVoltage, Temperature, NextZone;
    if e.WriteCurrent? {
      CurrentFields(s, e.ua, e.vbusOk);
    } else if e.WriteVoltage? {
      VoltageFields(s, e.uv, e.vbusOk);
    } else {
      ZoneFields(s, e.temp, e.vbusOk);
    }
  }

  lemma RestFields(s: State, e: Event)
    requires !e.WriteCurrent? && !e.WriteVoltage? && !e.TempReading?
    ensures SameFields(s, ChargerOnly(s, e))
  {
    hide OtgEnable, OtgOff, SetInputLimit, SetTerm;
    match e
    case OtgOn(ok) => OtgFields(s, ok);
    case OtgRelease(ok) => OtgFields(s, ok);
    case OtgOvercurrent(ok) => OtgFields(s, ok);
    case PowerDown(ok) => OtgFields(s.(regs := s.regs.(led := false)), ok);
    case _ =>
  }

  lemma CurrentFields(s: State, ua: int, vbusOk: bool)
    ensures var t := SetCurrent(s, ua, vbusOk);
            SameFields(s.(cfgI := if ua >= 200000 && (s.cfg.batI <= 0 || ua <= s.cfg.batI) then ua else s.cfgI), t)
  {
    hide ApplyZone, SetI;
    ApplyOnlyRegs(vbusOk);
  }

  lemma VoltageFields(s: State, uv: int, vbusOk: bool)
    ensures var ok := 4010000 <= uv <= 4620000 && (s.cfg.batV <= 0 || uv <= s.cfg.batV);
            SameFields(s.(cfgV := if ok then uv else s.cfgV), SetVoltage(s, uv, vbusOk))
  {
    hide ApplyZone, SetV;
    ApplyOnlyRegs(vbusOk);
  }

  lemma ZoneFields(s: State, temp: int, vbusOk: bool)
    ensures var zone := NextZone(s.zone, s.cfg.tempMin, s.cfg.tempMax, temp);
            SameFields(s.(zone := zone), Temperature(s, temp, vbusOk))
  {
    hide ApplyZone, NextZone;
    ApplyOnlyRegs(vbusOk);
  }

  lemma OtgFields(s: State, vbusOk: bool)
    ensures SameFields(s, OtgEnable(s, vbusOk)) && SameFields(s, OtgOff(s, vbusOk))
  {
    hide ApplyZone, Limits;
    ApplyOnlyRegs(vbusOk);
  }

  lemma ApplyOnlyRegs(vbusOk: bool)
    ensures forall s :: SameFields(s, ApplyZone(s, vbusOk))
  {
    hide Limits, Mode;
  }

  /** Which events set the other fields and registers: each only the events that are for it. */
  lemma OthersFollow(y: System, e: Event)
    ensures var s, t := y.chg, Step(y, e).chg;
            && (!e.CableChange? ==> t.fast == s.fast && t.usbC == s.usbC && t.usbType == s.usbType)
            && (!e.CableChange? && !e.TorchSet? ==> t.hv == s.hv && t.torchOn == s.torchOn && t.hold == s.hold)
            && (!e.CableChange? && !e.WriteInputLimit? ==> t.regs.vbusLimit == s.regs.vbusLimit)
            && (e.WriteInputLimit? && e.ua >= 100000 ==> Holds(100000, 25000, 127, t.regs.vbusLimit, e.ua))
            && (e.WriteTermCurrent? && e.ua >= 100000 ==> Holds(100000, 25000, 15, t.regs.topoff, e.ua))
            && (!e.WriteTermCurrent? ==> t.regs.topoff == s.regs.topoff)
            && (e.PowerDown? ==> !t.regs.led && !t.otgOn)
            && (e.OtgRelease? ==> !t.otgOn)
            && (e.OtgOvercurrent? ==> !t.otgOn && (!s.otgOn ==> t == s))
  {
    hide ChargerOnly, CableWork, Torch, M.OnIrq, M.Initial, Holds;
    match e
    case CableChange(c, p, ok) => CableLeaves(y, c, p, ok);
    case TorchSet(b, p, ok) => TorchLeaves(y, b, p, ok);
    case MuicUnbinds =>
    case MuicBinds(_) =>
    case Irq(_) =>
    case WriteInputLimit(ua) => InputSide(y.chg, e);
    case WriteTermCurrent(ua) => InputSide(y.chg, e);
    case WriteCurrent(_, _) => WriteSide(y.chg, e);
    case WriteVoltage(_, _) => WriteSide(y.chg, e);
    case TempReading(_, _) => WriteSide(y.chg, e);
    case _ => OtgSide(y.chg, e);
  }

  /** What only the charger's own writes change. */
  predicate SameSide(s: State, t: State) {
    t.fast == s.fast && t.usbC == s.usbC && t.usbType == s.usbType && t.hv == s.hv && t.torchOn == s.torchOn &&
    t.hold == s.hold && t.regs.vbusLimit == s.regs.vbusLimit && t.regs.topoff == s.regs.topoff &&
    (!s.regs.led ==> !t.regs.led) && t.otgOn == s.otgOn
  }

  lemma ApplySide(s: State, vbusOk: bool)
    ensures SameSide(s, ApplyZone(s, vbusOk))
  {
    LimitsRest(s);
    hide Limits, Mode;
  }

  lemma CableLeaves(y: System, c: Cable, p: M.Polls, vbusOk: bool)
    ensures CableWork(y, c, p, vbusOk).chg.regs.topoff == y.chg.regs.topoff
  {
    hide SourceOf, IsUsbC, ApplyZone, CallHold;
    var src := SourceOf(c);
    var r := if src.limit != 0 then SetInputLimit(y.chg.regs, src.limit) else y.chg.regs;
    var y1 := y.(chg := y.chg.(regs := r, usbType := src.kind, usbC := IsUsbC(c)));
    HoldLeaves(y1, IsUsbC(c) || y.chg.torchOn, p);
    var u := Guarded(CallHold(y1, IsUsbC(c) || y.chg.torchOn, p).chg.(hv := src.hv, fast := src.fast));
    ApplySide(u, vbusOk);
  }

  lemma TorchLeaves(y: System, b: nat, p: M.Polls, vbusOk: bool)
    ensures var s, t := y.chg, Torch(y, b, p, vbusOk).chg;
            && t.fast == s.fast && t.usbC == s.usbC && t.usbType == s.usbType
            && t.regs.vbusLimit == s.regs.vbusLimit && t.regs.topoff == s.regs.topoff
  {
    hide ApplyZone, CallHold, HoldResult;
    if b == 0 {
      var u := y.chg.(regs := y.chg.regs.(led := false), torchOn := false);
      ApplySide(u, vbusOk);
      HoldLeaves(System(ApplyZone(u, vbusOk), y.muic), ApplyZone(u, vbusOk).usbC, p);
    } else {
      HoldLeaves(y, true, p);
      var h := CallHold(y, true, p).chg;
      ApplySide(Lit(if HoldResult(y, true, p) == 0 then h.(hv := false) else h, b), vbusOk);
    }
  }

  lemma WriteSide(s: State, e: Event)
    requires e.WriteCurrent? || e.WriteVoltage? || e.TempReading?
    ensures SameSide(s, ChargerOnly(s, e))
  {
    hide SetCurrent, SetVoltage, Temperature, SameSide;
    WritesLeave(s, if e.WriteCurrent? then e.ua else if e.WriteVoltage? then e.uv else e.temp, e.vbusOk);
  }

  lemma InputSide(s: State, e: Event)
    requires e.WriteInputLimit? || e.WriteTermCurrent?
    ensures var r := ChargerOnly(s, e).regs;
            && ChargerOnly(s, e) == s.(regs := r)
            && (e.WriteTermCurrent? ==> r.vbusLimit == s.regs.vbusLimit)
            && (e.WriteInputLimit? ==> r.topoff == s.regs.topoff)
            && (e.WriteInputLimit? && e.ua >= 100000 ==> Holds(100000, 25000, 127, r.vbusLimit, e.ua))
            && (e.WriteTermCurrent? && e.ua >= 100000 ==> Holds(100000, 25000, 15, r.topoff, e.ua))
  {
    hide SetInputLimit, SetTerm, Holds;
    InputLeaves(s.regs, e.ua);
  }

  lemma OtgSide(s: State, e: Event)
    requires e.OtgOn? || e.OtgRelease? || e.OtgOvercurrent? || e.PowerDown?
    ensures var t := ChargerOnly(s, e);
            && SameSide(s.(otgOn := t.otgOn), t)
            && (!e.OtgOn? ==> !t.otgOn) && (e.PowerDown? ==> !t.regs.led)
            && (e.OtgOvercurrent? && !s.otgOn ==> t == s)
  {
    hide OtgEnable, OtgOff;
    match e
    case OtgOn(ok) => OtgLeaves(s, ok);
    case OtgRelease(ok) => OtgLeaves(s, ok);
    case OtgOvercurrent(ok) => OtgLeaves(s, ok);
    case PowerDown(ok) => OtgLeaves(s.(regs := s.regs.(led := false)), ok);
  }

  lemma InputLeaves(r: Regs, ua: int)
    ensures SetInputLimit(r, ua).topoff == r.topoff && SetTerm(r, ua).vbusLimit == r.vbusLimit
    ensures ua >= 100000 ==> Holds(100000, 25000, 127, SetInputLimit(r, ua).vbusLimit, ua)
    ensures ua >= 100000 ==> Holds(100000, 25000, 15, SetTerm(r, ua).topoff, ua)
  {
  }

  lemma WritesLeave(s: State, x: int, vbusOk: bool)
    ensures SameSide(s, SetCurrent(s, x, vbusOk)) && SameSide(s, SetVoltage(s, x, vbusOk))
    ensures SameSide(s, Temperature(s, x, vbusOk))
  {
    hide ApplyZone, NextZone, AcceptsI, AcceptsV;
    LimitLeaves(s.cfg, s.regs, x);
    ApplySide(s.(regs := SetI(s.cfg, s.regs, x), cfgI := x), vbusOk);
    ApplySide(s.(regs := SetV(s.cfg, s.regs, x), cfgV := x), vbusOk);
    ApplySide(s.(zone := NextZone(s.zone, s.cfg.tempMin, s.cfg.tempMax, x)), vbusOk);
    hide SetI, SetV;
  }

  lemma LimitLeaves(cfg: Config, r: Regs, x: int)
    ensures SetI(cfg, r, x) == r.(fastchg := SetI(cfg, r, x).fastchg)
    ensures SetV(cfg, r, x) == r.(batreg := SetV(cfg, r, x).batreg)
  {
  }

  lemma OtgLeaves(s: State, vbusOk: bool)
    ensures SameSide(s.(otgOn := OtgEnable(s, vbusOk).otgOn), OtgEnable(s, vbusOk))
    ensures SameSide(s.(otgOn := false), OtgOff(s, vbusOk))
  {
    hide ApplyZone;
    var u := s.(regs := s.regs.(otgCurrent := OTG_CURRENT_1500MA, boost := BSTOUT_OTG), otgOn := true);
    ApplySide(u, vbusOk);
    LimitsRest(u);
    ApplySide(s.(otgOn := false), vbusOk);
    hide Limits;
  }

  /** The temperature readings of a run. */
  function Readings(es: seq<Event>): seq<int> {
    if es == [] then []
    else
      var last := es[|es| - 1];
      Readings(es[..|es| - 1]) + if last.TempReading? then [last.temp] else []
  }

  /** After any run the zone is that of the temperature guard for the run's readings alone. */
  lemma {:induction false} ZoneFollows(y: System, es: seq<Event>)
    ensures var s, t := y.chg, Run(y, es).chg;
            t.zone == ZoneAfter(s.zone, s.cfg.tempMin, s.cfg.tempMax, Readings(es)) &&
            t.cfg.tempMin == s.cfg.tempMin && t.cfg.tempMax == s.cfg.tempMax
  {
    hide Step, NextZone;
    if es != [] {
      var n := |es| - 1;
      ZoneFollows(y, es[..n]);
      FieldsFollow(Run(y, es[..n]), es[n]);
      if es[n].TempReading? {
        assert Readings(es)[..|Readings(es)| - 1] == Readings(es[..n]);
      } else {
        assert Readings(es) == Readings(es[..n]);
      }
    }
  }

  /** A granted request lights the LED at n times 10 mA, as far as the field goes; brightness 0 puts it out. */
  lemma TorchLevel(y: System, b: nat, p: M.Polls, vbusOk: bool)
    ensures var t := Torch(y, b, p, vbusOk).chg;
            && (b == 0 ==> !t.regs.led && !t.torchOn)
            && (1 <= b <= 32 && TorchResult(y, b, p) == 0 ==> t.regs.led && t.torchOn && t.regs.torchLevel + 1 == b)
            && (y.chg.cfg.link != NoNode ==> t.hold == (b > 0 || y.chg.usbC))
  {
    hide Mode, TargetI, TargetV, M.Hold, M.HoldResult;
  }

  /** OTG is on, with 1.5 A and the OTG boost, exactly after an enable in one of the driver's modes. */
  lemma OtgOutcome(s: State, vbusOk: bool)
    ensures var t := OtgEnable(s, vbusOk);
            if 4 <= s.regs.mode <= 7 then
              t.otgOn && t.regs.mode == 7 && t.regs.otgCurrent == 3 && t.regs.boost == 11
            else !t.otgOn && t.regs.mode == s.regs.mode && t.regs.boost == s.cfg.bstout
    ensures var t := OtgOff(s, vbusOk);
            !t.otgOn && (4 <= s.regs.mode <= 7 ==> t.regs.boost == s.cfg.bstout && 4 <= t.regs.mode <= 6)
  {
    hide ApplyZone, Limits;
    var u := s.(regs := s.regs.(otgCurrent := OTG_CURRENT_1500MA, boost := BSTOUT_OTG), otgOn := true);
    ApplyPicks(u, vbusOk);
    LimitsOthers(u);
    ApplyPicks(s.(otgOn := false), vbusOk);
    hide Mode;
  }

  lemma ApplyPicks(s: State, vbusOk: bool)
    ensures var r := ApplyZone(s, vbusOk).regs;
            && ApplyZone(s, vbusOk) == s.(regs := r)
            && r.boost == s.regs.boost && r.otgCurrent == s.regs.otgCurrent && r.vbusLimit == s.regs.vbusLimit
            && (4 <= s.regs.mode <= 7 ==> 4 <= r.mode <= 7 && (r.mode == 7 <==> s.otgOn))
            && (!(4 <= s.regs.mode <= 7) ==> r.mode == s.regs.mode)
  {
    LimitsRest(s);
    hide Limits;
  }

  lemma LimitsRest(s: State)
    ensures var r := Limits(s);
            r == s.regs.(fastchg := r.fastchg, batreg := r.batreg)
  {
    hide TargetI, TargetV;
  }

  /** The input limit and the termination current are the greatest steps not above those asked, from 0.1 A up. */
  lemma OtherRegisters(r: Regs, ua: int)
    ensures if ua >= 100000 then Holds(100000, 25000, 127, SetInputLimit(r, ua).vbusLimit, ua)
            else SetInputLimit(r, ua) == r
    ensures if ua >= 100000 then Holds(100000, 25000, 15, SetTerm(r, ua).topoff, ua) else SetTerm(r, ua) == r
  {
  }

  /**
    What a cable change sets, from the extcon states and the Type-C supplier: the
    best of the legacy limits and the supplier's, which decides alone above 5.5 V;
    the input limit register; the 9 V and 15 W flags; and the hold.
  */
  lemma CableOutcome(y: System, c: Cable, p: M.Polls, vbusOk: bool)
    ensures var legacy := if c.fast then 1650000 else if c.dcp then 1800000 else if c.cdp then 1500000
                          else if c.sdp then 500000 else 0;
            var high := c.supplier.Present? && c.supplier.uv > 5500000;
            var own := if c.supplier.Absent? then 0
                       else if high then (if c.supplier.ua < 1650000 then c.supplier.ua else 1650000)
                       else if c.supplier.ua < 3000000 then c.supplier.ua else 3000000;
            var supplied := high || own > legacy;
            var limit := if supplied then own else legacy;
            var usbC := c.supplier.Present? && (c.supplier.kind == Pd || c.supplier.ua > 500000);
            var s, t := y.chg, CableWork(y, c, p, vbusOk).chg;
            && (if limit >= 100000 then Holds(100000, 25000, 127, t.regs.vbusLimit, limit)
                else t.regs.vbusLimit == s.regs.vbusLimit)
            && t.hv == (if supplied then high else c.fast)
            && t.fast == (if supplied then c.supplier.uv / 1000 * (own / 1000) / 1000 >= 14000 else c.fast)
            && t.usbType == (if supplied then c.supplier.kind else if c.fast || c.dcp then Dcp
                             else if c.cdp then Cdp else if c.sdp then Sdp else Unknown)
            && t.usbC == usbC && t.torchOn == (s.torchOn && !t.hv)
            && (s.cfg.link != NoNode ==> t.hold == (usbC || s.torchOn))
  {
    hide SourceOf, IsUsbC, CableWork, SetInputLimit;
    SourceOutcome(c);
    OtherRegisters(y.chg.regs, SourceOf(c).limit);
    CableSets(y, c, p, vbusOk);
  }

  lemma CableSets(y: System, c: Cable, p: M.Polls, vbusOk: bool)
    ensures var src, s, t := SourceOf(c), y.chg, CableWork(y, c, p, vbusOk).chg;
            && t.regs.vbusLimit == (if src.limit != 0 then SetInputLimit(s.regs, src.limit) else s.regs).vbusLimit
            && t.hv == src.hv && t.fast == src.fast && t.usbType == src.kind && t.usbC == IsUsbC(c)
            && t.torchOn == (s.torchOn && !t.hv)
            && (s.cfg.link != NoNode ==> t.hold == (IsUsbC(c) || s.torchOn))
  {
    hide SourceOf, IsUsbC, ApplyZone, SetInputLimit, CallHold;
    var src := SourceOf(c);
    var r := if src.limit != 0 then SetInputLimit(y.chg.regs, src.limit) else y.chg.regs;
    var y1 := y.(chg := y.chg.(regs := r, usbType := src.kind, usbC := IsUsbC(c)));
    HoldLeaves(y1, IsUsbC(c) || y.chg.torchOn, p);
    var u := Guarded(CallHold(y1, IsUsbC(c) || y.chg.torchOn, p).chg.(hv := src.hv, fast := src.fast));
    ApplyPicks(u, vbusOk);
    assert CableWork(y, c, p, vbusOk).chg == ApplyZone(u, vbusOk);
    hide CableWork;
  }

  lemma HoldLeaves(y: System, hold: bool, p: M.Polls)
    ensures var s := CallHold(y, hold, p).chg;
            s == y.chg.(hold := s.hold) && (y.chg.cfg.link != NoNode ==> s.hold == hold)
  {
    hide M.Hold;
  }

  lemma SourceOutcome(c: Cable)
    ensures var legacy := if c.fast then 1650000 else if c.dcp then 1800000 else if c.cdp then 1500000
                          else if c.sdp then 500000 else 0;
            var high := c.supplier.Present? && c.supplier.uv > 5500000;
            var own := if c.supplier.Absent? then 0
                       else if high then (if c.supplier.ua < 1650000 then c.supplier.ua else 1650000)
                       else if c.supplier.ua < 3000000 then c.supplier.ua else 3000000;
            var supplied := high || own > legacy;
            SourceOf(c) ==
            (if supplied then
               Source(c.supplier.kind, own, c.supplier.uv / 1000 * (own / 1000) / 1000 >= 14000, high)
             else
               Source(if c.fast || c.dcp then Dcp else if c.cdp then Cdp else if c.sdp then Sdp else Unknown,
                      legacy, c.fast, c.fast)) &&
            (IsUsbC(c) <==> c.supplier.Present? && (c.supplier.kind == Pd || c.supplier.ua > 500000))
  {
  }

  /** The extcon states as the MUIC last reported them, without a Type-C supplier. */
  function Extcon(m: M.Cable): Cable { Cable(m.fast, m.dcp, m.cdp, m.sdp, Absent) }

  /**
    From the charger type to the input current: after an interrupt that detects a
    port and the cable work that follows, the register decodes to exactly 0.5 A at
    a standard port, 1.5 A at a charging port, and 1.8 A at a dedicated charger at
    5 V or 1.65 A at 9 V; without a port it keeps its value.
  */
  lemma PortCurrent(y: System, i: M.Irq, p: M.Polls, vbusOk: bool)
    ensures var y1 := Step(y, Irq(i));
            var t := Step(y1, CableChange(Extcon(y1.muic.cable), p, vbusOk)).chg;
            var code := i.detected.chgType % 32;
            var ua := 100000 + 25000 * t.regs.vbusLimit;
            if i.detected.vbus && (code == 0x04 || code == 0x08) then ua == 500000
            else if i.detected.vbus && code == 0x02 then ua == 1500000
            else if i.detected.vbus && (code == 0x01 || code == 0x10 || code == 0x11 || code == 0x13) then
              ua == if t.hv then 1650000 else 1800000
            else t.regs.vbusLimit == y.chg.regs.vbusLimit && !t.hv
  {
    hide M.OnIrq, CableWork, M.Detect, M.Afc;
    var m := M.OnIrq(y.muic, i);
    M.StepReportsPort(y.muic, M.Interrupt(i));
    FastIsDcp(y.muic, i);
    CableOutcome(y.(muic := m), Extcon(m.cable), p, vbusOk);
  }

  lemma FastIsDcp(m: M.State, i: M.Irq)
    ensures M.OnIrq(m, i).cable.fast ==> M.OnIrq(m, i).cable.dcp
  {
    hide M.Afc, M.Rerun;
  }

  /** When probe fails, and what it leaves: the battery's limits, or 2 A and the register's voltage without them. */
  lemma ProbeOutcome(cfg: Config, r: Regs, vbusOk: bool)
    requires r.batreg < 64 && r.fastchg < 64
    ensures Probe(cfg, r, vbusOk) == Failed <==>
            || (cfg.batV > 0 && !(4010000 <= cfg.batV <= 4620000))
            || 0 < cfg.batI < 200000 || 0 < cfg.batTerm < 100000
    ensures Probe(cfg, r, vbusOk).Ready? ==>
              var s := Probe(cfg, r, vbusOk).s;
              && Holds(100000, 50000, 63, (s.cfgI - 100000) / 50000, if cfg.batI > 0 then cfg.batI else 2000000)
              && (cfg.batV > 0 ==> s.cfgV <= cfg.batV < s.cfgV + 10000)
              && (cfg.batV <= 0 ==> s.cfgV == DecodeV(r.batreg))
              && (cfg.batTerm > 0 ==> Holds(100000, 25000, 15, s.regs.topoff, cfg.batTerm))
              && s.zone == Normal && !s.regs.led && !s.torchOn && !s.otgOn && !s.hold && s.cfg.bstout == r.boost
  {
    hide Mode;
  }

  // ---------- when the torch is granted ----------

  /**
    A request lights the torch exactly when the charger saw no 9 V, holds VBUS at
    5 V already, has no MUIC to ask, or the MUIC it asks has nothing to drop or
    reads VBUS down in time.
  */
  lemma TorchOutcome(y: System, brightness: nat, p: M.Polls, vbusOk: bool)
    requires Inv(y) && Agreed(y) && brightness > 0
    ensures Torch(y, brightness, p, vbusOk).chg.torchOn <==>
            || !y.chg.hv || y.chg.hold || y.chg.cfg.link == NoNode
            || (y.chg.cfg.link == Bound && (!y.muic.afc || M.Quiet(y.muic) || M.Fell(p.voltages)))
    ensures TorchResult(y, brightness, p) ==
            if Torch(y, brightness, p, vbusOk).chg.torchOn then 0 else -EBUSY
  {
    hide ApplyZone, M.Hold, M.HoldResult, M.Inv, M.Fell, LimitsKept;
    ApplyFlags(vbusOk);
    HoldOutcome(y.muic, p);
  }

  /** A MUIC asked to hold fails exactly when it has something to drop and VBUS does not come down. */
  lemma HoldOutcome(m: M.State, p: M.Polls)
    requires M.Inv(m)
    ensures M.HoldResult(m, true, p) == 0 <==> !m.afc || M.Quiet(m) || M.Fell(p.voltages)
  {
    hide M.Fell;
  }

  /**
    While 9 V may be on VBUS, lighting the torch proves that VBUS came down in
    exactly these states: the hold is not in force yet, there is a MUIC node, and
    its driver is unbound or has a 9 V request or grant to drop. In every other
    state some request is granted without a reading that shows VBUS down.
  */
  lemma GrantMeansFell(y: System, brightness: nat, vbusOk: bool)
    requires Inv(y) && Agreed(y) && brightness > 0 && y.chg.hv
    ensures (forall p :: Torch(y, brightness, p, vbusOk).chg.torchOn ==> M.Fell(p.voltages)) <==>
            && !y.chg.hold && y.chg.cfg.link != NoNode
            && (y.chg.cfg.link == Unbound || (y.muic.afc && !M.Quiet(y.muic)))
  {
    hide Torch, Inv, M.Quiet;
    forall p
      ensures Torch(y, brightness, p, vbusOk).chg.torchOn <==>
              || y.chg.hold || y.chg.cfg.link == NoNode
              || (y.chg.cfg.link == Bound && (!y.muic.afc || M.Quiet(y.muic) || M.Fell(p.voltages)))
    {
      TorchOutcome(y, brightness, p, vbusOk);
    }
    var none := M.Polls([], false, M.Reading(false, 0, 0));
    assert !M.Fell(none.voltages);
  }

  /** With the hold in force a request is granted, whatever VBUS would read, and the MUIC is not asked. */
  lemma HeldTorch(y: System, brightness: nat, p: M.Polls, vbusOk: bool)
    requires brightness > 0 && y.chg.hold
    ensures Torch(y, brightness, p, vbusOk).chg.torchOn && Torch(y, brightness, p, vbusOk).muic == y.muic
  {
    hide ApplyZone, M.Hold, M.HoldResult;
    ApplyFlags(vbusOk);
  }

  /**
    So a refusal does not last: when VBUS did not fall in time the torch is
    refused, but the same request again is granted without looking at VBUS.
  */
  lemma RefusedThenGranted(y: System, brightness: nat, p: M.Polls, again: M.Polls, vbusOk: bool)
    requires Inv(y) && brightness > 0 && TorchResult(y, brightness, p) != 0
    ensures var y1 := Torch(y, brightness, p, vbusOk);
            var y2 := Torch(y1, brightness, again, vbusOk);
            !y1.chg.torchOn && y1.chg.hv && y2.chg.torchOn && y2.muic == y1.muic
  {
    hide M.Hold, M.HoldResult, M.Inv, LimitsKept, ApplyZone;
    HeldTorch(Torch(y, brightness, p, vbusOk), brightness, again, vbusOk);
  }

  /**
    Such a refusal is reached from any start with the MUIC bound and AFC on: AFC
    brings VBUS to 9 V, the cable work notes the fast charger, and a torch
    request finds no reading that shows VBUS down. The next request is granted.
  */
  lemma RefusedRun(y: System, cfg: Config, r: Regs, p: M.Polls, vbusOk: bool)
    requires Initial(y, cfg, r) && cfg.link == Bound && y.muic.afc && !M.Fell(p.voltages)
    ensures var es := [Irq(ChargerAtNine()), CableChange(Cable(true, true, false, false, Absent), p, vbusOk)];
            var z := Run(y, es);
            z.muic.cable.fast && z.chg.hv && TorchResult(z, 1, p) == -EBUSY &&
            Run(y, es + [TorchSet(1, p, vbusOk), TorchSet(1, p, vbusOk)]).chg.torchOn
  {
    hide Run, ApplyZone, M.Hold, M.Fell, M.Negotiate, M.Detect;
    var i := ChargerAtNine();
    var c := Cable(true, true, false, false, Absent);
    var es := [Irq(i), CableChange(c, p, vbusOk)];
    var again := TorchSet(1, p, vbusOk);
    StartFlags(y, cfg, r);
    GrantedIrq(y.muic, i);
    assert es + [again, again] == [es[0], es[1], again, again];
    RunFour(y, es[0], es[1], again, again);
    var z := Step(Step(y, es[0]), es[1]);
    ApplyFlags(vbusOk);
    assert z.muic == M.OnIrq(y.muic, i) && z.chg.hv && !z.chg.hold && z.chg.cfg.link == Bound;
    HoldOutcome(z.muic, p);
    assert Step(z, again).chg.hold;
    HeldTorch(Step(z, again), 1, p, vbusOk);
  }

  lemma StartFlags(y: System, cfg: Config, r: Regs)
    requires Initial(y, cfg, r)
    ensures var s := y.chg; s.cfg == cfg.(bstout := r.boost) && !s.hold && !s.torchOn && !s.hv && !s.usbC
    ensures M.Inv(y.muic) && !y.muic.hold
  {
    hide ApplyZone, M.Inv;
    var vbusOk :| Probe(cfg, r, vbusOk) == Ready(y.chg);
    ApplyFlags(vbusOk);
  }

  /** An interrupt of a charger that answers and is at 9 V: it is granted and reported. */
  lemma GrantedIrq(m: M.State, i: M.Irq)
    requires M.Inv(m) && !m.hold && m.afc
    requires i == ChargerAtNine()
    ensures var t := M.OnIrq(m, i);
            M.Inv(t) && t.afc9v && t.cable.fast && t.afc && !t.hold
  {
    hide M.Inv, M.Fell;
    M.StepKeepsInv(m, M.Interrupt(i));
    M.StepMeasures(m, M.Interrupt(i));
    assert M.Step(m, M.Interrupt(i)) == M.OnIrq(m, i);
  }

  /** There is such a start: an unlimited battery, registers as after reset. */
  lemma BoundStart(m: M.State)
    requires M.Initial(m)
    ensures exists y, cfg, r :: Initial(y, cfg, r) && cfg.link == Bound && y.muic == m
  {
    var cfg := Config(0, 0, 0, 0, 0, 0, Bound);
    var r := Regs(CHG_ON, 0, 0, 0, 0, 0, 0, false, 0);
    var y := System(Probe(cfg, r, true).s, m);
    assert Probe(cfg, r, true) == Ready(y.chg);
    assert Initial(y, cfg, r);
  }

  /**
    The 9 V flag follows extcon and the supplier only at a cable change. A PD
    contract above 5 V sets the hold as well, so a torch request then clears the
    flag and is granted while the source still supplies 9 V.
  */
  lemma PdSourceLightsTorch(y: System, c: Cable, p: M.Polls, brightness: nat, q: M.Polls, vbusOk: bool)
    requires brightness > 0 && c.supplier.Present? && c.supplier.uv > HV_MIN_UV && c.supplier.kind == Pd
    requires y.chg.cfg.link != NoNode
    ensures var y1 := CableWork(y, c, p, vbusOk);
            var y2 := Torch(y1, brightness, q, vbusOk);
            y1.chg.hv && y1.chg.hold && !y1.chg.torchOn && y2.chg.torchOn
  {
    hide ApplyZone, M.Hold, SetInputLimit, Torch;
    var src := SourceOf(c);
    assert src.hv && IsUsbC(c);
    ApplyFlags(vbusOk);
    HeldTorch(CableWork(y, c, p, vbusOk), brightness, q, vbusOk);
  }

  // ---------- when the charge current is rejected ----------

  /** A zone's current is rejected exactly when a 15 W source asks for more than the battery allows. */
  lemma RejectedExactly(s: State)
    requires LimitsReady(s)
    ensures !AcceptsI(s.cfg, TargetI(s)) <==> s.fast && 0 < s.cfg.batI < TargetI(s)
  {
  }

  /**
    A zone's voltage is rejected exactly when the one configured is below what the
    register can be set to, which only probe can have left; the register then
    keeps it.
  */
  lemma VoltageRejectedExactly(s: State)
    requires LimitsReady(s)
    ensures !AcceptsV(s.cfg, TargetV(s)) <==> s.cfgV < BATREG_MIN_UV
    ensures !AcceptsV(s.cfg, TargetV(s)) ==> Limits(s).batreg == s.regs.batreg && DecodeV(s.regs.batreg) == s.cfgV
  {
    hide DecodeI, DecodeV;
  }

  /**
    Then the register keeps an older, lower value: with a 15 W source and a
    battery limit below 2.7 A, charging stays at the COOL current after warming up.
  */
  lemma CoolCurrentSticks(s: State, temp: int, vbusOk: bool)
    requires LimitsKept(s) && s.zone == Cool && s.fast && 0 < s.cfg.batI < FAST_CHARGE_UA
    requires NextZone(Cool, s.cfg.tempMin, s.cfg.tempMax, temp) == Normal
    ensures var t := Temperature(s, temp, vbusOk);
            t.zone == Normal && DecodeI(t.regs.fastchg) == DecodeI(s.regs.fastchg) <= COOL_CURRENT_UA
  {
    SetVKeeps(s.cfg, s.regs, s.cfgV);
    SetIKeeps(s.cfg, SetV(s.cfg, s.regs, s.cfgV), FAST_CHARGE_UA);
  }

  // ---------- the driver ----------

  class Driver {
    const cfg: Config
    const muic: M.Driver
    var usbType: UsbType
    var fast: bool
    var hv: bool
    var usbC: bool
    var hold5v: bool
    var torchOn: bool
    var otgOn: bool
    var zone: Zone
    var cfgVoltage: int
    var cfgCurrent: int
    var regs: Regs

    function Model(): State
      reads this
    {
      State(cfg, regs, usbType, fast, hv, usbC, hold5v, torchOn, otgOn, zone, cfgVoltage, cfgCurrent)
    }

    function Both(): System
      reads this, muic
    {
      System(Model(), muic.Model())
    }

    /** The allocated driver, before probe has touched the device. */
    constructor (cfg: Config, regs: Regs, muic: M.Driver)
      ensures this.cfg == cfg.(bstout := regs.boost) && this.regs == regs && this.muic == muic
      ensures Model() == State(this.cfg, regs, Unknown, false, false, false, false, false, false, Normal, 0, 0)
    {
      this.cfg, this.regs, this.muic := cfg.(bstout := regs.boost), regs, muic;
      usbType, fast, hv, usbC, hold5v, torchOn, otgOn := Unknown, false, false, false, false, false, false;
      zone, cfgVoltage, cfgCurrent := Normal, 0, 0;
    }

    method SetChargeCurrent(ua: int) returns (ret: int)
      modifies this`regs
      ensures ret == (if AcceptsI(cfg, ua) then 0 else -EINVAL) && regs == SetI(cfg, old(regs), ua)
    {
      if cfg.batI > 0 && ua > cfg.batI {
        return -EINVAL;
      }
      if ua < 200000 {
        return -EINVAL;
      }
      var val := (ua - 100000) / 50000;
      regs := regs.(fastchg := if val < 0x3f then val else 0x3f);
      ret := 0;
    }

    method SetChargeVoltage(uv: int) returns (ret: int)
      modifies this`regs
      ensures ret == (if AcceptsV(cfg, uv) then 0 else -EINVAL) && regs == SetV(cfg, old(regs), uv)
    {
      if cfg.batV > 0 && uv > cfg.batV {
        return -EINVAL;
      }
      if uv < BATREG_MIN_UV || uv > BATREG_MAX_UV {
        return -EINVAL;
      }
      regs := regs.(batreg := (uv - BATREG_MIN_UV) / 10000 + 2);
      ret := 0;
    }

    /** The limits of the current zone. */
    method ZoneLimits() returns (voltage: int, currentUa: int, charge: bool)
      ensures voltage == TargetV(Model()) && currentUa == TargetI(Model()) && charge == Charging(zone)
    {
      voltage := cfgVoltage;
      currentUa := if fast then FAST_CHARGE_UA else cfgCurrent;
      charge := true;
      match zone {
        case Hot => charge := false;
        case Cold => charge := false;
        case Warm =>
          voltage := Min(voltage, WARM_VOLTAGE_UV);
          currentUa := Min(currentUa, WARM_CURRENT_UA);
        case Cool =>
          currentUa := Min(currentUa, COOL_CURRENT_UA);
        case Normal =>
      }
    }

    method WriteLimits() returns (charge: bool)
      modifies this`regs
      ensures regs == Limits(old(Model())) && charge == Charging(zone)
    {
      hide TargetV, TargetI;
      var voltage, currentUa;
      voltage, currentUa, charge := ZoneLimits();
      if voltage > 0 {
        var _ := SetChargeVoltage(voltage);
      }
      if currentUa > 0 {
        var _ := SetChargeCurrent(currentUa);
      }
    }

    /** Writes one of the four drivable modes over another of them; anything else in the field stays. */
    method PickMode(charge: bool, vbusOk: bool) returns (ret: int)
      requires charge == Charging(zone)
      modifies this`regs
      ensures ret == if Drivable(old(regs).mode) then 0 else -EBUSY
      ensures regs == if ret == 0 then old(regs).(mode := Mode(old(Model()), vbusOk)) else old(regs)
    {
      var mode := regs.mode;
      if mode != CHG_ON && mode != CHG_OFF && mode != FLASH_BOOST && mode != USB_OTG {
        return -EBUSY;
      }
      if otgOn {
        mode := USB_OTG;
      } else if torchOn && (!charge || !vbusOk) {
        mode := FLASH_BOOST;
      } else {
        mode := if charge then CHG_ON else CHG_OFF;
      }
      regs := regs.(mode := mode);
      ret := 0;
    }

    /** Writes the zone's limits and picks the operating mode. */
    method ApplyLimits(vbusOk: bool) returns (ret: int)
      modifies this`regs
      ensures Model() == ApplyZone(old(Model()), vbusOk)
      ensures ret == if Drivable(old(regs).mode) then 0 else -EBUSY
    {
      hide Limits;
      LimitsOthers(Model());
      var charge := WriteLimits();
      ret := PickMode(charge, vbusOk);
    }

    /** Applies the battery's limits at probe; false when the battery node's values are rejected. */
    method ApplyBatteryInfo() returns (ok: bool)
      modifies this`regs
      ensures ok <==> (cfg.batV > 0 ==> AcceptsV(cfg, cfg.batV)) && (cfg.batI > 0 ==> AcceptsI(cfg, cfg.batI)) &&
                      !(0 < cfg.batTerm < 100000)
      ensures ok ==>
                var r1 := if cfg.batV > 0 then SetV(cfg, old(regs), cfg.batV) else old(regs);
                var r2 := SetI(cfg, r1, if cfg.batI > 0 then cfg.batI else DEFAULT_CHARGE_UA);
                regs == if cfg.batTerm > 0 then SetTerm(r2, cfg.batTerm) else r2
    {
      hide SetV;
      if cfg.batV > 0 {
        var ret := SetChargeVoltage(cfg.batV);
        if ret != 0 {
          return false;
        }
      }
      if cfg.batI > 0 {
        var ret := SetChargeCurrent(cfg.batI);
        if ret != 0 {
          return false;
        }
      }
      if cfg.batTerm > 0 {
        if cfg.batTerm < 100000 {
          return false;
        }
        regs := SetTerm(regs, cfg.batTerm);
      }
      // without a battery node the register is not trusted: it may decode to 2.7 A
      if cfg.batI <= 0 {
        var _ := SetChargeCurrent(DEFAULT_CHARGE_UA);
      }
      ok := true;
    }

    /** Probe of the device: the limits, the normal zone, and the torch off. */
    method ProbeDevice(vbusOk: bool) returns (ok: bool)
      requires Model() == State(cfg, regs, Unknown, false, false, false, false, false, false, Normal, 0, 0)
      requires cfg.bstout == regs.boost
      modifies this
      ensures ok <==> Probe(cfg, old(regs), vbusOk).Ready?
      ensures ok ==> Model() == Probe(cfg, old(regs), vbusOk).s
    {
      hide ApplyZone, SetI, SetV, SetTerm;
      ok := ApplyBatteryInfo();
      if ok {
        cfgVoltage := DecodeV(regs.batreg);
        cfgCurrent := DecodeI(regs.fastchg);
        var _ := ApplyLimits(vbusOk);
        regs := regs.(led := false);
      }
    }

    /** The LED and VBUS off before the bootloader takes over. */
    method PowerOff(vbusOk: bool)
      modifies this
      ensures Model() == Shutdown(old(Model()), vbusOk)
    {
      hide OtgOff;
      regs := regs.(led := false);
      if otgOn {
        var _ := DisableOtg(vbusOk);
      }
    }

    /** A write of the charge current or voltage property. */
    method WriteLimit(isCurrent: bool, val: int, vbusOk: bool) returns (ret: int)
      modifies this
      ensures Model() == if isCurrent then SetCurrent(old(Model()), val, vbusOk)
                         else SetVoltage(old(Model()), val, vbusOk)
      ensures ret == if (if isCurrent then AcceptsI(cfg, val) else AcceptsV(cfg, val)) then 0 else -EINVAL
    {
      hide ApplyZone;
      if isCurrent {
        ret := SetChargeCurrent(val);
        if ret == 0 {
          cfgCurrent := val;
        }
      } else {
        ret := SetChargeVoltage(val);
        if ret == 0 {
          cfgVoltage := val;
        }
      }
      if ret == 0 {
        var _ := ApplyLimits(vbusOk);
      }
    }

    method TempWork(temp: int, vbusOk: bool)
      modifies this
      ensures Model() == Temperature(old(Model()), temp, vbusOk)
    {
      hide ApplyZone, NextZone;
      var next := NextZone(zone, cfg.tempMin, cfg.tempMax, temp);
      if next != zone {
        zone := next;
        var _ := ApplyLimits(vbusOk);
      }
    }

    method EnableOtg(vbusOk: bool) returns (ret: int)
      modifies this
      ensures Model() == OtgEnable(old(Model()), vbusOk)
      ensures ret == if Drivable(old(regs).mode) then 0 else -EBUSY
    {
      hide Limits, Mode;
      LimitsOthers(Model().(regs := regs.(otgCurrent := OTG_CURRENT_1500MA, boost := BSTOUT_OTG), otgOn := true));
      regs := regs.(otgCurrent := OTG_CURRENT_1500MA);
      regs := regs.(boost := BSTOUT_OTG);
      otgOn := true;
      label enabled:
      ret := ApplyLimits(vbusOk);
      if ret != 0 {
        otgOn := false;
        regs := regs.(boost := cfg.bstout);
      }
    }

    method DisableOtg(vbusOk: bool) returns (ret: int)
      modifies this
      ensures Model() == OtgOff(old(Model()), vbusOk)
    {
      hide ApplyZone;
      otgOn := false;
      ret := ApplyLimits(vbusOk);
      if ret == 0 {
        regs := regs.(boost := cfg.bstout);
      }
    }

    method OnOvercurrent(vbusOk: bool)
      modifies this
      ensures Model() == OtgFail(old(Model()), vbusOk)
    {
      if otgOn {
        var _ := DisableOtg(vbusOk);
      }
    }

    /** Passes a changed hold on to the MUIC; an unchanged one stops here. */
    method Hold5v(hold: bool, p: M.Polls) returns (ret: int)
      modifies this`hold5v, muic
      ensures Both() == CallHold(old(Both()), hold, p) && ret == HoldResult(old(Both()), hold, p)
    {
      hide M.Hold, M.HoldResult;
      if cfg.link == NoNode || hold == hold5v {
        return 0;
      }
      hold5v := hold;
      if cfg.link == Unbound {
        return -ENODEV;
      }
      ret := muic.Hold5v(hold, p);
    }

    method SetTorch(brightness: nat, p: M.Polls, vbusOk: bool) returns (ret: int)
      modifies this, muic
      ensures Both() == Torch(old(Both()), brightness, p, vbusOk)
      ensures ret == TorchResult(old(Both()), brightness, p)
    {
      hide ApplyZone, CallHold, HoldResult;
      ghost var y := Both();
      if brightness == 0 {
        regs := regs.(led := false);
        torchOn := false;
        var _ := ApplyLimits(vbusOk);
        var _ := Hold5v(usbC, p);
        return 0;
      }
      ret := Hold5v(true, p);
      if ret == 0 {
        hv := false;
      }
      if hv {
        return -EBUSY;
      }
      LightTorch(brightness, vbusOk);
      ret := 0;
    }

    method LightTorch(brightness: nat, vbusOk: bool)
      requires brightness > 0
      modifies this
      ensures Model() == ApplyZone(Lit(old(Model()), brightness), vbusOk)
    {
      hide ApplyZone;
      regs := regs.(torchLevel := (brightness - 1) % 32);
      regs := regs.(led := true);
      torchOn := true;
      var _ := ApplyLimits(vbusOk);
    }

    /** A cable change; the extcon states were read before the lock was taken. */
    method OnCable(c: Cable, p: M.Polls, vbusOk: bool)
      modifies this, muic
      ensures Both() == CableWork(old(Both()), c, p, vbusOk)
    {
      hide CableLocked, SetInputLimit, TypeCSource;
      var src := LegacySource(c);
      if c.supplier.Present? {
        var typec := TypeCSource(c.supplier.uv, c.supplier.ua, c.supplier.kind);
        if typec.limit > src.limit || typec.hv {
          src := typec;
        }
      }
      assert src == SourceOf(c);
      hide LegacySource, SourceOf;
      if src.limit != 0 {
        regs := SetInputLimit(regs, src.limit);
      }
      usbType := src.kind;
      LockedCable(src, IsUsbC(c), p, vbusOk);
    }

    method LockedCable(src: Source, isUsbC: bool, p: M.Polls, vbusOk: bool)
      modifies this, muic
      ensures Both() == CableLocked(old(Both()), src, isUsbC, p, vbusOk)
    {
      hide ApplyZone, CallHold;
      usbC := isUsbC;
      var _ := Hold5v(isUsbC || torchOn, p);
      NewSource(src, vbusOk);
    }

    method NewSource(src: Source, vbusOk: bool)
      modifies this
      ensures Model() == ApplyZone(Guarded(old(Model()).(hv := src.hv, fast := src.fast)), vbusOk)
    {
      hide ApplyZone;
      hv := src.hv;
      if hv && torchOn {
        regs := regs.(led := false);
        torchOn := false;
      }
      fast := src.fast;
      var _ := ApplyLimits(vbusOk);
    }
  }
}
