/**
  The SM5705 MUIC: USB charger detection and 9 V negotiation (Samsung AFC, or
  Quick Charge 2.0 when AFC fails), which the charger driver can hold off.

  Every operation runs under the driver's lock. Register reads are inputs; one
  operation may read the same register twice and see two values.
*/
module Muic {

  const RETRIES := 5
  const U32 := 0x1_0000_0000
  const ETIMEDOUT := 110
  const TXD_9V := 0x46

  const TYPE_DCP := 0x01
  const TYPE_CDP := 0x02
  const TYPE_SDP := 0x04
  const TYPE_DCD_OUT := 0x08
  const TYPE_U200 := 0x10
  const TYPE_AFC := 0x11
  const TYPE_QC20 := 0x13
  const ADC_KEYBOARD_DOCK := 0x11

  /** The cable states reported through extcon. */
  datatype Cable = Cable(fast: bool, sdp: bool, dcp: bool, cdp: bool, usb: bool, dock: bool)

  /**
    The driver's fields, the bits of AFC_CNTL and AFC_TXD it writes, the number
    of VBUS measurements and charger-detection reruns it has started, and the
    cable states it last reported. `afc` is the module parameter.
  */
  datatype State = State(
    afc: bool, afc9v: bool, qc20: bool, afcTa: bool, hold: bool, rerun: bool,
    afcRetries: nat, vbusRetries: nat,
    enafc: bool, enqc20: bool, txd: nat, measures: nat, rescans: nat,
    cable: Cable)

  /** What detection reads: VBUS valid, CHG_TYPE and the ID pin's ADC. */
  datatype Reading = Reading(vbus: bool, chgType: nat, adc: nat)

  /** An interrupt: the AFC bits of INT3 and what the handlers read. */
  datatype Irq = Irq(
    attached: bool, accepted: bool, vbusUpdate: bool, error: bool,
    vbus: bool, acceptedType: nat, measured: nat, qcCapable: bool, errorType: nat,
    detected: Reading)

  /** What a hold request reads: VBUS while it falls, VBUS before a restart, detection. */
  datatype Polls = Polls(voltages: seq<nat>, vbus: bool, detected: Reading)

  datatype Event = Interrupt(irq: Irq) | Request(hold: bool, polls: Polls)

  // ---------- specification ----------

  function Stop(s: State): State { s.(enafc := false, enqc20 := false, qc20 := false) }

  function Start(s: State): State {
    s.(afcRetries := 0, vbusRetries := 0, qc20 := false, txd := TXD_9V, enafc := true)
  }

  function Accepted(s: State, chgType: nat): State {
    if chgType % 32 == TYPE_AFC then s.(measures := s.measures + 1) else s.(enafc := false)
  }

  /** Measured and requested steps differ by at most one. */
  predicate InRange(measured: nat, txd: nat) {
    -1 <= measured % 16 - txd / 16 % 16 <= 1
  }

  function VbusUpdate(s: State, measured: nat): State {
    if InRange(measured, s.txd) then s.(enafc := false, afc9v := true)
    else
      var s' := s.(vbusRetries := (s.vbusRetries + 1) % U32);
      if s.vbusRetries < RETRIES then s'.(measures := s.measures + 1) else Stop(s')
  }

  function Error(s: State, qcCapable: bool, chgType: nat): State {
    var s' := s.(afcRetries := (s.afcRetries + 1) % U32);
    if s.afcRetries >= RETRIES then Stop(s')
    else if qcCapable && chgType % 32 == TYPE_QC20 then
      s'.(enafc := false, enqc20 := true, qc20 := true, measures := s.measures + 1)
    else s'.(enafc := true)
  }

  /** The four AFC handlers of one interrupt, in order. */
  function Negotiate(s: State, i: Irq): State {
    var s1 := if i.attached then Start(s) else s;
    var s2 := if i.accepted then Accepted(s1, i.acceptedType) else s1;
    var s3 := if i.vbusUpdate then VbusUpdate(s2, i.measured) else s2;
    if i.error then Error(s3, i.qcCapable, i.errorType) else s3
  }

  function Afc(s: State, i: Irq): State {
    if !i.vbus then Stop(s)
    else
      var s' := s.(afcTa := s.afcTa || i.attached);
      if s'.hold then s' else Negotiate(s', i)
  }

  function Rerun(s: State, r: Reading): State {
    if !r.vbus || r.adc % 32 != ADC_KEYBOARD_DOCK then s.(rerun := false)
    else if r.chgType % 32 != 0 || s.rerun then s
    else s.(rerun := true, rescans := s.rescans + 1)
  }

  function Detect(s: State, r: Reading): State {
    var t := r.chgType % 32;
    var sdp := r.vbus && t in {TYPE_SDP, TYPE_DCD_OUT};
    var cdp := r.vbus && t == TYPE_CDP;
    var dcp := r.vbus && t in {TYPE_DCP, TYPE_U200, TYPE_AFC, TYPE_QC20};
    var s' := Rerun(if r.vbus then s else s.(afc9v := false, afcTa := false), r);
    s'.(cable := Cable(dcp && s'.afc9v, sdp, dcp, cdp, sdp || cdp, r.adc % 32 == ADC_KEYBOARD_DOCK))
  }

  function OnIrq(s: State, i: Irq): State {
    Detect(if s.afc then Afc(s, i) else s, i.detected)
  }

  function Drop(s: State): State {
    if !s.afc9v && !s.enafc && !s.enqc20 then s
    else s.(enafc := false, enqc20 := false, afc9v := false, qc20 := false, measures := s.measures + 1)
  }

  predicate Fell(voltages: seq<nat>) {
    exists i :: 0 <= i < |voltages| && i < 20 && voltages[i] % 16 == 0
  }

  /** A changed hold, up to detection: 9 V dropped, or asked for again. */
  function Changed(s: State, hold: bool, p: Polls): State {
    var s' := s.(hold := hold);
    if s.afc && hold then Drop(s') else if s.afc && s.afcTa && p.vbus then Start(s') else s'
  }

  function Hold(s: State, hold: bool, p: Polls): State {
    if hold == s.hold then s else Detect(Changed(s, hold, p), p.detected)
  }

  /** Zero, unless VBUS had to fall and did not. */
  function HoldResult(s: State, hold: bool, p: Polls): int {
    if hold != s.hold && s.afc && hold && Drop(s) != s && !Fell(p.voltages) then -ETIMEDOUT else 0
  }

  function Step(s: State, e: Event): State {
    match e
    case Interrupt(i) => OnIrq(s, i)
    case Request(hold, p) => Hold(s, hold, p)
  }

  function Run(s: State, es: seq<Event>): State {
    if es == [] then s else Step(Run(s, es[..|es| - 1]), es[|es| - 1])
  }

  // ---------- the driver ----------

  class Driver {
    const afc: bool
    var afc9v: bool
    var qc20: bool
    var afcTa: bool
    var hold5v: bool
    var chgdetRerun: bool
    var afcRetries: nat
    var vbusRetries: nat

    // the device
    var enafc: bool
    var enqc20: bool
    var disAfc: bool
    var txd: nat
    var measures: nat
    var rescans: nat
    var cable: Cable

    function Model(): State
      reads this
    {
      State(afc, afc9v, qc20, afcTa, hold5v, chgdetRerun, afcRetries, vbusRetries,
            enafc, enqc20, txd, measures, rescans, cable)
    }

    /** The driver after probe; AFC_CNTL and AFC_TXD keep what was in them. */
    constructor (afc: bool, enafc: bool, enqc20: bool, txd: nat)
      ensures Initial(Model()) && Model().afc == afc && Model().enafc == enafc && Model().enqc20 == enqc20
    {
      this.afc, this.enafc, this.enqc20, this.txd := afc, enafc, enqc20, txd;
      afc9v, qc20, afcTa, hold5v, chgdetRerun, disAfc := false, false, false, false, false, false;
      afcRetries, vbusRetries, measures, rescans := 0, 0, 0, 0;
      cable := Cable(false, false, false, false, false, false);
    }

    method AfcStop()
      modifies this
      ensures Model() == Stop(old(Model()))
    {
      enafc := false;
      enqc20 := false;
      qc20 := false;
    }

    method AfcStart()
      modifies this
      ensures Model() == Start(old(Model()))
    {
      afcRetries := 0;
      vbusRetries := 0;
      qc20 := false;
      txd := TXD_9V;
      enafc := true;
    }

    method AfcAccepted(chgType: nat)
      modifies this
      ensures Model() == Accepted(old(Model()), chgType)
    {
      if chgType % 32 == TYPE_AFC {
        measures := measures + 1;
      } else {
        enafc := false;
      }
    }

    method AfcVbusUpdate(measured: nat)
      modifies this
      ensures Model() == VbusUpdate(old(Model()), measured)
    {
      var diff := measured % 16 - txd / 16 % 16;
      assert InRange(measured, txd) <==> -1 <= diff <= 1;
      hide InRange;
      if (if diff < 0 then -diff else diff) <= 1 {
        enafc := false;
        afc9v := true;
      } else {
        var tries := vbusRetries;
        vbusRetries := (vbusRetries + 1) % U32;
        if tries < RETRIES {
          measures := measures + 1;
        } else {
          AfcStop();
        }
      }
    }

    method AfcError(qcCapable: bool, chgType: nat)
      modifies this
      ensures Model() == Error(old(Model()), qcCapable, chgType)
    {
      var tries := afcRetries;
      afcRetries := (afcRetries + 1) % U32;
      if tries >= RETRIES {
        AfcStop();
      } else if qcCapable && chgType % 32 == TYPE_QC20 {
        enafc := false;
        enqc20 := true;
        qc20 := true;
        measures := measures + 1;
      } else {
        enafc := true;
      }
    }

    method HandleAfc(i: Irq)
      modifies this
      ensures Model() == Afc(old(Model()), i)
    {
      hide Start, Accepted, VbusUpdate, Error, Stop;
      if !i.vbus {
        AfcStop();
        return;
      }
      if i.attached {
        afcTa := true;
      }
      if hold5v {
        return;
      }
      if i.attached {
        AfcStart();
      }
      if i.accepted {
        AfcAccepted(i.acceptedType);
      }
      if i.vbusUpdate {
        AfcVbusUpdate(i.measured);
      }
      if i.error {
        AfcError(i.qcCapable, i.errorType);
      }
    }

    method RunDetect(r: Reading)
      modifies this
      ensures Model() == Detect(old(Model()), r)
    {
      var usb, sdp, dcp, cdp := false, false, false, false;
      var t := r.chgType % 32;
      if r.vbus {
        if t == TYPE_SDP || t == TYPE_DCD_OUT {
          usb, sdp := true, true;
        } else if t == TYPE_CDP {
          usb, cdp := true, true;
        } else if t == TYPE_DCP || t == TYPE_U200 || t == TYPE_AFC || t == TYPE_QC20 {
          dcp := true;
        }
      } else {
        afc9v := false;
        afcTa := false;
      }
      if !r.vbus || r.adc % 32 != ADC_KEYBOARD_DOCK {
        chgdetRerun := false;
      } else if t == 0 && !chgdetRerun {
        chgdetRerun := true;
        rescans := rescans + 1;
      }
      cable := Cable(dcp && afc9v, sdp, dcp, cdp, usb, r.adc % 32 == ADC_KEYBOARD_DOCK);
    }

    method AfcDrop(voltages: seq<nat>) returns (ret: int)
      modifies this
      ensures Model() == Drop(old(Model()))
      ensures ret == if Drop(old(Model())) != old(Model()) && !Fell(voltages) then -ETIMEDOUT else 0
    {
      if !afc9v && !enafc && !enqc20 {
        return 0;
      }
      enafc := false;
      enqc20 := false;
      disAfc := true;
      disAfc := false;
      afc9v := false;
      qc20 := false;
      measures := measures + 1;
      var i := 0;
      while i < 20 && i < |voltages|
        invariant 0 <= i && forall k :: 0 <= k < i && k < |voltages| ==> voltages[k] % 16 != 0
      {
        if voltages[i] % 16 == 0 {
          return 0;
        }
        i := i + 1;
      }
      ret := -ETIMEDOUT;
    }

    method Hold5v(hold: bool, p: Polls) returns (ret: int)
      modifies this
      ensures Model() == Hold(old(Model()), hold, p)
      ensures ret == HoldResult(old(Model()), hold, p)
    {
      ret := 0;
      if hold != hold5v {
        hold5v := hold;
        if afc && hold {
          ret := AfcDrop(p.voltages);
        } else if afc && afcTa && p.vbus {
          AfcStart();
        }
        RunDetect(p.detected);
      }
    }

    method HandleIrq(i: Irq)
      modifies this
      ensures Model() == OnIrq(old(Model()), i)
    {
      if afc {
        HandleAfc(i);
      }
      RunDetect(i.detected);
    }
  }

  // ---------- what every run keeps ----------

  predicate Initial(s: State) {
    !s.afc9v && !s.qc20 && !s.afcTa && !s.hold && s.afcRetries == 0 && s.vbusRetries == 0 && !s.cable.fast
  }

  /** No 9 V request is pending and none has been granted. */
  predicate Quiet(s: State) {
    !s.enafc && !s.enqc20 && !s.afc9v
  }

  predicate Inv(s: State) {
    && (s.afc && s.hold ==> Quiet(s))
    && (s.qc20 ==> s.enqc20)
    && (s.cable.fast ==> s.afc9v && !s.hold)
    && (!s.afc ==> !s.afc9v)
  }

  /** The part of the invariant that holds before detection refreshes the cable states. */
  predicate Core(s: State) {
    && (s.afc && s.hold ==> Quiet(s))
    && (s.qc20 ==> s.enqc20)
    && (!s.afc ==> !s.afc9v)
  }

  predicate Negotiating(s: State) {
    Core(s) && s.afc && !s.hold
  }

  lemma StartFacts(s: State)
    requires Negotiating(s)
    ensures Negotiating(Start(s)) && Start(s).afc9v == s.afc9v && Start(s).txd == TXD_9V
  {
  }

  lemma AcceptedFacts(s: State, chgType: nat)
    requires Negotiating(s)
    ensures Negotiating(Accepted(s, chgType))
    ensures Accepted(s, chgType).afc9v == s.afc9v && Accepted(s, chgType).txd == s.txd
  {
  }

  lemma VbusFacts(s: State, measured: nat)
    requires Negotiating(s)
    ensures Negotiating(VbusUpdate(s, measured))
    ensures VbusUpdate(s, measured).afc9v <==> s.afc9v || InRange(measured, s.txd)
  {
  }

  lemma ErrorFacts(s: State, qcCapable: bool, chgType: nat)
    requires Negotiating(s)
    ensures Negotiating(Error(s, qcCapable, chgType)) && Error(s, qcCapable, chgType).afc9v == s.afc9v
  {
  }

  /** The handlers of one interrupt grant 9 V exactly for a measurement in range. */
  lemma NegotiateFacts(s: State, i: Irq)
    requires Negotiating(s)
    ensures Negotiating(Negotiate(s, i))
    ensures Negotiate(s, i).afc9v <==> s.afc9v || (i.vbusUpdate && InRange(i.measured, RequestAt(s, i)))
  {
    hide Negotiating, Start, Accepted, VbusUpdate, Error, InRange;
    var s1 := if i.attached then Start(s) else s;
    StartFacts(s);
    var s2 := if i.accepted then Accepted(s1, i.acceptedType) else s1;
    AcceptedFacts(s1, i.acceptedType);
    var s3 := if i.vbusUpdate then VbusUpdate(s2, i.measured) else s2;
    VbusFacts(s2, i.measured);
    ErrorFacts(s3, i.qcCapable, i.errorType);
  }

  lemma AfcKeepsCore(s: State, i: Irq)
    requires Core(s) && s.afc
    ensures Core(Afc(s, i)) && Afc(s, i).afc && Afc(s, i).hold == s.hold
  {
    hide Negotiate;
    if i.vbus && !s.hold {
      NegotiateFacts(s.(afcTa := s.afcTa || i.attached), i);
    }
  }

  lemma DetectGivesInv(s: State, r: Reading)
    requires Core(s)
    ensures Inv(Detect(s, r)) && Detect(s, r).afc == s.afc && Detect(s, r).hold == s.hold
  {
  }

  lemma StepKeepsInv(s: State, e: Event)
    requires Inv(s)
    ensures Inv(Step(s, e)) && Step(s, e).afc == s.afc
    ensures Step(s, e).hold == if e.Request? then e.hold else s.hold
  {
    hide Afc, Detect;
    match e
    case Interrupt(i) =>
      if s.afc {
        AfcKeepsCore(s, i);
      }
      DetectGivesInv(if s.afc then Afc(s, i) else s, i.detected);
    case Request(hold, p) =>
      if hold != s.hold {
        DetectGivesInv(Changed(s, hold, p), p.detected);
      }
  }

  /** While VBUS is held at 5 V no request is pending and 9 V is never reported, after any run. */
  lemma {:induction false} RunKeepsInv(s: State, es: seq<Event>)
    requires Initial(s)
    ensures Inv(Run(s, es)) && Run(s, es).afc == s.afc
  {
    hide Step;
    if es != [] {
      RunKeepsInv(s, es[..|es| - 1]);
      StepKeepsInv(Run(s, es[..|es| - 1]), es[|es| - 1]);
    }
  }

  // ---------- flags that one kind of event sets and another clears ----------

  /** Event i of the run sets, and neither it nor a later one clears. */
  ghost predicate Since(
    s: State, es: seq<Event>, i: nat, sets: (State, Event) -> bool, clears: (State, Event) -> bool)
  {
    && i < |es| && sets(Run(s, es[..i]), es[i])
    && forall j :: i <= j < |es| ==> !clears(Run(s, es[..j]), es[j])
  }

  /** The run has set the flag and not cleared it since. */
  ghost predicate SetSince(
    s: State, es: seq<Event>, sets: (State, Event) -> bool, clears: (State, Event) -> bool)
  {
    exists i :: Since(s, es, i, sets, clears)
  }

  lemma SincePrefix(
    s: State, es: seq<Event>, n: nat, i: nat, sets: (State, Event) -> bool, clears: (State, Event) -> bool)
    requires n <= |es| && i < n
    requires forall j :: n <= j < |es| ==> !clears(Run(s, es[..j]), es[j])
    ensures Since(s, es[..n], i, sets, clears) <==> Since(s, es, i, sets, clears)
  {
    hide Run;
    assert forall j :: 0 <= j < n ==> es[..n][..j] == es[..j];
  }

  /** How one more event changes whether the run ends with the flag set. */
  lemma SinceStep(s: State, es: seq<Event>, sets: (State, Event) -> bool, clears: (State, Event) -> bool)
    requires es != []
    ensures var n := |es| - 1;
            var s' := Run(s, es[..n]);
            SetSince(s, es, sets, clears) <==>
              (SetSince(s, es[..n], sets, clears) || sets(s', es[n])) && !clears(s', es[n])
  {
    hide Run;
    var n := |es| - 1;
    if clears(Run(s, es[..n]), es[n]) {
    } else if sets(Run(s, es[..n]), es[n]) {
      assert Since(s, es, n, sets, clears);
    } else {
      forall i | 0 <= i < n
        ensures Since(s, es[..n], i, sets, clears) <==> Since(s, es, i, sets, clears)
      {
        SincePrefix(s, es, n, i, sets, clears);
      }
    }
  }

  // ---------- 9 V is reported exactly while measured ----------

  /** The request in force when the VBUS handler of an interrupt runs. */
  function RequestAt(s: State, i: Irq): nat {
    if i.attached then TXD_9V else s.txd
  }

  /** This event measures VBUS within one step of the request. */
  predicate Measures(s: State, e: Event) {
    e.Interrupt? && s.afc && !s.hold && e.irq.vbus && e.irq.vbusUpdate && InRange(e.irq.measured, RequestAt(s, e.irq))
  }

  /** Detection, which comes last in an event, reads VBUS gone. */
  predicate DetectsGone(s: State, e: Event) {
    match e
    case Interrupt(i) => !i.detected.vbus
    case Request(hold, p) => hold != s.hold && !p.detected.vbus
  }

  /** The AFC part, or the restart after a hold, reads VBUS gone. */
  predicate AfcSeesGone(s: State, e: Event) {
    match e
    case Interrupt(i) => s.afc && !i.vbus
    case Request(hold, p) => hold != s.hold && s.afc && !hold && s.afcTa && !p.vbus
  }

  /** The event is a hold that takes effect. */
  predicate Drops(s: State, e: Event) {
    e.Request? && e.hold && !s.hold && s.afc
  }

  /** What clears the 9 V state. */
  predicate Clears(s: State, e: Event) {
    DetectsGone(s, e) || Drops(s, e)
  }

  /** Either reading of VBUS finds it gone, or the event is a hold. */
  predicate Loses(s: State, e: Event) {
    DetectsGone(s, e) || AfcSeesGone(s, e) || Drops(s, e)
  }

  lemma AfcMeasures(s: State, i: Irq)
    requires Core(s) && s.afc
    ensures Afc(s, i).afc9v <==>
            s.afc9v || (!s.hold && i.vbus && i.vbusUpdate && InRange(i.measured, RequestAt(s, i)))
  {
    hide Negotiate, InRange;
    if i.vbus && !s.hold {
      NegotiateFacts(s.(afcTa := s.afcTa || i.attached), i);
    }
  }

  lemma DetectDrops(s: State, r: Reading)
    ensures Detect(s, r).afc9v <==> s.afc9v && r.vbus
    ensures Detect(s, r).afcTa <==> s.afcTa && r.vbus
  {
    DetectParts(s, r);
    hide Detect;
  }

  /** One event: the 9 V state is set by a measurement in range and cleared by detection or a hold only. */
  lemma StepMeasures(s: State, e: Event)
    requires Inv(s)
    ensures Step(s, e).afc9v <==> (s.afc9v || Measures(s, e)) && !Clears(s, e)
  {
    hide Afc, InRange, Detect;
    match e
    case Request(hold, p) =>
      if hold != s.hold {
        DetectDrops(Changed(s, hold, p), p.detected);
      }
    case Interrupt(i) =>
      DetectDrops(if s.afc then Afc(s, i) else s, i.detected);
      if s.afc {
        AfcMeasures(s, i);
      }
  }

  /** After any run 9 V is granted exactly when it was measured and not cleared since. */
  lemma {:induction false} GrantedExactly(s: State, es: seq<Event>)
    requires Initial(s)
    ensures Run(s, es).afc9v <==> SetSince(s, es, Measures, Clears)
  {
    hide Step, Measures, Clears;
    if es != [] {
      var n := |es| - 1;
      GrantedExactly(s, es[..n]);
      RunKeepsInv(s, es[..n]);
      StepMeasures(Run(s, es[..n]), es[n]);
      SinceStep(s, es, Measures, Clears);
    }
  }

  /**
    A fast charger is reported exactly when a dedicated charger is, and some
    interrupt measured VBUS within one step of the request since when detection
    has not read VBUS gone and no hold came.
  */
  lemma {:induction false} FastWasMeasured(s: State, es: seq<Event>)
    requires Initial(s)
    ensures Run(s, es).cable.fast <==> Run(s, es).cable.dcp && SetSince(s, es, Measures, Clears)
  {
    hide Detect, OnIrq, Changed, Measures, Clears;
    GrantedExactly(s, es);
    if es != [] {
      var n := |es| - 1;
      FastWasMeasured(s, es[..n]);
      GrantedExactly(s, es[..n]);
      StepReports(Run(s, es[..n]), es[n]);
    }
  }

  lemma StepReports(s: State, e: Event)
    requires s.cable.fast <==> s.cable.dcp && s.afc9v
    ensures var t := Step(s, e); t.cable.fast <==> t.cable.dcp && t.afc9v
  {
    hide Afc, Changed, Rerun;
  }

  /**
    Of the events that read VBUS gone, those in which detection does clear the
    9 V state; one in which only the AFC part or the restart does leaves it.
  */
  lemma LossClears(s: State, e: Event)
    requires Inv(s) && (DetectsGone(s, e) || AfcSeesGone(s, e))
    ensures Step(s, e).afc9v <==> s.afc9v && !DetectsGone(s, e)
  {
    hide Step, InRange;
    StepMeasures(s, e);
  }

  /** A loss of VBUS that the AFC part reads and detection does not. */
  predicate Missed(s: State, e: Event) {
    AfcSeesGone(s, e) && !DetectsGone(s, e)
  }

  /**
    9 V granted means that no reading at all has found VBUS gone since it was
    measured, at every moment of a run, exactly when no loss is missed while 9 V
    is granted.
  */
  lemma LossesCountExactly(s: State, es: seq<Event>)
    requires Initial(s)
    ensures (forall k :: 0 <= k <= |es| && Run(s, es[..k]).afc9v ==>
                         SetSince(s, es[..k], Measures, Loses)) <==>
            (forall j :: 0 <= j < |es| && Missed(Run(s, es[..j]), es[j]) ==> !Run(s, es[..j]).afc9v)
  {
    hide Run, Measures, Loses, Missed;
    if j :| 0 <= j < |es| && Missed(Run(s, es[..j]), es[j]) && Run(s, es[..j]).afc9v {
      MissedBreaks(s, es, j);
    } else {
      forall k | 0 <= k <= |es| && Run(s, es[..k]).afc9v
        ensures SetSince(s, es[..k], Measures, Loses)
      {
        assert forall j :: 0 <= j < k ==> es[..k][..j] == es[..j];
        NoneMissed(s, es[..k]);
      }
    }
  }

  lemma MissedBreaks(s: State, es: seq<Event>, j: nat)
    requires Initial(s) && j < |es| && Missed(Run(s, es[..j]), es[j]) && Run(s, es[..j]).afc9v
    ensures Run(s, es[..j + 1]).afc9v && !SetSince(s, es[..j + 1], Measures, Loses)
  {
    hide Step, Measures;
    assert es[..j + 1][..j] == es[..j];
    RunKeepsInv(s, es[..j]);
    LossClears(Run(s, es[..j]), es[j]);
    SinceStep(s, es[..j + 1], Measures, Loses);
  }

  lemma NoneMissed(s: State, es: seq<Event>)
    requires Initial(s) && Run(s, es).afc9v
    requires forall j :: 0 <= j < |es| && Missed(Run(s, es[..j]), es[j]) ==> !Run(s, es[..j]).afc9v
    ensures SetSince(s, es, Measures, Loses)
  {
    hide Run;
    GrantedExactly(s, es);
    var i: nat :| Since(s, es, i, Measures, Clears);
    forall j | i <= j < |es|
      ensures !Loses(Run(s, es[..j]), es[j])
    {
      if j > i {
        assert forall m :: 0 <= m < j ==> es[..j][..m] == es[..m];
        assert Since(s, es[..j], i, Measures, Clears);
        GrantedExactly(s, es[..j]);
      }
    }
    assert Since(s, es, i, Measures, Loses);
  }

  /**
    A loss is missed: a QC 2.0 charger is at 9 V, and the next interrupt reads
    VBUS gone first and present again in detection. ENQC20, without which such a
    charger does not stay at 9 V, is cleared; the fast charger is still reported.
  */
  lemma StaleFast(s: State)
    requires Initial(s) && s.afc
    ensures var there := Reading(true, TYPE_DCP, 0);
            var es := [Interrupt(Irq(true, false, false, true, true, 0, 0, true, TYPE_QC20, there)),
                       Interrupt(Irq(false, false, true, false, true, 0, 4, true, 0, there)),
                       Interrupt(Irq(false, false, false, false, false, 0, 0, true, 0, there))];
            Missed(Run(s, es[..2]), es[2]) && Run(s, es[..2]).qc20 &&
            Run(s, es).cable.fast && Run(s, es).afc9v && !Run(s, es).enqc20 && !Run(s, es).qc20
  {
    var there := Reading(true, TYPE_DCP, 0);
    var e0 := Interrupt(Irq(true, false, false, true, true, 0, 0, true, TYPE_QC20, there));
    var e1 := Interrupt(Irq(false, false, true, false, true, 0, 4, true, 0, there));
    var e2 := Interrupt(Irq(false, false, false, false, false, 0, 0, true, 0, there));
    var es := [e0, e1, e2];
    assert es[..2] == [e0, e1] && [e0, e1][..1] == [e0] && [e0][..0] == [];
    var s1 := Step(s, e0);
    assert Run(s, [e0]) == s1 && s1.enqc20 && s1.qc20 && s1.txd == TXD_9V && s1.afc && !s1.hold;
    var s2 := Step(s1, e1);
    assert Run(s, [e0, e1]) == s2 && s2.afc9v && s2.enqc20 && s2.afc && !s2.hold;
    assert Run(s, es) == Step(s2, e2);
  }

  // ---------- what is reported, and when detection reruns ----------

  /** At most one charger type is reported; USB data means SDP or CDP, fast means DCP. */
  predicate CableKept(c: Cable) {
    && !(c.sdp && c.dcp) && !(c.sdp && c.cdp) && !(c.dcp && c.cdp)
    && (c.usb <==> c.sdp || c.cdp) && (c.fast ==> c.dcp)
  }

  lemma {:induction false} RunKeepsCable(s: State, es: seq<Event>)
    requires CableKept(s.cable)
    ensures CableKept(Run(s, es).cable)
  {
    hide Afc, Drop, Start, Rerun;
    if es != [] {
      RunKeepsCable(s, es[..|es| - 1]);
    }
  }

  /** What detection read in this event; nothing if it did not run. */
  datatype Detection = NoDetection | Detected(r: Reading)

  function DetectionOf(s: State, e: Event): Detection {
    match e
    case Interrupt(i) => Detected(i.detected)
    case Request(hold, p) => if hold != s.hold then Detected(p.detected) else NoDetection
  }

  /** The last detection of a run. */
  function LastDetection(s: State, es: seq<Event>): Detection {
    if es == [] then NoDetection
    else
      var pre := es[..|es| - 1];
      var d := DetectionOf(Run(s, pre), es[|es| - 1]);
      if d.Detected? then d else LastDetection(s, pre)
  }

  /** The cable states a reading stands for: an SDP or a data contact timeout, a CDP, a DCP of four kinds, a cover. */
  predicate Reports(c: Cable, r: Reading) {
    var t := r.chgType % 32;
    && (c.sdp <==> r.vbus && (t == 0x04 || t == 0x08))
    && (c.cdp <==> r.vbus && t == 0x02)
    && (c.dcp <==> r.vbus && (t == 0x01 || t == 0x10 || t == 0x11 || t == 0x13))
    && (c.usb <==> r.vbus && (t == 0x02 || t == 0x04 || t == 0x08))
    && (c.dock <==> r.adc % 32 == 0x11)
  }

  lemma DetectReports(s: State, r: Reading)
    ensures Reports(Detect(s, r).cable, r)
  {
    hide Rerun;
  }

  lemma StepReportsPort(s: State, e: Event)
    ensures match DetectionOf(s, e)
            case Detected(r) => Reports(Step(s, e).cable, r)
            case NoDetection => Step(s, e).cable == s.cable
  {
    hide Afc, Changed, Reports, Detect;
    match e
    case Interrupt(i) => DetectReports(if s.afc then Afc(s, i) else s, i.detected);
    case Request(hold, p) => DetectReports(Changed(s, hold, p), p.detected);
  }

  /** After any run the cable states are those of the charger type and ID pin last detected. */
  lemma {:induction false} ReportedByType(s: State, es: seq<Event>)
    ensures match LastDetection(s, es)
            case Detected(r) => Reports(Run(s, es).cable, r)
            case NoDetection => Run(s, es).cable == s.cable
  {
    hide Step, Reports, DetectionOf;
    if es != [] {
      ReportedByType(s, es[..|es| - 1]);
      StepReportsPort(Run(s, es[..|es| - 1]), es[|es| - 1]);
    }
  }

  predicate Docked(r: Reading) { r.vbus && r.adc % 32 == ADC_KEYBOARD_DOCK }

  predicate AllDocked(es: seq<Event>) {
    forall k :: 0 <= k < |es| ==> Docked(if es[k].Interrupt? then es[k].irq.detected else es[k].polls.detected)
  }

  /** The fields that the AFC handlers leave alone. */
  predicate SameRest(s: State, t: State) {
    s.afcTa == t.afcTa && s.rerun == t.rerun && s.rescans == t.rescans
  }

  lemma RequestsLeaveRest(s: State, chgType: nat)
    ensures SameRest(s, Start(s)) && SameRest(s, Accepted(s, chgType))
  {
  }

  lemma VbusLeavesRest(s: State, measured: nat)
    ensures SameRest(s, VbusUpdate(s, measured))
  {
    hide InRange;
  }

  lemma ErrorLeavesRest(s: State, qcCapable: bool, chgType: nat)
    ensures SameRest(s, Error(s, qcCapable, chgType))
  {
  }

  lemma NegotiateLeavesRest(s: State, i: Irq)
    ensures SameRest(s, Negotiate(s, i))
  {
    hide Start, Accepted, VbusUpdate, Error;
    var s1 := if i.attached then Start(s) else s;
    RequestsLeaveRest(s, 0);
    var s2 := if i.accepted then Accepted(s1, i.acceptedType) else s1;
    RequestsLeaveRest(s1, i.acceptedType);
    var s3 := if i.vbusUpdate then VbusUpdate(s2, i.measured) else s2;
    VbusLeavesRest(s2, i.measured);
    ErrorLeavesRest(s3, i.qcCapable, i.errorType);
  }

  lemma AfcLeavesRerun(s: State, i: Irq)
    ensures Afc(s, i).rerun == s.rerun && Afc(s, i).rescans == s.rescans
  {
    hide Negotiate;
    NegotiateLeavesRest(s.(afcTa := s.afcTa || i.attached), i);
  }

  /** Detection, apart from the cable states it reports. */
  lemma DetectParts(s: State, r: Reading)
    ensures Detect(s, r) ==
            Rerun(if r.vbus then s else s.(afc9v := false, afcTa := false), r).(cable := Detect(s, r).cable)
  {
    hide Rerun;
  }

  lemma DetectReruns(s: State, r: Reading)
    ensures Docked(r) && s.rerun ==> Detect(s, r).rerun && Detect(s, r).rescans == s.rescans
    ensures Docked(r) && !s.rerun ==> Detect(s, r).rescans == s.rescans + if Detect(s, r).rerun then 1 else 0
  {
    DetectParts(s, r);
    hide Detect;
  }

  lemma StepReruns(s: State, e: Event)
    requires Docked(if e.Interrupt? then e.irq.detected else e.polls.detected)
    ensures var t := Step(s, e);
            (s.rerun ==> t.rerun && t.rescans == s.rescans) &&
            (!s.rerun ==> t.rescans == s.rescans + if t.rerun then 1 else 0)
  {
    hide Afc, Detect, Docked;
    match e
    case Interrupt(i) =>
      AfcLeavesRerun(s, i);
      DetectReruns(if s.afc then Afc(s, i) else s, i.detected);
    case Request(hold, p) =>
      DetectReruns(Changed(s, hold, p), p.detected);
  }

  /** While a keyboard cover stays on with VBUS present, detection is rerun at most once, over any run. */
  lemma {:induction false} RerunOnce(s: State, es: seq<Event>)
    requires AllDocked(es)
    ensures var t := Run(s, es);
            t.rescans == s.rescans + (if t.rerun && !s.rerun then 1 else 0) && (s.rerun ==> t.rerun)
  {
    hide Step, Docked;
    if es != [] {
      RerunOnce(s, es[..|es| - 1]);
      StepReruns(Run(s, es[..|es| - 1]), es[|es| - 1]);
    }
  }

  /** Detection finds a cover on and no charger type. */
  predicate Untyped(s: State, e: Event) {
    var d := DetectionOf(s, e);
    d.Detected? && Docked(d.r) && d.r.chgType % 32 == 0
  }

  /** Detection finds no cover on, or no VBUS. */
  predicate Undocks(s: State, e: Event) {
    var d := DetectionOf(s, e);
    d.Detected? && !Docked(d.r)
  }

  lemma RerunExactly(s: State, r: Reading)
    ensures Detect(s, r).rerun <==> r.vbus && r.adc % 32 == 0x11 && (s.rerun || r.chgType % 32 == 0)
    ensures Detect(s, r).rescans ==
            s.rescans + if r.vbus && r.adc % 32 == 0x11 && r.chgType % 32 == 0 && !s.rerun then 1 else 0
  {
    DetectParts(s, r);
    hide Detect;
  }

  lemma StepRescans(s: State, e: Event)
    ensures Step(s, e).rerun <==> (s.rerun || Untyped(s, e)) && !Undocks(s, e)
    ensures Step(s, e).rescans == s.rescans + if Untyped(s, e) && !s.rerun then 1 else 0
  {
    hide Afc, Detect;
    match e
    case Interrupt(i) =>
      AfcLeavesRerun(s, i);
      RerunExactly(if s.afc then Afc(s, i) else s, i.detected);
    case Request(hold, p) =>
      RerunExactly(Changed(s, hold, p), p.detected);
  }

  /**
    Detection is rerun exactly at the events that find a cover on without a
    charger type while none has since the cover was last off.
  */
  lemma {:induction false} RerunsExactly(s: State, es: seq<Event>)
    requires !s.rerun
    ensures Run(s, es).rerun <==> SetSince(s, es, Untyped, Undocks)
    ensures es != [] ==>
              var n := |es| - 1;
              Run(s, es).rescans == Run(s, es[..n]).rescans +
                if Untyped(Run(s, es[..n]), es[n]) && !SetSince(s, es[..n], Untyped, Undocks) then 1 else 0
  {
    hide Step, Untyped, Undocks;
    if es != [] {
      var n := |es| - 1;
      RerunsExactly(s, es[..n]);
      StepRescans(Run(s, es[..n]), es[n]);
      SinceStep(s, es, Untyped, Undocks);
    }
  }

  // ---------- what an event asks the device for ----------

  /** The counters, the request and the request bits: what detection leaves alone. */
  predicate SameRequest(s: State, t: State) {
    && s.enafc == t.enafc && s.enqc20 == t.enqc20 && s.qc20 == t.qc20 && s.txd == t.txd
    && s.measures == t.measures && s.afcRetries == t.afcRetries && s.vbusRetries == t.vbusRetries
  }

  lemma DetectLeavesRequest(s: State, r: Reading)
    ensures SameRequest(s, Detect(s, r))
  {
    var t := if r.vbus then s else s.(afc9v := false, afcTa := false);
    DetectParts(s, r);
    RerunParts(t, r);
    hide Detect, Rerun;
  }

  lemma RerunParts(s: State, r: Reading)
    ensures SameRequest(s, Rerun(s, r))
  {
  }

  /** The retries in force in an interrupt: none used yet if a charger has just answered. */
  function AfcTries(s: State, i: Irq): nat { if i.attached then 0 else s.afcRetries }

  function VbusTries(s: State, i: Irq): nat { if i.attached then 0 else s.vbusRetries }

  /** A measurement one step or less from the request: for 9 V, 8 to 10 V. */
  predicate Matches(s: State, i: Irq) {
    var step := if i.attached then 4 else s.txd / 16 % 16;
    i.vbusUpdate && (i.measured % 16 == step || i.measured % 16 == step + 1 || i.measured % 16 + 1 == step)
  }

  /** The last measurement the budget allows missed too. */
  predicate Misses(s: State, i: Irq) { i.vbusUpdate && !Matches(s, i) && VbusTries(s, i) >= 5 }

  /** AFC has failed with a charger that speaks QC 2.0. */
  predicate TurnsToQc(s: State, i: Irq) {
    i.error && AfcTries(s, i) < 5 && i.qcCapable && i.errorType % 32 == 0x13
  }

  predicate GivesUp(s: State, i: Irq) { i.error && AfcTries(s, i) >= 5 }

  lemma MatchesInRange(s: State, i: Irq)
    ensures Matches(s, i) <==> i.vbusUpdate && InRange(i.measured, RequestAt(s, i))
  {
  }

  lemma StartAsks(s: State)
    ensures var t := Start(s);
            && t.enafc && !t.qc20 && t.txd == 0x46 && t.afcRetries == 0 && t.vbusRetries == 0
            && t.enqc20 == s.enqc20 && t.measures == s.measures
  {
  }

  lemma AcceptedAsks(s: State, chgType: nat)
    ensures var afc, t := chgType % 32 == 0x11, Accepted(s, chgType);
            && t.enafc == (s.enafc && afc) && t.measures == s.measures + (if afc then 1 else 0)
            && t.enqc20 == s.enqc20 && t.qc20 == s.qc20 && t.txd == s.txd
            && t.afcRetries == s.afcRetries && t.vbusRetries == s.vbusRetries
  {
  }

  lemma VbusAsks(s: State, measured: nat)
    ensures var near, t := InRange(measured, s.txd), VbusUpdate(s, measured);
            && (t.enafc <==> s.enafc && !near && s.vbusRetries < 5)
            && (t.enqc20 <==> s.enqc20 && (near || s.vbusRetries < 5))
            && (t.qc20 <==> s.qc20 && (near || s.vbusRetries < 5))
            && t.measures == s.measures + (if !near && s.vbusRetries < 5 then 1 else 0)
            && t.vbusRetries == (if near then s.vbusRetries else (s.vbusRetries + 1) % U32)
            && t.txd == s.txd && t.afcRetries == s.afcRetries
  {
    hide InRange;
    if !InRange(measured, s.txd) {
      if s.vbusRetries < 5 {
        assert VbusUpdate(s, measured).measures == s.measures + 1;
      } else {
        assert VbusUpdate(s, measured) == Stop(s.(vbusRetries := (s.vbusRetries + 1) % U32));
      }
    }
  }

  lemma ErrorAsks(s: State, qcCapable: bool, chgType: nat)
    ensures var qc, t := qcCapable && chgType % 32 == 0x13 && s.afcRetries < 5, Error(s, qcCapable, chgType);
            && (t.enafc <==> s.afcRetries < 5 && !qc)
            && (t.enqc20 <==> qc || (s.enqc20 && s.afcRetries < 5))
            && (t.qc20 <==> qc || (s.qc20 && s.afcRetries < 5))
            && t.measures == s.measures + (if qc then 1 else 0)
            && t.afcRetries == (s.afcRetries + 1) % U32
            && t.txd == s.txd && t.vbusRetries == s.vbusRetries
  {
  }

  /** What the four handlers of an interrupt together ask for, whatever comes in it. */
  lemma NegotiateAsks(s: State, i: Irq)
    ensures var t := Negotiate(s, i);
            && (t.enafc <==>
                 if i.error then AfcTries(s, i) < 5 && !TurnsToQc(s, i)
                 else !Matches(s, i) && !Misses(s, i) && (i.accepted ==> i.acceptedType % 32 == 0x11)
                      && (i.attached || s.enafc))
            && (t.enqc20 <==> TurnsToQc(s, i) || (!GivesUp(s, i) && !Misses(s, i) && s.enqc20))
            && (t.qc20 <==> TurnsToQc(s, i) || (!GivesUp(s, i) && !Misses(s, i) && !i.attached && s.qc20))
            && t.txd == (if i.attached then 0x46 else s.txd)
            && t.measures == s.measures
                 + (if i.accepted && i.acceptedType % 32 == 0x11 then 1 else 0)
                 + (if i.vbusUpdate && !Matches(s, i) && VbusTries(s, i) < 5 then 1 else 0)
                 + (if TurnsToQc(s, i) then 1 else 0)
            && t.afcRetries == (if i.error then (AfcTries(s, i) + 1) % U32 else AfcTries(s, i))
            && t.vbusRetries ==
                 (if i.vbusUpdate && !Matches(s, i) then (VbusTries(s, i) + 1) % U32 else VbusTries(s, i))
  {
    hide InRange, Matches, Start, Accepted, VbusUpdate, Error;
    MatchesInRange(s, i);
    var s1 := if i.attached then Start(s) else s;
    StartAsks(s);
    var s2 := if i.accepted then Accepted(s1, i.acceptedType) else s1;
    AcceptedAsks(s1, i.acceptedType);
    var s3 := if i.vbusUpdate then VbusUpdate(s2, i.measured) else s2;
    VbusAsks(s2, i.measured);
    ErrorAsks(s3, i.qcCapable, i.errorType);
  }

  /**
    An interrupt with AFC on: without VBUS at its first reading it stops every
    request; while held it asks for nothing; else as NegotiateAsks says.
  */
  lemma IrqAsks(s: State, i: Irq)
    requires s.afc
    ensures var t := OnIrq(s, i);
            && (!i.vbus ==> SameRequest(t, s.(enafc := false, enqc20 := false, qc20 := false)))
            && (i.vbus && s.hold ==> SameRequest(t, s))
            && (i.vbus && !s.hold ==> SameRequest(t, Negotiate(s.(afcTa := s.afcTa || i.attached), i)))
  {
    hide Detect, Negotiate;
    DetectLeavesRequest(Afc(s, i), i.detected);
  }

  /** A hold clears every request and measures VBUS once, if there was anything to clear. */
  lemma HoldAsks(s: State, p: Polls)
    requires s.afc && !s.hold
    ensures var t := Hold(s, true, p);
            var had := s.afc9v || s.enafc || s.enqc20;
            && !t.enafc && !t.enqc20 && !t.afc9v && t.txd == s.txd
            && t.qc20 == (if had then false else s.qc20)
            && t.measures == s.measures + (if had then 1 else 0)
            && t.afcRetries == s.afcRetries && t.vbusRetries == s.vbusRetries
    ensures HoldResult(s, true, p) == 0 <==>
            !(s.afc9v || s.enafc || s.enqc20) || exists i :: 0 <= i < |p.voltages| && i < 20 && p.voltages[i] % 16 == 0
  {
    HoldReadsTwenty(s, p);
    hide Detect, HoldResult;
    DetectLeavesRequest(Changed(s, true, p), p.detected);
    DetectDrops(Changed(s, true, p), p.detected);
  }

  lemma HoldReadsTwenty(s: State, p: Polls)
    requires s.afc && !s.hold
    ensures HoldResult(s, true, p) == 0 <==>
            !(s.afc9v || s.enafc || s.enqc20) || exists i :: 0 <= i < |p.voltages| && i < 20 && p.voltages[i] % 16 == 0
  {
  }

  /** Letting go starts over, with fresh counters, if a charger has answered and VBUS is there. */
  lemma ReleaseAsks(s: State, p: Polls)
    requires s.afc && s.hold
    ensures var t := Hold(s, false, p);
            if s.afcTa && p.vbus then
              t.enafc && t.txd == 0x46 && t.afcRetries == t.vbusRetries == 0 && !t.qc20 &&
              t.enqc20 == s.enqc20 && t.measures == s.measures
            else SameRequest(t, s)
  {
    hide Detect;
    DetectLeavesRequest(Changed(s, false, p), p.detected);
  }

  // ---------- 9 V is asked for again only from a charger that answered ----------

  /** This event shows an AFC or QC 2.0 charger attached. */
  predicate Answers(s: State, e: Event) {
    e.Interrupt? && s.afc && e.irq.vbus && e.irq.attached
  }

  lemma StepAnswers(s: State, e: Event)
    ensures Step(s, e).afcTa <==> (s.afcTa || Answers(s, e)) && !DetectsGone(s, e)
  {
    hide Negotiate, Detect;
    match e
    case Interrupt(i) =>
      NegotiateLeavesRest(s.(afcTa := s.afcTa || i.attached), i);
      DetectDrops(if s.afc then Afc(s, i) else s, i.detected);
    case Request(hold, p) =>
      DetectDrops(Changed(s, hold, p), p.detected);
  }

  lemma {:induction false} TaAnswered(s: State, es: seq<Event>)
    requires !s.afcTa
    ensures Run(s, es).afcTa <==> SetSince(s, es, Answers, DetectsGone)
  {
    hide Step, Answers, DetectsGone;
    if es != [] {
      var n := |es| - 1;
      TaAnswered(s, es[..n]);
      StepAnswers(Run(s, es[..n]), es[n]);
      SinceStep(s, es, Answers, DetectsGone);
    }
  }

  /**
    Letting go of the hold asks for 9 V again exactly when VBUS is read present
    and, somewhere in the run, an AFC or QC 2.0 charger has answered since when
    detection has not read VBUS gone. A loss that only the AFC part reads does
    not make the driver forget the charger.
  */
  lemma ReleaseRestarts(s: State, es: seq<Event>, p: Polls)
    requires Initial(s) && s.afc && Run(s, es).hold
    ensures Hold(Run(s, es), false, p).enafc <==> p.vbus && SetSince(s, es, Answers, DetectsGone)
  {
    hide Run;
    RunKeepsInv(s, es);
    TaAnswered(s, es);
  }

  // ---------- the retry budgets ----------

  /**
    The driver with counts kept since the last request for 9 V: errors handled,
    errors answered with a new request, out-of-range measurements, and
    measurements repeated for them.
  */
  datatype Audit = Audit(s: State, errors: nat, grants: nat, misses: nat, rereads: nat)

  function AuditNegotiate(a: Audit, i: Irq): Audit {
    var a1 := if i.attached then Audit(Start(a.s), 0, 0, 0, 0) else a;
    var a2 := if i.accepted then a1.(s := Accepted(a1.s, i.acceptedType)) else a1;
    var a3 := if i.vbusUpdate then AuditVbus(a2, i.measured) else a2;
    if i.error then AuditError(a3, i.qcCapable, i.errorType) else a3
  }

  function AuditVbus(a: Audit, measured: nat): Audit {
    var s' := VbusUpdate(a.s, measured);
    if InRange(measured, a.s.txd) then a.(s := s')
    else a.(s := s', misses := a.misses + 1, rereads := a.rereads + if s'.measures > a.s.measures then 1 else 0)
  }

  function AuditError(a: Audit, qcCapable: bool, chgType: nat): Audit {
    var s' := Error(a.s, qcCapable, chgType);
    a.(s := s', errors := a.errors + 1, grants := a.grants + if s'.enafc || s'.enqc20 then 1 else 0)
  }

  function AuditStep(a: Audit, e: Event): Audit {
    match e
    case Interrupt(i) =>
      var a' := if a.s.afc && i.vbus && !a.s.hold
                then AuditNegotiate(a.(s := a.s.(afcTa := a.s.afcTa || i.attached)), i) else a;
      a'.(s := OnIrq(a.s, i))
    case Request(hold, p) =>
      var a' := if hold != a.s.hold && a.s.afc && !hold && a.s.afcTa && p.vbus then Audit(a.s, 0, 0, 0, 0) else a;
      a'.(s := Hold(a.s, hold, p))
  }

  function AuditRun(s: State, es: seq<Event>): Audit {
    if es == [] then Audit(s, 0, 0, 0, 0) else AuditStep(AuditRun(s, es[..|es| - 1]), es[|es| - 1])
  }

  /** How many of n tries a 32-bit counter that must stay below 5 lets through. */
  function Allowed(n: nat): nat {
    RETRIES * (n / U32) + if n % U32 < RETRIES then n % U32 else RETRIES
  }

  predicate Budget(a: Audit) {
    && a.s.afcRetries == a.errors % U32 && a.grants == Allowed(a.errors)
    && a.s.vbusRetries == a.misses % U32 && a.rereads == Allowed(a.misses)
    && (a.errors % U32 > RETRIES ==> !a.s.enafc && !a.s.enqc20)
  }

  lemma AllowedNext(n: nat)
    ensures Allowed(n + 1) == Allowed(n) + if n % U32 < RETRIES then 1 else 0
    ensures (n + 1) % U32 == (n % U32 + 1) % U32
  {
    if n % U32 == U32 - 1 {
      assert n + 1 == U32 * (n / U32 + 1);
      assert (n + 1) / U32 == n / U32 + 1;
    } else {
      assert n + 1 == U32 * (n / U32) + (n % U32 + 1);
      assert (n + 1) / U32 == n / U32;
    }
  }

  lemma VbusKeepsBudget(a: Audit, measured: nat)
    requires Budget(a)
    ensures Budget(AuditVbus(a, measured))
  {
    AllowedNext(a.misses);
  }

  lemma ErrorKeepsBudget(a: Audit, qcCapable: bool, chgType: nat)
    requires Budget(a)
    ensures Budget(AuditError(a, qcCapable, chgType))
  {
    AllowedNext(a.errors);
    var a' := AuditError(a, qcCapable, chgType);
    assert a'.s.afcRetries == a'.errors % U32;
  }

  lemma NegotiateKeepsBudget(a: Audit, i: Irq)
    requires Budget(a)
    ensures Budget(AuditNegotiate(a, i)) && AuditNegotiate(a, i).s == Negotiate(a.s, i)
  {
    hide Allowed;
    var a1 := if i.attached then Audit(Start(a.s), 0, 0, 0, 0) else a;
    assert Budget(a1) by {
      FreshBudget(Start(a.s));
    }
    var a2 := if i.accepted then a1.(s := Accepted(a1.s, i.acceptedType)) else a1;
    assert Budget(a2);
    var a3 := if i.vbusUpdate then AuditVbus(a2, i.measured) else a2;
    VbusKeepsBudget(a2, i.measured);
    assert Budget(a3);
    ErrorKeepsBudget(a3, i.qcCapable, i.errorType);
  }

  lemma FreshBudget(s: State)
    requires s.afcRetries == 0 && s.vbusRetries == 0
    ensures Budget(Audit(s, 0, 0, 0, 0))
  {
  }

  /**
    After any run: of the n errors since the last request, exactly Allowed(n)
    were answered with a new one, so at most five for fewer than 2^32 errors;
    once the budget is spent both request bits stay clear. The same count bounds
    the repeated measurements.
  */
  lemma {:induction false} RetryBudget(s: State, es: seq<Event>)
    requires Initial(s)
    ensures Budget(AuditRun(s, es)) && AuditRun(s, es).s == Run(s, es)
  {
    hide AuditStep, Step;
    if es == [] {
      FreshBudget(s);
    } else {
      RetryBudget(s, es[..|es| - 1]);
      StepKeepsBudget(AuditRun(s, es[..|es| - 1]), es[|es| - 1]);
    }
  }

  /** Detection touches no counter and no request bit. */
  lemma DetectKeepsBudget(a: Audit, r: Reading)
    requires Budget(a)
    ensures Budget(a.(s := Detect(a.s, r)))
  {
    hide Allowed;
  }

  lemma StepKeepsBudget(a: Audit, e: Event)
    requires Budget(a)
    ensures Budget(AuditStep(a, e)) && AuditStep(a, e).s == Step(a.s, e)
  {
    hide Allowed, Detect, Negotiate, AuditNegotiate;
    match e
    case Interrupt(i) =>
      var s' := a.s.(afcTa := a.s.afcTa || i.attached);
      if a.s.afc && i.vbus && !a.s.hold {
        NegotiateKeepsBudget(a.(s := s'), i);
        DetectKeepsBudget(AuditNegotiate(a.(s := s'), i), i.detected);
      } else {
        DetectKeepsBudget(a.(s := if a.s.afc then Afc(a.s, i) else a.s), i.detected);
      }
    case Request(hold, p) =>
      if hold != a.s.hold {
        var s' := a.s.(hold := hold);
        if a.s.afc && hold {
          DetectKeepsBudget(a.(s := Drop(s')), p.detected);
        } else if a.s.afc && a.s.afcTa && p.vbus {
          FreshBudget(Start(s'));
          DetectKeepsBudget(Audit(Start(s'), 0, 0, 0, 0), p.detected);
        } else {
          DetectKeepsBudget(a.(s := s'), p.detected);
        }
      }
  }

  lemma AtMostFive(a: Audit)
    requires Budget(a) && a.errors < U32 && a.misses < U32
    ensures a.grants <= 5 && a.rereads <= 5
    ensures a.errors > 5 ==> !a.s.enafc && !a.s.enqc20
  {
  }
}
