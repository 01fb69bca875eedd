# Models of the Galaxy Tab S3 mainline tree

This project models the state machines and data paths of the tree that are more
than register tables, and proves what they keep. Each `.dfy` file is one module,
named after what it models.

| module | what it models |
|---|---|
| DsiRead | reading a panel register of any length through the 16-byte window of the DSI host |
| PanelGamma | smart dimming of the AMOLED panel: decoding factory offsets, interpolating, choosing gray levels, encoding |
| TempGuard | the battery temperature zones and their hysteresis |
| Muic | the SM5705 MUIC: charger detection, AFC and QC 2.0 negotiation, holding VBUS at 5 V |
| Charger | the SM5705 charger together with the MUIC: limits, operating mode, torch, USB OTG, cable changes |
| Download | the parallel, resumable downloader |
| Digitizer | power and input of the Wacom W9000 pen digitizer |
| Stmpe | the packed pin multiplexer of the STMPE expander |
| QmiLoc | TLV messages and transaction numbers of the QMI location client |
| AudioRouting | COPPs held by audio streams |
| BestPdo | the choice among USB PD source capabilities |

## How the models are built

A driver or program that changes state is a class (or a method with a loop) whose
methods are proved against functions on values; the laws are lemmas about those
functions, over every input and every run. A run is a sequence of operations. Each
critical section is one operation, so the order of operations is every
interleaving of lock holders. An interrupt of the MUIC that comes between the
charger taking its own lock and calling the MUIC reads nothing of the charger, so
it is the same as one before that operation. The charger's input limit and source
type are written before the lock is taken, and no operation under the lock reads
them. The audio mixer controls take no lock at all, and a stream's close looks its
session up without it: what an open reads of the port map, at its empty test and
at each search, and the session a close has found are inputs, so any change in
between is covered.

What the code reads from outside is an input of the operation: register readings,
the regulator's and the bus's results, the answers of mirrors, the extcon states
(read before the charger's lock is taken, so of any age), the temperature. One MUIC
interrupt reads "VBUS valid" twice, and the two readings are separate inputs. Time
is not modelled: delays pass, polls are a list of readings.

32-bit counters wrap where that can show (the MUIC's retry counters). C's division
truncates and its shift of a negative number rounds down, and both are written out,
as is the panel encoder's 64-bit quotient cut to 32 bits. Elsewhere integers are
unbounded. Two products the code forms in 32 bits are shown to fit: a step's
luminance targets, exactly for bases below 1024 cd/m2 (`PanelGamma.TargetsFit`),
and a PDO's power, always (`BestPdo.PowerFits`).

## What differs from what one might expect

- The decoded gamma curve is not always ordered: factory bytes can put V255 above
  VT. It is ordered exactly when they do not (`PanelGamma.CurveOrdered`).
- Encoding undoes decoding within one code only if the gap a point divides is long
  enough for its offset: with num = 192 + offset, and e = 0 if 5 divides num and 1
  otherwise, exactly if (gap num - e) mod 320 + e <= gap (`PanelGamma.RoundTrip`).
  From 318 units on every offset survives (`PanelGamma.LongGapsDivide`); factory
  bytes can leave 310 (`PanelGamma.ShortGapExample`).
- The encoder's 64-bit quotient is stored in a 32-bit integer. Whatever the factory
  bytes, it fits for levels that do not increase from V255 to V11 and stay at 4 or
  above (`PanelGamma.OrderedLevelsExact`). Every step of the driver's table gives
  such levels (the least at V11 is 10). Other levels can wrap around: 3 at V11
  (`PanelGamma.LowLevelWraps`), or a brighter level after a darker one
  (`PanelGamma.UnorderedLevelsWrap`); no step of the table picks those.
- An interrupt reads VBUS twice. If only the first reading finds it gone, 9 V
  negotiation is stopped but the 9 V state and the reported fast charger stay
  (`Muic.StaleFast`). They mean what they say at every moment exactly in the runs
  where detection misses no such loss while 9 V is granted
  (`Muic.LossesCountExactly`).
- Lighting the torch does not always show that VBUS came down: with the 9 V flag set
  it does exactly while the hold is not yet in force and a MUIC is there that is
  unbound or has something to drop (`Charger.GrantMeansFell`). So a request refused
  because VBUS stayed at 9 V is granted when repeated: the hold is then in force,
  and the call that would look at VBUS returns at once
  (`Charger.RefusedThenGranted`, reached from probe in `Charger.RefusedRun`).
- The flag that keeps the torch off 9 V does not cover a PD contract at 9 V: such a
  source also sets the hold, and the next torch request clears the flag
  (`Charger.PdSourceLightsTorch`). With AFC and QC 2.0 the torch does imply that no
  9 V is negotiated (`Charger.TorchMeansFiveVolts`).
- With a 15 W source and a battery limit below 2.7 A the driver's 2.7 A is rejected,
  so the register keeps the last accepted value: safe, but after COOL it stays at
  0.9 A (`Charger.CoolCurrentSticks`). This is the only way a zone's current is
  rejected (`Charger.RejectedExactly`); its voltage is exactly when probe found less
  than 4.01 V in the register and no battery limit changed it, and it then stays
  (`Charger.VoltageRejectedExactly`).
- If the MUIC's driver is unbound and bound again while the charger holds VBUS at
  5 V, the new one knows of no hold, and 9 V can come on with the torch lit
  (`Charger.ReboundGrants`). In all other runs the two drivers always agree
  (`Charger.RunKeepsInv`).
- recv reads at most 65536 bytes, so a request with a body of 65530 to 65535 bytes,
  which the length field allows, comes back without its last TLV
  (`QmiLoc.RoundTrip`).
- A panel that answers a read of one or two bytes with a long packet is believed: the
  caller gets bytes of the host's stack (`DsiRead.Host.CmdRx`).
- A value of a location message may run past the length its header declares
  (`QmiLoc.RunsPastEnd`).
- The warm and cool zones follow their own thresholds alone only if the alert limits
  leave them room, as the board's 0 and 50 degrees do (`TempGuard.WarmExactly`,
  `TempGuard.CoolExactly`).
- With no worker threads the downloader finishes at once (`Download.NoWorkersNoFile`);
  the checksum then does not match. This is the only way to finish without the file
  (`Download.DownloadExactly`).
- A record that raises after the chunk is written (the log cannot be appended to, or
  the terminal is gone) sends the worker back to fetch the same chunk again
  (`Download.FailedRecordRefetches`). The download still ends right.
- A close that has looked its session up can end another frontend's stream, if the
  session changes hands before it gets the lock (`AudioRouting.StaleClose`).
- A stream can be opened without any COPP and no error, if a mixer control clears its
  routes between the test for a route and the search for it
  (`AudioRouting.EmptySuccess`).
- A COLD toggle costs 52 tenths of a degree, one more than a HOT toggle, because
  COLD is left only above its recovery point (`TempGuard.ColdTogglesExactly`).

## Model

| member | source | states |
|---|---|---|
| DsiRead.Splice | kernel/drivers/gpu/drm/msm/dsi/dsi_host.c:1513-1537 | A register window taken after n payload bytes, with its repeated bytes skipped, is the panel's answer from the current write offset on; joined to what is in rx_buf it gives the first header, the first n payload bytes and the checksum |
| DsiRead.FirstPass | kernel/drivers/gpu/drm/msm/dsi/dsi_host.c:2279-2291 | The first pass leaves the header and ten payload bytes for the next pass, or the whole answer when it is the only pass, for every length from 3 |
| DsiRead.LaterPass | kernel/drivers/gpu/drm/msm/dsi/dsi_host.c:1513-1540 | Every later pass keeps rx_buf equal to the first header followed by a payload prefix; the last one completes it. No byte is lost, repeated or taken from a checksum |
| DsiRead.CompleteResponds | kernel/drivers/gpu/drm/msm/dsi/dsi_host.c:2369-2397 | From a complete rx_buf the reply is the register's first rx_len bytes, found 10 - rx_len bytes in for a single short pass |
| DsiRead.Host.ReadRegisters | kernel/drivers/gpu/drm/msm/dsi/dsi_host.c:1503-1534 | The host's copy of the registers is the window in order of arrival; a 4-byte read leaves the other bytes as the stack had them |
| DsiRead.Host.CmdDmaRx | kernel/drivers/gpu/drm/msm/dsi/dsi_host.c:1493-1540 | Copies the window without its repeated bytes to the write offset and touches nothing else in rx_buf |
| DsiRead.Host.Deliver | kernel/drivers/gpu/drm/msm/dsi/dsi_host.c:2369-2397 | A short answer stores its one or two parameters and returns their count, or -EINVAL and nothing stored without a buffer of that length; a long one stores rx_len bytes past its header; an error report or an unknown type returns 0 and stores nothing |
| DsiRead.Host.ShortResponse1 | kernel/drivers/gpu/drm/msm/dsi/dsi_host.c:1397-1409 | One parameter, or -EINVAL |
| DsiRead.Host.ShortResponse2 | kernel/drivers/gpu/drm/msm/dsi/dsi_host.c:1414-1427 | Two parameters in order, or -EINVAL |
| DsiRead.Host.LongResponse | kernel/drivers/gpu/drm/msm/dsi/dsi_host.c:1429-1436 | rx_len bytes after the four of the header |
| DsiRead.Host.Pass | kernel/drivers/gpu/drm/msm/dsi/dsi_host.c:2333-2343 | 0 to 13 bytes of a window repeat, so a pass always copies something; it never writes past max(16, rx_len + 6) |
| DsiRead.Host.ReadPasses | kernel/drivers/gpu/drm/msm/dsi/dsi_host.c:2276-2378 | The loop ends, after exactly 1 + ceil((rx_len - 10) / 14) passes for rx_len over 10 (else 1) unless a pass fails; the first failing pass gives its error |
| DsiRead.Host.CmdRx | kernel/drivers/gpu/drm/msm/dsi/dsi_host.c:2268-2404 | A long read from a panel that answers every pass returns rx_len and stores exactly the first rx_len bytes of the register; a short read from one that answers with a short packet returns the number of its parameters and stores exactly those, or -EINVAL without a buffer for them; a failed pass returns its error and leaves the caller's buffer alone; a long packet in answer to a short read stores what the stack held |
| PanelGamma.ScaleInSpan | kernel/drivers/gpu/drm/panel/panel-samsung-ams968hh01.c:615-618 | A fixed-point fraction of at most 1 of a span stays within the span, also for a negative one |
| PanelGamma.ScaleNear | kernel/drivers/gpu/drm/panel/panel-samsung-ams968hh01.c:615-618 | A scaled span of either sign is exact up to one unit and what the fixed point loses |
| PanelGamma.OffsetDecodes | kernel/drivers/gpu/drm/panel/panel-samsung-ams968hh01.c:639-641 | Each point's byte, V203 to V11 in reverse order and V3 last, is read as sign and magnitude |
| PanelGamma.TopOffsetDecodes | kernel/drivers/gpu/drm/panel/panel-samsung-ams968hh01.c:629 | V255's nine bits are read as sign and magnitude, the sign from the bit 8 byte |
| PanelGamma.PointNear | kernel/drivers/gpu/drm/panel/panel-samsung-ams968hh01.c:630-643 | A point lies 192 + offset parts in 320 of the way from its top to the point above (V255 385 + offset in 640 between the references), for spans of either sign, up to one unit and the fixed point's loss |
| PanelGamma.PointBetween | kernel/drivers/gpu/drm/panel/panel-samsung-ams968hh01.c:636-643 | A decoded gamma point lies between the point above it and its top |
| PanelGamma.CurveOrdered | kernel/drivers/gpu/drm/panel/panel-samsung-ams968hh01.c:625-645 | VREF_H <= V255 <= V203 <= ... <= V11 <= VT and V11 <= V3 <= V0 = VREF_L hold for a decoded channel exactly when V255 is not above VT |
| PanelGamma.UnorderedExample | kernel/drivers/gpu/drm/panel/panel-samsung-ams968hh01.c:625-645 | Some factory bytes do put V255 above VT, and then the decoded curve is not ordered |
| PanelGamma.GrayAtPoint | kernel/drivers/gpu/drm/panel/panel-samsung-ams968hh01.c:648-659 | The interpolation passes exactly through every gamma point, for any curve |
| PanelGamma.GrayIsLinear | kernel/drivers/gpu/drm/panel/panel-samsung-ams968hh01.c:648-659 | Between two points the voltage is linear on any curve: n times it is the weighted sum of the ends up to less than n, rounded towards the brighter end, for every segment and level |
| PanelGamma.GrayAntitone | kernel/drivers/gpu/drm/panel/panel-samsung-ams968hh01.c:648-659 | On an ordered curve a brighter level never has a higher voltage, and all levels lie between V255 and V0 |
| PanelGamma.PanelVoltages | kernel/drivers/gpu/drm/panel/panel-samsung-ams968hh01.c:625-659 | For factory bytes with V255 not above VT, every gray level decodes to a voltage between the references, antitone in the level |
| PanelGamma.ReencodeExactly | kernel/drivers/gpu/drm/panel/panel-samsung-ams968hh01.c:615-645 | Scaling a gap of any length by num / 320 and dividing back never gives more than num, and gives num - 1 at least exactly when (gap num - e) mod 320 + e <= gap, where e is 0 if 5 divides num, else 1 |
| PanelGamma.LongGapsDivide | kernel/drivers/gpu/drm/panel/panel-samsung-ams968hh01.c:615-645 | That holds for every num from a gap of 318 on; at 317 it fails for factory offset 22 |
| PanelGamma.RoundTrip | kernel/drivers/gpu/drm/panel/panel-samsung-ams968hh01.c:681-712 | For every factory block, at the calibrated gray levels with no code offsets: a point encodes to nominal code plus signed factory offset, or one less, exactly if it is V255, has the least offset, or its gap satisfies the condition of ReencodeExactly |
| PanelGamma.RoundTripBytes | kernel/drivers/gpu/drm/panel/panel-samsung-ams968hh01.c:702-711 | The same, in both directions, for the bytes written to the register, V255's nine bits included |
| PanelGamma.ShortGapExample | kernel/drivers/gpu/drm/panel/panel-samsung-ams968hh01.c:681-712 | Gaps that lose more do occur: factory bytes with a gap of 310 whose V11 code comes back two lower |
| PanelGamma.EncodeError | kernel/drivers/gpu/drm/panel/panel-samsung-ams968hh01.c:681-709 | For a voltage inside its range and no code offset: the code is not clamped exactly if the voltage is low enough under the top for the nominal part and, below V255, above the bottom; decoding the code then gives a voltage at or above it, off by less than one code and the fixed-point error |
| PanelGamma.OffsetShifts | kernel/drivers/gpu/drm/panel/panel-samsung-ams968hh01.c:702-709 | A step's code offset moves the code of its own colour and point by itself, clamped, and no other; V3 has none |
| PanelGamma.PointInRange | kernel/drivers/gpu/drm/panel/panel-samsung-ams968hh01.c:625-645 | Whatever the factory bytes, also on a curve that is not ordered, every point decodes to a voltage between the references |
| PanelGamma.GrayInRange | kernel/drivers/gpu/drm/panel/panel-samsung-ams968hh01.c:648-659 | So does every gray level |
| PanelGamma.CodeExact | kernel/drivers/gpu/drm/panel/panel-samsung-ams968hh01.c:687-709 | For every factory block, gray levels and code offsets the 64-bit quotient survives being stored in 32 bits, so the code is the clamped fraction: always at V255 and V3; at the points between if the level is at least 4 and not above that of the point before, or else if the range is empty or at least 4 units long |
| PanelGamma.OrderedLevelsExact | kernel/drivers/gpu/drm/panel/panel-samsung-ams968hh01.c:687-709 | So for a step whose levels do not increase from V255 to V11, with V11 at level 4 or above, all nine codes of every panel are exact |
| PanelGamma.OrderedFraction | kernel/drivers/gpu/drm/panel/panel-samsung-ams968hh01.c:698-700 | With levels from 11 up, not above that of the point before, the fraction of V203 to V11 is between 0 and 320 for every factory block; from 4 up it still fits 32 bits |
| PanelGamma.LastSpan | kernel/drivers/gpu/drm/panel/panel-samsung-ams968hh01.c:689-697 | The range of V3 is empty or at least 4 units long, for every factory block and level |
| PanelGamma.LowLevelWraps | kernel/drivers/gpu/drm/panel/panel-samsung-ams968hh01.c:698-706 | 4 is the least level: factory bytes with which V11 at level 3, in order, has its quotient wrap, and gets the greatest code instead of 0 |
| PanelGamma.UnorderedLevelsWrap | kernel/drivers/gpu/drm/panel/panel-samsung-ams968hh01.c:698-706 | The order is needed: factory bytes with which a point at level 255 after one at level 10 gets code 0 instead of 255 |
| PanelGamma.SpanFits | kernel/drivers/gpu/drm/panel/panel-samsung-ams968hh01.c:698-700 | Among all voltages between the references, factory block or not, 4 is the least length of a range in which no quotient wraps |
| PanelGamma.NearestMonotone | kernel/drivers/gpu/drm/panel/panel-samsung-ams968hh01.c:662-672 | A brighter target never picks a darker level; equal targets pick the same one |
| PanelGamma.TargetsFit | kernel/drivers/gpu/drm/panel/panel-samsung-ams968hh01.c:559-561 | The nine targets of a step fit 32 bits exactly when its base luminance is below 1024 cd/m2 |
| PanelGamma.NearOrder | kernel/drivers/gpu/drm/panel/panel-samsung-ams968hh01.c:743-747 | The levels nearest the targets do not increase from V255 to V3 |
| PanelGamma.Channel.Init | kernel/drivers/gpu/drm/panel/panel-samsung-ams968hh01.c:625-645 | The decoding loop fills the channel with the decoded curve and VT |
| PanelGamma.Channel.GrayVoltage | kernel/drivers/gpu/drm/panel/panel-samsung-ams968hh01.c:648-659 | The search ends at the level's segment and the result is the interpolated voltage |
| PanelGamma.Channel.Encode | kernel/drivers/gpu/drm/panel/panel-samsung-ams968hh01.c:681-712 | The encoding loop packs the nine codes into their register bytes, V255's ninth bit apart, and leaves VT 0 |
| PanelGamma.NearestGray | kernel/drivers/gpu/drm/panel/panel-samsung-ams968hh01.c:662-672 | The least level whose luminance is nearest the target, on any strictly increasing table from 0, also for targets above its top |
| PanelGamma.ChooseGray | kernel/drivers/gpu/drm/panel/panel-samsung-ams968hh01.c:743-747 | Each point takes the nearest level to its target moved by the gray offset and clamped to 1..255; before offsets the levels are non-increasing |
| TempGuard.Stable | kernel/drivers/power/supply/sm5705_charger.c:789-812 | Reading the same temperature again never changes the zone |
| TempGuard.HotExactly | kernel/drivers/power/supply/sm5705_charger.c:794-797 | After any readings HOT holds exactly since one reached the upper limit and none fell 5 degrees below it |
| TempGuard.ColdExactly | kernel/drivers/power/supply/sm5705_charger.c:798-801 | COLD holds exactly since a reading was below the lower limit and none rose more than 5 degrees above it, for all readings exactly if the limits are more than 5 degrees apart |
| TempGuard.WarmExactly | kernel/drivers/power/supply/sm5705_charger.c:802-805 | WARM or HOT holds exactly since a reading reached 41 degrees and none fell below 39, for all readings exactly if the lower limit is below 36 and the upper one at least 44 |
| TempGuard.CoolExactly | kernel/drivers/power/supply/sm5705_charger.c:806-809 | COOL or COLD holds exactly since a reading was below 15 degrees and none rose above 20, for all readings exactly if the lower limit is at most 15 and the upper one above 20 |
| TempGuard.HotToggles | kernel/drivers/power/supply/sm5705_charger.c:789-798 | Over any readings, the toggles of HOT after the first, times 51, are at most the readings' total variation |
| TempGuard.ColdTogglesExactly | kernel/drivers/power/supply/sm5705_charger.c:798-801 | Over all readings the toggles of COLD after the first, times 52, are at most the total variation exactly when the alert range is wider than the hysteresis |
| TempGuard.TogglesTight | kernel/drivers/power/supply/sm5705_charger.c:794-801 | Both costs per toggle are reached |
| Charger.SetIKeeps | kernel/drivers/power/supply/sm5705_charger.c:209-222 | An accepted charge current decodes to at most what was asked; a rejected one leaves the register |
| Charger.SetVKeeps | kernel/drivers/power/supply/sm5705_charger.c:243-256 | The same for the charge voltage |
| Charger.ApplyKeepsLimits | kernel/drivers/power/supply/sm5705_charger.c:729-758 | After the zone's limits are written the registers hold every bound, also when a limit was rejected and the old value survives |
| Charger.ApplyKeepsMode | kernel/drivers/power/supply/sm5705_charger.c:760-787 | The mode picked is USB OTG exactly when OTG is on, charging only outside HOT and COLD, flash boost only for the torch |
| Charger.SetCurrentKeeps | kernel/drivers/power/supply/sm5705_charger.c:381-403 | A write of the charge current keeps all limits and the mode |
| Charger.SetVoltageKeeps | kernel/drivers/power/supply/sm5705_charger.c:381-403 | A write of the charge voltage keeps all limits and the mode |
| Charger.TemperatureKeeps | kernel/drivers/power/supply/sm5705_charger.c:841-868 | A temperature reading keeps all limits and the mode |
| Charger.OtgEnableKeeps | kernel/drivers/power/supply/sm5705_charger.c:458-484 | Enabling OTG, also when it is refused, keeps mode, boost voltage and limits |
| Charger.OtgOffKeeps | kernel/drivers/power/supply/sm5705_charger.c:487-508 | Disabling OTG restores the probe-time boost voltage and keeps mode and limits |
| Charger.CallHoldKeeps | kernel/drivers/power/supply/sm5705_charger.c:571-585 | Asking for 5 V changes only the hold; charger and MUIC then agree on it if they did before or the hold changes |
| Charger.TorchOnKeeps | kernel/drivers/power/supply/sm5705_charger.c:919-938 | Lighting the torch, or refusing to, keeps the invariant |
| Charger.TorchOffKeeps | kernel/drivers/power/supply/sm5705_charger.c:909-917 | Switching the torch off keeps the invariant |
| Charger.CableKeeps | kernel/drivers/power/supply/sm5705_charger.c:623-697 | A cable change with extcon states of any age keeps the invariant |
| Charger.StepKeepsInv | kernel/drivers/power/supply/sm5705_charger.c:363-981 | Every critical section of the charger, every MUIC interrupt, and unbinding or binding the MUIC's driver keep the invariant; the agreement on the hold is lost exactly when a fresh driver is bound while the charger believes in a hold |
| Charger.ProbeGivesInv | kernel/drivers/power/supply/sm5705_charger.c:1062-1097 | A successful probe establishes the invariant, whatever the registers held |
| Charger.RunKeepsInv | kernel/drivers/power/supply/sm5705_charger.c:363-1097 | After every run from probe: the decoded current and voltage are within the battery's limits, 1.35 A and 4.10 V in WARM, 0.9 A in COOL, and equal the zone's limit where it is acceptable; the mode is CHG_ON only outside HOT and COLD and USB_OTG exactly when OTG is on; the boost voltage matches; the LED implies the torch flag; hv and torch are never both set; torch or USB-C source implies the hold. Charger and MUIC agree on the hold at every moment exactly if no bind is stale |
| Charger.ApplySupplies | kernel/drivers/power/supply/sm5705_charger.c:760-787 | Whenever limits and mode are written in one of the driver's modes, a lit torch has a supply: the OTG boost, the flash boost, or charging with VBUS read good; the flash boost is picked only where charging is off or VBUS is not good |
| Charger.RunSupplies | kernel/drivers/power/supply/sm5705_charger.c:363-981 | The same after every run from probe and one more operation that writes them, with that operation's reading of VBUS |
| Charger.LimitsInForce | kernel/drivers/power/supply/sm5705_charger.c:729-758 | The charge current register holds the greatest step not above the limit in force: 2.7 A from a 15 W source, else the configured one, capped to 1.35 A in WARM and 0.9 A in COOL; the voltage register the configured voltage, capped to 4.10 V in WARM |
| Charger.FieldsFollow | kernel/drivers/power/supply/sm5705_charger.c:381-403 | The configured limits change exactly at accepted property writes, to the value written; the zone only at a temperature reading |
| Charger.OthersFollow | kernel/drivers/power/supply/sm5705_charger.c:363-981 | Every other flag and register changes only at the operations that are for it; an input limit or termination current written becomes the greatest step not above it; shutdown puts the LED and OTG out |
| Charger.ZoneFollows | kernel/drivers/power/supply/sm5705_charger.c:841-864 | After any run the zone is the temperature guard's for the run's readings alone |
| Charger.TorchLevel | kernel/drivers/power/supply/sm5705_charger.c:901-938 | A granted request lights the LED at 10 mA times its brightness and asks for the hold; brightness 0 puts it out and leaves the hold to a USB-C source |
| Charger.OtgOutcome | kernel/drivers/power/supply/sm5705_charger.c:458-499 | Enabling OTG gives USB_OTG with 1.5 A and the OTG boost exactly in one of the driver's modes; disabling restores the boost and leaves USB_OTG |
| Charger.ProbeOutcome | kernel/drivers/power/supply/sm5705_charger.c:1062-1097 | Probe fails exactly on a battery limit the registers cannot take; else it leaves the battery's limits, or 2 A and the register's voltage, in NORMAL with the LED off |
| Charger.TorchMeansFiveVolts | kernel/drivers/power/supply/sm5705_charger.c:669-697 | After every run with AFC on and no stale bind: while the torch is on or a USB-C source is attached, no 9 V request is pending or granted and no fast charger is reported |
| Charger.ReboundGrants | kernel/drivers/power/supply/sm5705_charger.c:571-585 | A stale bind does break that: torch lit, the MUIC's driver unbound and bound again, and 9 V is granted with the torch on |
| Charger.TorchOutcome | kernel/drivers/power/supply/sm5705_charger.c:919-938 | A torch request is granted exactly when the 9 V flag is clear, the hold is already in force, there is no MUIC, or the bound MUIC has AFC off, nothing to drop, or reads VBUS down in time; otherwise it returns -EBUSY |
| Charger.GrantMeansFell | kernel/drivers/power/supply/sm5705_charger.c:571-585 | With the 9 V flag set, a grant proves that a reading showed VBUS down exactly in these states: hold not in force, a MUIC node, and its driver unbound or with a 9 V request or grant to drop |
| Charger.HeldTorch | kernel/drivers/power/supply/sm5705_charger.c:575-576 | With the hold in force every request is granted and the MUIC is not asked |
| Charger.RefusedThenGranted | kernel/drivers/power/supply/sm5705_charger.c:571-585 | After a refusal because VBUS did not fall, the same request is granted at once without another look at VBUS, for every such state |
| Charger.RefusedRun | kernel/drivers/power/supply/sm5705_charger.c:571-938 | The refusal is reached from every start with the MUIC bound and AFC on: AFC to 9 V, a cable change, a request with no reading that shows VBUS down; the next request is granted |
| Charger.BoundStart | kernel/drivers/power/supply/sm5705_charger.c:1062-1097 | Such starts exist, with any freshly probed MUIC |
| Charger.PdSourceLightsTorch | kernel/drivers/power/supply/sm5705_charger.c:919-923 | With a PD contract above 5.5 V the 9 V flag is set by the cable change, yet a torch request clears it and is granted |
| Charger.RejectedExactly | kernel/drivers/power/supply/sm5705_charger.c:213-217 | The zone's charge current is rejected exactly when a 15 W source asks for more than the battery's limit |
| Charger.VoltageRejectedExactly | kernel/drivers/power/supply/sm5705_charger.c:243-250 | The zone's charge voltage is rejected exactly when the configured one is below 4.01 V; the register then decodes to it already and keeps it |
| Charger.CoolCurrentSticks | kernel/drivers/power/supply/sm5705_charger.c:841-858 | With a 15 W source and a battery limit below 2.7 A, the COOL current stays in the register after the battery has warmed up |
| Charger.SourceLimits | kernel/drivers/power/supply/sm5705_charger.c:591-660 | Above 5.5 V the input limit never exceeds 1.65 A or what the source offers, else 3 A |
| Charger.CableOutcome | kernel/drivers/power/supply/sm5705_charger.c:591-697 | What a cable change sets, from extcon states and supplier: the exact input limit register, the 9 V and 15 W flags, the source type, the USB-C flag, the torch and the hold |
| Charger.PortCurrent | kernel/drivers/power/supply/sm5705_charger.c:623-664 | From charger type to input current, over both drivers: exactly 0.5 A at a standard port, 1.5 A at a charging port, 1.8 A at a dedicated charger and 1.65 A at one at 9 V; the old limit without VBUS or a type |
| Charger.CableInputLimit | kernel/drivers/power/supply/sm5705_charger.c:653-664 | A cable change leaves an input limit the source allows, or the old one when nothing usable is attached |
| Charger.Driver.ApplyLimits | kernel/drivers/power/supply/sm5705_charger.c:729-787 | The method writes the limits and mode of the specification, and fails only in a mode that is not the driver's |
| Charger.Driver.EnableOtg | kernel/drivers/power/supply/sm5705_charger.c:458-484 | OTG enable, with its way back when the mode is refused |
| Charger.Driver.SetTorch | kernel/drivers/power/supply/sm5705_charger.c:901-939 | The torch request over both drivers, with its result |
| Charger.Driver.OnCable | kernel/drivers/power/supply/sm5705_charger.c:623-697 | The cable work over both drivers |
| Charger.Driver.ProbeDevice | kernel/drivers/power/supply/sm5705_charger.c:1062-1097 | Probe applies the battery's limits, or fails when they are rejected |
| Muic.NegotiateFacts | kernel/drivers/extcon/extcon-sm5705.c:309-332 | The AFC handlers of one interrupt grant 9 V exactly for a VBUS measurement within one step of the request |
| Muic.StepKeepsInv | kernel/drivers/extcon/extcon-sm5705.c:309-442 | Every interrupt and hold request keeps: while held with AFC on, ENAFC, ENQC20 and the 9 V state are clear; fast is reported only at 9 V and not held |
| Muic.RunKeepsInv | kernel/drivers/extcon/extcon-sm5705.c:309-442 | The same after any run of interrupts and hold requests |
| Muic.StepMeasures | kernel/drivers/extcon/extcon-sm5705.c:309-442 | One event leaves 9 V granted exactly if it was, or this event measures it, and neither detection reads VBUS gone nor a hold takes effect |
| Muic.GrantedExactly | kernel/drivers/extcon/extcon-sm5705.c:255-278 | After any run 9 V is granted exactly if some interrupt measured VBUS within one step of the request, and since then detection has not read VBUS gone and no hold took effect |
| Muic.FastWasMeasured | kernel/drivers/extcon/extcon-sm5705.c:139-201 | A fast charger is reported exactly if a dedicated charger is and such a measurement stands |
| Muic.LossClears | kernel/drivers/extcon/extcon-sm5705.c:309-318 | Of the events in which either reading finds VBUS gone, the 9 V state survives exactly those in which only the AFC part's (or the restart's) does and detection's does not |
| Muic.LossesCountExactly | kernel/drivers/extcon/extcon-sm5705.c:309-442 | 9 V granted means that no reading at all has found VBUS gone since it was measured, at every moment of a run, exactly when no loss is missed by detection while 9 V is granted |
| Muic.StaleFast | kernel/drivers/extcon/extcon-sm5705.c:309-318 | A run from probe to a missed loss: QC 2.0 at 9 V, VBUS read gone by the AFC part only; ENQC20 is cleared, yet the fast charger is still reported |
| Muic.RunKeepsCable | kernel/drivers/extcon/extcon-sm5705.c:157-198 | At most one charger type is reported; USB means SDP or CDP, fast means DCP |
| Muic.ReportedByType | kernel/drivers/extcon/extcon-sm5705.c:139-198 | After any run each of SDP, CDP, DCP, USB and the cover is reported exactly for the CHG_TYPE codes and ID value of the last detection, and no charger without VBUS |
| Muic.RerunOnce | kernel/drivers/extcon/extcon-sm5705.c:121-137 | While a keyboard cover stays on with VBUS present, charger detection is rerun at most once, over any run |
| Muic.RerunsExactly | kernel/drivers/extcon/extcon-sm5705.c:121-137 | Detection is rerun exactly at the events that find a cover on with VBUS and no charger type, the first since the cover was last found off |
| Muic.NegotiateAsks | kernel/drivers/extcon/extcon-sm5705.c:230-307 | What one interrupt's handlers leave in ENAFC, ENQC20, the request, the retry counters and the number of measurements, for every combination of bits: AFC again, QC 2.0 instead of it for a charger of that type, another measurement, or giving up |
| Muic.IrqAsks | kernel/drivers/extcon/extcon-sm5705.c:309-332 | Without VBUS at its first reading an interrupt stops every request; while held it asks for nothing |
| Muic.HoldAsks | kernel/drivers/extcon/extcon-sm5705.c:335-369 | A hold clears every request and measures VBUS once if there was one; it succeeds exactly if there was none or one of twenty readings shows VBUS down |
| Muic.ReleaseAsks | kernel/drivers/extcon/extcon-sm5705.c:230-243 | Letting go starts over with fresh counters, or leaves everything |
| Muic.ReleaseRestarts | kernel/drivers/extcon/extcon-sm5705.c:397-410 | Letting go of the hold asks for 9 V again exactly when VBUS is read present and an AFC or QC 2.0 charger has answered in the run since when detection has not read VBUS gone |
| Muic.RetryBudget | kernel/drivers/extcon/extcon-sm5705.c:255-307 | Of the errors since the last 9 V request exactly those the 32-bit counter lets through (the first five of each 2^32) are answered with a new request, likewise for repeated measurements; once the error budget is spent both request bits stay clear |
| Muic.AtMostFive | kernel/drivers/extcon/extcon-sm5705.c:291-293 | So fewer than 2^32 errors or misses cause at most five retries and five re-reads |
| Muic.Driver.HandleAfc | kernel/drivers/extcon/extcon-sm5705.c:309-332 | The interrupt's AFC part: stops without VBUS, notes the charger even while held, else runs the four handlers in order |
| Muic.Driver.AfcDrop | kernel/drivers/extcon/extcon-sm5705.c:335-369 | Back to 5 V: everything cleared; -ETIMEDOUT unless one of 20 readings shows VBUS down |
| Muic.Driver.Hold5v | kernel/drivers/extcon/extcon-sm5705.c:380-415 | A changed hold drops or restarts 9 V and runs detection; an unchanged one does nothing |
| Download.Tiles | tools/sf-parallel-download.py:48-63 | Chunk ranges are non-empty and tile the file: every byte is in exactly one chunk |
| Download.BeginKeeps | tools/sf-parallel-download.py:42-49 | Resuming from a log whose chunks are in the file, even one that names a chunk twice, re-establishes the invariant, with every other chunk queued once |
| Download.TakesLowest | tools/sf-parallel-download.py:48-61 | After any run the queue ascends, and a worker takes the lowest chunk queued |
| Download.PopKeepsPartition | tools/sf-parallel-download.py:58-61 | Taking a chunk keeps every chunk queued, in flight or logged, with one worker at most |
| Download.RecordKeepsPartition | tools/sf-parallel-download.py:76-80 | So does recording a chunk |
| Download.RecordFailsKeepsPartition | tools/sf-parallel-download.py:76-90 | So does a record that raises, before or after its log line |
| Download.RunKeepsClean | tools/sf-parallel-download.py:54-84 | In a run in which no record raises, no chunk in flight is done and the log names each once |
| Download.AnswerKeepsBytes | tools/sf-parallel-download.py:62-75 | Writing a whole answer makes its chunk right and leaves every other chunk's bytes |
| Download.StepKeepsInv | tools/sf-parallel-download.py:42-90 | Every worker step, a record that raises, and a crash with resume keep the places of the chunks and the rule that logged chunks are in the file |
| Download.RunKeepsInv | tools/sf-parallel-download.py:42-90 | The same over any number of workers, schedule, failed or short answers, failed records, and crashes |
| Download.FinishedIsComplete | tools/sf-parallel-download.py:93-98 | When every worker has returned and there was one, the file equals the source |
| Download.DownloadCompletes | tools/sf-parallel-download.py:42-98 | The whole download: any run, crashes included, that ends with its workers returned leaves the source file |
| Download.DownloadExactly | tools/sf-parallel-download.py:27-98 | Every finished download, crashes included, leaves the source file exactly if there are workers or the source is empty |
| Download.StepCosts | tools/sf-parallel-download.py:54-90 | Every worker step that changes anything brings the run exactly one step nearer its end, at three steps a queued chunk and one a worker; a failed record takes it one step back |
| Download.RunLength | tools/sf-parallel-download.py:54-90 | So a run without a crash has exactly as many effective steps as it has come nearer the end, and two more for every failed record |
| Download.WrittenOnce | tools/sf-parallel-download.py:54-90 | Over any schedule and from mirrors of any kind, a chunk is written into the file a second time only after a crash or a failed record of it in between, and never once it is in the log and no worker has it, crashes included |
| Download.FailedRecordRefetches | tools/sf-parallel-download.py:76-90 | A failed record does have its chunk fetched and written again, from every state in which a worker fetches it |
| Download.NoDeadlock | tools/sf-parallel-download.py:54-84 | Until every worker has returned some honest step is possible |
| Download.NoWorkersNoFile | tools/sf-parallel-download.py:27 | With PDL_WORKERS=0 the run ends at once, whatever the file holds |
| Download.Pool.ListMissing | tools/sf-parallel-download.py:48 | The list comprehension gives the chunks the log does not name, in order |
| Download.Pool.TakeChunk | tools/sf-parallel-download.py:58-61 | The locked part that takes the first chunk or returns |
| Download.Pool.Receive | tools/sf-parallel-download.py:62-75 | Only a 206 answer of exactly the chunk's length is written, at the chunk's offset |
| Download.Pool.RecordChunk | tools/sf-parallel-download.py:76-90 | The locked part that records a chunk in memory, in the log and on the terminal, and the way back when appending or printing raises |
| Digitizer.ParseUndoesPack | kernel/drivers/input/touchscreen/wacom_w9000.h:159-192 | Parsing recovers every in-range report from its packet layout |
| Digitizer.AcceptedParses | kernel/drivers/input/touchscreen/wacom_w9000.h:175-190 | A report's position, pressure and distance are those bytes of the packet, the high one first, and each key is its bit |
| Digitizer.AwayParses | kernel/drivers/input/touchscreen/wacom_w9000.h:171-173 | A packet without the proximity bit, or a special one, means the pen is away |
| Digitizer.RefusedParses | kernel/drivers/input/touchscreen/wacom_w9000.h:162-183 | A packet is refused exactly if it has another length, or the pen is there and out of range (formats without special packets) |
| Digitizer.PacketShows | kernel/drivers/input/touchscreen/wacom_w9000.h:195-237 | User space ends up seeing exactly the report's position, pressure, distance and keys as one complete report, or the pen gone; a refused packet shows nothing |
| Digitizer.ReleaseFacts | kernel/drivers/input/touchscreen/wacom_w9000.h:195-213 | Releasing leaves every key up, synchronised, and the pen out of proximity |
| Digitizer.ReportFacts | kernel/drivers/input/touchscreen/wacom_w9000.h:216-237 | A report leaves exactly its keys down, one of pen and rubber, synchronised |
| Digitizer.PacketKeepsInv | kernel/drivers/input/touchscreen/wacom_w9000.h:216-237 | Any packet keeps the invariant; positions sent stay within the digitizer's range |
| Digitizer.PowerOffKeepsInv | kernel/drivers/input/touchscreen/wacom_w9000.h:283-312 | Power off, with any regulator result, keeps the invariant and ends with the interrupt off unless restored |
| Digitizer.StepKeepsInv | kernel/drivers/input/touchscreen/wacom_w9000.h:239-312 | Open, close, suspend, resume, packets and unbind each keep the invariant |
| Digitizer.RunKeepsInv | kernel/drivers/input/touchscreen/wacom_w9000.h:194-312 | After every run the regulator's use count and the interrupt's enable count match the flags, an enabled interrupt means power without reset, without it every key is up, in proximity exactly one tool is down |
| Digitizer.ClosedMeansUp | kernel/drivers/input/touchscreen/wacom_w9000.h:283-312 | While closed or unpowered no key is down in what user space has seen |
| Digitizer.PowerOutcome | kernel/drivers/input/touchscreen/wacom_w9000.h:239-312 | What every action leaves of supply, reset, interrupt and open, for every result of the regulator |
| Digitizer.FailedSuspend | kernel/drivers/input/touchscreen/wacom_w9000.h:299-309 | A failed suspend restores power, reset and interrupt, with the pen released |
| Digitizer.Driver.Send | kernel/drivers/input/touchscreen/wacom_w9000.h:216-237 | The events of a report, in order |
| Digitizer.Driver.PowerOffTransition | kernel/drivers/input/touchscreen/wacom_w9000.h:283-312 | Power off, with its restore |
| Digitizer.Driver.SuspendDevice | kernel/drivers/input/touchscreen/wacom_w9000.c:521-535 | Suspend: restores on failure only when the device is open |
| Stmpe.SetFieldGets | kernel/drivers/mfd/stmpe.c:294-295 | The byte update gives one field its value and leaves the byte's other fields |
| Stmpe.OnePin | kernel/drivers/mfd/stmpe.c:289-298 | One turn of the loop sets the pin's field and no other |
| Stmpe.FieldsDiffer | kernel/drivers/mfd/stmpe.c:291-292 | No two pins share a field |
| Stmpe.FirstSet | kernel/drivers/mfd/stmpe.c:290 | The lowest pin of the mask |
| Stmpe.SetFunctions | kernel/drivers/mfd/stmpe.c:289-298 | Read as one number, most significant byte first, the registers change exactly in the requested pins' groups of bits, pin 0 the lowest, for any mask, with 1- and 2-bit fields; every other group and register keeps its value |
| Stmpe.FieldIsDigit | kernel/drivers/mfd/stmpe.c:291-292 | A pin's field is its group of bits of that number |
| Stmpe.SetAltFunction | kernel/drivers/mfd/stmpe.c:263-305 | The same on the device, read as one number. An error before the write leaves it as it was; a failed write leaves the registers it did not reach and gives those it did their value of a whole write |
| QmiLoc.RoundTrip | tools/qmi-loc.py:61-91 | Parsing the packet of any TLVs with distinct tags recovers header and TLVs exactly when the body is at most 65529 bytes |
| QmiLoc.RecoversEntries | tools/qmi-loc.py:85-91 | Recovery means every TLV under its tag and no other tag |
| QmiLoc.WireFormat | tools/qmi-loc.py:61-65 | What is on the wire: a zero byte, transaction number, message id and length, low byte first, then every entry's tag, length and value at its place |
| QmiLoc.IgnoresTrailing | tools/qmi-loc.py:84-91 | Bytes after the declared length are ignored, for any entries |
| QmiLoc.RunsPastEnd | tools/qmi-loc.py:86-90 | A value may run past the declared length: only an entry's first three bytes must lie before it |
| QmiLoc.CutLosesLast | tools/qmi-loc.py:77-90 | A body cut by the receive buffer never gives back its last TLV |
| QmiLoc.ParsesBody | tools/qmi-loc.py:86-90 | Parsing an encoded body stores its entries in order, the last of a tag winning, for any TLVs |
| QmiLoc.TxnDistinct | tools/qmi-loc.py:62 | Transaction numbers are 1 to 65535; two requests share one exactly when a multiple of 65535 lies between them |
| QmiLoc.Loc.Request | tools/qmi-loc.py:61-66 | The packet sent, the number used, and exactly when a value does not fit its field |
| QmiLoc.Loc.Recv | tools/qmi-loc.py:77-91 | The parser's loop ends on any bytes and computes the specified message |
| AudioRouting.StepConserves | kernel/sound/soc/qcom/qdsp6/q6routing.c:380-546 | Every mixer change, open and close keeps opened COPPs equal to closed plus held, handle by handle |
| AudioRouting.OpenConserves | kernel/sound/soc/qcom/qdsp6/q6routing.c:399-464 | An open keeps that balance wherever it fails, whatever port map its empty test and each of its searches read, also over an earlier open without a close |
| AudioRouting.RunConserves | kernel/sound/soc/qcom/qdsp6/q6routing.c:380-546 | Over any run, with mixer changes inside opens and closes of a session found earlier, COPPs opened minus closed is the sum of num_copps, and no COPP is closed more often than opened |
| AudioRouting.StepPorts | kernel/sound/soc/qcom/qdsp6/q6routing.c:519-546 | A port map changes by mixer controls only, in exactly the bit of the control; no operation changes the number of sessions |
| AudioRouting.FoundFacts | kernel/sound/soc/qcom/qdsp6/q6routing.c:426 | Whatever each search reads, the ports found ascend, each is the next bit set in the map its own turn read, and the turn after the last finds none |
| AudioRouting.OpenOutcome | kernel/sound/soc/qcom/qdsp6/q6routing.c:412-463 | An open succeeds exactly when its test read a port, every port found opens and there is room; it then holds one COPP per port found in ascending order, as the payload says; a failure past the test leaves none |
| AudioRouting.EmptySuccess | kernel/sound/soc/qcom/qdsp6/q6routing.c:412-463 | An open succeeds without any COPP exactly when its test read a port and its first search none, which takes a mixer change in between |
| AudioRouting.QuietOpen | kernel/sound/soc/qcom/qdsp6/q6routing.c:412-463 | With no mixer change an open succeeds exactly when some port is routed, all of them open and there is room, and it then holds one COPP per routed port |
| AudioRouting.CloseSpares | kernel/sound/soc/qcom/qdsp6/q6routing.c:467-499 | After any run between a close's lookup and its lock, it leaves every stream of another frontend alone exactly if the session looked up is still its own, or is closed already; with nothing in between it always does |
| AudioRouting.StaleClose | kernel/sound/soc/qcom/qdsp6/q6routing.c:467-499 | A run that breaks this: the session looked up is closed and opened for another frontend, whose stream and COPPs the delayed close then ends |
| AudioRouting.AcquireFacts | kernel/sound/soc/qcom/qdsp6/q6routing.c:426-451 | The loop stops at the first obstacle: no room, or a port that does not open |
| AudioRouting.Driver.CloseCopps | kernel/sound/soc/qcom/qdsp6/q6routing.c:380-387 | Closes each held COPP once |
| AudioRouting.Driver.OpenPorts | kernel/sound/soc/qcom/qdsp6/q6routing.c:426-451 | The loop over the set bits, searching a map that may change with every turn |
| AudioRouting.Driver.Open | kernel/sound/soc/qcom/qdsp6/q6routing.c:399-464 | The open over the session table, with its payload or error |
| AudioRouting.Driver.FindSession | kernel/sound/soc/qcom/qdsp6/q6routing.c:467-478 | The first session of a frontend, looked up without the lock |
| AudioRouting.Driver.Close | kernel/sound/soc/qcom/qdsp6/q6routing.c:495-498 | The locked part of a close |
| BestPdo.PdoFields | kernel/drivers/usb/typec/s2mm005.c:231-239 | Type, voltage, current and power of a word built from its fields |
| BestPdo.PowerFits | kernel/drivers/usb/typec/s2mm005.c:238 | Voltage times current fits 32 bits for every PDO |
| BestPdo.BestUnique | kernel/drivers/usb/typec/s2mm005.c:228-252 | At most one position satisfies the choice's specification |
| BestPdo.ChooseBest | kernel/drivers/usb/typec/s2mm005.c:228-252 | The first position that maximises power, then voltage, among fixed supplies at a sink voltage: any other such supply has less power, or as much at a lower voltage, or comes later; 0 exactly when no such supply has a voltage |

## Left out

- DsiRead.Host.CmdRx: for rx_len of 3 and more the delivered bytes are stated for a panel that answers every pass with exactly the packet size asked for; for any other panel only the number of passes, the return value and the bounds of rx_buf are. rx_len is at most 4090, because rx_buf is 4096 bytes.
- DsiRead.Host.ReadPasses: clearing the RDBK_DATA registers between passes and sending the commands are link results, not modelled steps.
- PanelGamma.ChooseGray: the luminance table and the steps are parameters, so that every step's levels are in order and at least 10 down to V11 is read off lines 340-562 of the source, not proved; the 360 cd/m2 table (saturating sum), the high brightness tables and the AID, ELVSS and ACL values are not modelled.
- Muic.Driver.Hold5v: looking up the MUIC device is a state of the charger model (no node, driver not bound, bound), which binding and unbinding change between operations.
- Charger.Driver.SetTorch: the class keeps the link it was made with; binding and unbinding are steps of the model on values only.
- Muic.RetryBudget: measurements started by an accepted request or a QC 2.0 switch are not counted as repeated ones.
- Charger.RunKeepsInv: register writes do not fail, and no one but the driver changes the operating mode. Property writes between registering the power supply and the end of probe are not part of this model. Probe switches the LED off whether or not the node describes one.
- Charger.TorchMeansFiveVolts: says nothing about 9 V from a PD contract, and needs the MUIC bound, without a stale bind; what VBUS measures is not part of the claim.
- Charger.Driver.OnCable: status, health and the other read-only properties, and notifying the power supply core, are not modelled.
- Download.Pool.Receive: fetching and writing a chunk is one step, a chunk is written whole, a log line whole or not at all, and both survive a crash, and a mirror's 206 answer is the range or a prefix of it; mirror choice, retries after 403 and 404, HTTP and the checksum are not modelled.
- Digitizer.StepKeepsInv: the input core opens only a closed device; inhibiting it is not modelled. The query at probe and its retries, and the axis transformation of positions, are left out.
- Stmpe.SetFunctions: a pin mask is a set of pin numbers; the registers are bytes with their real bit operations. 1 and 2 bits per field, as the variants that have alternate functions use.
- QmiLoc.Loc.Recv: packets of the name service and of other senders, the socket and timeouts are not modelled.
- AudioRouting.Driver.Open: sessions are values in a sequence, so aliasing of session objects is not captured; sample rates and the path type copied from the port, and the matrix map call beyond its payload, are left out. The COPP allocator is not part of this model: a handle may be given out more than once. A mixer change during an open is placed before or after it; what the open reads of it is free.
- BestPdo.ChooseBest: reading the capabilities and sending the request are not modelled.
- Clock, routing-control, DAI and register tables, probe and device-tree parsing, sysfs, debugfs and logging: finite data or glue.
- MDP5, camera, audio codec, touch and GPU code: mostly hardware sequencing.
