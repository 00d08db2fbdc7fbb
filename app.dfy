// The application object MyApp of AVRPowerSupply.cpp: its arrays and flags,
// the menu actions that change them, the ADC and current-sensor updates and
// the event dispatch. The INA219 sensors, the ADC peripheral and the timers
// are outside the model: their readings are parameters. The LCD is a
// DeviceStream.Stream where the model keeps the text, and a redraw of the
// live readings is reported as an observation.
module PowerSupply {
  import opened Ints
  import opened Supply
  import DeviceStream

  // ---------------------------------------------------------------------------
  // The fields of MyApp, in four groups. Index 0 of every per-supply sequence
  // is supply A (the variable regulator), index 1 supply B.

  /** The committed and the pending table index of each supply, and which
      supply the menu is adjusting. */
  datatype LimitSettings = LimitSettings(
    currentLimitIndex: seq<u8>,
    currentLimitAdjustIndex: seq<u8>,
    currentLimitAdjustSupply: nat)

  predicate LimitsValid(l: LimitSettings)
  {
    |l.currentLimitIndex| == 2 && |l.currentLimitAdjustIndex| == 2 &&
    l.currentLimitIndex[0] < NumCurLimitValues && l.currentLimitIndex[1] < NumCurLimitValues &&
    l.currentLimitAdjustIndex[0] < NumCurLimitValues && l.currentLimitAdjustIndex[1] < NumCurLimitValues &&
    l.currentLimitAdjustSupply < 2
  }

  /** The stored sensor values, the overcurrent counters, the two shutdown
      lines and the status LED. */
  datatype PowerState = PowerState(
    busMilliVolts: seq<i16>,
    shuntMilliAmps: seq<i16>,
    overCurrentCount: seq<u8>,
    shutdownA: bool,
    shutdownB: bool,
    statusLED: bool)

  predicate PowerValid(p: PowerState)
  {
    |p.busMilliVolts| == 2 && |p.shuntMilliAmps| == 2 && |p.overCurrentCount| == 2
  }

  /** What the two LCD lines show, whether they are due for a redraw, and
      whether live readings may be drawn at all. */
  datatype ViewState = ViewState(needsDisplay: bool, displayEnabled: bool, lineDisplayMode: seq<LineDisplayMode>)

  predicate ViewValid(v: ViewState)
  {
    |v.lineDisplayMode| == 2 && v.lineDisplayMode[0] != Last && v.lineDisplayMode[1] != Last
  }

  /** The pending captures, the ADC averaging state, and the channel the ADC
      converts next (_adc.setChannel). */
  datatype SamplingState = SamplingState(
    captureSensorValues: bool,
    captureADCValue: bool,
    adc: Adc,
    adcInputChannel: nat)

  datatype Snapshot = Snapshot(limits: LimitSettings, power: PowerState, view: ViewState, sampling: SamplingState)

  predicate SnapshotValid(s: Snapshot)
  {
    LimitsValid(s.limits) && PowerValid(s.power) && ViewValid(s.view) && AdcShape(s.sampling.adc)
  }

  /** The state MyApp() leaves: both limits at the top entry, line 0 showing
      supply A and line 1 supply B, the display dirty but not enabled, a
      sensor capture pending, the shutdown lines released and the ADC
      started on channel 0. */
  const Initial: Snapshot := Snapshot(
    LimitSettings([7, 7], [7, 7], 0),
    PowerState([0, 0], [0, 0], [0, 0], false, false, false),
    ViewState(true, false, [PS1VA, PS2VA]),
    SamplingState(true, false, Adc([0, 0, 0, 0], [0, 0, 0, 0], 0, 0), 0))

  /** The initial state is in range, both limits are the largest table
      entry, and the ADC windows are all empty. */
  lemma InitialValid()
    ensures SnapshotValid(Initial) && AdcWindow(Initial.sampling.adc, seq(4, _ => []))
    ensures Initial.limits.currentLimitIndex == [NumCurLimitValues - 1, NumCurLimitValues - 1]
    ensures Initial.limits.currentLimitAdjustIndex == Initial.limits.currentLimitIndex
  {
  }

  // ---------------------------------------------------------------------------
  // The current sensors and the overcurrent latch

  /** A supply's latch: its counter and its shutdown line. */
  function LatchOf(p: PowerState, supply: nat): Latch
    requires PowerValid(p) && supply < 2
  {
    Latch(p.overCurrentCount[supply], if supply == 0 then p.shutdownA else p.shutdownB)
  }

  /** setCurrentLimit: the supply's shutdown line and the status LED go high. */
  function SetLimit(p: PowerState, supply: nat): PowerState
  {
    if supply == 0 then p.(shutdownA := true, statusLED := true)
    else p.(shutdownB := true, statusLED := true)
  }

  /** resetCurrentLimit: both shutdown lines and the LED go low. */
  function ResetLimit(p: PowerState): PowerState
  {
    p.(shutdownA := false, shutdownB := false, statusLED := false)
  }

  /** The first half of a pass of updateCurrentSensor's loop: the bus value
      and the converted shunt current are stored. */
  function StoreReading(p: PowerState, supply: nat, bus: i16, shunt: i16): (t: PowerState)
    requires PowerValid(p) && supply < 2
    ensures PowerValid(t)
  {
    p.(busMilliVolts := p.busMilliVolts[supply := bus], shuntMilliAmps := p.shuntMilliAmps[supply := ShuntMilliAmps(shunt)])
  }

  /** The second half: a stored current above the limit counts up (uint8_t,
      wrapping) and, once the count before it exceeds 3, shuts the supply
      down and lights the LED; a current within the limit clears the count. */
  function CountOverCurrent(p: PowerState, index: LimitIndex, supply: nat): (t: PowerState)
    requires PowerValid(p) && supply < 2
    ensures PowerValid(t)
  {
    var count := p.overCurrentCount[supply];
    if OverLimit(p.shuntMilliAmps[supply], index) then
      var counted := p.(overCurrentCount := p.overCurrentCount[supply := Wrap8(count as int + 1)]);
      if count > 3 then SetLimit(counted, supply) else counted
    else p.(overCurrentCount := p.overCurrentCount[supply := 0])
  }

  /** One pass of updateCurrentSensor's loop. */
  function PollSupply(p: PowerState, index: LimitIndex, supply: nat, bus: i16, shunt: i16): (t: PowerState)
    requires PowerValid(p) && supply < 2
    ensures PowerValid(t)
  {
    CountOverCurrent(StoreReading(p, supply, bus, shunt), index, supply)
  }

  /** A pass marks the display dirty when the stored bus value or shunt
      current differs from the new one. */
  predicate Changes(p: PowerState, supply: nat, bus: i16, shunt: i16)
    requires PowerValid(p) && supply < 2
  {
    bus != p.busMilliVolts[supply] || ShuntMilliAmps(shunt) != p.shuntMilliAmps[supply]
  }

  /** One reading of both INA219s: bus voltages and raw shunt registers. */
  datatype Reading = Reading(bus: seq<i16>, shunt: seq<i16>)

  predicate WellFormedReading(r: Reading)
  {
    |r.bus| == 2 && |r.shunt| == 2
  }

  predicate WellFormedReadings(rs: seq<Reading>)
  {
    forall k :: 0 <= k < |rs| ==> |rs[k].bus| == 2 && |rs[k].shunt| == 2
  }

  /** The power state after the loop's first n passes. */
  function PolledUpTo(p: PowerState, l: LimitSettings, r: Reading, n: nat): (t: PowerState)
    requires PowerValid(p) && LimitsValid(l) && WellFormedReading(r) && n <= 2
    ensures PowerValid(t)
  {
    if n == 0 then p
    else PollSupply(PolledUpTo(p, l, r, n - 1), l.currentLimitIndex[n - 1], n - 1, r.bus[n - 1], r.shunt[n - 1])
  }

  /** Whether one of the loop's first n passes marked the display dirty. */
  predicate DirtyUpTo(p: PowerState, l: LimitSettings, r: Reading, n: nat)
    requires PowerValid(p) && LimitsValid(l) && WellFormedReading(r) && n <= 2
  {
    n > 0 &&
    (DirtyUpTo(p, l, r, n - 1) || Changes(PolledUpTo(p, l, r, n - 1), n - 1, r.bus[n - 1], r.shunt[n - 1]))
  }

  /** updateCurrentSensor for both supplies at once: the new readings are
      stored, and each supply's latch takes one poll of Supply.Poll with its
      own committed limit; the LED lights when either latch fires. */
  function SensorPoll(p: PowerState, l: LimitSettings, r: Reading): (t: PowerState)
    requires PowerValid(p) && LimitsValid(l) && WellFormedReading(r)
    ensures PowerValid(t)
  {
    var shunt := [ShuntMilliAmps(r.shunt[0]), ShuntMilliAmps(r.shunt[1])];
    var overA := OverLimit(shunt[0], l.currentLimitIndex[0]);
    var overB := OverLimit(shunt[1], l.currentLimitIndex[1]);
    var a := Poll(LatchOf(p, 0), overA);
    var b := Poll(LatchOf(p, 1), overB);
    PowerState(r.bus, shunt, [a.count, b.count], a.shutdown, b.shutdown,
      p.statusLED || Fires(LatchOf(p, 0), overA) || Fires(LatchOf(p, 1), overB))
  }

  /** Whether a reading differs from what is stored. */
  predicate SensorDirty(p: PowerState, r: Reading)
    requires WellFormedReading(r)
  {
    r.bus != p.busMilliVolts || [ShuntMilliAmps(r.shunt[0]), ShuntMilliAmps(r.shunt[1])] != p.shuntMilliAmps
  }

  /** One pass stores the supply's reading and polls its latch, with the
      LED lighting when the latch fires; the other supply is untouched. */
  lemma PollSupplyIsPoll(p: PowerState, index: LimitIndex, supply: nat, bus: i16, shunt: i16)
    requires PowerValid(p) && supply < 2
    ensures var t := PollSupply(p, index, supply, bus, shunt);
      var over := OverLimit(ShuntMilliAmps(shunt), index);
      LatchOf(t, supply) == Poll(LatchOf(p, supply), over) &&
      LatchOf(t, 1 - supply) == LatchOf(p, 1 - supply) &&
      t.statusLED == (p.statusLED || Fires(LatchOf(p, supply), over)) &&
      t.busMilliVolts == p.busMilliVolts[supply := bus] &&
      t.shuntMilliAmps == p.shuntMilliAmps[supply := ShuntMilliAmps(shunt)]
  {
  }

  /** The loop's two passes, supply A then supply B, do what SensorPoll states
      for both at once, and one of them marks the display dirty exactly when
      the reading differs from what was stored. */
  lemma PollLoopIsSensorPoll(p: PowerState, l: LimitSettings, r: Reading)
    requires PowerValid(p) && LimitsValid(l) && WellFormedReading(r)
    ensures PolledUpTo(p, l, r, 2) == SensorPoll(p, l, r)
    ensures DirtyUpTo(p, l, r, 2) <==> SensorDirty(p, r)
  {
    var p1 := PollSupply(p, l.currentLimitIndex[0], 0, r.bus[0], r.shunt[0]);
    var p2 := PollSupply(p1, l.currentLimitIndex[1], 1, r.bus[1], r.shunt[1]);
    assert PolledUpTo(p, l, r, 1) == p1;
    assert PolledUpTo(p, l, r, 2) == p2;
    PollSupplyIsPoll(p, l.currentLimitIndex[0], 0, r.bus[0], r.shunt[0]);
    PollSupplyIsPoll(p1, l.currentLimitIndex[1], 1, r.bus[1], r.shunt[1]);
    var t := SensorPoll(p, l, r);
    assert p2.busMilliVolts == t.busMilliVolts;
    assert p2.shuntMilliAmps == t.shuntMilliAmps;
    assert p2.overCurrentCount == [LatchOf(p2, 0).count, LatchOf(p2, 1).count];
    assert DirtyUpTo(p, l, r, 1) <==> Changes(p, 0, r.bus[0], r.shunt[0]);
    assert DirtyUpTo(p, l, r, 2) <==> Changes(p, 0, r.bus[0], r.shunt[0]) || Changes(p1, 1, r.bus[1], r.shunt[1]);
    assert r.bus == p.busMilliVolts <==> r.bus[0] == p.busMilliVolts[0] && r.bus[1] == p.busMilliVolts[1];
    var shunt := [ShuntMilliAmps(r.shunt[0]), ShuntMilliAmps(r.shunt[1])];
    assert shunt == p.shuntMilliAmps <==> shunt[0] == p.shuntMilliAmps[0] && shunt[1] == p.shuntMilliAmps[1];
  }

  /** The status LED lights with the first shutdown line the polls set, and
      a poll never releases a shutdown line. */
  lemma SensorPollLED(p: PowerState, l: LimitSettings, r: Reading)
    requires PowerValid(p) && LimitsValid(l) && WellFormedReading(r)
    requires p.statusLED <==> p.shutdownA || p.shutdownB
    ensures var t := SensorPoll(p, l, r);
      (t.statusLED <==> t.shutdownA || t.shutdownB) &&
      (p.shutdownA ==> t.shutdownA) && (p.shutdownB ==> t.shutdownB)
  {
  }

  /** Several polls with the same limits, oldest first. */
  function SensorPolls(p: PowerState, l: LimitSettings, rs: seq<Reading>): (t: PowerState)
    requires PowerValid(p) && LimitsValid(l) && WellFormedReadings(rs)
    ensures PowerValid(t)
  {
    if rs == [] then p else SensorPoll(SensorPolls(p, l, rs[..|rs| - 1]), l, rs[|rs| - 1])
  }

  /** Which of the readings are over the supply's limit. */
  function Overs(rs: seq<Reading>, supply: nat, index: LimitIndex): (overs: seq<bool>)
    requires supply < 2 && WellFormedReadings(rs)
    ensures |overs| == |rs|
  {
    seq(|rs|, k requires 0 <= k < |rs| => OverLimit(ShuntMilliAmps(rs[k].shunt[supply]), index))
  }

  /** Over a sequence of polls each supply's latch evolves exactly as
      Supply.Polls says under its own over-limit verdicts: the two supplies
      do not influence each other. */
  lemma {:induction false} SensorPollsLatch(p: PowerState, l: LimitSettings, rs: seq<Reading>, supply: nat)
    requires PowerValid(p) && LimitsValid(l) && WellFormedReadings(rs) && supply < 2
    ensures LatchOf(SensorPolls(p, l, rs), supply) == Polls(LatchOf(p, supply), Overs(rs, supply, l.currentLimitIndex[supply]))
  {
    if rs != [] {
      var q := rs[..|rs| - 1];
      SensorPollsLatch(p, l, q, supply);
      assert Overs(rs, supply, l.currentLimitIndex[supply])[..|rs| - 1] == Overs(q, supply, l.currentLimitIndex[supply]);
    }
  }

  /** Sustained overcurrent on a supply whose latch is clear shuts it down
      from the fifth consecutive over-limit poll on, and not before. */
  lemma SustainedOvercurrent(p: PowerState, l: LimitSettings, rs: seq<Reading>, supply: nat)
    requires PowerValid(p) && LimitsValid(l) && WellFormedReadings(rs) && supply < 2
    requires LatchOf(p, supply) == Latch(0, false)
    requires forall k :: 0 <= k < |rs| ==> OverLimit(ShuntMilliAmps(rs[k].shunt[supply]), l.currentLimitIndex[supply])
    ensures LatchOf(SensorPolls(p, l, rs), supply).shutdown <==> |rs| >= 5
  {
    SensorPollsLatch(p, l, rs, supply);
    assert Overs(rs, supply, l.currentLimitIndex[supply]) == seq(|rs|, _ => true);
    ConsecutiveOverLimit(|rs|);
  }

  // ---------------------------------------------------------------------------
  // Event dispatch

  /** updateDisplay's gate: live readings are redrawn only when the display
      is both enabled and dirty. */
  predicate RedrawDue(v: ViewState)
  {
    v.displayEnabled && v.needsDisplay
  }

  /** What the idle handler did, in order. */
  datatype Activity = ReadSensors | ReadAdc | Redraw

  /** The events handleEvent distinguishes; EventTimer carries whether the
      timer is MyApp's own repeating timer. */
  datatype Event = Idle | AdcComplete | EventTimer(ownTimer: bool) | ButtonDown | OtherEvent

  /** The idle handler: a pending sensor capture first (the readings are
      polled and a changed one makes the display dirty), then a pending ADC
      value (it is folded in and the ADC is set to the next channel), then
      the display, each consuming its flag. */
  function IdleStep(s: Snapshot, r: Reading, sample: nat): (result: (Snapshot, seq<Activity>))
    requires SnapshotValid(s) && WellFormedReading(r)
    ensures SnapshotValid(result.0)
  {
    var sensors := s.sampling.captureSensorValues;
    var power := if sensors then SensorPoll(s.power, s.limits, r) else s.power;
    var dirty := s.view.needsDisplay || (sensors && SensorDirty(s.power, r));
    var adc := s.sampling.captureADCValue;
    var folded := if adc then AdcStep(s.sampling.adc, sample) else s.sampling.adc;
    var input := if adc then folded.channel else s.sampling.adcInputChannel;
    var draw := RedrawDue(s.view.(needsDisplay := dirty));
    (Snapshot(s.limits, power, s.view.(needsDisplay := dirty && !draw), SamplingState(false, false, folded, input)),
     (if sensors then [ReadSensors] else []) + (if adc then [ReadAdc] else []) + (if draw then [Redraw] else []))
  }

  /** MyApp::handleEvent after the menu has seen the event. */
  function Dispatch(s: Snapshot, ev: Event, r: Reading, sample: nat): (result: (Snapshot, seq<Activity>))
    requires SnapshotValid(s) && WellFormedReading(r)
    ensures SnapshotValid(result.0)
  {
    match ev
    case Idle => IdleStep(s, r, sample)
    case AdcComplete => (s.(sampling := s.sampling.(captureADCValue := true)), [])
    case EventTimer(own) => (if own then s.(sampling := s.sampling.(captureSensorValues := true)) else s, [])
    case ButtonDown => (s, [])
    case OtherEvent => (s, [])
  }

  /** Only the idle event does work. The others at most raise a capture
      flag: the ADC's when a conversion completes, the sensors' when MyApp's
      own timer fires. */
  lemma DispatchOutsideIdle(s: Snapshot, ev: Event, r: Reading, sample: nat)
    requires SnapshotValid(s) && WellFormedReading(r) && !ev.Idle?
    ensures Dispatch(s, ev, r, sample).1 == []
    ensures Dispatch(s, ev, r, sample).0 ==
      s.(sampling := s.sampling.(
           captureADCValue := s.sampling.captureADCValue || ev.AdcComplete?,
           captureSensorValues := s.sampling.captureSensorValues || ev == EventTimer(true)))
  {
  }

  function ActivityRank(a: Activity): nat
  {
    match a
    case ReadSensors => 0
    case ReadAdc => 1
    case Redraw => 2
  }

  /** The idle handler reads the sensors, then folds the ADC sample, then
      redraws, each at most once and only when due; afterwards no capture
      is pending, an enabled display is clean, the limits and line modes are
      untouched, and the ADC converts the channel the next sample is folded
      into. */
  lemma IdleOrder(s: Snapshot, r: Reading, sample: nat)
    requires SnapshotValid(s) && WellFormedReading(r)
    requires s.sampling.adcInputChannel == s.sampling.adc.channel
    ensures var t, done := IdleStep(s, r, sample).0, IdleStep(s, r, sample).1;
      (ReadSensors in done <==> s.sampling.captureSensorValues) &&
      (ReadAdc in done <==> s.sampling.captureADCValue) &&
      (forall i, j :: 0 <= i < j < |done| ==> ActivityRank(done[i]) < ActivityRank(done[j])) &&
      !t.sampling.captureSensorValues && !t.sampling.captureADCValue &&
      (t.view.displayEnabled ==> !t.view.needsDisplay) &&
      t.limits == s.limits && t.view.lineDisplayMode == s.view.lineDisplayMode &&
      t.sampling.adcInputChannel == t.sampling.adc.channel
  {
  }

  /** The redraw happens exactly when the display is enabled and, after the
      sensor update, dirty: a changed reading is drawn in the same idle pass. */
  lemma IdleRedraw(s: Snapshot, r: Reading, sample: nat)
    requires SnapshotValid(s) && WellFormedReading(r)
    ensures Redraw in IdleStep(s, r, sample).1 <==>
      s.view.displayEnabled &&
      (s.view.needsDisplay || (s.sampling.captureSensorValues && SensorDirty(s.power, r)))
  {
  }

  // ---------------------------------------------------------------------------
  // The current-limit screen

  /** The arrow showCurrentLimit draws: before the supply letter, after the
      value, or none. */
  datatype CurrentLimitArrow = NoArrow | SupplyArrow | CurrentArrow

  /** The second LCD line showCurrentLimit writes: the display's right-arrow
      glyph 0x7E or a space, the supply letter, ':', the pending limit in mA
      as unsigned decimal, "ma", then the left-arrow glyph 0x7F or a space. */
  function LimitLine(supply: nat, arrow: CurrentLimitArrow, ma: u16): seq<char>
    requires supply < 2
  {
    [if arrow == SupplyArrow then 0x7E as char else ' ', (supply + 'A' as int) as char, ':']
      + DeviceStream.Decimal(ma) + ['m', 'a']
      + [if arrow == CurrentArrow then 0x7F as char else ' ']
  }

  /** The line names the supply, marks the arrow, and its digits read back
      as the limit. */
  lemma LimitLineShowsLimit(supply: nat, arrow: CurrentLimitArrow, index: LimitIndex)
    requires supply < 2
    ensures var line := LimitLine(supply, arrow, LimitMilliAmps(index));
      |line| >= 8 &&
      line[1] == (if supply == 0 then 'A' else 'B') &&
      (line[0] == 0x7E as char <==> arrow == SupplyArrow) &&
      (line[|line| - 1] == 0x7F as char <==> arrow == CurrentArrow) &&
      DeviceStream.AllDigits(line[3..|line| - 3]) &&
      DeviceStream.DecimalValue(line[3..|line| - 3]) == LimitMilliAmps(index)
  {
    var ma := LimitMilliAmps(index);
    var line := LimitLine(supply, arrow, ma);
    DeviceStream.DecimalRoundTrip(ma);
    DeviceStream.DecimalMinimal(ma);
    assert line[3..|line| - 3] == DeviceStream.Decimal(ma);
  }

  // ---------------------------------------------------------------------------
  // MyApp

  /** The stream insertions of showCurrentLimit after the line is cleared. */
  method WriteLimitLine(supply: nat, arrow: CurrentLimitArrow, ma: u16, lcd: DeviceStream.Stream)
    requires supply < 2
    modifies lcd
    ensures lcd.output == old(lcd.output) + LimitLine(supply, arrow, ma)
  {
    ghost var before := lcd.output;
    var lead := if arrow == SupplyArrow then 0x7E as char else ' ';
    var trail := if arrow == CurrentArrow then 0x7F as char else ' ';
    lcd.Emit(lead);
    lcd.Emit((supply + 'A' as int) as char);
    lcd.Emit(':');
    ghost var head := lcd.output;
    assert head == before + [lead, (supply + 'A' as int) as char, ':'];
    lcd.WriteU16(ma);
    assert lcd.output == head + DeviceStream.Decimal(ma);
    assert DeviceStream.Expand(DeviceStream.CString(['m', 'a', '\0'])) == ['m', 'a'] by {
      DeviceStream.CStringOfTerminated(['m', 'a'], []);
      DeviceStream.ExpandNoNewline(['m', 'a']);
    }
    lcd.WriteFlashString(['m', 'a', '\0']);
    lcd.Emit(trail);
    assert lcd.output == head + DeviceStream.Decimal(ma) + ['m', 'a'] + [trail];
  }

  /** A new two-entry array, one entry per supply. */
  method NewPair<T>(a: T, b: T) returns (r: array<T>)
    ensures fresh(r) && r[..] == [a, b]
  {
    r := new T[2] [a, b];
  }

  /** A new four-entry array, one entry per ADC channel, all equal. */
  method NewQuad<T>(x: T) returns (r: array<T>)
    ensures fresh(r) && r[..] == [x, x, x, x]
  {
    r := new T[4] [x, x, x, x];
  }

  class MyApp {
    var statusLED: bool
    var shutdownA: bool
    var shutdownB: bool
    const busMilliVolts: array<i16>
    const shuntMilliAmps: array<i16>
    var captureSensorValues: bool
    var needsDisplay: bool
    var displayEnabled: bool
    const adcAccumulator: array<u16>
    const adcVoltage: array<u16>
    var adcCurrentChannel: u8
    var adcCurrentSamples: u8
    var captureADCValue: bool
    var adcInputChannel: u8
    const currentLimitIndex: array<u8>
    const currentLimitAdjustIndex: array<u8>
    var currentLimitAdjustSupply: u8
    const overCurrentCount: array<u8>
    const lineDisplayMode: array<LineDisplayMode>

    /** The samples folded into each accumulator since the last recompute. */
    ghost var window: seq<seq<nat>>

    function Limits(): LimitSettings
      reads this`currentLimitAdjustSupply, currentLimitIndex, currentLimitAdjustIndex
    {
      LimitSettings(currentLimitIndex[..], currentLimitAdjustIndex[..], currentLimitAdjustSupply)
    }

    function Power(): PowerState
      reads this`shutdownA, this`shutdownB, this`statusLED, busMilliVolts, shuntMilliAmps, overCurrentCount
    {
      PowerState(busMilliVolts[..], shuntMilliAmps[..], overCurrentCount[..], shutdownA, shutdownB, statusLED)
    }

    function View(): ViewState
      reads this`needsDisplay, this`displayEnabled, lineDisplayMode
    {
      ViewState(needsDisplay, displayEnabled, lineDisplayMode[..])
    }

    function AdcState(): Adc
      reads this`adcCurrentChannel, this`adcCurrentSamples, adcAccumulator, adcVoltage
    {
      Adc(adcAccumulator[..], adcVoltage[..], adcCurrentChannel, adcCurrentSamples)
    }

    function Sampling(): SamplingState
      reads this`captureSensorValues, this`captureADCValue, this`adcCurrentChannel, this`adcCurrentSamples
      reads this`adcInputChannel, adcAccumulator, adcVoltage
    {
      SamplingState(captureSensorValues, captureADCValue, AdcState(), adcInputChannel)
    }

    /** Every field the model keeps, as one value. */
    function State(): Snapshot
      reads this, busMilliVolts, shuntMilliAmps, adcAccumulator, adcVoltage
      reads currentLimitIndex, currentLimitAdjustIndex, overCurrentCount, lineDisplayMode
    {
      Snapshot(Limits(), Power(), View(), Sampling())
    }

    /** The arrays have their sizes and are distinct. */
    predicate Shape()
    {
      busMilliVolts.Length == 2 && shuntMilliAmps.Length == 2 && overCurrentCount.Length == 2 &&
      currentLimitIndex.Length == 2 && currentLimitAdjustIndex.Length == 2 && lineDisplayMode.Length == 2 &&
      adcAccumulator.Length == 4 && adcVoltage.Length == 4 &&
      busMilliVolts != shuntMilliAmps && adcAccumulator != adcVoltage &&
      currentLimitIndex != currentLimitAdjustIndex &&
      currentLimitIndex != overCurrentCount && currentLimitAdjustIndex != overCurrentCount
    }

    /** Every table index and the adjusted supply are in range. */
    predicate LimitsInRange()
      reads this`currentLimitAdjustSupply, currentLimitIndex, currentLimitAdjustIndex
    {
      LimitsValid(Limits())
    }

    /** Neither line shows the Last sentinel. */
    predicate ModesInRange()
      reads lineDisplayMode
    {
      lineDisplayMode.Length == 2 && lineDisplayMode[0] != Last && lineDisplayMode[1] != Last
    }

    /** Each ADC accumulator is the sum of its window. */
    ghost predicate AdcInvariant()
      reads this`adcCurrentChannel, this`adcCurrentSamples, adcAccumulator, adcVoltage, this`window
    {
      AdcWindow(AdcState(), window)
    }

    ghost predicate Valid()
      reads this, busMilliVolts, shuntMilliAmps, adcAccumulator, adcVoltage
      reads currentLimitIndex, currentLimitAdjustIndex, overCurrentCount, lineDisplayMode
    {
      Shape() && LimitsInRange() && ModesInRange() && AdcInvariant()
    }

    constructor ()
      ensures Valid() && State() == Initial
    {
      var bus := NewPair<i16>(0, 0);
      var shunt := NewPair<i16>(0, 0);
      var accumulator := NewQuad<u16>(0);
      var voltage := NewQuad<u16>(0);
      var limit := NewPair<u8>(NumCurLimitValues - 1, NumCurLimitValues - 1);
      var adjust := NewPair<u8>(NumCurLimitValues - 1, NumCurLimitValues - 1);
      var count := NewPair<u8>(0, 0);
      var mode := NewPair(PS1VA, PS2VA);
      statusLED := false;
      shutdownA := false;
      shutdownB := false;
      busMilliVolts := bus;
      shuntMilliAmps := shunt;
      captureSensorValues := true;
      needsDisplay := true;
      displayEnabled := false;
      adcAccumulator := accumulator;
      adcVoltage := voltage;
      adcCurrentChannel := 0;
      adcCurrentSamples := 0;
      captureADCValue := false;
      adcInputChannel := 0;
      currentLimitIndex := limit;
      currentLimitAdjustIndex := adjust;
      currentLimitAdjustSupply := 0;
      overCurrentCount := count;
      lineDisplayMode := mode;
      window := seq(4, _ => []);
      new;
      InitialValid();
      assert Limits() == Initial.limits;
      assert Power() == Initial.power;
      assert View() == Initial.view;
      assert AdcState() == Initial.sampling.adc;
    }

    // -------------------------------------------------------------------------
    // Menu actions

    /** incCurLimit: the pending index of the supply being adjusted moves one
        entry up, from the last entry back to the first. */
    method IncCurLimit()
      requires Valid()
      modifies currentLimitAdjustIndex
      ensures Valid()
      ensures var o := old(Limits()); var k := o.currentLimitAdjustSupply;
        Limits() == o.(currentLimitAdjustIndex := o.currentLimitAdjustIndex[k := NextLimitIndex(o.currentLimitAdjustIndex[k])])
    {
      var k := currentLimitAdjustSupply;
      currentLimitAdjustIndex[k] := currentLimitAdjustIndex[k] + 1;
      if currentLimitAdjustIndex[k] >= NumCurLimitValues {
        currentLimitAdjustIndex[k] := 0;
      }
    }

    /** decCurLimit: the pending index moves one entry down; the uint8_t
        post-decrement of 0 is replaced by the last entry. */
    method DecCurLimit()
      requires Valid()
      modifies currentLimitAdjustIndex
      ensures Valid()
      ensures var o := old(Limits()); var k := o.currentLimitAdjustSupply;
        Limits() == o.(currentLimitAdjustIndex := o.currentLimitAdjustIndex[k := PrevLimitIndex(o.currentLimitAdjustIndex[k])])
    {
      var k := currentLimitAdjustSupply;
      var before := currentLimitAdjustIndex[k];
      currentLimitAdjustIndex[k] := Wrap8(before as int - 1);
      if before == 0 {
        currentLimitAdjustIndex[k] := NumCurLimitValues - 1;
      }
    }

    /** acceptCurLimit: both pending indices become the committed ones. */
    method AcceptCurLimit()
      requires Valid()
      modifies currentLimitIndex
      ensures Valid()
      ensures Limits() == old(Limits()).(currentLimitIndex := old(Limits()).currentLimitAdjustIndex)
    {
      currentLimitIndex[0] := currentLimitAdjustIndex[0];
      currentLimitIndex[1] := currentLimitAdjustIndex[1];
    }

    /** rejectCurLimit: both pending indices go back to the committed ones. */
    method RejectCurLimit()
      requires Valid()
      modifies currentLimitAdjustIndex
      ensures Valid()
      ensures Limits() == old(Limits()).(currentLimitAdjustIndex := old(Limits()).currentLimitIndex)
    {
      currentLimitAdjustIndex[0] := currentLimitIndex[0];
      currentLimitAdjustIndex[1] := currentLimitIndex[1];
    }

    /** advanceLineDisplay: the line shows the next mode, wrapping before
        Last, and the display is marked dirty. */
    method AdvanceLineDisplay(line: nat)
      requires Valid() && line < 2
      modifies this`needsDisplay, lineDisplayMode
      ensures Valid()
      ensures var o := old(View());
        View() == o.(lineDisplayMode := o.lineDisplayMode[line := NextMode(o.lineDisplayMode[line])], needsDisplay := true)
    {
      lineDisplayMode[line] := ModeOfOrdinal(ModeOrdinal(lineDisplayMode[line]) + 1);
      if lineDisplayMode[line] == Last {
        lineDisplayMode[line] := PS1VA;
      }
      needsDisplay := true;
    }

    /** The menu action display: live readings may be drawn again. */
    method Display()
      requires Valid()
      modifies this`displayEnabled
      ensures Valid()
      ensures View() == old(View()).(displayEnabled := true)
    {
      displayEnabled := true;
    }

    /** The menu actions nextLine0 and nextLine1. */
    method NextLine0()
      requires Valid()
      modifies this`needsDisplay, lineDisplayMode
      ensures Valid()
      ensures var o := old(View());
        View() == o.(lineDisplayMode := [NextMode(o.lineDisplayMode[0]), o.lineDisplayMode[1]], needsDisplay := true)
    {
      AdvanceLineDisplay(0);
    }

    method NextLine1()
      requires Valid()
      modifies this`needsDisplay, lineDisplayMode
      ensures Valid()
      ensures var o := old(View());
        View() == o.(lineDisplayMode := [o.lineDisplayMode[0], NextMode(o.lineDisplayMode[1])], needsDisplay := true)
    {
      AdvanceLineDisplay(1);
    }

    /** setCurrentLimit: the supply is shut down and the LED lit. */
    method SetCurrentLimit(supply: nat)
      requires Valid()
      modifies this`shutdownA, this`shutdownB, this`statusLED
      ensures Valid()
      ensures Power() == SetLimit(old(Power()), supply)
    {
      if supply == 0 {
        shutdownA := true;
      } else {
        shutdownB := true;
      }
      statusLED := true;
    }

    /** resetCurrentLimit: both supplies are released and the LED goes off. */
    method ResetCurrentLimit()
      requires Valid()
      modifies this`shutdownA, this`shutdownB, this`statusLED
      ensures Valid()
      ensures Power() == ResetLimit(old(Power()))
    {
      shutdownA := false;
      shutdownB := false;
      statusLED := false;
    }

    /** show: live readings stop being drawn while the menu text is on the
        LCD, which receives the flash string. */
    method Show(text: seq<char>, lcd: DeviceStream.Stream)
      requires Valid() && '\0' in text
      modifies this`displayEnabled, lcd
      ensures Valid()
      ensures View() == old(View()).(displayEnabled := false)
      ensures lcd.output == old(lcd.output) + DeviceStream.Expand(DeviceStream.CString(text))
    {
      displayEnabled := false;
      lcd.WriteFlashString(text);
    }

    /** showCurrentLimit: the latches are released, live readings stop being
        drawn, and the LCD line shows the supply's pending limit. */
    method ShowCurrentLimit(supply: nat, arrow: CurrentLimitArrow, lcd: DeviceStream.Stream)
      requires Valid() && supply < 2
      modifies this`shutdownA, this`shutdownB, this`statusLED, this`displayEnabled, lcd
      ensures Valid()
      ensures Power() == ResetLimit(old(Power()))
      ensures View() == old(View()).(displayEnabled := false)
      ensures lcd.output == old(lcd.output) + LimitLine(supply, arrow, LimitMilliAmps(Limits().currentLimitAdjustIndex[supply]))
    {
      ResetCurrentLimit();
      displayEnabled := false;
      WriteLimitLine(supply, arrow, LimitMilliAmps(currentLimitAdjustIndex[supply]), lcd);
    }

    /** curLimit0 and curLimit1: adjust supply A or B, arrow at the supply. */
    method CurLimit(supply: nat, lcd: DeviceStream.Stream)
      requires Valid() && supply < 2
      modifies this`shutdownA, this`shutdownB, this`statusLED, this`displayEnabled, this`currentLimitAdjustSupply, lcd
      ensures Valid()
      ensures Power() == ResetLimit(old(Power()))
      ensures View() == old(View()).(displayEnabled := false)
      ensures Limits() == old(Limits()).(currentLimitAdjustSupply := supply)
      ensures lcd.output == old(lcd.output) + LimitLine(supply, SupplyArrow, LimitMilliAmps(Limits().currentLimitAdjustIndex[supply]))
    {
      ShowCurrentLimit(supply, SupplyArrow, lcd);
      currentLimitAdjustSupply := supply;
    }

    /** adjustCurLimit (arrow at the value) and showCurLimit (no arrow): the
        supply being adjusted. */
    method AdjustCurLimit(arrow: CurrentLimitArrow, lcd: DeviceStream.Stream)
      requires Valid() && arrow != SupplyArrow
      modifies this`shutdownA, this`shutdownB, this`statusLED, this`displayEnabled, lcd
      ensures Valid()
      ensures Power() == ResetLimit(old(Power()))
      ensures View() == old(View()).(displayEnabled := false)
      ensures var l := Limits();
        lcd.output == old(lcd.output) + LimitLine(l.currentLimitAdjustSupply, arrow, LimitMilliAmps(l.currentLimitAdjustIndex[l.currentLimitAdjustSupply]))
    {
      ShowCurrentLimit(currentLimitAdjustSupply, arrow, lcd);
    }

    // -------------------------------------------------------------------------
    // Sampling and display

    /** updateADC with the last 10-bit conversion result. */
    method UpdateADC(sample: nat)
      requires Valid() && sample <= MaxSample
      modifies this`adcCurrentChannel, this`adcCurrentSamples, adcAccumulator, adcVoltage, this`window
      ensures Valid()
      ensures AdcState() == AdcStep(old(AdcState()), sample)
      ensures window == NextWindow(old(AdcState()), old(window), sample)
    {
      AdcStepKeepsWindow(AdcState(), window, sample);
      window := NextWindow(AdcState(), window, sample);
      StepAdc(sample);
    }

    /** The arithmetic of updateADC, with the window left aside. */
    method StepAdc(sample: nat)
      requires Shape() && AdcShape(AdcState())
      modifies this`adcCurrentChannel, this`adcCurrentSamples, adcAccumulator, adcVoltage
      ensures AdcState() == AdcStep(old(AdcState()), sample)
    {
      ghost var t := AdcStep(AdcState(), sample);
      var ch := adcCurrentChannel;
      adcAccumulator[ch] := Wrap16(adcAccumulator[ch] + sample);
      adcCurrentChannel := ch + 1;
      if adcCurrentChannel >= 4 {
        adcCurrentChannel := 0;
        adcCurrentSamples := adcCurrentSamples + 1;
        if adcCurrentSamples >= ADCAverageCount {
          adcCurrentSamples := 0;
          RecomputeVoltages();
          assert adcAccumulator[..] == t.accumulator;
          assert adcVoltage[..] == t.voltage;
        }
      }
    }

    /** The end of an averaging window in updateADC: each channel's voltage
        is recomputed from its accumulator, which is cleared. */
    method RecomputeVoltages()
      requires adcAccumulator.Length == 4 && adcVoltage.Length == 4 && adcAccumulator != adcVoltage
      modifies adcAccumulator, adcVoltage
      ensures forall c :: 0 <= c < 4 ==> adcAccumulator[c] == 0
      ensures forall c :: 0 <= c < 4 ==> adcVoltage[c] == AveragedMilliVolts(old(adcAccumulator[c]))
    {
      for i := 0 to 4
        invariant forall c :: 0 <= c < i ==> adcAccumulator[c] == 0
        invariant forall c :: 0 <= c < i ==> adcVoltage[c] == AveragedMilliVolts(old(adcAccumulator[c]))
        invariant forall c :: i <= c < 4 ==> adcAccumulator[c] == old(adcAccumulator[c])
      {
        adcVoltage[i] := AveragedMilliVolts(adcAccumulator[i]);
        adcAccumulator[i] := 0;
      }
    }

    /** The first half of one pass of updateCurrentSensor's loop: each new
        value is stored and marks the display dirty when it differs. */
    method StoreSupplyReading(supply: nat, bus: i16, shunt: i16)
      requires Valid() && supply < 2
      modifies busMilliVolts, shuntMilliAmps, this`needsDisplay
      ensures Valid()
      ensures Power() == StoreReading(old(Power()), supply, bus, shunt)
      ensures needsDisplay == (old(needsDisplay) || Changes(old(Power()), supply, bus, shunt))
    {
      if bus != busMilliVolts[supply] {
        busMilliVolts[supply] := bus;
        needsDisplay := true;
      }
      var v := ShuntMilliAmps(shunt);
      if v != shuntMilliAmps[supply] {
        shuntMilliAmps[supply] := v;
        needsDisplay := true;
      }
    }

    /** The second half: the overcurrent count and the latch. */
    method CheckSupplyLimit(supply: nat)
      requires Valid() && supply < 2
      modifies overCurrentCount, this`shutdownA, this`shutdownB, this`statusLED
      ensures Valid()
      ensures Power() == CountOverCurrent(old(Power()), Limits().currentLimitIndex[supply], supply)
    {
      if shuntMilliAmps[supply] > LimitMilliAmps(currentLimitIndex[supply]) * 10 {
        var count := overCurrentCount[supply];
        overCurrentCount[supply] := Wrap8(count as int + 1);
        if count > 3 {
          SetCurrentLimit(supply);
        }
      } else {
        overCurrentCount[supply] := 0;
      }
    }

    /** updateCurrentSensor with one reading of both sensors. */
    method UpdateCurrentSensor(r: Reading)
      requires Valid() && WellFormedReading(r)
      modifies busMilliVolts, shuntMilliAmps, overCurrentCount, this`needsDisplay
      modifies this`shutdownA, this`shutdownB, this`statusLED
      ensures Valid()
      ensures Power() == SensorPoll(old(Power()), Limits(), r)
      ensures needsDisplay == (old(needsDisplay) || SensorDirty(old(Power()), r))
    {
      ghost var p := Power();
      for i := 0 to 2
        invariant Valid()
        invariant Power() == PolledUpTo(p, Limits(), r, i)
        invariant needsDisplay == (old(needsDisplay) || DirtyUpTo(p, Limits(), r, i))
      {
        StoreSupplyReading(i, r.bus[i], r.shunt[i]);
        CheckSupplyLimit(i);
      }
      PollLoopIsSensorPoll(p, Limits(), r);
    }

    /** updateDisplay: when the display is enabled and dirty it is redrawn
        and becomes clean; otherwise nothing happens. */
    method UpdateDisplay() returns (redrawn: bool)
      requires Valid()
      modifies this`needsDisplay
      ensures Valid()
      ensures redrawn == RedrawDue(old(View()))
      ensures View() == if redrawn then old(View()).(needsDisplay := false) else old(View())
    {
      if !displayEnabled || !needsDisplay {
        return false;
      }
      needsDisplay := false;
      redrawn := true;
    }

    /** The first step of the idle handler: a pending sensor capture is
        consumed and the sensors are read. */
    method IdleSensors(r: Reading) returns (sensors: bool)
      requires Valid() && WellFormedReading(r)
      modifies busMilliVolts, shuntMilliAmps, overCurrentCount, this`needsDisplay, this`captureSensorValues
      modifies this`shutdownA, this`shutdownB, this`statusLED
      ensures Valid()
      ensures sensors == old(captureSensorValues) && !captureSensorValues
      ensures Power() == if sensors then SensorPoll(old(Power()), Limits(), r) else old(Power())
      ensures needsDisplay == (old(needsDisplay) || (sensors && SensorDirty(old(Power()), r)))
    {
      sensors := captureSensorValues;
      if sensors {
        captureSensorValues := false;
        UpdateCurrentSensor(r);
      }
    }

    /** The second step: a pending ADC value is consumed, folded in, and the
        ADC is pointed at the next channel. */
    method IdleAdc(sample: nat) returns (adc: bool)
      requires Valid() && sample <= MaxSample
      modifies this`captureADCValue, this`adcInputChannel, this`adcCurrentChannel, this`adcCurrentSamples
      modifies adcAccumulator, adcVoltage, this`window
      ensures Valid()
      ensures adc == old(captureADCValue) && !captureADCValue
      ensures AdcState() == if adc then AdcStep(old(AdcState()), sample) else old(AdcState())
      ensures adcInputChannel == if adc then adcCurrentChannel as nat else old(adcInputChannel)
    {
      adc := captureADCValue;
      if adc {
        captureADCValue := false;
        UpdateADC(sample);
        adcInputChannel := adcCurrentChannel;
      }
    }

    /** The EV_IDLE case of handleEvent: a pending sensor capture, then a
        pending ADC value, then the display. */
    method OnIdle(r: Reading, sample: nat) returns (activity: seq<Activity>)
      requires Valid() && WellFormedReading(r) && sample <= MaxSample
      modifies this, busMilliVolts, shuntMilliAmps, overCurrentCount, adcAccumulator, adcVoltage
      ensures Valid()
      ensures (State(), activity) == IdleStep(old(State()), r, sample)
    {
      ghost var s := State();
      var sensors := IdleSensors(r);
      var adc := IdleAdc(sample);
      var drawn := UpdateDisplay();
      activity := (if sensors then [ReadSensors] else []) + (if adc then [ReadAdc] else []) + (if drawn then [Redraw] else []);
      assert Limits() == s.limits;
      assert Power() == if sensors then SensorPoll(s.power, s.limits, r) else s.power;
      ghost var folded := if adc then AdcStep(s.sampling.adc, sample) else s.sampling.adc;
      assert Sampling() == SamplingState(false, false, folded, if adc then folded.channel else s.sampling.adcInputChannel);
      assert View().lineDisplayMode == s.view.lineDisplayMode;
    }

    /** handleEvent, after the menu has seen the event: r is what the
        sensors would report and sample the ADC's last conversion. */
    method HandleEvent(ev: Event, r: Reading, sample: nat) returns (activity: seq<Activity>)
      requires Valid() && WellFormedReading(r) && sample <= MaxSample
      modifies this, busMilliVolts, shuntMilliAmps, overCurrentCount, adcAccumulator, adcVoltage
      ensures Valid()
      ensures (State(), activity) == Dispatch(old(State()), ev, r, sample)
    {
      activity := [];
      match ev {
        case Idle =>
          activity := OnIdle(r, sample);
        case AdcComplete =>
          captureADCValue := true;
        case EventTimer(own) =>
          if own {
            captureSensorValues := true;
          }
        case ButtonDown =>
        case OtherEvent =>
      }
    }
  }
}
