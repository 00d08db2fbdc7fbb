// The arithmetic and decision logic of the power-supply application
// (AVRPowerSupply.cpp), as functions: the current-limit table and its index
// stepping, the line display modes, ADC window averaging, the shunt reading
// transform and the overcurrent latch of one supply.
module Supply {
  import opened Ints

  // ---------------------------------------------------------------------------
  // Current-limit table

  /** curLimitValues: the selectable limits, in units of 10 mA. */
  const CurLimitValues: seq<u8> := [1, 5, 10, 20, 40, 60, 80, 100]

  /** numCurLimitValues = sizeof(curLimitValues). */
  const NumCurLimitValues: nat := |CurLimitValues|

  type LimitIndex = i: nat | i < 8

  /** The table has eight entries in strictly increasing order, so a larger
      index always selects a higher limit. */
  lemma CurLimitValuesOrdered()
    ensures NumCurLimitValues == 8
    ensures forall i, j :: 0 <= i < j < NumCurLimitValues ==> CurLimitValues[i] < CurLimitValues[j]
  {
  }

  /** curLimitMa / curLimitAdjustMa: the limit at a table index in mA, as a
      uint16_t. It is a multiple of 10 between 10 and 1000, so the
      (int16_t) cast in the overcurrent test keeps it, and ten times it still
      fits an int16_t. */
  function LimitMilliAmps(index: LimitIndex): (ma: u16)
    ensures 10 <= ma <= 1000 && ma % 10 == 0
    ensures ma * 10 < 0x8000
    ensures forall j: LimitIndex :: j < index ==> LimitMilliAmps(j) < ma
  {
    (CurLimitValues[index] as int) * 10
  }

  /** Where incCurLimit takes the pending index: one entry up, wrapping 7 to 0. */
  function NextLimitIndex(i: LimitIndex): LimitIndex
  {
    (i + 1) % NumCurLimitValues
  }

  /** Where decCurLimit takes the pending index: one entry down, wrapping 0 to 7. */
  function PrevLimitIndex(i: LimitIndex): LimitIndex
  {
    if i == 0 then NumCurLimitValues - 1 else i - 1
  }

  /** Increment and decrement undo each other, so the operator can always step
      back to where they started. */
  lemma NextPrevInverse(i: LimitIndex)
    ensures PrevLimitIndex(NextLimitIndex(i)) == i
    ensures NextLimitIndex(PrevLimitIndex(i)) == i
  {
  }

  /** Stepping the index k times moves it k places around the table. */
  function StepLimitIndex(i: LimitIndex, k: nat): LimitIndex
  {
    if k == 0 then i else NextLimitIndex(StepLimitIndex(i, k - 1))
  }

  /** Eight increments bring every index back to itself, and no fewer do:
      incrementing visits every entry of the table. */
  lemma {:induction false} StepLimitIndexIsModular(i: LimitIndex, k: nat)
    ensures StepLimitIndex(i, k) == (i + k) % NumCurLimitValues
  {
    if k > 0 {
      StepLimitIndexIsModular(i, k - 1);
      assert NumCurLimitValues == 8;
      var j := i + k - 1;
      assert (j % 8 + 1) % 8 == (j + 1) % 8 by {
        assert j == 8 * (j / 8) + j % 8;
      }
    }
  }

  // ---------------------------------------------------------------------------
  // Line display modes

  /** LineDisplayMode, including its sentinel Last. */
  datatype LineDisplayMode = PS1VA | PS2VA | PS12A | V1V2 | V3V4 | Last

  /** The enum's underlying value. */
  function ModeOrdinal(m: LineDisplayMode): nat
  {
    match m
    case PS1VA => 0
    case PS2VA => 1
    case PS12A => 2
    case V1V2 => 3
    case V3V4 => 4
    case Last => 5
  }

  /** The cast (LineDisplayMode) n. */
  function ModeOfOrdinal(n: nat): (m: LineDisplayMode)
    requires n <= 5
    ensures ModeOrdinal(m) == n
  {
    if n == 0 then PS1VA
    else if n == 1 then PS2VA
    else if n == 2 then PS12A
    else if n == 3 then V1V2
    else if n == 4 then V3V4
    else Last
  }

  /** The mode advanceLineDisplay moves to: the next of the five real modes,
      wrapping to PS1VA, never Last. */
  function NextMode(m: LineDisplayMode): (r: LineDisplayMode)
    requires m != Last
    ensures r != Last
    ensures ModeOrdinal(r) == (ModeOrdinal(m) + 1) % 5
  {
    var n := ModeOfOrdinal(ModeOrdinal(m) + 1);
    if n == Last then PS1VA else n
  }

  // ---------------------------------------------------------------------------
  // ADC averaging

  /** ADCAverageCount: samples per channel in one averaging window. */
  const ADCAverageCount: nat := 16

  /** The largest value lastConversion10Bit() returns. */
  const MaxSample: nat := 1023

  function Sum(s: seq<nat>): nat
  {
    if s == [] then 0 else Sum(s[..|s| - 1]) + s[|s| - 1]
  }

  /** Every sample is a 10-bit conversion result. */
  predicate AllSamples(s: seq<nat>)
  {
    forall i :: 0 <= i < |s| ==> s[i] <= MaxSample
  }

  /** A channel's accumulator never exceeds 1023 per sample folded into it. */
  lemma {:induction false} SumOfSamplesBound(s: seq<nat>)
    requires AllSamples(s)
    ensures Sum(s) <= |s| * MaxSample
  {
    if s != [] {
      SumOfSamplesBound(s[..|s| - 1]);
    }
  }

  /** A full window of 16 samples sums to at most 16 * 1023 = 16368, so the
      uint16_t accumulator never wraps. */
  lemma WindowFitsAccumulator(s: seq<nat>)
    requires AllSamples(s) && |s| <= ADCAverageCount
    ensures Sum(s) <= 16368 < 0x1_0000
  {
    SumOfSamplesBound(s);
  }

  /** The averaged value of a window, rounded half up: (acc + 8) / 16. */
  function RoundedMean(acc: nat): (m: nat)
    ensures m * 16 <= acc + 8 < m * 16 + 16
  {
    (acc + ADCAverageCount / 2) / ADCAverageCount
  }

  /** The voltage updateADC stores for one channel: acc + 8 in 16-bit
      unsigned arithmetic (int is 16 bits on the AVR), divided by 16, times
      5000, divided by 1024, in uint32_t arithmetic and stored in a uint16_t.
      Below 0xFFF8 the sum does not wrap and the result is the rounded mean
      scaled to a 5000 mV full range, truncated; from 0xFFF8 on the sum
      wraps to 0..7 and the result is 0. The product and the store never
      wrap. */
  function AveragedMilliVolts(acc: u16): (mv: u16)
    ensures acc <= 0xFFF7 ==> mv * 1024 <= RoundedMean(acc) * 5000 < mv * 1024 + 1024
    ensures acc > 0xFFF7 ==> mv == 0
  {
    var v: u32 := Wrap16(acc + ADCAverageCount / 2) / ADCAverageCount;
    assert v <= 4096;
    var scaled: u32 := Wrap32(v * 5000);
    assert scaled == v * 5000;
    Wrap16(scaled / 1024)
  }

  /** For 10-bit samples the averaged voltage is at most 4995 mV. */
  lemma AveragedMilliVoltsBound(acc: u16)
    requires acc <= ADCAverageCount * MaxSample
    ensures AveragedMilliVolts(acc) <= 4995
  {
    var m := RoundedMean(acc);
    assert m <= MaxSample;
    var mv := AveragedMilliVolts(acc);
    assert mv * 1024 <= m * 5000 <= MaxSample * 5000;
  }

  /** The ADC state updateADC works on: the four _adcAccumulator and
      _adcVoltage entries, _adcCurrentChannel and _adcCurrentSamples. */
  datatype Adc = Adc(accumulator: seq<u16>, voltage: seq<u16>, channel: nat, samples: nat)

  predicate AdcShape(a: Adc)
  {
    |a.accumulator| == 4 && |a.voltage| == 4 && a.channel < 4 && a.samples < ADCAverageCount
  }

  /** One call of updateADC with the conversion result sample: it is added
      (uint16_t, wrapping) to the current channel's accumulator and the
      channel advances; the sample count advances when the channel wraps
      to 0, and on reaching 16 every voltage is recomputed from its
      accumulator and every accumulator is cleared. */
  function AdcStep(a: Adc, sample: nat): (r: Adc)
    requires AdcShape(a)
    ensures AdcShape(r)
  {
    var acc := a.accumulator[a.channel := Wrap16(a.accumulator[a.channel] + sample)];
    if a.channel + 1 < 4 then Adc(acc, a.voltage, a.channel + 1, a.samples)
    else if a.samples + 1 < ADCAverageCount then Adc(acc, a.voltage, 0, a.samples + 1)
    else Adc(seq(4, _ => 0), seq(4, i requires 0 <= i < 4 => AveragedMilliVolts(acc[i])), 0, 0)
  }

  /** Sampling is round-robin over the four channels, and the sample count
      moves only when the channel wraps from 3 to 0, modulo 16. */
  lemma AdcStepOrder(a: Adc, sample: nat)
    requires AdcShape(a)
    ensures AdcStep(a, sample).channel == (a.channel + 1) % 4
    ensures AdcStep(a, sample).samples == if a.channel == 3 then (a.samples + 1) % 16 else a.samples
  {
  }

  /** The samples folded into each accumulator since the last recompute: the
      channels before the current one have one more sample than the others,
      and each accumulator holds exactly the sum of its samples. */
  ghost predicate AdcWindow(a: Adc, window: seq<seq<nat>>)
  {
    AdcShape(a) && |window| == 4 &&
    forall c :: 0 <= c < 4 ==>
      AllSamples(window[c]) &&
      |window[c]| == a.samples + (if c < a.channel then 1 else 0) &&
      a.accumulator[c] == Sum(window[c])
  }

  /** The window after one updateADC: the sample joins the current channel's
      window, and all windows start over after a recompute. */
  ghost function NextWindow(a: Adc, window: seq<seq<nat>>, sample: nat): seq<seq<nat>>
    requires AdcShape(a) && |window| == 4
  {
    if a.channel == 3 && a.samples + 1 == ADCAverageCount then seq(4, _ => [])
    else Folded(a, window, sample)
  }

  /** The windows with the sample joined to the current channel's. */
  ghost function Folded(a: Adc, window: seq<seq<nat>>, sample: nat): seq<seq<nat>>
    requires AdcShape(a) && |window| == 4
  {
    window[a.channel := window[a.channel] + [sample]]
  }

  lemma SumAppend(s: seq<nat>, x: nat)
    ensures Sum(s + [x]) == Sum(s) + x
  {
    assert (s + [x])[..|s|] == s;
  }

  /** updateADC keeps every accumulator equal to the sum of its window. In
      particular the uint16_t addition never wraps: a window holds at most
      16 ten-bit samples. */
  lemma AdcStepKeepsWindow(a: Adc, window: seq<seq<nat>>, sample: nat)
    requires AdcWindow(a, window) && sample <= MaxSample
    ensures AdcWindow(AdcStep(a, sample), NextWindow(a, window, sample))
    ensures a.accumulator[a.channel] + sample < 0x1_0000
  {
    var c := a.channel;
    var w := window[c] + [sample];
    SumAppend(window[c], sample);
    assert AllSamples(w);
    WindowFitsAccumulator(w);
    if !(c == 3 && a.samples + 1 == ADCAverageCount) {
      var r := AdcStep(a, sample);
      var nw := NextWindow(a, window, sample);
      forall d | 0 <= d < 4
        ensures AllSamples(nw[d]) && |nw[d]| == r.samples + (if d < r.channel then 1 else 0)
        ensures r.accumulator[d] == Sum(nw[d])
      {
      }
    }
  }

  /** When a window completes, each voltage is the rounded mean of that
      channel's sixteen samples scaled to 5000 mV over 1024 steps, and at
      most 4995 mV. */
  lemma AdcStepVoltages(a: Adc, window: seq<seq<nat>>, sample: nat)
    requires AdcWindow(a, window) && sample <= MaxSample
    requires a.channel == 3 && a.samples == ADCAverageCount - 1
    ensures forall c :: 0 <= c < 4 ==>
      var full := Folded(a, window, sample)[c];
      var mv := AdcStep(a, sample).voltage[c];
      |full| == ADCAverageCount && mv * 1024 <= RoundedMean(Sum(full)) * 5000 < mv * 1024 + 1024
    ensures forall c :: 0 <= c < 4 ==> AdcStep(a, sample).voltage[c] <= 4995
  {
    forall c | 0 <= c < 4
      ensures |Folded(a, window, sample)[c]| == ADCAverageCount
      ensures AdcStep(a, sample).voltage[c] as int * 1024 <= RoundedMean(Sum(Folded(a, window, sample)[c])) * 5000
      ensures RoundedMean(Sum(Folded(a, window, sample)[c])) * 5000 < AdcStep(a, sample).voltage[c] as int * 1024 + 1024
      ensures AdcStep(a, sample).voltage[c] <= 4995
    {
      ChannelVoltage(a, window, sample, c);
    }
  }

  /** One channel of AdcStepVoltages: its full window sums to its
      accumulator, which is below the wrap of acc + 8. */
  lemma ChannelVoltage(a: Adc, window: seq<seq<nat>>, sample: nat, c: nat)
    requires AdcWindow(a, window) && sample <= MaxSample
    requires a.channel == 3 && a.samples == ADCAverageCount - 1 && c < 4
    ensures |Folded(a, window, sample)[c]| == ADCAverageCount
    ensures AdcStep(a, sample).voltage[c] as int * 1024 <= RoundedMean(Sum(Folded(a, window, sample)[c])) * 5000
    ensures RoundedMean(Sum(Folded(a, window, sample)[c])) * 5000 < AdcStep(a, sample).voltage[c] as int * 1024 + 1024
    ensures AdcStep(a, sample).voltage[c] <= 4995
  {
    var full := Folded(a, window, sample)[c];
    SumAppend(window[3], sample);
    assert AllSamples(full);
    WindowFitsAccumulator(full);
    assert Sum(full) == Wrap16(a.accumulator[c] + (if c == 3 then sample else 0));
    assert AdcStep(a, sample).voltage[c] == AveragedMilliVolts(Sum(full));
    AveragedMilliVoltsBound(Sum(full));
  }

  // ---------------------------------------------------------------------------
  // Current sensor

  /** The stored shunt current for a shunt register reading: negative readings
      count as 0, and (v * 100 + 165) / 330 rounds v * 100 / 330 to the
      nearest integer, halves up. The value shown with one decimal "ma". */
  function ShuntMilliAmps(shunt: i16): (ma: i16)
    ensures 0 <= ma <= 9930
    ensures var v := if shunt < 0 then 0 else shunt as int;
            ma * 330 - 165 <= v * 100 < ma * 330 + 165
  {
    var v: i32 := if shunt < 0 then 0 else shunt;
    (v * 100 + 165) / 330
  }

  /** The transform is monotone: a larger shunt voltage never reads as less current. */
  lemma ShuntMilliAmpsMonotone(a: i16, b: i16)
    requires a <= b
    ensures ShuntMilliAmps(a) <= ShuntMilliAmps(b)
  {
    var va := if a < 0 then 0 else a as int;
    var vb := if b < 0 then 0 else b as int;
    assert va * 100 + 165 <= vb * 100 + 165;
  }

  /** The overcurrent test of updateCurrentSensor: the reading is above ten
      times the limit in mA. */
  predicate OverLimit(shuntMa: int, index: LimitIndex)
  {
    shuntMa > LimitMilliAmps(index) * 10
  }

  // ---------------------------------------------------------------------------
  // Overcurrent latch of one supply

  /** One supply's _overCurrentCount and its shutdown line. */
  datatype Latch = Latch(count: u8, shutdown: bool)

  /** The post-increment test _overCurrentCount[i]++ > 3 succeeds. */
  predicate Fires(l: Latch, over: bool)
  {
    over && l.count > 3
  }

  /** One poll: an over-limit reading counts up (uint8_t, wrapping) and sets the
      shutdown line once the count before it was above 3; an in-limit reading
      clears the count and leaves the shutdown line alone. */
  function Poll(l: Latch, over: bool): (r: Latch)
    ensures l.shutdown ==> r.shutdown
    ensures r.shutdown ==> l.shutdown || over
    ensures !over ==> r.count == 0 && r.shutdown == l.shutdown
  {
    if over then Latch(Wrap8(l.count + 1), l.shutdown || l.count > 3)
    else Latch(0, l.shutdown)
  }

  /** The latch after a sequence of polls, oldest first. */
  function Polls(l: Latch, overs: seq<bool>): Latch
  {
    if overs == [] then l else Poll(Polls(l, overs[..|overs| - 1]), overs[|overs| - 1])
  }

  /** The number of over-limit polls at the end of the sequence. */
  function TrailingOver(overs: seq<bool>): nat
  {
    if overs == [] || !overs[|overs| - 1] then 0 else TrailingOver(overs[..|overs| - 1]) + 1
  }

  /** Some prefix of the polls ended in at least five over-limit readings in a row. */
  ghost predicate HadOverRun(overs: seq<bool>)
  {
    exists j :: 0 <= j <= |overs| && TrailingOver(overs[..j]) >= 5
  }

  /** A run of five reaches the end of the sequence, or ended earlier. */
  lemma HadOverRunSplit(overs: seq<bool>)
    requires overs != []
    ensures HadOverRun(overs) <==> HadOverRun(overs[..|overs| - 1]) || TrailingOver(overs) >= 5
  {
    var n := |overs|;
    var p := overs[..n - 1];
    assert overs[..n] == overs;
    if HadOverRun(p) {
      var j :| 0 <= j <= n - 1 && TrailingOver(p[..j]) >= 5;
      assert p[..j] == overs[..j];
    }
    if HadOverRun(overs) {
      var j :| 0 <= j <= n && TrailingOver(overs[..j]) >= 5;
      if j < n {
        assert p[..j] == overs[..j];
      }
    }
    if TrailingOver(p) >= 5 {
      assert p[..n - 1] == p;
    }
  }

  /** From a cleared latch, the count is the number of trailing over-limit
      polls, modulo 256 since the counter is a uint8_t. */
  lemma {:induction false} PollsCount(overs: seq<bool>)
    ensures Polls(Latch(0, false), overs).count == TrailingOver(overs) % 0x100
  {
    if overs != [] {
      var p := overs[..|overs| - 1];
      PollsCount(p);
      var t := TrailingOver(p);
      if overs[|overs| - 1] {
        ModSucc(t);
      }
    }
  }

  lemma ModSucc(t: nat)
    ensures Wrap8(t % 0x100 + 1) == (t + 1) % 0x100
  {
    var q := t / 0x100;
    assert t == q * 0x100 + t % 0x100;
    if t % 0x100 == 0xFF {
      assert t + 1 == (q + 1) * 0x100;
    } else {
      assert t + 1 == q * 0x100 + (t % 0x100 + 1);
    }
  }

  /** From a cleared latch, the shutdown line is set exactly when, at some
      point, five consecutive polls were over the limit. */
  lemma {:induction false} PollsShutdown(overs: seq<bool>)
    ensures Polls(Latch(0, false), overs).shutdown <==> HadOverRun(overs)
  {
    if overs != [] {
      var n := |overs|;
      var p := overs[..n - 1];
      PollsShutdown(p);
      PollsCount(p);
      HadOverRunSplit(overs);
      var t := TrailingOver(p);
      if overs[n - 1] && t >= 4 && t % 0x100 <= 3 {
        assert p[..n - 1] == p;
        assert HadOverRun(p);
      }
    }
  }

  /** Sustained overcurrent: after n consecutive over-limit polls from a
      cleared latch the shutdown line is set exactly when n >= 5 (the fifth
      poll is the first whose count before it is above 3). */
  lemma ConsecutiveOverLimit(n: nat)
    ensures Polls(Latch(0, false), seq(n, _ => true)).shutdown <==> n >= 5
  {
    var overs := seq(n, _ => true);
    PollsShutdown(overs);
    TrailingOverAllTrue(n);
    if n >= 5 {
      assert overs[..n] == overs;
    } else if HadOverRun(overs) {
      var j :| 0 <= j <= n && TrailingOver(overs[..j]) >= 5;
      TrailingOverBound(overs[..j]);
    }
  }

  lemma {:induction false} TrailingOverAllTrue(n: nat)
    ensures TrailingOver(seq(n, _ => true)) == n
  {
    if n > 0 {
      assert seq(n, _ => true)[..n - 1] == seq(n - 1, _ => true);
      TrailingOverAllTrue(n - 1);
    }
  }

  lemma {:induction false} TrailingOverBound(overs: seq<bool>)
    ensures TrailingOver(overs) <= |overs|
  {
    if overs != [] {
      TrailingOverBound(overs[..|overs| - 1]);
    }
  }

  /** Once set, the shutdown line stays set whatever the later readings are. */
  lemma {:induction false} ShutdownStaysLatched(l: Latch, overs: seq<bool>)
    requires l.shutdown
    ensures Polls(l, overs).shutdown
  {
    if overs != [] {
      ShutdownStaysLatched(l, overs[..|overs| - 1]);
    }
  }
}
