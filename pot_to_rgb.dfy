/** The user-space control loop that reads three ADC channels, rescales each
    12-bit sample to an 18.17 fixed-point PWM duty, lets a selector file force
    one colour to full scale, and writes the duties to the RGB PWM attributes.
    One pass of the endless loop is modelled as a step over the outcomes of its
    file accesses; the step reports, in order, every external action it takes. */
module PotToRgb {
  import opened Words

  /** Full-scale duty: `1u << 17`, i.e. 1.0 in 18.17 fixed point. */
  const DUTY_SCALE: u32 := 0x2_0000

  /** Largest 12-bit ADC sample. */
  const ADC_MAX: nat := 4095

  /** Period written to the RGB PWM device at start-up. */
  const PERIOD: u32 := 320

  /** Sleeps, in microseconds: after start-up, after a failed cycle, after a good cycle. */
  const SETTLE_US: nat := 100000
  const BACKOFF_US: nat := 100000
  const CYCLE_US: nat := 20000

  /** The duty the override forces on its colour, `0xff * DUTY_SCALE / 0xff`. */
  const FULL_ON: u32 := 0xff * DUTY_SCALE / 0xff

  /** Number of colour channels; channel 0 is red, 1 green and 2 blue, fed by
      ADC channels ch0_raw, ch1_raw and ch2_raw respectively. */
  const CHANNELS: nat := 3

  /** The externally visible actions of the loop, in the order it issues them. */
  datatype Action =
    | WriteAutoUpdate(flag: nat)      // write_bool to the ADC's auto_update
    | WritePeriod(period: u32)        // write_u32 to the RGB period
    | ReadAdc(ch: nat)                // read_u16 of ch<ch>_raw
    | ReadSelector                    // read_u16 of the selector file
    | WriteDuty(ch: nat, duty: u32)   // write_u32 to red, green or blue
    | Sleep(us: nat)                  // usleep

  /** How start-up ends: the loop is entered, or the program exits with a status. */
  datatype StartOutcome = Running | Exit(status: int)

  /** The loop variables that live across passes: `adc_r`, `adc_g`, `adc_b`
      (as `adc[0..3]`) and `button_num`. */
  datatype Locals = Locals(adc: seq<u16>, button: u16)

  /** What the outside world answers during one pass: the value `fscanf` parses
      from each ADC file (or a failure), the same for the selector file, and
      whether each of the three duty writes succeeds. */
  datatype Outcomes = Outcomes(adc: seq<Option<u32>>, selector: Option<u32>, writeOk: seq<bool>)

  /** The loop variables as `main` declares them. */
  const INITIAL: Locals := Locals([0, 0, 0], 0)

  /** The clamp of `read_u16`: a parsed value above 0xFFFF saturates at 0xFFFF;
      a failed read yields nothing, and the caller's variable keeps its value. */
  function ReadU16(parsed: Option<u32>): (r: Option<u16>)
    ensures r.Some? <==> parsed.Some?
    ensures parsed.Some? && parsed.value <= 0xFFFF ==> r == Some(parsed.value as u16)
    ensures parsed.Some? && parsed.value > 0xFFFF ==> r == Some(0xFFFF)
  {
    match parsed
    case None => None
    case Some(tmp) => Some(if tmp > 0xFFFF then 0xFFFF else tmp)
  }

  /** `adc_to_duty`: `(uint32_t)adc * DUTY_SCALE / ADC_MAX`, with the product
      truncated to 32 bits as C's unsigned arithmetic does. Below 0x8000 the
      product fits and the result is the exact rescale; on the 12-bit range that
      rescale lies in [0, DUTY_SCALE]. */
  function AdcToDuty(adc: u16): (r: u32)
    ensures adc < 0x8000 ==> r == adc * DUTY_SCALE / ADC_MAX
    ensures adc <= ADC_MAX ==> r <= DUTY_SCALE
  {
    (adc * DUTY_SCALE) % 0x1_0000_0000 / ADC_MAX
  }

  /** Both ends of the 12-bit range map to the ends of the duty range. */
  lemma AdcToDutyEndpoints()
    ensures AdcToDuty(0) == 0
    ensures AdcToDuty(ADC_MAX as u16) == DUTY_SCALE
  {
  }

  /** Mid-scale: 2047 maps to 65519, the exact quotient 65519.98 truncated. */
  lemma AdcToDutyMidScale()
    ensures AdcToDuty(2047) == 65519
  {
  }

  /** On the 12-bit range a larger sample never gives a smaller duty. */
  lemma AdcToDutyMonotone(a: u16, b: u16)
    requires a <= b <= ADC_MAX
    ensures AdcToDuty(a) <= AdcToDuty(b)
  {
  }

  /** Between the 12-bit maximum and the point where the product overflows,
      the duty is still the exact rescale, and so exceeds full scale. */
  lemma AdcToDutyAboveRange(adc: u16)
    requires ADC_MAX < adc < 0x8000
    ensures AdcToDuty(adc) == adc * DUTY_SCALE / ADC_MAX
    ensures AdcToDuty(adc) > DUTY_SCALE
  {
  }

  /** From 0x8000 on, `adc * 2^17` no longer fits in 32 bits: the product wraps
      and the duty falls far below the exact rescale (0x8000 gives 0). */
  lemma AdcToDutyWraps(adc: u16)
    requires 0x8000 <= adc
    ensures AdcToDuty(adc) == (adc - 0x8000) * DUTY_SCALE / ADC_MAX
    ensures AdcToDuty(adc) < adc * DUTY_SCALE / ADC_MAX
  {
  }

  /** The override `switch`: selector 1, 2 or 3 forces red, green or blue
      respectively to full scale and the other two to zero; any other selector
      leaves the sampled duties as they are. */
  function Override(selector: u16, duty: seq<u32>): (r: seq<u32>)
    requires |duty| == CHANNELS
    ensures |r| == CHANNELS
    ensures 1 <= selector <= 3 ==>
              forall k :: 0 <= k < CHANNELS ==> r[k] == if k == selector - 1 then DUTY_SCALE else 0
    ensures !(1 <= selector <= 3) ==> r == duty
  {
    match selector
    case 1 => [FULL_ON, 0, 0]
    case 2 => [0, FULL_ON, 0]
    case 3 => [0, 0, FULL_ON]
    case _ => duty
  }

  /** Duties within [0, DUTY_SCALE] stay there after the override. */
  lemma OverrideInRange(selector: u16, duty: seq<u32>)
    requires |duty| == CHANNELS
    requires forall k :: 0 <= k < CHANNELS ==> duty[k] <= DUTY_SCALE
    ensures forall k :: 0 <= k < CHANNELS ==> Override(selector, duty)[k] <= DUTY_SCALE
  {
  }

  /** A failed selector read gives no override: the sampled duties are written as they are. */
  lemma NoSelectorNoOverride(duty: seq<u32>)
    requires |duty| == CHANNELS
    ensures Override(Selector(None), duty) == duty
  {
  }

  /** With every sample on the 12-bit range, every duty a pass can write lies in
      [0, DUTY_SCALE], whatever the selector. */
  lemma DutiesInRange(selector: u16, adc: seq<u16>)
    requires |adc| == CHANNELS
    requires forall k :: 0 <= k < CHANNELS ==> adc[k] <= ADC_MAX
    ensures forall k :: 0 <= k < CHANNELS ==> Override(selector, Sampled(adc))[k] <= DUTY_SCALE
  {
  }

  /** Selector 2 with samples (4095, 0, 4095) writes (0, 2^17, 0): the override
      replaces all three sampled duties. */
  lemma OverrideScenario()
    ensures Override(2, Sampled([4095, 0, 4095])) == [0, 0x2_0000, 0]
  {
  }

  /** The selector the pass acts on: the clamped value read, or 0 when the read fails. */
  function Selector(parsed: Option<u32>): (sel: u16)
    ensures parsed.None? ==> sel == 0
    ensures parsed.Some? ==> sel == ReadU16(parsed).value
  {
    match ReadU16(parsed)
    case None => 0
    case Some(v) => v
  }

  /** The duties computed from the three samples, before the override. */
  function Sampled(adc: seq<u16>): (d: seq<u32>)
    requires |adc| == CHANNELS
    ensures |d| == CHANNELS
    ensures forall k :: 0 <= k < CHANNELS ==> d[k] == AdcToDuty(adc[k])
  {
    [AdcToDuty(adc[0]), AdcToDuty(adc[1]), AdcToDuty(adc[2])]
  }

  /** How many of three fallible calls chained with `||` are evaluated: all of
      them up to and including the first that fails. */
  function Evaluated(ok: seq<bool>): (n: nat)
    requires |ok| == CHANNELS
    ensures 1 <= n <= CHANNELS
    ensures forall j :: 0 <= j < n - 1 ==> ok[j]
    ensures n < CHANNELS ==> !ok[n - 1]
    ensures (forall j :: 0 <= j < CHANNELS ==> ok[j]) <==> n == CHANNELS && ok[n - 1]
  {
    if !ok[0] then 1 else if !ok[1] then 2 else 3
  }

  /** Which ADC reads succeed. */
  function AdcOk(adc: seq<Option<u32>>): (ok: seq<bool>)
    requires |adc| == CHANNELS
    ensures |ok| == CHANNELS
    ensures forall k :: 0 <= k < CHANNELS ==> ok[k] == adc[k].Some?
  {
    [adc[0].Some?, adc[1].Some?, adc[2].Some?]
  }

  predicate AllOk(ok: seq<bool>)
  {
    forall k :: 0 <= k < |ok| ==> ok[k]
  }

  /** Start-up: enable auto-update on the ADC, then set the RGB period; either
      failure ends the program with status 1, and success settles before the loop. */
  method Start(autoUpdateOk: bool, periodOk: bool) returns (trace: seq<Action>, outcome: StartOutcome)
    ensures |trace| >= 1 && trace[0] == WriteAutoUpdate(1)
    ensures !autoUpdateOk ==> trace == [WriteAutoUpdate(1)] && outcome == Exit(1)
    ensures autoUpdateOk && !periodOk ==> trace == [WriteAutoUpdate(1), WritePeriod(PERIOD)] && outcome == Exit(1)
    ensures autoUpdateOk && periodOk ==>
              trace == [WriteAutoUpdate(1), WritePeriod(PERIOD), Sleep(SETTLE_US)] && outcome == Running
  {
    trace := [WriteAutoUpdate(1)];
    if !autoUpdateOk {
      return trace, Exit(1);
    }
    trace := trace + [WritePeriod(PERIOD)];
    if !periodOk {
      return trace, Exit(1);
    }
    trace := trace + [Sleep(SETTLE_US)];
    outcome := Running;
  }

  /** The ADC half of a pass, `read_u16(ch0_raw) || read_u16(ch1_raw) ||
      read_u16(ch2_raw)`: channels are read in order up to and including the
      first failure; each successful read stores its clamped sample, and a failed
      or skipped read leaves its variable alone. */
  method ReadChannels(adc: seq<u16>, parsed: seq<Option<u32>>) returns (adc': seq<u16>, trace: seq<Action>, ok: bool)
    requires |adc| == CHANNELS && |parsed| == CHANNELS
    ensures ok == AllOk(AdcOk(parsed))
    ensures |trace| == Evaluated(AdcOk(parsed))
    ensures forall k :: 0 <= k < |trace| ==> trace[k] == ReadAdc(k)
    ensures |adc'| == CHANNELS
    ensures forall k :: 0 <= k < CHANNELS ==>
              adc'[k] == if k < |trace| && parsed[k].Some? then ReadU16(parsed[k]).value else adc[k]
  {
    adc' := adc;
    trace := [ReadAdc(0)];
    var r := ReadU16(parsed[0]);
    if r.Some? { adc' := adc'[0 := r.value]; }
    ok := r.Some?;
    if ok {
      trace := trace + [ReadAdc(1)];
      r := ReadU16(parsed[1]);
      if r.Some? { adc' := adc'[1 := r.value]; }
      ok := r.Some?;
    }
    if ok {
      trace := trace + [ReadAdc(2)];
      r := ReadU16(parsed[2]);
      if r.Some? { adc' := adc'[2 := r.value]; }
      ok := r.Some?;
    }
  }

  /** The write half of a pass, `write_u32(red) || write_u32(green) ||
      write_u32(blue)`: duties are written red, green, blue up to and including
      the first write that fails. */
  method WriteDuties(duty: seq<u32>, writeOk: seq<bool>) returns (trace: seq<Action>, ok: bool)
    requires |duty| == CHANNELS && |writeOk| == CHANNELS
    ensures ok == AllOk(writeOk)
    ensures |trace| == Evaluated(writeOk)
    ensures forall k :: 0 <= k < |trace| ==> trace[k] == WriteDuty(k, duty[k])
  {
    trace := [WriteDuty(0, duty[0])];
    ok := writeOk[0];
    if ok {
      trace := trace + [WriteDuty(1, duty[1])];
      ok := writeOk[1];
    }
    if ok {
      trace := trace + [WriteDuty(2, duty[2])];
      ok := writeOk[2];
    }
  }

  /** One pass of the loop. If an ADC read fails, the selector is not read, no
      duty is written, the channels read before the failure keep their new
      samples, and the pass ends with the back-off sleep. Otherwise the selector
      is read (0 when that fails), the override is applied to the rescaled
      samples, the duties are written, and the pass ends with the back-off sleep
      after a failed write or the short cycle sleep otherwise. */
  method Iterate(s: Locals, io: Outcomes) returns (s': Locals, trace: seq<Action>)
    requires |s.adc| == CHANNELS && |io.adc| == CHANNELS && |io.writeOk| == CHANNELS
    ensures |s'.adc| == CHANNELS
    // the ADC reads come first, in channel order, up to the first failure
    ensures var n := Evaluated(AdcOk(io.adc));
              |trace| > n && forall k :: 0 <= k < n ==> trace[k] == ReadAdc(k)
    // a successful read updates its variable; a failed or skipped one leaves it
    ensures forall k :: 0 <= k < CHANNELS ==>
              s'.adc[k] == if k < Evaluated(AdcOk(io.adc)) && io.adc[k].Some?
                           then ReadU16(io.adc[k]).value else s.adc[k]
    // an ADC failure skips the selector and every write
    ensures !AllOk(AdcOk(io.adc)) ==>
              trace[Evaluated(AdcOk(io.adc))..] == [Sleep(BACKOFF_US)] && s'.button == s.button
    // otherwise: selector, then the overridden duties, red to blue, up to the first failed write
    ensures AllOk(AdcOk(io.adc)) ==>
              var duty := Override(Selector(io.selector), Sampled(s'.adc));
              var m := Evaluated(io.writeOk);
              s'.button == Selector(io.selector) &&
              |trace| == CHANNELS + 1 + m + 1 &&
              trace[CHANNELS] == ReadSelector &&
              (forall k :: 0 <= k < m ==> trace[CHANNELS + 1 + k] == WriteDuty(k, duty[k])) &&
              trace[|trace| - 1] == Sleep(if AllOk(io.writeOk) then CYCLE_US else BACKOFF_US)
  {
    var adc, sampling, adcOk := ReadChannels(s.adc, io.adc);
    if !adcOk {
      trace := sampling + [Sleep(BACKOFF_US)];
      s' := Locals(adc, s.button);
      return;
    }

    var button := Selector(io.selector);
    var duty := Override(button, Sampled(adc));
    var writes, writeOk := WriteDuties(duty, io.writeOk);
    trace := sampling + [ReadSelector] + writes + [Sleep(if writeOk then CYCLE_US else BACKOFF_US)];
    s' := Locals(adc, button);
  }

  /** Starting from the loop variables as `main` declares them, a pass whose
      green ADC read fails writes nothing and backs off; the next pass, with every
      ADC read and every write succeeding and the selector read failing (so no
      override), writes the three rescaled samples and takes the short sleep. */
  method FailThenRetry(r: u32, g: u32, b: u32) returns (first: seq<Action>, second: seq<Action>)
    requires r <= ADC_MAX && g <= ADC_MAX && b <= ADC_MAX
    ensures first == [ReadAdc(0), ReadAdc(1), Sleep(BACKOFF_US)]
    ensures second == [ReadAdc(0), ReadAdc(1), ReadAdc(2), ReadSelector,
                       WriteDuty(0, AdcToDuty(r)), WriteDuty(1, AdcToDuty(g)), WriteDuty(2, AdcToDuty(b)),
                       Sleep(CYCLE_US)]
  {
    var s1;
    s1, first := Iterate(INITIAL, Outcomes([Some(r), None, Some(b)], Some(0), [true, true, true]));
    var s2;
    s2, second := Iterate(s1, Outcomes([Some(r), Some(g), Some(b)], None, [true, true, true]));
    assert s2.adc == [r, g, b];
    assert AllOk(AdcOk([Some(r), Some(g), Some(b)])) && AllOk([true, true, true]);
    assert Override(Selector(None), Sampled(s2.adc)) == [AdcToDuty(r), AdcToDuty(g), AdcToDuty(b)];
    assert |second| == 8;
  }
}
