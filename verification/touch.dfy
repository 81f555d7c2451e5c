/**
  The touchscreen acquisition state machine of usbdev.c
  (`EVENT_USB_Device_StartOfFrame`), run once per USB start-of-frame.

  A lap measures the panel four times: the two standby readings YD and XR
  taken with YU driven high and XL low, then Y (read on XL) and X (read on
  YU). At the end of the standby half the firmware decides, from the
  previous lap's X and the fresh standby pair, whether the panel is
  pressed; two passing decisions in a row promote the previous lap's
  coordinates into the published `touch_vals`.

  The pin drive patterns written to PORTF/DDRF are not modelled; only the
  converter channel each state reads matters here.
 */
module Touch {
  import opened Wrappers
  import opened Ints
  import opened Adc

  /** Electrode pins, which are also their ADC channel numbers. */
  const PinYU: bv8 := 7
  const PinXL: bv8 := 4
  const PinYD: bv8 := 5
  const PinXR: bv8 := 6

  /** The pressure-rejection threshold of the deviation test. */
  const Threshold: int := 500

  /** `enum AdcState`, in declaration order. */
  datatype AdcState =
    | StbySet
    | StbyInitRead
    | StbyReadYd
    | StbyReadXr
    | YInitRead
    | YRead
    | XInitRead
    | XRead

  /** `touch_internals`: the raw samples and the "previous decision passed" flag. */
  datatype Internals = Internals(stbyYd: uint16, stbyXr: uint16, y: uint16, x: uint16, fullUpdate: bool)

  /** `touch_vals`: the published touch state the report callback reads. */
  datatype TouchVals = TouchVals(y: uint16, x: uint16, pressed: bool)

  datatype Machine = Machine(state: AdcState, adc: Converter, internals: Internals, vals: TouchVals)

  /** Static initialisation: zeroed structures, and the state machine entering at Y_INIT_READ. */
  const Initial: Machine :=
    Machine(YInitRead, PowerOn, Internals(0, 0, 0, 0, false), TouchVals(0, 0, false))

  /** The cyclic order of the eight states, as an independent reference for `Step`. */
  function Next(s: AdcState): AdcState
  {
    match s
    case StbySet => StbyInitRead
    case StbyInitRead => StbyReadYd
    case StbyReadYd => StbyReadXr
    case StbyReadXr => YInitRead
    case YInitRead => YRead
    case YRead => XInitRead
    case XInitRead => XRead
    case XRead => StbySet
  }

  /** The states that poll a conversion started by an earlier tick. */
  predicate Polling(s: AdcState)
  {
    s.StbyReadYd? || s.StbyReadXr? || s.YRead? || s.XRead?
  }

  /** The states that start a conversion and fall through to polling it in the same tick. */
  predicate StartsAndPolls(s: AdcState)
  {
    s.YInitRead? || s.XInitRead?
  }

  /** The pin each reading state samples. */
  function ReadPin(s: AdcState): bv8
    requires Polling(s) || StartsAndPolls(s)
  {
    match s
    case StbyReadYd => PinYD
    case StbyReadXr => PinXR
    case YInitRead | YRead => PinXL
    case XInitRead | XRead => PinYU
  }

  // ---------------------------------------------------------------------
  // The deviation test
  // ---------------------------------------------------------------------

  /** `(uint32_t)X * STBY_YD`: the product of two 16-bit samples never overflows 32 bits. */
  lemma ProductFits(x: uint16, yd: uint16)
    ensures 0 <= x * yd < Two32
  {
    MultiplyMonotone(x, yd, 0xFFFF);
    MultiplyMonotone(0xFFFF, x, 0xFFFF);
  }

  lemma MultiplyMonotone(a: nat, b: nat, c: nat)
    requires b <= c
    ensures a * b <= a * c
  {
  }

  /** The ratio `X * STBY_YD / STBY_XR`; C leaves it undefined for STBY_XR = 0. */
  function Ratio(x: uint16, yd: uint16, xr: uint16): (r: uint32)
    requires xr != 0
    ensures r * xr <= x * yd < (r + 1) * xr
  {
    ProductFits(x, yd);
    x * yd / xr
  }

  /**
    The deviation exactly as the C expression computes it: an unsigned
    32-bit difference `ratio - X`, and no value at all when the divisor
    STBY_XR is zero (undefined behaviour in C).
   */
  function DeviationAsWritten(x: uint16, yd: uint16, xr: uint16): (r: Option<uint32>)
    ensures r.None? <==> xr == 0
    ensures r.Some? ==> (r.value + x - Ratio(x, yd, xr)) % Two32 == 0
  {
    if xr == 0 then None else Some(Wrap32(Ratio(x, yd, xr) - x))
  }

  /**
    The rejection test used by the model: the C comparison
    `deviation > 500UL`, with a zero STBY_XR counted as a rejection.
   */
  predicate Rejects(x: uint16, yd: uint16, xr: uint16)
  {
    match DeviationAsWritten(x, yd, xr)
    case None => true
    case Some(d) => d > Threshold
  }

  /**
    The test is one-sided: a ratio below X wraps to a huge unsigned value
    and is always rejected; a ratio at or above X is rejected exactly when
    it exceeds X by more than the threshold.
   */
  lemma RejectsCharacterised(x: uint16, yd: uint16, xr: uint16)
    requires xr != 0
    ensures Rejects(x, yd, xr) <==> Ratio(x, yd, xr) < x || Ratio(x, yd, xr) - x > Threshold
  {
  }

  /** A zero STBY_XR makes the C expression undefined; the model rejects such a reading. */
  lemma ZeroDivisorUndefinedAndRejected(x: uint16, yd: uint16)
    ensures DeviationAsWritten(x, yd, 0).None?
    ensures Rejects(x, yd, 0)
  {
  }

  /** The decision taken once per lap, on the samples with the fresh STBY_XR stored. */
  function Decide(i: Internals, v: TouchVals): (Internals, TouchVals)
  {
    if Rejects(i.x, i.stbyYd, i.stbyXr) then
      (i.(fullUpdate := false), v.(pressed := false))
    else if i.fullUpdate then
      (i.(fullUpdate := true), TouchVals(i.y, i.x, true))
    else
      (i.(fullUpdate := true), v)
  }

  // ---------------------------------------------------------------------
  // The step function
  // ---------------------------------------------------------------------

  /** Y_READ: on a finished conversion store Y and move on. */
  function PollY(m: Machine, done: bool, sense: Sense): Machine
  {
    match Read(m.adc, done, sense)
    case NotReady => m
    case Ready(v) => m.(state := XInitRead, adc := Idle(m.adc), internals := m.internals.(y := v))
  }

  /** X_READ: on a finished conversion store X and close the lap. */
  function PollX(m: Machine, done: bool, sense: Sense): Machine
  {
    match Read(m.adc, done, sense)
    case NotReady => m
    case Ready(v) => m.(state := StbySet, adc := Idle(m.adc), internals := m.internals.(x := v))
  }

  /**
    One start-of-frame tick. `done` says whether a running conversion has
    finished when it is polled, `sense` the level on each channel.
    Y_INIT_READ and X_INIT_READ fall through into their poll case.
   */
  function Step(m: Machine, done: bool, sense: Sense): Machine
  {
    match m.state
    case StbySet =>
      m.(state := StbyInitRead)
    case StbyInitRead =>
      m.(state := StbyReadYd, adc := Start(m.adc, PinYD))
    case StbyReadYd =>
      (match Read(m.adc, done, sense)
       case NotReady => m
       case Ready(v) =>
         m.(state := StbyReadXr, adc := Start(Idle(m.adc), PinXR), internals := m.internals.(stbyYd := v)))
    case StbyReadXr =>
      (match Read(m.adc, done, sense)
       case NotReady => m
       case Ready(v) =>
         var (i, t) := Decide(m.internals.(stbyXr := v), m.vals);
         m.(state := YInitRead, adc := Idle(m.adc), internals := i, vals := t))
    case YInitRead =>
      PollY(m.(state := YRead, adc := Start(m.adc, PinXL)), done, sense)
    case YRead =>
      PollY(m, done, sense)
    case XInitRead =>
      PollX(m.(state := XRead, adc := Start(m.adc, PinYU)), done, sense)
    case XRead =>
      PollX(m, done, sense)
  }

  // ---------------------------------------------------------------------
  // The invariant of reachable states
  // ---------------------------------------------------------------------

  /**
    A conversion is running exactly in the polling states, and it was
    started on the pin that state reads; the reference bits never change;
    all values are conversion results.
   */
  predicate Inv(m: Machine)
  {
    && (m.adc.busy <==> Polling(m.state))
    && (Polling(m.state) ==> SelectedChannel(m.adc) == ReadPin(m.state))
    && m.adc.admux & 0xF0 == ReferenceBits
    && Bounded(m)
  }

  /** Every stored sample, and so every published coordinate, is a 10-bit conversion result. */
  predicate Bounded(m: Machine)
  {
    && m.internals.stbyYd <= AdcMax && m.internals.stbyXr <= AdcMax
    && m.internals.x <= AdcMax && m.internals.y <= AdcMax
    && m.vals.x <= AdcMax && m.vals.y <= AdcMax
  }

  lemma InitialInv()
    ensures Inv(Initial)
  {
  }

  lemma StepPreservesInv(m: Machine, done: bool, sense: Sense)
    requires Inv(m)
    ensures Inv(Step(m, done, sense))
  {
  }

  // ---------------------------------------------------------------------
  // Properties of one tick
  // ---------------------------------------------------------------------

  /**
    Each tick advances along the fixed cycle: the set-up states move one
    step unconditionally, a polling state moves one step exactly when its
    conversion has finished, and the two start-and-poll states move one
    step, or two when the conversion they just started is already done.
   */
  lemma StepSuccessor(m: Machine, done: bool, sense: Sense)
    requires Inv(m)
    ensures m.state.StbySet? || m.state.StbyInitRead? ==> Step(m, done, sense).state == Next(m.state)
    ensures Polling(m.state) ==> Step(m, done, sense).state == if done then Next(m.state) else m.state
    ensures StartsAndPolls(m.state) ==>
              Step(m, done, sense).state == if done then Next(Next(m.state)) else Next(m.state)
  {
  }

  /** A tick on which the pending conversion has not finished changes nothing at all. */
  lemma BusyTickChangesNothing(m: Machine, sense: Sense)
    requires Inv(m) && Polling(m.state)
    ensures Step(m, false, sense) == m
  {
  }

  /**
    A finished read stores the level of the state's fixed pin into
    exactly one sample field; ticks that read nothing leave the samples
    alone (the decision then updates only `fullUpdate`).
   */
  lemma ReadWritesOneField(m: Machine, done: bool, sense: Sense)
    requires Inv(m)
    ensures var i := Step(m, done, sense).internals;
            && (m.state.StbyReadYd? && done ==> i == m.internals.(stbyYd := sense(PinYD)))
            && (m.state.StbyReadXr? && done ==>
                  i.(fullUpdate := m.internals.fullUpdate) == m.internals.(stbyXr := sense(PinXR)))
            && ((m.state.YInitRead? || m.state.YRead?) && done ==> i == m.internals.(y := sense(PinXL)))
            && ((m.state.XInitRead? || m.state.XRead?) && done ==> i == m.internals.(x := sense(PinYU)))
            && (m.state.StbySet? || m.state.StbyInitRead? || !done ==> i == m.internals)
  {
  }

  /**
    The decision point. With X and STBY_YD from the samples and the fresh
    STBY_XR reading: a rejection clears `pressed` and `fullUpdate` and
    keeps the published coordinates; a pass sets `fullUpdate` and
    publishes (X, Y, pressed) only when the previous decision passed too.
   */
  lemma DecisionOutcome(m: Machine, sense: Sense)
    requires Inv(m) && m.state.StbyReadXr?
    ensures var r := Step(m, true, sense);
            var i := m.internals;
            && (Rejects(i.x, i.stbyYd, sense(PinXR)) ==>
                  r.vals == m.vals.(pressed := false) && !r.internals.fullUpdate)
            && (!Rejects(i.x, i.stbyYd, sense(PinXR)) ==>
                  && r.internals.fullUpdate
                  && r.vals == if i.fullUpdate then TouchVals(i.y, i.x, true) else m.vals)
  {
  }

  /**
    `touch_vals` is written only by a completed STBY_READ_XR tick, and the
    coordinates only ever change together with `pressed`, as the whole
    triple taken from the samples.
   */
  lemma ValsWrittenOnlyAtDecision(m: Machine, done: bool, sense: Sense)
    ensures var r := Step(m, done, sense);
            && (r.vals != m.vals ==> m.state.StbyReadXr? && Read(m.adc, done, sense).Ready?)
            && (r.vals.x != m.vals.x || r.vals.y != m.vals.y ==>
                  r.vals == TouchVals(m.internals.y, m.internals.x, true))
  {
  }
}
