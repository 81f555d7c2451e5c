/**
  Runs of the acquisition state machine over a sequence of ticks, and the
  debounce property: after any run from power-on, `pressed` holds exactly
  when the last two press/no-press decisions both passed.
 */
module Trace {
  import opened Adc
  import opened Touch

  /** What the environment supplies on one start-of-frame. */
  datatype Tick = Tick(done: bool, sense: Sense)

  /** The machine after the given ticks, oldest first. */
  function Run(m: Machine, ticks: seq<Tick>): Machine
    decreases |ticks|
  {
    if |ticks| == 0 then m
    else
      var last := ticks[|ticks| - 1];
      Step(Run(m, ticks[..|ticks| - 1]), last.done, last.sense)
  }

  /** A tick takes the press/no-press decision when it completes the STBY_XR read. */
  predicate Decides(m: Machine, t: Tick)
  {
    m.state.StbyReadXr? && Read(m.adc, t.done, t.sense).Ready?
  }

  /** Whether that decision passes the deviation test. */
  predicate Passes(m: Machine, t: Tick)
    requires Decides(m, t)
  {
    !Rejects(m.internals.x, m.internals.stbyYd, Read(m.adc, t.done, t.sense).value)
  }

  /** The outcomes of the decisions taken along a run, oldest first. */
  function Decisions(m: Machine, ticks: seq<Tick>): seq<bool>
    decreases |ticks|
  {
    if |ticks| == 0 then []
    else
      var before := Run(m, ticks[..|ticks| - 1]);
      var last := ticks[|ticks| - 1];
      Decisions(m, ticks[..|ticks| - 1]) + (if Decides(before, last) then [Passes(before, last)] else [])
  }

  /** The last decision of a run passed. */
  predicate LastPassed(d: seq<bool>)
  {
    |d| >= 1 && d[|d| - 1]
  }

  /** The last two decisions of a run passed. */
  predicate LastTwoPassed(d: seq<bool>)
  {
    |d| >= 2 && d[|d| - 1] && d[|d| - 2]
  }

  /**
    How one tick moves the two debounce flags: only a deciding tick changes
    them; `fullUpdate` becomes the outcome, and `pressed` becomes true only
    on a pass that follows a pass.
   */
  lemma FlagsStep(m: Machine, t: Tick)
    ensures var r := Step(m, t.done, t.sense);
            && r.internals.fullUpdate == (if Decides(m, t) then Passes(m, t) else m.internals.fullUpdate)
            && r.vals.pressed == (if Decides(m, t) then Passes(m, t) && (m.internals.fullUpdate || m.vals.pressed)
                                  else m.vals.pressed)
  {
  }

  /**
    Debounce: from power-on, `fullUpdate` records that the last decision
    passed, and `pressed` holds exactly when the last two decisions passed.
    So `pressed` never rises on a single good lap, and a single rejection
    clears it at once.
   */
  lemma {:induction false} PressedIffTwoPasses(ticks: seq<Tick>)
    ensures Run(Initial, ticks).internals.fullUpdate <==> LastPassed(Decisions(Initial, ticks))
    ensures Run(Initial, ticks).vals.pressed <==> LastTwoPassed(Decisions(Initial, ticks))
    decreases |ticks|
  {
    if |ticks| > 0 {
      var prefix := ticks[..|ticks| - 1];
      var last := ticks[|ticks| - 1];
      PressedIffTwoPasses(prefix);
      var before := Run(Initial, prefix);
      var d := Decisions(Initial, prefix);
      FlagsStep(before, last);
      if Decides(before, last) {
        assert Decisions(Initial, ticks) == d + [Passes(before, last)];
      } else {
        assert Decisions(Initial, ticks) == d;
      }
    }
  }

  /** Every state reached from power-on satisfies the machine invariant. */
  lemma {:induction false} RunPreservesInv(ticks: seq<Tick>)
    ensures Inv(Run(Initial, ticks))
    decreases |ticks|
  {
    if |ticks| == 0 {
      InitialInv();
    } else {
      var last := ticks[|ticks| - 1];
      RunPreservesInv(ticks[..|ticks| - 1]);
      StepPreservesInv(Run(Initial, ticks[..|ticks| - 1]), last.done, last.sense);
    }
  }
}
