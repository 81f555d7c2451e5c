/**
  The HID report descriptor `MouseReport` of Descriptors.c, as a list of
  short items, and the input report layout it declares. Report Size,
  Report Count and the logical extent are global items that persist until
  changed; each Input main item adds Report Count fields of Report Size
  bits to the report (section 6.2.2 of HID 1.11).
 */
module HidReport {
  import Touch
  import Trace
  import Report

  datatype Item =
    | UsagePage(page: nat)
    | Usage(id: nat)
    | UsageMinimum(id: nat)
    | UsageMaximum(id: nat)
    | LogicalMinimum(value: int)
    | LogicalMaximum(value: int)
    | PhysicalMinimum(value: int)
    | PhysicalMaximum(value: int)
    | ReportCount(count: nat)
    | ReportSize(bits: nat)
    | Input(flags: bv8)
    | Collection(kind: nat)
    | EndCollection

  /** Input item flag bit 0: constant (padding) rather than data. */
  const Constant: bv8 := 0x01
  /** Input item flag bit 1: variable rather than array. */
  const Variable: bv8 := 0x02

  /** The global state an Input item reads. */
  datatype Globals = Globals(size: nat, count: nat, logicalMin: int, logicalMax: int)

  /** A run of `count` input fields of `size` bits each. */
  datatype Field = Field(size: nat, count: nat, constant: bool, logicalMin: int, logicalMax: int)

  /** The effect of one item on the global state. */
  function Update(it: Item, g: Globals): Globals
  {
    match it
    case ReportSize(n) => g.(size := n)
    case ReportCount(n) => g.(count := n)
    case LogicalMinimum(v) => g.(logicalMin := v)
    case LogicalMaximum(v) => g.(logicalMax := v)
    case _ => g
  }

  /** The fields one item adds: an Input item adds one run of fields, any other item none. */
  function Emit(it: Item, g: Globals): seq<Field>
  {
    match it
    case Input(flags) => [Field(g.size, g.count, flags & Constant != 0, g.logicalMin, g.logicalMax)]
    case _ => []
  }

  /** The input fields the items declare, in report order. */
  function InputFields(items: seq<Item>, g: Globals): seq<Field>
    decreases |items|
  {
    if |items| == 0 then [] else Emit(items[0], g) + InputFields(items[1..], Update(items[0], g))
  }

  /** The global state after the items. */
  function After(items: seq<Item>, g: Globals): Globals
    decreases |items|
  {
    if |items| == 0 then g else After(items[1..], Update(items[0], g))
  }

  lemma Cons(it: Item, rest: seq<Item>, g: Globals)
    ensures InputFields([it] + rest, g) == Emit(it, g) + InputFields(rest, Update(it, g))
    ensures After([it] + rest, g) == After(rest, Update(it, g))
  {
  }

  /** Items are read left to right: the fields of a concatenation are those of its parts. */
  lemma {:induction false} InputFieldsAppend(a: seq<Item>, b: seq<Item>, g: Globals)
    ensures InputFields(a + b, g) == InputFields(a, g) + InputFields(b, After(a, g))
    ensures After(a + b, g) == After(b, After(a, g))
    decreases |a|
  {
    if |a| > 0 {
      assert (a + b)[0] == a[0];
      assert (a + b)[1..] == a[1..] + b;
      InputFieldsAppend(a[1..], b, Update(a[0], g));
    } else {
      assert a + b == b;
    }
  }

  /** Usage, usage-page, collection and physical-extent items. */
  predicate Neutral(it: Item)
  {
    !(it.ReportSize? || it.ReportCount? || it.LogicalMinimum? || it.LogicalMaximum? || it.Input?)
  }

  /** Items that are neither global report items nor Input items declare nothing and change nothing. */
  lemma {:induction false} NeutralRun(items: seq<Item>, g: Globals)
    requires forall i :: 0 <= i < |items| ==> Neutral(items[i])
    ensures InputFields(items, g) == [] && After(items, g) == g
    decreases |items|
  {
    if |items| > 0 {
      NeutralRun(items[1..], g);
    }
  }

  /** Total bits of a list of fields. */
  function Bits(fields: seq<Field>): nat
    decreases |fields|
  {
    if |fields| == 0 then 0 else fields[0].size * fields[0].count + Bits(fields[1..])
  }

  const NoGlobals: Globals := Globals(0, 0, 0, 0)

  /** The parts of `MouseReport`: collections, buttons, padding, axes, and the two ends of collection. */
  const Opening: seq<Item> := [UsagePage(0x01), Usage(0x02), Collection(0x01), Usage(0x01), Collection(0x00)]
  const ButtonUsages: seq<Item> := [UsagePage(0x09), UsageMinimum(0x01), UsageMaximum(3)]
  const ButtonBits: seq<Item> := [
    LogicalMinimum(0x00), LogicalMaximum(0x01), ReportCount(3), ReportSize(0x01), Input(Variable)]
  const Padding: seq<Item> := [ReportCount(0x01), ReportSize(5), Input(Constant)]
  const AxisUsages: seq<Item> := [UsagePage(0x01), Usage(0x30), Usage(0x31)]
  const AxisRange: seq<Item> := [LogicalMinimum(0), LogicalMaximum(1023)]
  const AxisPhysical: seq<Item> := [PhysicalMinimum(0), PhysicalMaximum(1)]
  const AxisBits: seq<Item> := [ReportCount(0x02), ReportSize(16), Input(Variable)]
  const Closing: seq<Item> := [EndCollection, EndCollection]

  lemma ButtonBitsSegment(g: Globals)
    ensures InputFields(ButtonBits, g) == [Field(1, 3, false, 0, 1)]
    ensures After(ButtonBits, g) == Globals(1, 3, 0, 1)
  {
    var g4 := Globals(1, 3, 0, 1);
    Cons(Input(Variable), [], g4);
    Cons(ReportSize(0x01), [Input(Variable)], g4.(size := g.size));
    Cons(ReportCount(3), ButtonBits[3..], g.(logicalMin := 0, logicalMax := 1));
    Cons(LogicalMaximum(0x01), ButtonBits[2..], g.(logicalMin := 0));
    Cons(LogicalMinimum(0x00), ButtonBits[1..], g);
  }

  lemma PaddingSegment(g: Globals)
    ensures InputFields(Padding, g) == [Field(5, 1, true, g.logicalMin, g.logicalMax)]
    ensures After(Padding, g) == g.(size := 5, count := 1)
  {
    var g2 := g.(size := 5, count := 1);
    Cons(Input(Constant), [], g2);
    Cons(ReportSize(5), [Input(Constant)], g.(count := 1));
    Cons(ReportCount(0x01), Padding[1..], g);
  }

  lemma AxisRangeSegment(g: Globals)
    ensures InputFields(AxisRange, g) == []
    ensures After(AxisRange, g) == g.(logicalMin := 0, logicalMax := 1023)
  {
  }

  lemma AxisBitsSegment(g: Globals)
    ensures InputFields(AxisBits, g) == [Field(16, 2, false, g.logicalMin, g.logicalMax)]
    ensures After(AxisBits, g) == g.(size := 16, count := 2)
  {
    var g2 := g.(size := 16, count := 2);
    Cons(Input(Variable), [], g2);
    Cons(ReportSize(16), [Input(Variable)], g.(count := 2));
    Cons(ReportCount(0x02), AxisBits[1..], g);
  }

  /** Adding a segment to a prefix whose fields and final globals are known. */
  lemma Extend(prefix: seq<Item>, segment: seq<Item>, g0: Globals, fields: seq<Field>, g: Globals, added: seq<Field>, g': Globals)
    requires InputFields(prefix, g0) == fields && After(prefix, g0) == g
    requires InputFields(segment, g) == added && After(segment, g) == g'
    ensures InputFields(prefix + segment, g0) == fields + added
    ensures After(prefix + segment, g0) == g'
  {
    InputFieldsAppend(prefix, segment, g0);
  }

  /** The button half of the descriptor: the collections, the buttons and their padding. */
  const ButtonHalf: seq<Item> := Opening + ButtonUsages + ButtonBits + Padding

  /** The axis half: X and Y usages, their extents and fields, and the ends of both collections. */
  const AxisHalf: seq<Item> := AxisUsages + AxisRange + AxisPhysical + AxisBits + Closing

  /** `MouseReport`, item by item as Descriptors.c lists it. */
  const MouseReport: seq<Item> := ButtonHalf + AxisHalf

  lemma ButtonHalfLayout()
    ensures InputFields(ButtonHalf, NoGlobals) == [Field(1, 3, false, 0, 1), Field(5, 1, true, 0, 1)]
    ensures After(ButtonHalf, NoGlobals) == Globals(5, 1, 0, 1)
  {
    var buttons := Field(1, 3, false, 0, 1);
    var g1 := Globals(1, 3, 0, 1);
    NeutralRun(Opening, NoGlobals);
    NeutralRun(ButtonUsages, NoGlobals);
    Extend(Opening, ButtonUsages, NoGlobals, [], NoGlobals, [], NoGlobals);
    ButtonBitsSegment(NoGlobals);
    Extend(Opening + ButtonUsages, ButtonBits, NoGlobals, [], NoGlobals, [buttons], g1);
    PaddingSegment(g1);
    Extend(Opening + ButtonUsages + ButtonBits, Padding, NoGlobals, [buttons], g1, [Field(5, 1, true, 0, 1)], Globals(5, 1, 0, 1));
  }

  /** After the button half, the axis half declares the two 16-bit axes with logical range 0..1023. */
  lemma AxisHalfLayout()
    ensures InputFields(AxisHalf, Globals(5, 1, 0, 1)) == [Field(16, 2, false, 0, 1023)]
  {
    var g2 := Globals(5, 1, 0, 1);
    var g3 := Globals(5, 1, 0, 1023);
    var g4 := Globals(16, 2, 0, 1023);
    NeutralRun(AxisUsages, g2);
    AxisRangeSegment(g2);
    Extend(AxisUsages, AxisRange, g2, [], g2, [], g3);
    NeutralRun(AxisPhysical, g3);
    Extend(AxisUsages + AxisRange, AxisPhysical, g2, [], g3, [], g3);
    AxisBitsSegment(g3);
    Extend(AxisUsages + AxisRange + AxisPhysical, AxisBits, g2, [], g3, [Field(16, 2, false, 0, 1023)], g4);
    NeutralRun(Closing, g4);
    Extend(AxisUsages + AxisRange + AxisPhysical + AxisBits, Closing, g2, [Field(16, 2, false, 0, 1023)], g4, [], g4);
  }

  /**
    `MouseReport` declares three 1-bit buttons, five bits of padding and
    two 16-bit axes with logical range 0..1023: 40 bits, the five bytes of
    the packed report structure.
   */
  lemma MouseReportLayout()
    ensures InputFields(MouseReport, NoGlobals) == [
              Field(1, 3, false, 0, 1),
              Field(5, 1, true, 0, 1),
              Field(16, 2, false, 0, 1023)]
    ensures Bits(InputFields(MouseReport, NoGlobals)) == 40 == 8 * Report.ReportSize
  {
    var buttons := Field(1, 3, false, 0, 1);
    var padding := Field(5, 1, true, 0, 1);
    var axes := Field(16, 2, false, 0, 1023);
    ButtonHalfLayout();
    AxisHalfLayout();
    InputFieldsAppend(ButtonHalf, AxisHalf, NoGlobals);
    assert [buttons, padding, axes][1..] == [padding, axes];
    assert [padding, axes][1..] == [axes];
    assert Bits([axes]) == 32;
  }

  /**
    In every state reached from power-on the report carries the published
    coordinates unchanged, inside the logical range 0..1023 that the
    report descriptor declares for its axes.
   */
  lemma ReportWithinLogicalRange(ticks: seq<Trace.Tick>)
    ensures var v := Trace.Run(Touch.Initial, ticks).vals;
            var r := Report.CreateReport(v).report;
            var fields := InputFields(MouseReport, NoGlobals);
            && r.x == v.x && r.y == v.y
            && |fields| == 3 && fields[2].size == 16
            && fields[2].logicalMin <= r.x <= fields[2].logicalMax
            && fields[2].logicalMin <= r.y <= fields[2].logicalMax
  {
    Trace.RunPreservesInv(ticks);
    MouseReportLayout();
  }
}
