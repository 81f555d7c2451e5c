/**
  The HID input report (usbdev.c, `USB_MouseReport16_Data_t` and
  `CALLBACK_HID_Device_CreateHIDReport`): a packed structure of a button
  byte followed by X and Y as 16-bit little-endian fields, filled from the
  published touch state.
 */
module Report {
  import opened Wrappers
  import opened Ints
  import Touch

  /** `USB_MouseReport16_Data_t`: the packed report structure. */
  datatype MouseReport16 = MouseReport16(button: uint8, x: int16, y: int16)

  /** `sizeof(USB_MouseReport16_Data_t)` for the packed layout: 1 + 2 + 2 bytes. */
  const ReportSize: uint16 := 5

  /** The packed bytes on the wire: Button, X low, X high, Y low, Y high. */
  function Encode(r: MouseReport16): (b: seq<uint8>)
    ensures |b| == ReportSize
    ensures b[0] == r.button
  {
    var x := ToUint16(r.x);
    var y := ToUint16(r.y);
    [r.button, Lo(x), Hi(x), Lo(y), Hi(y)]
  }

  /** Reads a packed report back; anything but five bytes is not a report. */
  function Decode(b: seq<uint8>): (r: Option<MouseReport16>)
    ensures r.Some? <==> |b| == ReportSize
  {
    if |b| != ReportSize then None
    else Some(MouseReport16(b[0], ToInt16(Join16(b[1], b[2])), ToInt16(Join16(b[3], b[4]))))
  }

  lemma DecodeEncode(r: MouseReport16)
    ensures Decode(Encode(r)) == Some(r)
  {
  }

  lemma EncodeDecode(b: seq<uint8>)
    requires |b| == ReportSize
    ensures Decode(b).Some? && Encode(Decode(b).value) == b
  {
  }

  /** What the callback hands back to the HID class driver. */
  datatype Created = Created(report: MouseReport16, size: uint16, force: bool)

  /**
    `CALLBACK_HID_Device_CreateHIDReport`: copy the published state into
    the report, report its packed size and always ask for it to be sent.
    The wire bytes are the published 16-bit values unchanged, although the
    structure's X and Y fields are signed.
   */
  function CreateReport(v: Touch.TouchVals): (c: Created)
    ensures c.force
    ensures c.size == ReportSize == |Encode(c.report)|
    ensures c.report.button == 1 <==> v.pressed
    ensures c.report.button <= 1
    ensures Encode(c.report) == [c.report.button, Lo(v.x), Hi(v.x), Lo(v.y), Hi(v.y)]
  {
    Uint16RoundTrip(v.x);
    Uint16RoundTrip(v.y);
    Created(MouseReport16(if v.pressed then 1 else 0, ToInt16(v.x), ToInt16(v.y)), ReportSize, true)
  }

  /** Before any lap completes, the report is all zero: not pressed, at the origin. */
  lemma InitialReportIsZero()
    ensures Encode(CreateReport(Touch.Initial.vals).report) == [0, 0, 0, 0, 0]
  {
  }
}
