# Resistive-touchpad HID mouse firmware — Dafny model

The firmware (usbdev.c, Descriptors.c) makes an AVR microcontroller enumerate as a USB HID
mouse whose cursor position comes from a 4-wire resistive touchscreen. Once per USB
start-of-frame, `EVENT_USB_Device_StartOfFrame` advances an eight-state acquisition cycle
(`enum AdcState`). The cycle takes two standby readings (YD and XR, with YU driven high and
XL low), then Y (read on XL) and X (read on YU). At the standby-XR read it applies a
ratio-deviation test with threshold 500 in 32-bit unsigned arithmetic. A rejection clears
`pressed`; two passing decisions in a row publish the previous lap's (X, Y) with `pressed`
set in `touch_vals`. `CALLBACK_HID_Device_CreateHIDReport` copies `touch_vals` into a packed
5-byte report. `EVENT_USB_Device_ControlRequest` routes one vendor request to the bootloader,
drops the other vendor requests addressed to the device, and passes everything else to the HID
class driver. `CALLBACK_USB_GetDescriptor` serves the
device, configuration, string, HID and report descriptors.

The model is functional: the cycle is a pure `Touch.Step(machine, done, sense)`.
The ADC is abstract:
- `done` says whether a running conversion has finished by the time it is polled.
- `sense` gives the 10-bit level on each channel.
- `InitADC` becomes `Adc.Start` (channel select through the safety mask, conversion started).
- `ReadADC` becomes `Adc.Read`.

Modules:
- `Ints`: machine integer widths, 32-bit wrap, the `uint16` to `int16` cast, byte split.
- `Adc`: the converter.
- `Touch`: the state machine, its invariant and per-tick properties.
- `Trace`: runs over tick sequences and the debounce theorem.
- `Report`: the report structure, its wire encoding and the callback.
- `Control`: `bmRequestType` decoding and the request classifier.
- `Descriptors`: descriptor lookup and the string descriptors.
- `HidReport`: the report descriptor's items and the input layout they declare.

Behaviour worth noting, modelled as the code does it:
- The deviation test is one-sided: it compares the unsigned `uint32_t` difference `ratio - X`
  with 500. A ratio below X wraps around and is always rejected (`Touch.RejectsCharacterised`).
- The machine starts in Y_INIT_READ, not STBY_SET.
- The "begin read" states Y_INIT_READ and X_INIT_READ fall through into their poll case.
  Both are modelled as in the code: start a conversion, then poll it in the same tick.

## Model

| member | source | states |
|---|---|---|
| Adc.Start | usbdev.c:173-180 | InitADC selects the channel from the low nibble only, keeps ADMUX's reference bits, and leaves a conversion running |
| Adc.StartThenRead | usbdev.c:173-188 | after InitADC, ReadADC reports "not ready" until the conversion has finished, and then yields the level of the channel selected through the low-nibble mask |
| Touch.InitialInv | usbdev.c:190-208 | the statically initialised machine (zeroed structures, state Y_INIT_READ, converter idle on channel 0) satisfies the invariant |
| Touch.StepPreservesInv | usbdev.c:205-269 | every tick keeps the invariant: a conversion runs exactly in the four polling states, on the pin that state reads, with AVcc reference, and all samples are 10-bit |
| Touch.StepSuccessor | usbdev.c:208-267 | STBY_SET and STBY_INIT_READ always move to the next state of the fixed cycle; a polling state moves one step exactly when its conversion finished; Y_INIT_READ and X_INIT_READ move one step, or two when the conversion they started is already done |
| Touch.BusyTickChangesNothing | usbdev.c:220-265 | in a polling state, a tick whose conversion has not finished leaves the state, samples, published values and converter all unchanged |
| Touch.ReadWritesOneField | usbdev.c:216-264 | a completed read stores the level of a fixed pin into exactly one sample: STBY_YD from pin 5, STBY_XR from pin 6, Y from pin 4 (XL), X from pin 7 (YU); other ticks leave the samples alone |
| Touch.ProductFits | usbdev.c:231 | the product of two 16-bit samples cannot overflow 32 bits |
| Touch.Ratio | usbdev.c:231 | the quotient `X*STBY_YD/STBY_XR` is the floor of the exact ratio; it needs a nonzero STBY_XR |
| Touch.DeviationAsWritten | usbdev.c:231 | the C deviation is undefined exactly when STBY_XR is 0; otherwise it is the value congruent to `ratio - X` modulo 2^32 |
| Touch.RejectsCharacterised | usbdev.c:231-235 | for a nonzero STBY_XR, a reading is rejected exactly when the ratio is below X (unsigned wrap) or exceeds X by more than 500 |
| Touch.ZeroDivisorUndefinedAndRejected | usbdev.c:231 | a zero STBY_XR makes the C expression undefined, and the model counts it as a rejection |
| Touch.DecisionOutcome | usbdev.c:226-249 | a rejection clears `pressed` and `full_update` and keeps X/Y; a pass sets `full_update` and publishes (X, Y, pressed) only if `full_update` was already set |
| Touch.ValsWrittenOnlyAtDecision | usbdev.c:209-268 | `touch_vals` changes only on a completed STBY_READ_XR tick, and X or Y change only as the whole triple (sample Y, sample X, pressed) |
| Trace.PressedIffTwoPasses | usbdev.c:231-245 | after any run from power-on, `full_update` holds exactly when the last decision passed, and `pressed` holds exactly when the last two decisions passed |
| Trace.RunPreservesInv | usbdev.c:205-269 | every state reached from power-on satisfies the machine invariant |
| Ints.ToInt16 | usbdev.c:289-290 | storing a `uint16_t` coordinate into the report's `int16_t` field keeps the 16-bit pattern, and values below 0x8000 unchanged |
| Report.Encode | usbdev.c:42-47 | the packed report is five bytes, the button byte first |
| Report.Decode | usbdev.c:42-47 | exactly the five-byte strings decode to a report |
| Report.DecodeEncode | usbdev.c:42-47 | decoding the packed bytes of any report gives the report back |
| Report.EncodeDecode | usbdev.c:42-47 | every five-byte string is the packing of the report it decodes to |
| Report.CreateReport | usbdev.c:281-296 | the callback always asks to send, reports size 5, sets Button to 1 exactly when pressed, and the wire bytes are the published X and Y little-endian, unchanged by the signed fields |
| Report.InitialReportIsZero | usbdev.c:198-202 | before any lap completes the report bytes are all zero |
| Control.DecodeRequestType | usbdev.c:124-130 | decoding `bmRequestType` into direction, type and recipient always gives an encodable triple |
| Control.EncodeDecodeRequestType | usbdev.c:124-130 | every `bmRequestType` byte is the encoding of its decoded fields, so the three masks cover the byte |
| Control.DecodeEncodeRequestType | usbdev.c:124-130 | decoding recovers every encodable (direction, type, recipient) triple |
| Control.ClassifyByFields | usbdev.c:122-155 | only a host-to-device vendor request 0x01 to the device enters the bootloader; other vendor requests to the device are ignored; every request that is not vendor type or not addressed to the device goes to the HID class driver |
| Descriptors.RequestValue | Descriptors.c:220-221 | the descriptor type is the high byte of `wValue` and the number the low byte |
| Descriptors.SplitRequestValue | Descriptors.c:220-221 | type and number together rebuild `wValue`, so the split loses nothing |
| Descriptors.GetDescriptor | Descriptors.c:216-269 | a null address always comes with size `NO_DESCRIPTOR` |
| Descriptors.IgnoresIndex | Descriptors.c:216-268 | the answer does not depend on `wIndex` |
| Descriptors.UnknownYieldsNothing | Descriptors.c:223-268 | an unrecognised type, or a String request with an index other than the four string IDs, yields a null address and `NO_DESCRIPTOR` |
| Descriptors.FixedTypesIgnoreNumber | Descriptors.c:228-264 | Device, Configuration, HID and Report requests return a fixed (address, size) for every descriptor number; HID returns the HID descriptor inside the configuration descriptor |
| Descriptors.StringLookup | Descriptors.c:236-256 | each of the four distinct string IDs returns its string descriptor with its header `Size` byte as the size |
| Descriptors.NullIffNoDescriptor | Descriptors.c:223-268 | with positive descriptor sizes, the address is null exactly when the size is `NO_DESCRIPTOR` |
| Descriptors.AsWrittenStringSizes | Descriptors.c:171-208 | as declared, the language and serial strings match their contents; the manufacturer string declares 5 of its 9 characters and the product string 10 for its 8 |
| Descriptors.AsWrittenManufacturerLookup | Descriptors.c:243-246 | with the header declared at Descriptors.c:184, a GET_DESCRIPTOR request for the manufacturer string answers with the manufacturer descriptor and 12 bytes, so the host reads only 5 of its 9 characters |
| Descriptors.CorrectedStringSizes | Descriptors.c:182-198 | with lengths taken from the contents, every string descriptor declares exactly its contents |
| HidReport.MouseReportLayout | Descriptors.c:51-78 | the report descriptor declares 3 one-bit buttons, 5 bits of padding and two 16-bit axes with logical range 0..1023: 40 bits, the 5 bytes of the packed report |
| HidReport.ReportWithinLogicalRange | Descriptors.c:70-71 | in every reachable state the report carries the published coordinates unchanged and within the axes' declared logical range |

## Left out

- Pin drive patterns: the `PORTF`/`DDRF` writes of each state decide which panel layer is driven, and so what each sense line measures. The model does not track them; their effect on the sensed levels is left to the environment-supplied `sense`. For example, at power-on the machine enters Y_INIT_READ with `PORTF`/`DDRF` never written, so the first Y sample is taken with nothing driven. The `DIDR0` write in `InitADC` is also not modelled.
- Adc.Read: with no conversion running, `ReadADC` returns the data register, which holds the last completed conversion. The model returns the selected channel's current level instead. `Touch.Step` never reads in that case, because its invariant keeps a conversion running in every polling state.
- Conversion timing: the environment may report a conversion finished in the same tick that started it. Real hardware never does this, since a conversion takes longer than the poll.
- Hardware bring-up and the main loop: `main`, `SetupHardware` and `EVENT_USB_Device_ConfigurationChanged` are left out. The only part used is the ADMUX value `SetupHardware` leaves behind (AVcc reference, channel 0, right-adjusted 10-bit result). That value is the initial converter state.
- USB library calls: `HID_Device_MillisecondElapsed`, `HID_Device_ProcessControlRequest`, the endpoint and status-stage calls, `USB_USBTask` and `Delay_MS`. They belong to the USB library, which is not part of this model.
- Bootloader entry: `enter_bootloader` is a hardware reset sequence and is represented only by the classifier's outcome.
- Host flashing script: program.py is not part of this model. It sends a class-type request (bmRequestType 0x20) with bRequest 0x01. By `Control.ClassifyByFields` that request goes to the HID class driver, not to the bootloader branch.
- HID callback parameters: `CALLBACK_HID_Device_ProcessHIDReport` has an empty body. The `ReportID`/`ReportType` arguments of the report callback are unused by the source.
- Descriptor contents: the fields of the device and configuration descriptors, the `sizeof` values of the library's descriptor types, and the `STRING_ID_*` values are defined outside this model. They are parameters, required only to be positive and distinct.
- Concurrency: the model assumes the start-of-frame handler and the report callback are serialised, and models them as sequential functions on one state value. The source does not enforce this. Interrupts are enabled (usbdev.c:78) and start-of-frame events are switched on (usbdev.c:116). If the start-of-frame handler runs as an interrupt while the main loop builds a report, a decision tick landing in the middle of the copies at usbdev.c:289-292 can produce a report that mixes old and new `touch_vals`. No atomic block guards those copies. The USB library that dispatches these callbacks is not part of this model.
- Touch.DeviationAsWritten: undefined C behaviour for a zero divisor is modelled as "no value". `Touch.Step` does not use this undefined result. It decides through `Touch.Rejects`, which counts a zero STBY_XR as a rejection (`Touch.ZeroDivisorUndefinedAndRejected`), so `pressed` and `full_update` are cleared.

## Findings

| source | as written | input that shows it | evidently intended | confidence | as-written member | corrected member |
|---|---|---|---|---|---|---|
| usbdev.c:231 | `... / touch_internals.STBY_XR` divides by a raw ADC reading with no zero check | a standby XR reading of 0 makes the quotient undefined in C | a zero reading is treated as "not pressed" (the model's `Touch.Rejects` does this) | medium, not executed | Touch.DeviationAsWritten | Touch.ZeroDivisorUndefinedAndRejected |
| Descriptors.c:184 | `USB_STRING_LEN(5)` for `L"Developer"` and `USB_STRING_LEN(10)` for `L"DevBoard"` | GET_DESCRIPTOR(String, STRING_ID_Manufacturer) returns 12 bytes, so the host reads "Devel" (`Descriptors.AsWrittenManufacturerLookup`); the product descriptor claims 2 code units beyond its text | each header `Size` equals `USB_STRING_LEN` of the string's length | high, not executed | Descriptors.AsWrittenStringSizes | Descriptors.CorrectedStringSizes |
