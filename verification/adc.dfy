/**
  The analog-to-digital converter as the acquisition code sees it
  (usbdev.c, `InitADC` and `ReadADC`). Only two pieces of converter state
  matter: the multiplexer register ADMUX, whose low nibble selects the
  channel and whose high nibble holds REFS1, REFS0, ADLAR and MUX4, and the
  "conversion running" bit ADSC, modelled as `busy`.

  Whether a running conversion has finished by the time the firmware polls
  is decided by the environment (`done`), and so is the level present on
  each channel (`Sense`): a finished conversion delivers the level of the
  channel selected when it was started.
 */
module Adc {
  import opened Ints

  /** An ADC channel number; only the low nibble of ADMUX selects it. */
  type Channel = c: bv8 | c < 16

  /** The largest conversion result: the data register holds a right-adjusted 10-bit value. */
  const AdcMax: int := 1023

  /** A conversion result. */
  type Reading = x: uint16 | x <= AdcMax

  /** The analog level the environment presents on each channel, as the reading a conversion yields. */
  type Sense = Channel -> Reading

  datatype Converter = Converter(admux: bv8, busy: bool)

  /**
    ADMUX bits 7..4 are REFS1, REFS0, ADLAR and MUX4. After hardware set-up
    only REFS0 is set: AVcc reference, ADLAR clear so the result is
    right-adjusted (hence the 10-bit `Reading`), and MUX4 clear.
   */
  const ReferenceBits: bv8 := 0x40

  /** The converter after hardware set-up: AVcc reference, channel 0, no conversion running. */
  const PowerOn: Converter := Converter(ReferenceBits, false)

  function SelectedChannel(c: Converter): Channel
  {
    c.admux & 0x0F
  }

  /**
    `InitADC`: select a channel through the safety mask, keeping the
    reference bits, and start a single conversion.
   */
  function Start(c: Converter, channel: bv8): (r: Converter)
    ensures r.busy
    ensures SelectedChannel(r) == channel & 0x0F
    ensures r.admux & 0xF0 == c.admux & 0xF0
  {
    Converter((c.admux & 0xF0) | (channel & 0x0F), true)
  }

  datatype Readout = NotReady | Ready(value: Reading)

  /**
    `ReadADC`: "not ready" exactly while a conversion is running and the
    environment says it has not finished; once it has finished, the level of
    the selected channel. With no conversion running the hardware would
    return the data register, i.e. the last completed conversion; the model
    gives the selected channel's level there too, a branch `Touch.Step`
    never reaches, since its invariant keeps a conversion running in every
    polling state.
   */
  function Read(c: Converter, done: bool, sense: Sense): (r: Readout)
    ensures r.NotReady? <==> c.busy && !done
    ensures r.Ready? ==> r.value == sense(SelectedChannel(c))
  {
    if c.busy && !done then NotReady else Ready(sense(SelectedChannel(c)))
  }

  /** The converter after a successful read: the hardware has cleared ADSC. */
  function Idle(c: Converter): (r: Converter)
    ensures !r.busy && r.admux == c.admux
  {
    c.(busy := false)
  }

  /**
    `InitADC` followed by `ReadADC`: a freshly started conversion reads as
    "not ready" until it has finished, and then yields the level of the
    channel selected through the safety mask.
   */
  lemma StartThenRead(c: Converter, channel: bv8, done: bool, sense: Sense)
    ensures Read(Start(c, channel), done, sense) == if done then Ready(sense(channel & 0x0F)) else NotReady
  {
  }
}
