/**
  The control-request handler of usbdev.c (`EVENT_USB_Device_ControlRequest`).
  The request's `bmRequestType` packs three fields (section 9.3.1 of the
  USB 2.0 specification): bit 7 the data direction, bits 6..5 the request
  type, bits 4..0 the recipient. A vendor request to the device asking,
  host-to-device, for request 0x01 enters the bootloader; other vendor
  requests to the device are dropped; everything else goes to the HID
  class driver.
 */
module Control {
  import opened Ints

  /** Field masks of `bmRequestType`. */
  const DirectionMask: bv8 := 0x80
  const TypeMask: bv8 := 0x60
  const RecipientMask: bv8 := 0x1F

  /** Field values the handler compares against. */
  const HostToDeviceBits: bv8 := 0x00
  const VendorBits: bv8 := 0x40
  const DeviceBits: bv8 := 0x00

  /** The vendor request number that reboots into the bootloader. */
  const EnterBootloaderRequest: uint8 := 0x01

  datatype Direction = HostToDevice | DeviceToHost
  datatype Kind = Standard | Class | Vendor | ReservedKind
  /** Recipient codes 4..31 are reserved; the code is kept so that decoding loses nothing. */
  datatype Recipient = Device | Interface | Endpoint | Other | ReservedRecipient(code: bv8)

  datatype RequestType = RequestType(direction: Direction, kind: Kind, recipient: Recipient)

  /** A request type that some byte encodes: reserved recipients carry a 5-bit code of 4 or more. */
  predicate Encodable(t: RequestType)
  {
    t.recipient.ReservedRecipient? ==> 4 <= t.recipient.code < 32
  }

  function DecodeRequestType(bm: bv8): (t: RequestType)
    ensures Encodable(t)
  {
    var direction := if bm & DirectionMask == 0 then HostToDevice else DeviceToHost;
    var kind := match (bm & TypeMask) >> 5
      case 0 => Standard
      case 1 => Class
      case 2 => Vendor
      case _ => ReservedKind;
    var r := bm & RecipientMask;
    var recipient :=
      if r == 0 then Device
      else if r == 1 then Interface
      else if r == 2 then Endpoint
      else if r == 3 then Other
      else ReservedRecipient(r);
    RequestType(direction, kind, recipient)
  }

  function EncodeRequestType(t: RequestType): bv8
  {
    var d: bv8 := if t.direction.HostToDevice? then 0 else 1;
    var k: bv8 := match t.kind
      case Standard => 0
      case Class => 1
      case Vendor => 2
      case ReservedKind => 3;
    var r: bv8 := match t.recipient
      case Device => 0
      case Interface => 1
      case Endpoint => 2
      case Other => 3
      case ReservedRecipient(c) => c & RecipientMask;
    (d << 7) | (k << 5) | r
  }

  /** Every byte is the encoding of its decoded fields. */
  lemma EncodeDecodeRequestType(bm: bv8)
    ensures EncodeRequestType(DecodeRequestType(bm)) == bm
  {
  }

  /** Decoding recovers the fields of every encodable request type. */
  lemma DecodeEncodeRequestType(t: RequestType)
    requires Encodable(t)
    ensures DecodeRequestType(EncodeRequestType(t)) == t
  {
  }

  datatype Action = EnterBootloader | Ignore | DelegateToHid

  /** The handler's branches, with its masks and comparisons. */
  function Classify(bmRequestType: bv8, bRequest: uint8): Action
  {
    if bmRequestType & TypeMask == VendorBits && bmRequestType & RecipientMask == DeviceBits then
      if bmRequestType & DirectionMask == HostToDeviceBits && bRequest == EnterBootloaderRequest then
        EnterBootloader
      else
        Ignore
    else
      DelegateToHid
  }

  /**
    The classification in terms of the decoded fields: only a host-to-device
    vendor request 0x01 to the device enters the bootloader, other vendor
    requests to the device are ignored, and a request that is not a vendor
    request or not addressed to the device goes to the HID class driver.
   */
  lemma ClassifyByFields(bmRequestType: bv8, bRequest: uint8)
    ensures var t := DecodeRequestType(bmRequestType);
            && (Classify(bmRequestType, bRequest) == EnterBootloader <==>
                  t == RequestType(HostToDevice, Vendor, Device) && bRequest == 0x01)
            && (Classify(bmRequestType, bRequest) == Ignore <==>
                  t.kind == Vendor && t.recipient == Device
                  && !(t.direction == HostToDevice && bRequest == 0x01))
            && (Classify(bmRequestType, bRequest) == DelegateToHid <==>
                  !(t.kind == Vendor && t.recipient == Device))
  {
  }
}
