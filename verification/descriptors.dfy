/**
  Descriptor lookup of Descriptors.c (`CALLBACK_USB_GetDescriptor`) and
  the string descriptors it serves.

  A GET_DESCRIPTOR request carries the descriptor type in the high byte of
  `wValue` and the descriptor index in the low byte (section 9.4.3 of the
  USB 2.0 specification). Type codes: Device 1, Configuration 2 and String
  3 (Table 9-5 of USB 2.0), HID 0x21 and Report 0x22 (section 7.1 of HID
  1.11). The `sizeof` values of the library's descriptor structures and
  the `STRING_ID_*` index values are defined in headers outside this
  model, so they are parameters here: the indices are distinct bytes (a C
  `switch` refuses duplicate labels) and every size is positive.
 */
module Descriptors {
  import opened Ints

  const DtypeDevice: bv8 := 0x01
  const DtypeConfiguration: bv8 := 0x02
  const DtypeString: bv8 := 0x03
  const DtypeHid: bv8 := 0x21
  const DtypeReport: bv8 := 0x22

  /** `NO_DESCRIPTOR`: the size returned when nothing matches. */
  const NoDescriptor: uint16 := 0

  /** `LANGUAGE_ID_ENG`: the single language of the language table. */
  const LanguageIdEnglish: uint16 := 0x0409

  /** The descriptor type: `wValue >> 8`. */
  function DescriptorType(wValue: bv16): bv8
  {
    (wValue >> 8) as bv8
  }

  /** The descriptor number: `wValue & 0xFF`. */
  function DescriptorNumber(wValue: bv16): bv8
  {
    (wValue & 0xFF) as bv8
  }

  /** The `wValue` a host sends for a descriptor type and number. */
  function RequestValue(dtype: bv8, number: bv8): (w: bv16)
    ensures DescriptorType(w) == dtype && DescriptorNumber(w) == number
  {
    ((dtype as bv16) << 8) | (number as bv16)
  }

  /** Splitting `wValue` loses nothing: type and number rebuild it. */
  lemma SplitRequestValue(wValue: bv16)
    ensures RequestValue(DescriptorType(wValue), DescriptorNumber(wValue)) == wValue
  {
  }

  /** The objects whose address the lookup may return; `Null` is the C null address (`NULL`). */
  datatype Address =
    | Null
    | DeviceDescriptor
    | ConfigurationDescriptor
    | HidInConfiguration
    | ReportDescriptor
    | LanguageString
    | ManufacturerString
    | ProductString
    | SerialString

  datatype Lookup = Lookup(address: Address, size: uint16)

  /** `STRING_ID_Language`, `STRING_ID_Manufacturer`, `STRING_ID_Product`, `STRING_ID_Serial`. */
  datatype StringIds = StringIds(language: bv8, manufacturer: bv8, product: bv8, serial: bv8)

  /** The `sizeof` values of the device, configuration and HID descriptors and of the report descriptor. */
  datatype Sizes = Sizes(device: uint16, configuration: uint16, hid: uint16, report: uint16)

  /** A string descriptor: its header `Size` byte and its UTF-16 contents. */
  datatype StringDescriptor = StringDescriptor(headerSize: uint8, units: seq<uint16>)

  datatype Table = Table(
    ids: StringIds,
    sizes: Sizes,
    language: StringDescriptor,
    manufacturer: StringDescriptor,
    product: StringDescriptor,
    serial: StringDescriptor)

  /** `USB_STRING_LEN(n)`: a two-byte header plus n UTF-16 code units (section 9.6.7 of USB 2.0). */
  function UsbStringLen(n: nat): nat
  {
    2 + 2 * n
  }

  /** A string descriptor whose declared size covers exactly its contents. */
  predicate Consistent(d: StringDescriptor)
  {
    d.headerSize == UsbStringLen(|d.units|)
  }

  /** The UTF-16 code units of an ASCII wide-string literal. */
  function Wide(s: string): (u: seq<uint16>)
    requires forall i :: 0 <= i < |s| ==> s[i] as int < 0x80
    ensures |u| == |s|
    ensures forall i :: 0 <= i < |u| ==> u[i] == s[i] as int
  {
    seq(|s|, i requires 0 <= i < |s| => s[i] as int)
  }

  predicate WellFormed(t: Table)
  {
    && t.ids.language != t.ids.manufacturer
    && t.ids.language != t.ids.product
    && t.ids.language != t.ids.serial
    && t.ids.manufacturer != t.ids.product
    && t.ids.manufacturer != t.ids.serial
    && t.ids.product != t.ids.serial
    && t.sizes.device > 0 && t.sizes.configuration > 0 && t.sizes.hid > 0 && t.sizes.report > 0
    && t.language.headerSize > 0 && t.manufacturer.headerSize > 0
    && t.product.headerSize > 0 && t.serial.headerSize > 0
  }

  /** The four string descriptors as Descriptors.c declares them. */
  function AsWritten(ids: StringIds, sizes: Sizes): Table
  {
    Table(ids, sizes,
      StringDescriptor(UsbStringLen(1), [LanguageIdEnglish]),
      StringDescriptor(UsbStringLen(5), Wide("Developer")),
      StringDescriptor(UsbStringLen(10), Wide("DevBoard")),
      StringDescriptor(UsbStringLen(5), Wide("00001")))
  }

  /** The same table with each string's declared length equal to its contents. */
  function Corrected(ids: StringIds, sizes: Sizes): Table
  {
    Table(ids, sizes,
      StringDescriptor(UsbStringLen(1), [LanguageIdEnglish]),
      StringDescriptor(UsbStringLen(9), Wide("Developer")),
      StringDescriptor(UsbStringLen(8), Wide("DevBoard")),
      StringDescriptor(UsbStringLen(5), Wide("00001")))
  }

  /**
    As written, the language and serial descriptors declare their contents
    exactly, but the manufacturer string declares 5 of its 9 characters
    (a host reads "Devel") and the product string declares 10 characters
    for its 8.
   */
  lemma AsWrittenStringSizes(ids: StringIds, sizes: Sizes)
    ensures var t := AsWritten(ids, sizes);
            && Consistent(t.language) && Consistent(t.serial)
            && !Consistent(t.manufacturer) && !Consistent(t.product)
            && (t.manufacturer.headerSize - 2) / 2 == 5 < |t.manufacturer.units| == 9
            && (t.product.headerSize - 2) / 2 == 10 > |t.product.units| == 8
  {
  }

  /**
    As written, a GET_DESCRIPTOR request for the manufacturer string answers
    with 12 bytes: the header and 5 of the 9 UTF-16 code units.
   */
  lemma AsWrittenManufacturerLookup(ids: StringIds, sizes: Sizes, wIndex: bv16)
    requires ids.language != ids.manufacturer
    ensures GetDescriptor(AsWritten(ids, sizes), RequestValue(DtypeString, ids.manufacturer), wIndex)
            == Lookup(ManufacturerString, 12)
  {
  }

  /** With the corrected lengths every string descriptor declares exactly its contents. */
  lemma CorrectedStringSizes(ids: StringIds, sizes: Sizes)
    ensures var t := Corrected(ids, sizes);
            Consistent(t.language) && Consistent(t.manufacturer) && Consistent(t.product) && Consistent(t.serial)
  {
  }

  /** `CALLBACK_USB_GetDescriptor`. A string descriptor's size is its header `Size` byte. */
  function GetDescriptor(t: Table, wValue: bv16, wIndex: bv16): (r: Lookup)
    ensures r.address.Null? ==> r.size == NoDescriptor
  {
    var dtype := DescriptorType(wValue);
    var number := DescriptorNumber(wValue);
    if dtype == DtypeDevice then Lookup(DeviceDescriptor, t.sizes.device)
    else if dtype == DtypeConfiguration then Lookup(ConfigurationDescriptor, t.sizes.configuration)
    else if dtype == DtypeString then
      if number == t.ids.language then Lookup(LanguageString, t.language.headerSize)
      else if number == t.ids.manufacturer then Lookup(ManufacturerString, t.manufacturer.headerSize)
      else if number == t.ids.product then Lookup(ProductString, t.product.headerSize)
      else if number == t.ids.serial then Lookup(SerialString, t.serial.headerSize)
      else Lookup(Null, NoDescriptor)
    else if dtype == DtypeHid then Lookup(HidInConfiguration, t.sizes.hid)
    else if dtype == DtypeReport then Lookup(ReportDescriptor, t.sizes.report)
    else Lookup(Null, NoDescriptor)
  }

  /** The answer never depends on `wIndex`. */
  lemma IgnoresIndex(t: Table, wValue: bv16, i1: bv16, i2: bv16)
    ensures GetDescriptor(t, wValue, i1) == GetDescriptor(t, wValue, i2)
  {
  }

  /** An unknown descriptor type, or an unknown string index, yields a null address and `NO_DESCRIPTOR`. */
  lemma UnknownYieldsNothing(t: Table, wValue: bv16, wIndex: bv16)
    ensures var dtype := DescriptorType(wValue);
            dtype !in {DtypeDevice, DtypeConfiguration, DtypeString, DtypeHid, DtypeReport} ==>
              GetDescriptor(t, wValue, wIndex) == Lookup(Null, NoDescriptor)
    ensures var n := DescriptorNumber(wValue);
            DescriptorType(wValue) == DtypeString
            && n !in {t.ids.language, t.ids.manufacturer, t.ids.product, t.ids.serial} ==>
              GetDescriptor(t, wValue, wIndex) == Lookup(Null, NoDescriptor)
  {
  }

  /**
    Device, configuration, HID and report descriptors ignore the number;
    the HID type answers with the HID descriptor inside the configuration
    descriptor.
   */
  lemma FixedTypesIgnoreNumber(t: Table, n: bv8, wIndex: bv16)
    ensures GetDescriptor(t, RequestValue(DtypeDevice, n), wIndex) == Lookup(DeviceDescriptor, t.sizes.device)
    ensures GetDescriptor(t, RequestValue(DtypeConfiguration, n), wIndex)
            == Lookup(ConfigurationDescriptor, t.sizes.configuration)
    ensures GetDescriptor(t, RequestValue(DtypeHid, n), wIndex) == Lookup(HidInConfiguration, t.sizes.hid)
    ensures GetDescriptor(t, RequestValue(DtypeReport, n), wIndex) == Lookup(ReportDescriptor, t.sizes.report)
  {
  }

  /** The four known string indices answer with their descriptor and its declared size. */
  lemma StringLookup(t: Table, wIndex: bv16)
    requires WellFormed(t)
    ensures GetDescriptor(t, RequestValue(DtypeString, t.ids.language), wIndex)
            == Lookup(LanguageString, t.language.headerSize)
    ensures GetDescriptor(t, RequestValue(DtypeString, t.ids.manufacturer), wIndex)
            == Lookup(ManufacturerString, t.manufacturer.headerSize)
    ensures GetDescriptor(t, RequestValue(DtypeString, t.ids.product), wIndex)
            == Lookup(ProductString, t.product.headerSize)
    ensures GetDescriptor(t, RequestValue(DtypeString, t.ids.serial), wIndex)
            == Lookup(SerialString, t.serial.headerSize)
  {
  }

  /** Since every known descriptor has a positive size, the address is null exactly when the size is `NO_DESCRIPTOR`. */
  lemma NullIffNoDescriptor(t: Table, wValue: bv16, wIndex: bv16)
    requires WellFormed(t)
    ensures GetDescriptor(t, wValue, wIndex).address.Null? <==> GetDescriptor(t, wValue, wIndex).size == NoDescriptor
  {
  }
}
