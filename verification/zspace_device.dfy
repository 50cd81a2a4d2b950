/** Device handling of drivers/zspace-hid.c: the subdriver's own USB ID
    table with its battery-scale callback, the claim decision, and the
    three naming functions. */
module ZspDevice {
  import opened Wrappers
  import ZspBattery

  /** ZSP_HID_VERSION, the name the zspace_subdriver record announces
      itself by; the record, a bundle of the functions below, is not
      modelled as a value. */
  const ZspHidVersion: string := "Zspace HID 0.1"

  /** ZSP_VENDORID. */
  const ZspVendorId: int := 0x36AA

  /** The product ID of the U2600, the one entry of the subdriver's table. */
  const U2600ProductId: int := 0x0101

  /** What the transport layer knows of a connected device: its IDs and
      its string descriptors, each possibly NULL. */
  datatype HidDevice = HidDevice(
    vendorId: int,
    productId: int,
    vendor: Option<string>,
    product: Option<string>,
    serial: Option<string>)

  /** The verdict of the framework's table matcher. */
  datatype SupportStatus = NotSupported | PossiblySupported | Supported | OtherStatus(code: int)

  /** The function pointer of a USB ID table entry. */
  datatype Callback = NoCallback | BatteryScaleCallback

  /** One entry of zsp_usb_device_table. */
  datatype DeviceEntry = DeviceEntry(vendorId: int, productId: int, fun: Callback)

  /** zsp_usb_device_table: the U2600, which may need battery scaling,
      then the terminator { 0, 0, NULL }. */
  const ZspUsbDeviceTable: seq<DeviceEntry> := [
    DeviceEntry(ZspVendorId, U2600ProductId, BatteryScaleCallback),
    DeviceEntry(0, 0, NoCallback)
  ]

  /** The table's terminator comes last, and every entry before it belongs
      to the Zspace vendor. */
  lemma ZspUsbDeviceTableWellFormed()
    ensures |ZspUsbDeviceTable| == 2
    ensures ZspUsbDeviceTable[0] == DeviceEntry(ZspVendorId, U2600ProductId, BatteryScaleCallback)
    ensures ZspUsbDeviceTable[|ZspUsbDeviceTable| - 1] == DeviceEntry(0, 0, NoCallback)
    ensures forall i :: 0 <= i < |ZspUsbDeviceTable| - 1 ==> ZspUsbDeviceTable[i].vendorId == ZspVendorId
  {
  }

  /** Number of entries before the first one with vendor 0. */
  function LiveEntries(table: seq<DeviceEntry>): (n: nat)
    ensures n <= |table|
    ensures forall i :: 0 <= i < n ==> table[i].vendorId != 0
    ensures n < |table| ==> table[n].vendorId == 0
  {
    if |table| == 0 || table[0].vendorId == 0 then 0 else 1 + LiveEntries(table[1..])
  }

  /** The effect on the scale state of matching `dev` against `table`: the
      callback of the first entry with exactly the device's IDs runs; a
      table whose entries all carry no callback leaves the state alone. */
  function RunMatchCallback(table: seq<DeviceEntry>, dev: HidDevice, st: ZspBattery.ScaleState): (st': ZspBattery.ScaleState)
    ensures st'.scale == st.scale && st'.checked == st.checked
    ensures st'.mightNeedScale <==>
      st.mightNeedScale ||
      exists i :: 0 <= i < LiveEntries(table) && table[i].vendorId == dev.vendorId
        && table[i].productId == dev.productId && table[i].fun == BatteryScaleCallback
        && forall j :: 0 <= j < i ==> !(table[j].vendorId == dev.vendorId && table[j].productId == dev.productId)
  {
    if |table| == 0 || table[0].vendorId == 0 then st
    else if table[0].vendorId == dev.vendorId && table[0].productId == dev.productId then
      match table[0].fun
      case NoCallback => st
      case BatteryScaleCallback => ZspBattery.MarkMightNeedScale(st)
    else
      var st' := RunMatchCallback(table[1..], dev, st);
      assert forall i :: 1 <= i < LiveEntries(table) ==> table[i] == table[1..][i - 1];
      assert st'.mightNeedScale && !st.mightNeedScale ==>
        exists i :: 0 <= i < LiveEntries(table) && table[i].vendorId == dev.vendorId
          && table[i].productId == dev.productId && table[i].fun == BatteryScaleCallback
          && forall j :: 0 <= j < i ==> !(table[j].vendorId == dev.vendorId && table[j].productId == dev.productId) by {
        if st'.mightNeedScale && !st.mightNeedScale {
          var k :| 0 <= k < LiveEntries(table[1..]) && table[1..][k].vendorId == dev.vendorId
            && table[1..][k].productId == dev.productId && table[1..][k].fun == BatteryScaleCallback
            && forall j :: 0 <= j < k ==> !(table[1..][j].vendorId == dev.vendorId && table[1..][j].productId == dev.productId);
          assert table[k + 1] == table[1..][k];
        }
      }
      st'
  }

  /** Only the 0x36AA/0x0101 entry raises might_need_battery_scale: every
      other device leaves the flag as it was. */
  lemma OnlyU2600MayNeedScale(dev: HidDevice, st: ZspBattery.ScaleState)
    ensures RunMatchCallback(ZspUsbDeviceTable, dev, st).mightNeedScale <==>
      st.mightNeedScale || (dev.vendorId == ZspVendorId && dev.productId == U2600ProductId)
  {
    assert LiveEntries(ZspUsbDeviceTable) == 1;
  }

  /** zsp_claim: a supported device is claimed; a possibly supported one
      only when the `productid` option is set; anything else is refused. */
  function Claim(status: SupportStatus, productIdOption: Option<string>): (r: int)
    ensures r == 0 || r == 1
    ensures status == Supported ==> r == 1
    ensures status == PossiblySupported ==> (r == 1 <==> productIdOption.Some?)
    ensures status != Supported && status != PossiblySupported ==> r == 0
  {
    match status
    case PossiblySupported => if productIdOption.Some? then 1 else 0
    case Supported => 1
    case NotSupported => 0
    case OtherStatus(_) => 0
  }

  /** A claim succeeds exactly for a supported device, or for a possibly
      supported one forced by the `productid` option. */
  lemma ClaimAcceptsExactly(status: SupportStatus, productIdOption: Option<string>)
    ensures Claim(status, productIdOption) == 1 <==>
      status == Supported || (status == PossiblySupported && productIdOption.Some?)
  {
  }

  /** zsp_format_model: the product string, as the device gave it. */
  function FormatModel(hd: HidDevice): (r: Option<string>)
    ensures r == hd.product
  {
    hd.product
  }

  /** zsp_format_mfr: the vendor string, or "ZSP" when the device gave none. */
  function FormatMfr(hd: HidDevice): (r: string)
    ensures hd.vendor.Some? ==> r == hd.vendor.value
    ensures hd.vendor.None? ==> r == "ZSP"
  {
    hd.vendor.GetOr("ZSP")
  }

  /** zsp_format_serial: the serial string, as the device gave it. */
  function FormatSerial(hd: HidDevice): (r: Option<string>)
    ensures r == hd.serial
  {
    hd.serial
  }

  /** Of the three names only the manufacturer has a fallback: model and
      serial are the device's own strings, absent exactly when the device
      gave none, and a manufacturer other than "ZSP" is the device's own
      string. */
  lemma NamesComeFromDevice(hd: HidDevice)
    ensures FormatModel(hd) == hd.product && FormatSerial(hd) == hd.serial
    ensures FormatModel(hd).Some? <==> hd.product.Some?
    ensures FormatSerial(hd).Some? <==> hd.serial.Some?
    ensures FormatMfr(hd) != "ZSP" ==> hd.vendor == Some(FormatMfr(hd))
    ensures hd.vendor.None? ==> FormatMfr(hd) == "ZSP"
  {
  }
}
