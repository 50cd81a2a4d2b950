/** The report-descriptor fix-up of drivers/zspace-hid.c
    (zsp_fix_report_desc). Some Zspace units give the output-voltage field
    (report 18) the logical range of the input high-voltage-transfer field
    (report 16); when the two ranges are equal the fix-up overwrites the
    output-voltage range with fixed limits. */
module ZspReportFix {
  import opened Wrappers
  import ZspDevice

  /** Usage codes of the Power Device page (0x84) of the HID usage tables
      for power devices: Voltage (0x30) and HighVoltageTransfer (0x54). */
  const UsagePowVoltage: int := 0x0084_0030
  const UsagePowHighVoltageTransfer: int := 0x0084_0054

  /** The one Zspace product the fix-up targets. */
  const FixedProductId: int := 0x0501

  /** ZSP_VOLTAGE_LOGMIN and ZSP_VOLTAGE_LOGMAX (the latter with a safety
      margin). */
  const VoltageLogMin: int := 0
  const VoltageLogMax: int := 511

  /** One parsed report field (HIDData_t): its report ID, the usage that
      ends its path, and its logical range. */
  datatype HidData = HidData(reportId: int, usage: int, logMin: int, logMax: int)

  /** A parsed report descriptor: its fields in parse order. */
  type Descriptor = seq<HidData>

  predicate IsObject(d: HidData, reportId: int, usage: int) {
    d.reportId == reportId && d.usage == usage
  }

  predicate SameRange(a: HidData, b: HidData) {
    a.logMin == b.logMin && a.logMax == b.logMax
  }

  /** FindObject_with_ID_Node, as a first-match search from field `from` on:
      the index of the first field with this report ID and usage. */
  function FindObjectFrom(desc: Descriptor, reportId: int, usage: int, from: nat): (r: Option<nat>)
    requires from <= |desc|
    ensures r.Some? ==> from <= r.value < |desc| && IsObject(desc[r.value], reportId, usage)
    ensures r.Some? ==> forall j :: from <= j < r.value ==> !IsObject(desc[j], reportId, usage)
    ensures r.None? ==> forall j :: from <= j < |desc| ==> !IsObject(desc[j], reportId, usage)
    decreases |desc| - from
  {
    if from == |desc| then None
    else if IsObject(desc[from], reportId, usage) then Some(from)
    else FindObjectFrom(desc, reportId, usage, from + 1)
  }

  function FindObject(desc: Descriptor, reportId: int, usage: int): (r: Option<nat>)
    ensures r.Some? ==> r.value < |desc| && IsObject(desc[r.value], reportId, usage)
    ensures r.Some? ==> forall j :: 0 <= j < r.value ==> !IsObject(desc[j], reportId, usage)
    ensures r.None? ==> forall j :: 0 <= j < |desc| ==> !IsObject(desc[j], reportId, usage)
  {
    FindObjectFrom(desc, reportId, usage, 0)
  }

  /** Two descriptors that agree on every field's report ID and usage,
      field by field, whatever their ranges. */
  predicate SameLayout(a: Descriptor, b: Descriptor) {
    |a| == |b| && forall i :: 0 <= i < |a| ==> a[i].reportId == b[i].reportId && a[i].usage == b[i].usage
  }

  /** The search looks at report IDs and usages only, so rewriting ranges
      never moves what it finds. */
  lemma {:induction false} FindObjectFromIgnoresRanges(a: Descriptor, b: Descriptor, reportId: int, usage: int, from: nat)
    requires SameLayout(a, b) && from <= |a|
    ensures FindObjectFrom(a, reportId, usage, from) == FindObjectFrom(b, reportId, usage, from)
    decreases |a| - from
  {
    if from < |a| {
      FindObjectFromIgnoresRanges(a, b, reportId, usage, from + 1);
    }
  }

  predicate IsTarget(dev: ZspDevice.HidDevice) {
    dev.vendorId == ZspDevice.ZspVendorId && dev.productId == FixedProductId
  }

  /** The defect signature: a report-16 high-voltage-transfer field and a
      report-18 voltage field whose logical ranges are equal. */
  predicate DefectPresent(desc: Descriptor) {
    && FindObject(desc, 16, UsagePowHighVoltageTransfer).Some?
    && FindObject(desc, 18, UsagePowVoltage).Some?
    && SameRange(desc[FindObject(desc, 16, UsagePowHighVoltageTransfer).value],
                 desc[FindObject(desc, 18, UsagePowVoltage).value])
  }

  /** The C function's return value and the descriptor as it leaves it. */
  datatype FixOutcome = FixOutcome(ret: int, desc: Descriptor)

  /** zsp_fix_report_desc. The report-15 input-voltage field is looked up
      and logged by the C code but never written, so it plays no part here. */
  function FixReportDesc(dev: ZspDevice.HidDevice, desc: Descriptor): (r: FixOutcome)
    ensures r.ret == 0 || r.ret == 1
    ensures !IsTarget(dev) ==> r == FixOutcome(0, desc)
    ensures r.ret == 1 <==> IsTarget(dev) && DefectPresent(desc)
    ensures r.ret == 0 ==> r.desc == desc
    ensures SameLayout(desc, r.desc)
    ensures forall i :: 0 <= i < |desc| && !IsObject(desc[i], 18, UsagePowVoltage) ==> r.desc[i] == desc[i]
    ensures r.ret == 1 ==>
      var o := FindObject(desc, 18, UsagePowVoltage).value;
      r.desc == desc[o := desc[o].(logMin := VoltageLogMin, logMax := VoltageLogMax)]
  {
    if !IsTarget(dev) then FixOutcome(0, desc)
    else match FindObject(desc, 16, UsagePowHighVoltageTransfer)
      case None => FixOutcome(0, desc)
      case Some(h) =>
        match FindObject(desc, 18, UsagePowVoltage)
        case None => FixOutcome(0, desc)
        case Some(o) =>
          if SameRange(desc[h], desc[o]) then
            FixOutcome(1, desc[o := desc[o].(logMin := VoltageLogMin, logMax := VoltageLogMax)])
          else FixOutcome(0, desc)
  }

  /** The report-15 input-voltage field (and every other report-15 field)
      comes out of the fix-up exactly as it went in. */
  lemma InputVoltageNeverWritten(dev: ZspDevice.HidDevice, desc: Descriptor)
    ensures forall i :: 0 <= i < |desc| && desc[i].reportId == 15 ==> FixReportDesc(dev, desc).desc[i] == desc[i]
  {
  }

  /** Running the fix-up on its own output leaves the descriptor as the
      first run left it. The second run reports 1 again exactly when the
      high-voltage-transfer range already was (0, 511). */
  lemma FixIsIdempotent(dev: ZspDevice.HidDevice, desc: Descriptor)
    ensures FixReportDesc(dev, FixReportDesc(dev, desc).desc).desc == FixReportDesc(dev, desc).desc
    ensures FixReportDesc(dev, desc).ret == 1 ==>
      var h := FindObject(desc, 16, UsagePowHighVoltageTransfer).value;
      (FixReportDesc(dev, FixReportDesc(dev, desc).desc).ret == 1 <==>
         desc[h].logMin == VoltageLogMin && desc[h].logMax == VoltageLogMax)
  {
    var once := FixReportDesc(dev, desc);
    if once.ret == 1 {
      FindObjectFromIgnoresRanges(desc, once.desc, 16, UsagePowHighVoltageTransfer, 0);
      FindObjectFromIgnoresRanges(desc, once.desc, 18, UsagePowVoltage, 0);
      var h := FindObject(desc, 16, UsagePowHighVoltageTransfer).value;
      var o := FindObject(desc, 18, UsagePowVoltage).value;
      assert h != o;
      assert once.desc[h] == desc[h];
    }
  }

  /** A 0x36AA/0x0501 descriptor whose report-16 transfer field and report-18
      voltage field both claim (0, 300) gets the voltage field rewritten to
      (0, 511); report 15 keeps its (0, 255). */
  lemma DefectiveDescriptorIsFixed()
    ensures FixReportDesc(ZspDevice.HidDevice(0x36AA, 0x0501, None, None, None),
      [HidData(15, UsagePowVoltage, 0, 255), HidData(16, UsagePowHighVoltageTransfer, 0, 300), HidData(18, UsagePowVoltage, 0, 300)])
      == FixOutcome(1, [HidData(15, UsagePowVoltage, 0, 255), HidData(16, UsagePowHighVoltageTransfer, 0, 300), HidData(18, UsagePowVoltage, 0, 511)])
  {
    var desc := [HidData(15, UsagePowVoltage, 0, 255), HidData(16, UsagePowHighVoltageTransfer, 0, 300), HidData(18, UsagePowVoltage, 0, 300)];
    assert IsObject(desc[1], 16, UsagePowHighVoltageTransfer);
    assert IsObject(desc[2], 18, UsagePowVoltage);
  }
}
