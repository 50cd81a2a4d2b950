/** The nut-scanner USB identity table (tools/nut-scanner/nutscan-usb.h):
    (vendorID, productID, driver name) rows closed by a { 0, 0, NULL }
    terminator, and the first-match lookup a scanner performs over it. */
module NutscanUsb {
  import opened Wrappers

  /** One usb_device_id_t row; a NULL driver_name is None. */
  datatype UsbDeviceId = UsbDeviceId(vendorId: int, productId: int, driverName: Option<string>)

  /** Both C fields are uint16_t. */
  predicate Is16Bit(x: int) {
    0 <= x < 0x1_0000
  }

  /** The terminating row { 0, 0, NULL }. */
  const Terminator: UsbDeviceId := UsbDeviceId(0, 0, None)

  /** Every driver the table names. */
  const AllowedDrivers: set<string> :=
    {"nutdrv_qx", "usbhid-ups", "bcmxcp_usb", "riello_usb", "richcomm_usb", "tripplite_usb"}

  /** The drivers the table refers to, and the name each is known by. */
  datatype Driver = NutdrvQx | UsbhidUps | BcmxcpUsb | RielloUsb | RichcommUsb | TrippliteUsb

  function DriverName(d: Driver): string {
    match d
    case NutdrvQx => "nutdrv_qx"
    case UsbhidUps => "usbhid-ups"
    case BcmxcpUsb => "bcmxcp_usb"
    case RielloUsb => "riello_usb"
    case RichcommUsb => "richcomm_usb"
    case TrippliteUsb => "tripplite_usb"
  }

  function Row(v: int, p: int, d: Driver): UsbDeviceId {
    UsbDeviceId(v, p, Some(DriverName(d)))
  }

  /** usb_device_table in source order, terminator included. */
  function UsbDeviceTable(): seq<UsbDeviceId> {
    RealRows() + [Terminator]
  }

  /** The real rows, in blocks of ten named by the index of their first
      row, so that no proof has to look deep into one literal. */
  function RealRows(): seq<UsbDeviceId> {
    Rows0() + Rows10() + Rows20() + Rows30()
      + Rows40() + Rows50() + Rows60() + Rows70()
      + Rows80() + Rows90() + Rows100() + Rows110()
  }

  function Rows0(): seq<UsbDeviceId> {
    [
      Row(0x0001, 0x0000, NutdrvQx),
      Row(0x03f0, 0x0001, UsbhidUps),
      Row(0x03f0, 0x1f01, BcmxcpUsb),
      Row(0x03f0, 0x1f02, BcmxcpUsb),
      Row(0x03f0, 0x1f06, UsbhidUps),
      Row(0x03f0, 0x1f08, UsbhidUps),
      Row(0x03f0, 0x1f09, UsbhidUps),
      Row(0x03f0, 0x1f0a, UsbhidUps),
      Row(0x03f0, 0x1fe0, UsbhidUps),
      Row(0x03f0, 0x1fe1, UsbhidUps)
    ]
  }

  function Rows10(): seq<UsbDeviceId> {
    [
      Row(0x03f0, 0x1fe2, UsbhidUps),
      Row(0x03f0, 0x1fe3, UsbhidUps),
      Row(0x03f0, 0x1fe5, UsbhidUps),
      Row(0x03f0, 0x1fe6, UsbhidUps),
      Row(0x03f0, 0x1fe7, UsbhidUps),
      Row(0x03f0, 0x1fe8, UsbhidUps),
      Row(0x0463, 0x0001, UsbhidUps),
      Row(0x0463, 0xffff, UsbhidUps),
      Row(0x047c, 0xffff, UsbhidUps),
      Row(0x0483, 0x0035, NutdrvQx)
    ]
  }

  function Rows20(): seq<UsbDeviceId> {
    [
      Row(0x0483, 0xa113, UsbhidUps),
      Row(0x04b3, 0x0001, UsbhidUps),
      Row(0x04b4, 0x5500, RielloUsb),
      Row(0x04d8, 0xd004, UsbhidUps),
      Row(0x04d8, 0xd005, UsbhidUps),
      Row(0x050d, 0x0375, UsbhidUps),
      Row(0x050d, 0x0551, UsbhidUps),
      Row(0x050d, 0x0750, UsbhidUps),
      Row(0x050d, 0x0751, UsbhidUps),
      Row(0x050d, 0x0900, UsbhidUps)
    ]
  }

  function Rows30(): seq<UsbDeviceId> {
    [
      Row(0x050d, 0x0910, UsbhidUps),
      Row(0x050d, 0x0912, UsbhidUps),
      Row(0x050d, 0x0980, UsbhidUps),
      Row(0x050d, 0x0f51, UsbhidUps),
      Row(0x050d, 0x1100, UsbhidUps),
      Row(0x051d, 0x0000, UsbhidUps),
      Row(0x051d, 0x0002, UsbhidUps),
      Row(0x051d, 0x0003, UsbhidUps),
      Row(0x0592, 0x0002, BcmxcpUsb),
      Row(0x0592, 0x0004, UsbhidUps)
    ]
  }

  function Rows40(): seq<UsbDeviceId> {
    [
      Row(0x05b8, 0x0000, NutdrvQx),
      Row(0x05dd, 0x041b, UsbhidUps),
      Row(0x05dd, 0xa011, UsbhidUps),
      Row(0x0665, 0x5161, NutdrvQx),
      Row(0x06da, 0x0002, NutdrvQx),
      Row(0x06da, 0x0003, NutdrvQx),
      Row(0x06da, 0x0004, NutdrvQx),
      Row(0x06da, 0x0005, NutdrvQx),
      Row(0x06da, 0x0201, NutdrvQx),
      Row(0x06da, 0x0601, NutdrvQx)
    ]
  }

  function Rows50(): seq<UsbDeviceId> {
    [
      Row(0x06da, 0xffff, UsbhidUps),
      Row(0x075d, 0x0300, UsbhidUps),
      Row(0x0764, 0x0005, UsbhidUps),
      Row(0x0764, 0x0501, UsbhidUps),
      Row(0x0764, 0x0601, UsbhidUps),
      Row(0x0925, 0x1234, RichcommUsb),
      Row(0x09ae, 0x0001, TrippliteUsb),
      Row(0x09ae, 0x1003, UsbhidUps),
      Row(0x09ae, 0x1007, UsbhidUps),
      Row(0x09ae, 0x1008, UsbhidUps)
    ]
  }

  function Rows60(): seq<UsbDeviceId> {
    [
      Row(0x09ae, 0x1009, UsbhidUps),
      Row(0x09ae, 0x1010, UsbhidUps),
      Row(0x09ae, 0x1330, UsbhidUps),
      Row(0x09ae, 0x2005, UsbhidUps),
      Row(0x09ae, 0x2007, UsbhidUps),
      Row(0x09ae, 0x2008, UsbhidUps),
      Row(0x09ae, 0x2009, UsbhidUps),
      Row(0x09ae, 0x2010, UsbhidUps),
      Row(0x09ae, 0x2011, UsbhidUps),
      Row(0x09ae, 0x2012, UsbhidUps)
    ]
  }

  function Rows70(): seq<UsbDeviceId> {
    [
      Row(0x09ae, 0x2013, UsbhidUps),
      Row(0x09ae, 0x2014, UsbhidUps),
      Row(0x09ae, 0x3008, UsbhidUps),
      Row(0x09ae, 0x3009, UsbhidUps),
      Row(0x09ae, 0x3010, UsbhidUps),
      Row(0x09ae, 0x3011, UsbhidUps),
      Row(0x09ae, 0x3012, UsbhidUps),
      Row(0x09ae, 0x3013, UsbhidUps),
      Row(0x09ae, 0x3014, UsbhidUps),
      Row(0x09ae, 0x3015, UsbhidUps)
    ]
  }

  function Rows80(): seq<UsbDeviceId> {
    [
      Row(0x09ae, 0x3016, UsbhidUps),
      Row(0x09ae, 0x3024, UsbhidUps),
      Row(0x09ae, 0x4001, UsbhidUps),
      Row(0x09ae, 0x4002, UsbhidUps),
      Row(0x09ae, 0x4003, UsbhidUps),
      Row(0x09ae, 0x4004, UsbhidUps),
      Row(0x09ae, 0x4005, UsbhidUps),
      Row(0x09ae, 0x4006, UsbhidUps),
      Row(0x09ae, 0x4007, UsbhidUps),
      Row(0x09ae, 0x4008, UsbhidUps)
    ]
  }

  function Rows90(): seq<UsbDeviceId> {
    [
      Row(0x0d9f, 0x0001, UsbhidUps),
      Row(0x0d9f, 0x0004, UsbhidUps),
      Row(0x0d9f, 0x00a2, UsbhidUps),
      Row(0x0d9f, 0x00a3, UsbhidUps),
      Row(0x0d9f, 0x00a4, UsbhidUps),
      Row(0x0d9f, 0x00a5, UsbhidUps),
      Row(0x0d9f, 0x00a6, UsbhidUps),
      Row(0x0f03, 0x0001, NutdrvQx),
      Row(0x10af, 0x0001, UsbhidUps),
      Row(0x10af, 0x0004, UsbhidUps)
    ]
  }

  function Rows100(): seq<UsbDeviceId> {
    [
      Row(0x10af, 0x0008, UsbhidUps),
      Row(0x14f0, 0x00c9, NutdrvQx),
      Row(0x1cb0, 0x0032, UsbhidUps),
      Row(0x1cb0, 0x0035, NutdrvQx),
      Row(0x1cb0, 0x0038, UsbhidUps),
      Row(0x2341, 0x0036, UsbhidUps),
      Row(0x2341, 0x8036, UsbhidUps),
      Row(0x2A03, 0x0036, UsbhidUps),
      Row(0x2A03, 0x0040, UsbhidUps),
      Row(0x2A03, 0x8036, UsbhidUps)
    ]
  }

  function Rows110(): seq<UsbDeviceId> {
    [
      Row(0x2A03, 0x8040, UsbhidUps),
      Row(0x2b2d, 0xffff, UsbhidUps),
      Row(0x2e51, 0x0000, UsbhidUps),
      Row(0x2e51, 0xffff, UsbhidUps),
      Row(0x2e66, 0x0201, UsbhidUps),
      Row(0x2e66, 0x0202, UsbhidUps),
      Row(0x2e66, 0x0203, UsbhidUps),
      Row(0x2e66, 0x0300, UsbhidUps),
      Row(0x4234, 0x0002, UsbhidUps),
      Row(0xffff, 0x0000, NutdrvQx)
    ]
  }

  /** Strict lexicographic order on (vendorID, productID). */
  predicate KeyLess(a: UsbDeviceId, b: UsbDeviceId) {
    a.vendorId < b.vendorId || (a.vendorId == b.vendorId && a.productId < b.productId)
  }

  predicate Matches(e: UsbDeviceId, vendorId: int, productId: int) {
    e.vendorId == vendorId && e.productId == productId
  }

  /** The last row is the terminator and no earlier row has vendor 0 or a
      NULL driver name, so a scan that stops at NULL sees every real row. */
  predicate Terminated(t: seq<UsbDeviceId>) {
    && |t| > 0
    && t[|t| - 1] == Terminator
    && forall i :: 0 <= i < |t| - 1 ==> t[i].vendorId != 0 && t[i].driverName.Some?
  }

  /** Every real row names one of the known drivers. */
  predicate DriversAllowed(t: seq<UsbDeviceId>) {
    forall i :: 0 <= i < |t| - 1 ==> t[i].driverName.Some? && t[i].driverName.value in AllowedDrivers
  }

  /** Every row's IDs fit the 16-bit fields that hold them. */
  predicate IdsFit(t: seq<UsbDeviceId>) {
    forall i :: 0 <= i < |t| ==> Is16Bit(t[i].vendorId) && Is16Bit(t[i].productId)
  }

  /** The real rows are strictly increasing in (vendorID, productID). */
  predicate StrictlySorted(t: seq<UsbDeviceId>) {
    forall i, j :: 0 <= i < j < |t| - 1 ==> KeyLess(t[i], t[j])
  }

  /** No (vendorID, productID) pair labels two real rows. */
  predicate UniqueKeys(t: seq<UsbDeviceId>) {
    forall i, j :: 0 <= i < |t| - 1 && 0 <= j < |t| - 1 && Matches(t[j], t[i].vendorId, t[i].productId) ==> i == j
  }

  /** What each real row must satisfy on its own: a non-zero vendor, a
      driver name from the known set, and IDs that fit 16 bits. */
  predicate RowOk(e: UsbDeviceId) {
    && e.vendorId != 0
    && e.driverName.Some?
    && e.driverName.value in AllowedDrivers
    && Is16Bit(e.vendorId) && Is16Bit(e.productId)
  }

  /** A run of rows each fine on its own and each below its successor. */
  predicate AscendingRun(s: seq<UsbDeviceId>) {
    && (forall i :: 0 <= i < |s| ==> RowOk(s[i]))
    && (forall i :: 0 < i < |s| ==> KeyLess(s[i - 1], s[i]))
  }

  /** Row-by-row form of AscendingRun from row `i` on: a recursive check
      the verifier can unfold over a literal block. */
  predicate RunFrom(s: seq<UsbDeviceId>, i: nat)
    decreases |s| - i
  {
    i >= |s| || (RowOk(s[i]) && (i + 1 < |s| ==> KeyLess(s[i], s[i + 1])) && RunFrom(s, i + 1))
  }

  lemma KeyLessTransitive(a: UsbDeviceId, b: UsbDeviceId, c: UsbDeviceId)
    requires KeyLess(a, b) && KeyLess(b, c)
    ensures KeyLess(a, c)
  {
  }

  lemma {:induction false} RunFromSuffix(s: seq<UsbDeviceId>, i: nat)
    requires RunFrom(s, i)
    ensures forall k :: i <= k < |s| ==> RowOk(s[k])
    ensures forall k :: i < k < |s| ==> KeyLess(s[k - 1], s[k])
    decreases |s| - i
  {
    if i < |s| {
      RunFromSuffix(s, i + 1);
    }
  }

  /** Two ascending runs, the first ending below where the second starts,
      make one ascending run. */
  lemma RunsJoin(a: seq<UsbDeviceId>, b: seq<UsbDeviceId>)
    requires AscendingRun(a) && AscendingRun(b)
    requires |a| > 0 && |b| > 0 && KeyLess(a[|a| - 1], b[0])
    ensures AscendingRun(a + b)
  {
    assert forall i :: |a| <= i < |a + b| ==> (a + b)[i] == b[i - |a|];
  }

  /** Neighbour-wise order is order of every pair. */
  lemma {:induction false} AscendingRunSorted(s: seq<UsbDeviceId>, i: nat)
    requires AscendingRun(s)
    ensures forall k, l :: i <= k < l < |s| ==> KeyLess(s[k], s[l])
    decreases |s| - i
  {
    if i < |s| {
      AscendingRunSorted(s, i + 1);
      forall l | i < l < |s|
        ensures KeyLess(s[i], s[l])
      {
        if l > i + 1 {
          KeyLessTransitive(s[i], s[i + 1], s[l]);
        }
      }
    }
  }

  /** Strict order leaves no room for a repeated key. */
  lemma SortedKeysUnique(t: seq<UsbDeviceId>)
    requires StrictlySorted(t)
    ensures UniqueKeys(t)
  {
  }

  // Each block of the literal is checked on its own, a few rows per
  // checkpoint.
  lemma Rows0Ascending()
    ensures |Rows0()| == 10 && AscendingRun(Rows0())
  {
    assert RunFrom(Rows0(), 9);
    assert RunFrom(Rows0(), 6);
    assert RunFrom(Rows0(), 3);
    assert RunFrom(Rows0(), 0);
    RunFromSuffix(Rows0(), 0);
  }

  lemma Rows10Ascending()
    ensures |Rows10()| == 10 && AscendingRun(Rows10())
  {
    assert RunFrom(Rows10(), 9);
    assert RunFrom(Rows10(), 6);
    assert RunFrom(Rows10(), 3);
    assert RunFrom(Rows10(), 0);
    RunFromSuffix(Rows10(), 0);
  }

  lemma Rows20Ascending()
    ensures |Rows20()| == 10 && AscendingRun(Rows20())
  {
    assert RunFrom(Rows20(), 9);
    assert RunFrom(Rows20(), 6);
    assert RunFrom(Rows20(), 3);
    assert RunFrom(Rows20(), 0);
    RunFromSuffix(Rows20(), 0);
  }

  lemma Rows30Ascending()
    ensures |Rows30()| == 10 && AscendingRun(Rows30())
  {
    assert RunFrom(Rows30(), 9);
    assert RunFrom(Rows30(), 6);
    assert RunFrom(Rows30(), 3);
    assert RunFrom(Rows30(), 0);
    RunFromSuffix(Rows30(), 0);
  }

  lemma Rows40Ascending()
    ensures |Rows40()| == 10 && AscendingRun(Rows40())
  {
    assert RunFrom(Rows40(), 9);
    assert RunFrom(Rows40(), 6);
    assert RunFrom(Rows40(), 3);
    assert RunFrom(Rows40(), 0);
    RunFromSuffix(Rows40(), 0);
  }

  lemma Rows50Ascending()
    ensures |Rows50()| == 10 && AscendingRun(Rows50())
  {
    assert RunFrom(Rows50(), 9);
    assert RunFrom(Rows50(), 6);
    assert RunFrom(Rows50(), 3);
    assert RunFrom(Rows50(), 0);
    RunFromSuffix(Rows50(), 0);
  }

  lemma Rows60Ascending()
    ensures |Rows60()| == 10 && AscendingRun(Rows60())
  {
    assert RunFrom(Rows60(), 9);
    assert RunFrom(Rows60(), 6);
    assert RunFrom(Rows60(), 3);
    assert RunFrom(Rows60(), 0);
    RunFromSuffix(Rows60(), 0);
  }

  lemma Rows70Ascending()
    ensures |Rows70()| == 10 && AscendingRun(Rows70())
  {
    assert RunFrom(Rows70(), 9);
    assert RunFrom(Rows70(), 6);
    assert RunFrom(Rows70(), 3);
    assert RunFrom(Rows70(), 0);
    RunFromSuffix(Rows70(), 0);
  }

  lemma Rows80Ascending()
    ensures |Rows80()| == 10 && AscendingRun(Rows80())
  {
    assert RunFrom(Rows80(), 9);
    assert RunFrom(Rows80(), 6);
    assert RunFrom(Rows80(), 3);
    assert RunFrom(Rows80(), 0);
    RunFromSuffix(Rows80(), 0);
  }

  lemma Rows90Ascending()
    ensures |Rows90()| == 10 && AscendingRun(Rows90())
  {
    assert RunFrom(Rows90(), 9);
    assert RunFrom(Rows90(), 6);
    assert RunFrom(Rows90(), 3);
    assert RunFrom(Rows90(), 0);
    RunFromSuffix(Rows90(), 0);
  }

  lemma Rows100Ascending()
    ensures |Rows100()| == 10 && AscendingRun(Rows100())
  {
    assert RunFrom(Rows100(), 9);
    assert RunFrom(Rows100(), 6);
    assert RunFrom(Rows100(), 3);
    assert RunFrom(Rows100(), 0);
    RunFromSuffix(Rows100(), 0);
  }

  lemma Rows110Ascending()
    ensures |Rows110()| == 10 && AscendingRun(Rows110())
  {
    assert RunFrom(Rows110(), 9);
    assert RunFrom(Rows110(), 6);
    assert RunFrom(Rows110(), 3);
    assert RunFrom(Rows110(), 0);
    RunFromSuffix(Rows110(), 0);
  }

  /** The blocks join into one ascending run of 120 rows. */
  lemma RealRowsAscending()
    ensures |RealRows()| == 120 && AscendingRun(RealRows())
  {
    Rows0Ascending();
    Rows10Ascending();
    Rows20Ascending();
    Rows30Ascending();
    Rows40Ascending();
    Rows50Ascending();
    Rows60Ascending();
    Rows70Ascending();
    Rows80Ascending();
    Rows90Ascending();
    Rows100Ascending();
    Rows110Ascending();
    RunsJoin(Rows0(), Rows10());
    RunsJoin(Rows0() + Rows10(), Rows20());
    RunsJoin(Rows0() + Rows10() + Rows20(), Rows30());
    RunsJoin(Rows0() + Rows10() + Rows20() + Rows30(), Rows40());
    RunsJoin(Rows0() + Rows10() + Rows20() + Rows30() + Rows40(), Rows50());
    RunsJoin(Rows0() + Rows10() + Rows20() + Rows30() + Rows40() + Rows50(), Rows60());
    RunsJoin(Rows0() + Rows10() + Rows20() + Rows30() + Rows40() + Rows50() + Rows60(), Rows70());
    RunsJoin(Rows0() + Rows10() + Rows20() + Rows30() + Rows40() + Rows50() + Rows60() + Rows70(), Rows80());
    RunsJoin(Rows0() + Rows10() + Rows20() + Rows30() + Rows40() + Rows50() + Rows60() + Rows70() + Rows80(), Rows90());
    RunsJoin(Rows0() + Rows10() + Rows20() + Rows30() + Rows40() + Rows50() + Rows60() + Rows70() + Rows80() + Rows90(), Rows100());
    RunsJoin(Rows0() + Rows10() + Rows20() + Rows30() + Rows40() + Rows50() + Rows60() + Rows70() + Rows80() + Rows90() + Rows100(), Rows110());
  }

  /** The shipped table is terminated, sorted, duplicate-free and names
      only known drivers. */
  lemma UsbDeviceTableWellFormed()
    ensures |UsbDeviceTable()| == 121
    ensures Terminated(UsbDeviceTable())
    ensures DriversAllowed(UsbDeviceTable())
    ensures StrictlySorted(UsbDeviceTable())
    ensures UniqueKeys(UsbDeviceTable())
    ensures IdsFit(UsbDeviceTable())
  {
    var t := UsbDeviceTable();
    RealRowsAscending();
    AscendingRunSorted(RealRows(), 0);
    assert forall i :: 0 <= i < |t| - 1 ==> t[i] == RealRows()[i];
    SortedKeysUnique(t);
  }

  /** Index of the first row whose driver name is NULL: the rows a scan
      visits are exactly those before it. */
  function ScanEnd(t: seq<UsbDeviceId>): (n: nat)
    ensures n <= |t|
    ensures forall j :: 0 <= j < n ==> t[j].driverName.Some?
    ensures n < |t| ==> t[n].driverName.None?
  {
    if |t| == 0 || t[0].driverName.None? then 0 else 1 + ScanEnd(t[1..])
  }

  /** The driver for a device: scan rows in order, stopping at the first
      NULL driver name, and return the first row whose IDs match. */
  function Lookup(t: seq<UsbDeviceId>, vendorId: int, productId: int): (r: Option<string>)
    ensures r.Some? ==>
      exists i :: 0 <= i < ScanEnd(t) && Matches(t[i], vendorId, productId) && t[i].driverName == r
        && forall j :: 0 <= j < i ==> !Matches(t[j], vendorId, productId)
    ensures r.None? ==> forall i :: 0 <= i < ScanEnd(t) ==> !Matches(t[i], vendorId, productId)
  {
    if |t| == 0 || t[0].driverName.None? then None
    else if Matches(t[0], vendorId, productId) then t[0].driverName
    else
      var rest := Lookup(t[1..], vendorId, productId);
      assert forall i :: 1 <= i < ScanEnd(t) ==> t[i] == t[1..][i - 1];
      assert rest.Some? ==>
        exists i :: 0 <= i < ScanEnd(t) && Matches(t[i], vendorId, productId) && t[i].driverName == rest &&
                    forall j :: 0 <= j < i ==> !Matches(t[j], vendorId, productId) by {
        if rest.Some? {
          var k :| 0 <= k < ScanEnd(t[1..]) && Matches(t[1..][k], vendorId, productId) && t[1..][k].driverName == rest
            && forall j :: 0 <= j < k ==> !Matches(t[1..][j], vendorId, productId);
          assert Matches(t[k + 1], vendorId, productId) && forall j :: 0 <= j < k + 1 ==> !Matches(t[j], vendorId, productId);
        }
      }
      rest
  }

  /** In a terminated table the scan visits exactly the real rows. */
  lemma ScanEndOfTerminated(t: seq<UsbDeviceId>)
    requires Terminated(t)
    ensures ScanEnd(t) == |t| - 1
  {
  }

  /** With unique keys the lookup of any real row's IDs yields that row's
      driver, and the lookup yields a driver exactly when some real row
      carries those IDs. */
  lemma LookupUniqueRow(t: seq<UsbDeviceId>, vendorId: int, productId: int)
    requires Terminated(t) && UniqueKeys(t)
    ensures forall i :: 0 <= i < |t| - 1 && Matches(t[i], vendorId, productId) ==>
      Lookup(t, vendorId, productId) == t[i].driverName
    ensures Lookup(t, vendorId, productId).Some? <==>
      exists i :: 0 <= i < |t| - 1 && Matches(t[i], vendorId, productId)
  {
    ScanEndOfTerminated(t);
  }

  /** In a sorted table, IDs that fall strictly between two neighbouring
      rows are found nowhere. */
  lemma {:induction false} LookupMissesGap(t: seq<UsbDeviceId>, k: nat, key: UsbDeviceId)
    requires Terminated(t) && StrictlySorted(t)
    requires k + 1 < |t| - 1
    requires KeyLess(t[k], key) && KeyLess(key, t[k + 1])
    ensures Lookup(t, key.vendorId, key.productId).None?
  {
    ScanEndOfTerminated(t);
    forall i | 0 <= i < |t| - 1
      ensures !Matches(t[i], key.vendorId, key.productId)
    {
      if i < k {
        KeyLessTransitive(t[i], t[k], key);
      } else if i > k + 1 {
        KeyLessTransitive(key, t[k + 1], t[i]);
      }
    }
  }

  /** The Zspace U2600 (0x36AA, 0x0101) is not in the scanner's table: it
      sorts between (0x2e66, 0x0300) and (0x4234, 0x0002). */
  lemma ZspaceDeviceNotListed()
    ensures Lookup(UsbDeviceTable(), 0x36AA, 0x0101).None?
  {
    UsbDeviceTableWellFormed();
    var t := UsbDeviceTable();
    assert t[117] == Row(0x2e66, 0x0300, UsbhidUps);
    assert t[118] == Row(0x4234, 0x0002, UsbhidUps);
    LookupMissesGap(t, 117, UsbDeviceId(0x36AA, 0x0101, None));
  }
}
