/** The static tables of drivers/zspace-hid.c as plain data: the
    usage-table chain (zsp_utab) and the HID-to-NUT mapping table
    (zsp_hid2nut), with the well-formedness each is expected to have. */
module ZspTables {
  import opened Wrappers

  // ---------------------------------------------------------------------
  // Usage tables

  /** One usage_lkp_t row: a symbolic usage name and its 32-bit code; a
      NULL name ends the table. */
  datatype UsageLkp = UsageLkp(name: Option<string>, code: int)

  /** zsp_usage_lkp: the vendor table holds no usage of its own, only the
      terminator { NULL, 0 }. */
  const ZspUsageLkp: seq<UsageLkp> := [UsageLkp(None, 0)]

  /** zsp_utab: the vendor table ahead of the generic one. The generic
      hid_usage_lkp is defined elsewhere and comes in as a parameter; the
      NULL that closes the C array is the end of the sequence. */
  function ZspUtab(generic: seq<UsageLkp>): (chain: seq<seq<UsageLkp>>)
    ensures |chain| == 2 && chain[0] == ZspUsageLkp && chain[1] == generic
    ensures UsageRows(chain[0]) == 0
  {
    [ZspUsageLkp, generic]
  }

  /** Number of rows before the first NULL name. */
  function UsageRows(table: seq<UsageLkp>): (n: nat)
    ensures n <= |table|
    ensures forall j :: 0 <= j < n ==> table[j].name.Some?
    ensures n < |table| ==> table[n].name.None?
  {
    if |table| == 0 || table[0].name.None? then 0 else 1 + UsageRows(table[1..])
  }

  /** The name of the first row of one table carrying `code`. */
  function NameOfCode(table: seq<UsageLkp>, code: int): (r: Option<string>)
    ensures r.Some? ==> exists j :: 0 <= j < UsageRows(table) && table[j].code == code && table[j].name == r &&
                          forall i :: 0 <= i < j ==> table[i].code != code
    ensures r.None? ==> forall j :: 0 <= j < UsageRows(table) ==> table[j].code != code
  {
    if |table| == 0 || table[0].name.None? then None
    else if table[0].code == code then table[0].name
    else
      var r := NameOfCode(table[1..], code);
      assert forall j :: 1 <= j < UsageRows(table) ==> table[j] == table[1..][j - 1];
      assert r.Some? ==> exists j :: 0 <= j < UsageRows(table) && table[j].code == code && table[j].name == r &&
                                     forall i :: 0 <= i < j ==> table[i].code != code by {
        if r.Some? {
          var k :| 0 <= k < UsageRows(table[1..]) && table[1..][k].code == code && table[1..][k].name == r
            && forall i :: 0 <= i < k ==> table[1..][i].code != code;
          assert table[k + 1] == table[1..][k];
        }
      }
      r
  }

  /** Resolve a usage code through the chain from table `from` on: the
      first table that knows the code wins. */
  function ResolveCodeFrom(chain: seq<seq<UsageLkp>>, code: int, from: nat): (r: Option<string>)
    requires from <= |chain|
    ensures r.Some? ==> exists k :: from <= k < |chain| && NameOfCode(chain[k], code) == r &&
                          forall j :: from <= j < k ==> NameOfCode(chain[j], code).None?
    ensures r.None? ==> forall k :: from <= k < |chain| ==> NameOfCode(chain[k], code).None?
    decreases |chain| - from
  {
    if from == |chain| then None
    else if NameOfCode(chain[from], code).Some? then NameOfCode(chain[from], code)
    else ResolveCodeFrom(chain, code, from + 1)
  }

  /** Resolve a usage code through a chain: the first table that knows the
      code wins, so a vendor table overrides the generic one. */
  function ResolveCode(chain: seq<seq<UsageLkp>>, code: int): (r: Option<string>)
    ensures r.Some? ==> exists k :: 0 <= k < |chain| && NameOfCode(chain[k], code) == r &&
                          forall j :: 0 <= j < k ==> NameOfCode(chain[j], code).None?
    ensures r.None? ==> forall k :: 0 <= k < |chain| ==> NameOfCode(chain[k], code).None?
  {
    ResolveCodeFrom(chain, code, 0)
  }

  /** ASCII lower-casing, as tolower in the C locale. */
  function AsciiLower(c: char): char {
    if 'A' <= c <= 'Z' then (c as int + 32) as char else c
  }

  /** Equality of two names up to ASCII case, the test strcasecmp makes. */
  predicate SameIgnoringCase(a: string, b: string) {
    |a| == |b| && forall i :: 0 <= i < |a| ==> AsciiLower(a[i]) == AsciiLower(b[i])
  }

  /** A live row whose name equals `name` up to case. */
  predicate NameMatches(row: UsageLkp, name: string) {
    row.name.Some? && SameIgnoringCase(row.name.value, name)
  }

  /** The code of the first row of one table whose name equals `name` up
      to case. */
  function CodeOfName(table: seq<UsageLkp>, name: string): (r: Option<int>)
    ensures r.Some? ==> exists j :: 0 <= j < UsageRows(table) && NameMatches(table[j], name) && table[j].code == r.value &&
                          forall i :: 0 <= i < j ==> !NameMatches(table[i], name)
    ensures r.None? ==> forall j :: 0 <= j < UsageRows(table) ==> !NameMatches(table[j], name)
  {
    if |table| == 0 || table[0].name.None? then None
    else if NameMatches(table[0], name) then Some(table[0].code)
    else
      var r := CodeOfName(table[1..], name);
      assert forall j :: 1 <= j < UsageRows(table) ==> table[j] == table[1..][j - 1];
      assert r.Some? ==> exists j :: 0 <= j < UsageRows(table) && NameMatches(table[j], name) && table[j].code == r.value &&
                                     forall i :: 0 <= i < j ==> !NameMatches(table[i], name) by {
        if r.Some? {
          var k :| 0 <= k < UsageRows(table[1..]) && NameMatches(table[1..][k], name) && table[1..][k].code == r.value
            && forall i :: 0 <= i < k ==> !NameMatches(table[1..][i], name);
          assert table[k + 1] == table[1..][k];
          assert forall i :: 0 <= i < k + 1 ==> !NameMatches(table[i], name);
        }
      }
      r
  }

  /** Case does not matter to the name lookup: "voltage" finds a row
      named "Voltage". */
  lemma NameLookupIgnoresCase()
    ensures CodeOfName([UsageLkp(Some("Voltage"), 0x0084_0030), UsageLkp(None, 0)], "voltage") == Some(0x0084_0030)
  {
    assert SameIgnoringCase("Voltage", "voltage");
  }

  /** Resolve a usage name through the chain from table `from` on: the
      first table that knows the name wins. */
  function ResolveNameFrom(chain: seq<seq<UsageLkp>>, name: string, from: nat): (r: Option<int>)
    requires from <= |chain|
    ensures r.Some? ==> exists k :: from <= k < |chain| && CodeOfName(chain[k], name) == r &&
                          forall j :: from <= j < k ==> CodeOfName(chain[j], name).None?
    ensures r.None? ==> forall k :: from <= k < |chain| ==> CodeOfName(chain[k], name).None?
    decreases |chain| - from
  {
    if from == |chain| then None
    else if CodeOfName(chain[from], name).Some? then CodeOfName(chain[from], name)
    else ResolveNameFrom(chain, name, from + 1)
  }

  /** Resolve a usage name through a chain, first table first. */
  function ResolveName(chain: seq<seq<UsageLkp>>, name: string): (r: Option<int>)
    ensures r.Some? ==> exists k :: 0 <= k < |chain| && CodeOfName(chain[k], name) == r &&
                          forall j :: 0 <= j < k ==> CodeOfName(chain[j], name).None?
    ensures r.None? ==> forall k :: 0 <= k < |chain| ==> CodeOfName(chain[k], name).None?
  {
    ResolveNameFrom(chain, name, 0)
  }

  /** The empty vendor table shadows nothing: resolving through zsp_utab,
      in either direction, is resolving in the generic table. */
  lemma ZspUtabDefersToGeneric(generic: seq<UsageLkp>, code: int, name: string)
    ensures ResolveCode(ZspUtab(generic), code) == NameOfCode(generic, code)
    ensures ResolveName(ZspUtab(generic), name) == CodeOfName(generic, name)
  {
    assert UsageRows(ZspUsageLkp) == 0;
  }

  /** No code appears on two live rows of the table. */
  predicate UniqueCodes(table: seq<UsageLkp>) {
    forall i, j :: 0 <= i < UsageRows(table) && 0 <= j < UsageRows(table) && table[i].code == table[j].code ==> i == j
  }

  /** In a table without repeated codes, looking a name up and the code
      back gives the name again, up to case: the table's own spelling. */
  lemma UsageLookupRoundTrip(table: seq<UsageLkp>, name: string)
    requires UniqueCodes(table)
    ensures CodeOfName(table, name).Some? ==>
      var n := NameOfCode(table, CodeOfName(table, name).value);
      n.Some? && SameIgnoringCase(n.value, name)
  {
    var c := CodeOfName(table, name);
    if c.Some? {
      var j :| 0 <= j < UsageRows(table) && NameMatches(table[j], name) && table[j].code == c.value;
      var n := NameOfCode(table, c.value);
      var k :| 0 <= k < UsageRows(table) && table[k].code == c.value && table[k].name == n;
      assert k == j;
    }
  }

  // ---------------------------------------------------------------------
  // HID-to-NUT mapping table

  /** dstate flags of a row (ST_FLAG_RW, ST_FLAG_STRING). */
  datatype StFlag = Rw | StringFlag

  /** Subdriver flags of a row (HU_FLAG_SEMI_STATIC, HU_FLAG_QUICK_POLL,
      HU_FLAG_ABSENT, HU_TYPE_CMD). */
  datatype HuFlag = SemiStatic | QuickPoll | Absent | TypeCmd

  /** Shared converters defined outside this subdriver. */
  datatype SharedConversion =
    | StringIdConversion | BeeperInfo | TestReadInfo
    | OnlineInfo | ChargingInfo | DischargingInfo | LowBattInfo
    | FullyChargedInfo | TimeLimitExpiredInfo | BoostInfo | OverloadInfo

  /** The info_lkp_t a row converts its value with: none, a shared one, or
      one of the two defined in this subdriver. */
  datatype Conversion = NoConversion | Shared(shared: SharedConversion) | ZspBattVolt | ZspBattCharge

  /** One hid_info_t row. `dfl` holds the format of a read row, the default
      of an absent writable row, or the literal a command writes. The
      HIDData pointer, NULL in every static row, is not carried. */
  datatype HidInfo = HidInfo(
    info: Option<string>,
    stFlags: set<StFlag>,
    length: int,
    hidPath: Option<string>,
    dfl: Option<string>,
    huFlags: set<HuFlag>,
    conv: Conversion)

  /** DEFAULT_ONDELAY and DEFAULT_OFFDELAY, in seconds. */
  const DefaultOnDelay: string := "30"
  const DefaultOffDelay: string := "20"

  /** The end-of-table row { NULL, 0, 0, NULL, NULL, NULL, 0, NULL }. */
  const Sentinel: HidInfo := HidInfo(None, {}, 0, None, None, {}, NoConversion)

  function Info(info: string, stFlags: set<StFlag>, length: int, hidPath: string,
                dfl: Option<string>, huFlags: set<HuFlag>, conv: Conversion): HidInfo
  {
    HidInfo(Some(info), stFlags, length, Some(hidPath), dfl, huFlags, conv)
  }

  /** The info name "BOOL" marks a status-bit row: its value is not
      published itself but turned into a token of ups.status or ups.alarm. */
  const BoolInfo: string := "BOOL"

  function StatusBit(hidPath: string, huFlags: set<HuFlag>, conv: Conversion): HidInfo
  {
    HidInfo(Some(BoolInfo), {}, 0, Some(hidPath), None, huFlags, conv)
  }

  /** zsp_hid2nut in source order: its pages, then the sentinel. */
  function ZspHid2Nut(): seq<HidInfo> {
    BatteryPage() + UpsPage() + StatusPage() + InputPage() + OutputPage() + CommandPage() + [Sentinel]
  }

  /** The battery page. */
  function BatteryPage(): seq<HidInfo> {
    [
      Info("battery.type", {}, 0, "UPS.PowerSummary.iDeviceChemistry", Some("%s"), {}, Shared(StringIdConversion)),
      Info("battery.mfr.date", {}, 0, "UPS.PowerSummary.iOEMInformation", Some("%s"), {}, Shared(StringIdConversion)),
      Info("battery.charge.warning", {}, 0, "UPS.PowerSummary.WarningCapacityLimit", Some("%.0f"), {}, NoConversion),
      Info("battery.charge.low", {Rw, StringFlag}, 10, "UPS.PowerSummary.RemainingCapacityLimit", Some("%.0f"), {SemiStatic}, NoConversion),
      Info("battery.charge", {}, 0, "UPS.PowerSummary.RemainingCapacity", Some("%s"), {}, ZspBattCharge),
      Info("battery.runtime", {}, 0, "UPS.PowerSummary.RunTimeToEmpty", Some("%.0f"), {}, NoConversion),
      Info("battery.runtime.low", {Rw, StringFlag}, 10, "UPS.PowerSummary.RemainingTimeLimit", Some("%.0f"), {SemiStatic}, NoConversion),
      Info("battery.voltage.nominal", {}, 0, "UPS.PowerSummary.ConfigVoltage", Some("%.0f"), {}, NoConversion),
      Info("battery.voltage", {}, 0, "UPS.PowerSummary.Voltage", Some("%s"), {}, ZspBattVolt)
    ]
  }

  /** The UPS page. */
  function UpsPage(): seq<HidInfo> {
    [
      Info("ups.load", {}, 0, "UPS.Output.PercentLoad", Some("%.0f"), {}, NoConversion),
      Info("ups.beeper.status", {}, 0, "UPS.PowerSummary.AudibleAlarmControl", Some("%s"), {}, Shared(BeeperInfo)),
      Info("ups.test.result", {}, 0, "UPS.Output.Test", Some("%s"), {}, Shared(TestReadInfo)),
      Info("ups.realpower.nominal", {}, 0, "UPS.Output.ConfigActivePower", Some("%.0f"), {}, NoConversion),
      Info("ups.delay.start", {Rw, StringFlag}, 10, "UPS.Output.DelayBeforeStartup", Some(DefaultOnDelay), {Absent}, NoConversion),
      Info("ups.delay.shutdown", {Rw, StringFlag}, 10, "UPS.Output.DelayBeforeShutdown", Some(DefaultOffDelay), {Absent}, NoConversion),
      Info("ups.timer.start", {}, 0, "UPS.Output.DelayBeforeStartup", Some("%.0f"), {QuickPoll}, NoConversion),
      Info("ups.timer.shutdown", {}, 0, "UPS.Output.DelayBeforeShutdown", Some("%.0f"), {QuickPoll}, NoConversion),
      Info("ups.timer.reboot", {}, 0, "UPS.Output.DelayBeforeReboot", Some("%.0f"), {QuickPoll}, NoConversion)
    ]
  }

  /** The status bits behind ups.status and ups.alarm. */
  function StatusPage(): seq<HidInfo> {
    [
      StatusBit("UPS.PowerSummary.PresentStatus.ACPresent", {QuickPoll}, Shared(OnlineInfo)),
      StatusBit("UPS.PowerSummary.PresentStatus.Charging", {QuickPoll}, Shared(ChargingInfo)),
      StatusBit("UPS.PowerSummary.PresentStatus.Discharging", {QuickPoll}, Shared(DischargingInfo)),
      StatusBit("UPS.PowerSummary.PresentStatus.BelowRemainingCapacityLimit", {QuickPoll}, Shared(LowBattInfo)),
      StatusBit("UPS.PowerSummary.PresentStatus.FullyCharged", {}, Shared(FullyChargedInfo)),
      StatusBit("UPS.PowerSummary.PresentStatus.RemainingTimeLimitExpired", {}, Shared(TimeLimitExpiredInfo)),
      StatusBit("UPS.Output.Boost", {}, Shared(BoostInfo)),
      StatusBit("UPS.Output.Overload", {}, Shared(OverloadInfo))
    ]
  }

  /** The input page. */
  function InputPage(): seq<HidInfo> {
    [
      Info("input.frequency", {}, 0, "UPS.Input.Frequency", Some("%.1f"), {}, NoConversion),
      Info("input.voltage.nominal", {}, 0, "UPS.Input.ConfigVoltage", Some("%.0f"), {}, NoConversion),
      Info("input.voltage", {}, 0, "UPS.Input.Voltage", Some("%.1f"), {}, NoConversion),
      Info("input.transfer.low", {Rw, StringFlag}, 10, "UPS.Input.LowVoltageTransfer", Some("%.0f"), {SemiStatic}, NoConversion),
      Info("input.transfer.high", {Rw, StringFlag}, 10, "UPS.Input.HighVoltageTransfer", Some("%.0f"), {SemiStatic}, NoConversion)
    ]
  }

  /** The output page. */
  function OutputPage(): seq<HidInfo> {
    [
      Info("output.frequency", {}, 0, "UPS.Output.Frequency", Some("%.1f"), {}, NoConversion),
      Info("output.voltage", {}, 0, "UPS.Output.Voltage", Some("%.1f"), {}, NoConversion),
      Info("output.voltage.nominal", {}, 0, "UPS.Output.ConfigVoltage", Some("%.0f"), {}, NoConversion)
    ]
  }

  /** The instant commands. */
  function CommandPage(): seq<HidInfo> {
    [
      Info("test.battery.start.quick", {}, 0, "UPS.Output.Test", Some("1"), {TypeCmd}, NoConversion),
      Info("test.battery.start.deep", {}, 0, "UPS.Output.Test", Some("2"), {TypeCmd}, NoConversion),
      Info("test.battery.stop", {}, 0, "UPS.Output.Test", Some("3"), {TypeCmd}, NoConversion),
      Info("load.off.delay", {}, 0, "UPS.Output.DelayBeforeShutdown", Some(DefaultOffDelay), {TypeCmd}, NoConversion),
      Info("load.on.delay", {}, 0, "UPS.Output.DelayBeforeStartup", Some(DefaultOnDelay), {TypeCmd}, NoConversion),
      Info("shutdown.stop", {}, 0, "UPS.Output.DelayBeforeShutdown", Some("-1"), {TypeCmd}, NoConversion),
      Info("shutdown.reboot", {}, 0, "UPS.Output.DelayBeforeReboot", Some("10"), {TypeCmd}, NoConversion),
      Info("beeper.on", {}, 0, "UPS.PowerSummary.AudibleAlarmControl", Some("2"), {TypeCmd}, NoConversion),
      Info("beeper.off", {}, 0, "UPS.PowerSummary.AudibleAlarmControl", Some("3"), {TypeCmd}, NoConversion),
      Info("beeper.enable", {}, 0, "UPS.PowerSummary.AudibleAlarmControl", Some("2"), {TypeCmd}, NoConversion),
      Info("beeper.disable", {}, 0, "UPS.PowerSummary.AudibleAlarmControl", Some("1"), {TypeCmd}, NoConversion),
      Info("beeper.mute", {}, 0, "UPS.PowerSummary.AudibleAlarmControl", Some("3"), {TypeCmd}, NoConversion)
    ]
  }

  /** What every row before the sentinel must satisfy: it names a variable
      and a HID path; a command writes a literal and has no conversion or
      dstate flags; a writable variable is a string with a length; only the
      status bits ("BOOL") go without a format and they always convert; the
      two local converters serve battery.voltage and battery.charge. */
  predicate RowWellFormed(row: HidInfo) {
    && row.info.Some? && row.hidPath.Some?
    && (TypeCmd in row.huFlags ==> row.dfl.Some? && row.conv == NoConversion && row.stFlags == {} && row.length == 0)
    && (Rw in row.stFlags ==> StringFlag in row.stFlags && row.length > 0)
    && (Rw !in row.stFlags ==> row.length == 0)
    && (row.dfl.None? <==> row.info == Some(BoolInfo))
    && (row.info == Some(BoolInfo) ==> row.conv != NoConversion)
    && (row.conv == ZspBattVolt ==> row.info == Some("battery.voltage"))
    && (row.conv == ZspBattCharge ==> row.info == Some("battery.charge"))
  }

  /** The table ends in the sentinel and every earlier row is well formed,
      so an interpreter that stops at the first NULL name sees every row. */
  predicate MappingTableWellFormed(t: seq<HidInfo>) {
    && |t| > 0
    && t[|t| - 1] == Sentinel
    && PageWellFormed(t[..|t| - 1])
  }

  predicate PageWellFormed(p: seq<HidInfo>) {
    forall i :: 0 <= i < |p| ==> RowWellFormed(p[i])
  }

  /** Row-by-row form of PageWellFormed, from row `i` on. */
  predicate RowsFrom(p: seq<HidInfo>, i: nat)
    decreases |p| - i
  {
    i >= |p| || (RowWellFormed(p[i]) && RowsFrom(p, i + 1))
  }

  lemma {:induction false} RowsFromSuffix(p: seq<HidInfo>, i: nat)
    requires RowsFrom(p, i)
    ensures forall k :: i <= k < |p| ==> RowWellFormed(p[k])
    decreases |p| - i
  {
    if i < |p| {
      RowsFromSuffix(p, i + 1);
    }
  }

  lemma PagesJoin(a: seq<HidInfo>, b: seq<HidInfo>)
    requires PageWellFormed(a) && PageWellFormed(b)
    ensures PageWellFormed(a + b)
  {
    assert forall i :: |a| <= i < |a + b| ==> (a + b)[i] == b[i - |a|];
  }

  // Each page is checked on its own, a few rows per checkpoint, so that no
  // proof has to look deep into a literal.
  lemma BatteryPageWellFormed()
    ensures PageWellFormed(BatteryPage())
  {
    assert RowsFrom(BatteryPage(), 8);
    assert RowsFrom(BatteryPage(), 5);
    assert RowsFrom(BatteryPage(), 2);
    assert RowsFrom(BatteryPage(), 0);
    RowsFromSuffix(BatteryPage(), 0);
  }

  lemma UpsPageWellFormed()
    ensures PageWellFormed(UpsPage())
  {
    assert RowsFrom(UpsPage(), 8);
    assert RowsFrom(UpsPage(), 5);
    assert RowsFrom(UpsPage(), 2);
    assert RowsFrom(UpsPage(), 0);
    RowsFromSuffix(UpsPage(), 0);
  }

  lemma StatusPageWellFormed()
    ensures PageWellFormed(StatusPage())
  {
    assert RowsFrom(StatusPage(), 7);
    assert RowsFrom(StatusPage(), 4);
    assert RowsFrom(StatusPage(), 1);
    assert RowsFrom(StatusPage(), 0);
    RowsFromSuffix(StatusPage(), 0);
  }

  lemma InputPageWellFormed()
    ensures PageWellFormed(InputPage())
  {
    assert RowsFrom(InputPage(), 4);
    assert RowsFrom(InputPage(), 1);
    assert RowsFrom(InputPage(), 0);
    RowsFromSuffix(InputPage(), 0);
  }

  lemma OutputPageWellFormed()
    ensures PageWellFormed(OutputPage())
  {
    assert RowsFrom(OutputPage(), 2);
    assert RowsFrom(OutputPage(), 0);
    RowsFromSuffix(OutputPage(), 0);
  }

  lemma CommandPageWellFormed()
    ensures PageWellFormed(CommandPage())
  {
    assert RowsFrom(CommandPage(), 11);
    assert RowsFrom(CommandPage(), 8);
    assert RowsFrom(CommandPage(), 5);
    assert RowsFrom(CommandPage(), 2);
    assert RowsFrom(CommandPage(), 0);
    RowsFromSuffix(CommandPage(), 0);
  }

  /** zsp_hid2nut is well formed. */
  lemma ZspHid2NutWellFormed()
    ensures |ZspHid2Nut()| == 47
    ensures MappingTableWellFormed(ZspHid2Nut())
  {
    BatteryPageWellFormed();
    UpsPageWellFormed();
    StatusPageWellFormed();
    InputPageWellFormed();
    OutputPageWellFormed();
    CommandPageWellFormed();
    var body := BatteryPage() + UpsPage() + StatusPage() + InputPage() + OutputPage() + CommandPage();
    PagesJoin(BatteryPage(), UpsPage());
    PagesJoin(BatteryPage() + UpsPage(), StatusPage());
    PagesJoin(BatteryPage() + UpsPage() + StatusPage(), InputPage());
    PagesJoin(BatteryPage() + UpsPage() + StatusPage() + InputPage(), OutputPage());
    PagesJoin(BatteryPage() + UpsPage() + StatusPage() + InputPage() + OutputPage(), CommandPage());
    assert ZspHid2Nut()[..|ZspHid2Nut()| - 1] == body;
  }

  /** The three battery-test commands write distinct literals (1, 2, 3) to
      the one UPS.Output.Test field that ups.test.result reads. */
  lemma TestCommandsShareField()
    ensures ZspHid2Nut()[11].info == Some("ups.test.result") && ZspHid2Nut()[11].hidPath == Some("UPS.Output.Test")
    ensures ZspHid2Nut()[34] == Info("test.battery.start.quick", {}, 0, "UPS.Output.Test", Some("1"), {TypeCmd}, NoConversion)
    ensures ZspHid2Nut()[35] == Info("test.battery.start.deep", {}, 0, "UPS.Output.Test", Some("2"), {TypeCmd}, NoConversion)
    ensures ZspHid2Nut()[36] == Info("test.battery.stop", {}, 0, "UPS.Output.Test", Some("3"), {TypeCmd}, NoConversion)
  {
  }
}
