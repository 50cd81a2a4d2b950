# Zspace HID subdriver and nut-scanner USB table, modelled in Dafny

This project models two pieces of Network UPS Tools (NUT):

- the Zspace HID subdriver of `usbhid-ups` (`drivers/zspace-hid.c`);
- the USB identity table of `nut-scanner` (`tools/nut-scanner/nutscan-usb.h`).

It proves properties of both models.

For the subdriver, the model covers:

- the claim decision;
- the report-descriptor fix-up for the 0x36AA/0x0501 unit;
- the battery-voltage scale latch and its three process-wide flags;
- the battery-charge clamp;
- the model, manufacturer and serial formatters;
- the subdriver's own USB ID table with its callback;
- the usage-table chain `zsp_utab`;
- the HID-to-NUT mapping table `zsp_hid2nut`.

For the scanner, `usb_device_table` is carried as data. The model gives the first-match lookup a scanner performs over it, and well-formedness predicates covering the terminator, strict order, unique keys, the known driver names and the 16-bit IDs.

Files:

- `wrappers.dfy` (module `Wrappers`): the `Option` type, which stands for a C pointer that may be NULL.
- `zspace_battery.dfy` (module `ZspBattery`): the scale latch and the charge clamp.
  - `battery_scale`, `might_need_battery_scale` and `battery_scale_checked` become an explicit `ScaleState`, passed in and returned by each call.
  - A C `double` is a Dafny `real`.
  - The nominal voltage that `dstate_getinfo` may or may not return is an `Option<real>` parameter.
- `zspace_device.dfy` (module `ZspDevice`): the device record, `zsp_usb_device_table`, the match callback, `zsp_claim` and the formatters.
  - The verdict of `is_usb_device_supported` is an input of `Claim`.
  - So is the presence of the `productid` option that `getval` reports.
- `zspace_report_fix.dfy` (module `ZspReportFix`): `zsp_fix_report_desc` over a descriptor modelled as a sequence of (report ID, usage, LogMin, LogMax) fields.
  - `FindObject_with_ID_Node` is modelled as a first-match search.
- `zspace_tables.dfy` (module `ZspTables`): `zsp_usage_lkp`/`zsp_utab`, with a name/code lookup over a chain of usage tables, and `zsp_hid2nut` as data with its well-formedness predicate.
- `nutscan_usb.dfy` (module `NutscanUsb`): `usb_device_table` and its lookup.

Where the fix-up's comment and its code disagree, the model follows the code:

- The comment (drivers/zspace-hid.c:268-274, 287-290) says the input voltage field is corrected too. The code only looks up the report-15 input-voltage field and logs its range (lines 308-315). It never writes it.
- Running the fix-up a second time can return 1 again. This happens when the high-voltage-transfer range already was (0, 511): after the first pass the two ranges are still equal. Only the descriptor is idempotent, not the return value.

## Model

| member | source | states |
|---|---|---|
| ZspDevice.Claim | drivers/zspace-hid.c:245-266 | The result is 0 or 1. It is 1 for a supported device. For a possibly supported device it is 1 exactly when the `productid` option is set. Every other verdict gives 0. |
| ZspDevice.ClaimAcceptsExactly | drivers/zspace-hid.c:249-265 | A convenience form of `Claim`'s contract, not a further result: the three cases restated as one if-and-only-if for callers. |
| ZspDevice.RunMatchCallback | drivers/zspace-hid.c:58-73 | Matching a device against an ID table runs the callback of the first live entry with exactly its IDs. The scale and the checked flag are untouched. might_need_battery_scale ends up set if and only if it was set already or that first matching entry carries the battery-scale callback. |
| ZspDevice.OnlyU2600MayNeedScale | drivers/zspace-hid.c:66-73 | With the subdriver's own table, might_need_battery_scale gets raised exactly for vendor 0x36AA, product 0x0101. |
| ZspDevice.ZspUsbDeviceTableWellFormed | drivers/zspace-hid.c:67-73 | The table holds exactly two entries. The first is the U2600 (vendor 0x36AA, product 0x0101) with the battery-scale callback. The last is the terminator { 0, 0, NULL }. |
| ZspDevice.FormatMfr | drivers/zspace-hid.c:235-237 | The manufacturer is the device's vendor string. When the device gave none it is "ZSP". |
| ZspDevice.FormatModel | drivers/zspace-hid.c:231-233 | The model name is the device's product string, NULL when it gave none. |
| ZspDevice.FormatSerial | drivers/zspace-hid.c:239-241 | The serial number is the device's serial string, NULL when it gave none. |
| ZspDevice.NamesComeFromDevice | drivers/zspace-hid.c:231-241 | Model and serial equal the device's product and serial strings, so they are absent exactly when the device gave none. Only the manufacturer has a fallback: a manufacturer other than "ZSP" is the device's own string, and a missing vendor yields "ZSP". |
| ZspBattery.MarkMightNeedScale | drivers/zspace-hid.c:58-64 | The callback sets might_need_battery_scale. It changes nothing else and keeps the scale invariant. |
| ZspBattery.AdjustBatteryScale | drivers/zspace-hid.c:77-104 | Once checked, nothing changes. An absent or zero nominal changes nothing. Otherwise the state becomes checked. The scale becomes 2/3 when voltage/nominal > 1.4 (strictly) and stays as it was otherwise. A state that satisfies the invariant and may need scaling keeps the invariant. |
| ZspBattery.BattVoltFun | drivers/zspace-hid.c:108-120 | For a marked device the state after the call is the result of the scale determination on this reading; an unmarked device's state is untouched. The value is the scale after that step times the reading, so a reading that latches 2/3 is already scaled. A checked state is returned unchanged. The scale stays 1 or 2/3. An unmarked device's reading passes through unchanged. |
| ZspBattery.LatchAtFirstReading | drivers/zspace-hid.c:98-117 | A marked, unchecked device whose first reading comes with a known non-zero nominal latches the ratio rule's factor on that reading. That reading and every later one are multiplied by the factor, and the session ends checked. |
| ZspBattery.FirstKnownNominalLatches | drivers/zspace-hid.c:82-117 | For any marked, unchecked valid state and any reading sequence, the first reading with a known non-zero nominal decides the factor: 2/3 when reading/nominal > 1.4, else 1. Earlier readings pass through at scale 1. That reading and every later one are multiplied by the factor. The session ends checked with that factor. |
| ZspBattery.MarkedSessionFromStart | drivers/zspace-hid.c:49-117 | From the power-up state with the U2600's callback applied, a session latches at the first reading with a known non-zero nominal, by the ratio rule, and scales every later reading by that factor. |
| ZspBattery.LatchedScaleIsFinal | drivers/zspace-hid.c:82-103 | After the check has run, no sequence of readings changes the state, whatever the nominal voltage says later. Every output is the reading times the latched factor. |
| ZspBattery.CheckedNeverCleared | drivers/zspace-hid.c:51-103 | No sequence of calls clears battery_scale_checked. |
| ZspBattery.SessionKeepsScaleValid | drivers/zspace-hid.c:49-103 | Through any sequence of readings the scale stays 1 or 2/3. It is 2/3 only after the check, and the check runs only for a marked device. |
| ZspBattery.UnmarkedDeviceUnscaled | drivers/zspace-hid.c:112-117 | If might_need_battery_scale was never set, the state never moves and every output equals its reading. |
| ZspBattery.PendingWhileNominalUnknown | drivers/zspace-hid.c:86-96 | While the nominal voltage is absent or zero, the check stays pending and the reading passes through at scale 1. |
| ZspBattery.HighReadingLatchesTwoThirds | drivers/zspace-hid.c:98-117 | A 24 V pack read at 40 V latches 2/3, giving 80/3. A later 27 V reading is scaled to 18 even after the nominal changes. |
| ZspBattery.NormalReadingLatchesOne | drivers/zspace-hid.c:98-103 | A 24 V pack read at 25 V latches scale 1 and reports 25. |
| ZspBattery.BattChargeFun | drivers/zspace-hid.c:128-136 | The charge is never above 100. It is the reading below 100 and exactly 100 at or above 100. |
| ZspBattery.BattChargeClampIsIdempotent | drivers/zspace-hid.c:132-133 | A note on `BattChargeFun`, not a further result: the clamp never raises a value, and clamping twice equals clamping once. |
| ZspReportFix.FindObject | drivers/zspace-hid.c:292-308 | The lookup returns the first field with the given report ID and usage, or none exactly when no field has them. |
| ZspReportFix.FindObjectFromIgnoresRanges | drivers/zspace-hid.c:292-305 | The search depends only on report IDs and usages, so rewriting ranges never moves what it finds. |
| ZspReportFix.FixReportDesc | drivers/zspace-hid.c:276-322 | For any device other than 0x36AA/0x0501 the result is 0 and the descriptor is untouched. The result is 1 if and only if a report-16 high-voltage-transfer field and a report-18 voltage field both exist with equal ranges; the report-18 field is then set to (0, 511). Result 0 leaves the descriptor unchanged. No other field changes and the layout is kept. |
| ZspReportFix.InputVoltageNeverWritten | drivers/zspace-hid.c:308-315 | Every report-15 field, including the input voltage, comes out exactly as it went in. |
| ZspReportFix.FixIsIdempotent | drivers/zspace-hid.c:292-317 | A second run leaves the descriptor as the first run left it. After a successful fix, the second run returns 1 again exactly when the high-voltage-transfer range already was (0, 511). |
| ZspReportFix.DefectiveDescriptorIsFixed | drivers/zspace-hid.c:303-317 | A defective 0x36AA/0x0501 descriptor (fields 16 and 18 both at (0, 300)) gets field 18 rewritten to (0, 511) and returns 1. Report 15 keeps (0, 255). |
| ZspTables.NameOfCode | drivers/zspace-hid.c:147-149 | Looking up a code in one usage table returns the name of the first live row carrying it (no earlier live row has that code), or none exactly when no row before the NULL name has it. |
| ZspTables.CodeOfName | drivers/zspace-hid.c:147-149 | Looking up a name in one usage table returns the code of the first live row whose name equals it up to ASCII case, or none exactly when no live row does. |
| ZspTables.NameLookupIgnoresCase | drivers/zspace-hid.c:147-149 | The name lookup ignores case: "voltage" finds a row named "Voltage". |
| ZspTables.ResolveCode | drivers/zspace-hid.c:151-155 | Across a chain, the first table that knows the code supplies the name, and every earlier table knows nothing of it. |
| ZspTables.ResolveName | drivers/zspace-hid.c:151-155 | Across a chain, the first table that knows the name (up to ASCII case) supplies the code, and every earlier table knows nothing of it. |
| ZspTables.ZspUtab | drivers/zspace-hid.c:151-155 | The chain is the vendor table followed by the generic one. The vendor table has no live row. |
| ZspTables.ZspUtabDefersToGeneric | drivers/zspace-hid.c:147-155 | The vendor table is empty, so resolving through zsp_utab in either direction is the same as resolving in the generic table. |
| ZspTables.UsageLookupRoundTrip | drivers/zspace-hid.c:147-155 | In a table with no repeated codes, looking up a name's code and then that code's name gives back the name, up to ASCII case. The table's own spelling comes back. |
| ZspTables.ZspHid2NutWellFormed | drivers/zspace-hid.c:161-229 | The table has 46 rows and the NULL sentinel, which comes last. Every earlier row names a variable and a HID path. Command rows carry a literal and no converter or dstate flags. Writable rows are strings with a non-zero length, and read-only rows have length 0. Only the "BOOL" status rows lack a format, and they always convert. The two local converters serve battery.voltage and battery.charge. |
| ZspTables.TestCommandsShareField | drivers/zspace-hid.c:183-216 | The quick, deep and stop battery-test commands write 1, 2 and 3 to UPS.Output.Test, the field ups.test.result reads. |
| NutscanUsb.UsbDeviceTableWellFormed | tools/nut-scanner/nutscan-usb.h:45-177 | The table has 120 rows plus the { 0, 0, NULL } terminator, which comes last. No earlier row has vendor 0 or a NULL driver name. Every driver is one of nutdrv_qx, usbhid-ups, bcmxcp_usb, riello_usb, richcomm_usb and tripplite_usb. Rows are strictly increasing in (vendorID, productID), so no pair repeats. Both IDs fit 16 bits. |
| NutscanUsb.ScanEnd | tools/nut-scanner/nutscan-usb.h:175-176 | A scan visits exactly the rows before the first NULL driver name. |
| NutscanUsb.Lookup | tools/nut-scanner/nutscan-usb.h:52-177 | The lookup returns the driver of the first visited row with those IDs, or none exactly when no visited row has them. |
| NutscanUsb.ScanEndOfTerminated | tools/nut-scanner/nutscan-usb.h:175-176 | In a terminated table the scan visits every real row. |
| NutscanUsb.LookupUniqueRow | tools/nut-scanner/nutscan-usb.h:54-173 | With unique keys, looking up any real row's IDs yields that row's driver, and a lookup succeeds if and only if some real row has the IDs. |
| NutscanUsb.LookupMissesGap | tools/nut-scanner/nutscan-usb.h:54-173 | In a sorted table, IDs strictly between two neighbouring rows are found nowhere. |
| NutscanUsb.ZspaceDeviceNotListed | tools/nut-scanner/nutscan-usb.h:171-172 | The Zspace U2600 (0x36AA, 0x0101) has no entry: it sorts between (0x2e66, 0x0300) and (0x4234, 0x0002). |

## Left out

- Text formatting is not modelled: `snprintf` with `%.1f`/`%.0f` into the converters' static 8-byte buffers, and `strtod` parsing of the nominal-voltage string. The model carries the numeric values.
- ZspBattery.AdjustBatteryScale: it compares the nominal with 0 exactly instead of with `d_equal`'s tolerance, and uses exact reals, not IEEE doubles.
- Logging (`upsdebugx`, `upslogx`, `possibly_supported`) has no effect on any result and is left out.
- `is_usb_device_supported` (usb-common.c) is not part of this model. Its verdict is an input of `ZspDevice.Claim`: as the subdriver uses it, it is SUPPORTED on an exact vendor/product match and POSSIBLY_SUPPORTED when only the vendor matches. The model keeps only its effect of running the first exact match's callback, in `ZspDevice.RunMatchCallback`.
- `getval("productid")` and `dstate_getinfo("battery.voltage.nominal")` are inputs, as `Option` values.
- `FindObject_with_ID_Node` (hidparser.c) is not part of this model. It is modelled as a first-match search over the descriptor's fields.
- The usage codes `USAGE_POW_VOLTAGE` (0x00840030) and `USAGE_POW_HIGH_VOLTAGE_TRANSFER` (0x00840054) come from the HID power-device usage tables. Their defining header, hidtypes.h, is not part of this model.
- `DEFAULT_ONDELAY` ("30") and `DEFAULT_OFFDELAY` ("20") come from usbhid-ups.h, which is not part of this model.
- The dstate and subdriver flag bits are modelled as symbolic flag sets, not their numeric values.
- ZspTables.CodeOfName, ZspTables.ResolveName, ZspTables.NameOfCode and ZspTables.ResolveCode: the lookups over the usage tables live in libhid.c, which is not part of this model. They are rebuilt here from how the tables are laid out. Names are compared as `strcasecmp` does in the C locale, up to ASCII case; other locales' case rules are not modelled.
- The contents of the generic `hid_usage_lkp` are not part of this model. It is a parameter of `ZspTables.ZspUtab`.
- The shared converters (`stringid_conversion`, `beeper_info`, `online_info` and the rest) appear only as names in the mapping table.
- The interpreter that walks `zsp_hid2nut` belongs to usbhid-ups.c and is not part of this model.
- The `zspace_subdriver` record (drivers/zspace-hid.c:324-333) only bundles the members above behind function pointers. It is not modelled as a value of its own.
- The commented-out "unmapped" rows of `zsp_hid2nut` (drivers/zspace-hid.c:161-166) are not compiled and are not modelled.
- The libusb include and `#error` configuration plumbing of nutscan-usb.h is left out.
- The process-wide scale statics are modelled as an explicit state passed in and returned, so concurrent or interleaved sessions are not modelled.
