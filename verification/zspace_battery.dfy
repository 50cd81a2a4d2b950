/** The battery converters of drivers/zspace-hid.c: the battery-voltage
    scale latch with its three flags, and the battery-charge clamp. The
    process-wide statics of the C code become an explicit ScaleState that
    each call takes and returns. */
module ZspBattery {
  import opened Wrappers

  /** battery_scale, might_need_battery_scale and battery_scale_checked. */
  datatype ScaleState = ScaleState(scale: real, mightNeedScale: bool, checked: bool)

  /** The statics' initial values: scale 1, neither flag set. */
  const InitialScaleState: ScaleState := ScaleState(1.0, false, false)

  /** battery_voltage_sanity_check. */
  const SanityRatio: real := 1.4

  /** The factor applied when readings are about 1.5 times too high. */
  const TwoThirds: real := 2.0 / 3.0

  /** What any reachable state satisfies: the scale is 1 or 2/3, it is 2/3
      only after the check ran, and the check runs only for a device whose
      table entry asked for it. */
  predicate ScaleValid(st: ScaleState) {
    && (st.scale == 1.0 || st.scale == TwoThirds)
    && (!st.checked ==> st.scale == 1.0)
    && (st.checked ==> st.mightNeedScale)
  }

  /** The zsp_battery_scale callback run when the device matches its table
      entry: it only raises might_need_battery_scale. */
  function MarkMightNeedScale(st: ScaleState): (st': ScaleState)
    ensures st'.mightNeedScale
    ensures st'.scale == st.scale && st'.checked == st.checked
    ensures ScaleValid(st) ==> ScaleValid(st')
  {
    st.(mightNeedScale := true)
  }

  /** zsp_adjust_battery_scale: once the nominal voltage is known and not
      zero, decide once and for all whether readings are scaled by 2/3. An
      absent or zero nominal leaves the check pending for the next call. */
  function AdjustBatteryScale(st: ScaleState, battVolt: real, nominal: Option<real>): (st': ScaleState)
    ensures st'.mightNeedScale == st.mightNeedScale
    ensures st.checked ==> st' == st
    ensures nominal.None? || nominal == Some(0.0) ==> st' == st
    ensures !st.checked && nominal.Some? && nominal.value != 0.0 ==>
      && st'.checked
      && (battVolt / nominal.value > SanityRatio ==> st'.scale == TwoThirds)
      && (battVolt / nominal.value <= SanityRatio ==> st'.scale == st.scale)
    ensures ScaleValid(st) && st.mightNeedScale ==> ScaleValid(st')
  {
    if st.checked then st
    else if nominal.None? then st
    else if nominal.value == 0.0 then st
    else
      var scale := if battVolt / nominal.value > SanityRatio then TwoThirds else st.scale;
      st.(scale := scale, checked := true)
  }

  /** A converter's numeric output together with the state after the call. */
  datatype Converted = Converted(state: ScaleState, value: real)

  /** zsp_battvolt_fun, value part: run the adjustment when the device may
      need it, then scale the reading by the (possibly just latched) factor. */
  function BattVoltFun(st: ScaleState, value: real, nominal: Option<real>): (c: Converted)
    ensures c.value == c.state.scale * value
    ensures st.mightNeedScale ==> c.state == AdjustBatteryScale(st, value, nominal)
    ensures c.state.mightNeedScale == st.mightNeedScale
    ensures st.checked ==> c.state == st
    ensures !st.mightNeedScale ==> c.state == st
    ensures ScaleValid(st) ==> ScaleValid(c.state)
    ensures ScaleValid(st) && !st.mightNeedScale ==> c.value == value
  {
    var st' := if st.mightNeedScale then AdjustBatteryScale(st, value, nominal) else st;
    Converted(st', st'.scale * value)
  }

  /** One battery.voltage reading and the nominal voltage published at the
      time of the call. */
  datatype Reading = Reading(value: real, nominal: Option<real>)

  /** The state after feeding a session's readings, in order, to the
      converter. */
  function FinalState(st: ScaleState, readings: seq<Reading>): ScaleState
    decreases |readings|
  {
    if |readings| == 0 then st
    else FinalState(BattVoltFun(st, readings[0].value, readings[0].nominal).state, readings[1..])
  }

  /** The converter's outputs for a session's readings, in order. */
  function Outputs(st: ScaleState, readings: seq<Reading>): (out: seq<real>)
    ensures |out| == |readings|
    decreases |readings|
  {
    if |readings| == 0 then []
    else
      var c := BattVoltFun(st, readings[0].value, readings[0].nominal);
      [c.value] + Outputs(c.state, readings[1..])
  }

  /** Once the check has run, no later reading changes the state (whatever
      the nominal voltage then says), and every output is the reading times
      the latched factor. */
  lemma {:induction false} LatchedScaleIsFinal(st: ScaleState, readings: seq<Reading>)
    requires st.checked
    ensures FinalState(st, readings) == st
    ensures forall i :: 0 <= i < |readings| ==> Outputs(st, readings)[i] == st.scale * readings[i].value
    decreases |readings|
  {
    if |readings| > 0 {
      LatchedScaleIsFinal(st, readings[1..]);
      assert forall i :: 1 <= i < |readings| ==> readings[1..][i - 1] == readings[i];
    }
  }

  /** No sequence of calls clears battery_scale_checked. */
  lemma {:induction false} CheckedNeverCleared(st: ScaleState, readings: seq<Reading>)
    requires st.checked
    ensures FinalState(st, readings).checked
  {
    LatchedScaleIsFinal(st, readings);
  }

  /** Every state reachable from a valid one, the initial state included,
      keeps the scale at 1 or 2/3. */
  lemma {:induction false} SessionKeepsScaleValid(st: ScaleState, readings: seq<Reading>)
    requires ScaleValid(st)
    ensures ScaleValid(FinalState(st, readings))
    decreases |readings|
  {
    if |readings| > 0 {
      SessionKeepsScaleValid(BattVoltFun(st, readings[0].value, readings[0].nominal).state, readings[1..]);
    }
  }

  /** A device whose table entry never raised might_need_battery_scale gets
      its readings through unchanged. */
  lemma {:induction false} UnmarkedDeviceUnscaled(st: ScaleState, readings: seq<Reading>)
    requires ScaleValid(st) && !st.mightNeedScale
    ensures FinalState(st, readings) == st
    ensures Outputs(st, readings) == seq(|readings|, i requires 0 <= i < |readings| => readings[i].value)
    decreases |readings|
  {
    if |readings| > 0 {
      UnmarkedDeviceUnscaled(st, readings[1..]);
    }
  }

  /** The factor the ratio rule picks for a reading against a known,
      non-zero nominal voltage. */
  function LatchedFactor(value: real, nominal: real): (f: real)
    requires nominal != 0.0
    ensures f == TwoThirds <==> value / nominal > SanityRatio
    ensures f == 1.0 <==> value / nominal <= SanityRatio
  {
    if value / nominal > SanityRatio then TwoThirds else 1.0
  }

  /** A marked device with the check pending latches at a reading that
      comes with a known, non-zero nominal voltage. */
  lemma {:induction false} LatchAtFirstReading(st: ScaleState, readings: seq<Reading>)
    requires ScaleValid(st) && st.mightNeedScale && !st.checked
    requires |readings| > 0 && readings[0].nominal.Some? && readings[0].nominal.value != 0.0
    ensures FinalState(st, readings) == ScaleState(LatchedFactor(readings[0].value, readings[0].nominal.value), true, true)
    ensures forall i :: 0 <= i < |readings| ==>
      Outputs(st, readings)[i] == LatchedFactor(readings[0].value, readings[0].nominal.value) * readings[i].value
  {
    var f := LatchedFactor(readings[0].value, readings[0].nominal.value);
    var c := BattVoltFun(st, readings[0].value, readings[0].nominal);
    assert c.state == ScaleState(f, true, true);
    LatchedScaleIsFinal(c.state, readings[1..]);
    assert forall i :: 1 <= i < |readings| ==> readings[1..][i - 1] == readings[i];
  }

  /** For a marked device whose check is still pending, the first reading
      that comes with a known, non-zero nominal voltage (index `k`) decides
      the scale by the ratio rule, once and for all: earlier readings pass
      through at scale 1, that reading and every later one are multiplied
      by the latched factor, and the session ends checked with that factor. */
  lemma {:induction false} FirstKnownNominalLatches(st: ScaleState, readings: seq<Reading>, k: nat)
    requires ScaleValid(st) && st.mightNeedScale && !st.checked
    requires k < |readings|
    requires readings[k].nominal.Some? && readings[k].nominal.value != 0.0
    requires forall j :: 0 <= j < k ==> readings[j].nominal.None? || readings[j].nominal == Some(0.0)
    ensures FinalState(st, readings) == ScaleState(LatchedFactor(readings[k].value, readings[k].nominal.value), true, true)
    ensures forall i :: 0 <= i < k ==> Outputs(st, readings)[i] == readings[i].value
    ensures forall i :: k <= i < |readings| ==>
      Outputs(st, readings)[i] == LatchedFactor(readings[k].value, readings[k].nominal.value) * readings[i].value
    decreases k
  {
    if k == 0 {
      LatchAtFirstReading(st, readings);
    } else {
      var c := BattVoltFun(st, readings[0].value, readings[0].nominal);
      assert c.state == st && c.value == readings[0].value;
      FirstKnownNominalLatches(st, readings[1..], k - 1);
      assert forall i :: 1 <= i < |readings| ==> readings[1..][i - 1] == readings[i];
    }
  }

  /** From power-up, a U2600 (whose table entry marks it) latches at the
      first reading with a known, non-zero nominal voltage, exactly as the
      ratio rule says. */
  lemma MarkedSessionFromStart(readings: seq<Reading>, k: nat)
    requires k < |readings|
    requires readings[k].nominal.Some? && readings[k].nominal.value != 0.0
    requires forall j :: 0 <= j < k ==> readings[j].nominal.None? || readings[j].nominal == Some(0.0)
    ensures FinalState(MarkMightNeedScale(InitialScaleState), readings)
      == ScaleState(LatchedFactor(readings[k].value, readings[k].nominal.value), true, true)
    ensures forall i :: k <= i < |readings| ==>
      Outputs(MarkMightNeedScale(InitialScaleState), readings)[i]
        == LatchedFactor(readings[k].value, readings[k].nominal.value) * readings[i].value
  {
    FirstKnownNominalLatches(MarkMightNeedScale(InitialScaleState), readings, k);
  }

  /** While the nominal voltage is absent or zero the check stays pending:
      the state does not move and the reading passes through at scale 1. */
  lemma PendingWhileNominalUnknown(st: ScaleState, value: real, nominal: Option<real>)
    requires ScaleValid(st) && !st.checked
    requires nominal.None? || nominal == Some(0.0)
    ensures BattVoltFun(st, value, nominal).state == st
    ensures BattVoltFun(st, value, nominal).value == value
  {
  }

  /** A 24 V pack read at 40 V (ratio 1.67) latches 2/3: that reading
      becomes 80/3 (26.7 when printed), and a later reading is scaled too,
      even if the nominal voltage has changed meanwhile. */
  lemma HighReadingLatchesTwoThirds()
    ensures BattVoltFun(ScaleState(1.0, true, false), 40.0, Some(24.0)).state == ScaleState(TwoThirds, true, true)
    ensures BattVoltFun(ScaleState(1.0, true, false), 40.0, Some(24.0)).value == 80.0 / 3.0
    ensures BattVoltFun(ScaleState(TwoThirds, true, true), 27.0, Some(12.0)).value == 18.0
  {
  }

  /** A 24 V pack read at 25 V (ratio 1.04) latches scale 1. */
  lemma NormalReadingLatchesOne()
    ensures BattVoltFun(ScaleState(1.0, true, false), 25.0, Some(24.0)) == Converted(ScaleState(1.0, true, true), 25.0)
  {
  }

  /** zsp_battcharge_fun, value part: the charge is clamped to at most 100. */
  function BattChargeFun(value: real): (r: real)
    ensures r <= 100.0
    ensures value < 100.0 ==> r == value
    ensures value >= 100.0 ==> r == 100.0
  {
    if value < 100.0 then value else 100.0
  }

  /** The clamp never raises a value, and clamping twice is clamping once. */
  lemma BattChargeClampIsIdempotent(value: real)
    ensures BattChargeFun(value) <= value
    ensures BattChargeFun(BattChargeFun(value)) == BattChargeFun(value)
  {
  }
}
