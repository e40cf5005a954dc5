/** The description table for washers and dryers (LaundryCare). */
module LaundryCare {
  import opened Wrappers
  import opened Strings
  import opened Values
  import opened Descriptions
  import BinarySensor

  /** `value_on=("Poor")` and `value_off=("Filled")` are parenthesised
      strings, not one-element tuples. */
  const RefresherLevel: Description :=
    BinarySensorDescription("binary_sensor_refresher_level",
      entity := Some("LaundryCare.Dryer.Status.RefresherFillLevel"),
      entityCategory := Some(Diagnostic), deviceClass := Some(Problem),
      valueOn := Some(Text("Poor")), valueOff := Some(Text("Filled")))

  const LaundryTable: Table := [
    ("sensor", [
      SensorDescription("sensor_laundry_reload",
        entity := Some("LaundryCare.Common.Status.Laundry.Reload"),
        deviceClass := Some(EnumClass), hasStateTranslation := true)]),
    ("binary_sensor", [RefresherLevel]),
    ("select", [
      SelectDescription("select_auto_power_off",
        entity := Some("LaundryCare.Common.Setting.AutoPowerOff"),
        entityCategory := Some(Config), hasStateTranslation := true)])
  ]

  lemma LaundryTypeKeys()
    ensures DistinctTypeKeys(LaundryTable) && TypeKeysPrepared(LaundryTable)
    ensures forall i :: 0 <= i < |LaundryTable| ==> AllBindEntity(LaundryTable[i].1)
    ensures forall i :: 0 <= i < |LaundryTable| ==> AllOnOffSeparated(LaundryTable[i].1)
  {
  }

  /** The reload sensor is a translated enum and the auto-power-off select
      a translated configuration entity. */
  lemma LaundryTranslated()
    ensures LaundryTable[0].0 == "sensor" && LaundryTable[2].0 == "select"
    ensures var s := LaundryTable[0].1[0];
      s.SensorDescription? && s.deviceClass == Some(EnumClass) && s.hasStateTranslation
    ensures var s := LaundryTable[2].1[0];
      s.SelectDescription? && s.entityCategory == Some(Config) && s.hasStateTranslation
  {
  }

  /**
   * Because the refresher sets are strings, `is_on` tests substrings: the
   * value "Poo" reads as on, "Fill" as off, and a non-string value raises
   * TypeError.
   */
  lemma RefresherSubstringTest()
    ensures BinarySensor.IsOn(RefresherLevel, VStr("Poor")) == Ok(On)
    ensures BinarySensor.IsOn(RefresherLevel, VStr("Poo")) == Ok(On)
    ensures BinarySensor.IsOn(RefresherLevel, VStr("Fill")) == Ok(Off)
    ensures BinarySensor.IsOn(RefresherLevel, VStr("Empty")) == Ok(Unknown)
    ensures BinarySensor.IsOn(RefresherLevel, VInt(1)) == Err(TypeError)
  {
    assert OccursAt("Poor", "Poor", 0);
    assert OccursAt("Poo", "Poor", 0);
    assert OccursAt("Fill", "Filled", 0);
    assert !IsSubstring("Empty", "Poor");
    forall i | 0 <= i <= 1
      ensures !OccursAt("Empty", "Filled", i)
    {
      assert "Filled"[i..i + 5][0] == "Filled"[i] != 'E';
    }
  }
}
