/** The description table for the BSH.Common entities every appliance shares. */
module CommonDescriptions {
  import opened Wrappers
  import opened Descriptions

  const CommonTable: Table := [
    ("abort_button", [
      ButtonDescription("button_abort_program", entity := Some("BSH.Common.Command.AbortProgram"))]),
    ("active_program", [
      SensorDescription("sensor_active_program", entity := Some("BSH.Common.Root.ActiveProgram"),
        deviceClass := Some(EnumClass), hasStateTranslation := true)]),
    ("binary_sensor", [
      BinarySensorDescription("binary_sensor_door_state",
        entity := Some("BSH.Common.Status.DoorState"), deviceClass := Some(Door),
        valueOn := Some(Members({"Open"})), valueOff := Some(Members({"Closed"}))),
      BinarySensorDescription("binary_sensor_aqua_stop",
        deviceClass := Some(Problem), entity := Some("BSH.Common.Event.AquaStopOccured"),
        enabledByDefault := false,
        valueOn := Some(Members({"Present"})), valueOff := Some(Members({"Off", "Confirmed"})),
        entityCategory := Some(Diagnostic)),
      BinarySensorDescription("binary_sensor_low_water_pressure",
        deviceClass := Some(Problem), entity := Some("BSH.Common.Event.LowWaterPressure"),
        enabledByDefault := false,
        valueOn := Some(Members({"Present"})), valueOff := Some(Members({"Off", "Confirmed"})),
        entityCategory := Some(Diagnostic))]),
    ("power_switch", [
      SwitchDescription("switch_power_state", entity := Some("BSH.Common.Setting.PowerState"),
        deviceClass := Some(SwitchClass))]),
    ("program", [
      SelectDescription("select_program", entity := Some("BSH.Common.Root.SelectedProgram"),
        hasStateTranslation := true)]),
    ("select", [
      SelectDescription("select_remote_control_level",
        entity := Some("BSH.Common.Setting.RemoteControlLevel"),
        entityCategory := Some(Config), enabledByDefault := false, hasStateTranslation := true)]),
    ("sensor", [
      SensorDescription("sensor_remaining_program_time",
        entity := Some("BSH.Common.Option.RemainingProgramTime"), deviceClass := Some(Duration),
        nativeUnit := Some(Seconds), suggestedUnit := Some(Hours),
        extraAttributes := Some([ExtraAttribute("Is Estimated",
          "BSH.Common.Option.RemainingProgramTimeIsEstimated", None)])),
      SensorDescription("sensor_program_progress",
        entity := Some("BSH.Common.Option.ProgramProgress"), nativeUnit := Some(Percentage)),
      SensorDescription("sensor_operation_state",
        entity := Some("BSH.Common.Status.OperationState"), deviceClass := Some(EnumClass)),
      SensorDescription("sensor_start_in",
        entity := Some("BSH.Common.Option.StartInRelative"), deviceClass := Some(Duration),
        nativeUnit := Some(Seconds), suggestedUnit := Some(Hours)),
      SensorDescription("sensor_count_started",
        entity := Some("BSH.Common.Status.Program.All.Count.Started"),
        entityCategory := Some(Diagnostic), enabledByDefault := false,
        stateClass := Some(TotalIncreasing),
        extraAttributes := Some([
          ExtraAttribute("Last Start", "BSH.Common.Status.ProgramSessionSummary.Latest", Some("start")),
          ExtraAttribute("Last End", "BSH.Common.Status.ProgramSessionSummary.Latest", Some("end"))])),
      SensorDescription("sensor_end_trigger",
        entity := Some("BSH.Common.Status.ProgramRunDetail.EndTrigger"), deviceClass := Some(EnumClass),
        entityCategory := Some(Diagnostic), enabledByDefault := false, hasStateTranslation := true)]),
    ("start_button", [
      ButtonDescription("button_start_program", entity := Some("BSH.Common.Root.ActiveProgram"))]),
    ("start_in", [
      NumberDescription("select_start_in", entity := Some("BSH.Common.Option.StartInRelative"))])
  ]

  /** The table is a dict literal over prepared type keys, so filtering it
      never meets an unknown type key. */
  lemma CommonTypeKeys()
    ensures DistinctTypeKeys(CommonTable) && TypeKeysPrepared(CommonTable)
  {
  }

  /** Every description binds `entity` and none binds `entities`. */
  lemma CommonBindsEntity()
    ensures forall i :: 0 <= i < |CommonTable| ==> AllBindEntity(CommonTable[i].1)
  {
  }

  lemma CommonOnOffDisjoint()
    ensures forall i :: 0 <= i < |CommonTable| ==> AllOnOffSeparated(CommonTable[i].1)
  {
  }

  /** The active-program sensor and the start button watch one entity, and
      so do the start-in number and the start-in sensor. */
  lemma CommonSharedEntities()
    ensures CommonTable[1].0 == "active_program" && CommonTable[7].0 == "start_button"
    ensures CommonTable[1].1[0].entity == CommonTable[7].1[0].entity
         == Some("BSH.Common.Root.ActiveProgram")
    ensures CommonTable[8].0 == "start_in" && CommonTable[6].0 == "sensor"
    ensures CommonTable[8].1[0].entity == CommonTable[6].1[3].entity
         == Some("BSH.Common.Option.StartInRelative")
  {
  }

  /** Both extra attributes of the started-programs counter read the latest
      program session summary, one its "start" and one its "end" field. */
  lemma CountStartedAttributes()
    ensures var d := CommonTable[6].1[4];
      d.key == "sensor_count_started"
      && d.extraAttributes.Some? && |d.extraAttributes.value| == 2
      && (forall a :: a in d.extraAttributes.value ==>
            a.entity == "BSH.Common.Status.ProgramSessionSummary.Latest")
      && d.extraAttributes.value[0].field == Some("start")
      && d.extraAttributes.value[1].field == Some("end")
  {
  }
}
