/**
 * The flat description lists that the sensor, switch, binary sensor,
 * select, number and button platforms filter by the appliance's entities.
 */
module FlatDescriptions {
  import opened Wrappers
  import opened Descriptions

  const BinarySensors: seq<Description> := [
    BinarySensorDescription("binary_sensor_door_state",
      entity := Some("BSH.Common.Status.DoorState"), deviceClass := Some(Door),
      valueOn := Some(Members({"Open"})), valueOff := Some(Members({"Closed"}))),
    BinarySensorDescription("binary_sensor_door_state",
      entity := Some("Refrigeration.Common.Status.Door.Freezer"), deviceClass := Some(Door),
      valueOn := Some(Members({"Open"})), valueOff := Some(Members({"Closed"}))),
    BinarySensorDescription("binary_sensor_door_state",
      entity := Some("Refrigeration.Common.Status.Door.Refrigerator"), deviceClass := Some(Door),
      valueOn := Some(Members({"Open"})), valueOff := Some(Members({"Closed"}))),
    BinarySensorDescription("binary_sensor_eco_dry_active",
      entity := Some("Dishcare.Dishwasher.Status.EcoDryActive"), enabledByDefault := false),
    BinarySensorDescription("binary_sensor_aqua_stop",
      deviceClass := Some(Problem), entity := Some("BSH.Common.Event.AquaStopOccured"),
      enabledByDefault := false,
      valueOn := Some(Members({"Present"})), valueOff := Some(Members({"Off", "Confirmed"})),
      entityCategory := Some(Diagnostic)),
    BinarySensorDescription("binary_sensor_low_water_pressure",
      deviceClass := Some(Problem), entity := Some("BSH.Common.Event.LowWaterPressure"),
      enabledByDefault := false,
      valueOn := Some(Members({"Present"})), valueOff := Some(Members({"Off", "Confirmed"})),
      entityCategory := Some(Diagnostic))
  ]

  const Connection: Description :=
    BinarySensorDescription("connection", deviceClass := Some(Connectivity),
      entityCategory := Some(Diagnostic))

  const Sensors: seq<Description> := [
    SensorDescription("sensor_remaining_program_time",
      entity := Some("BSH.Common.Option.RemainingProgramTime"), deviceClass := Some(Duration),
      nativeUnit := Some(Seconds), suggestedUnit := Some(Hours),
      extraAttributes := Some([ExtraAttribute("Is Estimated",
        "BSH.Common.Option.RemainingProgramTimeIsEstimated", None)])),
    SensorDescription("sensor_program_progress",
      entity := Some("BSH.Common.Option.ProgramProgress"), nativeUnit := Some(Percentage)),
    SensorDescription("sensor_operation_state",
      entity := Some("BSH.Common.Status.OperationState"), deviceClass := Some(EnumClass)),
    SensorDescription("sensor_program_phase",
      entity := Some("Dishcare.Dishwasher.Status.ProgramPhase"), deviceClass := Some(EnumClass)),
    SensorDescription("sensor_start_in",
      entity := Some("BSH.Common.Option.StartInRelative"), deviceClass := Some(Duration),
      nativeUnit := Some(Seconds), suggestedUnit := Some(Hours)),
    SensorDescription("sensor_count_started",
      entity := Some("BSH.Common.Status.Program.All.Count.Started"),
      entityCategory := Some(Diagnostic), enabledByDefault := false,
      stateClass := Some(TotalIncreasing),
      extraAttributes := Some([
        ExtraAttribute("Last Start", "BSH.Common.Status.ProgramSessionSummary.Latest", Some("start")),
        ExtraAttribute("Last End", "BSH.Common.Status.ProgramSessionSummary.Latest", Some("end"))])),
    SensorDescription("sensor_end_trigger",
      entity := Some("BSH.Common.Status.ProgramRunDetail.EndTrigger"), deviceClass := Some(EnumClass),
      entityCategory := Some(Diagnostic), enabledByDefault := false, hasStateTranslation := true),
    SensorDescription("sensor_interval_time_off",
      entity := Some("Cooking.Hood.Setting.IntervalTimeOff"), deviceClass := Some(Duration),
      nativeUnit := Some(Seconds)),
    SensorDescription("sensor_interval_time_on",
      entity := Some("Cooking.Hood.Setting.IntervalTimeOn"), deviceClass := Some(Duration),
      nativeUnit := Some(Seconds)),
    SensorDescription("sensor_delayed_shutoff_time",
      entity := Some("Cooking.Hood.Setting.DelayedShutOffTime"), deviceClass := Some(Duration),
      nativeUnit := Some(Seconds))
  ]

  const EventSensors: seq<Description> := [
    SensorDescription("sensor_rinse_aid",
      entities := Some(["Dishcare.Dishwasher.Event.RinseAidLack",
                        "Dishcare.Dishwasher.Event.RinseAidNearlyEmpty"]),
      deviceClass := Some(EnumClass), options := Some(["empty", "nearly_empty", "full"])),
    SensorDescription("sensor_salt",
      entities := Some(["Dishcare.Dishwasher.Event.SaltLack",
                        "Dishcare.Dishwasher.Event.SaltNearlyEmpty"]),
      deviceClass := Some(EnumClass), options := Some(["empty", "nearly_empty", "full"]))
  ]

  const ActiveProgram: Description :=
    SensorDescription("sensor_active_program", entity := Some("BSH.Common.Root.ActiveProgram"),
      deviceClass := Some(EnumClass), hasStateTranslation := true)

  const Switches: seq<Description> := [
    SwitchDescription("switch_hygiene_plus",
      entity := Some("Dishcare.Dishwasher.Option.HygienePlus"), deviceClass := Some(SwitchClass)),
    SwitchDescription("switch_intensiv_zone",
      entity := Some("Dishcare.Dishwasher.Option.IntensivZone"), deviceClass := Some(SwitchClass)),
    SwitchDescription("switch_vario_speed_plus",
      entity := Some("Dishcare.Dishwasher.Option.VarioSpeedPlus"), deviceClass := Some(SwitchClass)),
    SwitchDescription("switch_silence_on_demand",
      entity := Some("Dishcare.Dishwasher.Option.SilenceOnDemand"), deviceClass := Some(SwitchClass)),
    SwitchDescription("switch_brilliance_dry",
      entity := Some("Dishcare.Dishwasher.Option.BrillianceDry"), deviceClass := Some(SwitchClass)),
    SwitchDescription("switch_extra_dry",
      entity := Some("Dishcare.Dishwasher.Setting.ExtraDry"), deviceClass := Some(SwitchClass),
      entityCategory := Some(Config), enabledByDefault := false),
    SwitchDescription("switch_speed_on_demand",
      entity := Some("Dishcare.Dishwasher.Setting.SpeedOnDemand"), deviceClass := Some(SwitchClass),
      entityCategory := Some(Config), enabledByDefault := false),
    SwitchDescription("switch_info_light",
      entity := Some("Dishcare.Dishwasher.Setting.InfoLight"), deviceClass := Some(SwitchClass),
      entityCategory := Some(Config), enabledByDefault := false)
  ]

  const PowerSwitch: Description :=
    SwitchDescription("switch_power_state", entity := Some("BSH.Common.Setting.PowerState"),
      deviceClass := Some(SwitchClass))

  const Selects: seq<Description> := [
    SelectDescription("select_drying_assistant_all_programs",
      entity := Some("Dishcare.Dishwasher.Setting.DryingAssistantAllPrograms"),
      entityCategory := Some(Config), enabledByDefault := false, hasStateTranslation := true),
    SelectDescription("select_hot_water",
      entity := Some("Dishcare.Dishwasher.Setting.HotWater"),
      entityCategory := Some(Config), enabledByDefault := false, hasStateTranslation := true),
    SelectDescription("select_rinse_aid",
      entity := Some("Dishcare.Dishwasher.Setting.RinseAid"),
      entityCategory := Some(Config), enabledByDefault := false),
    SelectDescription("select_sound_level_signal",
      entity := Some("Dishcare.Dishwasher.Setting.SoundLevelSignal"),
      entityCategory := Some(Config), enabledByDefault := false, hasStateTranslation := true),
    SelectDescription("select_water_hardness",
      entity := Some("Dishcare.Dishwasher.Setting.WaterHardness"),
      entityCategory := Some(Config), enabledByDefault := false),
    SelectDescription("select_remote_control_level",
      entity := Some("BSH.Common.Setting.RemoteControlLevel"),
      entityCategory := Some(Config), enabledByDefault := false, hasStateTranslation := true),
    SelectDescription("select_sensitivity_turbidity",
      entity := Some("Dishcare.Dishwasher.Setting.SensitivityTurbidity"),
      entityCategory := Some(Config), enabledByDefault := false, hasStateTranslation := true),
    SelectDescription("select_eco_as_default",
      entity := Some("Dishcare.Dishwasher.Setting.EcoAsDefault"),
      entityCategory := Some(Config), enabledByDefault := false, hasStateTranslation := true)
  ]

  const StartIn: Description :=
    NumberDescription("select_start_in", entity := Some("BSH.Common.Option.StartInRelative"))

  const SelectedProgram: Description :=
    SelectDescription("select_program", entity := Some("BSH.Common.Root.SelectedProgram"),
      hasStateTranslation := true)

  const AbortProgram: Description :=
    ButtonDescription("button_abort_program", entity := Some("BSH.Common.Command.AbortProgram"))

  const StartProgram: Description :=
    ButtonDescription("button_start_program", entity := Some("BSH.Common.Root.ActiveProgram"))

  const Numbers: seq<Description> := []

  /** Every list description and every single description binds exactly
      one of `entity` and `entities`; the connection sensor binds neither. */
  lemma EntityXorEntities()
    ensures AllBindOne(BinarySensors) && AllBindOne(Sensors) && AllBindOne(EventSensors)
    ensures AllBindOne(Switches) && AllBindOne(Selects) && AllBindOne(Numbers)
    ensures AllBindOne([ActiveProgram, PowerSwitch, StartIn, SelectedProgram, AbortProgram, StartProgram])
    ensures Connection.entity.None? && Connection.entities.None?
  {
    BinarySensorsBindOne();
    SensorsBindOne();
    EventSensorsBindOne();
    SwitchesBindOne();
    SelectsBindOne();
  }

  lemma BinarySensorsBindOne() ensures AllBindOne(BinarySensors) { }
  lemma SensorsBindOne() ensures AllBindOne(Sensors) { }
  lemma EventSensorsBindOne() ensures AllBindOne(EventSensors) { }
  lemma SwitchesBindOne() ensures AllBindOne(Switches) { }
  lemma SelectsBindOne() ensures AllBindOne(Selects) { }

  /** `value_on` and `value_off` never overlap, and every binary sensor
      that sets `value_on` sets `value_off` too. */
  lemma OnOffSetsDisjoint()
    ensures AllOnOffSeparated(BinarySensors)
    ensures forall j :: 0 <= j < |BinarySensors| && BinarySensors[j].valueOn.Some? ==>
      BinarySensors[j].valueOff.Some?
  {
  }

  /** Each event sensor has one option per event entity and then the
      fallback, which is "full" for both. */
  lemma EventSensorFallback()
    ensures AllHaveFallback(EventSensors)
    ensures forall j :: 0 <= j < |EventSensors| ==>
      EventSensors[j].options.value[|EventSensors[j].options.value| - 1] == "full"
  {
  }

  /** The default access levels the classes give the table entries. */
  lemma TableAccessDefaults()
    ensures forall j :: 0 <= j < |BinarySensors| ==> BinarySensors[j].availableAccess == Some(ReadAccess)
    ensures forall j :: 0 <= j < |Sensors| ==> Sensors[j].availableAccess == Some(ReadAccess)
    ensures forall j :: 0 <= j < |Switches| ==> Switches[j].availableAccess == Some(WriteAccess)
    ensures forall j :: 0 <= j < |Selects| ==> Selects[j].availableAccess == Some(WriteAccess)
    ensures AbortProgram.availableAccess == Some(WriteAccess) && StartIn.availableAccess == Some(WriteAccess)
  {
  }

  /** The active-program sensor and the start button watch the same entity;
      the start-in number and the start-in sensor do too. */
  lemma SharedEntities()
    ensures ActiveProgram.entity == StartProgram.entity == Some("BSH.Common.Root.ActiveProgram")
    ensures StartIn.entity == Sensors[4].entity == Some("BSH.Common.Option.StartInRelative")
  {
  }

  /** Keys are not unique: one key labels three different door entities. */
  lemma DoorKeyShared()
    ensures BinarySensors[0].key == BinarySensors[1].key == BinarySensors[2].key
    ensures BinarySensors[0].entity != BinarySensors[1].entity
    ensures BinarySensors[1].entity != BinarySensors[2].entity
    ensures BinarySensors[0].entity != BinarySensors[2].entity
  {
  }

  lemma NoNumbers()
    ensures |Numbers| == 0
  {
  }
}
