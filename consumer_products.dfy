/** The description table for coffee machines (ConsumerProducts.CoffeeMaker). */
module ConsumerProducts {
  import opened Wrappers
  import opened Descriptions

  function CoffeeSelect(key: string, entity: string): Description {
    SelectDescription(key, entity := Some(entity), deviceClass := Some(EnumClass),
      hasStateTranslation := true)
  }

  function BeverageCountdown(key: string, entity: string): Description {
    SensorDescription(key, entity := Some(entity), enabledByDefault := false,
      stateClass := Some(Measurement))
  }

  function BeverageCounter(key: string, entity: string): Description {
    SensorDescription(key, entity := Some(entity), enabledByDefault := false,
      stateClass := Some(TotalIncreasing))
  }

  const CoffeeSelects: seq<Description> := [
    CoffeeSelect("select_coffee_temperature", "ConsumerProducts.CoffeeMaker.Option.CoffeeTemperature"),
    CoffeeSelect("select_bean_amount", "ConsumerProducts.CoffeeMaker.Option.BeanAmount"),
    CoffeeSelect("select_beverage_size", "ConsumerProducts.CoffeeMaker.Option.BeverageSize"),
    CoffeeSelect("select_coffee_milk_ratio", "ConsumerProducts.CoffeeMaker.Option.CoffeeMilkRatio"),
    CoffeeSelect("select_hot_water_temperature", "ConsumerProducts.CoffeeMaker.Option.HotWaterTemperature"),
    CoffeeSelect("select_flow_rate", "ConsumerProducts.CoffeeMaker.Option.FlowRate"),
    CoffeeSelect("select_coarsness", "ConsumerProducts.CoffeeMaker.Option.Coarsness"),
    CoffeeSelect("select_coffee_strength", "ConsumerProducts.CoffeeMaker.Option.CoffeeStrength"),
    CoffeeSelect("select_aroma_select", "ConsumerProducts.CoffeeMaker.Option.AromaSelect"),
    CoffeeSelect("select_bean_container", "ConsumerProducts.CoffeeMaker.Option.BeanContainerSelection"),
    CoffeeSelect("select_shot_count", "ConsumerProducts.CoffeeMaker.Option.Shot.Count"),
    CoffeeSelect("select_cups", "ConsumerProducts.CoffeeMaker.Option.Cups")
  ]

  const Countdowns: seq<Description> := [
    BeverageCountdown("sensor_countdown_calc_n_clean",
      "ConsumerProducts.CoffeeMaker.Status.BeverageCountdownCalcNClean"),
    BeverageCountdown("sensor_countdown_cleaning",
      "ConsumerProducts.CoffeeMaker.Status.BeverageCountdownCleaning"),
    BeverageCountdown("sensor_countdown_descaling",
      "ConsumerProducts.CoffeeMaker.Status.BeverageCountdownDescaling"),
    BeverageCountdown("sensor_countdown_water_filter",
      "ConsumerProducts.CoffeeMaker.Status.BeverageCountdownWaterfilter")
  ]

  const Counters: seq<Description> := [
    BeverageCounter("sensor_count_ristretto_espresso",
      "ConsumerProducts.CoffeeMaker.Status.BeverageCounterRistrettoEspresso"),
    BeverageCounter("sensor_count_coffee", "ConsumerProducts.CoffeeMaker.Status.BeverageCounterCoffee"),
    BeverageCounter("sensor_count_coffee_milk",
      "ConsumerProducts.CoffeeMaker.Status.BeverageCounterCoffeeAndMilk"),
    BeverageCounter("sensor_count_frothy_milk",
      "ConsumerProducts.CoffeeMaker.Status.BeverageCounterFrothyMilk"),
    BeverageCounter("sensor_count_hot_milk", "ConsumerProducts.CoffeeMaker.Status.BeverageCounterHotMilk"),
    BeverageCounter("sensor_count_hot_water", "ConsumerProducts.CoffeeMaker.Status.BeverageCounterHotWater"),
    BeverageCounter("sensor_count_hot_water_cups",
      "ConsumerProducts.CoffeeMaker.Status.BeverageCounterHotWaterCups"),
    BeverageCounter("sensor_count_powder_coffee",
      "ConsumerProducts.CoffeeMaker.Status.BeverageCounterPowderCoffee")
  ]

  const ProcessPhase: Description :=
    SensorDescription("sensor_coffeemaker_process_phase",
      entity := Some("ConsumerProducts.CoffeeMaker.Status.ProcessPhase"), enabledByDefault := false,
      deviceClass := Some(EnumClass), hasStateTranslation := true)

  const ConsumerProductsTable: Table := [
    ("binary_sensor", [
      BinarySensorDescription("binary_sensor_bean_container_empty",
        entity := Some("ConsumerProducts.CoffeeMaker.Event.BeanContainerEmpty"),
        deviceClass := Some(Problem),
        valueOn := Some(Members({"Present"})), valueOff := Some(Members({"Off", "Confirmed"})))]),
    ("event_sensor", [
      SensorDescription("sensor_water_tank",
        entities := Some(["ConsumerProducts.CoffeeMaker.Event.WaterTankEmpty",
                          "ConsumerProducts.CoffeeMaker.Event.WaterTankNearlyEmpty",
                          "ConsumerProducts.CoffeeMaker.Event.WaterTankNotInserted"]),
        deviceClass := Some(EnumClass),
        options := Some(["empty", "nearly_empty", "not_inserted", "full"])),
      SensorDescription("sensor_drip_tray",
        entities := Some(["ConsumerProducts.CoffeeMaker.Event.DripTrayFull",
                          "ConsumerProducts.CoffeeMaker.Event.DripTrayNotInserted"]),
        deviceClass := Some(EnumClass),
        options := Some(["full", "not_inserted", "ok"]))]),
    ("select", CoffeeSelects),
    ("switch", [
      SwitchDescription("switch_multiple_beverages",
        entity := Some("ConsumerProducts.CoffeeMaker.Option.MultipleBeverages"),
        deviceClass := Some(SwitchClass))]),
    ("number", [
      NumberDescription("number_fill_quantity",
        entity := Some("ConsumerProducts.CoffeeMaker.Option.FillQuantity"),
        deviceClass := Some(Volume), nativeUnit := Some(Milliliters), mode := Some(Box))]),
    ("sensor", Countdowns + Counters + [ProcessPhase])
  ]

  lemma ConsumerProductsTypeKeys()
    ensures DistinctTypeKeys(ConsumerProductsTable) && TypeKeysPrepared(ConsumerProductsTable)
  {
  }

  lemma ConsumerProductsBindOne()
    ensures forall i :: 0 <= i < |ConsumerProductsTable| ==> AllBindOne(ConsumerProductsTable[i].1)
  {
    forall i | 0 <= i < |ConsumerProductsTable| ensures AllBindOne(ConsumerProductsTable[i].1) {
      EntryBindsOne(i);
    }
  }

  lemma EntryBindsOne(i: nat)
    requires i < |ConsumerProductsTable|
    ensures AllBindOne(ConsumerProductsTable[i].1)
  {
    if i == 0 {
      assert AllBindOne(ConsumerProductsTable[0].1);
    } else if i == 1 {
      assert AllBindOne(ConsumerProductsTable[1].1);
    } else if i == 2 {
      assert AllBindOne(ConsumerProductsTable[2].1);
    } else {
      assert AllBindOne(ConsumerProductsTable[i].1);
    }
  }

  /** The water tank has three events and four options, the drip tray two
      events and three options. */
  lemma ConsumerProductsEventFallback()
    ensures forall i :: 0 <= i < |ConsumerProductsTable| && ConsumerProductsTable[i].0 == "event_sensor" ==>
      AllHaveFallback(ConsumerProductsTable[i].1)
    ensures var ev := ConsumerProductsTable[1].1;
      ConsumerProductsTable[1].0 == "event_sensor"
      && |ev| == 2 && |ev[0].entities.value| == 3 && |ev[1].entities.value| == 2
  {
  }

  lemma ConsumerProductsOnOffDisjoint()
    ensures forall i :: 0 <= i < |ConsumerProductsTable| ==> AllOnOffSeparated(ConsumerProductsTable[i].1)
  {
  }

  /** Every coffee-machine select translates its states. */
  lemma SelectsTranslate()
    ensures ConsumerProductsTable[2].0 == "select"
    ensures var sel := ConsumerProductsTable[2].1;
      |sel| == 12 && forall j :: 0 <= j < |sel| ==> sel[j].SelectDescription? && sel[j].hasStateTranslation
  {
  }

  /** Beverage counters only grow; beverage countdowns are measurements. */
  lemma SensorStateClasses()
    ensures forall j :: 0 <= j < |Counters| ==> Counters[j].stateClass == Some(TotalIncreasing)
    ensures forall j :: 0 <= j < |Countdowns| ==> Countdowns[j].stateClass == Some(Measurement)
    ensures ConsumerProductsTable[5] == ("sensor", Countdowns + Counters + [ProcessPhase])
  {
  }
}
