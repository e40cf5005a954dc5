/** The description table for refrigerators and freezers. */
module Refrigeration {
  import opened Wrappers
  import opened Descriptions

  const RefrigerationTable: Table := [
    ("binary_sensor", [
      BinarySensorDescription("binary_sensor_door_state",
        entity := Some("Refrigeration.Common.Status.Door.Freezer"), deviceClass := Some(Door),
        valueOn := Some(Members({"Open"})), valueOff := Some(Members({"Closed"}))),
      BinarySensorDescription("binary_sensor_door_state",
        entity := Some("Refrigeration.Common.Status.Door.Refrigerator"), deviceClass := Some(Door),
        valueOn := Some(Members({"Open"})), valueOff := Some(Members({"Closed"})))])
  ]

  /** One type key, two door sensors sharing a key but not an entity, each
      with disjoint open/closed sets. */
  lemma RefrigerationDoors()
    ensures |RefrigerationTable| == 1 && RefrigerationTable[0].0 == "binary_sensor"
    ensures TypeKeysPrepared(RefrigerationTable)
    ensures var ds := RefrigerationTable[0].1;
      |ds| == 2 && ds[0].key == ds[1].key && ds[0].entity != ds[1].entity
      && AllBindEntity(ds) && AllOnOffSeparated(ds)
  {
  }
}
