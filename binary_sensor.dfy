/**
 * Binary sensors: the on/off rule over `value_on` / `value_off`, the
 * connection sensor's unique id and state, and the platform's entity list.
 */
module BinarySensor {
  import opened Wrappers
  import opened Strings
  import opened Values
  import opened Appliance
  import opened Descriptions

  /** `if value_on:` -- a set or string that is present and not empty. */
  predicate TruthySet(vs: Option<ValueSet>) {
    match vs
    case None => false
    case Some(Members(m)) => m != {}
    case Some(Text(t)) => t != ""
  }

  /**
   * `value in vs`.  Against a set only a string can be a member; against a
   * plain string the test is a substring test, and a value that is not a
   * string raises TypeError, as does a test against None.
   */
  function In(v: Value, vs: Option<ValueSet>): (r: Result<bool>)
    ensures vs.None? ==> r == Err(TypeError)
    ensures vs.Some? && vs.value.Members? ==> r == Ok(v.VStr? && v.s in vs.value.members)
    ensures vs.Some? && vs.value.Text? ==>
      (r.Ok? <==> v.VStr?) && (r.Ok? ==> (r.value <==> IsSubstring(v.s, vs.value.text)))
  {
    match vs
    case None => Err(TypeError)
    case Some(Members(m)) => Ok(v.VStr? && v.s in m)
    case Some(Text(t)) => if v.VStr? then Ok(IsSubstring(v.s, t)) else Err(TypeError)
  }

  /** `HCBinarySensor.is_on` for an entity whose current value is `v`. */
  function IsOn(d: Description, v: Value): (r: Result<TriState>)
    requires d.BinarySensorDescription?
    // without value_on, the value's truthiness decides
    ensures !TruthySet(d.valueOn) ==> r == Ok(if Truthy(v) then On else Off)
    // with set-valued value_on/value_off: on first, then off, else unknown
    ensures TruthySet(d.valueOn) && d.valueOn.value.Members? ==>
      (r == Ok(On) <==> v.VStr? && v.s in d.valueOn.value.members)
    ensures TruthySet(d.valueOn) && d.valueOn.value.Members? && d.valueOff.Some? && d.valueOff.value.Members? ==>
      r.Ok?
      && (r.value == Off <==> v.VStr? && v.s !in d.valueOn.value.members && v.s in d.valueOff.value.members)
      && (r.value == Unknown <==>
            !(v.VStr? && (v.s in d.valueOn.value.members || v.s in d.valueOff.value.members)))
    // value_on without value_off fails for any value outside value_on
    ensures TruthySet(d.valueOn) && d.valueOff.None? ==> (r.Err? <==> In(v, d.valueOn) != Ok(true))
  {
    if TruthySet(d.valueOn) then
      match In(v, d.valueOn)
      case Err(e) => Err(e)
      case Ok(true) => Ok(On)
      case Ok(false) =>
        match In(v, d.valueOff)
        case Err(e) => Err(e)
        case Ok(off) => Ok(if off then Off else Unknown)
    else
      Ok(if Truthy(v) then On else Off)
  }

  /** A value in both sets counts as on: `value_on` is tested first. */
  lemma OverlapMeansOn(d: Description, s: string)
    requires d.BinarySensorDescription? && d.valueOn == Some(Members({s}))
    ensures IsOn(d, VStr(s)) == Ok(On)
  {
  }

  /** With disjoint sets, every value of `value_off` reads as off and every
      value of `value_on` as on. */
  lemma DisjointSetsDecide(d: Description, v: Value)
    requires d.BinarySensorDescription? && OnOffSeparated(d) && TruthySet(d.valueOn)
    requires d.valueOn.value.Members?
    ensures v.VStr? && v.s in d.valueOn.value.members ==> IsOn(d, v) == Ok(On)
    ensures v.VStr? && v.s in d.valueOff.value.members ==> IsOn(d, v) == Ok(Off)
  {
  }

  /** With separated texts, the `value_on` text reads as on and the
      `value_off` text as off. */
  lemma SeparatedTextsDecide(d: Description)
    requires d.BinarySensorDescription? && OnOffSeparated(d) && TruthySet(d.valueOn)
    requires d.valueOn.value.Text? && d.valueOff.Some? && d.valueOff.value.Text?
    ensures IsOn(d, VStr(d.valueOn.value.text)) == Ok(On)
    ensures IsOn(d, VStr(d.valueOff.value.text)) == Ok(Off)
  {
    var on, off := d.valueOn.value.text, d.valueOff.value.text;
    assert OccursAt(on, on, 0);
    assert OccursAt(off, off, 0);
  }

  /** `f"{appliance.info['deviceID']}-{key}"`; KeyError without a device id. */
  function ConnectionUniqueId(info: map<string, string>, key: string): (r: Result<string>)
    ensures r.Err? <==> "deviceID" !in info
    ensures r.Err? ==> r.error == KeyError
    ensures r.Ok? ==>
      && |r.value| == |info["deviceID"]| + 1 + |key|
      && r.value[..|info["deviceID"]|] == info["deviceID"]
      && r.value[|info["deviceID"]|] == '-'
      && r.value[|info["deviceID"]| + 1..] == key
  {
    if "deviceID" in info then Ok(info["deviceID"] + "-" + key) else Err(KeyError)
  }

  /** Two connection sensors of one appliance get different ids exactly
      when their keys differ. */
  lemma {:induction false} UniqueIdPerKey(info: map<string, string>, k1: string, k2: string)
    requires "deviceID" in info
    ensures ConnectionUniqueId(info, k1) == ConnectionUniqueId(info, k2) <==> k1 == k2
  {
    var a, b := ConnectionUniqueId(info, k1).value, ConnectionUniqueId(info, k2).value;
    var d := info["deviceID"];
    if a == b {
      assert k1 == a[|d| + 1..] == b[|d| + 1..] == k2;
    }
  }

  /** Connection sensors of two appliances get different ids exactly when
      the appliances' device ids differ. */
  lemma {:induction false} UniqueIdPerDevice(info1: map<string, string>, info2: map<string, string>, key: string)
    requires "deviceID" in info1 && "deviceID" in info2
    ensures ConnectionUniqueId(info1, key) == ConnectionUniqueId(info2, key)
        <==> info1["deviceID"] == info2["deviceID"]
  {
    var a, b := ConnectionUniqueId(info1, key).value, ConnectionUniqueId(info2, key).value;
    var d1, d2 := info1["deviceID"], info2["deviceID"];
    if a == b {
      assert |d1| == |d2|;
      assert d1 == a[..|d1|] == b[..|d2|] == d2;
    }
  }

  /** `HCConnectionSensor.is_on`: the session's connected flag. */
  function ConnectionIsOn(a: HomeAppliance): (r: bool)
    ensures r <==> a.connected
  {
    a.connected
  }

  /** An entity the binary sensor platform creates. */
  datatype BinarySensorEntity =
    | Sensor(description: Description)
    | ConnectionSensor(description: Description)

  /**
   * The platform's entity list: one binary sensor per available description
   * (the filtering helper is not part of this model, so its result is the
   * input), then the connection sensor.
   */
  function SetupEntities(available: seq<Description>, connection: Description): (r: seq<BinarySensorEntity>)
    ensures |r| == |available| + 1
    ensures forall i :: 0 <= i < |available| ==> r[i] == Sensor(available[i])
    ensures r[|available|] == ConnectionSensor(connection)
    ensures forall i :: 0 <= i < |r| && r[i].ConnectionSensor? ==> i == |available|
  {
    seq(|available|, i requires 0 <= i < |available| => Sensor(available[i])) + [ConnectionSensor(connection)]
  }
}
