/**
 * Sensor entities: enum sensors with their options and translated value,
 * event sensors that name the first event present, and the active-program
 * sensor.
 */
module Sensor {
  import opened Wrappers
  import opened Strings
  import opened Values
  import opened Appliance
  import opened Descriptions
  import Select

  // -------------------------------------------------------------- HCSensor

  /** The options `HCSensor.__init__` assigns: the enum labels, lowercased
      when the states are translated; none for an entity without an enum. */
  function SensorOptions(translate: bool, e: HcEntity): (r: Option<seq<string>>)
    ensures r.Some? <==> HasEnum(e)
    ensures r.Some? ==> r.value == Select.LabelOptions(EnumLabels(e.enumeration.value), translate)
  {
    if HasEnum(e) then Some(Select.LabelOptions(EnumLabels(e.enumeration.value), translate)) else None
  }

  /** `HCSensor.native_value`: the lowercased `str` of the value for a
      translated enum entity, the raw value otherwise. */
  function NativeValue(translate: bool, e: HcEntity): (r: Value)
    ensures HasEnum(e) && translate ==> r.VStr? && Lower(r.s) == r.s
    ensures HasEnum(e) && translate ==> r == VStr(Lower(Str(e.value)))
    ensures HasEnum(e) && translate && e.value.VStr? ==> r.s == Lower(e.value.s)
    ensures HasEnum(e) && translate && e.value == VNone ==> r == VStr("none")
    ensures !(HasEnum(e) && translate) ==> r == e.value
  {
    if HasEnum(e) && translate then
      LowerIdempotent(Str(e.value));
      VStr(Lower(Str(e.value)))
    else e.value
  }

  /** An enum entity whose value is one of its labels shows a value that is
      one of its options, translated or not. */
  lemma NativeValueInOptions(translate: bool, e: HcEntity, i: nat)
    requires HasEnum(e) && i < |e.enumeration.value|
    requires e.value == VStr(e.enumeration.value[i].text)
    ensures SensorOptions(translate, e).Some?
    ensures var v := NativeValue(translate, e);
      v.VStr? && v.s == SensorOptions(translate, e).value[i]
  {
  }

  /** Without translation, an enum sensor's options are its labels as they
      are. */
  lemma UntranslatedOptionsAreLabels(e: HcEntity)
    requires HasEnum(e)
    ensures SensorOptions(false, e) == Some(EnumLabels(e.enumeration.value))
  {
    assert Select.LabelOptions(EnumLabels(e.enumeration.value), false) == EnumLabels(e.enumeration.value);
  }

  // --------------------------------------------------------- HCEventSensor

  /** No value before index `i` is the string "Present". */
  predicate NoneBefore(values: seq<Value>, i: nat)
    requires i <= |values|
  {
    forall j :: 0 <= j < i ==> values[j] != VStr("Present")
  }

  /** The first of the first `n` entity values that is the string
      "Present", or `n` when there is none. */
  function FirstPresent(values: seq<Value>, n: nat): (i: nat)
    requires n <= |values|
    ensures i <= n
    ensures NoneBefore(values, i)
    ensures i < n ==> values[i] == VStr("Present")
    decreases n
  {
    if n == 0 then 0
    else
      var i := FirstPresent(values, n - 1);
      if i < n - 1 then i
      else if values[n - 1] == VStr("Present") then n - 1
      else n
  }

  /**
   * `HCEventSensor.native_value` over the values of the sensor's event
   * entities, in description order: the option paired with the first
   * entity whose value is "Present", pairing stopping at the shorter of the
   * two lists; else the last option.  No options raise TypeError (zipping
   * None), an empty option list IndexError.
   */
  function EventValue(values: seq<Value>, options: Option<seq<string>>): (r: Result<string>)
    ensures options.None? ==> r == Err(TypeError)
    ensures options.Some? ==>
      var n := if |values| < |options.value| then |values| else |options.value|;
      && (forall i :: 0 <= i < n && values[i] == VStr("Present") && NoneBefore(values, i) ==> r == Ok(options.value[i]))
      && ((forall i :: 0 <= i < n ==> values[i] != VStr("Present")) ==>
            r == if options.value == [] then Err(IndexError) else Ok(options.value[|options.value| - 1]))
  {
    match options
    case None => Err(TypeError)
    case Some(opts) =>
      var n := if |values| < |opts| then |values| else |opts|;
      var i := FirstPresent(values, n);
      if i < n then Ok(opts[i])
      else if opts == [] then Err(IndexError)
      else Ok(opts[|opts| - 1])
  }

  /** For a description with one option per entity plus the fallback,
      every event entity is paired, and the value is the fallback exactly
      when no event is present, as long as the fallback differs from the
      other options. */
  lemma {:induction false} FallbackIffNoEvent(d: Description, values: seq<Value>)
    requires HasFallbackOption(d) && |values| == |d.entities.value|
    requires forall i :: 0 <= i < |values| ==> d.options.value[i] != d.options.value[|values|]
    ensures EventValue(values, d.options).Ok?
    ensures EventValue(values, d.options).value == d.options.value[|values|]
        <==> forall i :: 0 <= i < |values| ==> values[i] != VStr("Present")
  {
    var i := FirstPresent(values, |values|);
    if i < |values| {
      assert EventValue(values, d.options) == Ok(d.options.value[i]);
    }
  }

  /** `FirstPresent` looks at the first `n` values only. */
  lemma {:induction false} FirstPresentPrefix(a: seq<Value>, b: seq<Value>, n: nat)
    requires n <= |a| && n <= |b| && a[..n] == b[..n]
    ensures FirstPresent(a, n) == FirstPresent(b, n)
    decreases n
  {
    if n > 0 {
      assert a[..n - 1] == b[..n - 1] by {
        assert a[..n - 1] == a[..n][..n - 1];
        assert b[..n - 1] == b[..n][..n - 1];
      }
      FirstPresentPrefix(a, b, n - 1);
      assert a[n - 1] == a[..n][n - 1] && b[n - 1] == b[..n][n - 1];
    }
  }

  /** Entities beyond the option count are never consulted: the value
      depends on the first `len(options)` entity values only, so a
      "Present" entity past that point leaves the value where it was. */
  lemma ExtraEntitiesIgnored(values: seq<Value>, options: seq<string>)
    requires |values| >= |options|
    ensures EventValue(values, Some(options)) == EventValue(values[..|options|], Some(options))
  {
    FirstPresentPrefix(values, values[..|options|], |options|);
  }

  // ------------------------------------------------------- HCActiveProgram

  /** `HCActiveProgram`'s options: each program name shortened. */
  function ProgramOptions(programs: seq<string>): (r: seq<string>)
    ensures |r| == |programs|
    ensures forall i :: 0 <= i < |programs| ==> r[i] == ShortName(programs[i])
  {
    ShortNames(programs)
  }

  /** `HCActiveProgram.native_value`: the active program's short name, or
      None when no program runs. */
  function ActiveProgramValue(a: HomeAppliance): (r: Option<string>)
    ensures r.Some? <==> a.activeProgram.Some?
    ensures r.Some? ==> r.value == ShortName(a.activeProgram.value) && '.' !in r.value
  {
    if a.activeProgram.Some? then Some(ShortName(a.activeProgram.value)) else None
  }

  /** An active program the appliance lists shows as one of the sensor's
      options. */
  lemma ActiveProgramInOptions(a: HomeAppliance)
    requires a.activeProgram.Some? && a.activeProgram.value in a.programs
    ensures ActiveProgramValue(a).value in ProgramOptions(a.programs)
  {
    var i :| 0 <= i < |a.programs| && a.programs[i] == a.activeProgram.value;
    assert ProgramOptions(a.programs)[i] == ShortName(a.programs[i]);
  }

  // ------------------------------------------------------------- platform

  /** An entity the sensor platform creates. */
  datatype SensorEntity =
    | PlainSensor(description: Description)
    | EventSensor(description: Description)
    | ActiveProgramSensor(description: Description)

  /**
   * The platform's entity list: a sensor per available sensor description,
   * then an event sensor per available event description (the filtering
   * helper is not part of this model, so its results are the inputs), then
   * the active-program sensor when the appliance has its entity.
   */
  function SetupEntities(sensors: seq<Description>, events: seq<Description>, active: Description, names: set<string>)
    : (r: seq<SensorEntity>)
    ensures |r| == |sensors| + |events| + (if active.entity.Some? && active.entity.value in names then 1 else 0)
    ensures forall i :: 0 <= i < |sensors| ==> r[i] == PlainSensor(sensors[i])
    ensures forall i :: 0 <= i < |events| ==> r[|sensors| + i] == EventSensor(events[i])
    ensures |r| > |sensors| + |events| ==> r[|r| - 1] == ActiveProgramSensor(active)
  {
    var plain := seq(|sensors|, i requires 0 <= i < |sensors| => PlainSensor(sensors[i]));
    var ev := seq(|events|, i requires 0 <= i < |events| => EventSensor(events[i]));
    if active.entity.Some? && active.entity.value in names then plain + ev + [ActiveProgramSensor(active)]
    else plain + ev
  }
}
