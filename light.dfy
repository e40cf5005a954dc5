/**
 * Light entities: a main on/off entity with optional brightness and
 * colour-temperature entities.  Which auxiliaries exist decides the colour
 * mode, availability requires every present auxiliary to be available, and
 * turning on sends one message that sets brightness, colour temperature and
 * power in that order.
 *
 * Home Assistant's scaling helpers (`brightness_to_value`,
 * `scale_ranged_value_to_int_range`) and the availability helper
 * `entity_is_available` are parameters.
 */
module Light {
  import opened Wrappers
  import opened Values
  import opened Dicts
  import opened Appliance

  /** Home Assistant's `DEFAULT_MIN_KELVIN` and `DEFAULT_MAX_KELVIN`. */
  const DefaultMinKelvin: int := 2000
  const DefaultMaxKelvin: int := 6535

  datatype ColorMode = ColorTemp | Brightness | OnOff

  /** The colour mode for the auxiliaries present: colour temperature needs
      both, brightness alone gives brightness, anything else on/off. */
  function ModeFor(hasBrightness: bool, hasColorTemp: bool): (m: ColorMode)
    ensures m == ColorTemp <==> hasBrightness && hasColorTemp
    ensures m == Brightness <==> hasBrightness && !hasColorTemp
    ensures m == OnOff <==> !hasBrightness
  {
    if hasColorTemp && hasBrightness then ColorTemp
    else if hasBrightness then Brightness
    else OnOff
  }

  /** `int(max(value, minimum))` for an already truncated non-negative
      scaled value. */
  function AtLeast(v: int, minimum: int): (r: int)
    ensures r >= v && r >= minimum
    ensures r == v || r == minimum
  {
    if minimum > v then minimum else v
  }

  /** `HCLight`. */
  class Light {
    var main: HcEntity
    var brightness: Option<HcEntity>
    var colorTemp: Option<HcEntity>
    var subscribed: seq<HcEntity>        // `_entities`
    var colorMode: ColorMode
    var supportedModes: set<ColorMode>
    var minKelvin: Option<int>
    var maxKelvin: Option<int>

    /** The base entity set-up, with the class defaults: no auxiliaries. */
    constructor (main: HcEntity, subscribed: seq<HcEntity>)
      ensures this.main == main && this.subscribed == subscribed
      ensures brightness.None? && colorTemp.None?
      ensures colorMode == OnOff && supportedModes == {OnOff}
      ensures minKelvin.None? && maxKelvin.None?
    {
      this.main := main;
      this.subscribed := subscribed;
      brightness := None;
      colorTemp := None;
      colorMode := OnOff;
      supportedModes := {OnOff};
      minKelvin := None;
      maxKelvin := None;
    }

    /**
     * `HCLight.__init__`: after the base set-up (main entity `main`,
     * subscribed list `base`), look up the brightness entity, then the
     * colour-temperature entity, each appended to the subscribed list; a
     * name the appliance lacks raises KeyError.  Then choose the colour
     * mode.
     */
    static method New(brightnessName: Option<string>, colorTempName: Option<string>, a: HomeAppliance,
                      main: HcEntity, base: seq<HcEntity>) returns (r: Result<Light>)
      ensures r.Err? <==>
        || (brightnessName.Some? && brightnessName.value !in a.entities.values)
        || (colorTempName.Some? && colorTempName.value !in a.entities.values)
      ensures r.Err? ==> r.error == KeyError
      ensures r.Ok? ==> fresh(r.value)
      ensures r.Ok? ==>
        && r.value.main == main
        && r.value.brightness == (if brightnessName.Some? then Some(a.entities.values[brightnessName.value]) else None)
        && r.value.colorTemp == (if colorTempName.Some? then Some(a.entities.values[colorTempName.value]) else None)
        && r.value.subscribed == base
             + (if brightnessName.Some? then [a.entities.values[brightnessName.value]] else [])
             + (if colorTempName.Some? then [a.entities.values[colorTempName.value]] else [])
        && r.value.colorMode == ModeFor(brightnessName.Some?, colorTempName.Some?)
        && r.value.supportedModes == {r.value.colorMode}
        && (r.value.colorMode == ColorTemp <==> r.value.minKelvin == Some(DefaultMinKelvin))
        && (r.value.colorMode == ColorTemp <==> r.value.maxKelvin == Some(DefaultMaxKelvin))
    {
      var l := new Light(main, base);
      if brightnessName.Some? {
        var b := Get(a.entities, brightnessName.value);
        if b.Err? {
          return Err(b.error);
        }
        l.brightness := Some(b.value);
        l.subscribed := l.subscribed + [b.value];
      }
      if colorTempName.Some? {
        var c := Get(a.entities, colorTempName.value);
        if c.Err? {
          return Err(c.error);
        }
        l.colorTemp := Some(c.value);
        l.subscribed := l.subscribed + [c.value];
      }
      if l.colorTemp.Some? && l.brightness.Some? {
        l.supportedModes := {ColorTemp};
        l.colorMode := ColorTemp;
        l.maxKelvin := Some(DefaultMaxKelvin);
        l.minKelvin := Some(DefaultMinKelvin);
      } else if l.brightness.Some? {
        l.supportedModes := {Brightness};
        l.colorMode := Brightness;
      }
      return Ok(l);
    }

    /** `available`: the base availability, and-ed with the availability of
        each auxiliary entity that is present. */
    function Available(base: bool, entityAvailable: HcEntity -> bool): (r: bool)
      reads this
      ensures r ==> base
      ensures brightness.Some? && r ==> entityAvailable(brightness.value)
      ensures colorTemp.Some? && r ==> entityAvailable(colorTemp.value)
      ensures (base && (brightness.None? || entityAvailable(brightness.value))
                    && (colorTemp.None? || entityAvailable(colorTemp.value))) ==> r
    {
      var b := if brightness.Some? then base && entityAvailable(brightness.value) else base;
      if colorTemp.Some? then b && entityAvailable(colorTemp.value) else b
    }

    /** `is_on`: the truthiness of the main entity's value. */
    predicate IsOn()
      reads this
    {
      Truthy(main.value)
    }

    /**
     * `async_turn_on`: the data of the one message sent.  A requested
     * brightness (already scaled by `toBrightnessValue`) is raised to the
     * brightness entity's minimum; a requested colour temperature is scaled
     * by `toColorTempValue`; the power entry comes last and only when the
     * main value is not `True`.  A request for an auxiliary the light does
     * not have raises AttributeError, as does a brightness entity without a
     * minimum; a minimum of None raises TypeError.
     */
    method TurnOn(brightnessArg: Option<int>, kelvinArg: Option<int>,
                  toBrightnessValue: int -> int, toColorTempValue: int -> int) returns (r: Result<seq<Entry>>)
      ensures brightnessArg.Some? && brightness.None? ==> r == Err(AttributeError)
      ensures brightnessArg.Some? && brightness.Some? && brightness.value.min.Absent? ==> r == Err(AttributeError)
      ensures brightnessArg.Some? && brightness.Some? && brightness.value.min.PresentNone? ==> r == Err(TypeError)
      ensures (brightnessArg.None? || (brightness.Some? && brightness.value.min.Present?)) ==>
                kelvinArg.Some? && colorTemp.None? ==> r == Err(AttributeError)
      ensures r.Ok? <==>
        && (brightnessArg.Some? ==> brightness.Some? && brightness.value.min.Present?)
        && (kelvinArg.Some? ==> colorTemp.Some?)
      ensures r.Ok? ==>
        var nb := if brightnessArg.Some? then 1 else 0;
        var nc := if kelvinArg.Some? then 1 else 0;
        && |r.value| == nb + nc + (if main.value == VBool(true) then 0 else 1)
        && (brightnessArg.Some? ==>
              r.value[0] == Entry(brightness.value.uid,
                                  VInt(AtLeast(toBrightnessValue(brightnessArg.value), brightness.value.min.value))))
        && (kelvinArg.Some? ==> r.value[nb] == Entry(colorTemp.value.uid, VInt(toColorTempValue(kelvinArg.value))))
        && (main.value != VBool(true) ==> r.value[nb + nc] == Entry(main.uid, VBool(true)))
      // a light that reads as off is always switched on
      ensures r.Ok? && !IsOn() ==> |r.value| > 0 && r.value[|r.value| - 1] == Entry(main.uid, VBool(true))
    {
      var data: seq<Entry> := [];
      if brightnessArg.Some? {
        if brightness.None? || brightness.value.min.Absent? {
          return Err(AttributeError);
        }
        if brightness.value.min.PresentNone? {
          return Err(TypeError);
        }
        var v := AtLeast(toBrightnessValue(brightnessArg.value), brightness.value.min.value);
        data := data + [Entry(brightness.value.uid, VInt(v))];
      }
      if kelvinArg.Some? {
        var v := toColorTempValue(kelvinArg.value);
        if colorTemp.None? {
          return Err(AttributeError);
        }
        data := data + [Entry(colorTemp.value.uid, VInt(v))];
      }
      if main.value != VBool(true) {
        data := data + [Entry(main.uid, VBool(true))];
      }
      return Ok(data);
    }

    /** `async_turn_off`: the value written to the main entity. */
    method TurnOff() returns (sent: Value)
      ensures !Truthy(sent)
      ensures sent.VBool?
    {
      sent := VBool(false);
    }
  }

  /** A requested 1 % that scales below a minimum of 2 is written as 2. */
  lemma BrightnessRaisedToMinimum()
    ensures AtLeast(1, 2) == 2
    ensures AtLeast(57, 2) == 57
  {
  }
}
