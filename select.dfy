/**
 * Select entities: an enum entity's labels as options (lowercased when the
 * states are translated) with a reverse map back to the labels, the
 * program select over shortened program names, and the deferred-start
 * select over an `H:MM` grid of 900-second steps.
 */
module Select {
  import opened Wrappers
  import opened Strings
  import opened Values
  import opened Dicts
  import opened Appliance
  import opened Descriptions
  import CommonDescriptions
  import FlatDescriptions

  // -------------------------------------------------------------- HCSelect

  /** The two description fields `HCSelect.__init__` reads: `options` and
      `has_state_translation`.  Description classes without them raise
      AttributeError. */
  function SelectFields(d: Description): (r: Result<(Option<seq<string>>, bool)>)
    ensures r.Ok? <==> d.SelectDescription? || d.SensorDescription?
    ensures r.Err? ==> r.error == AttributeError
    ensures r.Ok? ==> r.value == (d.options, d.hasStateTranslation)
  {
    match d
    case SelectDescription(_, _, _, _, _, _, _, _, translate, options) => Ok((options, translate))
    case SensorDescription(_, _, _, _, _, _, _, _, translate, options, _, _, _) => Ok((options, translate))
    case _ => Err(AttributeError)
  }

  /** The fields of a constructed select: `_attr_options` (None while it was
      never assigned), `_rev_options` and the description's translation
      flag. */
  datatype SelectState = SelectState(options: Option<seq<string>>, revOptions: map<string, string>, translate: bool)

  /** The enum labels as options: `str(value).lower()` or `str(value)`. */
  function LabelOptions(labels: seq<string>, translate: bool): (opts: seq<string>)
    ensures |opts| == |labels|
    ensures forall i :: 0 <= i < |labels| ==> opts[i] == if translate then Lower(labels[i]) else labels[i]
  {
    seq(|labels|, i requires 0 <= i < |labels| => if translate then Lower(labels[i]) else labels[i])
  }

  /** `_rev_options` after the loop: each lowercased label to the last
      label that lowercases to it. */
  function RevOptions(labels: seq<string>): map<string, string>
    decreases |labels|
  {
    if labels == [] then map[]
    else
      var last := labels[|labels| - 1];
      RevOptions(labels[..|labels| - 1])[Lower(last) := last]
  }

  /** The reverse map has one key per lowercased label. */
  lemma {:induction false} RevOptionsKeys(labels: seq<string>)
    ensures RevOptions(labels).Keys == set i | 0 <= i < |labels| :: Lower(labels[i])
    decreases |labels|
  {
    if labels != [] {
      var pre := labels[..|labels| - 1];
      RevOptionsKeys(pre);
      assert forall i :: 0 <= i < |pre| ==> pre[i] == labels[i];
      assert (set i | 0 <= i < |labels| :: Lower(labels[i]))
          == (set i | 0 <= i < |pre| :: Lower(pre[i])) + {Lower(labels[|labels| - 1])};
    }
  }

  /** The reverse map sends each key back to a label with that lowercase
      form. */
  lemma {:induction false} RevOptionsValues(labels: seq<string>)
    ensures forall k :: k in RevOptions(labels) ==> Lower(RevOptions(labels)[k]) == k && RevOptions(labels)[k] in labels
    decreases |labels|
  {
    if labels != [] {
      var pre := labels[..|labels| - 1];
      RevOptionsValues(pre);
      assert forall x :: x in pre ==> x in labels;
    }
  }

  /** A label whose lowercase form no other label shares is what the reverse
      map gives for that form. */
  lemma {:induction false} RevOptionsUnique(labels: seq<string>, i: nat)
    requires i < |labels|
    requires forall j :: 0 <= j < |labels| && j != i ==> Lower(labels[j]) != Lower(labels[i])
    ensures Lower(labels[i]) in RevOptions(labels) && RevOptions(labels)[Lower(labels[i])] == labels[i]
    decreases |labels|
  {
    var n := |labels| - 1;
    if i < n {
      var pre := labels[..n];
      assert forall j :: 0 <= j < |pre| ==> pre[j] == labels[j];
      RevOptionsUnique(pre, i);
      assert Lower(labels[n]) != Lower(labels[i]);
    }
  }

  lemma LabelOptionsSnoc(labels: seq<string>, j: nat, translate: bool)
    requires j < |labels|
    ensures LabelOptions(labels[..j + 1], translate)
         == LabelOptions(labels[..j], translate) + [if translate then Lower(labels[j]) else labels[j]]
  {
  }

  lemma RevOptionsSnoc(labels: seq<string>, j: nat)
    requires j < |labels|
    ensures RevOptions(labels[..j + 1]) == RevOptions(labels[..j])[Lower(labels[j]) := labels[j]]
  {
    assert labels[..j + 1][..j] == labels[..j];
  }

  /** The options `HCSelect.__init__` assigns: the description's non-empty
      options, else the enum labels, else none at all. */
  function InitialOptions(descOptions: Option<seq<string>>, translate: bool, e: HcEntity): Option<seq<string>> {
    if descOptions.Some? && |descOptions.value| > 0 then descOptions
    else if HasEnum(e) then Some(LabelOptions(EnumLabels(e.enumeration.value), translate))
    else None
  }

  /**
   * `HCSelect.__init__` for the entity `e` the description names: options
   * from the description, or built from the enum labels in a loop, and the
   * reverse map when translating an enum entity.
   */
  method SelectSetup(d: Description, e: HcEntity) returns (r: Result<SelectState>)
    ensures r.Err? <==> SelectFields(d).Err?
    ensures r.Err? ==> r.error == AttributeError
    ensures r.Ok? ==>
      && r.value.translate == d.hasStateTranslation
      && r.value.options == InitialOptions(d.options, d.hasStateTranslation, e)
      && r.value.revOptions == if d.hasStateTranslation && HasEnum(e) then RevOptions(EnumLabels(e.enumeration.value)) else map[]
  {
    var fields := SelectFields(d);
    if fields.Err? {
      return Err(fields.error);
    }
    var (descOptions, translate) := fields.value;
    var options: Option<seq<string>> := None;
    var rev: map<string, string> := map[];
    if descOptions.Some? && |descOptions.value| > 0 {
      options := descOptions;
    } else if HasEnum(e) {
      var labels := EnumLabels(e.enumeration.value);
      var built := [];
      for j := 0 to |labels|
        invariant built == LabelOptions(labels[..j], translate)
      {
        LabelOptionsSnoc(labels, j, translate);
        if translate {
          built := built + [Lower(labels[j])];
        } else {
          built := built + [labels[j]];
        }
      }
      assert labels[..|labels|] == labels;
      options := Some(built);
    }
    if translate && HasEnum(e) {
      var labels := EnumLabels(e.enumeration.value);
      for j := 0 to |labels|
        invariant rev == RevOptions(labels[..j])
      {
        RevOptionsSnoc(labels, j);
        rev := rev[Lower(labels[j]) := labels[j]];
      }
      assert labels[..|labels|] == labels;
    }
    return Ok(SelectState(options, rev, translate));
  }

  /**
   * `HCSelect.current_option` for the entity value `v`: the lowercased
   * string when translating and it is an option, else the string itself
   * when it is an option, else None.  Reading options that were never
   * assigned raises AttributeError.
   */
  function CurrentOption(s: SelectState, v: Value): (r: Result<Option<string>>)
    ensures r.Err? <==> s.options.None?
    ensures r.Err? ==> r.error == AttributeError
    ensures r.Ok? && r.value.Some? ==> r.value.value in s.options.value
    ensures r.Ok? && s.translate && Lower(Str(v)) in s.options.value ==> r.value == Some(Lower(Str(v)))
    ensures r.Ok? && !(s.translate && Lower(Str(v)) in s.options.value) ==>
      r.value == if Str(v) in s.options.value then Some(Str(v)) else None
  {
    if s.options.None? then Err(AttributeError)
    else if s.translate && Lower(Str(v)) in s.options.value then Ok(Some(Lower(Str(v))))
    else if Str(v) in s.options.value then Ok(Some(Str(v)))
    else Ok(None)
  }

  /** `HCSelect.async_select_option(option)`: the value written, the label
      the reverse map gives when it has entries, else the option itself. */
  function SelectOption(s: SelectState, option: string): (r: Result<string>)
    ensures |s.revOptions| == 0 ==> r == Ok(option)
    ensures |s.revOptions| > 0 ==> (r.Ok? <==> option in s.revOptions)
    ensures |s.revOptions| > 0 && r.Ok? ==> r.value == s.revOptions[option]
    ensures r.Err? ==> r.error == KeyError
  {
    if |s.revOptions| > 0 then
      if option in s.revOptions then Ok(s.revOptions[option]) else Err(KeyError)
    else Ok(option)
  }

  /** A translated enum select: the option shown for a label selects a label
      with the same lowercase form, and that very label when no two labels
      share one. */
  lemma TranslatedRoundTrip(e: HcEntity, s: SelectState, i: nat)
    requires HasEnum(e) && i < |e.enumeration.value|
    requires s == SelectState(Some(LabelOptions(EnumLabels(e.enumeration.value), true)),
                              RevOptions(EnumLabels(e.enumeration.value)), true)
    ensures var lbl := e.enumeration.value[i].text;
      && CurrentOption(s, VStr(lbl)) == Ok(Some(Lower(lbl)))
      && SelectOption(s, Lower(lbl)).Ok?
      && Lower(SelectOption(s, Lower(lbl)).value) == Lower(lbl)
    ensures var labels := EnumLabels(e.enumeration.value);
      (forall j :: 0 <= j < |labels| && j != i ==> Lower(labels[j]) != Lower(labels[i])) ==>
        SelectOption(s, Lower(labels[i])) == Ok(labels[i])
  {
    var labels := EnumLabels(e.enumeration.value);
    RevOptionsKeys(labels);
    RevOptionsValues(labels);
    assert Lower(labels[i]) == LabelOptions(labels, true)[i];
    assert Lower(labels[i]) in RevOptions(labels);
    if forall j :: 0 <= j < |labels| && j != i ==> Lower(labels[j]) != Lower(labels[i]) {
      RevOptionsUnique(labels, i);
    }
  }

  /** An untranslated enum select shows each label as it is and writes the
      option back unchanged. */
  lemma PlainRoundTrip(e: HcEntity, s: SelectState, i: nat)
    requires HasEnum(e) && i < |e.enumeration.value|
    requires s == SelectState(Some(LabelOptions(EnumLabels(e.enumeration.value), false)), map[], false)
    ensures var lbl := e.enumeration.value[i].text;
      CurrentOption(s, VStr(lbl)) == Ok(Some(lbl)) && SelectOption(s, lbl) == Ok(lbl)
  {
    assert e.enumeration.value[i].text == LabelOptions(EnumLabels(e.enumeration.value), false)[i];
  }

  /** Description options ["option2"] with translation: the value "Option2"
      shows as "option2" and "Option1" as unknown. */
  lemma DescriptionOptionsExample()
    ensures var s := SelectState(Some(["option2"]), map[], true);
      CurrentOption(s, VStr("Option2")) == Ok(Some("option2")) && CurrentOption(s, VStr("Option1")) == Ok(None)
  {
    assert Lower("Option2") == "option2";
    assert Lower("Option1") == "option1";
  }

  // ------------------------------------------------------------- HCProgram

  /** `_programs` after the loop: short name to the last program with that
      short name, short names in first-seen order. */
  function ProgramDict(names: seq<string>): (d: Dict<string>)
    ensures Valid(d)
    decreases |names|
  {
    if names == [] then Empty()
    else
      var last := names[|names| - 1];
      Put(ProgramDict(names[..|names| - 1]), ShortName(last), last)
  }

  lemma ProgramDictSnoc(names: seq<string>, j: nat)
    requires j < |names|
    ensures ProgramDict(names[..j + 1]) == Put(ProgramDict(names[..j]), ShortName(names[j]), names[j])
  {
    assert names[..j + 1][..j] == names[..j];
  }

  /** `HCProgram.__init__`'s loop over the appliance's program names. */
  method ProgramSetup(programs: seq<string>) returns (d: Dict<string>)
    ensures d == ProgramDict(programs)
  {
    d := Empty();
    for j := 0 to |programs|
      invariant d == ProgramDict(programs[..j])
    {
      ProgramDictSnoc(programs, j);
      d := Put(d, ShortName(programs[j]), programs[j]);
    }
    assert programs[..|programs|] == programs;
  }

  /** The short names of a list grow by the short name of its last
      element. */
  lemma ShortNamesSnoc(names: seq<string>, pre: seq<string>, last: string)
    requires |names| > 0 && pre == names[..|names| - 1] && last == names[|names| - 1]
    ensures (set n | n in ShortNames(names)) == (set n | n in ShortNames(pre)) + {ShortName(last)}
  {
    assert names == pre + [last];
    ShortNamesAppend(pre, last);
    ElementsSnoc(ShortNames(pre), ShortName(last));
  }

  lemma ElementsSnoc(xs: seq<string>, x: string)
    ensures (set n | n in xs + [x]) == (set n | n in xs) + {x}
  {
  }

  /** The program options are the short names, each once. */
  lemma {:induction false} ProgramDictKeys(names: seq<string>)
    ensures ProgramDict(names).values.Keys == set n | n in ShortNames(names)
    decreases |names|
  {
    if names != [] {
      var pre := names[..|names| - 1];
      var last := names[|names| - 1];
      ProgramDictKeys(pre);
      assert ProgramDict(names).values == ProgramDict(pre).values[ShortName(last) := last];
      assert ProgramDict(names).values.Keys == ProgramDict(pre).values.Keys + {ShortName(last)};
      ShortNamesSnoc(names, pre, last);
    }
  }

  /** Each option leads back to a program with that short name. */
  lemma {:induction false} ProgramDictValues(names: seq<string>)
    ensures forall k :: k in ProgramDict(names).values ==>
      ShortName(ProgramDict(names).values[k]) == k && ProgramDict(names).values[k] in names
    decreases |names|
  {
    if names != [] {
      var pre := names[..|names| - 1];
      ProgramDictValues(pre);
      assert forall x :: x in pre ==> x in names;
    }
  }

  /** A program whose short name no other program shares is reached from
      its own short name. */
  lemma {:induction false} ProgramDictUnique(names: seq<string>, i: nat)
    requires i < |names|
    requires forall j :: 0 <= j < |names| && j != i ==> ShortName(names[j]) != ShortName(names[i])
    ensures ShortName(names[i]) in ProgramDict(names).values
    ensures ProgramDict(names).values[ShortName(names[i])] == names[i]
    decreases |names|
  {
    var n := |names| - 1;
    if i < n {
      var pre := names[..n];
      assert forall j :: 0 <= j < |pre| ==> pre[j] == names[j];
      ProgramDictUnique(pre, i);
      assert ShortName(names[n]) != ShortName(names[i]);
    }
  }

  /** `HCProgram.current_option`: the selected program's short name. */
  function ProgramCurrent(a: HomeAppliance): (r: Option<string>)
    ensures r.None? <==> a.selectedProgram.None?
    ensures r.Some? ==> r.value == ShortName(a.selectedProgram.value) && '.' !in r.value
  {
    if a.selectedProgram.Some? then Some(ShortName(a.selectedProgram.value)) else None
  }

  /** `HCProgram.async_select_option(option)`: the program it selects;
      KeyError for an option that is no short name. */
  function ProgramSelect(programs: Dict<string>, option: string): (r: Result<string>)
    ensures r.Ok? <==> option in programs.values
    ensures r.Ok? ==> r.value == programs.values[option]
  {
    Get(programs, option)
  }

  /** Selecting the option shown for the selected program selects that
      program again, when no other program shares its short name. */
  lemma ProgramRoundTrip(a: HomeAppliance, i: nat)
    requires i < |a.programs| && a.selectedProgram == Some(a.programs[i])
    requires forall j :: 0 <= j < |a.programs| && j != i ==> ShortName(a.programs[j]) != ShortName(a.programs[i])
    ensures ProgramSelect(ProgramDict(a.programs), ProgramCurrent(a).value) == Ok(a.programs[i])
  {
    ProgramDictUnique(a.programs, i);
  }

  /** Two programs in different namespaces with one short name collapse to
      one option, which selects the later program. */
  lemma ProgramShortNameCollision()
    ensures var a := HomeAppliance(Empty(), ["A.Foo", "B.Foo"], Some("A.Foo"), None, map[], true);
      ProgramCurrent(a) == Some("foo") && ProgramSelect(ProgramDict(a.programs), "foo") == Ok("B.Foo")
  {
    FooShortNames();
    var names := ["A.Foo", "B.Foo"];
    assert names[..1] == ["A.Foo"];
    assert ["A.Foo"][..0] == [];
    assert ProgramDict(names) == Put(ProgramDict(["A.Foo"]), "foo", "B.Foo");
  }

  lemma FooShortNames()
    ensures ShortName("A.Foo") == "foo" && ShortName("B.Foo") == "foo"
  {
    DottedFoo("A.Foo");
    DottedFoo("B.Foo");
  }

  /** `X.Foo` for a one-letter `X` shortens to `foo`. */
  lemma DottedFoo(p: string)
    requires |p| == 5 && p[0] != '.' && p[1..] == ".Foo"
    ensures ShortName(p) == "foo"
  {
    FooSegment(p);
    LowerFoo();
  }

  lemma FooSegment(p: string)
    requires |p| == 5 && p[0] != '.' && p[1..] == ".Foo"
    ensures LastSegment(p) == "Foo"
  {
    assert '.' in p by { assert p[1] == '.'; }
    assert LastSegment(p) == LastSegment(".Foo");
    assert ".Foo"[1..] == "Foo";
    assert '.' !in "Foo";
  }

  lemma LowerFoo()
    ensures Lower("Foo") == "foo"
  {
  }

  // ------------------------------------------------------------- HCStartIn

  /** Python's `int(t / d)` for a positive `d`: the quotient rounded toward
      zero. */
  function TruncDiv(t: int, d: nat): (q: int)
    requires d > 0
    ensures t >= 0 ==> q == t / d
    ensures t < 0 ==> q == -((-t) / d)
  {
    if t >= 0 then t / d else -((-t) / d)
  }

  /** `f"{int(t / 3600)}:{int((t % 3600) / 60):02}"` */
  function FormatHM(t: int): (s: string)
    ensures ':' in s
  {
    IntToString(TruncDiv(t, 3600)) + ":" + Pad2((t % 3600) / 60)
  }

  /** The `H:MM` shape: the text splits at ":" into the hours, rounded
      toward zero, and the minute of the hour as exactly two digits. */
  lemma FormatHMShape(t: int)
    ensures var parts := Split(FormatHM(t), ':');
      && |parts| == 2
      && ParseInt(parts[0]) == Ok(TruncDiv(t, 3600))
      && |parts[1]| == 2 && AllDigits(parts[1])
      && ParseInt(parts[1]) == Ok((t % 3600) / 60)
  {
    var hs, ms := IntToString(TruncDiv(t, 3600)), Pad2((t % 3600) / 60);
    MinuteDigits((t % 3600) / 60);
    SplitJoined(hs, ':', ms);
    SplitNoSep(ms, ':');
    ParseIntToString(TruncDiv(t, 3600));
    ParsePad2((t % 3600) / 60);
    assert FormatHM(t) == hs + [':'] + ms;
  }

  /** A minute of the hour pads to exactly two digits, neither a colon. */
  lemma MinuteDigits(m: nat)
    requires m < 60
    ensures |Pad2(m)| == 2 && ':' !in Pad2(m)
  {
    if m >= 10 {
      assert |NatToString(m / 10)| == 1;
    }
    assert !IsDigit(':');
  }

  /** `parts = option.split(":")` then `int(parts[0]) * 3600 +
      int(parts[1]) * 60`, evaluated left to right. */
  function ParseHM(option: string): (r: Result<int>)
    ensures r.Err? ==> r.error in {ValueError, IndexError}
    ensures |Split(option, ':')| < 2 && ParseInt(Split(option, ':')[0]).Ok? ==> r == Err(IndexError)
  {
    var parts := Split(option, ':');
    match ParseInt(parts[0])
    case Err(e) => Err(e)
    case Ok(h) =>
      if |parts| < 2 then Err(IndexError)
      else
        match ParseInt(parts[1])
        case Err(e) => Err(e)
        case Ok(m) => Ok(h * 3600 + m * 60)
  }

  /** For a non-negative delay, formatting and parsing back gives the delay
      rounded down to the minute. */
  lemma ParseFormat(t: int)
    requires t >= 0
    ensures ParseHM(FormatHM(t)) == Ok(t - t % 60)
  {
    var h, m := t / 3600, (t % 3600) / 60;
    var hs, ms := IntToString(h), Pad2(m);
    assert FormatHM(t) == hs + [':'] + ms;
    SplitJoined(hs, ':', ms);
    assert ':' !in ms;
    SplitNoSep(ms, ':');
    ParseIntToString(h);
    ParsePad2(m);
    assert t == 3600 * h + t % 3600;
    assert t % 3600 == 60 * m + (t % 3600) % 60;
    assert (t % 3600) % 60 == t % 60;
  }

  /** A delay in whole minutes round-trips exactly. */
  lemma WholeMinutesRoundTrip(t: int)
    requires t >= 0 && t % 60 == 0
    ensures ParseHM(FormatHM(t)) == Ok(t)
  {
    ParseFormat(t);
  }

  /** `int(attr)` of the entity's `min` or `max`: AttributeError when the
      entity has no such attribute, TypeError when it is None. */
  function IntAttr(a: Attr<int>): (r: Result<int>)
    ensures r.Ok? <==> a.Present?
    ensures r.Ok? ==> r.value == a.value
    ensures a.Absent? ==> r == Err(AttributeError)
    ensures a.PresentNone? ==> r == Err(TypeError)
  {
    match a
    case Absent => Err(AttributeError)
    case PresentNone => Err(TypeError)
    case Present(v) => Ok(v)
  }

  /** The number of starts `range(lo, hi, 900)` yields. */
  function GridCount(lo: int, hi: int): (n: nat)
    ensures forall k :: 0 <= k < n ==> lo + 900 * k < hi
    ensures lo + 900 * n >= hi
  {
    if hi <= lo then 0 else (hi - lo + 899) / 900
  }

  /** `options` are the first `n` grid starts from `lo`, formatted. */
  predicate IsGrid(options: seq<string>, lo: int, n: nat) {
    |options| == n && forall k :: 0 <= k < n ==> options[k] == FormatHM(lo + 900 * k)
  }

  /**
   * The options `HCStartIn.__init__` builds: every `t` of
   * `range(int(min), int(max), 900)`, formatted as `H:MM`.
   */
  method StartInSetup(e: HcEntity) returns (r: Result<seq<string>>)
    ensures IntAttr(e.min).Err? ==> r == Err(IntAttr(e.min).error)
    ensures IntAttr(e.min).Ok? && IntAttr(e.max).Err? ==> r == Err(IntAttr(e.max).error)
    ensures r.Ok? <==> e.min.Present? && e.max.Present?
    ensures r.Ok? ==> IsGrid(r.value, e.min.value, GridCount(e.min.value, e.max.value))
  {
    var lo := IntAttr(e.min);
    if lo.Err? {
      return Err(lo.error);
    }
    var hi := IntAttr(e.max);
    if hi.Err? {
      return Err(hi.error);
    }
    var options := GridLoop(lo.value, hi.value);
    return Ok(options);
  }

  /** The loop over `range(lo, hi, 900)`. */
  method GridLoop(lo: int, hi: int) returns (options: seq<string>)
    ensures IsGrid(options, lo, GridCount(lo, hi))
  {
    options := [];
    var t := lo;
    while t < hi
      invariant t == lo + 900 * |options|
      invariant IsGrid(options, lo, |options|)
      invariant |options| == 0 || t < hi + 900
      decreases hi - t
    {
      GridSnoc(options, lo, t);
      options := options + [FormatHM(t)];
      t := t + 900;
    }
    GridCountExact(lo, hi, |options|);
  }

  lemma GridSnoc(options: seq<string>, lo: int, t: int)
    requires IsGrid(options, lo, |options|) && t == lo + 900 * |options|
    ensures IsGrid(options + [FormatHM(t)], lo, |options| + 1)
  {
    var o := options + [FormatHM(t)];
    forall k | 0 <= k < |options| + 1 ensures o[k] == FormatHM(lo + 900 * k) {
      if k < |options| {
        assert o[k] == options[k];
      }
    }
  }

  /** `n` steps reach `hi` and `n - 1` did not: the grid has `n` starts. */
  lemma GridCountExact(lo: int, hi: int, n: nat)
    requires lo + 900 * n >= hi && (n == 0 || lo + 900 * (n - 1) < hi)
    ensures GridCount(lo, hi) == n
  {
    if hi > lo {
      var d := hi - lo + 899;
      assert 900 * n <= d < 900 * (n + 1);
      assert d / 900 == n;
    }
  }

  /** Every start `t` of a non-negative grid, once formatted, parses back
      to `t` less the seconds of the grid's first start: the grid's own
      starts come back exactly when it begins on a whole minute. */
  lemma StartInOptionsParse(lo: int, k: nat, t: int)
    requires 0 <= lo && t == lo + 900 * k
    ensures ParseHM(FormatHM(t)) == Ok(t - lo % 60)
  {
    GridMinute(lo, k);
    ParseFormatOffset(t, lo % 60);
  }

  lemma ParseFormatOffset(t: int, sec: int)
    requires t >= 0 && t % 60 == sec
    ensures ParseHM(FormatHM(t)) == Ok(t - sec)
  {
    ParseFormat(t);
  }

  /** A 900-second step keeps the seconds within the minute. */
  lemma GridMinute(lo: int, k: int)
    ensures (lo + 900 * k) % 60 == lo % 60
  {
    var q, r := lo / 60, lo % 60;
    assert lo + 900 * k == 60 * (q + 15 * k) + r && 0 <= r < 60;
  }

  /** `HCStartIn.current_option`: the entity's value as `H:MM`; a value
      that is not a number raises TypeError (a bool counts as 0 or 1). */
  function StartInCurrent(v: Value): (r: Result<string>)
    ensures r.Ok? <==> v.VInt? || v.VBool?
    ensures v.VInt? ==> r == Ok(FormatHM(v.i))
    ensures r.Err? ==> r.error == TypeError
  {
    match v
    case VInt(t) => Ok(FormatHM(t))
    case VBool(b) => Ok(FormatHM(if b then 1 else 0))
    case _ => Err(TypeError)
  }

  /** Selecting the option the entity currently shows writes back its value
      rounded down to the minute. */
  lemma StartInRoundTrip(t: int)
    requires t >= 0
    ensures StartInCurrent(VInt(t)).Ok? && ParseHM(StartInCurrent(VInt(t)).value) == Ok(t - t % 60)
  {
    ParseFormat(t);
  }

  /** A negative delay is shown with the hour rounded toward zero but the
      minutes taken modulo the hour: -900 seconds shows as "0:45". */
  lemma NegativeDelayFormat()
    ensures FormatHM(-900) == "0:45"
  {
    assert TruncDiv(-900, 3600) == 0;
    assert (-900 % 3600) / 60 == 45;
    assert NatToString(45) == NatToString(4) + [DigitChar(5)];
  }

  // ------------------------------------------------ start_in description

  /**
   * Both description tables give the deferred-start select a number
   * description.  `HCStartIn` runs `HCSelect.__init__`, which reads the
   * description's `options` and `has_state_translation`; a number
   * description has neither, so building the entity raises AttributeError.
   */
  lemma StartInAsWritten()
    ensures CommonDescriptions.CommonTable[8].0 == "start_in"
    ensures SelectFields(CommonDescriptions.CommonTable[8].1[0]) == Err(AttributeError)
    ensures SelectFields(FlatDescriptions.StartIn) == Err(AttributeError)
  {
  }

  /** The select description the `start_in` key evidently calls for. */
  const StartInSelect: Description :=
    SelectDescription("select_start_in", entity := Some("BSH.Common.Option.StartInRelative"))

  /** The corrected description keeps the written key, entity and access
      requirement and gives `HCSelect.__init__` the fields it reads: no
      preset options and no state translation, so the select keeps no
      reverse map and hands the chosen `H:MM` option to the delay parser. */
  lemma StartInCorrected()
    ensures StartInSelect.key == FlatDescriptions.StartIn.key == CommonDescriptions.CommonTable[8].1[0].key
    ensures StartInSelect.entity == FlatDescriptions.StartIn.entity
    ensures StartInSelect.availableAccess == FlatDescriptions.StartIn.availableAccess
    ensures SelectFields(StartInSelect) == Ok((None, false))
  {
  }
}
