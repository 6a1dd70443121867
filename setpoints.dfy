/**
 * The autopilot's three optional targets and the `set`, `add`, `sub` and
 * `reset` commands that change them (Mdk.SimpleAutopilot/Program.cs,
 * UpdateDesired and UpdateDesiredInternal), as functions over a value.
 * The class in module Autopilot holds the targets as fields and is specified
 * by these functions.
 */
module Setpoints {
  import opened Wrappers

  datatype Axis = Pitch | Roll | Bearing

  /** Desired pitch, roll and bearing; None means the axis is not held. */
  datatype Targets = Targets(pitch: Option<real>, roll: Option<real>, bearing: Option<real>) {

    function Get(a: Axis): Option<real> {
      match a
      case Pitch => pitch
      case Roll => roll
      case Bearing => bearing
    }

    function With(a: Axis, v: Option<real>): (r: Targets)
      ensures r.Get(a) == v
      ensures forall b :: b != a ==> r.Get(b) == Get(b)
    {
      match a
      case Pitch => this.(pitch := v)
      case Roll => this.(roll := v)
      case Bearing => this.(bearing := v)
    }
  }

  const NoTargets: Targets := Targets(None, None, None)

  /** The name an axis is addressed by. */
  function Name(a: Axis): string {
    match a
    case Pitch => "pitch"
    case Roll => "roll"
    case Bearing => "bearing"
  }

  /** ToLowerInvariant on one character, for the ASCII letters. */
  function LowerChar(c: char): char {
    if 'A' <= c <= 'Z' then (c as int + 32) as char else c
  }

  /** ToLowerInvariant on a string, for the ASCII letters. */
  function Lower(s: string): (r: string)
    ensures |r| == |s|
    ensures forall i :: 0 <= i < |s| ==> r[i] == LowerChar(s[i])
  {
    seq(|s|, i requires 0 <= i < |s| => LowerChar(s[i]))
  }

  lemma LowerIdempotent(s: string)
    ensures Lower(Lower(s)) == Lower(s)
  {
  }

  /** The axis a command names, ignoring case; None for any other name. */
  function AxisNamed(name: string): (a: Option<Axis>)
    ensures a.Some? <==> exists b :: Lower(name) == Name(b)
    ensures a.Some? ==> Lower(name) == Name(a.value)
  {
    var l := Lower(name);
    if l == Name(Pitch) then Some(Pitch)
    else if l == Name(Roll) then Some(Roll)
    else if l == Name(Bearing) then Some(Bearing)
    else None
  }

  /** Every axis is found by its own name, in any case. */
  lemma AxisNamedByName(a: Axis, name: string)
    requires Lower(name) == Name(a)
    ensures AxisNamed(name) == Some(a)
  {
  }

  /**
   * One target after UpdateDesiredInternal: an offset with a value adds to the
   * target (or starts it from the value when absent); anything else replaces it.
   */
  function Assign(current: Option<real>, value: Option<real>, isOffset: bool): (r: Option<real>)
    ensures isOffset && value.Some? ==> r == Some(current.GetOr(0.0) + value.value)
    ensures !(isOffset && value.Some?) ==> r == value
  {
    if isOffset && value.Some? then
      if current.Some? then Some(current.value + value.value) else value
    else value
  }

  /** UpdateDesiredInternal: the named axis is assigned, an unknown name changes nothing. */
  function AssignTarget(t: Targets, axisName: string, value: Option<real>, isOffset: bool): (r: Targets)
    ensures AxisNamed(axisName).None? ==> r == t
    ensures AxisNamed(axisName).Some? ==>
      r == t.With(AxisNamed(axisName).value, Assign(t.Get(AxisNamed(axisName).value), value, isOffset))
  {
    match AxisNamed(axisName)
    case None => t
    case Some(a) => t.With(a, Assign(t.Get(a), value, isOffset))
  }

  /**
   * UpdateDesired: `mode` is one of reset, set, add, sub (in any case), `axisName`
   * an axis or `all` (reset only), and `valueText` the number for set, add and
   * sub, read by the host's parser `parse`.
   */
  function Update(t: Targets, mode: string, axisName: string, valueText: string,
                  parse: string -> Option<real>): (r: Targets)
    ensures mode == "" || axisName == "" ==> r == t
    ensures Lower(mode) !in ["reset", "set", "add", "sub"] ==> r == t
    ensures Lower(mode) != "reset" && AxisNamed(axisName).None? ==> r == t
    ensures forall b :: Lower(axisName) != "all" && AxisNamed(axisName) != Some(b) ==> r.Get(b) == t.Get(b)
    ensures Lower(mode) == "reset" ==> forall b :: r.Get(b) == t.Get(b) || r.Get(b).None?
  {
    if mode == "" || axisName == "" then t
    else
      var m := Lower(mode);
      if m == "reset" then
        if Lower(axisName) == "all" then
          AssignTarget(AssignTarget(AssignTarget(t, "pitch", None, false), "roll", None, false), "bearing", None, false)
        else AssignTarget(t, axisName, None, false)
      else if m == "set" || m == "add" || m == "sub" then
        if valueText == "" then t
        else match parse(valueText)
          case None => t
          case Some(v) => AssignTarget(t, axisName, Some(if m == "sub" then -v else v), m != "set")
      else t
  }

  /** `set <axis> v` holds that axis at exactly v and leaves the other two. */
  lemma SetHolds(t: Targets, mode: string, axisName: string, valueText: string,
                 parse: string -> Option<real>, a: Axis, v: real)
    requires Lower(mode) == "set" && AxisNamed(axisName) == Some(a)
    requires valueText != "" && parse(valueText) == Some(v)
    ensures Update(t, mode, axisName, valueText, parse) == t.With(a, Some(v))
  {
  }

  /** `reset <axis>` releases that axis and leaves the other two. */
  lemma ResetReleases(t: Targets, mode: string, axisName: string, valueText: string,
                      parse: string -> Option<real>, a: Axis)
    requires Lower(mode) == "reset" && AxisNamed(axisName) == Some(a)
    ensures Update(t, mode, axisName, valueText, parse) == t.With(a, None)
  {
    assert Lower(axisName) != "all" by {
      assert Lower(axisName) == Name(a);
    }
  }

  /** `reset all` releases every axis. */
  lemma ResetAllReleases(t: Targets, mode: string, axisName: string, valueText: string,
                         parse: string -> Option<real>)
    requires Lower(mode) == "reset" && Lower(axisName) == "all"
    ensures Update(t, mode, axisName, valueText, parse) == NoTargets
  {
    AxisNamedByName(Pitch, "pitch");
    AxisNamedByName(Roll, "roll");
    AxisNamedByName(Bearing, "bearing");
  }

  /** `add <axis> v` adds v to a held target and holds an absent one at v. */
  lemma AddOffsets(t: Targets, mode: string, axisName: string, valueText: string,
                   parse: string -> Option<real>, a: Axis, v: real)
    requires Lower(mode) == "add" && AxisNamed(axisName) == Some(a)
    requires valueText != "" && parse(valueText) == Some(v)
    ensures t.Get(a).Some? ==>
      Update(t, mode, axisName, valueText, parse) == t.With(a, Some(t.Get(a).value + v))
    ensures t.Get(a).None? ==>
      Update(t, mode, axisName, valueText, parse) == t.With(a, Some(v))
  {
  }

  /** `sub <axis> v` is `add <axis> -v`. */
  lemma SubIsNegatedAdd(t: Targets, sub: string, add: string, axisName: string,
                        subText: string, addText: string, parse: string -> Option<real>, v: real)
    requires Lower(sub) == "sub" && Lower(add) == "add"
    requires subText != "" && parse(subText) == Some(v)
    requires addText != "" && parse(addText) == Some(-v)
    ensures Update(t, sub, axisName, subText, parse) == Update(t, add, axisName, addText, parse)
  {
  }

  /** `add <axis> v` followed by `sub <axis> v` restores a held target. */
  lemma AddThenSubRestores(t: Targets, add: string, sub: string, axisName: string,
                           valueText: string, parse: string -> Option<real>, a: Axis, v: real)
    requires Lower(add) == "add" && Lower(sub) == "sub" && AxisNamed(axisName) == Some(a)
    requires valueText != "" && parse(valueText) == Some(v)
    requires t.Get(a).Some?
    ensures Update(Update(t, add, axisName, valueText, parse), sub, axisName, valueText, parse) == t
  {
    var once := Update(t, add, axisName, valueText, parse);
    assert once == t.With(a, Some(t.Get(a).value + v));
    var twice := Update(once, sub, axisName, valueText, parse);
    assert twice == once.With(a, Some(t.Get(a).value + v + -v));
    assert twice.Get(a) == t.Get(a);
    assert forall b :: twice.Get(b) == t.Get(b);
    match a
    case Pitch =>
    case Roll =>
    case Bearing =>
  }

  /** An empty mode or axis name changes nothing. */
  lemma EmptyArgumentIgnored(t: Targets, mode: string, axisName: string, valueText: string,
                             parse: string -> Option<real>)
    requires mode == "" || axisName == ""
    ensures Update(t, mode, axisName, valueText, parse) == t
  {
  }

  /** set, add and sub without a readable number change nothing. */
  lemma UnreadableValueIgnored(t: Targets, mode: string, axisName: string, valueText: string,
                               parse: string -> Option<real>)
    requires Lower(mode) in ["set", "add", "sub"]
    requires valueText == "" || parse(valueText).None?
    ensures Update(t, mode, axisName, valueText, parse) == t
  {
  }

  /** A name other than pitch, roll or bearing (and `all` for reset) changes nothing. */
  lemma UnknownAxisIgnored(t: Targets, mode: string, axisName: string, valueText: string,
                           parse: string -> Option<real>)
    requires AxisNamed(axisName).None? && Lower(axisName) != "all"
    ensures Update(t, mode, axisName, valueText, parse) == t
  {
  }

  /** A mode other than reset, set, add or sub changes nothing. */
  lemma UnknownModeIgnored(t: Targets, mode: string, axisName: string, valueText: string,
                           parse: string -> Option<real>)
    requires Lower(mode) !in ["reset", "set", "add", "sub"]
    ensures Update(t, mode, axisName, valueText, parse) == t
  {
  }
}
