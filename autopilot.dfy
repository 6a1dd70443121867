/**
 * The autopilot script (Mdk.SimpleAutopilot/Program.cs): three proportional
 * controllers hold pitch, roll and bearing at optional targets by trimming the
 * elevators, ailerons and rudders, once per update tick; commands switch it on
 * and off, re-run block discovery and change the targets.
 *
 * The host is reduced to its observable effects: the attitude of a tick and
 * the blocks found on the grid are inputs, a control surface is a `Device`
 * record, and the number parser is a function passed in.
 */
module Autopilot {
  import opened Wrappers
  import opened Pid
  import opened Actuators
  import opened Setpoints
  import opened Cockpits
  import BearingMath

  /** Seconds between two update ticks: ten game frames at 60 frames per second. */
  const TimeStep: real := 10.0 / 60.0

  /** The gains of all three controllers: proportional only. */
  const Tuning: Gains := Gains(5.0, 0.0, 0.0)

  /** Pitch, roll and bearing of the primary cockpit at a tick, in degrees. */
  datatype Attitude = Attitude(pitch: real, roll: real, bearing: real)

  /**
   * What a search of the grid returns: the ship controllers, and the trimmable
   * members of the groups named Elevators, Ailerons and Rudders (None for a
   * group that does not exist).
   */
  datatype Discovery = Discovery(cockpits: seq<Cockpit>,
                                 elevatorGroup: Option<seq<Device>>,
                                 aileronGroup: Option<seq<Device>>,
                                 rudderGroup: Option<seq<Device>>)

  /** The outcome of a tick, as the script reports it. */
  datatype TickStatus =
    | NoCockpit
    | NoElevators
    | NoAilerons
    | NoRudders
    | Disabled
    | Engaged(pitch: Trim, roll: Trim, bearing: Trim)

  /** Everything of the script's state except the controllers. */
  datatype Snapshot = Snapshot(cockpit: Option<Cockpit>,
                               elevators: seq<Device>,
                               ailerons: seq<Device>,
                               rudders: seq<Device>,
                               desired: Targets,
                               initialized: bool,
                               enabled: bool)

  /**
   * The error an axis controller is fed: desired minus current for pitch and
   * roll; for bearing that difference wrapped into [-180, 180) and negated.
   */
  function ControllerInput(a: Axis, desired: real, current: real): (e: real)
    ensures a != Bearing ==> e == desired - current
    ensures a == Bearing ==> -180.0 < e <= 180.0 && BearingMath.WholeTurns((desired - current) + e)
  {
    if a == Bearing then -BearingMath.NormalizeError(desired - current) else desired - current
  }

  /** The command of one axis in an engaged tick: 0 without a target. */
  function AxisCommand(target: Option<real>, a: Axis, current: real): (t: Trim)
    ensures target.None? ==> t == Finite(0.0)
    ensures target.Some? ==> t == Narrow(Tuning.kp * ControllerInput(a, target.value, current))
  {
    match target
    case None => Finite(0.0)
    case Some(d) => Narrow(Tuning.kp * ControllerInput(a, d, current))
  }

  /** Why a tick stops before steering, or None when it steers. */
  function Blocker(s: Snapshot): (b: Option<TickStatus>)
    ensures b.None? <==> s.cockpit.Some? && |s.elevators| > 0 && |s.ailerons| > 0 && |s.rudders| > 0 && s.enabled
    ensures b.Some? ==> !b.value.Engaged?
    ensures s.cockpit.None? ==> b == Some(NoCockpit)
    ensures s.cockpit.Some? && |s.elevators| == 0 ==> b == Some(NoElevators)
    ensures s.cockpit.Some? && |s.elevators| > 0 && |s.ailerons| == 0 ==> b == Some(NoAilerons)
    ensures s.cockpit.Some? && |s.elevators| > 0 && |s.ailerons| > 0 && |s.rudders| == 0 ==> b == Some(NoRudders)
    ensures s.cockpit.Some? && |s.elevators| > 0 && |s.ailerons| > 0 && |s.rudders| > 0 && !s.enabled ==> b == Some(Disabled)
  {
    if s.cockpit.None? then Some(NoCockpit)
    else if |s.elevators| == 0 then Some(NoElevators)
    else if |s.ailerons| == 0 then Some(NoAilerons)
    else if |s.rudders| == 0 then Some(NoRudders)
    else if !s.enabled then Some(Disabled)
    else None
  }

  /** The commands of an engaged tick, one per axis, from the targets and the attitude. */
  function TickCommands(d: Targets, att: Attitude): TickStatus {
    Engaged(AxisCommand(d.pitch, Pitch, att.pitch),
            AxisCommand(d.roll, Roll, att.roll),
            AxisCommand(d.bearing, Bearing, att.bearing))
  }

  /** The state after an engaged tick: each surface list trimmed with its axis's command. */
  function Steered(s: Snapshot, c: TickStatus): Snapshot
    requires c.Engaged?
  {
    s.(elevators := TrimAll(s.elevators, c.pitch),
       ailerons := TrimAll(s.ailerons, c.roll),
       rudders := TrimAll(s.rudders, c.bearing))
  }

  /** Every surface of the script within the trim limit. */
  predicate TrimsLegal(s: Snapshot) {
    (forall i :: 0 <= i < |s.elevators| ==> -MaxTrim <= s.elevators[i].trim <= MaxTrim)
    && (forall i :: 0 <= i < |s.ailerons| ==> -MaxTrim <= s.ailerons[i].trim <= MaxTrim)
    && (forall i :: 0 <= i < |s.rudders| ==> -MaxTrim <= s.rudders[i].trim <= MaxTrim)
  }

  /** Argument i of a command line, or the empty string when there are fewer. */
  function Argument(args: seq<string>, i: nat): (r: string)
    ensures i >= |args| ==> r == ""
    ensures i < |args| ==> r == args[i]
  {
    if i < |args| then args[i] else ""
  }

  /** The command words that change the targets. */
  predicate IsAdjustment(w: string) {
    w == "set" || w == "add" || w == "sub" || w == "reset"
  }

  /**
   * The state after a command line (tokenised into its arguments). No command
   * changes the cockpit or the number of surfaces; only start/on and stop/off
   * flip the switch, only refresh touches the initialized flag, and only the
   * adjustment words change the targets.
   */
  function AfterCommand(s: Snapshot, args: seq<string>, parse: string -> Option<real>): (r: Snapshot)
    ensures r.cockpit == s.cockpit
    ensures |r.elevators| == |s.elevators| && |r.ailerons| == |s.ailerons| && |r.rudders| == |s.rudders|
    ensures r.enabled != s.enabled ==> |args| > 0 && Lower(args[0]) in ["start", "on", "stop", "off"]
    ensures r.initialized != s.initialized ==> |args| > 0 && Lower(args[0]) == "refresh" && !r.initialized
    ensures r.desired != s.desired ==> |args| > 0 && IsAdjustment(Lower(args[0]))
    ensures |args| > 0 && IsAdjustment(Lower(args[0])) ==>
      r == s.(desired := Update(s.desired, Lower(args[0]), Argument(args, 1), Argument(args, 2), parse))
  {
    if |args| == 0 then s
    else
      var w := Lower(args[0]);
      if w == "start" || w == "on" then s.(enabled := true)
      else if w == "stop" || w == "off" then
        s.(enabled := false,
           elevators := TrimAll(s.elevators, Finite(0.0)),
           ailerons := TrimAll(s.ailerons, Finite(0.0)),
           rudders := TrimAll(s.rudders, Finite(0.0)))
      else if w == "refresh" then s.(initialized := false)
      else if IsAdjustment(w) then
        s.(desired := Update(s.desired, w, Argument(args, 1), Argument(args, 2), parse))
      else s
  }

  /**
   * The state after a block search: with no ship controller nothing changes;
   * otherwise the primary cockpit is chosen, and the surface lists are filled
   * group by group until a group is missing, the rest staying empty.
   */
  function Discovered(s: Snapshot, found: Discovery): (r: Snapshot)
    ensures |found.cockpits| == 0 ==> r == s
    ensures r.desired == s.desired && r.initialized == s.initialized && r.enabled == s.enabled
    ensures |found.cockpits| > 0 ==>
      r.cockpit.Some? && r.cockpit.value == found.cockpits[AsWrittenChoice(found.cockpits)]
    ensures |found.cockpits| > 0 ==> r.elevators == found.elevatorGroup.GetOr([])
    ensures |found.cockpits| > 0 && found.elevatorGroup.None? ==> r.ailerons == [] && r.rudders == []
    ensures |found.cockpits| > 0 && found.elevatorGroup.Some? ==> r.ailerons == found.aileronGroup.GetOr([])
    ensures |found.cockpits| > 0 && found.aileronGroup.None? ==> r.rudders == []
    ensures |found.cockpits| > 0 && found.elevatorGroup.Some? && found.aileronGroup.Some? ==>
      r.rudders == found.rudderGroup.GetOr([])
  {
    if |found.cockpits| == 0 then s
    else
      var chosen := s.(cockpit := Some(found.cockpits[AsWrittenChoice(found.cockpits)]),
                       elevators := [], ailerons := [], rudders := []);
      match found.elevatorGroup
      case None => chosen
      case Some(e) =>
        match found.aileronGroup
        case None => chosen.(elevators := e)
        case Some(a) =>
          match found.rudderGroup
          case None => chosen.(elevators := e, ailerons := a)
          case Some(r) => chosen.(elevators := e, ailerons := a, rudders := r)
  }

  /** The state after Setup: a search of the grid unless one was already made. */
  function AfterSetup(s: Snapshot, found: Discovery): (r: Snapshot)
    ensures s.initialized ==> r == s
    ensures !s.initialized ==> r == Discovered(s.(initialized := true), found)
    ensures r.initialized
    ensures r.desired == s.desired && r.enabled == s.enabled
  {
    if s.initialized then s else Discovered(s.(initialized := true), found)
  }

  /** A controller the script owns: gains (5, 0, 0) and the tick as time step. */
  ghost predicate Tuned(p: PID)
    reads p
  {
    p.Valid() && p.CurrentGains() == Tuning && p.timeStep == TimeStep
  }

  /**
   * One axis of a tick: without a target the controller is not called; with
   * one it takes a step on the axis's input and holds Kp times that input.
   */
  twostate predicate Stepped(p: PID, target: Option<real>, a: Axis, current: real)
    reads p
  {
    match target
    case None => p.Memory() == old(p.Memory()) && p.Value == old(p.Value)
    case Some(d) =>
      var e := ControllerInput(a, d, current);
      p.Memory() == Next(old(p.Memory()), e, TimeStep) && p.Value == Tuning.kp * e
  }

  class Program {
    var primaryCockpit: Option<Cockpit>
    var elevators: seq<Device>
    var ailerons: seq<Device>
    var rudders: seq<Device>

    const pidPitch: PID
    const pidRoll: PID
    const pidBearing: PID

    var desiredPitch: Option<real>
    var desiredRoll: Option<real>
    var desiredBearing: Option<real>

    var initialized: bool
    var enabled: bool

    /** Three distinct controllers, all tuned as the script creates them. */
    ghost predicate Valid()
      reads this, pidPitch, pidRoll, pidBearing
    {
      pidPitch != pidRoll && pidRoll != pidBearing && pidPitch != pidBearing
      && Tuned(pidPitch) && Tuned(pidRoll) && Tuned(pidBearing)
    }

    function Desired(): Targets
      reads this
    {
      Targets(desiredPitch, desiredRoll, desiredBearing)
    }

    function State(): Snapshot
      reads this
    {
      Snapshot(primaryCockpit, elevators, ailerons, rudders, Desired(), initialized, enabled)
    }

    constructor ()
      ensures Valid()
      ensures State() == Snapshot(None, [], [], [], NoTargets, false, false)
      ensures pidPitch.Memory() == Rearmed && pidRoll.Memory() == Rearmed && pidBearing.Memory() == Rearmed
    {
      primaryCockpit := None;
      elevators, ailerons, rudders := [], [], [];
      pidPitch := new PID(5.0, 0.0, 0.0, TimeStep);
      pidRoll := new PID(5.0, 0.0, 0.0, TimeStep);
      pidBearing := new PID(5.0, 0.0, 0.0, TimeStep);
      desiredPitch, desiredRoll, desiredBearing := None, None, None;
      initialized := false;
      enabled := false;
    }

    /**
     * The update branch of Main: stop at the first missing piece or when
     * disabled; otherwise step the controller of every axis with a target,
     * command 0 on the others, and trim every surface list.
     */
    method Tick(att: Attitude) returns (status: TickStatus)
      requires Valid()
      modifies this`elevators, this`ailerons, this`rudders, pidPitch, pidRoll, pidBearing
      ensures Valid()
      ensures old(Blocker(State())).Some? ==>
        status == old(Blocker(State())).value && State() == old(State())
        && unchanged(pidPitch) && unchanged(pidRoll) && unchanged(pidBearing)
      ensures old(Blocker(State())).None? ==>
        status == TickCommands(old(Desired()), att)
        && State() == Steered(old(State()), status)
        && Stepped(pidPitch, desiredPitch, Pitch, att.pitch)
        && Stepped(pidRoll, desiredRoll, Roll, att.roll)
        && Stepped(pidBearing, desiredBearing, Bearing, att.bearing)
    {
      if primaryCockpit.None? {
        return NoCockpit;
      }
      if |elevators| == 0 {
        return NoElevators;
      }
      if |ailerons| == 0 {
        return NoAilerons;
      }
      if |rudders| == 0 {
        return NoRudders;
      }
      if !enabled {
        return Disabled;
      }
      status := Steer(att);
    }

    /**
     * The steering part of an enabled tick: step the controller of every axis
     * with a target, command 0 on the others, and trim every surface list.
     */
    method Steer(att: Attitude) returns (status: TickStatus)
      requires Valid()
      modifies this`elevators, this`ailerons, this`rudders, pidPitch, pidRoll, pidBearing
      ensures Valid()
      ensures status == TickCommands(old(Desired()), att)
      ensures State() == Steered(old(State()), status)
      ensures Stepped(pidPitch, desiredPitch, Pitch, att.pitch)
      ensures Stepped(pidRoll, desiredRoll, Roll, att.roll)
      ensures Stepped(pidBearing, desiredBearing, Bearing, att.bearing)
    {
      var pitchControl := StepAxis(pidPitch, desiredPitch, Pitch, att.pitch);
      var rollControl := StepAxis(pidRoll, desiredRoll, Roll, att.roll);
      var bearingControl := StepAxis(pidBearing, desiredBearing, Bearing, att.bearing);

      elevators := ApplyTrimMultiple(elevators, pitchControl);
      ailerons := ApplyTrimMultiple(ailerons, rollControl);
      rudders := ApplyTrimMultiple(rudders, bearingControl);
      return Engaged(pitchControl, rollControl, bearingControl);
    }

    /**
     * One axis of an engaged tick: command 0 without a target; otherwise the
     * controller's output on the axis's error, cast to float.
     */
    static method StepAxis(p: PID, target: Option<real>, a: Axis, current: real) returns (t: Trim)
      requires Tuned(p)
      modifies p
      ensures Tuned(p)
      ensures Stepped(p, target, a, current)
      ensures t == AxisCommand(target, a, current)
    {
      t := Finite(0.0);
      if target.Some? {
        var error := target.value - current;
        if a == Bearing {
          var normalizedError := BearingMath.NormalizeError(error);
          error := -normalizedError;
        }
        var out := p.Control(error);
        t := Narrow(out);
      }
    }

    /** UpdateDesiredInternal: assign (or offset) the target of the named axis. */
    method UpdateDesiredInternal(axisName: string, value: Option<real>, isOffset: bool)
      modifies this`desiredPitch, this`desiredRoll, this`desiredBearing
      ensures Desired() == AssignTarget(old(Desired()), axisName, value, isOffset)
    {
      var l := Lower(axisName);
      if l == "pitch" {
        if isOffset && value.Some? {
          desiredPitch := if desiredPitch.Some? then Some(desiredPitch.value + value.value) else value;
        } else {
          desiredPitch := value;
        }
      } else if l == "roll" {
        if isOffset && value.Some? {
          desiredRoll := if desiredRoll.Some? then Some(desiredRoll.value + value.value) else value;
        } else {
          desiredRoll := value;
        }
      } else if l == "bearing" {
        if isOffset && value.Some? {
          desiredBearing := if desiredBearing.Some? then Some(desiredBearing.value + value.value) else value;
        } else {
          desiredBearing := value;
        }
      }
    }

    /** UpdateDesired: one set, add, sub or reset command on the targets. */
    method UpdateDesired(mode: string, axisName: string, valueText: string, parse: string -> Option<real>)
      modifies this`desiredPitch, this`desiredRoll, this`desiredBearing
      ensures Desired() == Update(old(Desired()), mode, axisName, valueText, parse)
    {
      if mode == "" || axisName == "" {
        return;
      }
      var m := Lower(mode);
      if m == "reset" {
        if Lower(axisName) == "all" {
          UpdateDesiredInternal("pitch", None, false);
          UpdateDesiredInternal("roll", None, false);
          UpdateDesiredInternal("bearing", None, false);
          return;
        }
        UpdateDesiredInternal(axisName, None, false);
      } else if m == "set" || m == "add" || m == "sub" {
        if valueText == "" {
          return;
        }
        var parsed := parse(valueText);
        if parsed.None? {
          return;
        }
        var value := parsed.value;
        var isOffset := true;
        if m == "set" {
          isOffset := false;
        } else if m == "sub" {
          value := -value;
        }
        UpdateDesiredInternal(axisName, Some(value), isOffset);
      }
    }

    /** The command branch of Main, on an already tokenised command line. */
    method HandleCommand(args: seq<string>, parse: string -> Option<real>)
      modifies this`enabled, this`initialized, this`elevators, this`ailerons, this`rudders
      modifies this`desiredPitch, this`desiredRoll, this`desiredBearing
      ensures State() == AfterCommand(old(State()), args, parse)
    {
      if |args| == 0 {
        return;
      }
      var subCommand := Lower(args[0]);
      if subCommand == "start" || subCommand == "on" {
        enabled := true;
      } else if subCommand == "stop" || subCommand == "off" {
        enabled := false;
        elevators := ApplyTrimMultiple(elevators, Finite(0.0));
        ailerons := ApplyTrimMultiple(ailerons, Finite(0.0));
        rudders := ApplyTrimMultiple(rudders, Finite(0.0));
      } else if subCommand == "refresh" {
        initialized := false;
      } else if IsAdjustment(subCommand) {
        UpdateDesired(subCommand, Argument(args, 1), Argument(args, 2), parse);
      }
    }

    /** FindBlocks: search the grid and take over what it offers. */
    method FindBlocks(found: Discovery)
      modifies this`primaryCockpit, this`elevators, this`ailerons, this`rudders
      ensures State() == Discovered(old(State()), found)
    {
      if |found.cockpits| == 0 {
        return;
      }
      var k := SelectPrimary(found.cockpits);
      primaryCockpit := Some(found.cockpits[k]);

      elevators, ailerons, rudders := [], [], [];

      if found.elevatorGroup.None? {
        return;
      }
      elevators := found.elevatorGroup.value;

      if found.aileronGroup.None? {
        return;
      }
      ailerons := found.aileronGroup.value;

      if found.rudderGroup.None? {
        return;
      }
      rudders := found.rudderGroup.value;
    }

    /** Setup: search the grid once, until a refresh asks for another search. */
    method Setup(found: Discovery)
      modifies this`initialized, this`primaryCockpit, this`elevators, this`ailerons, this`rudders
      ensures State() == AfterSetup(old(State()), found)
    {
      if initialized {
        return;
      }
      initialized := true;
      FindBlocks(found);
    }

    /**
     * Main: search the grid if needed, then either run a tick (for an update
     * call) or handle the command line.
     */
    method Run(args: seq<string>, isUpdate: bool, found: Discovery, att: Attitude,
               parse: string -> Option<real>) returns (status: Option<TickStatus>)
      requires Valid()
      modifies this, pidPitch, pidRoll, pidBearing
      ensures Valid()
      ensures initialized || (!isUpdate && args != [] && Lower(args[0]) == "refresh")
      ensures status.Some? <==> isUpdate
      ensures !isUpdate ==>
        State() == AfterCommand(AfterSetup(old(State()), found), args, parse)
        && unchanged(pidPitch) && unchanged(pidRoll) && unchanged(pidBearing)
      ensures var s := AfterSetup(old(State()), found);
        isUpdate && Blocker(s).Some? ==>
          status == Some(Blocker(s).value) && State() == s
          && unchanged(pidPitch) && unchanged(pidRoll) && unchanged(pidBearing)
      ensures var s := AfterSetup(old(State()), found);
        isUpdate && Blocker(s).None? ==>
          status == Some(TickCommands(s.desired, att)) && State() == Steered(s, status.value)
          && Stepped(pidPitch, s.desired.pitch, Pitch, att.pitch)
          && Stepped(pidRoll, s.desired.roll, Roll, att.roll)
          && Stepped(pidBearing, s.desired.bearing, Bearing, att.bearing)
    {
      Setup(found);
      if isUpdate {
        var s := Tick(att);
        status := Some(s);
      } else {
        HandleCommand(args, parse);
        status := None;
      }
    }
  }

  /** A tick steers only with a cockpit, three non-empty surface lists and the switch on. */
  lemma SteersExactlyWhenReady(s: Snapshot)
    ensures Blocker(s).None? <==>
      s.cockpit.Some? && s.elevators != [] && s.ailerons != [] && s.rudders != [] && s.enabled
  {
  }

  /** The controller of an axis with a target is fed desired minus current (wrapped for bearing). */
  lemma BearingInputIsShortestTurn(desired: real, current: real)
    ensures ControllerInput(Bearing, desired, current) == -BearingMath.NormalizeError(desired - current)
    ensures -180.0 <= desired - current < 180.0 ==> ControllerInput(Bearing, desired, current) == current - desired
  {
    if -180.0 <= desired - current < 180.0 {
      BearingMath.NormalizeInWindow(desired - current);
    }
  }

  /** An engaged tick keeps every elevator, aileron and rudder within the trim limit. */
  lemma EngagedTrimsBounded(s: Snapshot, att: Attitude)
    requires TrimsLegal(s)
    ensures TrimsLegal(Steered(s, TickCommands(s.desired, att)))
  {
    var c := TickCommands(s.desired, att);
    TrimsBounded(s.elevators, c.pitch);
    TrimsBounded(s.ailerons, c.roll);
    TrimsBounded(s.rudders, c.bearing);
  }

  /** `start` and `on` switch the autopilot on and change nothing else. */
  lemma StartEnables(s: Snapshot, args: seq<string>, parse: string -> Option<real>)
    requires args != [] && (Lower(args[0]) == "start" || Lower(args[0]) == "on")
    ensures AfterCommand(s, args, parse) == s.(enabled := true)
  {
  }

  /**
   * `stop` and `off` switch the autopilot off and write 0 to every surface,
   * whatever its invert flag; the targets are kept.
   */
  lemma StopZeroesSurfaces(s: Snapshot, args: seq<string>, parse: string -> Option<real>)
    requires args != [] && (Lower(args[0]) == "stop" || Lower(args[0]) == "off")
    ensures var r := AfterCommand(s, args, parse);
      !r.enabled && r.desired == s.desired && r.cockpit == s.cockpit
      && |r.elevators| == |s.elevators| && |r.ailerons| == |s.ailerons| && |r.rudders| == |s.rudders|
      && (forall i :: 0 <= i < |s.elevators| ==> r.elevators[i] == Device(s.elevators[i].invert, 0.0))
      && (forall i :: 0 <= i < |s.ailerons| ==> r.ailerons[i] == Device(s.ailerons[i].invert, 0.0))
      && (forall i :: 0 <= i < |s.rudders| ==> r.rudders[i] == Device(s.rudders[i].invert, 0.0))
  {
    ZeroCommandIgnoresInvert(s.elevators);
    ZeroCommandIgnoresInvert(s.ailerons);
    ZeroCommandIgnoresInvert(s.rudders);
  }

  /** After `stop` the next tick does not steer. */
  lemma StopBlocksTick(s: Snapshot, args: seq<string>, parse: string -> Option<real>)
    requires args != [] && (Lower(args[0]) == "stop" || Lower(args[0]) == "off")
    ensures Blocker(AfterCommand(s, args, parse)).Some?
  {
  }

  /** `refresh` asks for a new block search and changes nothing else. */
  lemma RefreshRequestsSearch(s: Snapshot, args: seq<string>, parse: string -> Option<real>)
    requires args != [] && Lower(args[0]) == "refresh"
    ensures AfterCommand(s, args, parse) == s.(initialized := false)
  {
  }

  /** The command word is read without regard to case. */
  lemma CommandWordCaseInsensitive(s: Snapshot, args: seq<string>, parse: string -> Option<real>)
    requires args != []
    ensures AfterCommand(s, [Lower(args[0])] + args[1..], parse) == AfterCommand(s, args, parse)
  {
    LowerIdempotent(args[0]);
    var lowered := [Lower(args[0])] + args[1..];
    assert Argument(lowered, 1) == Argument(args, 1);
    assert Argument(lowered, 2) == Argument(args, 2);
  }

  /** An empty command line and an unknown command word change nothing. */
  lemma UnknownCommandIgnored(s: Snapshot, args: seq<string>, parse: string -> Option<real>)
    requires args == [] || Lower(args[0]) !in ["start", "on", "stop", "off", "refresh", "set", "add", "sub", "reset"]
    ensures AfterCommand(s, args, parse) == s
  {
  }

  /** A search that finds no ship controller keeps the previous cockpit and surfaces. */
  lemma EmptySearchKeepsState(s: Snapshot, found: Discovery)
    requires found.cockpits == []
    ensures Discovered(s, found) == s
  {
  }

  /**
   * A search with a ship controller but no Elevators group leaves every
   * surface list empty, so the next tick reports the missing elevators.
   */
  lemma MissingElevatorsBlockTick(s: Snapshot, found: Discovery)
    requires found.cockpits != [] && found.elevatorGroup.None?
    ensures Blocker(Discovered(s, found)) == Some(NoElevators)
  {
  }

  /**
   * A search that finds everything takes over the groups; the cockpit is the
   * first that is main or controlled, or the first one when none is.
   */
  lemma FullSearch(s: Snapshot, found: Discovery, e: seq<Device>, a: seq<Device>, r: seq<Device>)
    requires found.cockpits != []
    requires found.elevatorGroup == Some(e) && found.aileronGroup == Some(a) && found.rudderGroup == Some(r)
    ensures var d := Discovered(s, found);
      d.elevators == e && d.ailerons == a && d.rudders == r
      && d.cockpit.Some? && d.cockpit.value in found.cockpits
      && ((exists j :: 0 <= j < |found.cockpits| && Flagged(found.cockpits[j])) ==> Flagged(d.cockpit.value))
      && ((forall j :: 0 <= j < |found.cockpits| ==> !Flagged(found.cockpits[j])) ==> d.cockpit.value == found.cockpits[0])
  {
  }
}
