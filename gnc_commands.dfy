/**
 * How the flight-control service applies a command from the mission sequencer to the active
 * vessel's controls: throttle, SAS, RCS, staging and the autopilot.
 */
module GncCommands {
  import opened Wrappers
  import opened Missions

  const SetThrottle := "SET_THROTTLE"
  const ActivateNextStage := "ACTIVATE_NEXT_STAGE"
  const SetSas := "SET_SAS"
  const SetRcs := "SET_RCS"
  const SetAutopilot := "SET_AUTOPILOT_PITCH_AND_HEADING"

  /** The autopilot's target attitude in degrees. */
  datatype Attitude = Attitude(pitch: real, heading: real)

  /** The vessel controls commands act on; `stagesActivated` counts `activate_next_stage` calls. */
  datatype ControlState = ControlState(
    throttle: real,
    sas: bool,
    rcs: bool,
    stagesActivated: nat,
    autopilotEngaged: bool,
    target: Option<Attitude>)

  /** Python's `float(v)` on a JSON value; the failure names the exception. */
  function ToFloat(v: ParamValue): (r: Result<real, string>)
    ensures v.Number? ==> r == Success(v.x)
    ensures v.Boolean? ==> r == Success(if v.b then 1.0 else 0.0)
    ensures v.Text? && v.asFloat.Some? ==> r == Success(v.asFloat.value)
    ensures v.Text? && v.asFloat.None? ==> r == Failure("ValueError")
    ensures v.Null? || v.Container? ==> r == Failure("TypeError")
  {
    match v
    case Number(x) => Success(x)
    case Boolean(b) => Success(if b then 1.0 else 0.0)
    case Text(_, parsed) => if parsed.Some? then Success(parsed.value) else Failure("ValueError")
    case Null => Failure("TypeError")
    case Container(_) => Failure("TypeError")
  }

  /** Python's `bool(v)`: zero, false, the empty string, null and empty containers are false.
      On numbers and booleans it agrees with comparing `float(v)` against zero. */
  function Truthy(v: ParamValue): (r: bool)
    ensures v.Number? || v.Boolean? ==> (r <==> ToFloat(v) != Success(0.0))
    ensures v.Text? ==> (r <==> v.text != "")
    ensures v.Null? ==> !r
  {
    match v
    case Number(x) => x != 0.0
    case Boolean(b) => b
    case Text(t, _) => |t| > 0
    case Null => false
    case Container(nonEmpty) => nonEmpty
  }

  /** `params.get(key, default)`, where `params` is `command_data.get("parameters", {})`: a
      missing `parameters` entry reads as `{}`, and a non-object has no `get`. */
  function Lookup(p: Parameters, key: string, default: ParamValue): (r: Result<ParamValue, string>)
    ensures r.Failure? <==> p.ParamNotObject?
    ensures p.ParamObject? && key in p.fields ==> r == Success(p.fields[key])
    ensures (p.NoParameters? || (p.ParamObject? && key !in p.fields)) ==> r == Success(default)
  {
    match p
    case NoParameters => Success(default)
    case ParamObject(fields) => Success(if key in fields then fields[key] else default)
    case ParamNotObject => Failure("AttributeError")
  }

  /** `float(params.get(key, default))`. */
  function FloatParam(p: Parameters, key: string, default: real): Result<real, string> {
    match Lookup(p, key, Number(default))
    case Success(v) => ToFloat(v)
    case Failure(e) => Failure(e)
  }

  /** `bool(params.get(key, default))`. */
  function BoolParam(p: Parameters, key: string, default: bool): Result<bool, string> {
    match Lookup(p, key, Boolean(default))
    case Success(v) => Success(Truthy(v))
    case Failure(e) => Failure(e)
  }

  /** The commands `execute_command` acts on. */
  predicate Known(command: Option<string>) {
    command in {Some(SetThrottle), Some(ActivateNextStage), Some(SetSas), Some(SetRcs), Some(SetAutopilot)}
  }

  /** The controls after `execute_command` on a connected vessel. A failing conversion raises
      before its assignment and is caught, so it leaves that control as it was; the autopilot
      is engaged before its targets are converted. Each command touches only its own
      controls, staging advances by exactly one, and an unknown command (or none) changes
      nothing. */
  function Dispatch(s: ControlState, c: FlightCommand): (r: ControlState)
    ensures r.throttle != s.throttle ==> c.command == Some(SetThrottle)
    ensures r.sas != s.sas ==> c.command == Some(SetSas)
    ensures r.rcs != s.rcs ==> c.command == Some(SetRcs)
    ensures r.autopilotEngaged != s.autopilotEngaged || r.target != s.target ==> c.command == Some(SetAutopilot)
    ensures r.stagesActivated == if c.command == Some(ActivateNextStage) then s.stagesActivated + 1 else s.stagesActivated
    ensures !Known(c.command) ==> r == s
  {
    if c.command == Some(SetThrottle) then
      match FloatParam(c.parameters, "value", 0.0)
      case Success(x) => s.(throttle := x)
      case Failure(_) => s
    else if c.command == Some(ActivateNextStage) then
      s.(stagesActivated := s.stagesActivated + 1)
    else if c.command == Some(SetSas) then
      match BoolParam(c.parameters, "value", false)
      case Success(b) => s.(sas := b)
      case Failure(_) => s
    else if c.command == Some(SetRcs) then
      match BoolParam(c.parameters, "value", false)
      case Success(b) => s.(rcs := b)
      case Failure(_) => s
    else if c.command == Some(SetAutopilot) then
      var engaged := s.(autopilotEngaged := true);
      match (FloatParam(c.parameters, "pitch", 90.0), FloatParam(c.parameters, "heading", 90.0))
      case (Success(pitch), Success(heading)) => engaged.(target := Some(Attitude(pitch, heading)))
      case _ => engaged
    else
      s
  }


  /** SET_THROTTLE sets the throttle to `parameters.value` (0.0 when absent); a value `float()`
      rejects, or parameters that are not an object, leave the controls as they were. */
  lemma ThrottleCommand(s: ControlState, c: FlightCommand)
    requires c.command == Some(SetThrottle)
    ensures c.parameters.ParamObject? && "value" in c.parameters.fields
            && ToFloat(c.parameters.fields["value"]).Success?
        ==> Dispatch(s, c) == s.(throttle := ToFloat(c.parameters.fields["value"]).value)
    ensures c.parameters.NoParameters? || (c.parameters.ParamObject? && "value" !in c.parameters.fields)
        ==> Dispatch(s, c) == s.(throttle := 0.0)
    ensures c.parameters.ParamNotObject?
            || (c.parameters.ParamObject? && "value" in c.parameters.fields
                && ToFloat(c.parameters.fields["value"]).Failure?)
        ==> Dispatch(s, c) == s
  {
  }

  /** SET_SAS and SET_RCS set their switch to the truth of `parameters.value` (off when
      absent), and to nothing when the parameters are not an object. */
  lemma SwitchCommands(s: ControlState, c: FlightCommand)
    requires c.command == Some(SetSas) || c.command == Some(SetRcs)
    ensures c.parameters.ParamNotObject? ==> Dispatch(s, c) == s
    ensures c.parameters.ParamObject? && "value" in c.parameters.fields ==>
      var on := Truthy(c.parameters.fields["value"]);
      Dispatch(s, c) == if c.command == Some(SetSas) then s.(sas := on) else s.(rcs := on)
    ensures c.parameters.NoParameters? || (c.parameters.ParamObject? && "value" !in c.parameters.fields) ==>
      Dispatch(s, c) == if c.command == Some(SetSas) then s.(sas := false) else s.(rcs := false)
  {
  }

  /** ACTIVATE_NEXT_STAGE stages exactly once, whatever its parameters. */
  lemma StageCommand(s: ControlState, c: FlightCommand)
    requires c.command == Some(ActivateNextStage)
    ensures Dispatch(s, c) == s.(stagesActivated := s.stagesActivated + 1)
    ensures forall p :: Dispatch(s, c.(parameters := p)) == Dispatch(s, c)
  {
  }

  /** SET_AUTOPILOT_PITCH_AND_HEADING always engages the autopilot, and targets the given
      pitch and heading (90 each when absent) only when both convert. */
  lemma AutopilotCommand(s: ControlState, c: FlightCommand)
    requires c.command == Some(SetAutopilot)
    ensures Dispatch(s, c).autopilotEngaged
    ensures var pitch := FloatParam(c.parameters, "pitch", 90.0);
      var heading := FloatParam(c.parameters, "heading", 90.0);
      Dispatch(s, c).target
        == if pitch.Success? && heading.Success? then Some(Attitude(pitch.value, heading.value)) else s.target
    ensures c.parameters.NoParameters? ==> Dispatch(s, c).target == Some(Attitude(90.0, 90.0))
    ensures c.parameters.ParamNotObject? ==> Dispatch(s, c) == s.(autopilotEngaged := true)
    ensures Dispatch(s, c).throttle == s.throttle && Dispatch(s, c).sas == s.sas
         && Dispatch(s, c).rcs == s.rcs && Dispatch(s, c).stagesActivated == s.stagesActivated
  {
  }

  /** The active vessel as kRPC exposes it: assigning a control changes it on the vessel. */
  class Vessel {
    var throttle: real
    var sas: bool
    var rcs: bool
    var stagesActivated: nat
    var autopilotEngaged: bool
    var target: Option<Attitude>

    function Controls(): ControlState
      reads this
    {
      ControlState(throttle, sas, rcs, stagesActivated, autopilotEngaged, target)
    }

    constructor (s: ControlState)
      ensures Controls() == s
    {
      throttle := s.throttle;
      sas := s.sas;
      rcs := s.rcs;
      stagesActivated := s.stagesActivated;
      autopilotEngaged := s.autopilotEngaged;
      target := s.target;
    }

    method SetThrottleTo(x: real)
      modifies this
      ensures Controls() == old(Controls()).(throttle := x)
    {
      throttle := x;
    }

    method SetSasTo(on: bool)
      modifies this
      ensures Controls() == old(Controls()).(sas := on)
    {
      sas := on;
    }

    method SetRcsTo(on: bool)
      modifies this
      ensures Controls() == old(Controls()).(rcs := on)
    {
      rcs := on;
    }

    /** `control.activate_next_stage()`. */
    method StageNext()
      modifies this
      ensures Controls() == old(Controls()).(stagesActivated := old(stagesActivated) + 1)
    {
      stagesActivated := stagesActivated + 1;
    }

    /** `auto_pilot.engage()`. */
    method Engage()
      modifies this
      ensures Controls() == old(Controls()).(autopilotEngaged := true)
    {
      autopilotEngaged := true;
    }

    /** `auto_pilot.target_pitch_and_heading(pitch, heading)`. */
    method TargetPitchAndHeading(pitch: real, heading: real)
      modifies this
      ensures Controls() == old(Controls()).(target := Some(Attitude(pitch, heading)))
    {
      target := Some(Attitude(pitch, heading));
    }
  }
}
