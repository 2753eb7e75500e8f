/**
 * The data the mission sequencer, its worker and the flight-control service pass around:
 * mission plans, their commands, status records and the messages published on the
 * store's channels.
 */
module Missions {
  import opened Wrappers

  /** The status strings written under `mission:<id>:status`: QUEUED, IN_PROGRESS, COMPLETED,
      FAILED, ABORTED and ABORT_REQUESTED. */
  datatype Status = Queued | InProgress | Completed | Failed | Aborted | AbortRequested

  /** The JSON object `{"status": ..., "details": ...}` stored for a mission. */
  datatype StatusRecord = StatusRecord(status: Status, details: string)

  /** A JSON value found under a command's `parameters` key. `Text` carries what Python's
      `float()` makes of the text (None when `float()` rejects it). */
  datatype ParamValue =
    | Number(x: real)
    | Boolean(b: bool)
    | Text(text: string, asFloat: Option<real>)
    | Null
    | Container(nonEmpty: bool)

  /** The `parameters` entry of a command: absent, a JSON object, or some other JSON value. */
  datatype Parameters = NoParameters | ParamObject(fields: map<string, ParamValue>) | ParamNotObject

  /** The `delay_ms` entry of a command: absent, a number of milliseconds, or a value of
      another JSON type (named by its Python type name) that `/ 1000.0` rejects. */
  datatype DelayField = NoDelay | DelayMillis(ms: int) | DelayNotNumber(typeName: string)

  /** One element of a plan's `flight_plan`: a JSON object with `command`, `parameters`
      and `delay_ms`, each possibly missing. */
  datatype FlightCommand = FlightCommand(command: Option<string>, parameters: Parameters, delay: DelayField)

  /** A submitted mission plan; a key that the JSON object lacks is None. */
  datatype MissionPlan = MissionPlan(
    missionId: Option<string>,
    missionName: Option<string>,
    flightPlan: Option<seq<FlightCommand>>)

  /** What is published on a channel: a status event `{"mission_id", "status", "details"}`,
      a command forwarded to flight control, or a bare mission id asking for an abort. */
  datatype Message =
    | StatusEvent(missionId: string, record: StatusRecord)
    | CommandEvent(command: FlightCommand)
    | AbortRequest(missionId: string)

  datatype Publication = Publication(channel: string, message: Message)

  const StatusChannel := "mission_status"
  const GncChannel := "gnc_commands"
  const AbortChannel := "mission_abort_commands"

  const KeyPrefix := "mission:"
  const KeySuffix := ":status"

  /** The store key `mission:<id>:status`. */
  function StatusKey(missionId: string): (key: string)
    ensures |key| == |missionId| + |KeyPrefix| + |KeySuffix|
    ensures key[|KeyPrefix|..|KeyPrefix| + |missionId|] == missionId
  {
    KeyPrefix + missionId + KeySuffix
  }

  /** Different missions never share a status key. */
  lemma StatusKeyInjective(a: string, b: string)
    requires StatusKey(a) == StatusKey(b)
    ensures a == b
  {
  }

  function StatusPublication(missionId: string, status: Status, details: string): Publication {
    Publication(StatusChannel, StatusEvent(missionId, StatusRecord(status, details)))
  }
}
