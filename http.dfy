/**
 * HTTP responses of the two Flask services: a status code and the JSON body `jsonify` sends.
 */
module Http {
  import opened Wrappers
  import opened Missions

  datatype Body =
    /** `{"error": ...}`, with `"details"` when present. */
    | ErrorBody(error: string, details: Option<string>)
    /** `{"message": ..., "mission_id": ...}`. */
    | Acknowledged(message: string, missionId: string)
    /** A stored status record, sent back as it was stored. */
    | RecordBody(record: StatusRecord)
    /** `{"service": ..., "status": ..., "dependencies": {"redis": ...}}`. */
    | HealthBody(service: string, status: string, redis: string)
    /** A JSON object received from the mission sequencer and passed on unchanged. */
    | Relayed(fields: map<string, string>)
    /** A JSON array of file names. */
    | Listing(names: seq<string>)
    /** Flask's own "500 Internal Server Error" page for an exception no handler catches. */
    | ServerErrorPage

  datatype Response = Response(code: int, body: Body)

  function Error(code: int, message: string): Response {
    Response(code, ErrorBody(message, None))
  }

  const InternalServerError := Response(500, ServerErrorPage)
}
