/**
 * The older error responses of `ad_server/views/errors.py`: the same shape
 * as the message envelope, with the reason phrase under `error`.
 */
module Errors {
  import opened Http
  import Messages

  /** `error(status, message)`: `error` holds the reason phrase, `message` the message. */
  function Error(status: int, message: string := ""): (r: Response)
    ensures r.JsonResponse? && r.status == status
    ensures r.body.Keys == {"error", "message"}
    ensures r.body["error"] == JStr(ReasonPhrase(status))
    ensures r.body["message"] == JStr(message)
  {
    JsonResponse(status, map["error" := JStr(ReasonPhrase(status)), "message" := JStr(message)])
  }

  /** `bad_request(message)` */
  function BadRequest(message: string := ""): (r: Response)
    ensures r == JsonResponse(400, map["error" := JStr("Bad Request"), "message" := JStr(message)])
  {
    Error(400, message)
  }

  /** `internal_error(message)` */
  function InternalError(message: string := ""): (r: Response)
    ensures r == JsonResponse(500, map["error" := JStr("Internal Server Error"), "message" := JStr(message)])
  {
    Error(500, message)
  }

  /** `forbidden(message)` */
  function Forbidden(message: string := ""): (r: Response)
    ensures r == JsonResponse(403, map["error" := JStr("Forbidden"), "message" := JStr(message)])
  {
    Error(403, message)
  }

  /** `not_found(message)` */
  function NotFound(message: string := ""): (r: Response)
    ensures r == JsonResponse(404, map["error" := JStr("Not Found"), "message" := JStr(message)])
  {
    Error(404, message)
  }

  /**
   * The two response modules agree: for any status and message, `error`
   * carries the phrase that the message envelope puts under `status`, and
   * both carry the same status code and message.
   */
  lemma ErrorMatchesEnvelope(status: int, message: string)
    ensures var e := Error(status, message);
            var m := Messages.Envelope(status, message, []);
            e.status == m.status &&
            e.body["error"] == m.body["status"] &&
            e.body["message"] == m.body["message"]
  {
  }

  /** An unknown status falls back to the 500 phrase while keeping its own code. */
  lemma UnknownStatusPhrase(status: int)
    requires StatusPhrase(status).None?
    ensures Error(status).status == status
    ensures Error(status).body["error"] == JStr("Internal Server Error")
    ensures Error(status).body["message"] == JStr("")
  {
  }
}
