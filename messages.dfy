/**
 * The response envelope of the views (`ad_server/views/messages.py`):
 * `Message.send_message`, the `ErrorMessage` helpers and `success`.
 */
module Messages {
  import opened Http
  import opened Dicts

  /** The keyword arguments of `send_message`, in call order. */
  type Extras = seq<(string, Json)>

  /** The two entries `send_message` starts from. */
  function BaseBody(code: int, message: string): map<string, Json> {
    map["status" := JStr(ReasonPhrase(code)), "message" := JStr(message)]
  }

  /** The response that `send_message(code, message, **extras)` returns. */
  function Envelope(code: int, message: string, extras: Extras): Response {
    JsonResponse(code, Assign(BaseBody(code, message), extras))
  }

  /** `Message.send_message`: the base entries, then every extra copied in. */
  method SendMessage(statusCode: int, message: string, extras: Extras) returns (r: Response)
    ensures r == Envelope(statusCode, message, extras)
  {
    var responseData := BaseBody(statusCode, message);
    var i := 0;
    while i < |extras|
      invariant 0 <= i <= |extras|
      invariant responseData == Assign(BaseBody(statusCode, message), extras[..i])
    {
      var (k, v) := extras[i];
      assert extras[..i + 1] == extras[..i] + [extras[i]];
      AssignSnoc(BaseBody(statusCode, message), extras[..i], extras[i]);
      responseData := responseData[k := v];
      i := i + 1;
    }
    assert extras[..i] == extras;
    r := JsonResponse(statusCode, responseData);
  }

  /**
   * What the envelope holds: the status code passed in; `status` is the
   * reason phrase and `message` the message unless an extra of the same
   * name overrides it; every extra is present with the value of its last
   * occurrence; and nothing else.
   */
  lemma EnvelopeContents(code: int, message: string, extras: Extras)
    ensures Envelope(code, message, extras).status == code
    ensures Envelope(code, message, extras).body.Keys == {"status", "message"} + KeysOf(extras)
    ensures "status" !in KeysOf(extras) ==>
              Envelope(code, message, extras).body["status"] == JStr(ReasonPhrase(code))
    ensures "message" !in KeysOf(extras) ==>
              Envelope(code, message, extras).body["message"] == JStr(message)
    ensures forall i :: 0 <= i < |extras| && IsLastFor(extras, extras[i].0, i) ==>
              Envelope(code, message, extras).body[extras[i].0] == extras[i].1
  {
    var base := BaseBody(code, message);
    AssignKeys(base, extras);
    if "status" !in KeysOf(extras) {
      AssignUntouched(base, extras, "status");
    }
    if "message" !in KeysOf(extras) {
      AssignUntouched(base, extras, "message");
    }
    forall i | 0 <= i < |extras| && IsLastFor(extras, extras[i].0, i)
      ensures Assign(base, extras)[extras[i].0] == extras[i].1
    {
      AssignLastWins(base, extras, extras[i].0, i);
    }
  }

  /** An extra named `status` replaces the reason phrase. */
  lemma ExtraOverridesStatus(code: int, message: string, v: Json)
    ensures Envelope(code, message, [("status", v)]).body["status"] == v
  {
  }

  /** The plain envelope of the error helpers: exactly `status` and `message`. */
  predicate IsPlainMessage(r: Response, code: int, phrase: string, message: string) {
    r == JsonResponse(code, map["status" := JStr(phrase), "message" := JStr(message)])
  }

  /** `errors.bad_request(message)` */
  function BadRequest(message: string := ""): (r: Response)
    ensures IsPlainMessage(r, 400, "Bad Request", message)
  {
    Envelope(400, message, [])
  }

  /** `errors.internal_error(message)` */
  function InternalError(message: string := ""): (r: Response)
    ensures IsPlainMessage(r, 500, "Internal Server Error", message)
  {
    Envelope(500, message, [])
  }

  /** `errors.forbidden(message)` */
  function Forbidden(message: string := ""): (r: Response)
    ensures IsPlainMessage(r, 403, "Forbidden", message)
  {
    Envelope(403, message, [])
  }

  /** `errors.not_found(message)` */
  function NotFound(message: string := ""): (r: Response)
    ensures IsPlainMessage(r, 404, "Not Found", message)
  {
    Envelope(404, message, [])
  }

  /** `errors.unauthorized(message)` */
  function Unauthorized(message: string := ""): (r: Response)
    ensures IsPlainMessage(r, 401, "Unauthorized", message)
  {
    Envelope(401, message, [])
  }

  /**
   * `success(message, status_code, **extras)`: status 200 unless another code
   * is given, the reason phrase and the message, then the extras.
   */
  function Success(message: string := "", statusCode: int := 200, extras: Extras := []): (r: Response)
    ensures r.JsonResponse? && r.status == statusCode
    ensures r.body.Keys == {"status", "message"} + KeysOf(extras)
    ensures "status" !in KeysOf(extras) ==> r.body["status"] == JStr(ReasonPhrase(statusCode))
    ensures "message" !in KeysOf(extras) ==> r.body["message"] == JStr(message)
    ensures forall i :: 0 <= i < |extras| && IsLastFor(extras, extras[i].0, i) ==> r.body[extras[i].0] == extras[i].1
  {
    EnvelopeContents(statusCode, message, extras);
    Envelope(statusCode, message, extras)
  }

  /** A success with no extras is the plain 200 envelope. */
  lemma SuccessDefaults(message: string)
    ensures IsPlainMessage(Success(message), 200, "OK", message)
  {
  }
}
