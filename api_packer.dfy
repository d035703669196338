/**
 * The response envelope of utils/api_packer.py: a view's reply is either a
 * body or an `Error` (including the success marker `OK`); the envelope is
 * the chosen error's own JSON with `body` set, and the HTTP status is the
 * chosen error's code.
 */
module ApiPacker {
  import opened Values
  import opened Errors

  /** What a view hands back: a value to send, or an `Error` object (returned or raised). */
  datatype Reply = Body(value: Value) | Marker(error: Error)

  /** The response: its status and the JSON object it carries (serialising it is not modelled). */
  datatype Response = Response(status: Code, content: Dict)

  /** The error whose envelope is used: the reply's own error, or `OK` for a body. */
  function Chosen(reply: Reply): (e: Error)
    ensures reply.Marker? ==> e == reply.error
    ensures reply.Body? ==> e == OkError && e.code == OK
  {
    match reply
    case Body(_) => OkError
    case Marker(e) => e
  }

  /**
   * `pack(resp)`: `to_json` of the chosen error with `body` written last, so
   * `body` is always present (None for an error) and replaces any `body` the
   * error's JSON had; every other entry is the error's own.
   */
  function Pack(toJson: Error -> Dict, reply: Reply): (r: Response)
    ensures r.status == Chosen(reply).code
    ensures reply.Marker? ==> Get(r.content, "body") == Some(VNone)
    ensures reply.Body? ==> r.status == OK && Get(r.content, "body") == Some(reply.value)
    ensures forall k :: k != "body" ==> Get(r.content, k) == Get(toJson(Chosen(reply)), k)
    ensures KeyList(r.content) == if "body" in KeyList(toJson(Chosen(reply))) then KeyList(toJson(Chosen(reply)))
                                  else KeyList(toJson(Chosen(reply))) + ["body"]
  {
    var body := if reply.Body? then reply.value else VNone;
    var envelope := toJson(Chosen(reply));
    assert forall k :: k != "body" ==> Get(Put(envelope, "body", body), k) == Get(envelope, k) by {
      forall k | k != "body" ensures Get(Put(envelope, "body", body), k) == Get(envelope, k) {
        PutOther(envelope, "body", body, k);
      }
    }
    Response(Chosen(reply).code, Put(envelope, "body", body))
  }

  /** A view that returns `OK` gets the success status and an empty body, like a raised error would. */
  lemma OkMarkerHasNoBody(toJson: Error -> Dict)
    ensures Pack(toJson, Marker(OkError)).status == OK
    ensures Get(Pack(toJson, Marker(OkError)).content, "body") == Some(VNone)
    ensures Pack(toJson, Marker(OkError)).content == Pack(toJson, Body(VNone)).content
  {
  }
}
