/**
 * lib/Structures/Error.js: the error a failed request rejects with, built
 * from whatever the transport threw.
 */
module HttpErrors {
  import opened Wrappers
  import opened Json

  /** The status and message used when the transport error has no body. */
  const Fallback := JNumber(500)

  /** What the transport threw; only its `body` property is read (`None` is `undefined`). */
  datatype TransportError = TransportError(body: Option<Json>)

  /** `code` and `message` may be `undefined` (`None`) when the body lacks them. */
  datatype HTTPError = HTTPError(code: Option<Json>, message: Option<Json>)

  /** `error.body ? ... : ...`: the body is present and truthy. */
  predicate HasBody(e: TransportError) {
    e.body.Some? && Truthy(e.body.value)
  }

  /** `new HTTPError(error)`. */
  function FromTransport(e: TransportError): (r: HTTPError)
    ensures !HasBody(e) ==> r == HTTPError(Some(Fallback), Some(Fallback))
    ensures e.body.Some? && e.body.value.JObject? && "code" in e.body.value.fields ==>
              r.code == Some(e.body.value.fields["code"])
    ensures e.body.Some? && e.body.value.JObject? && "message" in e.body.value.fields ==>
              r.message == Some(e.body.value.fields["message"])
    ensures r.code.None? <==> HasBody(e) && !(e.body.value.JObject? && "code" in e.body.value.fields)
    ensures r.message.None? <==> HasBody(e) && !(e.body.value.JObject? && "message" in e.body.value.fields)
  {
    if HasBody(e) then HTTPError(Member(e.body.value, "code"), Member(e.body.value, "message"))
    else HTTPError(Some(Fallback), Some(Fallback))
  }

  /** `getCode()`. */
  function GetCode(err: HTTPError): Option<Json> {
    err.code
  }

  /** `getMessage()`. */
  function GetMessage(err: HTTPError): Option<Json> {
    err.message
  }

  /**
   * Without a body the message is the number 500, not a string; with an
   * object body the getters return the body's own `code` and `message`.
   */
  lemma GettersReadBody(e: TransportError)
    ensures !HasBody(e) ==> GetCode(FromTransport(e)) == Some(JNumber(500)) && !IsString(GetMessage(FromTransport(e)))
    ensures e.body.Some? && e.body.value.JObject? ==>
              GetCode(FromTransport(e)) == Member(e.body.value, "code") &&
              GetMessage(FromTransport(e)) == Member(e.body.value, "message")
  {
  }
}
