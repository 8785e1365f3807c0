/**
  The point operations get, set and delete: each sends one request (not
  modelled) and maps the response's status to a result or a rejection.
  None of them retries.
 */
module PointOps {
  import opened KvTypes

  /**
    `get`: 200 resolves with the decoded payload of the first envelope element,
    404 resolves with null (absent, not an error), any other status rejects
    with "<statusMessage>: <body>".
   */
  function Get<V>(res: Response, decode: Option<string> -> V): (r: Result<Option<V>>)
    ensures r == Success(None) <==> res.statusCode == 404
    ensures r.Success? <==> res.statusCode == 404 || (res.statusCode == 200 && FirstEntry(res.body).Some?)
    ensures r.Success? && r.value.Some? ==>
              res.statusCode == 200 && r.value.value == decode(res.body.items[0].value)
    ensures res.statusCode == 200 && FirstEntry(res.body).None? ==> r == Failure(MalformedEnvelope)
    ensures res.statusCode != 200 && res.statusCode != 404 ==>
              r == Failure(HttpError(res.statusMessage + ": " + BodyText(res.body)))
  {
    if res.statusCode == 200 then
      match FirstEntry(res.body)
      case Some(m) => Success(Some(decode(m.value)))
      case None => Failure(MalformedEnvelope)
    else if res.statusCode == 404 then
      Success(None)
    else
      Failure(HttpError(res.statusMessage + ": " + BodyText(res.body)))
  }

  /**
    `set`: 200 resolves with the body the store sent (its JSON boolean; the
    client does not convert it), 404 resolves with false, any other status
    rejects with the status message alone.
   */
  function Set(res: Response): (r: Result<Body>)
    ensures r.Success? <==> res.statusCode == 200 || res.statusCode == 404
    ensures res.statusCode == 200 ==> r == Success(res.body)
    ensures res.statusCode == 404 ==> r == Success(Flag(false))
    ensures r.Failure? ==> r.error == HttpError(res.statusMessage)
  {
    WriteStatus(res)
  }

  /** `delete`: the same status mapping as `set`. */
  function Delete(res: Response): (r: Result<Body>)
    ensures r.Success? <==> res.statusCode == 200 || res.statusCode == 404
    ensures res.statusCode == 200 ==> r == Success(res.body)
    ensures res.statusCode == 404 ==> r == Success(Flag(false))
    ensures r.Failure? ==> r.error == HttpError(res.statusMessage)
  {
    WriteStatus(res)
  }

  /** The status switch `set` and `delete` share. */
  function WriteStatus(res: Response): Result<Body>
  {
    if res.statusCode == 200 then Success(res.body)
    else if res.statusCode == 404 then Success(Flag(false))
    else Failure(HttpError(res.statusMessage))
  }

  /** A missing key is never an error for any of the three operations. */
  lemma NotFoundIsNotAnError<V>(res: Response, decode: Option<string> -> V)
    requires res.statusCode == 404
    ensures Get(res, decode) == Success(None)
    ensures Set(res) == Success(Flag(false)) && Delete(res) == Success(Flag(false))
  {
  }

  /** When the store answers a write with its JSON boolean, the caller gets that boolean. */
  lemma WriteReturnsStoreFlag(res: Response, b: bool)
    requires res.statusCode == 200 && res.body == Flag(b)
    ensures Set(res) == Success(Flag(b)) && Delete(res) == Success(Flag(b))
  {
  }

  /**
    A read of a well-formed envelope returns exactly the decoded payload of
    its first element, whatever follows it.
   */
  lemma GetDecodesFirstElement<V>(m: Metadata, rest: seq<Metadata>, msg: string, decode: Option<string> -> V)
    ensures Get(Response(200, msg, Entries([m] + rest)), decode) == Success(Some(decode(m.value)))
  {
  }
}
