/**
  The values the key/value client exchanges with the store's HTTP API:
  keys, the metadata envelope a read returns, responses as the transport
  hands them over, and the errors the client rejects with.
 */
module KvTypes {

  datatype Option<+T> = None | Some(value: T)

  /** A location in the store; only its slash-delimited path is used. */
  datatype Key = Key(path: string)

  /**
    One element of the envelope a read returns: the store's modify index and
    the base64-encoded payload, which the store may leave out (null).
   */
  datatype Metadata = Metadata(modifyIndex: int, value: Option<string>)

  /**
    A response body as the transport parses it: the envelope array of a read,
    the JSON boolean of a write or delete, or plain text (the store's error pages).
   */
  datatype Body = Entries(items: seq<Metadata>) | Flag(flag: bool) | Text(text: string)

  datatype Response = Response(statusCode: int, statusMessage: string, body: Body)

  /**
    Why a point operation rejects: an unexpected status (with the message the
    client builds), or a 200 whose body has no first envelope element, where
    reading `metadata[0]` fails at run time.
   */
  datatype KvError = HttpError(message: string) | MalformedEnvelope

  datatype Result<+T> = Success(value: T) | Failure(error: KvError)

  /** The first envelope element of a read's body, if there is one. */
  function FirstEntry(b: Body): Option<Metadata>
  {
    if b.Entries? && |b.items| > 0 then Some(b.items[0]) else None
  }

  /**
    How string interpolation renders a parsed body: text as itself, booleans
    as "true"/"false", an array of objects as "[object Object]" per element,
    separated by commas.
   */
  function BodyText(b: Body): string
  {
    match b
    case Text(t) => t
    case Flag(f) => if f then "true" else "false"
    case Entries(items) => ObjectList(|items|)
  }

  function ObjectList(n: nat): string
  {
    if n == 0 then ""
    else if n == 1 then "[object Object]"
    else ObjectList(n - 1) + ",[object Object]"
  }
}
