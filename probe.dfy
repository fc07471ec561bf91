/** Values that cross the boundary between the investigation logic and the
    outside world: optional values, network outcomes, parsed JSON and the
    hex digests of the hash functions the repository calls. */
module Probe {

  datatype Option<T> = None | Some(value: T)

  /** A value, or the exception that was raised instead of producing it. */
  datatype Result<T> = Ok(value: T) | Failure(message: string)

  /** What one HTTP GET produced: a response (status code and body text),
      or the exception the client raised instead (timeout, transport
      error). */
  datatype FetchOutcome = Response(status: int, text: string) | Raised(message: string)

  /** A parsed JSON document (numbers as integers). */
  datatype Json =
    | JNull
    | JBool(b: bool)
    | JNum(n: int)
    | JStr(s: string)
    | JArr(items: seq<Json>)
    | JObj(fields: map<string, Json>)

  /** A GET whose body is read with `r.json()`: `body` is `None` when the
      text is not valid JSON, so that `r.json()` would raise. */
  datatype JsonFetch = JsonResponse(status: int, body: Option<Json>) | JsonRaised(message: string)

  /** `d[key]` on a parsed JSON value, `None` where Python would raise
      (`d` not an object, or `key` missing). */
  function Field(d: Json, key: string): Option<Json>
  {
    if d.JObj? && key in d.fields then Some(d.fields[key]) else None
  }

  type HexDigit = c: char | '0' <= c <= '9' || 'a' <= c <= 'f' witness '0'

  /** `hashlib.sha1(...).hexdigest()`. */
  type Sha1Hex = s: seq<HexDigit> | |s| == 40
    witness seq(40, _ => '0')

  /** `hashlib.sha256(...).hexdigest()`. */
  type Sha256Hex = s: seq<HexDigit> | |s| == 64
    witness seq(64, _ => '0')
}
