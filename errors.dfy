/** The errors the client and the command line surface, with their texts. */
module Errors {
  import opened Wrappers
  import opened Models
  import opened Format

  datatype Error =
    | TransportError(cause: string)            // returned unchanged from the HTTP transport
    | HttpError(status: int, body: seq<byte>)  // a response with status >= 400
    | DecodeError(reason: string)              // the body did not decode into the expected shape
    | UsageError(message: string)              // raised by the command line or the image builder

  const HttpErrorPrefix := "HTTP error "

  /** The text of an error, as `err.Error()` would print it. */
  function Message(e: Error): string
  {
    match e
    case TransportError(cause) => cause
    case HttpError(status, body) => HttpErrorPrefix + DecimalString(status) + ": " + BytesToString(body)
    case DecodeError(reason) => reason
    case UsageError(message) => message
  }

  /** Reads the status and the body text back out of an HTTP error's text. */
  function ParseHttpErrorMessage(m: string): Option<(int, string)>
  {
    if !HasPrefix(m, HttpErrorPrefix) then None
    else
      var rest := m[|HttpErrorPrefix|..];
      var i := IndexOf(rest, ':');
      if i + 1 < |rest| && rest[i + 1] == ' ' then
        match ParseDecimal(rest[..i])
        case Some(status) => Some((status, rest[i + 2..]))
        case None => None
      else None
  }

  /** An HTTP error's text carries its status and its whole body: both can
      be read back, the body byte for byte. */
  lemma HttpErrorMessageRoundTrip(status: int, body: seq<byte>)
    ensures ParseHttpErrorMessage(Message(HttpError(status, body))) == Some((status, BytesToString(body)))
    ensures var text := ParseHttpErrorMessage(Message(HttpError(status, body))).value.1;
      IsOctets(text) && StringToBytes(text) == body
  {
    var d := DecimalString(status);
    var t := BytesToString(body);
    var m := Message(HttpError(status, body));
    assert m == HttpErrorPrefix + (d + ": " + t);
    var rest := m[|HttpErrorPrefix|..];
    assert rest == d + (": " + t);
    assert ':' !in d by {
      forall i | 0 <= i < |d| ensures d[i] != ':' { }
    }
    IndexOfAfter(d, ": " + t, ':');
    assert rest[..|d|] == d;
    assert rest[|d| + 2..] == t;
    DecimalRoundTrip(status);
    OctetsRoundTrip(body);
  }
}
