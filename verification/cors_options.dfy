/** The options object handed to the `cors` middleware: an allow-list decision for the
    request's Origin header and two constant settings. */
module CorsOptions {
  import opened CaseFold

  /** The `origin` argument of the callback: the Origin header's text, or `undefined` when the
      request carries none. */
  datatype Origin = Undefined | Header(url: string)

  /** What the callback is called with: `callback(null, true)` or `callback(new Error(...))`. */
  datatype Verdict = Allow | Deny(error: string)

  const NotAllowedMessage: string := "Not allowed by CORS"

  /** `credentials: true`: the Access-Control-Allow-Credentials header is sent. */
  const Credentials: bool := true

  /** `optionsSuccessStatus: 200`: the status of a successful preflight response. */
  const OptionsSuccessStatus: int := 200

  /** `Array.prototype.indexOf` with strict equality: the first index holding `x`, or -1. */
  function IndexOf(list: seq<Origin>, x: Origin): (i: int)
    ensures -1 <= i < |list|
    ensures i == -1 <==> x !in list
    ensures 0 <= i ==> list[i] == x && x !in list[..i]
  {
    if list == [] then -1
    else if list[0] == x then 0
    else
      var j := IndexOf(list[1..], x);
      if j == -1 then -1
      else
        assert list[..j + 1] == [list[0]] + list[1..][..j];
        j + 1
  }

  /** The `origin` option: allow exactly the origins that occur in the allow-list. */
  function CheckOrigin(allowedOrigins: seq<Origin>, origin: Origin): (v: Verdict)
    ensures v == Allow <==> origin in allowedOrigins
    ensures v != Allow ==> v == Deny(NotAllowedMessage)
  {
    if IndexOf(allowedOrigins, origin) != -1 then Allow else Deny(NotAllowedMessage)
  }

  /** There is no bypass for a missing Origin header: it is refused unless the list holds it. */
  lemma MissingOriginRejected(allowedOrigins: seq<Origin>)
    requires Undefined !in allowedOrigins
    ensures CheckOrigin(allowedOrigins, Undefined) == Deny(NotAllowedMessage)
  {
  }

  /** The match is exact: an origin that differs from a listed one only in letter case, and
      is not itself listed, is refused. */
  lemma CaseVariantOriginRejected(allowedOrigins: seq<Origin>, listed: string, sent: string)
    requires Header(listed) in allowedOrigins && Header(sent) !in allowedOrigins
    requires DifferOnlyInCase(listed, sent)
    ensures CheckOrigin(allowedOrigins, Header(sent)) == Deny(NotAllowedMessage)
  {
  }
}
