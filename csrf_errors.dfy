/**
 * The three error kinds the middleware registers under the error group "csrf".
 * Their numeric codes are the Go `iota` constants 0, 1, 2.
 */
module CsrfErrors {
  import opened Wrappers

  datatype ErrorKind = SessionInitFailed | SessionGetFailed | CSRFTokenError

  /** The registered code of a kind. */
  function Code(k: ErrorKind): (c: nat)
    ensures c < 3
    ensures k == SessionInitFailed <==> c == 0
    ensures k == CSRFTokenError <==> c == 2
  {
    match k
    case SessionInitFailed => 0
    case SessionGetFailed => 1
    case CSRFTokenError => 2
  }

  /** The kind registered under a code, if any. */
  function FromCode(c: int): (k: Option<ErrorKind>)
    ensures k.Some? <==> 0 <= c < 3
    ensures k.Some? ==> Code(k.value) == c
  {
    if c == 0 then Some(SessionInitFailed)
    else if c == 1 then Some(SessionGetFailed)
    else if c == 2 then Some(CSRFTokenError)
    else None
  }

  /** Codes are distinct, so each kind is recovered from its code. */
  lemma CodeRoundTrip(k: ErrorKind)
    ensures FromCode(Code(k)) == Some(k)
  {
  }
}
