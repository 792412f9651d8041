/**
 * ApiAuth, the inventory API's bearer-token middleware: it checks the
 * Authorization header against the AUTH_TOKEN setting and either answers 401
 * with one of four messages or hands the request to the next handler.  The
 * header and the setting are parameters; the next handler is represented by
 * the `CallNext` decision.
 */
module Auth {
  import opened Common

  const Prefix: string := "Bearer "

  const Unauthorized: int := 401

  const MissingHeader: string := "missing Authorization header"
  const InvalidHeader: string := "invalid Authorization header"
  const NotConfigured: string := "server not configured for auth"
  const InvalidToken: string := "invalid token"

  /** What the middleware does with one request: answer with an HTTP error,
      or call `next` once. */
  datatype Decision = Reject(status: int, message: string) | CallNext

  /** A header the middleware accepts as a bearer header: longer than the
      prefix and starting with it, so "Bearer " alone is not one. */
  predicate WellFormed(header: string) {
    |Prefix| < |header| && header[..|Prefix|] == Prefix
  }

  /** The token of a well-formed header: everything after the prefix. */
  function Token(header: string): (t: string)
    requires WellFormed(header)
    ensures Prefix + t == header && |t| > 0
  {
    header[|Prefix|..]
  }

  /** The checks, in the order the middleware makes them. */
  function ApiAuth(header: string, expected: string): Decision {
    if header == "" then Reject(Unauthorized, MissingHeader)
    else if !WellFormed(header) then Reject(Unauthorized, InvalidHeader)
    else if expected == "" then Reject(Unauthorized, NotConfigured)
    else if Token(header) != expected then Reject(Unauthorized, InvalidToken)
    else CallNext
  }

  /** `next` is called exactly when a token is configured and the header is
      the prefix followed by it; every other request is answered 401. */
  lemma NextCalledIffTokenMatches(header: string, expected: string)
    ensures ApiAuth(header, expected) == CallNext <==> expected != "" && header == Prefix + expected
    ensures ApiAuth(header, expected).Reject? ==> ApiAuth(header, expected).status == Unauthorized
  {
    if expected != "" && header == Prefix + expected {
      assert header[..|Prefix|] == Prefix;
      assert Token(header) == expected;
    }
    if ApiAuth(header, expected) == CallNext {
      assert Prefix + Token(header) == header;
    }
  }

  /** Which message a rejected request gets, by the first check it fails. */
  lemma RejectionMessages(header: string, expected: string)
    ensures header == "" ==> ApiAuth(header, expected) == Reject(Unauthorized, MissingHeader)
    ensures header != "" && (|header| <= |Prefix| || !HasPrefix(header, Prefix)) ==>
      ApiAuth(header, expected) == Reject(Unauthorized, InvalidHeader)
    ensures WellFormed(header) && expected == "" ==> ApiAuth(header, expected) == Reject(Unauthorized, NotConfigured)
    ensures WellFormed(header) && expected != "" && Token(header) != expected ==>
      ApiAuth(header, expected) == Reject(Unauthorized, InvalidToken)
  {
  }

  /** The bare prefix carries no token and is an invalid header, whatever the
      setting; a missing setting is only reported for well-formed headers. */
  lemma BarePrefixRejected(expected: string)
    ensures ApiAuth(Prefix, expected) == Reject(Unauthorized, InvalidHeader)
    ensures ApiAuth(Prefix, "") == Reject(Unauthorized, InvalidHeader)
  {
  }
}
