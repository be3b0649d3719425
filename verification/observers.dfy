/**
  The read-only endpoints: the token dump, the status summary and the index
  page's "code captured" marker. Each is a pure function of the record.
 */
module Observers {
  import opened Store

  /** The body of the token endpoint: the three fields, empty when unset. */
  datatype TokenBody = TokenBody(code: string, error: string, state: string)

  /** The store-dependent part of the status endpoint. The fixed "running"
      marker and the wall-clock timestamp are not part of the model. */
  datatype StatusBody = StatusBody(hasCode: bool, hasError: bool)

  /** The token endpoint returns the record as it is. */
  function Token(a: AuthCode): (r: TokenBody)
    ensures r.code == a.code && r.error == a.error && r.state == a.state
  {
    TokenBody(a.code, a.error, a.state)
  }

  /** Reads a token body back into a record: the inverse of Token. */
  function FromToken(t: TokenBody): (r: AuthCode)
    ensures r.code == t.code && r.error == t.error && r.state == t.state
  {
    AuthCode(t.code, t.error, t.state)
  }

  /** Token loses nothing: it is a bijection between records and bodies. */
  lemma TokenRoundTrip(a: AuthCode, t: TokenBody)
    ensures FromToken(Token(a)) == a
    ensures Token(FromToken(t)) == t
    ensures Token(a) == t <==> a == FromToken(t)
  {
  }

  /** The status flags agree with what the token endpoint would show, and
      under the exclusivity invariant they are never both raised. */
  function Status(a: AuthCode): (r: StatusBody)
    ensures r.hasCode <==> Token(a).code != ""
    ensures r.hasError <==> Token(a).error != ""
    ensures Exclusive(a) ==> !(r.hasCode && r.hasError)
  {
    StatusBody(a.code != "", a.error != "")
  }

  /** The index page's "Authorization Code Captured" marker: "Yes" exactly
      when the status endpoint reports a code. */
  function Index(a: AuthCode): (r: string)
    ensures r == "Yes" || r == "No"
    ensures r == "Yes" <==> Status(a).hasCode
  {
    if a.code != "" then "Yes" else "No"
  }
}
