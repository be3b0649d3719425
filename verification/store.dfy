/**
  The authorization-result store of the local OAuth callback listener.

  The listener keeps exactly one record, written by the redirect callback and
  read by the polling endpoints. Every handler holds the store's single lock
  for the whole of its read or write, so each handler is one atomic step and
  the store is modelled as an immutable value threaded through pure functions.
 */
module Store {

  /** The captured outcome of the most recent redirect. An empty string means
      "not set": the record starts with all three fields empty. */
  datatype AuthCode = AuthCode(code: string, error: string, state: string)

  /** The record at process start. */
  const Empty := AuthCode("", "", "")

  /** The three query parameters of one redirect. Looking up an absent query
      parameter yields the empty string, so "absent" and "empty" coincide. */
  datatype Params = Params(code: string, error: string, state: string)

  /** A redirect that changes the store: it carries an error or a code. */
  predicate Meaningful(p: Params) {
    p.error != "" || p.code != ""
  }

  /** A redirect that takes the success branch: a code and no error. */
  predicate IsSuccess(p: Params) {
    p.error == "" && p.code != ""
  }

  /** The exclusivity invariant: a code and an error are never both held. */
  predicate Exclusive(a: AuthCode) {
    a.code == "" || a.error == ""
  }

  /** The store update performed by the callback handler. An error takes
      precedence over a code and keeps the old state; a code replaces the
      whole triple, storing the state even when it is empty; a redirect with
      neither leaves the record alone. */
  function Callback(a: AuthCode, p: Params): (r: AuthCode)
    ensures p.error != "" ==> r == AuthCode("", p.error, a.state)
    ensures IsSuccess(p) ==> r == AuthCode(p.code, "", p.state)
    ensures !Meaningful(p) ==> r == a
    ensures Meaningful(p) ==> Exclusive(r)
    ensures Exclusive(a) ==> Exclusive(r)
    ensures r.code != "" <==> IsSuccess(p) || (!Meaningful(p) && a.code != "")
    ensures r.error != "" <==> p.error != "" || (!Meaningful(p) && a.error != "")
  {
    if p.error != "" then
      a.(error := p.error, code := "")
    else if p.code != "" then
      a.(code := p.code, error := "", state := p.state)
    else
      a
  }

  /** Replaying the same redirect straight away changes nothing more. */
  lemma CallbackIdempotent(a: AuthCode, p: Params)
    ensures Callback(Callback(a, p), p) == Callback(a, p)
  {
  }
}
