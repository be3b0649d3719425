/**
  Sequences of redirects. The store only ever changes through Callback, so
  its value after any run of redirects is Callback folded over them. This
  module gives an independent description of that value in terms of the
  last redirects of each kind, and proves the run-level properties: the
  exclusivity invariant, idempotent replay, and that parameterless hits are
  ignored wherever they occur.
 */
module History {
  import opened Store

  datatype Option<T> = None | Some(value: T)

  /** The store after applying the redirects of ps, in order, to a. */
  function Run(a: AuthCode, ps: seq<Params>): (r: AuthCode)
    ensures Exclusive(a) ==> Exclusive(r)
    ensures (forall k :: 0 <= k < |ps| ==> !Meaningful(ps[k])) ==> r == a
    decreases |ps|
  {
    if ps == [] then a else Callback(Run(a, ps[..|ps| - 1]), ps[|ps| - 1])
  }

  /** Index of the last redirect of ps satisfying f, if any. */
  function LastIndex(ps: seq<Params>, f: Params -> bool): (r: Option<nat>)
    ensures r.Some? ==> r.value < |ps| && f(ps[r.value])
    ensures r.Some? ==> forall k :: r.value < k < |ps| ==> !f(ps[k])
    ensures r.None? ==> forall k :: 0 <= k < |ps| ==> !f(ps[k])
    decreases |ps|
  {
    if ps == [] then None
    else if f(ps[|ps| - 1]) then Some(|ps| - 1)
    else LastIndex(ps[..|ps| - 1], f)
  }

  /** The record a polling client should see after ps, described without
      replaying: the error is that of the last redirect carrying an error or
      a code, the code is that redirect's code unless it carried an error,
      and the state is that of the last successful redirect. Where no such
      redirect exists the field keeps its starting value. */
  function Expected(a: AuthCode, ps: seq<Params>): AuthCode {
    var code := match LastIndex(ps, Meaningful)
      case None => a.code
      case Some(i) => if ps[i].error != "" then "" else ps[i].code;
    var error := match LastIndex(ps, Meaningful)
      case None => a.error
      case Some(i) => ps[i].error;
    var state := match LastIndex(ps, IsSuccess)
      case None => a.state
      case Some(j) => ps[j].state;
    AuthCode(code, error, state)
  }

  /** Replaying the redirects gives exactly the record described by Expected:
      the latest meaningful outcome wins, and state follows the latest code. */
  lemma {:induction false} RunMatchesExpected(a: AuthCode, ps: seq<Params>)
    ensures Run(a, ps) == Expected(a, ps)
    decreases |ps|
  {
    if ps != [] {
      var init, p := ps[..|ps| - 1], ps[|ps| - 1];
      RunMatchesExpected(a, init);
      assert init + [p] == ps;
      if Meaningful(p) {
        assert LastIndex(ps, Meaningful) == Some(|ps| - 1);
      } else {
        assert LastIndex(ps, Meaningful) == LastIndex(init, Meaningful);
        assert LastIndex(ps, IsSuccess) == LastIndex(init, IsSuccess);
      }
    }
  }

  /** Starting from the empty record, no run of redirects ever leaves both a
      code and an error in the store. */
  lemma ExclusiveAlways(ps: seq<Params>)
    ensures Exclusive(Run(Empty, ps))
  {
  }

  /** Replaying a run straight after itself changes nothing. */
  lemma RunIdempotent(a: AuthCode, ps: seq<Params>)
    ensures Run(Run(a, ps), ps) == Run(a, ps)
  {
    RunMatchesExpected(a, ps);
    RunMatchesExpected(Run(a, ps), ps);
  }

  /** Running two batches one after the other is running their concatenation. */
  lemma {:induction false} RunAppend(a: AuthCode, ps: seq<Params>, qs: seq<Params>)
    ensures Run(a, ps + qs) == Run(Run(a, ps), qs)
    decreases |qs|
  {
    if qs == [] {
      assert ps + qs == ps;
    } else {
      var init := qs[..|qs| - 1];
      RunAppend(a, ps, init);
      assert (ps + qs)[..|ps + qs| - 1] == ps + init;
    }
  }

  /** A redirect with neither error nor code can be dropped from any run. */
  lemma NoiseIgnored(a: AuthCode, ps: seq<Params>, q: Params, qs: seq<Params>)
    requires !Meaningful(q)
    ensures Run(a, ps + [q] + qs) == Run(a, ps + qs)
  {
    RunAppend(a, ps + [q], qs);
    RunAppend(a, ps, [q]);
    RunAppend(a, ps, qs);
    assert Run(Run(a, ps), [q]) == Callback(Run(a, ps), q);
  }

  /** Once a redirect carrying an error or a code has arrived, the starting
      record no longer shows through code or error: only its state can. */
  lemma LatestMeaningfulWins(a: AuthCode, b: AuthCode, ps: seq<Params>)
    requires exists k :: 0 <= k < |ps| && Meaningful(ps[k])
    ensures Run(a, ps).code == Run(b, ps).code
    ensures Run(a, ps).error == Run(b, ps).error
    ensures (exists k :: 0 <= k < |ps| && IsSuccess(ps[k])) ==> Run(a, ps) == Run(b, ps)
  {
  }

  /** A state stored with a code survives a later error: an error followed by
      nothing meaningful reports the state of the last successful redirect. */
  lemma StateSurvivesError(a: AuthCode, code: string, state: string, error: string)
    requires code != "" && error != ""
    ensures Run(a, [Params(code, "", state), Params("", error, "")]) == AuthCode("", error, state)
  {
  }
}
