/**
  The listener as a sequence of requests to its endpoints. Because every
  handler holds the store's lock for its whole read or write, a concurrent
  run is some sequence of whole handler steps; this module models that
  sequence and shows that only callbacks move the store and that every
  reply is computed from the store left by the requests before it.
 */
module Server {
  import opened Store
  import opened Observers
  import opened Pages
  import opened History

  /** One request to one endpoint. The exit endpoint is not modelled. */
  datatype Request =
    | CallbackHit(params: Params)
    | TokenQuery
    | StatusQuery
    | IndexQuery

  /** What an endpoint answers. */
  datatype Reply =
    | CallbackReply(response: Response)
    | TokenReply(token: TokenBody)
    | StatusReply(status: StatusBody)
    | IndexReply(codeCaptured: string)

  /** One handler step: the store afterwards and the reply. */
  datatype Step = Step(store: AuthCode, reply: Reply)

  /** Dispatches one request. Only the callback writes the store. A callback
      is answered by the corrected handler, which agrees with the handler as
      written on every redirect except a success with a code shorter than the
      logged prefix, where the written one sends nothing. */
  function Handle(a: AuthCode, req: Request): (r: Step)
    ensures !req.CallbackHit? ==> r.store == a
    ensures req.CallbackHit? ==> r.store == Callback(a, req.params)
    ensures req.CallbackHit? <==> r.reply.CallbackReply?
    ensures req.CallbackHit? ==> r.reply.response.Rendered?
    ensures req.CallbackHit? && !(IsSuccess(req.params) && Utf8Len(req.params.code) < LogPrefixLen) ==>
              r.reply == CallbackReply(HandleCallbackAsWritten(a, req.params).response)
    ensures req.TokenQuery? ==> r.reply.TokenReply? && FromToken(r.reply.token) == a
    ensures req.StatusQuery? ==>
              (r.reply.StatusReply? &&
               (r.reply.status.hasCode <==> a.code != "") && (r.reply.status.hasError <==> a.error != ""))
    ensures req.IndexQuery? ==> r.reply.IndexReply? && (r.reply.codeCaptured == "Yes" <==> a.code != "")
    ensures Exclusive(a) ==> Exclusive(r.store)
  {
    match req
    case CallbackHit(p) =>
      var o := HandleCallback(a, p);
      Step(o.store, CallbackReply(o.response))
    case TokenQuery => Step(a, TokenReply(Token(a)))
    case StatusQuery => Step(a, StatusReply(Status(a)))
    case IndexQuery => Step(a, IndexReply(Index(a)))
  }

  /** The redirect parameters of the callback requests in reqs, in order. */
  function CallbacksOf(reqs: seq<Request>): (ps: seq<Params>)
    ensures |ps| <= |reqs|
    ensures forall p :: p in ps <==> CallbackHit(p) in reqs
    ensures (forall k :: 0 <= k < |reqs| ==> !reqs[k].CallbackHit?) ==> ps == []
    decreases |reqs|
  {
    if reqs == [] then []
    else
      var init, last := reqs[..|reqs| - 1], reqs[|reqs| - 1];
      assert reqs == init + [last];
      CallbacksOf(init) + (if last.CallbackHit? then [last.params] else [])
  }

  /** Serves reqs in order from store a: the final store and every reply.
      The final store is the run of the callbacks alone. */
  function Serve(a: AuthCode, reqs: seq<Request>): (r: (AuthCode, seq<Reply>))
    ensures |r.1| == |reqs|
    ensures r.0 == Run(a, CallbacksOf(reqs))
    decreases |reqs|
  {
    if reqs == [] then (a, [])
    else
      var init, last := reqs[..|reqs| - 1], reqs[|reqs| - 1];
      var prev := Serve(a, init);
      var step := Handle(prev.0, last);
      assert init + [last] == reqs;
      CallbacksStep(a, init, last);
      (step.store, prev.1 + [step.reply])
  }

  /** Extending a request list by one request extends the store's run by
      exactly that request's handler step. */
  lemma CallbacksStep(a: AuthCode, init: seq<Request>, last: Request)
    ensures Run(a, CallbacksOf(init + [last])) == Handle(Run(a, CallbacksOf(init)), last).store
  {
    var reqs := init + [last];
    assert reqs[..|reqs| - 1] == init;
    if last.CallbackHit? {
      var ps := CallbacksOf(init) + [last.params];
      assert CallbacksOf(reqs) == ps;
      assert ps[..|ps| - 1] == CallbacksOf(init);
    } else {
      assert CallbacksOf(reqs) == CallbacksOf(init) + [];
      assert CallbacksOf(init) + [] == CallbacksOf(init);
    }
  }

  /** The k-th reply is what the k-th request's handler answers on the store
      left by the callbacks before it. */
  lemma {:induction false} ServeReplies(a: AuthCode, reqs: seq<Request>, k: nat)
    requires k < |reqs|
    ensures Serve(a, reqs).1[k] == Handle(Run(a, CallbacksOf(reqs[..k])), reqs[k]).reply
    decreases |reqs|
  {
    var init := reqs[..|reqs| - 1];
    if k < |init| {
      ServeReplies(a, init, k);
      assert init[..k] == reqs[..k];
    } else {
      assert init == reqs[..k];
    }
  }

  /** Polling is free of side effects: a request list holding no callback
      leaves the store exactly as it was. */
  lemma ReadsNeverWrite(a: AuthCode, reqs: seq<Request>)
    requires forall k :: 0 <= k < |reqs| ==> !reqs[k].CallbackHit?
    ensures Serve(a, reqs).0 == a
  {
  }

  /** From a fresh process, no status reply ever reports both a code and an
      error, whatever the interleaving of callbacks and polls. */
  lemma StatusNeverBoth(reqs: seq<Request>, k: nat)
    requires k < |reqs| && reqs[k] == StatusQuery
    ensures Serve(Empty, reqs).1[k].StatusReply?
    ensures !(Serve(Empty, reqs).1[k].status.hasCode && Serve(Empty, reqs).1[k].status.hasError)
  {
    ServeReplies(Empty, reqs, k);
    ExclusiveAlways(CallbacksOf(reqs[..k]));
  }

  /** A code with its state, then a token poll, shows exactly that triple. */
  lemma CodeThenToken()
    ensures Serve(Empty, [CallbackHit(Params("ABC123", "", "xyz")), TokenQuery]).1[1]
            == TokenReply(TokenBody("ABC123", "", "xyz"))
  {
  }

  /** A code followed by an error leaves an error and no code in the status. */
  lemma CodeThenErrorStatus()
    ensures Serve(Empty, [CallbackHit(Params("ABC123", "", "")),
                          CallbackHit(Params("", "access_denied", "")),
                          StatusQuery]).1[2]
            == StatusReply(StatusBody(false, true))
  {
  }

  /** A parameterless callback on a fresh process stores nothing. */
  lemma EmptyCallbackThenToken()
    ensures Serve(Empty, [CallbackHit(Params("", "", "")), TokenQuery]).1[1]
            == TokenReply(TokenBody("", "", ""))
  {
  }
}
