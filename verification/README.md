# Authorization-result store of the local OAuth callback listener

The listener in `external/auth_server.go` stands in as the redirect target of an
OAuth 2.0 authorization-code flow. It keeps one record, `AuthCode{Code, Error, State}`,
which starts empty. The `/callback` handler writes it from the redirect's query
parameters. The `/token`, `/status` and `/` handlers read it for a polling client.
Every handler holds the one mutex for its whole read or write, so each handler is
one atomic step. The model is therefore sequential and purely functional.

- `Store`: the record, the redirect parameters and the update policy `Callback`.
  An error wins over a code and keeps the old state. A code replaces the whole
  triple. A redirect with neither leaves the record alone.
- `Observers`: the token body, the status flags and the index page's "Yes"/"No" marker.
- `Pages`: page selection after the update, and the whole callback handler. It is
  modelled both as written (it can panic in its log line) and as corrected.
- `History`: runs of redirects. `Expected` is an independent description of the
  record after any run. The state of the last successful redirect survives later
  errors. The run-level properties are proved against it.
- `Server`: a trace of endpoint requests. Only callbacks move the store. Every
  reply is computed from the store left by the requests before it. Callbacks in
  the trace are answered by the corrected handler of `Pages`; the store they leave
  is the same as the handler's as written.

The error branch (lines 37-39) sets `Error` and clears `Code` but leaves `State`
as it was. So the state stored with an earlier code survives a later error, and
the token endpoint still shows it.

## Model

| member | source | states |
|---|---|---|
| Store.Callback | external/auth_server.go:37-46 | a non-empty error gives `("", error, old state)` whatever the code; otherwise a non-empty code gives exactly `(code, "", state)`, even for an empty state; neither leaves every field unchanged; the result never holds both a code and an error when the redirect carried either, and exclusivity is preserved |
| Store.CallbackIdempotent | external/auth_server.go:37-46 | applying the same redirect twice in a row gives the same record as applying it once |
| History.Run | external/auth_server.go:37-46 | a run of redirects preserves exclusivity of code and error, and a run with no error and no code leaves the record unchanged |
| History.RunMatchesExpected | external/auth_server.go:37-46 | after any run, the error is that of the last redirect carrying an error or code, the code is that redirect's code unless it carried an error, and the state is that of the last successful redirect; each field keeps its start value when no such redirect exists |
| History.ExclusiveAlways | external/auth_server.go:20-46 | from the zero record, no sequence of redirects ever leaves both a code and an error stored |
| History.RunIdempotent | external/auth_server.go:37-46 | replaying a whole run of redirects right after itself changes nothing |
| History.RunAppend | external/auth_server.go:34-46 | redirects handled one at a time under the lock compose: running two batches in turn equals running their concatenation |
| History.NoiseIgnored | external/auth_server.go:37-46 | a redirect with neither error nor code can be removed from any point of any run without changing the result |
| History.LatestMeaningfulWins | external/auth_server.go:37-44 | once a redirect with an error or code has arrived, code and error no longer depend on the start record, and after a successful redirect nothing of the start record remains |
| History.StateSurvivesError | external/auth_server.go:37-44 | a code with a state followed by an error leaves `("", error, state)`: the error branch does not clear the state |
| Observers.Token | external/auth_server.go:72 | the token body carries the record's code, error and state unchanged, with empty strings for unset fields |
| Observers.TokenRoundTrip | external/auth_server.go:72 | the token body is the unchanged triple: reading it back gives the record, and every body comes from exactly one record |
| Observers.Status | external/auth_server.go:77-78 | `has_code` holds iff the code is non-empty and `has_error` iff the error is non-empty, as the token shows them; under exclusivity they are never both true |
| Observers.Index | external/auth_server.go:98-103 | the index marker is "Yes" or "No", and "Yes" exactly when the status reports a code |
| Pages.Utf8Len | external/auth_server.go:45 | the byte length that the log line's slice measures is at least the character count and zero only for the empty string |
| Pages.CallbackPage | external/auth_server.go:49-64 | an error page carrying the stored error iff the stored error is non-empty; otherwise the success page iff the request's code is non-empty; otherwise an empty body |
| Pages.HandleCallbackAsWritten | external/auth_server.go:37-64 | the store is always updated by the callback policy, and the response is lost exactly when the success branch logs a code shorter than 20 bytes |
| Pages.HandleCallback | external/auth_server.go:37-64 | the success page exactly for a success-branch redirect; this redirect's error when it carried one; the earlier stored error re-rendered when it carried neither; an empty body only when neither was carried and no error was stored |
| Pages.AsWrittenDiffersOnlyOnShortCodes | external/auth_server.go:45 | the as-written and corrected handlers leave the same store and agree on the response except for short codes; a code of 20 or more characters is always answered |
| Pages.ShortCodeAborts | external/auth_server.go:45 | a first redirect with code "ABC123" is stored, but the as-written handler answers nothing where the corrected one shows the success page |
| Server.Handle | external/auth_server.go:122-127 | the token, status and index requests leave the store untouched, and a callback writes it by the callback policy; exclusivity is preserved; a callback always gets a page, equal to the as-written handler's reply except on a short success code; the token reply reads back to the record; a status request gets status flags that hold exactly when the code, respectively the error, is non-empty, and an index request gets "Yes" exactly when a code is stored |
| Server.Serve | external/auth_server.go:29-103 | after any sequence of requests the store is the run of the callback requests alone, and there is one reply per request |
| Server.ServeReplies | external/auth_server.go:34-35 | each reply is computed from the store after the callbacks that came before it |
| Server.ReadsNeverWrite | external/auth_server.go:67-103 | a sequence of token, status and index requests leaves the store exactly as it was |
| Server.StatusNeverBoth | external/auth_server.go:75-79 | from a fresh process, no status reply in any request sequence reports both a code and an error |
| Server.CodeThenToken | external/auth_server.go:41-72 | a callback with code "ABC123" and state "xyz" followed by a token request shows `("ABC123", "", "xyz")` |
| Server.CodeThenErrorStatus | external/auth_server.go:37-78 | a code, then an `access_denied` error, then a status request reports no code and an error |
| Server.EmptyCallbackThenToken | external/auth_server.go:20-72 | a parameterless callback on a fresh process leaves the token endpoint showing three empty strings |

## Left out

- Concurrency: the mutex and the parallel scheduling of handlers. Each handler holds the lock for its whole access, so a sequence of whole handler steps is faithful.
- The exit endpoint and the bind-failure exit (lines 90-94, 134-136): process termination, no effect on the store.
- Routing, listening and flag parsing (lines 22-27, 122-137): I/O and process set-up. `Server.Handle` only names which handler serves which request. The catch-all routing of unknown paths to the index handler is not modelled.
- Query-string parsing: repeated parameters and percent-decoding are not modelled. A parameter is a string, and the empty string stands for an absent one.
- JSON encoding and the HTML text: the token and status bodies are records, and the page is a three-way choice.
- The fixed `"running"` marker and the wall-clock `timestamp` of the status body (lines 83, 86): constant text and clock input.
- The console log lines (lines 40, 45): output only. Their one effect on behaviour, the panic of the slice at line 45, is modelled in `Pages.HandleCallbackAsWritten`.
- Server.Handle: answers a callback with the corrected `Pages.HandleCallback`, so a success redirect whose code is shorter than 20 bytes gets the success page in the trace, where the code as written drops the response. The store is the same either way, and `Pages.AsWrittenDiffersOnlyOnShortCodes` bounds the difference to that case.
- Strings are sequences of Unicode characters. Byte strings that are not valid UTF-8 cannot be represented. Byte length is computed from the UTF-8 encoding.

## Findings

| source | as written | input that shows it | evidently intended | confidence | as-written member | corrected member |
|---|---|---|---|---|---|---|
| external/auth_server.go:45 | the log line prints `code[:20]`, which panics when the code is shorter than 20 bytes; the store is already written, and the recovered panic drops the response page | `/callback?code=ABC123&state=xyz` on a fresh process | print at most the first 20 bytes of the code, then render the success page | high; not executed | Pages.HandleCallbackAsWritten (exhibited by Pages.ShortCodeAborts) | Pages.HandleCallback |
