/**
  The callback handler as a whole: the store update followed by the choice
  of the page shown to the user's browser.

  The page looks at the error held in the store AFTER the update, but at the
  code carried by THIS request. A redirect without parameters therefore
  re-renders an error stored by an earlier redirect.
 */
module Pages {
  import opened Store

  /** The three possible bodies of the callback response. */
  datatype Page = ErrorPage(message: string) | SuccessPage | Blank

  /** What the browser receives: a rendered page, or nothing at all because
      the handler panicked and the server dropped the response. */
  datatype Response = Rendered(page: Page) | Aborted

  /** The store after the handler, and what it answered. */
  datatype Outcome = Outcome(store: AuthCode, response: Response)

  /** Number of bytes of the code that the console log line prints. */
  const LogPrefixLen: nat := 20

  /** Number of bytes of one character in UTF-8. */
  function CharUtf8Len(c: char): (n: nat)
    ensures 1 <= n <= 4
    ensures (c as int < 0x80) <==> n == 1
  {
    if c as int < 0x80 then 1
    else if c as int < 0x800 then 2
    else if c as int < 0x1_0000 then 3
    else 4
  }

  /** Length in bytes of a string's UTF-8 encoding, which is what slicing a
      string by byte index measures. */
  function Utf8Len(s: string): (n: nat)
    ensures |s| <= n <= 4 * |s|
    ensures n == 0 <==> s == ""
  {
    if s == [] then 0 else CharUtf8Len(s[0]) + Utf8Len(s[1..])
  }

  /** Page selection, given the stored record after the update and the code
      parameter of the current request. */
  function CallbackPage(stored: AuthCode, requestCode: string): (r: Page)
    ensures r.ErrorPage? <==> stored.error != ""
    ensures r.ErrorPage? ==> r.message == stored.error
    ensures r == SuccessPage <==> stored.error == "" && requestCode != ""
    ensures r == Blank <==> stored.error == "" && requestCode == ""
  {
    if stored.error != "" then ErrorPage(stored.error)
    else if requestCode != "" then SuccessPage
    else Blank
  }

  /** The handler as written: on the success branch the log line slices the
      first 20 bytes of the code, which panics for a shorter code. The store
      has already been written when that happens; only the page is lost. */
  function HandleCallbackAsWritten(a: AuthCode, p: Params): (r: Outcome)
    ensures r.store == Callback(a, p)
    ensures r.response == Aborted <==> IsSuccess(p) && Utf8Len(p.code) < LogPrefixLen
  {
    var stored := Callback(a, p);
    if p.error == "" && p.code != "" && Utf8Len(p.code) < LogPrefixLen then
      Outcome(stored, Aborted)
    else
      Outcome(stored, Rendered(CallbackPage(stored, p.code)))
  }

  /** The handler with the log prefix clamped to the code's length: it always
      answers. The page says "success" exactly for a redirect that took the
      success branch; it shows this redirect's error when it carried one, and
      the previously stored error when it carried neither error nor code. */
  function HandleCallback(a: AuthCode, p: Params): (r: Outcome)
    ensures r.store == Callback(a, p)
    ensures r.response.Rendered?
    ensures r.response.page == SuccessPage <==> IsSuccess(p)
    ensures r.response.page.ErrorPage? <==> p.error != "" || (!Meaningful(p) && a.error != "")
    ensures p.error != "" ==> r.response.page == ErrorPage(p.error)
    ensures !Meaningful(p) && a.error != "" ==> r.response.page == ErrorPage(a.error)
    ensures r.response.page == Blank <==> !Meaningful(p) && a.error == ""
  {
    var stored := Callback(a, p);
    Outcome(stored, Rendered(CallbackPage(stored, p.code)))
  }

  /** The as-written handler differs from the corrected one only by aborting
      on a short code; in particular a code of 20 or more characters is
      always answered. */
  lemma AsWrittenDiffersOnlyOnShortCodes(a: AuthCode, p: Params)
    ensures HandleCallbackAsWritten(a, p).store == HandleCallback(a, p).store
    ensures !(IsSuccess(p) && Utf8Len(p.code) < LogPrefixLen) ==>
              HandleCallbackAsWritten(a, p) == HandleCallback(a, p)
    ensures |p.code| >= LogPrefixLen ==> HandleCallbackAsWritten(a, p) == HandleCallback(a, p)
  {
  }

  /** A six-character code, as in an ordinary test redirect, is stored but
      gets no page from the as-written handler. */
  lemma ShortCodeAborts()
    ensures HandleCallbackAsWritten(Empty, Params("ABC123", "", "xyz"))
            == Outcome(AuthCode("ABC123", "", "xyz"), Aborted)
    ensures HandleCallback(Empty, Params("ABC123", "", "xyz"))
            == Outcome(AuthCode("ABC123", "", "xyz"), Rendered(SuccessPage))
  {
  }
}
