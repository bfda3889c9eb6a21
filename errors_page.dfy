/**
 * The error page: the status code from its path selects a message entry
 * (translation keys) and a width class; an unknown code sends the browser
 * home and shows nothing.
 */
module ErrorsPage {
  import opened Common
  import FetchClient

  /** One entry of the message list: three translation keys. */
  datatype ErrorMessage = ErrorMessage(codeMeaning: string, messageHeadline: string, messageDescription: string)

  function Entry(code: string): ErrorMessage {
    ErrorMessage("error" + code + "CodeMeaning", "error" + code + "MessageHeadline", "error" + code + "MessageDescription")
  }

  /** The message list: entries for 401, 403, 404 and 500 only. */
  const ErrorsMessagesList: map<string, ErrorMessage> :=
    map["401" := Entry("401"), "403" := Entry("403"), "404" := Entry("404"), "500" := Entry("500")]

  predicate IsServerErrorCode(code: string) {
    code == "500" || code == "502" || code == "503" || code == "504"
  }

  predicate IsKnownCode(code: string) {
    code == "401" || code == "403" || code == "404" || IsServerErrorCode(code)
  }

  /** The entry shown: a client error's own entry, the 500 entry for every server error. */
  function MessageFor(code: string): (r: Option<ErrorMessage>)
    ensures r.Some? <==> IsKnownCode(code)
    ensures IsServerErrorCode(code) ==> r == Some(Entry("500"))
    ensures (code == "401" || code == "403" || code == "404") ==> r == Some(Entry(code))
  {
    if code == "401" || code == "403" || code == "404" then Some(ErrorsMessagesList[code])
    else if IsServerErrorCode(code) then Some(ErrorsMessagesList["500"])
    else None
  }

  const DefaultWrapperSize := "80vw"

  /** The width class of the message block; unknown codes keep the default. */
  function WrapperSize(code: string): string {
    if code == "401" then "lg:w-[627px]"
    else if code == "403" then "lg:w-[707px]"
    else if code == "404" then " lg:w-[748px]"
    else if IsServerErrorCode(code) then "lg:w-[769px]"
    else DefaultWrapperSize
  }

  /** What the page does for a code. */
  datatype PageOutcome =
    | ShowMessage(message: ErrorMessage, wrapperSize: string)
    | NavigateHome

  function Outcome(code: string): (r: PageOutcome)
    ensures r.ShowMessage? <==> IsKnownCode(code)
    ensures r.ShowMessage? ==> Some(r.message) == MessageFor(code) && r.wrapperSize == WrapperSize(code)
  {
    match MessageFor(code)
    case Some(message) => ShowMessage(message, WrapperSize(code))
    case None => NavigateHome
  }

  /** Every shown message keeps a width of its own: the default width is only ever paired with navigating home. */
  lemma ShownMessagesHaveOwnWidth(code: string)
    requires Outcome(code).ShowMessage?
    ensures Outcome(code).wrapperSize != DefaultWrapperSize
  {
  }

  /** All server errors look alike; each client error has a distinct entry. */
  lemma ServerErrorsShareEntry(a: string, b: string)
    requires IsServerErrorCode(a) && IsServerErrorCode(b)
    ensures Outcome(a) == Outcome(b)
    ensures MessageFor("401") != MessageFor("403") && MessageFor("403") != MessageFor("404")
    ensures MessageFor("401") != MessageFor("404")
    ensures MessageFor("401") != MessageFor("500") && MessageFor("403") != MessageFor("500") && MessageFor("404") != MessageFor("500")
  {
    assert Entry("401").codeMeaning[5] == '4' && Entry("403").codeMeaning[5] == '4' && Entry("500").codeMeaning[5] == '5';
    assert Entry("403").codeMeaning[7] == '3' && Entry("401").codeMeaning[7] == '1' && Entry("404").codeMeaning[7] == '4';
  }

  /** Every redirect the HTTP client makes lands on a code this page knows. */
  lemma ClientRedirectsAreShown(status: int, href: string)
    requires FetchClient.ErrorPageTarget(status, href).Some?
    ensures var target := FetchClient.ErrorPageTarget(status, href).value;
            |target| >= 7 && Outcome(target[7..]).ShowMessage?
  {
    var target := FetchClient.ErrorPageTarget(status, href).value;
    assert target[7..] == IntToString(status);
    HandledStatusesKnown(status);
  }

  lemma HandledStatusesKnown(status: int)
    requires status in FetchClient.HandledStatuses
    ensures IsKnownCode(IntToString(status))
  {
    if status == 403 {
      assert IntToString(403) == "403";
    } else if status == 500 {
      assert IntToString(500) == "500";
    } else if status == 502 {
      assert IntToString(502) == "502";
    } else if status == 503 {
      assert IntToString(503) == "503";
    } else {
      assert status == 504;
      assert IntToString(504) == "504";
    }
  }

  /** A 404 shows a message, but the client never redirects to it. */
  lemma NotFoundOnlyByHand(href: string)
    ensures Outcome("404").ShowMessage?
    ensures FetchClient.ErrorPageTarget(404, href).None?
  {
  }
}
