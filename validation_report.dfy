/** `ValidationReportUtil`: the response sent when a request fails OpenAPI
    validation, as HTML or plain text by what the client accepts. */
module ValidationReportUtil {
  import opened Common
  import opened Http
  import opened LambdaExchange

  /** `buildResponseReportPlain`. */
  function ReportPlain(reportMessages: string): string {
    "Request validation failed:\n" + reportMessages + "\n"
  }

  /** `buildResponseReportHtml`: the template after its common indentation is
      removed, as it is for messages without line breaks. */
  function ReportHtml(reportMessages: string): string {
    HTML_HEAD + reportMessages + HTML_TAIL
  }

  const HTML_HEAD: string :=
    "<html>\n<head><title>Invalid request</title></head>\n<body><h1>Request validation failed</h1><br/><pre>"
  const HTML_TAIL: string := "</pre></body>\n</html>\n"

  predicate Contains(s: string, part: string) {
    exists i :: 0 <= i <= |s| && OccursAt(s, part, i)
  }

  predicate OccursAt(s: string, part: string, i: int) {
    0 <= i <= |s| - |part| && s[i..i + |part|] == part
  }

  /** Both reports hold the messages verbatim, and the plain one is exactly framed. */
  lemma ReportsContainMessages(reportMessages: string)
    ensures Contains(ReportPlain(reportMessages), reportMessages)
    ensures Contains(ReportHtml(reportMessages), reportMessages)
    ensures StartsWith(ReportPlain(reportMessages), "Request validation failed:\n")
    ensures EndsWith(ReportPlain(reportMessages), "\n")
  {
    var plain := ReportPlain(reportMessages);
    var lead := "Request validation failed:\n";
    assert OccursAt(plain, reportMessages, |lead|);
    assert plain[..|lead|] == lead;
    var html := ReportHtml(reportMessages);
    assert OccursAt(html, reportMessages, |HTML_HEAD|);
  }

  /** The content type and body chosen for a client. */
  function ReportFor(acceptsHtml: bool, reportMessages: string): (r: (string, string))
    ensures acceptsHtml ==> r == (CONTENT_TYPE_HTML, ReportHtml(reportMessages))
    ensures !acceptsHtml ==> r == (CONTENT_TYPE_PLAIN_TEXT, ReportPlain(reportMessages))
  {
    if acceptsHtml then (CONTENT_TYPE_HTML, ReportHtml(reportMessages))
    else (CONTENT_TYPE_PLAIN_TEXT, ReportPlain(reportMessages))
  }

  /** `sendValidationReport`: the Content-Type, then one `end` with the report. */
  method SendValidationReport(exchange: LambdaHttpExchange, reportMessages: string)
    modifies exchange.response
    ensures var (contentType, body) := ReportFor(exchange.AcceptsMimeType(CONTENT_TYPE_HTML), reportMessages);
            exchange.response.headers == WithContentLength(old(exchange.response.headers)[CONTENT_TYPE := contentType], Utf8(body)) &&
            exchange.response.bodyBuffer == Some(Utf8(body))
    ensures exchange.response.statusCode == old(exchange.response.statusCode)
    ensures exchange.response.endCalls == old(exchange.response.endCalls) + 1
  {
    if exchange.AcceptsMimeType(CONTENT_TYPE_HTML) {
      exchange.response.PutHeader(CONTENT_TYPE, CONTENT_TYPE_HTML);
      exchange.response.EndString(Some(ReportHtml(reportMessages)));
    } else {
      exchange.response.PutHeader(CONTENT_TYPE, CONTENT_TYPE_PLAIN_TEXT);
      exchange.response.EndString(Some(ReportPlain(reportMessages)));
    }
  }
}
