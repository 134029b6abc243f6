/** One operation of the document, as the parser reports it and the table shows it. */
module Model {
  import opened Wrappers

  /**
   * EndpointRow: httpMethod and path are always set by the parser; the other
   * four components may be Java null.
   */
  datatype EndpointRow = EndpointRow(
    httpMethod: string,
    path: string,
    operationId: Option<string>,
    summary: Option<string>,
    contentType: Option<string>,
    bodyTemplate: Option<string>)

  /**
   * The HTTP request handed to the command builder: upper- or lower-case
   * method, absolute URL, headers in order, and the body as text.
   */
  datatype HttpRequest = HttpRequest(
    httpMethod: string,
    url: string,
    headers: seq<(string, string)>,
    body: string)
}
