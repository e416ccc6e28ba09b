/** What a source is: the request it plans and the capabilities it offers. */
module SourceBase {

  /** The transport of an ordinary request; sources that run an external tool say "tool". */
  const HttpTransport := "http"
  const ToolTransport := "tool"

  /** One request a source wants made. */
  datatype RequestSpec = RequestSpec(url: string, inputType: string, headers: map<string, string>, transport: string)

  /** A request with the default transport and the given headers. */
  function HttpRequest(url: string, inputType: string, headers: map<string, string>): (r: RequestSpec)
    ensures r.transport == "http" && r.url == url && r.inputType == inputType && r.headers == headers
  {
    RequestSpec(url, inputType, headers, HttpTransport)
  }

  /**
   * The behaviour behind a source's callables: an HTML profile page under a URL template, one of
   * the directory searches, or one of the external tools (the only sources with `execute`).
   */
  datatype Capability =
    | HtmlProfile(urlTemplate: string)
    | MastodonProfile
    | OrcidSearch
    | WikidataSearch
    | OpenAlexSearch
    | SherlockTool
    | MaigretTool
    | WhatsMyNameTool

  /** A configured source: its identity, the input kinds it accepts and its capability. */
  datatype Source = Source(sourceId: string, name: string, category: string, supportedInputs: set<string>,
                           capability: Capability)
  {
    /** Whether the source carries an `execute` callable. */
    predicate HasExecute() {
      capability.SherlockTool? || capability.MaigretTool? || capability.WhatsMyNameTool?
    }
  }
}
