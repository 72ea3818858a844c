/**
 * The state the handlers of app.js share: the settings read from the
 * environment at start-up (app.js:26-37), the per-user session, and the
 * responses a handler can produce.
 */
module AppState {
  import opened JsValues

  /** SINGLY_CLIENT_ID, SINGLY_CLIENT_SECRET, SINGLY_API_HOST, PIPE_KEY and PIPE_SECRET. */
  datatype Config = Config(
    clientId: Option<string>,
    clientSecret: Option<string>,
    apiHost: Option<string>,
    pipeKey: Option<string>,
    pipeSecret: Option<string>)

  const DefaultApiBaseUrl := "https://api.singly.com"

  /**
   * `process.env.SINGLY_API_HOST || 'https://api.singly.com'`: the setting
   * when it is present and not empty, the public API otherwise.
   */
  function ApiBaseUrl(cfg: Config): (url: string)
    ensures url == if cfg.apiHost.Some? && cfg.apiHost.value != "" then cfg.apiHost.value else DefaultApiBaseUrl
  {
    if Truthy(EnvValue(cfg.apiHost)) then cfg.apiHost.value else DefaultApiBaseUrl
  }

  /**
   * The session fields the handlers read and write: the aggregation API's
   * access token and the user's merged profile document.
   */
  datatype Session = Session(accessToken: Value, profile: Value)

  /** What a handler does with the response object. */
  datatype Response =
    | Text(status: int, text: string)   // res.send(text, status)
    | JsonReply(status: int, json: Value) // res.json(obj[, status])
    | Redirect(location: string)        // res.redirect(location)
    | Render(view: string)              // res.render(view, locals)
    | Uncaught                          // a TypeError escapes an I/O callback: with no handler
                                        // for it the process exits, nothing is sent, and every
                                        // in-memory session and pending request is lost
    | NoReply                           // the handler returns without answering

  /** `{err: message}`, the error document of the JSON endpoints. */
  function ErrorDoc(message: string): (v: Value)
    ensures v.Obj? && Member(v, "err") == Str(message)
  {
    Obj(map["err" := Str(message)])
  }

  /** The text `'scheme://' + req.headers.host + path`; a missing header reads "undefined". */
  function HostUrl(scheme: string, host: Option<string>, path: string): (url: string)
    ensures host.Some? ==> url == scheme + host.value + path
    ensures host.None? ==> url == scheme + "undefined" + path
  {
    scheme + JsToString(EnvValue(host)) + path
  }
}
