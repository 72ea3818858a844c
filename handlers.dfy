/**
 * The guards and state transitions of the request handlers `/`
 * (app.js:92-98), `/callback` (app.js:101-118), `/generate`
 * (app.js:121-139) and `/sync` (app.js:142-150). Each handler is a step
 * function: the results of its outside calls (the token exchange, the
 * profile fetch, the delegated-token request, the pipe registration, the
 * sync-key parser, Math.random) are parameters, and the result is the
 * response together with the new session or the outbound requests made.
 */
module Handlers {
  import opened JsValues
  import opened AppState
  import opened AuthLink

  // ---------------------------------------------------------------------
  // GET /
  // ---------------------------------------------------------------------

  const MissingSettings := "missing SINGLY_CLIENT_ID and SINGLY_CLIENT_SECRET settings"

  /** The landing page: refused when the client secret is not configured. */
  function Index(cfg: Config): (r: Response)
    ensures r == Text(500, MissingSettings) || r == Render("index")
  {
    if !Truthy(EnvValue(cfg.clientSecret)) then Text(500, MissingSettings) else Render("index")
  }

  /**
   * The page is refused exactly when SINGLY_CLIENT_SECRET is unset or empty;
   * SINGLY_CLIENT_ID is not consulted, although the message names it.
   */
  lemma IndexGuard(cfg: Config)
    ensures Index(cfg) == Text(500, MissingSettings) <==> (cfg.clientSecret.None? || cfg.clientSecret.value == "")
    ensures Index(cfg) != Text(500, MissingSettings) ==> Index(cfg) == Render("index")
    ensures Index(cfg) == Index(cfg.(clientId := None))
  {
  }

  // ---------------------------------------------------------------------
  // GET /callback
  // ---------------------------------------------------------------------

  datatype CallbackStep = CallbackStep(session: Session, response: Response)

  /**
   * Saving `token.access_token` into the session (app.js:107): throws on a
   * missing token object, and otherwise changes the token and nothing else.
   */
  function CommitToken(session: Session, token: Value): (r: Completion<Session>)
    ensures r.TypeError? <==> Nullish(token)
    ensures r.Normal? ==> r.value == Session(Member(token, "access_token"), session.profile)
  {
    match GetProp(token, "access_token")
    case TypeError => TypeError
    case Normal(t) => Normal(session.(accessToken := t))
  }

  /** The profile fetch succeeded: no error, a profile, and a body in it. */
  predicate ProfileFetched(err: Value, profile: Value) {
    !Truthy(err) && Truthy(profile) && Truthy(Member(profile, "body"))
  }

  /**
   * The OAuth 2.0 redirect target. `token` is what the code exchange passed to
   * its callback (its error argument is ignored by the handler); `err` and
   * `profile` are what the `/profile` request passed to its callback.
   */
  function Callback(session: Session, token: Value, err: Value, profile: Value): (r: CallbackStep)
    ensures r.response == Uncaught <==> Nullish(token)
    ensures r.response == Uncaught ==> r.session == session
    ensures r.response.Redirect? || r.response.Text? || r.response == Uncaught
  {
    match CommitToken(session, token)
    case TypeError => CallbackStep(session, Uncaught)
    case Normal(committed) =>
      if !ProfileFetched(err, profile) then
        CallbackStep(committed, Text(500, JsToString(err) + " " + JsToString(profile)))
      else
        CallbackStep(committed.(profile := Member(profile, "body")), Redirect("/"))
  }

  /**
   * The exchanged token is stored before the profile is fetched, so it is
   * kept whatever the fetch returns; the profile is never touched by a
   * failed fetch.
   */
  lemma CallbackCommitsTokenEarly(session: Session, token: Value, err: Value, profile: Value)
    requires !Nullish(token)
    ensures Callback(session, token, err, profile).session.accessToken == Member(token, "access_token")
    ensures !ProfileFetched(err, profile) ==>
              && Callback(session, token, err, profile).session.profile == session.profile
              && Callback(session, token, err, profile).response ==
                   Text(500, JsToString(err) + " " + JsToString(profile))
  {
  }

  /**
   * The profile is replaced exactly on a successful fetch, by the fetched
   * body, and only then is the browser sent back to the landing page.
   */
  lemma CallbackLinksOnSuccess(session: Session, token: Value, err: Value, profile: Value)
    requires !Nullish(token)
    ensures Callback(session, token, err, profile).response == Redirect("/") <==> ProfileFetched(err, profile)
    ensures ProfileFetched(err, profile) ==>
              Callback(session, token, err, profile).session ==
                Session(Member(token, "access_token"), Member(profile, "body"))
  {
  }

  /**
   * A failed `/profile` request hands its callback an Error object, so the
   * 500 text starts with the error's name and message.
   */
  lemma CallbackNetworkFailure(session: Session, token: Value, message: string, profile: Value)
    requires !Nullish(token) && message != ""
    ensures Callback(session, token, Error("Error", message), profile).response ==
            Text(500, "Error: " + message + " " + JsToString(profile))
  {
  }

  /** A missing token object throws before anything is written, and nothing is sent. */
  lemma CallbackWithoutToken(session: Session, token: Value, err: Value, profile: Value)
    requires Nullish(token)
    ensures Callback(session, token, err, profile) == CallbackStep(session, Uncaught)
  {
  }

  /** Every response but a redirect leaves the profile as it was. */
  lemma CallbackProfileInvariant(session: Session, token: Value, err: Value, profile: Value)
    ensures Callback(session, token, err, profile).session.profile != session.profile ==>
              Callback(session, token, err, profile).response == Redirect("/")
    ensures Callback(session, token, err, profile).response.Redirect? ==>
              Truthy(Callback(session, token, err, profile).session.profile)
  {
  }

  /**
   * After a successful callback whose profile lists `service`, the landing
   * page shows that service with a check mark instead of a link.
   */
  lemma CallbackThenCheckMark(session: Session, token: Value, err: Value, profile: Value,
                              cfg: Config, host: Option<string>, service: string, name: string)
    requires !Nullish(token) && ProfileFetched(err, profile)
    requires !Member(Member(Member(profile, "body"), "services"), service).Undefined?
    ensures AuthorizationLink(cfg, host, Some(Callback(session, token, err, profile).session), service, name)
            == Normal(CheckMark + name)
  {
    var s := Callback(session, token, err, profile).session;
    assert s.profile == Member(profile, "body");
    LinkedShowsCheckMark(cfg, host, Some(s), service, name);
  }

  // ---------------------------------------------------------------------
  // GET /generate
  // ---------------------------------------------------------------------

  const FacebookProfileUrl := "https://api.singly.com/profiles/facebook"

  /** The requests /generate sends to the outside. */
  datatype Outbound =
    | DelegatedTokenRequest(url: string, auth: bool, accessToken: Value)
    | PipeRegistration(url: string, user: Value, pass: Value, pipe: Value)

  /** The reply to a request: status code and body. */
  datatype HttpReply = HttpReply(statusCode: int, body: Value)

  datatype Exchange = Exchange(calls: seq<Outbound>, response: Response)

  /** `body.auth.accessToken` is there and truthy. */
  predicate HasDelegatedToken(body: Value) {
    Truthy(body) && Truthy(Member(body, "auth")) && Truthy(Member(Member(body, "auth"), "accessToken"))
  }

  function DelegatedToken(body: Value): Value {
    Member(Member(body, "auth"), "accessToken")
  }

  /** The pipe record of app.js:125-128: an object with exactly these seven fields. */
  function Pipe(host: Option<string>, identifier: Value, token: Value): (p: Value)
    ensures p.Obj? && p.fields.Keys ==
              {"service", "category", "schedule", "expires_at", "identifier", "target_url", "auth"}
  {
    Obj(map[
      "service" := Str("facebook"),
      "category" := Str("photos"),
      "schedule" := Num(1),
      "expires_at" := Num(1),
      "identifier" := identifier,
      "target_url" := Str(HostUrl("https://", host, "/drain/")),
      "auth" := Obj(map["token" := token])])
  }

  /** The registration request of app.js:129-132, sent with the application's own credentials. */
  function Registration(cfg: Config, pipe: Value): (r: Outbound)
    ensures r.PipeRegistration? && r.pipe == pipe
    ensures r.user == EnvValue(cfg.pipeKey) && r.pass == EnvValue(cfg.pipeSecret)
  {
    PipeRegistration(
      "https://v2beta.singly.com/applications/" + JsToString(EnvValue(cfg.pipeKey)) + "/pipes",
      EnvValue(cfg.pipeKey), EnvValue(cfg.pipeSecret), pipe)
  }

  /**
   * Provisioning a pipe. `profileBody` is the JSON body of the delegated-token
   * request, `identifier` the value Math.random() drew, `reply` the reply to
   * the registration (None when the request failed and no reply exists).
   */
  function Generate(cfg: Config, host: Option<string>, session: Session,
                    profileBody: Value, identifier: Value, reply: Option<HttpReply>): (r: Exchange)
    ensures |r.calls| <= 2
    ensures r.calls != [] ==> r.calls[0] == DelegatedTokenRequest(FacebookProfileUrl, true, session.accessToken)
    ensures forall c | c in r.calls :: c.PipeRegistration? ==> c == r.calls[|r.calls| - 1]
  {
    if !Truthy(session.accessToken) then
      Exchange([], JsonReply(500, ErrorDoc("missing token")))
    else
      var ask := DelegatedTokenRequest(FacebookProfileUrl, true, session.accessToken);
      if !HasDelegatedToken(profileBody) then
        Exchange([ask], JsonReply(500, Obj(map["err" := Str("couldn't get facebook token"), "body" := profileBody])))
      else
        var register := Registration(cfg, Pipe(host, identifier, DelegatedToken(profileBody)));
        match reply
        case None => Exchange([ask, register], Uncaught)
        case Some(HttpReply(status, body)) =>
          if status != 201 then
            Exchange([ask, register], JsonReply(500, ErrorDoc(IntToString(status) + " " + JsToString(body))))
          else
            Exchange([ask, register], JsonReply(200, body))
  }

  /** Without a session token nothing is requested and the reply is `{err: "missing token"}`. */
  lemma GenerateNeedsSessionToken(cfg: Config, host: Option<string>, session: Session,
                                  profileBody: Value, identifier: Value, reply: Option<HttpReply>)
    ensures var r := Generate(cfg, host, session, profileBody, identifier, reply);
            (r.response == JsonReply(500, ErrorDoc("missing token"))) <==> !Truthy(session.accessToken)
    ensures !Truthy(session.accessToken) ==> Generate(cfg, host, session, profileBody, identifier, reply).calls == []
  {
    if Truthy(session.accessToken) && HasDelegatedToken(profileBody) && reply.Some? && reply.value.statusCode != 201 {
      var text := IntToString(reply.value.statusCode) + " " + JsToString(reply.value.body);
      assert text[0] != "missing token"[0];
    }
  }

  /**
   * Without a delegated token the chain stops after the first request, with
   * a 500 reply that carries the upstream body; no pipe is registered.
   */
  lemma GenerateNeedsDelegatedToken(cfg: Config, host: Option<string>, session: Session,
                                    profileBody: Value, identifier: Value, reply: Option<HttpReply>)
    requires Truthy(session.accessToken) && !HasDelegatedToken(profileBody)
    ensures var r := Generate(cfg, host, session, profileBody, identifier, reply);
            && r.calls == [DelegatedTokenRequest(FacebookProfileUrl, true, session.accessToken)]
            && r.response.JsonReply? && r.response.status == 500
            && Member(r.response.json, "err") == Str("couldn't get facebook token")
            && Member(r.response.json, "body") == profileBody
  {
  }

  /**
   * A pipe is registered if and only if the session has a token and the
   * delegated-token request returned one; it is then sent after that request,
   * as a Facebook photo pipe on schedule 1, expiring at 1, named by the drawn
   * identifier, delivering to this host's drain over HTTPS, authorized by the
   * delegated token.
   */
  lemma RegisteredPipe(cfg: Config, host: Option<string>, session: Session,
                       profileBody: Value, identifier: Value, reply: Option<HttpReply>)
    ensures var r := Generate(cfg, host, session, profileBody, identifier, reply);
            (exists c :: c in r.calls && c.PipeRegistration?) <==>
              Truthy(session.accessToken) && HasDelegatedToken(profileBody)
    ensures Truthy(session.accessToken) && HasDelegatedToken(profileBody) ==>
              Generate(cfg, host, session, profileBody, identifier, reply).calls ==
                [DelegatedTokenRequest(FacebookProfileUrl, true, session.accessToken),
                 Registration(cfg, Pipe(host, identifier, DelegatedToken(profileBody)))]
    ensures var r := Generate(cfg, host, session, profileBody, identifier, reply);
            forall c | c in r.calls && c.PipeRegistration? ::
              && Truthy(session.accessToken)
              && HasDelegatedToken(profileBody)
              && c.user == EnvValue(cfg.pipeKey) && c.pass == EnvValue(cfg.pipeSecret)
              && Member(c.pipe, "service") == Str("facebook")
              && Member(c.pipe, "category") == Str("photos")
              && Member(c.pipe, "schedule") == Num(1)
              && Member(c.pipe, "expires_at") == Num(1)
              && Member(c.pipe, "identifier") == identifier
              && Member(c.pipe, "target_url") == Str(HostUrl("https://", host, "/drain/"))
              && Member(Member(c.pipe, "auth"), "token") == DelegatedToken(profileBody)
  {
  }

  /**
   * Once the pipe is submitted, a 201 reply is passed on verbatim; any other
   * status becomes a 500 whose `err` is the status and the upstream body.
   */
  lemma GenerateRegistrationOutcome(cfg: Config, host: Option<string>, session: Session,
                                    profileBody: Value, identifier: Value, status: int, body: Value)
    requires Truthy(session.accessToken) && HasDelegatedToken(profileBody)
    ensures var r := Generate(cfg, host, session, profileBody, identifier, Some(HttpReply(status, body)));
            && r.calls == [DelegatedTokenRequest(FacebookProfileUrl, true, session.accessToken),
                           Registration(cfg, Pipe(host, identifier, DelegatedToken(profileBody)))]
            && (status == 201 ==> r.response == JsonReply(200, body))
            && (status != 201 ==> r.response == JsonReply(500, ErrorDoc(IntToString(status) + " " + JsToString(body))))
  {
  }

  /**
   * When the registration request fails there is no reply whose status code
   * could be read, so the handler throws inside the I/O callback.
   */
  lemma GenerateWithoutReply(cfg: Config, host: Option<string>, session: Session,
                             profileBody: Value, identifier: Value)
    requires Truthy(session.accessToken) && HasDelegatedToken(profileBody)
    ensures Generate(cfg, host, session, profileBody, identifier, None).response == Uncaught
  {
  }

  /**
   * A callback that yields a truthy token gets /generate past its first
   * guard: its first request asks for the delegated token with that token.
   */
  lemma CallbackThenGenerate(session: Session, token: Value, err: Value, profile: Value,
                             cfg: Config, host: Option<string>, profileBody: Value,
                             identifier: Value, reply: Option<HttpReply>)
    requires !Nullish(token) && Truthy(Member(token, "access_token"))
    ensures var s := Callback(session, token, err, profile).session;
            var calls := Generate(cfg, host, s, profileBody, identifier, reply).calls;
            calls != [] && calls[0] == DelegatedTokenRequest(FacebookProfileUrl, true, Member(token, "access_token"))
  {
  }

  // ---------------------------------------------------------------------
  // GET /sync
  // ---------------------------------------------------------------------

  /**
   * The sync-key check. `parse` stands for the secure serializer's parse:
   * None where it throws. A valid key falls through without a reply.
   */
  function Sync(key: Value, parse: Value -> Option<Value>): (r: Response)
    ensures r in {Text(500, "missing sync key"), Text(500, "invalid sync key"), NoReply}
  {
    if !Truthy(key) then Text(500, "missing sync key")
    else
      var options := match parse(key) case None => Undefined case Some(v) => v;
      if !Truthy(options) then Text(500, "invalid sync key") else NoReply
  }

  lemma SyncGuards(key: Value, parse: Value -> Option<Value>)
    ensures Sync(key, parse) == Text(500, "missing sync key") <==> !Truthy(key)
    ensures Sync(key, parse) == Text(500, "invalid sync key") <==>
              Truthy(key) && (parse(key).None? || !Truthy(parse(key).value))
    ensures Sync(key, parse) == NoReply <==> Truthy(key) && parse(key).Some? && Truthy(parse(key).value)
  {
  }
}
