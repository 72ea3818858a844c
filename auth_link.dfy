/**
 * The authorization link builder (`authorizationLink`, app.js:60-89). For a
 * service the returning user has already linked it yields a check mark and
 * the service's display name; otherwise an anchor to the aggregation API's
 * OAuth 2.0 authorization endpoint (section 4.1.1 of RFC 6749: client_id,
 * redirect_uri, scope) with the provider's own parameters `service`, and
 * either `access_token` (merge into the existing identity) or
 * `account=false`.
 */
module AuthLink {
  import opened JsValues
  import opened AppState
  import opened QueryString

  const CheckMark := "<span class=\"check\">&#10003;</span> "
  const AuthorizePath := "/oauth/authenticate?"

  /** `req && req.session && req.session.profile` is truthy. */
  predicate Returning(session: Option<Session>) {
    session.Some? && Truthy(session.value.profile)
  }

  /** A returning user whose profile has a truthy `id`: an identity to merge into. */
  predicate KnownIdentity(session: Option<Session>) {
    Returning(session) && Truthy(Member(session.value.profile, "id"))
  }

  /** The `options` object of app.js:68-84, its keys in insertion order. */
  function Options(cfg: Config, host: Option<string>, session: Option<Session>, service: string)
    : (o: seq<(string, Value)>)
    ensures |o| == if service == "github" then 5 else 4
    ensures forall i, j | 0 <= i < j < |o| :: o[i].0 != o[j].0
  {
    [("client_id", EnvValue(cfg.clientId)),
     ("redirect_uri", Str(HostUrl("http://", host, "/callback"))),
     ("service", Str(service))]
    + (if KnownIdentity(session) then [("access_token", session.value.accessToken)]
       else [("account", Str("false"))])
    + (if service == "github" then [("scope", Str("repo"))] else [])
  }

  function AuthorizeUrl(cfg: Config, host: Option<string>, session: Option<Session>, service: string)
    : string
  {
    ApiBaseUrl(cfg) + AuthorizePath + Stringify(Options(cfg, host, session, service))
  }

  function Anchor(url: string, name: string): string {
    "<a href=\"" + url + "\">" + name + "</a>"
  }

  /**
   * The closure `authorizationLink(req)` applied to `(service, name)`.
   * Looking the service up throws when a returning user's profile has no
   * `services` object.
   */
  function AuthorizationLink(cfg: Config, host: Option<string>, session: Option<Session>,
                             service: string, name: string): (r: Completion<string>)
    ensures r.Normal? ==> (r.value == CheckMark + name <==> Linked(session, service))
  {
    if Returning(session) && Nullish(Member(session.value.profile, "services")) then
      TypeError
    else if Linked(session, service) then
      Normal(CheckMark + name)
    else
      Normal(Anchor(AuthorizeUrl(cfg, host, session, service), name))
  }

  /** The service is listed in the returning user's profile. */
  predicate Linked(session: Option<Session>, service: string) {
    Returning(session) && !Member(Member(session.value.profile, "services"), service).Undefined?
  }

  // ---------------------------------------------------------------------
  // Properties
  // ---------------------------------------------------------------------

  /** A linked service shows the check mark and its name, and no URL at all. */
  lemma LinkedShowsCheckMark(cfg: Config, host: Option<string>, session: Option<Session>,
                             service: string, name: string)
    requires Linked(session, service)
    ensures AuthorizationLink(cfg, host, session, service, name) == Normal(CheckMark + name)
  {
  }

  /** The only TypeError: a returning user whose profile lacks a `services` object. */
  lemma ThrowsOnlyWithoutServices(cfg: Config, host: Option<string>, session: Option<Session>,
                                  service: string, name: string)
    ensures AuthorizationLink(cfg, host, session, service, name).TypeError? <==>
            Returning(session) && Nullish(Member(session.value.profile, "services"))
  {
  }

  /**
   * A service that is not linked gets an anchor whose target is the
   * authorization endpoint of the configured API host, with the options
   * object as its query.
   */
  lemma UnlinkedShowsAuthorizeLink(cfg: Config, host: Option<string>, session: Option<Session>,
                                   service: string, name: string)
    requires !Linked(session, service)
    requires !(Returning(session) && Nullish(Member(session.value.profile, "services")))
    ensures AuthorizationLink(cfg, host, session, service, name) ==
            Normal(Anchor(AuthorizeUrl(cfg, host, session, service), name))
  {
  }

  /** The parameters the authorization endpoint reads from the link's query. */
  function QueryParams(cfg: Config, host: Option<string>, session: Option<Session>, service: string)
    : seq<(string, string)>
  {
    var q := ParseQuery(Stringify(Options(cfg, host, session, service)));
    if q.Some? then q.value else []
  }

  /** The query always parses, and gives the options with their values as text. */
  lemma ParamsArePrimitives(cfg: Config, host: Option<string>, session: Option<Session>, service: string)
    ensures ParseQuery(Stringify(Options(cfg, host, session, service))).Some?
    ensures QueryParams(cfg, host, session, service) == Primitives(Options(cfg, host, session, service))
  {
    ParseStringify(Options(cfg, host, session, service));
  }

  /** The options, each value written as text. */
  lemma PrimitiveOptions(cfg: Config, host: Option<string>, session: Option<Session>, service: string)
    ensures Primitives(Options(cfg, host, session, service)) ==
      [("client_id", StringifyPrimitive(EnvValue(cfg.clientId))),
       ("redirect_uri", HostUrl("http://", host, "/callback")),
       ("service", service),
       if KnownIdentity(session) then ("access_token", StringifyPrimitive(session.value.accessToken))
       else ("account", "false")]
      + (if service == "github" then [("scope", "repo")] else [])
  {
    var obj := Options(cfg, host, session, service);
    var ps := Primitives(obj);
    assert |ps| == |obj| == if service == "github" then 5 else 4;
    assert ps[0] == (obj[0].0, StringifyPrimitive(obj[0].1));
    assert ps[1] == (obj[1].0, StringifyPrimitive(obj[1].1));
    assert ps[2] == (obj[2].0, StringifyPrimitive(obj[2].1));
    assert ps[3] == (obj[3].0, StringifyPrimitive(obj[3].1));
    if service == "github" {
      assert ps[4] == (obj[4].0, StringifyPrimitive(obj[4].1));
    }
  }

  /** Lookups in a query laid out like the options object. */
  lemma ReadBack(ps: seq<(string, string)>, clientId: string, redirect: string, service: string,
                 fourth: (string, string), github: bool)
    requires fourth.0 == "access_token" || fourth.0 == "account"
    requires ps == [("client_id", clientId), ("redirect_uri", redirect), ("service", service), fourth]
                   + (if github then [("scope", "repo")] else [])
    ensures Lookup(ps, "client_id") == Some(clientId)
    ensures Lookup(ps, "redirect_uri") == Some(redirect)
    ensures Lookup(ps, "service") == Some(service)
    ensures Lookup(ps, fourth.0) == Some(fourth.1)
    ensures Lookup(ps, if fourth.0 == "account" then "access_token" else "account") == None
    ensures Lookup(ps, "scope") == if github then Some("repo") else None
  {
    LookupFirst(ps, "client_id", 0);
    LookupFirst(ps, "redirect_uri", 1);
    LookupFirst(ps, "service", 2);
    LookupFirst(ps, fourth.0, 3);
    LookupMissing(ps, if fourth.0 == "account" then "access_token" else "account");
    if github {
      LookupFirst(ps, "scope", 4);
    } else {
      LookupMissing(ps, "scope");
    }
  }

  /** What the authorization endpoint reads for each parameter. */
  lemma ReadBackOptions(cfg: Config, host: Option<string>, session: Option<Session>, service: string)
    ensures var ps := Primitives(Options(cfg, host, session, service));
      && Lookup(ps, "client_id") == Some(StringifyPrimitive(EnvValue(cfg.clientId)))
      && Lookup(ps, "redirect_uri") == Some(HostUrl("http://", host, "/callback"))
      && Lookup(ps, "service") == Some(service)
      && (KnownIdentity(session) ==>
            && Lookup(ps, "access_token") == Some(StringifyPrimitive(session.value.accessToken))
            && Lookup(ps, "account") == None)
      && (!KnownIdentity(session) ==>
            && Lookup(ps, "account") == Some("false")
            && Lookup(ps, "access_token") == None)
      && Lookup(ps, "scope") == if service == "github" then Some("repo") else None
  {
    PrimitiveOptions(cfg, host, session, service);
    var ps := Primitives(Options(cfg, host, session, service));
    var clientId, redirect := StringifyPrimitive(EnvValue(cfg.clientId)), HostUrl("http://", host, "/callback");
    if KnownIdentity(session) {
      ReadBack(ps, clientId, redirect, service,
               ("access_token", StringifyPrimitive(session.value.accessToken)), service == "github");
    } else {
      ReadBack(ps, clientId, redirect, service, ("account", "false"), service == "github");
    }
  }

  /**
   * `access_token` is sent, with the session's token, exactly when the user
   * is returning with a known identity; otherwise `account=false` is sent and
   * no access token.
   */
  lemma AccessTokenIffKnownIdentity(cfg: Config, host: Option<string>, session: Option<Session>,
                                    service: string)
    ensures var ps := QueryParams(cfg, host, session, service);
            && (Lookup(ps, "access_token").Some? <==> KnownIdentity(session))
            && (KnownIdentity(session) ==>
                  Lookup(ps, "access_token") == Some(StringifyPrimitive(session.value.accessToken)))
            && (Lookup(ps, "account") == Some("false") <==> !KnownIdentity(session))
            && (Lookup(ps, "account").Some? <==> !KnownIdentity(session))
  {
    ParamsArePrimitives(cfg, host, session, service);
    ReadBackOptions(cfg, host, session, service);
  }

  /** Without any session the link always says `account=false` and carries no token. */
  lemma NoSessionMeansNoAccount(cfg: Config, host: Option<string>, service: string, name: string)
    ensures AuthorizationLink(cfg, host, None, service, name) ==
            Normal(Anchor(AuthorizeUrl(cfg, host, None, service), name))
    ensures Lookup(QueryParams(cfg, host, None, service), "account") == Some("false")
    ensures Lookup(QueryParams(cfg, host, None, service), "access_token") == None
  {
    AccessTokenIffKnownIdentity(cfg, host, None, service);
  }

  /** Only GitHub is asked for a scope, and it is always `repo`. */
  lemma ScopeOnlyForGithub(cfg: Config, host: Option<string>, session: Option<Session>, service: string)
    ensures Lookup(QueryParams(cfg, host, session, service), "scope") ==
            (if service == "github" then Some("repo") else None)
  {
    ParamsArePrimitives(cfg, host, session, service);
    ReadBackOptions(cfg, host, session, service);
  }

  /** client_id, redirect_uri and service always read back as configured. */
  lemma ClientRedirectService(cfg: Config, host: Option<string>, session: Option<Session>, service: string)
    ensures var ps := QueryParams(cfg, host, session, service);
            && Lookup(ps, "client_id") == Some(if cfg.clientId.Some? then cfg.clientId.value else "")
            && Lookup(ps, "redirect_uri") == Some(HostUrl("http://", host, "/callback"))
            && Lookup(ps, "service") == Some(service)
  {
    ParamsArePrimitives(cfg, host, session, service);
    ReadBackOptions(cfg, host, session, service);
  }
}
