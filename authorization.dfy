/** The authorization flow of the MastodonAgain app: registering the client
    with an instance, exchanging a user-supplied code for a token (the
    out-of-band variant of the OAuth 2.0 authorization code grant, RFC 6749
    sections 4.1.1 and 4.1.3), and cancelling. Network results are inputs:
    a request either succeeds with a decoded value or fails. */
module Authorization {
  import opened Common
  import opened Urls

  // ---------------------------------------------------------------------
  // Values

  datatype RegisteredApplication = RegisteredApplication(clientId: string, clientSecret: string)

  /** The token's contents are not looked at by the flow. */
  datatype Token = Token(accessToken: string)

  datatype AuthorizationState =
    | Unauthorized
    | Registered(application: RegisteredApplication)
    | Authorized(application: RegisteredApplication, token: Token)

  /** What a request and the decoding of its answer came to. */
  datatype Response<T> = Success(value: T) | Failure

  /** An opaque point in time (`Date.now`). */
  type Timestamp = int

  /** The out-of-band redirect marker: the code is shown to the user. */
  const OutOfBand := "urn:ietf:wg:oauth:2.0:oob"
  const Scopes := "read write follow push"

  /** A POST whose body is the given form parameters. */
  datatype FormRequest = FormRequest(url: Url, parameters: map<string, string>)

  // ---------------------------------------------------------------------
  // Requests

  /** The client registration request of `register()`. */
  function RegistrationRequest(host: string, clientName: string, website: string): (r: FormRequest)
    ensures r.url == Url("https://" + host + "/api/v1/apps", [])
    ensures r.parameters.Keys == {"client_name", "redirect_uris", "scopes", "website"}
    ensures r.parameters["client_name"] == clientName && r.parameters["website"] == website
    ensures r.parameters["redirect_uris"] == OutOfBand && r.parameters["scopes"] == Scopes
  {
    FormRequest(Url("https://" + host + "/api/v1/apps", []),
                map["client_name" := clientName,
                    "redirect_uris" := OutOfBand,
                    "scopes" := Scopes,
                    "website" := website])
  }

  /** The access token request of `getToken(with:)` (RFC 6749 section 4.1.3). */
  function TokenRequest(host: string, application: RegisteredApplication, code: string): (r: FormRequest)
    ensures r.url == Url("https://" + host + "/oauth/token", [])
    ensures r.parameters.Keys == {"client_id", "client_secret", "redirect_uri", "grant_type", "code", "scope"}
    ensures r.parameters["client_id"] == application.clientId
    ensures r.parameters["client_secret"] == application.clientSecret
    ensures r.parameters["redirect_uri"] == OutOfBand && r.parameters["grant_type"] == "authorization_code"
    ensures r.parameters["code"] == code && r.parameters["scope"] == Scopes
  {
    FormRequest(Url("https://" + host + "/oauth/token", []),
                map["client_id" := application.clientId,
                    "client_secret" := application.clientSecret,
                    "redirect_uri" := OutOfBand,
                    "grant_type" := "authorization_code",
                    "code" := code,
                    "scope" := Scopes])
  }

  /** The page the registered view loads for the user to approve the
      client (RFC 6749 section 4.1.1); spaces in the scope are written `+`. */
  function AuthorizeUrl(host: string, application: RegisteredApplication): (u: Url)
    ensures u.base == "https://" + host + "/oauth/authorize"
    ensures QueryValue(u, "client_id") == Some(application.clientId)
    ensures QueryValue(u, "response_type") == Some("code")
    ensures QueryValue(u, "redirect_uri") == Some(OutOfBand)
    ensures QueryValue(u, "scope") == Some("read+write+follow+push")
  {
    var query := [QueryItem("client_id", application.clientId),
                  QueryItem("scope", "read+write+follow+push"),
                  QueryItem("redirect_uri", OutOfBand),
                  QueryItem("response_type", "code")];
    var u := Url("https://" + host + "/oauth/authorize", query);
    OnlyItemReadsBack(u, 0);
    OnlyItemReadsBack(u, 1);
    OnlyItemReadsBack(u, 2);
    OnlyItemReadsBack(u, 3);
    u
  }

  /** Form decoding of `+` as a space. */
  function PlusAsSpace(s: string): (r: string)
    ensures |r| == |s|
  {
    seq(|s|, i requires 0 <= i < |s| => if s[i] == '+' then ' ' else s[i])
  }

  /** The scope the authorize URL writes with `+` is the scope the two form
      requests send. */
  lemma ScopeSpellingsAgree()
    ensures PlusAsSpace("read+write+follow+push") == Scopes
  {
    var encoded := "read+write+follow+push";
    forall i | 0 <= i < |encoded| ensures PlusAsSpace(encoded)[i] == Scopes[i] {
    }
  }

  /** The three requests agree on what RFC 6749 asks to be the same across
      them: the client, the redirect marker and the scope. */
  lemma RequestsAgree(host: string, clientName: string, website: string,
                      application: RegisteredApplication, code: string)
    ensures var registration := RegistrationRequest(host, clientName, website).parameters;
            var token := TokenRequest(host, application, code).parameters;
            var authorize := AuthorizeUrl(host, application);
            && QueryValue(authorize, "client_id") == Some(token["client_id"])
            && QueryValue(authorize, "redirect_uri") == Some(token["redirect_uri"])
            && token["redirect_uri"] == registration["redirect_uris"]
            && PlusAsSpace(QueryValue(authorize, "scope").value) == token["scope"] == registration["scopes"]
  {
    ScopeSpellingsAgree();
  }

  // ---------------------------------------------------------------------
  // What the view shows

  datatype Screen =
    | Progress(waitingSince: Option<Timestamp>)
    | Login
    | CodeEntry(application: RegisteredApplication, authorizeUrl: Url)
    | AlreadyAuthorized

  /** Everything the flow reads and writes: the app model's authorization
      and host, and the view's own fields. */
  datatype FlowState = FlowState(
    authorization: AuthorizationState,
    host: string,
    authorizationCode: string,
    clientName: string,
    website: string,
    spinning: bool,
    date: Option<Timestamp>)

  /** `body`: the spinner hides everything; otherwise the screen follows the
      authorization state. */
  function Dispatch(s: FlowState): (v: Screen)
    ensures v.Progress? <==> s.spinning
    ensures v.Login? <==> !s.spinning && s.authorization.Unauthorized?
    ensures v.CodeEntry? <==> !s.spinning && s.authorization.Registered?
    ensures v.AlreadyAuthorized? <==> !s.spinning && s.authorization.Authorized?
    ensures v.Progress? ==> v.waitingSince == s.date
    ensures v.CodeEntry? ==> v.application == s.authorization.application &&
                             v.authorizeUrl == AuthorizeUrl(s.host, v.application)
  {
    if s.spinning then Progress(s.date)
    else match s.authorization
      case Unauthorized => Login
      case Registered(application) => CodeEntry(application, AuthorizeUrl(s.host, application))
      case _ => AlreadyAuthorized
  }

  // ---------------------------------------------------------------------
  // Transitions

  /** The Cancel Authorization button. */
  function Cancelled(s: FlowState): FlowState {
    s.(authorization := Unauthorized)
  }

  /** `register()`: only a successful registration changes anything. */
  function AfterRegister(s: FlowState, response: Response<RegisteredApplication>): FlowState {
    if response.Success? then s.(authorization := Registered(response.value)) else s
  }

  /** `getToken(with:)` as written: the spinner and the start time are set
      before the request and nothing clears the spinner afterwards. */
  function AfterGetToken(s: FlowState, application: RegisteredApplication, now: Timestamp,
                         response: Response<Token>): FlowState {
    var waiting := s.(spinning := true, date := Some(now));
    if response.Success? then waiting.(authorization := Authorized(application, response.value))
    else waiting
  }

  /** `getToken(with:)` with the spinner cleared once the request is over. */
  function AfterGetTokenSettled(s: FlowState, application: RegisteredApplication, now: Timestamp,
                                response: Response<Token>): FlowState {
    AfterGetToken(s, application, now, response).(spinning := false)
  }

  /** Which `getToken(with:)` the flow runs: the source's, or the one that
      clears the spinner when the request is over. */
  datatype Exchange = AsWritten | Settled

  function AfterExchange(exchange: Exchange, s: FlowState, application: RegisteredApplication,
                         now: Timestamp, response: Response<Token>): FlowState {
    match exchange
    case AsWritten => AfterGetToken(s, application, now, response)
    case Settled => AfterGetTokenSettled(s, application, now, response)
  }

  /** What the user can do: cancel at any time, register from the login
      screen, and submit a code from the code entry screen, which passes
      that screen's application. */
  datatype Action =
    | Cancel
    | Register(registration: Response<RegisteredApplication>)
    | SubmitCode(now: Timestamp, tokenResponse: Response<Token>)

  /** Whether the screen offers the action: the toolbar's Cancel always,
      Register Application only on the login view, code submission only on
      the code entry view; the spinner hides both views. */
  function Enabled(s: FlowState, a: Action): (b: bool)
    ensures a.Cancel? ==> b
    ensures a.Register? ==> (b <==> !s.spinning && s.authorization.Unauthorized?)
    ensures a.SubmitCode? ==> (b <==> !s.spinning && s.authorization.Registered?)
  {
    match a
    case Cancel => true
    case Register(_) => Dispatch(s).Login?
    case SubmitCode(_, _) => Dispatch(s).CodeEntry?
  }

  function Step(x: Exchange, s: FlowState, a: Action): FlowState
    requires Enabled(s, a)
  {
    match a
    case Cancel => Cancelled(s)
    case Register(response) => AfterRegister(s, response)
    case SubmitCode(now, response) => AfterExchange(x, s, s.authorization.application, now, response)
  }

  /** The state after the actions, or None if one of them was not offered. */
  function Run(x: Exchange, s: FlowState, actions: seq<Action>): Option<FlowState>
    decreases |actions|
  {
    if actions == [] then Some(s)
    else if Enabled(s, actions[0]) then Run(x, Step(x, s, actions[0]), actions[1..])
    else None
  }

  lemma RunPrefix(x: Exchange, s: FlowState, actions: seq<Action>, k: nat)
    requires 0 < k <= |actions| && Enabled(s, actions[0])
    ensures Run(x, s, actions[..k]) == Run(x, Step(x, s, actions[0]), actions[1..][..k - 1])
  {
    assert actions[..k][1..] == actions[1..][..k - 1];
  }

  /** Authorized for an application is only ever reached by submitting a
      code from the code entry screen of that same application, with either
      exchange. */
  lemma {:induction false} AuthorizedOnlyThroughRegistered(x: Exchange, s: FlowState, actions: seq<Action>,
                                                          application: RegisteredApplication, token: Token)
    requires Run(x, s, actions).Some?
    requires Run(x, s, actions).value.authorization == Authorized(application, token)
    requires s.authorization != Authorized(application, token)
    decreases |actions|
    ensures exists k :: 0 <= k < |actions| && Run(x, s, actions[..k]).Some? &&
              Run(x, s, actions[..k]).value.authorization == Registered(application) &&
              actions[k].SubmitCode? && actions[k].tokenResponse == Success(token)
  {
    var next := Step(x, s, actions[0]);
    if next.authorization == Authorized(application, token) {
      assert actions[..0] == [];
      assert Run(x, s, actions[..0]) == Some(s);
    } else {
      AuthorizedOnlyThroughRegistered(x, next, actions[1..], application, token);
      var k :| 0 <= k < |actions[1..]| && Run(x, next, actions[1..][..k]).Some? &&
               Run(x, next, actions[1..][..k]).value.authorization == Registered(application) &&
               actions[1..][k].SubmitCode? && actions[1..][k].tokenResponse == Success(token);
      RunPrefix(x, s, actions, k + 1);
    }
  }

  /** Starting unauthorized, a successful registration leads to the code
      entry screen of the registered application. */
  lemma RegistrationShowsCodeEntry(x: Exchange, s: FlowState, application: RegisteredApplication)
    requires s.authorization == Unauthorized && !s.spinning
    ensures Enabled(s, Register(Success(application)))
    ensures Dispatch(Step(x, s, Register(Success(application)))) ==
            CodeEntry(application, AuthorizeUrl(s.host, application))
  {
  }

  /** Cancelling from any state leaves the flow unauthorized and changes
      nothing else. */
  lemma CancelFromAnywhere(x: Exchange, s: FlowState)
    ensures Step(x, s, Cancel) == s.(authorization := Unauthorized)
  {
  }

  /** Finding, as written: once the spinner is on, only Cancel is ever
      offered again and it does not clear the spinner, so the spinner stays
      and the state can only stay as it was or drop to unauthorized. */
  lemma {:induction false} SpinnerNeverClears(s: FlowState, actions: seq<Action>)
    requires s.spinning && Run(AsWritten, s, actions).Some?
    decreases |actions|
    ensures var e := Run(AsWritten, s, actions).value;
            e.spinning && Dispatch(e) == Progress(s.date) &&
            (e.authorization == s.authorization || e.authorization == Unauthorized)
  {
    if actions != [] {
      SpinnerNeverClears(Step(AsWritten, s, actions[0]), actions[1..]);
    }
  }

  /** Finding, as written: after a failed code exchange, whatever the user
      does, the flow never becomes authorized and the screen stays on the
      spinner. */
  lemma FailedExchangeIsTerminal(s: FlowState, now: Timestamp, actions: seq<Action>)
    requires Enabled(s, SubmitCode(now, Failure))
    ensures var run := Run(AsWritten, Step(AsWritten, s, SubmitCode(now, Failure)), actions);
            run.Some? ==> !run.value.authorization.Authorized? && Dispatch(run.value) == Progress(Some(now))
  {
    var failed := Step(AsWritten, s, SubmitCode(now, Failure));
    if Run(AsWritten, failed, actions).Some? {
      SpinnerNeverClears(failed, actions);
    }
  }

  /** Finding, corrected: with the spinner cleared once the request is over,
      a failed exchange brings back the code entry screen of the same
      application, from which a later successful exchange authorizes. */
  lemma FailedExchangeCanBeRetried(s: FlowState, now: Timestamp, later: Timestamp, token: Token)
    requires Enabled(s, SubmitCode(now, Failure))
    ensures var application := s.authorization.application;
            var failed := Step(Settled, s, SubmitCode(now, Failure));
            && Dispatch(failed) == CodeEntry(application, AuthorizeUrl(s.host, application))
            && Run(Settled, failed, [SubmitCode(later, Success(token))]).Some?
            && Run(Settled, failed, [SubmitCode(later, Success(token))]).value.authorization ==
                 Authorized(application, token)
            && Dispatch(Run(Settled, failed, [SubmitCode(later, Success(token))]).value) == AlreadyAuthorized
  {
    var failed := Step(Settled, s, SubmitCode(now, Failure));
    var actions := [SubmitCode(later, Success(token))];
    assert actions[1..] == [];
  }

  // ---------------------------------------------------------------------
  // The objects the source mutates

  /** The part of the shared app model that the flow reads and writes. */
  class AppModel {
    var authorization: AuthorizationState
    var host: string

    constructor(authorization: AuthorizationState, host: string)
      ensures this.authorization == authorization && this.host == host
    {
      this.authorization := authorization;
      this.host := host;
    }
  }

  /** The view's state and actions. */
  class AuthorizationFlow {
    const appModel: AppModel
    var authorizationCode: string
    var clientName: string
    var website: string
    var spinning: bool
    var date: Option<Timestamp>

    function State(): FlowState
      reads this, appModel
    {
      FlowState(appModel.authorization, appModel.host, authorizationCode, clientName, website, spinning, date)
    }

    constructor(appModel: AppModel)
      ensures this.appModel == appModel
      ensures State() == FlowState(appModel.authorization, appModel.host, "", "MastodonAgain",
                                   "https://schwa.io/MastodonAgain", false, None)
    {
      this.appModel := appModel;
      authorizationCode := "";
      clientName := "MastodonAgain";
      website := "https://schwa.io/MastodonAgain";
      spinning := false;
      date := None;
    }

    /** The Cancel Authorization button. */
    method Cancel()
      modifies appModel
      ensures State() == Cancelled(old(State()))
    {
      appModel.authorization := Unauthorized;
    }

    /** `register()`: sends the registration request and, if it succeeds,
        records the registered application. */
    method Register(response: Response<RegisteredApplication>) returns (request: FormRequest)
      modifies appModel
      ensures request == RegistrationRequest(old(appModel.host), clientName, website)
      ensures State() == AfterRegister(old(State()), response)
    {
      request := RegistrationRequest(appModel.host, clientName, website);
      if response.Success? {
        appModel.authorization := Registered(response.value);
      }
    }

    /** `getToken(with:)` as written: offered only on the code entry screen
        of `application`. */
    method GetToken(application: RegisteredApplication, now: Timestamp, response: Response<Token>)
      returns (request: FormRequest)
      requires appModel.authorization == Registered(application)
      modifies this, appModel
      ensures request == TokenRequest(old(appModel.host), application, old(authorizationCode))
      ensures State() == AfterGetToken(old(State()), application, now, response)
    {
      spinning := true;
      date := Some(now);
      request := TokenRequest(appModel.host, application, authorizationCode);
      if response.Success? {
        appModel.authorization := Authorized(application, response.value);
      }
    }

    /** `getToken(with:)` with the spinner cleared when the request is over. */
    method GetTokenSettled(application: RegisteredApplication, now: Timestamp, response: Response<Token>)
      returns (request: FormRequest)
      requires appModel.authorization == Registered(application)
      modifies this, appModel
      ensures request == TokenRequest(old(appModel.host), application, old(authorizationCode))
      ensures State() == AfterGetTokenSettled(old(State()), application, now, response)
    {
      spinning := true;
      date := Some(now);
      request := TokenRequest(appModel.host, application, authorizationCode);
      if response.Success? {
        appModel.authorization := Authorized(application, response.value);
      }
      spinning := false;
    }
  }
}
