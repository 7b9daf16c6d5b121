/**
 * The login gate of the web chatbot: the decision `is_user_authenticated`
 * makes over the session-state map and the query-parameter map, and the
 * part of `main` that decides whether the chat is shown.
 *
 * `st.session_state` and the page's query parameters are the two mutable
 * fields of `App`; the sign-in service's libraries are injected through
 * `AuthService.Services`. Messages written with `st.error`, `st.info` and
 * `st.markdown`, the sign-in link and the chat widgets are not modelled.
 */
module StreamlitChatbot {
  import opened Values
  import opened AuthService

  const AccessTokenKey: string := "ACCESS_TOKEN"
  const UserInfoKey: string := "USER_INFO"
  const CodeParam: string := "code"

  /** What a completed sign-in stores: the access token and the profile. */
  datatype Login = Login(token: Json, info: Json)

  /** The sign-in chain for an authorization code: the exchange must give a
      truthy token, the token's tenant id must be truthy and allowed, and
      the profile must be truthy; `None` as soon as one step fails. */
  function Credentials(services: Services, code: string): (r: Option<Login>)
    ensures r.Some? ==>
              && ExchangeCodeForToken(services.acquireToken(code)) == Some(r.value.token)
              && TruthyJson(r.value.token)
              && GetTenantIdFromToken(services, r.value.token).Some?
              && IsAllowedTenant(services.allowedTenants, GetTenantIdFromToken(services, r.value.token).value)
              && GetUserInfo(services.graphMe(r.value.token)) == Some(r.value.info)
              && TruthyJson(r.value.info)
    ensures !TruthyOptJson(ExchangeCodeForToken(services.acquireToken(code))) ==> r == None
  {
    var token := ExchangeCodeForToken(services.acquireToken(code));
    if !TruthyOptJson(token) then None
    else
      var tid := GetTenantIdFromToken(services, token.value);
      if !(TruthyOptJson(tid) && IsAllowedTenant(services.allowedTenants, tid.value)) then None
      else
        var info := GetUserInfo(services.graphMe(token.value));
        if !TruthyOptJson(info) then None else Some(Login(token.value, info.value))
  }

  /** A login is stored only when every step of the chain succeeded: MSAL
      returned the token, the token decodes to a payload whose `tid` is an
      allowed tenant, and Graph answered 200 with the profile, and neither
      the token nor the profile is falsy. */
  lemma CredentialsSucceed(services: Services, code: string)
    requires Credentials(services, code).Some?
    ensures var login := Credentials(services, code).value;
            && services.acquireToken(code).Returns?
            && services.acquireToken(code).value["access_token"] == login.token
            && TruthyJson(login.token)
            && (exists t :: IsAllowedTenant(services.allowedTenants, t)
                  && DecodeToken(services, login.token).Some?
                  && DecodeToken(services, login.token).value["tid"] == t)
            && services.graphMe(login.token) == Returns(HttpReply(200, Some(login.info)))
            && TruthyJson(login.info)
  {
    var login := Credentials(services, code).value;
    var tid := GetTenantIdFromToken(services, login.token);
    assert IsAllowedTenant(services.allowedTenants, tid.value);
  }

  /** With an empty allow-list no code leads to a login. */
  lemma EmptyAllowListNoLogin(services: Services, code: string)
    requires services.allowedTenants == []
    ensures Credentials(services, code) == None
  {
    var token := ExchangeCodeForToken(services.acquireToken(code));
    if TruthyOptJson(token) {
      var tid := GetTenantIdFromToken(services, token.value);
      if tid.Some? {
        assert !IsAllowedTenant([], tid.value);
      }
    }
  }

  /** A token whose tenant is not allowed never leads to a login, whatever
      MSAL and Graph return. */
  lemma ForeignTenantNoLogin(services: Services, code: string)
    requires var token := ExchangeCodeForToken(services.acquireToken(code));
             token.Some? ==>
               var tid := GetTenantIdFromToken(services, token.value);
               tid.Some? ==> !IsAllowedTenant(services.allowedTenants, tid.value)
    ensures Credentials(services, code) == None
  {
  }

  /** The exceptions that escape `is_user_authenticated`. */
  datatype GateError =
    | ClientSetup     // `AuthService()` raised
    | EmptyCodeList   // `query_params["code"][0]` on an empty list
    | SignInLink      // `build_auth_url()` raised

  /** The outcome of `is_user_authenticated`: a verdict, or an exception. */
  datatype Outcome = Verdict(authenticated: bool) | Failed(error: GateError)

  /** What `main` shows after the title: nothing more (the sign-in prompt
      or an error was written by the gate), the welcome line and the chat,
      or nothing because an exception ended the run. */
  datatype Page = NoChat | Chat(displayName: Json) | Crashed

  /** `user_info.get('displayName', 'User')`: the profile's display name,
      `"User"` when it has none, and an exception when the profile is not a
      JSON object (it has no `get`). */
  function DisplayName(info: Json): (r: Raises<Json>)
    ensures r.Raised? <==> !info.JObject?
    ensures info.JObject? && "displayName" in info.fields ==> r == Returns(info.fields["displayName"])
    ensures info.JObject? && "displayName" !in info.fields ==> r == Returns(JStr("User"))
  {
    match info
    case JObject(fields) => Returns(if "displayName" in fields then fields["displayName"] else JStr("User"))
    case _ => Raised
  }

  /** The page for an authenticated user with profile `info`: the chat,
      greeting the profile's display name, exactly when the profile is a
      JSON object; otherwise the page ends with an exception. */
  function Welcome(info: Json): (page: Page)
    ensures page.Chat? <==> info.JObject?
    ensures page.Chat? ==> DisplayName(info) == Returns(page.displayName)
    ensures !page.Chat? ==> page == Crashed
  {
    match DisplayName(info)
    case Returns(name) => Chat(name)
    case Raised => Crashed
  }

  class App {
    /** `st.session_state`. */
    var sessionState: map<string, Json>
    /** The page's query parameters, each with its list of values. */
    var queryParams: map<string, seq<string>>

    /** A page load with the given session and query. */
    constructor (sessionState: map<string, Json>, queryParams: map<string, seq<string>>)
      ensures this.sessionState == sessionState && this.queryParams == queryParams
    {
      this.sessionState := sessionState;
      this.queryParams := queryParams;
    }

    /** Both credentials are already in the session. */
    predicate SignedIn()
      reads this
    {
      AccessTokenKey in sessionState && UserInfoKey in sessionState
    }

    /** The gate reached the `code` branch: the client was built, the
        session was not signed in, and a non-empty `code` list was given. */
    twostate predicate ReachedCode(services: Services)
      reads this
    {
      && services.client.Returns?
      && !old(SignedIn())
      && CodeParam in old(queryParams)
      && old(queryParams)[CodeParam] != []
    }

    /** The first `code` value of the page as it was. */
    twostate function OldCode(): string
      reads this
      requires CodeParam in old(queryParams) && old(queryParams)[CodeParam] != []
    {
      old(queryParams)[CodeParam][0]
    }

    /** The state the gate leaves behind. In the `code` branch the query
        parameters are cleared whatever happens, and both session keys are
        written exactly when the sign-in chain for the first code value
        succeeds; in every other case nothing changes. */
    twostate predicate GateEffect(services: Services)
      reads this
    {
      if ReachedCode(services) then
        var login := Credentials(services, OldCode());
        && queryParams == map[]
        && sessionState == (if login.Some?
                            then old(sessionState)[AccessTokenKey := login.value.token][UserInfoKey := login.value.info]
                            else old(sessionState))
      else
        sessionState == old(sessionState) && queryParams == old(queryParams)
    }

    /** `is_user_authenticated`. Building the service may raise before
        anything else. A session holding both keys then passes at once (one
        key alone does not suffice). With a `code` parameter only its first
        value is exchanged, and true is returned exactly when the sign-in
        chain succeeds. With neither, the sign-in link is built (which may
        raise) and the answer is false. */
    method IsUserAuthenticated(services: Services) returns (r: Outcome)
      modifies this
      ensures GateEffect(services)
      ensures services.client.Raised? ==> r == Failed(ClientSetup)
      ensures services.client.Returns? && old(SignedIn()) ==> r == Verdict(true)
      ensures services.client.Returns? && !old(SignedIn()) && CodeParam !in old(queryParams) ==>
                r == (if services.authorizationUrl.Raised? then Failed(SignInLink) else Verdict(false))
      ensures (&& services.client.Returns? && !old(SignedIn())
               && CodeParam in old(queryParams) && old(queryParams)[CodeParam] == []) ==> r == Failed(EmptyCodeList)
      ensures ReachedCode(services) ==> r == Verdict(Credentials(services, OldCode()).Some?)
      ensures r == Verdict(true) ==> SignedIn()
    {
      if services.client.Raised? {
        return Failed(ClientSetup);
      }
      if AccessTokenKey in sessionState && UserInfoKey in sessionState {
        return Verdict(true);
      }
      if CodeParam in queryParams {
        if queryParams[CodeParam] == [] {
          return Failed(EmptyCodeList);
        }
        var codeValue := queryParams[CodeParam][0];
        var login := Credentials(services, codeValue);
        queryParams := map[];
        if login.Some? {
          sessionState := sessionState[AccessTokenKey := login.value.token];
          sessionState := sessionState[UserInfoKey := login.value.info];
          return Verdict(true);
        }
        return Verdict(false);
      }
      if services.authorizationUrl.Raised? {
        return Failed(SignInLink);
      }
      return Verdict(false);
    }

    /** `main` after the title. The state is what the gate leaves. The chat
        is shown only when the gate says the user is authenticated, and then
        with the stored profile's display name; any failure of the gate shows
        no chat, and an exception in the gate ends the page. */
    method Render(services: Services) returns (page: Page)
      modifies this
      ensures GateEffect(services)
      ensures page.Chat? ==> SignedIn() && DisplayName(sessionState[UserInfoKey]) == Returns(page.displayName)
      ensures services.client.Raised? ==> page == Crashed
      ensures services.client.Returns? && old(SignedIn()) ==> page == Welcome(old(sessionState)[UserInfoKey])
      ensures services.client.Returns? && !old(SignedIn()) && CodeParam !in old(queryParams) ==>
                page == (if services.authorizationUrl.Raised? then Crashed else NoChat)
      ensures (&& services.client.Returns? && !old(SignedIn())
               && CodeParam in old(queryParams) && old(queryParams)[CodeParam] == []) ==> page == Crashed
      ensures ReachedCode(services) ==>
                var login := Credentials(services, OldCode());
                page == (if login.Some? then Welcome(login.value.info) else NoChat)
    {
      var gate := IsUserAuthenticated(services);
      match gate
      case Failed(_) =>
        return Crashed;
      case Verdict(authenticated) =>
        if !authenticated {
          return NoChat;
        }
        var userInfo := if UserInfoKey in sessionState then sessionState[UserInfoKey] else JObject(map[]);
        return Welcome(userInfo);
    }
  }
}
