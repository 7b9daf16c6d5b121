/**
 * The decision logic of the sign-in service: how the results of the MSAL
 * code exchange, of unverified JWT decoding and of the Microsoft Graph `/me`
 * call are reduced to optional values, and the tenant allow-list test.
 *
 * The three libraries are not modelled; each call is an injected outcome
 * (`Raises<T>`): it raised, or it returned a value. `st.error` output is
 * dropped. Tokens and tenant ids are kept as JSON values because the code
 * passes on whatever the libraries returned without checking its type.
 */
module AuthService {
  import opened Values
  import MsalConfig

  /** The injected libraries and configuration one sign-in attempt uses. */
  datatype Services = Services(
    /** `AuthService()`: building `msal.ConfidentialClientApplication`, which
        nothing in the code guards. */
    client: Raises<()>,
    /** `build_auth_url()`, which nothing in the code guards either. */
    authorizationUrl: Raises<string>,
    /** `acquire_token_by_authorization_code` for a code. */
    acquireToken: string -> Raises<map<string, Json>>,
    /** `jwt.get_unverified_header` for a token. */
    unverifiedHeader: Json -> Raises<map<string, Json>>,
    /** `jwt.decode` (signature not verified) for a token and an algorithm. */
    decode: (Json, Json) -> Raises<map<string, Json>>,
    /** The Graph `/me` request made with a bearer token. */
    graphMe: Json -> Raises<HttpReply>,
    /** `MSALConfig.ALLOWED_TENANTS`. */
    allowedTenants: seq<string>)

  /** A Graph HTTP reply: its status, and its body when it parses as JSON. */
  datatype HttpReply = HttpReply(status: int, body: Option<Json>)

  /** `exchange_code_for_token` given what MSAL did: the `access_token` entry
      of the result when there is one, and `None` when the entry is missing
      or MSAL raised. */
  function ExchangeCodeForToken(result: Raises<map<string, Json>>): (r: Option<Json>)
    ensures r.Some? <==>
              result.Returns? && "access_token" in result.value && result.value["access_token"] != JNull
    ensures r.Some? ==> r.value == result.value["access_token"]
  {
    match result
    case Raised => None
    case Returns(fields) => if "access_token" in fields then AsPython(fields["access_token"]) else None
  }

  /** `decode_token`: the header is read, its `alg` entry looked up and the
      payload decoded with that algorithm; any of the three failing (the
      header raising, `alg` missing, decoding raising) gives `None` and
      nothing is raised to the caller. */
  function DecodeToken(services: Services, token: Json): (r: Option<map<string, Json>>)
    ensures r.Some? ==>
              && services.unverifiedHeader(token).Returns?
              && "alg" in services.unverifiedHeader(token).value
              && services.decode(token, services.unverifiedHeader(token).value["alg"]) == Returns(r.value)
    ensures r.None? <==>
              || services.unverifiedHeader(token).Raised?
              || "alg" !in services.unverifiedHeader(token).value
              || services.decode(token, services.unverifiedHeader(token).value["alg"]).Raised?
  {
    match services.unverifiedHeader(token)
    case Raised => None
    case Returns(header) =>
      if "alg" !in header then None
      else
        match services.decode(token, header["alg"])
        case Raised => None
        case Returns(payload) => Some(payload)
  }

  /** `get_tenant_id_from_token` on a decoded payload: `None` when there is
      no payload or it is empty (falsy), otherwise its `tid` entry, `None`
      when absent. */
  function TenantIdFromPayload(payload: Option<map<string, Json>>): (r: Option<Json>)
    ensures payload.None? || payload.value == map[] ==> r == None
    ensures payload.Some? && payload.value != map[] ==>
              (r.Some? <==> "tid" in payload.value && payload.value["tid"] != JNull)
    ensures r.Some? ==> payload.value["tid"] == r.value
  {
    if payload.Some? && |payload.value| > 0 then GetJson(payload.value, "tid") else None
  }

  /** `get_tenant_id_from_token`: a tenant id comes back only from a token
      that decodes to a non-empty payload holding a non-null `tid`, and it
      is that entry; a token that does not decode gives `None`. */
  function GetTenantIdFromToken(services: Services, token: Json): (r: Option<Json>)
    ensures DecodeToken(services, token).None? ==> r == None
    ensures r.Some? <==>
              && DecodeToken(services, token).Some?
              && DecodeToken(services, token).value != map[]
              && "tid" in DecodeToken(services, token).value
              && DecodeToken(services, token).value["tid"] != JNull
    ensures r.Some? ==> r.value == DecodeToken(services, token).value["tid"]
  {
    TenantIdFromPayload(DecodeToken(services, token))
  }

  /** `is_allowed_tenant`: `tenant_id in ALLOWED_TENANTS`, so only a string
      that is an element of the list passes. */
  function IsAllowedTenant(allowed: seq<string>, tenantId: Json): (b: bool)
    ensures b <==> exists i :: 0 <= i < |allowed| && tenantId == JStr(allowed[i])
  {
    if tenantId.JStr? then
      assert tenantId.s in allowed <==> exists i :: 0 <= i < |allowed| && allowed[i] == tenantId.s;
      tenantId.s in allowed
    else false
  }

  /** `get_user_info` given what the request did: the parsed body exactly
      when the status is 200; any other status, a body that does not parse,
      or a raised request gives `None`. */
  function GetUserInfo(reply: Raises<HttpReply>): (r: Option<Json>)
    ensures r.Some? <==>
              reply.Returns? && reply.value.status == 200 && reply.value.body.Some? && reply.value.body.value != JNull
    ensures r.Some? ==> reply.value.body == r
  {
    match reply
    case Raised => None
    case Returns(resp) =>
      if resp.status == 200 && resp.body.Some? then AsPython(resp.body.value) else None
  }

  /** A tenant the configured allow-list accepts is a string that the
      `if tid` test would also accept: non-empty, free of whitespace at both
      ends, and the strip of one comma-separated segment of the raw value. */
  lemma AllowedTenantIsConfigured(raw: string, tenantId: Json)
    requires IsAllowedTenant(MsalConfig.AllowedTenants(raw), tenantId)
    ensures tenantId.JStr? && tenantId.s != "" && MsalConfig.Trimmed(tenantId.s)
    ensures TruthyOptJson(Some(tenantId))
    ensures tenantId.s in MsalConfig.StripAll(MsalConfig.Split(raw, ','))
  {
    MsalConfig.AllowedTenantsMembership(raw, tenantId.s);
  }

  /** When `ALLOWED_TENANTS` is unset, or set to blanks and commas only, the
      service rejects every tenant. */
  lemma UnconfiguredRejectsAll(env: map<string, string>, tenantId: Json)
    requires "ALLOWED_TENANTS" in env ==>
               forall j :: 0 <= j < |MsalConfig.Split(env["ALLOWED_TENANTS"], ',')| ==>
                 MsalConfig.AllSpace(MsalConfig.Split(env["ALLOWED_TENANTS"], ',')[j])
    ensures !IsAllowedTenant(MsalConfig.LoadConfig(env).allowedTenants, tenantId)
  {
    var raw := MsalConfig.GetEnv(env, "ALLOWED_TENANTS", "");
    MsalConfig.KeepNonBlankEmpty(MsalConfig.Split(raw, ','));
    if "ALLOWED_TENANTS" !in env {
      assert MsalConfig.KeepNonBlank([""]) == [];
    }
  }
}
