# Regulations.gov agent workshop: verified model of the client and the login gate

This project models the deterministic core of a small agent workshop application in Dafny and proves properties of that model. The core has four parts:

- **The Regulations.gov v4 client** (`RegulationsGov`, in `regulations_gov.dfy`).
  - The `RegulationsGovAPI` object stores the API key, the base URL and the two fixed headers.
  - Each accessor builds a request: a URL, the headers and a query-parameter dictionary.
  - `_handle_response` classifies the HTTP response in one of three ways. It returns the parsed body, returns a soft-error dictionary for 404 and 500 (section 15.5.5 and section 15.6.1 of RFC 9110), or raises.
  - `get_documents` fills its dictionary one conditional insertion at a time. The model does the same, in source order, on a local map.
  - The network is an injected `transport` function from the request to the response it would receive.
- **The sign-in configuration** (`MsalConfig`, in `msal_config.dfy`).
  - Settings are read from an environment map with defaults, as `os.getenv` does.
  - `SCOPES` is `str.split(",")` of the raw value.
  - `ALLOWED_TENANTS` keeps the comma-separated pieces, each run through `str.strip()`, and drops the blank ones. Both Python string operations are modelled on code points.
- **The sign-in service helpers** (`AuthService`, in `auth_service.dfy`). These reduce what MSAL, unverified JWT decoding and the Graph `/me` call return to optional values, and test a tenant id against the allow-list. Each library call is an injected outcome: it raised, or it returned a value.
- **The login gate of the web chatbot** (`StreamlitChatbot`, in `streamlit_chatbot.dfy`).
  - `is_user_authenticated` is a method of a class whose two fields are the session-state map and the query-parameter map. It updates them in place.
  - `main` decides whether the chat is shown at all.

`values.dfy` holds the shared vocabulary: `Option`, JSON values, query-parameter values, the outcome of a library call, and Python truthiness for the types the code tests with `if x:`.

`app/rga_wrapper.py` does no clamping of `page[number]` or `page[size]` and has no sort-field whitelist: the model passes all three through verbatim (see `DefaultDocumentQuery`).

## Model

| member | source | states |
|---|---|---|
| RegulationsGov.RegulationsGovAPI.constructor | app/rga_wrapper.py:27-40 | Stores the key and the base URL, whose default is `https://api.regulations.gov/v4`. The headers are exactly `X-Api-Key` with the key and `Content-Type` with `application/vnd.api+json`. |
| RegulationsGov.HandleResponse | app/rga_wrapper.py:44-75 | The body is returned unchanged exactly when `raise_for_status` passes (status outside 400-599) and the body parses. 404 gives the soft error "Resource not found" with 404, and 500 gives "Server error" with 500. The soft error occurs exactly for those two statuses. Every other 4xx/5xx status raises the HTTP error, and a passing status with an unparsable body raises. |
| RegulationsGov.SoftErrorsAreReturned | app/rga_wrapper.py:63-69 | For 404 or 500 the handler returns, without raising, the dictionary `{"error": …, "status_code": status}` with that status's message. |
| RegulationsGov.Returned | app/rga_wrapper.py:59-75 | The handler's Python value is `None` (it raised) exactly for a fatal outcome. Otherwise it is the parsed body, or for a soft error the dictionary with exactly the keys `error` (the message) and `status_code` (the status). |
| RegulationsGov.ReturnedIsBodyOrRaise | app/rga_wrapper.py:59-72 | For any other status, the handler returns the parsed body when the status passes, and raises (returns nothing) otherwise. |
| RegulationsGov.AddIdentifierFilters | app/rga_wrapper.py:113-122 | Each of `filter[agencyId]`, `filter[commentEndDate]`, `filter[docketId]`, `filter[documentType]` and `filter[frDocNum]` is present exactly when its argument is truthy, and then holds it unchanged. No other key changes. |
| RegulationsGov.AddDateFilters | app/rga_wrapper.py:123-132 | The same, for `filter[searchTerm]`, `filter[postedDate]`, `filter[postedDate][ge]`, `filter[postedDate][le]` and `filter[lastModifiedDate]`. |
| RegulationsGov.AddRemainingFilters | app/rga_wrapper.py:133-142 | The same, for the two `filter[lastModifiedDate]` bounds and `filter[subtype]`. `filter[withinCommentPeriod]` is `"true"` exactly for `True`, and absent for `False` or `None`. `sort` is present verbatim exactly when truthy. |
| RegulationsGov.AddFilters | app/rga_wrapper.py:112-142 | All fifteen conditional insertions together, and no other key changes. |
| RegulationsGov.RegulationsGovAPI.GetDocuments | app/rga_wrapper.py:109-155 | The URL is `base_url + "/documents"` and the object's headers are sent. The query contains only the known keys: every filter follows the rules above, and `page[number]` and `page[size]` are always present with the caller's values, unclamped. The result is the handler's classification of the response. |
| RegulationsGov.DefaultDocumentQuery | app/rga_wrapper.py:78-146 | With every argument at its default, the query is exactly `{"page[number]": 1, "page[size]": 5}`. |
| RegulationsGov.RegulationsGovAPI.GetDocumentDetails | app/rga_wrapper.py:184-203 | An empty id is rejected with the `ValueError` message before any request, and only an empty id is rejected. Otherwise the URL is `base_url + "/documents/" + id`, and the params are `{"include": "attachments"}` exactly when attachments were requested, empty otherwise. The result is the classified response. |
| RegulationsGov.ListParams | app/rga_wrapper.py:220 | `filters if filters else {}` sends the caller's dictionary unchanged whenever one is given: the truthiness test only turns an empty one into another empty one. |
| RegulationsGov.RegulationsGovAPI.GetComments | app/rga_wrapper.py:219-223 | The URL is `base_url + "/comments"`, the filters are sent unchanged (empty when none are given), and the result is the classified response. |
| RegulationsGov.RegulationsGovAPI.GetCommentDetails | app/rga_wrapper.py:236-239 | The URL is `base_url + "/comments/" + id`, with no id validation and no parameters. |
| RegulationsGov.RegulationsGovAPI.GetDockets | app/rga_wrapper.py:252-256 | The URL is `base_url + "/dockets"`, the filters are sent unchanged (empty when none are given), and the result is the classified response. |
| RegulationsGov.RegulationsGovAPI.GetDocketDetails | app/rga_wrapper.py:269-272 | The URL is `base_url + "/dockets/" + id`, with no id validation and no parameters. |
| MsalConfig.LeadingSpace | app/msal_config.py:28 | The leading run `strip()` removes is whitespace, and the next character is not. |
| MsalConfig.TrailingStart | app/msal_config.py:28 | The trailing run `strip()` removes is whitespace, and the character before it is not. |
| MsalConfig.Strip | app/msal_config.py:28 | `t.strip()` neither starts nor ends with whitespace. |
| MsalConfig.StripIsMiddle | app/msal_config.py:28 | The strip is the contiguous middle of the piece: whitespace before it and whitespace after it. |
| MsalConfig.StripBlank | app/msal_config.py:28 | The strip is empty (falsy) exactly when the piece is all whitespace. |
| MsalConfig.StripTrimmed | app/msal_config.py:28 | Stripping a string with no whitespace at either end leaves it unchanged. |
| MsalConfig.StripIdempotent | app/msal_config.py:28 | Stripping twice is stripping once. |
| MsalConfig.Split | app/msal_config.py:22 | `split(",")` gives one more piece than there are commas, and no piece contains a comma. |
| MsalConfig.JoinSplit | app/msal_config.py:22 | Joining the pieces with the separator restores the raw value. |
| MsalConfig.SplitJoin | app/msal_config.py:28 | Splitting a join of comma-free pieces gives the pieces back. |
| MsalConfig.Scopes | app/msal_config.py:22 | `SCOPES` has one element more than the raw value has commas, and is untrimmed: joined with commas, it is the raw value. |
| MsalConfig.DropEmpty | app/msal_config.py:28 | The `if t.strip()` filter keeps only non-empty strings, each one taken from its input. |
| MsalConfig.KeepNonBlank | app/msal_config.py:28 | Every element of the comprehension's result is non-empty and has no leading or trailing whitespace. |
| MsalConfig.AllowedTenants | app/msal_config.py:28 | `ALLOWED_TENANTS` has at most one tenant per comma-separated segment, and every tenant is non-empty and has no leading or trailing whitespace. |
| MsalConfig.DropEmptyInOrder | app/msal_config.py:28 | The filter result is the non-empty inputs in input order: the returned positions increase, each names the input the element is, and every non-empty input is among them. |
| MsalConfig.KeepNonBlankInOrder | app/msal_config.py:28 | The allow-list is the pieces, stripped, in input order with the blank ones removed: positions increase, each element is the strip of its piece, and every non-blank piece is included. |
| MsalConfig.DropEmptyMembership | app/msal_config.py:28 | A string survives the filter exactly when it is non-empty and among the inputs. |
| MsalConfig.KeepNonBlankMembership | app/msal_config.py:28 | A string is on the allow-list exactly when it is non-empty and the strip of some piece. |
| MsalConfig.AllowedTenantsMembership | app/msal_config.py:28 | A tenant is in `ALLOWED_TENANTS` exactly when it is non-empty and the strip of one comma-separated segment of the raw value. |
| MsalConfig.DropEmptyNone | app/msal_config.py:28 | The filter result is empty exactly when every input is empty. |
| MsalConfig.KeepNonBlankEmpty | app/msal_config.py:28 | The allow-list is empty exactly when every segment is whitespace only. |
| MsalConfig.KeepNonBlankClean | app/msal_config.py:28 | Clean (non-empty, trimmed) pieces pass through the comprehension unchanged. |
| MsalConfig.TenantListRoundTrip | app/msal_config.py:28 | Writing clean, comma-free tenant ids comma-separated and parsing them back gives the same list. |
| MsalConfig.LoadConfig | app/msal_config.py:21-28 | Each setting is the variable's value when it is set (even to `""`), otherwise its default. The authority defaults to `https://login.microsoftonline.com/organizations`, the redirect URI to `http://localhost:8501`, the client id and secret to `""`, and the scopes to `["User.Read"]`. A set scope variable is split with one scope per comma-separated piece, joining back to the value. An unset allow-list is empty, and every allowed tenant is non-empty and trimmed. |
| MsalConfig.DefaultConfig | app/msal_config.py:21-28 | With none of the six variables set: the authority is `https://login.microsoftonline.com/organizations`, the scopes are `["User.Read"]`, the redirect URI is `http://localhost:8501`, the client id and secret are `""`, and the allow-list is empty. |
| MsalConfig.EmptyVariables | app/msal_config.py:22-28 | A set but empty `ALLOWED_TENANTS` gives an empty allow-list, while a set but empty `MSAL_SCOPES` gives the one scope `""`: a set variable wins over the default. |
| AuthService.ExchangeCodeForToken | app/auth_service.py:49-61 | A token comes back exactly when MSAL returned a result with a non-null `access_token`, and it is that entry. A missing entry or a raised exception gives `None`. |
| AuthService.DecodeToken | app/auth_service.py:67-74 | It never raises. It yields `None` exactly when reading the header raises, the header has no `alg`, or decoding with that `alg` raises. Otherwise it yields the payload decoded with the header's algorithm. |
| AuthService.TenantIdFromPayload | app/auth_service.py:80-83 | No payload, or an empty (falsy) one, gives `None`. Otherwise the `tid` entry is returned when present and not null, and `None` otherwise. |
| AuthService.GetTenantIdFromToken | app/auth_service.py:76-83 | A tenant id comes back exactly when the token decodes to a non-empty payload holding a non-null `tid`, and it is that entry. A token that does not decode gives `None`. |
| AuthService.IsAllowedTenant | app/auth_service.py:85-89 | True exactly when the tenant id is a string equal to an element of the allow-list. An empty list therefore rejects every tenant. |
| AuthService.GetUserInfo | app/auth_service.py:96-105 | The parsed profile is returned exactly when the status is 200 and the body parses to a non-null value. Every other status, an unparsable body or a raised request gives `None`. |
| AuthService.AllowedTenantIsConfigured | app/auth_service.py:85-89 | A tenant the configured allow-list accepts is a non-empty, trimmed string (so the `if tid` test also passes), and is the strip of one segment of `ALLOWED_TENANTS`. |
| AuthService.UnconfiguredRejectsAll | app/auth_service.py:85-89 | With `ALLOWED_TENANTS` unset, or holding only blanks and commas, every tenant is rejected. |
| StreamlitChatbot.Credentials | app/streamlit_chatbot.py:54-65 | A login holds the token `exchange_code_for_token` returned and the profile `get_user_info` returned for it. Both are truthy, and the token's tenant id is present and allowed. A falsy token gives no login. |
| StreamlitChatbot.CredentialsSucceed | app/streamlit_chatbot.py:56-65 | A login is produced only when every step succeeded. MSAL returned the token. The token decoded to a payload whose `tid` is an allowed tenant. Graph answered 200 with the profile. Neither the token nor the profile is falsy. |
| StreamlitChatbot.EmptyAllowListNoLogin | app/streamlit_chatbot.py:56-72 | With an empty allow-list no authorization code leads to a login. |
| StreamlitChatbot.ForeignTenantNoLogin | app/streamlit_chatbot.py:58-69 | A token whose tenant id is absent or not allowed never leads to a login, whatever Graph returns. |
| StreamlitChatbot.DisplayName | app/streamlit_chatbot.py:29-30 | `user_info.get('displayName', 'User')`: the profile's display name, `"User"` when it has none, and an exception exactly when the profile is not a JSON object. |
| StreamlitChatbot.Welcome | app/streamlit_chatbot.py:29-31 | After a successful gate the chat is shown, greeting the profile's `displayName` (default `"User"`), exactly when the profile is a JSON object. Any other profile ends the page with an exception. |
| StreamlitChatbot.App.IsUserAuthenticated | app/streamlit_chatbot.py:38-78 | Building the service (`AuthService()`) may raise, before anything else and with nothing changed. Both session keys present: true, with session and query unchanged; one key alone does not short-circuit. A `code` parameter: only its first value is exchanged, and the query is cleared whatever the outcome. Both keys are then written, and true returned, exactly when the sign-in chain succeeds; on any failure the result is false and the session is unchanged. An empty `code` list raises `IndexError`. Neither credentials nor code: the sign-in link is built (which may raise) and the result is false, with nothing changed. A true result always leaves both keys in the session. |
| StreamlitChatbot.App.Render | app/streamlit_chatbot.py:21-35 | The session and query end as the gate leaves them. The chat is shown only after a successful gate, with both keys in the session and the stored profile's `displayName` (default `"User"`). It is never shown when the gate fails or raises. A signed-in session, or a fresh code login, whose profile is a JSON object always shows it; a profile that is not an object ends the page with an exception. |

## Left out

- Network, logging and UI output. The HTTP requests are injected functions (`transport`, `graphMe`). All `logger` calls and `_log_request`, and the messages written by `st.error`, `st.info`, `st.markdown`, `st.write` and `st.title`, are not modelled.
- The MSAL, JWT and Graph libraries. Each call is an injected outcome (raised, or returned a value), including building the MSAL client in `AuthService()` and `build_auth_url`. What those libraries do inside is not modelled, and neither are the sign-in link's text or the URL and bearer header of the Graph request.
- JSON parsing. `response.json()` is a parsed body or a parse failure. What the body contains is opaque.
- Sending parameters. The requests library omits dictionary entries whose value is `None` when it encodes the query string. The model keeps the dictionary the code builds, so a `None` page value is stored as `Null`.
- Argument types. Ids are modelled as strings. The `None` id that `if not document_id` also rejects, and `None` ids formatted into a detail URL, are not modelled.
- Loading `.env` files. `load_dotenv` is not modelled: the environment is a map given as a parameter.
- `display_simple_chat`: UI widgets with a placeholder answer, not modelled.
- The rest of the repository: `app/tools.py`, `app/rga_tools.py`, `app/agents.py`, `app/rga_types.py`, `app/chatbot.py`, `app/rga_console_chatbot.py`, `app/rga_client_instance.py` and `gradio_example.py`. These are framework wiring, file, clock and network I/O, schemas checked by a library, and interactive loops.
- Concurrency between browser sessions is not modelled: each page load is one call on one `App` object.
