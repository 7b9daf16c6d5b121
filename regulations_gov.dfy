/**
 * The Regulations.gov (v4) client: the fixed request headers, the request
 * each accessor builds (URL and query-parameter dictionary), and the
 * classification of the HTTP response into a body, a soft error value or a
 * raised error.
 *
 * The network call is replaced by an injected `transport` function from the
 * request to the response it would receive; a request exists only when an
 * accessor actually sends one.
 */
module RegulationsGov {
  import opened Values

  const DefaultBaseUrl: string := "https://api.regulations.gov/v4"

  /** The JSON:API media type (JSON:API 1.0, "Content Negotiation"). */
  const JsonApiMediaType: string := "application/vnd.api+json"

  // ---------------------------------------------------------------------------
  // Responses and their classification
  // ---------------------------------------------------------------------------

  /** What the transport hands back: a status code and the body, parsed as
      JSON, or `None` when the body is not valid JSON. */
  datatype Response = Response(status: int, body: Option<Json>)

  /** Why the response handler raises. */
  datatype Failure =
    | HttpError(status: int)   // `requests.exceptions.HTTPError` re-raised
    | InvalidJson              // `response.json()` failed and was re-raised

  /** The three outcomes of the response handler. */
  datatype Classified =
    | Ok(body: Json)                                // the parsed body, returned
    | SoftError(message: string, statusCode: int)   // an error dictionary, returned
    | Fatal(failure: Failure)                       // an exception, raised

  /** The statuses for which `raise_for_status` raises: client errors
      (400-499) and server errors (500-599). */
  predicate RaisesForStatus(status: int)
  {
    400 <= status < 600
  }

  /** The response handler: 404 and 500 become error values (section 15.5.5
      and section 15.6.1 of RFC 9110), every other error status is raised,
      and any other response yields its parsed body unchanged. */
  function HandleResponse(resp: Response): (r: Classified)
    ensures r.Ok? <==> !RaisesForStatus(resp.status) && resp.body.Some?
    ensures r.Ok? ==> r.body == resp.body.value
    ensures r.SoftError? <==> resp.status == 404 || resp.status == 500
    ensures resp.status == 404 ==> r == SoftError("Resource not found", 404)
    ensures resp.status == 500 ==> r == SoftError("Server error", 500)
    ensures r == Fatal(HttpError(resp.status)) <==>
              RaisesForStatus(resp.status) && resp.status != 404 && resp.status != 500
    ensures r == Fatal(InvalidJson) <==> !RaisesForStatus(resp.status) && resp.body.None?
  {
    if RaisesForStatus(resp.status) then
      if resp.status == 404 then SoftError("Resource not found", 404)
      else if resp.status == 500 then SoftError("Server error", 500)
      else Fatal(HttpError(resp.status))
    else if resp.body.Some? then Ok(resp.body.value)
    else Fatal(InvalidJson)
  }

  /** The Python value the handler returns, or `None` when it raises: the
      parsed body, or for a soft error the dictionary holding its message
      under `error` and its status under `status_code`. */
  function Returned(r: Classified): (v: Option<Json>)
    ensures v.None? <==> r.Fatal?
    ensures r.Ok? ==> v == Some(r.body)
    ensures r.SoftError? ==>
              v.Some? && v.value.JObject? && v.value.fields.Keys == {"error", "status_code"}
              && v.value.fields["error"] == JStr(r.message) && v.value.fields["status_code"] == JNum(r.statusCode)
  {
    match r
    case Ok(body) => Some(body)
    case SoftError(message, code) =>
      Some(JObject(map["error" := JStr(message), "status_code" := JNum(code)]))
    case Fatal(_) => None
  }

  /** Neither soft-error status raises; each returns the documented error
      dictionary carrying its status code. */
  lemma SoftErrorsAreReturned(resp: Response)
    requires resp.status == 404 || resp.status == 500
    ensures Returned(HandleResponse(resp)) ==
              Some(JObject(map[
                "error" := JStr(if resp.status == 404 then "Resource not found" else "Server error"),
                "status_code" := JNum(resp.status)]))
  {
  }

  /** A response that passes `raise_for_status` is returned exactly as parsed,
      and it raises precisely when it has no JSON body; every other error
      status raises. */
  lemma ReturnedIsBodyOrRaise(resp: Response)
    requires resp.status != 404 && resp.status != 500
    ensures Returned(HandleResponse(resp)) ==
              if !RaisesForStatus(resp.status) then resp.body else None
  {
  }

  // ---------------------------------------------------------------------------
  // Requests
  // ---------------------------------------------------------------------------

  /** One GET request: URL, headers and query parameters. */
  datatype Request = Request(url: string, headers: map<string, string>, params: map<string, Value>)

  /** The outcome of an accessor that validates its argument first: rejected
      with `ValueError` before anything is sent, or sent and classified. */
  datatype Attempt =
    | Rejected(message: string)
    | Sent(request: Request, result: Classified)

  /** The header set every request carries. */
  function HeadersFor(apiKey: string): map<string, string>
  {
    map["X-Api-Key" := apiKey, "Content-Type" := JsonApiMediaType]
  }

  /** `key` is present in `params` exactly when `expected` holds a value,
      and then maps to that value. */
  predicate Entry(params: map<string, Value>, key: string, expected: Option<Value>)
  {
    (key in params <==> expected.Some?) &&
    (key in params ==> params[key] == expected.value)
  }

  /** What an `Optional[str]` filter argument contributes: the argument
      unchanged when it is truthy, nothing otherwise. */
  function FilterValue(arg: Option<string>): Option<Value>
  {
    if TruthyStr(arg) then Some(Str(arg.value)) else None
  }

  /** A pagination argument, stored as given (`None` stays `None`). */
  function PageValue(arg: Option<int>): Value
  {
    match arg
    case Some(n) => Int(n)
    case None => Null
  }

  /** The message of the `ValueError` raised for an empty document id. */
  const EmptyDocumentIdMessage: string :=
    "The 'document_id' parameter is required and cannot be empty."

  /** The parameters `get_comments` and `get_dockets` send: the caller's
      dictionary when it is truthy, otherwise an empty one. */
  function ListParams(filters: Option<map<string, Value>>): (p: map<string, Value>)
    ensures p == if filters.Some? then filters.value else map[]
  {
    if filters.Some? && |filters.value| > 0 then filters.value else map[]
  }

  /** The keyword arguments of `get_documents`, with their defaults. */
  datatype DocumentArgs = DocumentArgs(
    agencyId: Option<string> := None,
    commentEndDate: Option<string> := None,
    docketId: Option<string> := None,
    documentType: Option<string> := None,
    frDocNum: Option<string> := None,
    searchTerm: Option<string> := None,
    postedDate: Option<string> := None,
    postedDateGe: Option<string> := None,
    postedDateLe: Option<string> := None,
    lastModifiedDate: Option<string> := None,
    lastModifiedDateGe: Option<string> := None,
    lastModifiedDateLe: Option<string> := None,
    subtype: Option<string> := None,
    withinCommentPeriod: Option<bool> := None,
    sort: Option<string> := None,
    pageNumber: Option<int> := Some(1),
    pageSize: Option<int> := Some(5))

  /** What `withinCommentPeriod` contributes: `str(True).lower()` for `True`,
      nothing for `False` or `None`. */
  function FlagValue(arg: Option<bool>): Option<Value>
  {
    if TruthyBool(arg) then Some(Str("true")) else None
  }

  /** Every key outside `keys` is the same in `before` and `after`. */
  ghost predicate SameOutside(before: map<string, Value>, after: map<string, Value>, keys: set<string>)
  {
    after.Keys <= before.Keys + keys &&
    forall k :: k in before && k !in keys ==> k in after && after[k] == before[k]
  }

  const IdentifierKeys: set<string> := {
    "filter[agencyId]", "filter[commentEndDate]", "filter[docketId]",
    "filter[documentType]", "filter[frDocNum]"
  }

  const DateKeys: set<string> := {
    "filter[searchTerm]", "filter[postedDate]", "filter[postedDate][ge]",
    "filter[postedDate][le]", "filter[lastModifiedDate]"
  }

  const RemainingKeys: set<string> := {
    "filter[lastModifiedDate][ge]", "filter[lastModifiedDate][le]",
    "filter[subtype]", "filter[withinCommentPeriod]", "sort"
  }

  const FilterKeys: set<string> := IdentifierKeys + DateKeys + RemainingKeys

  /** The keys `get_documents` may put in its query dictionary. */
  const DocumentQueryKeys: set<string> := FilterKeys + {"page[number]", "page[size]"}

  // The conditional insertions of `get_documents`, in source order, five at
  // a time (each group is one proof obligation of modest size).

  method AddIdentifierFilters(params: map<string, Value>, a: DocumentArgs) returns (p: map<string, Value>)
    requires params.Keys !! IdentifierKeys
    ensures Entry(p, "filter[agencyId]", FilterValue(a.agencyId))
    ensures Entry(p, "filter[commentEndDate]", FilterValue(a.commentEndDate))
    ensures Entry(p, "filter[docketId]", FilterValue(a.docketId))
    ensures Entry(p, "filter[documentType]", FilterValue(a.documentType))
    ensures Entry(p, "filter[frDocNum]", FilterValue(a.frDocNum))
    ensures SameOutside(params, p, IdentifierKeys)
  {
    p := params;
    if TruthyStr(a.agencyId) {
      p := p["filter[agencyId]" := Str(a.agencyId.value)];
    }
    if TruthyStr(a.commentEndDate) {
      p := p["filter[commentEndDate]" := Str(a.commentEndDate.value)];
    }
    if TruthyStr(a.docketId) {
      p := p["filter[docketId]" := Str(a.docketId.value)];
    }
    if TruthyStr(a.documentType) {
      p := p["filter[documentType]" := Str(a.documentType.value)];
    }
    if TruthyStr(a.frDocNum) {
      p := p["filter[frDocNum]" := Str(a.frDocNum.value)];
    }
  }

  method AddDateFilters(params: map<string, Value>, a: DocumentArgs) returns (p: map<string, Value>)
    requires params.Keys !! DateKeys
    ensures Entry(p, "filter[searchTerm]", FilterValue(a.searchTerm))
    ensures Entry(p, "filter[postedDate]", FilterValue(a.postedDate))
    ensures Entry(p, "filter[postedDate][ge]", FilterValue(a.postedDateGe))
    ensures Entry(p, "filter[postedDate][le]", FilterValue(a.postedDateLe))
    ensures Entry(p, "filter[lastModifiedDate]", FilterValue(a.lastModifiedDate))
    ensures SameOutside(params, p, DateKeys)
  {
    p := params;
    if TruthyStr(a.searchTerm) {
      p := p["filter[searchTerm]" := Str(a.searchTerm.value)];
    }
    if TruthyStr(a.postedDate) {
      p := p["filter[postedDate]" := Str(a.postedDate.value)];
    }
    if TruthyStr(a.postedDateGe) {
      p := p["filter[postedDate][ge]" := Str(a.postedDateGe.value)];
    }
    if TruthyStr(a.postedDateLe) {
      p := p["filter[postedDate][le]" := Str(a.postedDateLe.value)];
    }
    if TruthyStr(a.lastModifiedDate) {
      p := p["filter[lastModifiedDate]" := Str(a.lastModifiedDate.value)];
    }
  }

  method AddRemainingFilters(params: map<string, Value>, a: DocumentArgs) returns (p: map<string, Value>)
    requires params.Keys !! RemainingKeys
    ensures Entry(p, "filter[lastModifiedDate][ge]", FilterValue(a.lastModifiedDateGe))
    ensures Entry(p, "filter[lastModifiedDate][le]", FilterValue(a.lastModifiedDateLe))
    ensures Entry(p, "filter[subtype]", FilterValue(a.subtype))
    ensures Entry(p, "filter[withinCommentPeriod]", FlagValue(a.withinCommentPeriod))
    ensures Entry(p, "sort", FilterValue(a.sort))
    ensures SameOutside(params, p, RemainingKeys)
  {
    p := params;
    if TruthyStr(a.lastModifiedDateGe) {
      p := p["filter[lastModifiedDate][ge]" := Str(a.lastModifiedDateGe.value)];
    }
    if TruthyStr(a.lastModifiedDateLe) {
      p := p["filter[lastModifiedDate][le]" := Str(a.lastModifiedDateLe.value)];
    }
    if TruthyStr(a.subtype) {
      p := p["filter[subtype]" := Str(a.subtype.value)];
    }
    if TruthyBool(a.withinCommentPeriod) {
      // str(True).lower()
      p := p["filter[withinCommentPeriod]" := Str("true")];
    }
    if TruthyStr(a.sort) {
      p := p["sort" := Str(a.sort.value)];
    }
  }

  /** No key belongs to two of the groups, and the pagination keys belong
      to none. */
  lemma KeyGroupsDisjoint()
    ensures IdentifierKeys !! DateKeys && IdentifierKeys !! RemainingKeys && DateKeys !! RemainingKeys
    ensures "page[number]" !in FilterKeys && "page[size]" !in FilterKeys
  {
  }

  /** The filter insertions of `get_documents`, in source order. */
  method AddFilters(params: map<string, Value>, a: DocumentArgs) returns (p: map<string, Value>)
    requires params.Keys !! FilterKeys
    ensures Entry(p, "filter[agencyId]", FilterValue(a.agencyId))
    ensures Entry(p, "filter[commentEndDate]", FilterValue(a.commentEndDate))
    ensures Entry(p, "filter[docketId]", FilterValue(a.docketId))
    ensures Entry(p, "filter[documentType]", FilterValue(a.documentType))
    ensures Entry(p, "filter[frDocNum]", FilterValue(a.frDocNum))
    ensures Entry(p, "filter[searchTerm]", FilterValue(a.searchTerm))
    ensures Entry(p, "filter[postedDate]", FilterValue(a.postedDate))
    ensures Entry(p, "filter[postedDate][ge]", FilterValue(a.postedDateGe))
    ensures Entry(p, "filter[postedDate][le]", FilterValue(a.postedDateLe))
    ensures Entry(p, "filter[lastModifiedDate]", FilterValue(a.lastModifiedDate))
    ensures Entry(p, "filter[lastModifiedDate][ge]", FilterValue(a.lastModifiedDateGe))
    ensures Entry(p, "filter[lastModifiedDate][le]", FilterValue(a.lastModifiedDateLe))
    ensures Entry(p, "filter[subtype]", FilterValue(a.subtype))
    ensures Entry(p, "filter[withinCommentPeriod]", FlagValue(a.withinCommentPeriod))
    ensures Entry(p, "sort", FilterValue(a.sort))
    ensures SameOutside(params, p, FilterKeys)
  {
    KeyGroupsDisjoint();
    p := AddIdentifierFilters(params, a);
    p := AddDateFilters(p, a);
    p := AddRemainingFilters(p, a);
  }

  /** The query dictionary `get_documents` builds for `a`: only the known
      keys, each filter present exactly for a truthy argument and holding it
      unchanged, `sort` unchecked, and both pagination keys present with the
      caller's values. */
  predicate IsDocumentQuery(p: map<string, Value>, a: DocumentArgs)
  {
    && p.Keys <= DocumentQueryKeys
    && Entry(p, "filter[agencyId]", FilterValue(a.agencyId))
    && Entry(p, "filter[commentEndDate]", FilterValue(a.commentEndDate))
    && Entry(p, "filter[docketId]", FilterValue(a.docketId))
    && Entry(p, "filter[documentType]", FilterValue(a.documentType))
    && Entry(p, "filter[frDocNum]", FilterValue(a.frDocNum))
    && Entry(p, "filter[searchTerm]", FilterValue(a.searchTerm))
    && Entry(p, "filter[postedDate]", FilterValue(a.postedDate))
    && Entry(p, "filter[postedDate][ge]", FilterValue(a.postedDateGe))
    && Entry(p, "filter[postedDate][le]", FilterValue(a.postedDateLe))
    && Entry(p, "filter[lastModifiedDate]", FilterValue(a.lastModifiedDate))
    && Entry(p, "filter[lastModifiedDate][ge]", FilterValue(a.lastModifiedDateGe))
    && Entry(p, "filter[lastModifiedDate][le]", FilterValue(a.lastModifiedDateLe))
    && Entry(p, "filter[subtype]", FilterValue(a.subtype))
    && Entry(p, "filter[withinCommentPeriod]", FlagValue(a.withinCommentPeriod))
    && Entry(p, "sort", FilterValue(a.sort))
    && Entry(p, "page[number]", Some(PageValue(a.pageNumber)))
    && Entry(p, "page[size]", Some(PageValue(a.pageSize)))
  }

  /** With every argument left at its default, the query holds the
      pagination keys alone, page 1 of 5. */
  lemma DefaultDocumentQuery(p: map<string, Value>)
    requires IsDocumentQuery(p, DocumentArgs())
    ensures p == map["page[number]" := Int(1), "page[size]" := Int(5)]
  {
    assert p.Keys !! IdentifierKeys;
    assert p.Keys !! DateKeys;
    assert p.Keys !! RemainingKeys;
    assert p.Keys <= {"page[number]", "page[size]"};
  }

  class RegulationsGovAPI {
    var apiKey: string
    var baseUrl: string
    var headers: map<string, string>

    /** Stores the key and the base URL and fixes the two headers. */
    constructor (apiKey: string, baseUrl: string := DefaultBaseUrl)
      ensures this.apiKey == apiKey && this.baseUrl == baseUrl
      ensures headers == map["X-Api-Key" := apiKey, "Content-Type" := "application/vnd.api+json"]
    {
      this.apiKey := apiKey;
      this.baseUrl := baseUrl;
      this.headers := HeadersFor(apiKey);
    }

    /** Lists documents. Every filter key is inserted only for a truthy
        argument, `sort` is passed through unchecked, and both pagination
        keys are always present with the caller's values. */
    method GetDocuments(transport: Request -> Response, args: DocumentArgs)
      returns (req: Request, result: Classified)
      ensures req.url == baseUrl + "/documents" && req.headers == headers
      ensures IsDocumentQuery(req.params, args)
      ensures result == HandleResponse(transport(req))
    {
      KeyGroupsDisjoint();
      var params: map<string, Value> := map[];
      params := AddFilters(params, args);
      params := params["page[number]" := PageValue(args.pageNumber)];
      params := params["page[size]" := PageValue(args.pageSize)];
      req := Request(baseUrl + "/documents", headers, params);
      result := HandleResponse(transport(req));
    }

    /** Fetches one document. An empty id is rejected before any request;
        otherwise attachments are included only on request (JSON:API 1.0,
        "Inclusion of Related Resources"). */
    method GetDocumentDetails(
      transport: Request -> Response,
      documentId: string,
      includeAttachments: Option<bool> := Some(false))
      returns (a: Attempt)
      ensures a.Rejected? <==> documentId == ""
      ensures a.Rejected? ==> a.message == EmptyDocumentIdMessage
      ensures a.Sent? ==> a.request.url == baseUrl + "/documents/" + documentId
      ensures a.Sent? ==> a.request.headers == headers
      ensures a.Sent? ==>
                a.request.params == if includeAttachments == Some(true) then map["include" := Str("attachments")] else map[]
      ensures a.Sent? ==> a.result == HandleResponse(transport(a.request))
    {
      if documentId == "" {
        return Rejected(EmptyDocumentIdMessage);
      }
      var url := baseUrl + "/documents/" + documentId;
      var params: map<string, Value> := map[];
      if TruthyBool(includeAttachments) {
        params := params["include" := Str("attachments")];
      }
      var req := Request(url, headers, params);
      a := Sent(req, HandleResponse(transport(req)));
    }

    /** Lists comments, sending the caller's filters unchanged. */
    method GetComments(transport: Request -> Response, filters: Option<map<string, Value>> := None)
      returns (req: Request, result: Classified)
      ensures req.url == baseUrl + "/comments" && req.headers == headers
      ensures req.params == if filters.Some? then filters.value else map[]
      ensures result == HandleResponse(transport(req))
    {
      req := Request(baseUrl + "/comments", headers, ListParams(filters));
      result := HandleResponse(transport(req));
    }

    /** Fetches one comment; the id is not validated and no parameters are sent. */
    method GetCommentDetails(transport: Request -> Response, commentId: string)
      returns (req: Request, result: Classified)
      ensures req.url == baseUrl + "/comments/" + commentId
      ensures req.headers == headers && req.params == map[]
      ensures result == HandleResponse(transport(req))
    {
      req := Request(baseUrl + "/comments/" + commentId, headers, map[]);
      result := HandleResponse(transport(req));
    }

    /** Lists dockets, sending the caller's filters unchanged. */
    method GetDockets(transport: Request -> Response, filters: Option<map<string, Value>> := None)
      returns (req: Request, result: Classified)
      ensures req.url == baseUrl + "/dockets" && req.headers == headers
      ensures req.params == if filters.Some? then filters.value else map[]
      ensures result == HandleResponse(transport(req))
    {
      req := Request(baseUrl + "/dockets", headers, ListParams(filters));
      result := HandleResponse(transport(req));
    }

    /** Fetches one docket; the id is not validated and no parameters are sent. */
    method GetDocketDetails(transport: Request -> Response, docketId: string)
      returns (req: Request, result: Classified)
      ensures req.url == baseUrl + "/dockets/" + docketId
      ensures req.headers == headers && req.params == map[]
      ensures result == HandleResponse(transport(req))
    {
      req := Request(baseUrl + "/dockets/" + docketId, headers, map[]);
      result := HandleResponse(transport(req));
    }
  }
}
