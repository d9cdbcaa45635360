/** The Box API client (pkg/box/client.go): the offset/limit pagination loop
    shared by the three list getters, the two single-object getters, and the
    request step with its update of the package-level error record.

    The HTTP transport paired with JSON decoding is an abstract `Server`: for a
    request it yields a `Reply` (a transport error, or a status together with the
    outcome of decoding the error body and of decoding the payload). */
module BoxClient {
  import opened Wrappers
  import opened BoxModels
  import Decimal

  const BaseUrl := "https://api.box.com"
  const DefaultOffset := 0
  const DefaultLimit := 200
  const ErrorType := "error"
  const StatusOK := 200

  const UsersUrl := BaseUrl + "/2.0/users"
  const GroupsUrl := BaseUrl + "/2.0/groups"
  const CurrentUserUrl := BaseUrl + "/2.0/users/me"

  function MembershipsUrl(groupId: string): string {
    BaseUrl + "/2.0/groups/" + groupId + "/memberships"
  }

  function GroupUrl(groupId: string): string {
    BaseUrl + "/2.0/groups/" + groupId
  }

  const UserFields := "role,name,login,status"
  const GroupFields := "invitability_level,member_viewability_level,name"
  const CurrentUserFields := "enterprise,role,name"

  // ---------------------------------------------------------------- queries

  /** url.Values: every key holds a list of values. */
  type Query = map<string, seq<string>>

  /** url.Values.Add appends a value to the key's list. */
  function QueryAdd(q: Query, key: string, value: string): Query {
    q[key := (if key in q then q[key] else []) + [value]]
  }

  /** url.Values.Set replaces the key's list by the single value. */
  function QuerySet(q: Query, key: string, value: string): Query {
    q[key := [value]]
  }

  function PaginationQuery(offset: int, limit: int): Query {
    QueryAdd(QueryAdd(map[], "offset", Decimal.Itoa(offset)), "limit", Decimal.Itoa(limit))
  }

  /** paginationQuery yields exactly the keys offset and limit, each holding one
      decimal string that reads back as the given number. */
  lemma PaginationQueryReadsBack(offset: int, limit: int)
    ensures var q := PaginationQuery(offset, limit);
      && q.Keys == {"offset", "limit"}
      && |q["offset"]| == 1 && Decimal.Atoi(q["offset"][0]) == Some(offset)
      && |q["limit"]| == 1 && Decimal.Atoi(q["limit"][0]) == Some(limit)
  {
    Decimal.ItoaRoundTrip(offset);
    Decimal.ItoaRoundTrip(limit);
  }

  /** Offset and limit of a page request. */
  datatype Paging = Paging(offset: int, limit: int)

  /** A GET request: the endpoint, and the values the client puts into its query. */
  datatype Request = Request(url: string, paging: Option<Paging>, fields: Option<string>)

  /** The query string parameters of a request, as the client builds them: the
      pagination pair first, then `fields` set on top. */
  function RequestQuery(r: Request): Query {
    var q := if r.paging.Some? then PaginationQuery(r.paging.value.offset, r.paging.value.limit) else map[];
    if r.fields.Some? then QuerySet(q, "fields", r.fields.value) else q
  }

  /** The request a list getter sends for one page. */
  function PageRequest(url: string, fields: Option<string>, offset: int): Request {
    Request(url, Some(Paging(offset, DefaultLimit)), fields)
  }

  function ParamsRequest(url: string, fields: string): Request {
    Request(url, None, Some(fields))
  }

  /** A page request's query holds offset, limit 200, and the getter's field list
      when it has one, and nothing else. */
  lemma PageRequestQuery(url: string, fields: Option<string>, offset: int)
    ensures var q := RequestQuery(PageRequest(url, fields, offset));
      && q.Keys == {"offset", "limit"} + (if fields.Some? then {"fields"} else {})
      && Decimal.Atoi(q["offset"][0]) == Some(offset) && |q["offset"]| == 1
      && Decimal.Atoi(q["limit"][0]) == Some(DefaultLimit) && |q["limit"]| == 1
      && (fields.Some? ==> q["fields"] == [fields.value])
  {
    PaginationQueryReadsBack(offset, DefaultLimit);
  }

  // ---------------------------------------------------------------- replies

  /** The package-level ErrorResponse, flattened (context_info.message is contextMessage). */
  datatype ErrorRecord = ErrorRecord(
    typ: string,
    code: string,
    contextMessage: string,
    helpUrl: string,
    message: string,
    requestId: string,
    status: int)

  /** The zero value the record holds before any failure. */
  const EmptyErrorRecord := ErrorRecord("", "", "", "", "", "", 0)

  /** The fields one JSON error body carries; decoding into the existing record
      leaves every absent (None) field at its previous value. */
  datatype ErrorPatch = ErrorPatch(
    typ: Option<string>,
    code: Option<string>,
    contextMessage: Option<string>,
    helpUrl: Option<string>,
    message: Option<string>,
    requestId: Option<string>,
    status: Option<int>)

  /** A patch that writes no field. */
  const NoFields := ErrorPatch(None, None, None, None, None, None, None)

  function MergeError(rec: ErrorRecord, p: ErrorPatch): ErrorRecord {
    ErrorRecord(
      p.typ.GetOr(rec.typ),
      p.code.GetOr(rec.code),
      p.contextMessage.GetOr(rec.contextMessage),
      p.helpUrl.GetOr(rec.helpUrl),
      p.message.GetOr(rec.message),
      p.requestId.GetOr(rec.requestId),
      p.status.GetOr(rec.status))
  }

  /** What decoding an error body into the record does: the fields it wrote, and
      the error it returned if any. A decoder that meets a value of the wrong type
      goes on with the other fields, so fields can be written even when an error
      is returned; after a syntax error nothing is written. */
  datatype ErrorDecode = ErrorDecode(patch: ErrorPatch, err: Option<string>)

  /** What the transport and decoder make of one request. On a non-200 status the
      error body is decoded first; the payload is then decoded from what is left
      of the body, and `body` is the outcome of that second decoding. */
  datatype Reply<T> =
    | TransportError(err: string)
    | Response(status: int, errorBody: ErrorDecode, body: Result<T, string>)

  /** The value doRequest returns for a reply. */
  function DoResult<T>(reply: Reply<T>): (r: Result<T, string>)
    ensures r.Success? <==> reply.Response? && reply.body.Success? && (reply.status == StatusOK || reply.errorBody.err.None?)
    ensures r.Success? ==> r.value == reply.body.value
  {
    match reply
    case TransportError(e) => Failure(e)
    case Response(status, errorBody, body) =>
      if status != StatusOK && errorBody.err.Some? then Failure(errorBody.err.value) else body
  }

  /** The error record after doRequest handled a reply. */
  function ErrorAfter<T>(rec: ErrorRecord, reply: Reply<T>): (r: ErrorRecord)
    ensures r != rec ==> reply.Response? && reply.status != StatusOK
    ensures reply.Response? && reply.status != StatusOK ==> r == MergeError(rec, reply.errorBody.patch)
  {
    match reply
    case TransportError(_) => rec
    case Response(status, errorBody, _) =>
      if status != StatusOK then MergeError(rec, errorBody.patch) else rec
  }

  /** The message a getter returns for a failed request: the upstream message when
      the (shared) error record says "error", the raw error otherwise. */
  function GetterError(what: string, rec: ErrorRecord, err: string): string {
    if rec.typ == ErrorType then "failed to get " + what + ": " + rec.message else err
  }

  // ---------------------------------------------------------------- the server

  /** One page of a list endpoint. */
  datatype Page<T> = Page(limit: int, offset: int, totalCount: int, entries: seq<T>)

  /** A decodable page reports a total count no larger than `bound`, and a positive
      limit whenever the running total (`offset + limit`) stays below its total. */
  predicate PageBounded<T>(reply: Reply<Page<T>>, offset: nat, bound: nat) {
    reply.Response? && reply.body.Success? ==>
      var p := reply.body.value;
      p.totalCount <= bound && (offset + p.limit < p.totalCount ==> p.limit > 0)
  }

  ghost predicate PagesBounded<T>(pages: int -> Reply<Page<T>>, bound: nat) {
    forall o: nat :: PageBounded(pages(o), o, bound)
  }

  /** The Box API as seen through the transport: list endpoints answer per
      requested offset, memberships per group id and offset. */
  datatype Server = Server(
    users: int -> Reply<Page<User>>,
    groups: int -> Reply<Page<Group>>,
    memberships: string -> int -> Reply<Page<GroupMembership>>,
    currentUser: Reply<User>,
    group: string -> Reply<Group>,
    bound: nat)
  {
    /** The servers under which every pagination loop terminates. */
    ghost predicate WellBehaved() {
      && PagesBounded(users, bound)
      && PagesBounded(groups, bound)
      && forall g :: PagesBounded(memberships(g), bound)
    }
  }

  // ---------------------------------------------------------------- specifications

  /** The observable outcome of a client call: its result, the error record after
      it, and the requests it sent, in order. */
  datatype Call<T> = Call(result: Result<T, string>, rec: ErrorRecord, sent: seq<Request>)

  /** A pagination run: its outcome and the pages it consumed successfully. */
  datatype Run<T> = Run(result: Result<seq<T>, string>, rec: ErrorRecord, sent: seq<Request>, pages: seq<Page<T>>) {
    function AsCall(): Call<seq<T>> {
      Call(result, rec, sent)
    }
  }

  /** The pagination loop from the given offset, as a recursive definition: one
      request, then stop on failure or once the running total covers the page's
      total count, and otherwise continue at offset + limit. */
  function FetchRun<T>(pages: int -> Reply<Page<T>>, url: string, fields: Option<string>, what: string,
                       rec: ErrorRecord, offset: nat, bound: nat): Run<T>
    requires PagesBounded(pages, bound)
    decreases bound - offset
  {
    var req := PageRequest(url, fields, offset);
    var reply := pages(offset);
    var rec1 := ErrorAfter(rec, reply);
    match DoResult(reply)
    case Failure(e) => Run(Failure(GetterError(what, rec1, e)), rec1, [req], [])
    case Success(page) =>
      assert PageBounded(reply, offset, bound);
      if offset + page.limit >= page.totalCount then
        Run(Success(page.entries), rec1, [req], [page])
      else
        Prefix(page.entries, [req], [page], FetchRun(pages, url, fields, what, rec1, offset + page.limit, bound))
  }

  /** A run whose first request fails. */
  lemma FetchRunFails<T>(pages: int -> Reply<Page<T>>, url: string, fields: Option<string>, what: string,
                         rec: ErrorRecord, offset: nat, bound: nat)
    requires PagesBounded(pages, bound)
    requires DoResult(pages(offset)).Failure?
    ensures var rec1 := ErrorAfter(rec, pages(offset));
      FetchRun(pages, url, fields, what, rec, offset, bound)
        == Run(Failure(GetterError(what, rec1, DoResult(pages(offset)).error)), rec1, [PageRequest(url, fields, offset)], [])
  {
  }

  /** A run whose first page covers its total count. */
  lemma FetchRunEnds<T>(pages: int -> Reply<Page<T>>, url: string, fields: Option<string>, what: string,
                        rec: ErrorRecord, offset: nat, bound: nat)
    requires PagesBounded(pages, bound)
    requires DoResult(pages(offset)).Success?
    requires offset + DoResult(pages(offset)).value.limit >= DoResult(pages(offset)).value.totalCount
    ensures var page := DoResult(pages(offset)).value;
      FetchRun(pages, url, fields, what, rec, offset, bound)
        == Run(Success(page.entries), ErrorAfter(rec, pages(offset)), [PageRequest(url, fields, offset)], [page])
  {
  }

  /** A run whose first page leaves the running total below its total count goes on
      at offset + limit, a larger offset still below the bound. */
  lemma FetchRunGoesOn<T>(pages: int -> Reply<Page<T>>, url: string, fields: Option<string>, what: string,
                          rec: ErrorRecord, offset: nat, bound: nat)
    requires PagesBounded(pages, bound)
    requires DoResult(pages(offset)).Success?
    requires offset + DoResult(pages(offset)).value.limit < DoResult(pages(offset)).value.totalCount
    ensures var page := DoResult(pages(offset)).value;
      && 0 < page.limit && offset + page.limit < bound
      && FetchRun(pages, url, fields, what, rec, offset, bound)
           == Prefix(page.entries, [PageRequest(url, fields, offset)], [page],
                     FetchRun(pages, url, fields, what, ErrorAfter(rec, pages(offset)), offset + page.limit, bound))
  {
    assert PageBounded(pages(offset), offset, bound);
  }

  /** A run preceded by pages already fetched. */
  function Prefix<T>(entries: seq<T>, sent: seq<Request>, pages: seq<Page<T>>, run: Run<T>): Run<T> {
    Run(if run.result.Success? then Success(entries + run.result.value) else run.result,
        run.rec, sent + run.sent, pages + run.pages)
  }

  lemma PrefixPrefix<T>(e1: seq<T>, s1: seq<Request>, p1: seq<Page<T>>, e2: seq<T>, s2: seq<Request>, p2: seq<Page<T>>, run: Run<T>)
    ensures Prefix(e1, s1, p1, Prefix(e2, s2, p2, run)) == Prefix(e1 + e2, s1 + s2, p1 + p2, run)
  {
    if run.result.Success? {
      assert e1 + (e2 + run.result.value) == (e1 + e2) + run.result.value;
    }
    assert s1 + (s2 + run.sent) == (s1 + s2) + run.sent;
    assert p1 + (p2 + run.pages) == (p1 + p2) + run.pages;
  }

  lemma PrefixNothing<T>(run: Run<T>)
    ensures Prefix([], [], [], run) == run
  {
    if run.result.Success? {
      assert [] + run.result.value == run.result.value;
    }
    assert [] + run.sent == run.sent;
    assert [] + run.pages == run.pages;
  }

  function Entries<T>(pages: seq<Page<T>>): seq<T>
    decreases |pages|
  {
    if pages == [] then [] else pages[0].entries + Entries(pages[1..])
  }

  function SumLimits<T>(pages: seq<Page<T>>): int
    decreases |pages|
  {
    if pages == [] then 0 else pages[0].limit + SumLimits(pages[1..])
  }

  function UsersRun(s: Server, rec: ErrorRecord): Run<User>
    requires s.WellBehaved()
  {
    FetchRun(s.users, UsersUrl, Some(UserFields), "users", rec, DefaultOffset, s.bound)
  }

  function GroupsRun(s: Server, rec: ErrorRecord): Run<Group>
    requires s.WellBehaved()
  {
    FetchRun(s.groups, GroupsUrl, Some(GroupFields), "groups", rec, DefaultOffset, s.bound)
  }

  function MembershipsRun(s: Server, groupId: string, rec: ErrorRecord): Run<GroupMembership>
    requires s.WellBehaved()
  {
    assert PagesBounded(s.memberships(groupId), s.bound);
    FetchRun(s.memberships(groupId), MembershipsUrl(groupId), None, "group memberships", rec, DefaultOffset, s.bound)
  }

  /** A getter that sends one request and wraps a failure with GetterError. */
  function SingleCall<T>(req: Request, reply: Reply<T>, what: string, rec: ErrorRecord): (c: Call<T>)
    ensures c.sent == [req] && c.rec == ErrorAfter(rec, reply)
    ensures c.result.Success? <==> DoResult(reply).Success?
    ensures c.result.Success? ==> c.result == DoResult(reply)
    ensures c.result.Failure? ==> c.result.error == GetterError(what, c.rec, DoResult(reply).error)
  {
    var rec1 := ErrorAfter(rec, reply);
    match DoResult(reply)
    case Success(v) => Call(Success(v), rec1, [req])
    case Failure(e) => Call(Failure(GetterError(what, rec1, e)), rec1, [req])
  }

  function CurrentUserCall(s: Server, rec: ErrorRecord): Call<User> {
    SingleCall(ParamsRequest(CurrentUserUrl, CurrentUserFields), s.currentUser, "current user", rec)
  }

  function GroupCall(s: Server, groupId: string, rec: ErrorRecord): Call<Group> {
    SingleCall(ParamsRequest(GroupUrl(groupId), GroupFields), s.group(groupId), "group", rec)
  }

  // ---------------------------------------------------------------- properties of the loop

  lemma EntriesCons<T>(p: Page<T>, ps: seq<Page<T>>)
    ensures Entries([p] + ps) == p.entries + Entries(ps)
    ensures SumLimits([p] + ps) == p.limit + SumLimits(ps)
  {
    assert ([p] + ps)[1..] == ps;
  }

  lemma PrefixAt<T>(p: Page<T>, ps: seq<Page<T>>, i: nat)
    requires i <= |ps|
    ensures ([p] + ps)[..i + 1] == [p] + ps[..i]
    ensures SumLimits(([p] + ps)[..i + 1]) == p.limit + SumLimits(ps[..i])
  {
    assert ([p] + ps)[..i + 1] == [p] + ps[..i];
    EntriesCons(p, ps[..i]);
  }

  /** Every run starts with the request for its own offset. */
  lemma FetchRunFirstRequest<T>(pages: int -> Reply<Page<T>>, url: string, fields: Option<string>, what: string,
                                rec: ErrorRecord, offset: nat, bound: nat)
    requires PagesBounded(pages, bound)
    ensures var run := FetchRun(pages, url, fields, what, rec, offset, bound);
      |run.sent| > 0 && run.sent[0] == PageRequest(url, fields, offset)
  {
    var res := DoResult(pages(offset));
    if res.Failure? {
      FetchRunFails(pages, url, fields, what, rec, offset, bound);
    } else if offset + res.value.limit >= res.value.totalCount {
      FetchRunEnds(pages, url, fields, what, rec, offset, bound);
    } else {
      FetchRunGoesOn(pages, url, fields, what, rec, offset, bound);
    }
  }

  /** A successful run returns exactly the concatenation, in request order, of the
      entries of the pages it consumed. */
  lemma {:induction false} FetchRunEntries<T>(pages: int -> Reply<Page<T>>, url: string, fields: Option<string>, what: string,
                                              rec: ErrorRecord, offset: nat, bound: nat)
    requires PagesBounded(pages, bound)
    ensures var run := FetchRun(pages, url, fields, what, rec, offset, bound);
      run.result.Success? ==> run.result.value == Entries(run.pages)
    decreases bound - offset
  {
    var res := DoResult(pages(offset));
    if res.Failure? {
      FetchRunFails(pages, url, fields, what, rec, offset, bound);
    } else if offset + res.value.limit >= res.value.totalCount {
      FetchRunEnds(pages, url, fields, what, rec, offset, bound);
      EntriesCons(res.value, []);
      assert res.value.entries + [] == res.value.entries;
    } else {
      var rec1 := ErrorAfter(rec, pages(offset));
      var next := offset + res.value.limit;
      FetchRunGoesOn(pages, url, fields, what, rec, offset, bound);
      FetchRunEntries(pages, url, fields, what, rec1, next, bound);
      EntriesCons(res.value, FetchRun(pages, url, fields, what, rec1, next, bound).pages);
    }
  }

  /** Request i asks for `offset` plus the limits of the pages before it, with limit 200. */
  ghost predicate RequestedAt<T>(url: string, fields: Option<string>, offset: int, sent: seq<Request>, ps: seq<Page<T>>) {
    && |sent| <= |ps| + 1
    && forall i :: 0 <= i < |sent| ==> sent[i] == PageRequest(url, fields, offset + SumLimits(ps[..i]))
  }

  /** Page i is what the server answered at `offset` plus the limits of the pages before it. */
  ghost predicate AnsweredAt<T>(pages: int -> Reply<Page<T>>, offset: int, ps: seq<Page<T>>) {
    forall i :: 0 <= i < |ps| ==> DoResult(pages(offset + SumLimits(ps[..i]))) == Success(ps[i])
  }

  /** Each of the first n pages left the running total of limits below its total count. */
  ghost predicate ShortOf<T>(offset: int, ps: seq<Page<T>>, n: int) {
    forall i :: 0 <= i < n && i < |ps| ==> offset + SumLimits(ps[..i + 1]) < ps[i].totalCount
  }

  lemma RequestedCons<T>(url: string, fields: Option<string>, offset: int, p: Page<T>, sent: seq<Request>, ps: seq<Page<T>>)
    requires RequestedAt(url, fields, offset + p.limit, sent, ps)
    ensures RequestedAt(url, fields, offset, [PageRequest(url, fields, offset)] + sent, [p] + ps)
  {
    var sent' := [PageRequest(url, fields, offset)] + sent;
    forall i | 0 <= i < |sent'|
      ensures sent'[i] == PageRequest(url, fields, offset + SumLimits(([p] + ps)[..i]))
    {
      if i == 0 {
        assert ([p] + ps)[..0] == [];
      } else {
        PrefixAt(p, ps, i - 1);
      }
    }
  }

  lemma AnsweredCons<T>(pages: int -> Reply<Page<T>>, offset: int, p: Page<T>, ps: seq<Page<T>>)
    requires DoResult(pages(offset)) == Success(p)
    requires AnsweredAt(pages, offset + p.limit, ps)
    ensures AnsweredAt(pages, offset, [p] + ps)
  {
    forall i | 0 <= i < |[p] + ps|
      ensures DoResult(pages(offset + SumLimits(([p] + ps)[..i]))) == Success(([p] + ps)[i])
    {
      if i == 0 {
        assert ([p] + ps)[..0] == [];
      } else {
        PrefixAt(p, ps, i - 1);
      }
    }
  }

  lemma ShortCons<T>(offset: int, p: Page<T>, ps: seq<Page<T>>, n: int)
    requires offset + p.limit < p.totalCount
    requires ShortOf(offset + p.limit, ps, n)
    ensures ShortOf(offset, [p] + ps, n + 1)
  {
    forall i | 0 <= i < n + 1 && i < |[p] + ps|
      ensures offset + SumLimits(([p] + ps)[..i + 1]) < ([p] + ps)[i].totalCount
    {
      PrefixAt(p, ps, i);
      if i == 0 {
        assert ps[..0] == [];
      }
    }
  }

  /** Request i of a run asks for the offset reached by adding the limits reported
      by the pages before it, with limit 200; a failed run sends one request more
      than it consumed pages. */
  lemma {:induction false} FetchRunRequests<T>(pages: int -> Reply<Page<T>>, url: string, fields: Option<string>, what: string,
                                               rec: ErrorRecord, offset: nat, bound: nat)
    requires PagesBounded(pages, bound)
    ensures var run := FetchRun(pages, url, fields, what, rec, offset, bound);
      && |run.sent| == |run.pages| + (if run.result.Success? then 0 else 1)
      && RequestedAt(url, fields, offset, run.sent, run.pages)
    decreases bound - offset
  {
    var res := DoResult(pages(offset));
    if res.Failure? {
      FetchRunFails(pages, url, fields, what, rec, offset, bound);
      assert FetchRun(pages, url, fields, what, rec, offset, bound).pages[..0] == [];
    } else if offset + res.value.limit >= res.value.totalCount {
      FetchRunEnds(pages, url, fields, what, rec, offset, bound);
      assert FetchRun(pages, url, fields, what, rec, offset, bound).pages[..0] == [];
    } else {
      var rec1 := ErrorAfter(rec, pages(offset));
      var next := offset + res.value.limit;
      FetchRunGoesOn(pages, url, fields, what, rec, offset, bound);
      FetchRunRequests(pages, url, fields, what, rec1, next, bound);
      var rest := FetchRun(pages, url, fields, what, rec1, next, bound);
      RequestedCons(url, fields, offset, res.value, rest.sent, rest.pages);
    }
  }

  /** Page i of a run is what request i returned. */
  lemma {:induction false} FetchRunPages<T>(pages: int -> Reply<Page<T>>, url: string, fields: Option<string>, what: string,
                                            rec: ErrorRecord, offset: nat, bound: nat)
    requires PagesBounded(pages, bound)
    ensures AnsweredAt(pages, offset, FetchRun(pages, url, fields, what, rec, offset, bound).pages)
    decreases bound - offset
  {
    var run := FetchRun(pages, url, fields, what, rec, offset, bound);
    var res := DoResult(pages(offset));
    if res.Failure? {
      FetchRunFails(pages, url, fields, what, rec, offset, bound);
      assert run.pages == [];
    } else if offset + res.value.limit >= res.value.totalCount {
      FetchRunEnds(pages, url, fields, what, rec, offset, bound);
      AnsweredCons(pages, offset, res.value, []);
      assert run.pages == [res.value] + [];
    } else {
      var rec1 := ErrorAfter(rec, pages(offset));
      var next := offset + res.value.limit;
      FetchRunGoesOn(pages, url, fields, what, rec, offset, bound);
      var rest := FetchRun(pages, url, fields, what, rec1, next, bound);
      assert run.pages == [res.value] + rest.pages;
      FetchRunPages(pages, url, fields, what, rec1, next, bound);
      assert AnsweredAt(pages, next, rest.pages);
      assert DoResult(pages(offset)) == Success(res.value);
      AnsweredCons(pages, offset, res.value, rest.pages);
    }
  }

  /** Any failed request ends the run with an error and no entries; the message is
      the one GetterError picks with the record left by that request. */
  lemma {:induction false} FetchRunFailure<T>(pages: int -> Reply<Page<T>>, url: string, fields: Option<string>, what: string,
                                              rec: ErrorRecord, offset: nat, bound: nat)
    requires PagesBounded(pages, bound)
    ensures var run := FetchRun(pages, url, fields, what, rec, offset, bound);
      run.result.Failure? ==>
        var last := pages(offset + SumLimits(run.pages));
        DoResult(last).Failure? && run.result.error == GetterError(what, run.rec, DoResult(last).error)
    decreases bound - offset
  {
    var res := DoResult(pages(offset));
    if res.Failure? {
      FetchRunFails(pages, url, fields, what, rec, offset, bound);
    } else if offset + res.value.limit >= res.value.totalCount {
      FetchRunEnds(pages, url, fields, what, rec, offset, bound);
    } else {
      var rec1 := ErrorAfter(rec, pages(offset));
      var next := offset + res.value.limit;
      FetchRunGoesOn(pages, url, fields, what, rec, offset, bound);
      var run := FetchRun(pages, url, fields, what, rec, offset, bound);
      var rest := FetchRun(pages, url, fields, what, rec1, next, bound);
      assert run.pages == [res.value] + rest.pages && run.rec == rest.rec && (rest.result.Failure? ==> run.result == rest.result);
      FetchRunFailure(pages, url, fields, what, rec1, next, bound);
      EntriesCons(res.value, rest.pages);
    }
  }

  /** A successful run stops at a page whose running total of limits reaches that
      page's total count. */
  lemma {:induction false} FetchRunStopsCovered<T>(pages: int -> Reply<Page<T>>, url: string, fields: Option<string>, what: string,
                                                   rec: ErrorRecord, offset: nat, bound: nat)
    requires PagesBounded(pages, bound)
    ensures var run := FetchRun(pages, url, fields, what, rec, offset, bound);
      run.result.Success? ==>
        |run.pages| > 0 && offset + SumLimits(run.pages) >= run.pages[|run.pages| - 1].totalCount
    decreases bound - offset
  {
    var res := DoResult(pages(offset));
    if res.Failure? {
      FetchRunFails(pages, url, fields, what, rec, offset, bound);
    } else if offset + res.value.limit >= res.value.totalCount {
      FetchRunEnds(pages, url, fields, what, rec, offset, bound);
      EntriesCons(res.value, []);
    } else {
      var rec1 := ErrorAfter(rec, pages(offset));
      var next := offset + res.value.limit;
      FetchRunGoesOn(pages, url, fields, what, rec, offset, bound);
      FetchRunStopsCovered(pages, url, fields, what, rec1, next, bound);
      EntriesCons(res.value, FetchRun(pages, url, fields, what, rec1, next, bound).pages);
    }
  }

  /** No run stops early: every consumed page except the last page of a successful
      run left the running total of limits below that page's total count. */
  lemma {:induction false} FetchRunNoEarlyStop<T>(pages: int -> Reply<Page<T>>, url: string, fields: Option<string>, what: string,
                                                  rec: ErrorRecord, offset: nat, bound: nat)
    requires PagesBounded(pages, bound)
    ensures var run := FetchRun(pages, url, fields, what, rec, offset, bound);
      ShortOf(offset, run.pages, if run.result.Failure? then |run.pages| else |run.pages| - 1)
    decreases bound - offset
  {
    var res := DoResult(pages(offset));
    if res.Failure? {
      FetchRunFails(pages, url, fields, what, rec, offset, bound);
    } else if offset + res.value.limit >= res.value.totalCount {
      FetchRunEnds(pages, url, fields, what, rec, offset, bound);
    } else {
      var rec1 := ErrorAfter(rec, pages(offset));
      var next := offset + res.value.limit;
      FetchRunGoesOn(pages, url, fields, what, rec, offset, bound);
      var run := FetchRun(pages, url, fields, what, rec, offset, bound);
      var rest := FetchRun(pages, url, fields, what, rec1, next, bound);
      assert run.pages == [res.value] + rest.pages && run.result.Failure? == rest.result.Failure?;
      FetchRunNoEarlyStop(pages, url, fields, what, rec1, next, bound);
      ShortCons(offset, res.value, rest.pages, if rest.result.Failure? then |rest.pages| else |rest.pages| - 1);
    }
  }

  /** A first page that already covers its total count (a total count of 0, say)
      ends the run after exactly one request, with that page's entries. */
  lemma FetchRunSingleRequest<T>(pages: int -> Reply<Page<T>>, url: string, fields: Option<string>, what: string,
                                 rec: ErrorRecord, bound: nat, page: Page<T>)
    requires PagesBounded(pages, bound)
    requires DoResult(pages(0)) == Success(page) && page.limit >= page.totalCount
    ensures var run := FetchRun(pages, url, fields, what, rec, 0, bound);
      run.sent == [PageRequest(url, fields, 0)] && run.result == Success(page.entries)
  {
    FetchRunEnds(pages, url, fields, what, rec, 0, bound);
  }

  /** Nothing compares the number of entries with the reported total count: a server
      that reports 5 users and sends none yields an empty success. */
  lemma ShortPageAccepted(rec: ErrorRecord)
    ensures var pages: int -> Reply<Page<User>> := (o: int) => Response(StatusOK, ErrorDecode(NoFields, None), Success(Page(DefaultLimit, 0, 5, [])));
      && PagesBounded(pages, 5)
      && FetchRun(pages, UsersUrl, Some(UserFields), "users", rec, 0, 5).result == Success([])
  {
    var pages: int -> Reply<Page<User>> := (o: int) => Response(StatusOK, ErrorDecode(NoFields, None), Success(Page(DefaultLimit, 0, 5, [])));
    assert PagesBounded(pages, 5);
    FetchRunEnds(pages, UsersUrl, Some(UserFields), "users", rec, 0, 5);
  }

  /** The error record outlives the request that wrote it: after an earlier failure
      left type "error", a later transport failure is reported with the earlier
      upstream message. */
  lemma StaleRecordDecidesMessage<T>(req: Request, err: string, what: string, rec: ErrorRecord)
    requires rec.typ == ErrorType
    ensures SingleCall(req, Reply<T>.TransportError(err), what, rec).result == Failure("failed to get " + what + ": " + rec.message)
  {
  }

  /** A 200 response never touches the record, whatever its payload. */
  lemma OkLeavesRecord<T>(rec: ErrorRecord, errorBody: ErrorDecode, body: Result<T, string>)
    ensures ErrorAfter(rec, Response(StatusOK, errorBody, body)) == rec
  {
  }

  /** An error body that fails to decode can still decide the message: a 404 whose
      body has a string where the record holds a number writes type and message
      and then returns its type error, and the users loop then reports the upstream
      message rather than the decoder's error. */
  lemma PartialErrorBodyDecidesMessage(typeError: string)
    ensures var patch := NoFields.(typ := Some(ErrorType), message := Some("Not Found"));
      var pages: int -> Reply<Page<User>> := (o: int) => Response(404, ErrorDecode(patch, Some(typeError)), Failure("unused"));
      && PagesBounded(pages, 0)
      && FetchRun(pages, UsersUrl, Some(UserFields), "users", EmptyErrorRecord, 0, 0).result == Failure("failed to get users: Not Found")
  {
    var patch := NoFields.(typ := Some(ErrorType), message := Some("Not Found"));
    var pages: int -> Reply<Page<User>> := (o: int) => Response(404, ErrorDecode(patch, Some(typeError)), Failure("unused"));
    assert PagesBounded(pages, 0);
    FetchRunFails(pages, UsersUrl, Some(UserFields), "users", EmptyErrorRecord, 0, 0);
    var rec1 := ErrorAfter(EmptyErrorRecord, pages(0));
    assert rec1.typ == ErrorType && rec1.message == "Not Found";
    assert "failed to get " + "users" + ": " + "Not Found" == "failed to get users: Not Found";
  }

  // ---------------------------------------------------------------- the client

  /** The client. `errorResponse` is the package-level error record every request
      may overwrite and every getter reads; `sent` is the log of requests the
      transport has seen. */
  class Client {
    var errorResponse: ErrorRecord
    ghost var sent: seq<Request>

    constructor ()
      ensures errorResponse == EmptyErrorRecord && sent == []
    {
      errorResponse := EmptyErrorRecord;
      sent := [];
    }

    /** doRequest: send `req`, receive `reply`; on a non-200 status, decode the error
        body into the shared record (failing, with what was written kept, if that
        decoding fails), then decode the payload. */
    method DoRequest<T>(req: Request, reply: Reply<T>) returns (r: Result<T, string>)
      modifies this
      ensures r == DoResult(reply)
      ensures errorResponse == ErrorAfter(old(errorResponse), reply)
      ensures sent == old(sent) + [req]
    {
      sent := sent + [req];
      match reply
      case TransportError(e) =>
        r := Failure(e);
      case Response(status, errorBody, body) =>
        if status != StatusOK {
          errorResponse := MergeError(errorResponse, errorBody.patch);
          if errorBody.err.Some? {
            return Failure(errorBody.err.value);
          }
        }
        r := body;
    }

    /** The loop shared by GetUsers, GetGroups and GetGroupMemberships. */
    method FetchAll<T>(pages: int -> Reply<Page<T>>, url: string, fields: Option<string>, what: string, ghost bound: nat)
      returns (r: Result<seq<T>, string>)
      requires PagesBounded(pages, bound)
      modifies this
      ensures var run := FetchRun(pages, url, fields, what, old(errorResponse), DefaultOffset, bound);
        r == run.result && errorResponse == run.rec && sent == old(sent) + run.sent
    {
      ghost var start := FetchRun(pages, url, fields, what, errorResponse, DefaultOffset, bound);
      ghost var sentHere: seq<Request> := [];
      ghost var pagesHere: seq<Page<T>> := [];
      var acc: seq<T> := [];
      var offset: nat := DefaultOffset;
      var totalReturned := 0;
      PrefixNothing(start);
      while true
        invariant offset == totalReturned && offset <= bound
        invariant sent == old(sent) + sentHere
        invariant start == Prefix(acc, sentHere, pagesHere, FetchRun(pages, url, fields, what, errorResponse, offset, bound))
        decreases bound - offset
      {
        var req := PageRequest(url, fields, offset);
        ghost var rec0 := errorResponse;
        var res := DoRequest(req, pages(offset));
        if res.Failure? {
          FetchRunFails(pages, url, fields, what, rec0, offset, bound);
          if errorResponse.typ == ErrorType {
            r := Failure("failed to get " + what + ": " + errorResponse.message);
          } else {
            r := Failure(res.error);
          }
          return;
        }
        var page := res.value;
        ghost var accBefore := acc;
        acc := acc + page.entries;
        totalReturned := totalReturned + page.limit;
        if totalReturned >= page.totalCount {
          FetchRunEnds(pages, url, fields, what, rec0, offset, bound);
          r := Success(acc);
          return;
        }
        FetchRunGoesOn(pages, url, fields, what, rec0, offset, bound);
        offset := offset + page.limit;
        PrefixPrefix(accBefore, sentHere, pagesHere, page.entries, [req], [page],
                     FetchRun(pages, url, fields, what, errorResponse, offset, bound));
        sentHere := sentHere + [req];
        pagesHere := pagesHere + [page];
      }
    }

    method GetUsers(s: Server) returns (r: Result<seq<User>, string>)
      requires s.WellBehaved()
      modifies this
      ensures var run := UsersRun(s, old(errorResponse));
        r == run.result && errorResponse == run.rec && sent == old(sent) + run.sent
    {
      r := FetchAll(s.users, UsersUrl, Some(UserFields), "users", s.bound);
    }

    method GetGroups(s: Server) returns (r: Result<seq<Group>, string>)
      requires s.WellBehaved()
      modifies this
      ensures var run := GroupsRun(s, old(errorResponse));
        r == run.result && errorResponse == run.rec && sent == old(sent) + run.sent
    {
      r := FetchAll(s.groups, GroupsUrl, Some(GroupFields), "groups", s.bound);
    }

    method GetGroupMemberships(s: Server, groupId: string) returns (r: Result<seq<GroupMembership>, string>)
      requires s.WellBehaved()
      modifies this
      ensures var run := MembershipsRun(s, groupId, old(errorResponse));
        r == run.result && errorResponse == run.rec && sent == old(sent) + run.sent
    {
      assert PagesBounded(s.memberships(groupId), s.bound);
      r := FetchAll(s.memberships(groupId), MembershipsUrl(groupId), None, "group memberships", s.bound);
    }

    method GetCurrentUserWithEnterprise(s: Server) returns (r: Result<User, string>)
      modifies this
      ensures var c := CurrentUserCall(s, old(errorResponse));
        r == c.result && errorResponse == c.rec && sent == old(sent) + c.sent
    {
      var res := DoRequest(ParamsRequest(CurrentUserUrl, CurrentUserFields), s.currentUser);
      if res.Failure? {
        if errorResponse.typ == ErrorType {
          assert "failed to get " + "current user" + ": " == "failed to get current user: ";
          return Failure("failed to get current user: " + errorResponse.message);
        }
        return Failure(res.error);
      }
      r := res;
    }

    method GetGroup(s: Server, groupId: string) returns (r: Result<Group, string>)
      modifies this
      ensures var c := GroupCall(s, groupId, old(errorResponse));
        r == c.result && errorResponse == c.rec && sent == old(sent) + c.sent
    {
      var res := DoRequest(ParamsRequest(GroupUrl(groupId), GroupFields), s.group(groupId));
      if res.Failure? {
        if errorResponse.typ == ErrorType {
          assert "failed to get " + "group" + ": " == "failed to get group: ";
          return Failure("failed to get group: " + errorResponse.message);
        }
        return Failure(res.error);
      }
      r := res;
    }
  }
}
