/** The OpsGenie client: authenticated requests, the offset paginator of the
    alert list, and the detail-plus-logs merge for a single alert.
    The remote API is a set of oracles from requests to replies. */
module Gateway {
  import opened Wrappers
  import opened Json

  /** A client holds the API key given at construction. */
  datatype Client = Client(apiKey: string)

  /** The headers every request carries. */
  function Headers(c: Client): map<string, string> {
    map["Authorization" := "GenieKey " + c.apiKey, "Content-Type" := "application/json"]
  }

  /** Which resource a request addresses: the alert list, one alert, or one alert's logs. */
  datatype Endpoint = AlertList | AlertDetail(id: Json) | AlertLogs(id: Json)

  /** One HTTP GET: its target, its headers and its query parameters. */
  datatype Request = Request(endpoint: Endpoint, headers: map<string, string>, params: Object)

  /** The request carries `Authorization: GenieKey <key>`. */
  predicate Authorized(q: Request, apiKey: string) {
    "Authorization" in q.headers && q.headers["Authorization"] == "GenieKey " + apiKey
  }

  /** The reply to a request for one page of the alert list.
      - `Page`: a 2xx response; `data` is the body's `data` list (None when absent or null)
        and `message` the body's `message` member, if any.
      - `HttpError`: `raise_for_status` raised, or a 2xx body did not decode (requests
        raises a RequestException for both), with text `text`; `message` is the body's
        `message` member when the body decodes and has one.
      - `NoResponse`: `requests.get` itself raised (connection error, timeout). */
  datatype PageReply =
    | Page(data: Option<seq<Object>>, message: Option<Json>)
    | HttpError(text: string, message: Option<Json>)
    | NoResponse(text: string)

  /** The reply to a detail or logs request: the body's `data` member, or a request failure. */
  datatype Reply<+T> = Failed(text: string) | Ok(data: T)

  /** The three endpoints of the remote API. */
  datatype Api = Api(
    list: Request -> PageReply,
    detail: Request -> Reply<Object>,
    logs: Request -> Reply<Json>)

  /** The exception `get_alerts` raises; its text is "Failed to fetch alerts: " + str(reason). */
  datatype FetchError = FetchError(reason: Json)

  const FetchErrorPrefix := "Failed to fetch alerts: "

  /** The exception's text, with Python's `str()` of a decoded value given as `show`. */
  function Describe(e: FetchError, show: Json -> string): (text: string)
    ensures FetchErrorPrefix <= text
    ensures e.reason.Str? && (forall s :: show(Str(s)) == s) ==> text[|FetchErrorPrefix|..] == e.reason.s
  {
    FetchErrorPrefix + show(e.reason)
  }

  /** The page size used when the caller gives none. */
  const DefaultLimit := 100

  /** The caller's `limit`, when given, is an integer (Python compares it with `len`). */
  predicate LimitIsNumber(params: Option<Object>) {
    params.Some? && "limit" in params.value ==> params.value["limit"].Num?
  }

  predicate HasNumericLimit(p: Object) {
    "limit" in p && p["limit"].Num?
  }

  /** The parameter dict after the defaults of lines 39-44: a fresh dict when the caller
      passed None, and `limit` set to 100 when absent. The caller's dict is updated in place,
      so the caller sees exactly this dict afterwards. */
  function WithDefaultLimit(params: Option<Object>): (p: Object)
    requires LimitIsNumber(params)
    ensures HasNumericLimit(p)
    ensures p["limit"] == (if params.Some? && "limit" in params.value then params.value["limit"] else Num(DefaultLimit))
    ensures forall k :: k != "limit" ==> (k in p <==> params.Some? && k in params.value)
    ensures forall k :: k != "limit" && k in p ==> p[k] == params.value[k]
  {
    var d := params.GetOr(map[]);
    if "limit" in d then d else d["limit" := Num(DefaultLimit)]
  }

  /** The page size compared against each page's length. */
  function PageLimit(p: Object): int
    requires HasNumericLimit(p)
  {
    p["limit"].n
  }

  /** The request for the page starting at `offset`: the parameters with `offset` overwritten. */
  function PageRequest(h: map<string, string>, p: Object, offset: nat): Request {
    Request(AlertList, h, p["offset" := Num(offset)])
  }

  /** The exception's reason for a failed exchange. `previous` is the `message` member of
      the most recent response object in scope: after a transport failure Python's
      `response` still names the previous page's response, or is unbound on the first request. */
  function ErrorReason(reply: PageReply, previous: Option<Json>): Json
    requires !reply.Page?
  {
    match reply
    case HttpError(text, message) => message.GetOr(Str(text))
    case NoResponse(text) => previous.GetOr(Str(text))
  }

  /** The alerts a page contributes: its `data` list, or nothing when that is missing. */
  function PageAlerts(reply: PageReply): seq<Object>
    requires reply.Page?
  {
    reply.data.GetOr([])
  }

  /** The outcome of a pagination: the result and every request sent, in order. */
  datatype Run = Run(result: Result<seq<Object>, FetchError>, sent: seq<Request>)

  function Prepend(xs: seq<Object>, r: Result<seq<Object>, FetchError>): Result<seq<Object>, FetchError> {
    match r
    case Success(ys) => Success(xs + ys)
    case Failure(e) => Failure(e)
  }

  lemma PrependNothing(r: Result<seq<Object>, FetchError>)
    ensures Prepend([], r) == r
  {
    if r.Success? {
      assert [] + r.value == r.value;
    }
  }

  lemma PrependTwice(xs: seq<Object>, ys: seq<Object>, r: Result<seq<Object>, FetchError>)
    ensures Prepend(xs, Prepend(ys, r)) == Prepend(xs + ys, r)
  {
    if r.Success? {
      assert xs + (ys + r.value) == (xs + ys) + r.value;
    }
  }

  /** Reference definition of the loop of lines 47-85, from the request at `offset` on,
      with `last` the previous response's `message`. It gives up (None) after `fuel`
      requests: the loop itself has no bound. */
  function Paginate(list: Request -> PageReply, h: map<string, string>, p: Object,
                    offset: nat, last: Option<Json>, fuel: nat): Option<Run>
    requires HasNumericLimit(p)
    decreases fuel
  {
    if fuel == 0 then None
    else
      var q := PageRequest(h, p, offset);
      var reply := list(q);
      if !reply.Page? then Some(Run(Failure(FetchError(ErrorReason(reply, last))), [q]))
      else
        var alerts := PageAlerts(reply);
        if alerts == [] || |alerts| < PageLimit(p) then Some(Run(Success(alerts), [q]))
        else
          match Paginate(list, h, p, offset + |alerts|, reply.message, fuel - 1)
          case None => None
          case Some(rest) => Some(Run(Prepend(alerts, rest.result), [q] + rest.sent))
  }

  /** One unfolding of `Paginate` that has finished. */
  lemma PaginateStep(list: Request -> PageReply, h: map<string, string>, p: Object,
                     offset: nat, last: Option<Json>, fuel: nat)
    requires HasNumericLimit(p)
    requires Paginate(list, h, p, offset, last, fuel).Some?
    ensures fuel > 0
    ensures var q := PageRequest(h, p, offset);
            var reply := list(q);
            var run := Paginate(list, h, p, offset, last, fuel).value;
            if !reply.Page? then run == Run(Failure(FetchError(ErrorReason(reply, last))), [q])
            else if PageAlerts(reply) == [] || |PageAlerts(reply)| < PageLimit(p) then run == Run(Success(PageAlerts(reply)), [q])
            else
              var next := Paginate(list, h, p, offset + |PageAlerts(reply)|, reply.message, fuel - 1);
              next.Some? && run == Run(Prepend(PageAlerts(reply), next.value.result), [q] + next.value.sent)
  {
  }

  /** The server eventually ends the loop: some number of requests reaches a short or
      empty page or a failure. */
  ghost predicate Halts(list: Request -> PageReply, h: map<string, string>, p: Object) {
    HasNumericLimit(p) && exists fuel :: Paginate(list, h, p, 0, None, fuel).Some?
  }

  /** Two runs that both finish describe the same exchange. */
  lemma {:induction false} PaginateDeterministic(list: Request -> PageReply, h: map<string, string>, p: Object,
                                                 offset: nat, last: Option<Json>, f1: nat, f2: nat)
    requires HasNumericLimit(p)
    requires Paginate(list, h, p, offset, last, f1).Some?
    requires Paginate(list, h, p, offset, last, f2).Some?
    ensures Paginate(list, h, p, offset, last, f1) == Paginate(list, h, p, offset, last, f2)
    decreases f1
  {
    var reply := list(PageRequest(h, p, offset));
    if reply.Page? {
      var alerts := PageAlerts(reply);
      if !(alerts == [] || |alerts| < PageLimit(p)) {
        PaginateDeterministic(list, h, p, offset + |alerts|, reply.message, f1 - 1, f2 - 1);
      }
    }
  }

  /** What the loop produces, for a server that lets it finish. */
  ghost function Outcome(list: Request -> PageReply, h: map<string, string>, p: Object): Run
    requires Halts(list, h, p)
  {
    var fuel :| Paginate(list, h, p, 0, None, fuel).Some?;
    Paginate(list, h, p, 0, None, fuel).value
  }

  lemma OutcomeIsAnyFinishedRun(list: Request -> PageReply, h: map<string, string>, p: Object, fuel: nat)
    requires HasNumericLimit(p)
    requires Paginate(list, h, p, 0, None, fuel).Some?
    ensures Halts(list, h, p)
    ensures Outcome(list, h, p) == Paginate(list, h, p, 0, None, fuel).value
  {
    var f :| Paginate(list, h, p, 0, None, f).Some? && Outcome(list, h, p) == Paginate(list, h, p, 0, None, f).value;
    PaginateDeterministic(list, h, p, 0, None, f, fuel);
  }

  /** What one reply adds to the result: a page's alerts, nothing otherwise. */
  function Delivered(reply: PageReply): seq<Object> {
    if reply.Page? then PageAlerts(reply) else []
  }

  /** The number of alerts received in reply to the requests `sent`. */
  function Offset(list: Request -> PageReply, sent: seq<Request>): nat {
    if sent == [] then 0 else Offset(list, sent[..|sent| - 1]) + |Delivered(list(sent[|sent| - 1]))|
  }

  /** The alerts received in reply to the requests `sent`, joined in request order. */
  function Collected(list: Request -> PageReply, sent: seq<Request>): seq<Object> {
    if sent == [] then [] else Collected(list, sent[..|sent| - 1]) + Delivered(list(sent[|sent| - 1]))
  }

  /** The offset the loop keeps is the number of alerts it has collected. */
  lemma {:induction false} CollectedLength(list: Request -> PageReply, sent: seq<Request>)
    ensures |Collected(list, sent)| == Offset(list, sent)
  {
    if sent != [] {
      CollectedLength(list, sent[..|sent| - 1]);
    }
  }

  lemma {:induction false} OffsetCons(list: Request -> PageReply, q: Request, sent: seq<Request>)
    ensures Offset(list, [q] + sent) == |Delivered(list(q))| + Offset(list, sent)
    ensures Collected(list, [q] + sent) == Delivered(list(q)) + Collected(list, sent)
    decreases |sent|
  {
    if sent != [] {
      var init := sent[..|sent| - 1];
      assert ([q] + sent)[..|sent|] == [q] + init;
      OffsetCons(list, q, init);
    }
  }

  /** The offset after the first `k` requests of `[q] + rest`. */
  lemma OffsetShift(list: Request -> PageReply, q: Request, rest: seq<Request>, k: nat)
    requires 0 < k <= |rest| + 1
    ensures Offset(list, ([q] + rest)[..k]) == |Delivered(list(q))| + Offset(list, rest[..k - 1])
  {
    assert ([q] + rest)[..k] == [q] + rest[..k - 1];
    OffsetCons(list, q, rest[..k - 1]);
  }

  /** Each request of `sent` asks for the page at the offset reached by the replies
      before it, starting from `offset`. */
  predicate OffsetsFollow(list: Request -> PageReply, h: map<string, string>, p: Object,
                          offset: nat, sent: seq<Request>)
    decreases |sent|
  {
    sent == [] ||
    (sent[0] == PageRequest(h, p, offset) &&
     OffsetsFollow(list, h, p, offset + |Delivered(list(sent[0]))|, sent[1..]))
  }

  /** A finished run moves the offset past each page it receives. */
  lemma {:induction false} PaginateFollows(list: Request -> PageReply, h: map<string, string>, p: Object,
                                           offset: nat, last: Option<Json>, fuel: nat)
    requires HasNumericLimit(p)
    requires Paginate(list, h, p, offset, last, fuel).Some?
    ensures OffsetsFollow(list, h, p, offset, Paginate(list, h, p, offset, last, fuel).value.sent)
    decreases fuel
  {
    PaginateStep(list, h, p, offset, last, fuel);
    var sent := Paginate(list, h, p, offset, last, fuel).value.sent;
    var q := PageRequest(h, p, offset);
    var reply := list(q);
    if reply.Page? {
      var alerts := PageAlerts(reply);
      if !(alerts == [] || |alerts| < PageLimit(p)) {
        var next := Paginate(list, h, p, offset + |alerts|, reply.message, fuel - 1).value;
        PaginateFollows(list, h, p, offset + |alerts|, reply.message, fuel - 1);
        assert sent[0] == q && sent[1..] == next.sent;
        assert Delivered(reply) == alerts;
      } else {
        assert sent[1..] == [];
      }
    } else {
      assert sent[1..] == [];
    }
  }

  /** In requests that follow the offsets, the k-th asks for `offset` plus the number
      of alerts received in reply to the requests before it. */
  lemma {:induction false} FollowsAt(list: Request -> PageReply, h: map<string, string>, p: Object,
                                     offset: nat, sent: seq<Request>, k: nat)
    requires OffsetsFollow(list, h, p, offset, sent)
    requires k < |sent|
    ensures sent[k] == PageRequest(h, p, offset + Offset(list, sent[..k]))
    decreases k
  {
    if k == 0 {
      assert sent[..0] == [];
    } else {
      FollowsAt(list, h, p, offset + |Delivered(list(sent[0]))|, sent[1..], k - 1);
      OffsetShift(list, sent[0], sent[1..], k);
      assert [sent[0]] + sent[1..] == sent;
    }
  }

  /** A finished run that succeeds returns everything received, in request order. */
  lemma {:induction false} PaginateCollects(list: Request -> PageReply, h: map<string, string>, p: Object,
                                            offset: nat, last: Option<Json>, fuel: nat)
    requires HasNumericLimit(p)
    requires Paginate(list, h, p, offset, last, fuel).Some?
    ensures var run := Paginate(list, h, p, offset, last, fuel).value;
            run.result.Success? ==> run.result.value == Collected(list, run.sent)
    decreases fuel
  {
    PaginateStep(list, h, p, offset, last, fuel);
    var q := PageRequest(h, p, offset);
    var reply := list(q);
    if reply.Page? {
      var alerts := PageAlerts(reply);
      if alerts == [] || |alerts| < PageLimit(p) {
        OffsetCons(list, q, []);
        assert [q] + [] == [q];
      } else {
        var next := Paginate(list, h, p, offset + |alerts|, reply.message, fuel - 1).value;
        PaginateCollects(list, h, p, offset + |alerts|, reply.message, fuel - 1);
        OffsetCons(list, q, next.sent);
      }
    }
  }

  /** `get_alerts` (lines 25-85). Besides the result it returns the parameter dict as the
      caller holds it afterwards (lines 43-44 update a given dict in place; a missing one
      is replaced by a fresh dict the caller never sees) and every request sent, in order. */
  method GetAlerts(client: Client, params: Option<Object>, list: Request -> PageReply)
    returns (r: Result<seq<Object>, FetchError>, completed: Option<Object>, sent: seq<Request>)
    requires LimitIsNumber(params)
    requires Halts(list, Headers(client), WithDefaultLimit(params))
    // the caller's dict gains `limit` when it had none, and is otherwise left as it was
    ensures completed.Some? <==> params.Some?
    ensures params.Some? ==> completed.value == WithDefaultLimit(params)
    ensures Run(r, sent) == Outcome(list, Headers(client), WithDefaultLimit(params))
    ensures sent != []
    // each request asks for the page just past the alerts received so far, from offset 0
    // (`FollowsEverywhere` gives the k-th request's offset)
    ensures OffsetsFollow(list, Headers(client), WithDefaultLimit(params), 0, sent)
    // the result is every page received, joined in request order
    ensures r.Success? ==> r.value == Collected(list, sent)
  {
    var p := WithDefaultLimit(params);
    completed := if params.Some? then Some(p) else None;
    r, sent := Pages(Headers(client), p, list);
    OutcomeFollows(list, Headers(client), p);
  }

  /** The run the loop makes sends at least one request, and its requests follow the
      offsets from 0. */
  lemma OutcomeFollows(list: Request -> PageReply, h: map<string, string>, p: Object)
    requires Halts(list, h, p)
    ensures Outcome(list, h, p).sent != []
    ensures OffsetsFollow(list, h, p, 0, Outcome(list, h, p).sent)
  {
    var fuel: nat :| Paginate(list, h, p, 0, None, fuel).Some?;
    OutcomeIsAnyFinishedRun(list, h, p, fuel);
    PaginateStep(list, h, p, 0, None, fuel);
    PaginateFollows(list, h, p, 0, None, fuel);
  }

  /** Request k of a run that follows the offsets from 0 asks for the number of alerts
      received in reply to requests 0..k-1. */
  lemma FollowsEverywhere(list: Request -> PageReply, h: map<string, string>, p: Object, sent: seq<Request>)
    requires OffsetsFollow(list, h, p, 0, sent)
    ensures forall k :: 0 <= k < |sent| ==> sent[k] == PageRequest(h, p, Offset(list, sent[..k]))
  {
    forall k | 0 <= k < |sent|
      ensures sent[k] == PageRequest(h, p, Offset(list, sent[..k]))
    {
      FollowsAt(list, h, p, 0, sent, k);
    }
  }

  /** The loop invariant of `Pages`: while `more`, the requests sent and the alerts
      collected so far, followed by what `Paginate` does from the current offset, make up
      the whole run; once the loop ends they are the whole run. The offset is the number
      of alerts collected, and those are the alerts received in reply to `sent`. */
  ghost predicate LoopInvariant(list: Request -> PageReply, h: map<string, string>, p: Object, whole: Run,
                                more: bool, offset: nat, last: Option<Json>, fuel: nat,
                                acc: seq<Object>, sent: seq<Request>)
  {
    && HasNumericLimit(p)
    && (more ==>
          && Paginate(list, h, p, offset, last, fuel).Some?
          && whole.result == Prepend(acc, Paginate(list, h, p, offset, last, fuel).value.result)
          && whole.sent == sent + Paginate(list, h, p, offset, last, fuel).value.sent
          && offset == |acc|)
    && (!more ==> whole == Run(Success(acc), sent))
    && acc == Collected(list, sent)
  }

  /** A failed exchange ends the run with the failure, after the request that failed. */
  lemma StepFails(list: Request -> PageReply, h: map<string, string>, p: Object, whole: Run,
                  offset: nat, last: Option<Json>, fuel: nat, acc: seq<Object>, sent: seq<Request>)
    requires LoopInvariant(list, h, p, whole, true, offset, last, fuel, acc, sent)
    requires !list(PageRequest(h, p, offset)).Page?
    ensures whole == Run(Failure(FetchError(ErrorReason(list(PageRequest(h, p, offset)), last))),
                         sent + [PageRequest(h, p, offset)])
  {
  }

  /** An empty or short page ends the run successfully. */
  lemma StepEnds(list: Request -> PageReply, h: map<string, string>, p: Object, whole: Run,
                 offset: nat, last: Option<Json>, fuel: nat, acc: seq<Object>, sent: seq<Request>)
    requires LoopInvariant(list, h, p, whole, true, offset, last, fuel, acc, sent)
    requires list(PageRequest(h, p, offset)).Page?
    requires var alerts := PageAlerts(list(PageRequest(h, p, offset)));
             alerts == [] || |alerts| < PageLimit(p)
    ensures LoopInvariant(list, h, p, whole, false, offset, last, fuel,
                          acc + PageAlerts(list(PageRequest(h, p, offset))), sent + [PageRequest(h, p, offset)])
  {
  }

  /** A full page moves the offset past its alerts and keeps going. */
  lemma StepContinues(list: Request -> PageReply, h: map<string, string>, p: Object, whole: Run,
                      offset: nat, last: Option<Json>, fuel: nat, acc: seq<Object>, sent: seq<Request>)
    requires LoopInvariant(list, h, p, whole, true, offset, last, fuel, acc, sent)
    requires list(PageRequest(h, p, offset)).Page?
    requires var alerts := PageAlerts(list(PageRequest(h, p, offset)));
             !(alerts == [] || |alerts| < PageLimit(p))
    ensures fuel > 0
    ensures var reply := list(PageRequest(h, p, offset));
            var alerts := PageAlerts(reply);
            LoopInvariant(list, h, p, whole, true, offset + |alerts|, reply.message, fuel - 1,
                          acc + alerts, sent + [PageRequest(h, p, offset)])
  {
    PaginateStep(list, h, p, offset, last, fuel);
    var q := PageRequest(h, p, offset);
    var reply := list(q);
    var alerts := PageAlerts(reply);
    assert (sent + [q])[..|sent|] == sent;
    assert Collected(list, sent + [q]) == acc + alerts;
    var next := Paginate(list, h, p, offset + |alerts|, reply.message, fuel - 1).value;
    assert Paginate(list, h, p, offset, last, fuel).value == Run(Prepend(alerts, next.result), [q] + next.sent);
    PrependTwice(acc, alerts, next.result);
    assert sent + ([q] + next.sent) == (sent + [q]) + next.sent;
  }

  /** The loop of lines 47-85 for the completed parameter dict `p`. */
  method Pages(h: map<string, string>, p: Object, list: Request -> PageReply)
    returns (r: Result<seq<Object>, FetchError>, sent: seq<Request>)
    requires Halts(list, h, p)
    ensures Run(r, sent) == Outcome(list, h, p)
    ensures r.Success? ==> r.value == Collected(list, sent)
  {
    var limit := p["limit"].n;
    ghost var fuel: nat :| Paginate(list, h, p, 0, None, fuel).Some?;
    OutcomeIsAnyFinishedRun(list, h, p, fuel);
    ghost var whole := Paginate(list, h, p, 0, None, fuel).value;

    var offset: nat := 0;
    var acc: seq<Object> := [];
    var last: Option<Json> := None;
    var more := true;
    sent := [];
    PrependNothing(whole.result);
    assert [] + whole.sent == whole.sent;
    while more
      invariant LoopInvariant(list, h, p, whole, more, offset, last, fuel, acc, sent)
      decreases fuel, more
    {
      var q := PageRequest(h, p, offset);
      var reply := list(q);
      if !reply.Page? {
        StepFails(list, h, p, whole, offset, last, fuel, acc, sent);
        sent := sent + [q];
        r := Failure(FetchError(ErrorReason(reply, last)));
        return;
      }
      var alerts := PageAlerts(reply);
      if alerts == [] || |alerts| < limit {
        StepEnds(list, h, p, whole, offset, last, fuel, acc, sent);
        more := false;
      } else {
        StepContinues(list, h, p, whole, offset, last, fuel, acc, sent);
      }
      sent := sent + [q];
      acc := acc + alerts;
      if more {
        offset := offset + |alerts|;
        last := reply.message;
        fuel := fuel - 1;
      }
    }
    r := Success(acc);
  }

  /** The outcome of `get_alert_details`: the merged record (None on failure) and the
      requests sent. */
  datatype DetailFetch = DetailFetch(result: Option<Object>, sent: seq<Request>)

  /** `get_alert_details` (lines 87-119): fetch the alert, then its logs, and add the
      logs under the key `logs`. A failure of either request gives None. */
  function GetAlertDetails(client: Client, id: Json, detail: Request -> Reply<Object>,
                           logs: Request -> Reply<Json>): (f: DetailFetch)
    ensures 1 <= |f.sent| <= 2
    ensures f.sent[0] == Request(AlertDetail(id), Headers(client), map[])
    ensures |f.sent| == 2 <==> detail(f.sent[0]).Ok?
    ensures |f.sent| == 2 ==> f.sent[1] == Request(AlertLogs(id), Headers(client), map[])
    ensures f.result.Some? <==> |f.sent| == 2 && logs(f.sent[1]).Ok?
    ensures f.result.Some? ==>
              && f.result.value.Keys == detail(f.sent[0]).data.Keys + {"logs"}
              && f.result.value["logs"] == logs(f.sent[1]).data
              && forall k :: k in detail(f.sent[0]).data && k != "logs" ==>
                               f.result.value[k] == detail(f.sent[0]).data[k]
    // a merged record always has the `logs` key, so `if detail:` in the caller means success
    ensures f.result.Some? ==> Truthy(Obj(f.result.value))
  {
    var first := Request(AlertDetail(id), Headers(client), map[]);
    match detail(first)
    case Failed(_) => DetailFetch(None, [first])
    case Ok(record) =>
      var second := Request(AlertLogs(id), Headers(client), map[]);
      match logs(second)
      case Failed(_) => DetailFetch(None, [first, second])
      case Ok(entries) =>
        var merged := record["logs" := entries];
        assert "logs" in merged;
        DetailFetch(Some(merged), [first, second])
  }
}
