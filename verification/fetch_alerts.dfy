/** The command-line flow of `main` (fetch_alerts.py, lines 23-79): build the search
    parameters, page through the alert list, fetch every alert's details, turn them into a
    table and size the sheet's columns, stopping early when there is nothing to show. */
module FetchAlerts {
  import opened Wrappers
  import opened Json
  import opened Gateway
  import DataProcessor
  import ExcelExporter

  /** The `--status` choices. */
  datatype StatusFilter = All | Open | Closed | Acked {
    function Name(): string {
      match this
      case All => "all"
      case Open => "open"
      case Closed => "closed"
      case Acked => "acked"
    }
  }

  /** The search parameters of lines 33-39: the creation window as "start/end" in ISO
      form, the page size, and the status unless it is "all". The clock readings and the
      `--days` arithmetic behind `startIso` and `endIso` are left to the caller. */
  function SearchParams(startIso: string, endIso: string, status: StatusFilter, limit: int): (p: Object)
    ensures "createdAt" in p && p["createdAt"] == Str(startIso + "/" + endIso)
    ensures "limit" in p && p["limit"] == Num(limit)
    ensures "status" in p <==> status != All
    ensures status != All ==> p["status"] == Str(status.Name())
    ensures forall k :: k in p ==> k in {"createdAt", "limit", "status"}
  {
    var p := map["createdAt" := Str(startIso + "/" + endIso), "limit" := Num(limit)];
    if status != All then p["status" := Str(status.Name())] else p
  }

  /** `get_alerts` finds the limit already set, so the parameters it pages with are the
      ones built here, and its page size is `--limit`. */
  lemma SearchParamsNeedNoDefaults(startIso: string, endIso: string, status: StatusFilter, limit: int)
    ensures var p := SearchParams(startIso, endIso, status, limit);
            LimitIsNumber(Some(p)) && WithDefaultLimit(Some(p)) == p && PageLimit(p) == limit
  {
  }

  // ---------------------------------------------------------------------------
  // The detail loop (lines 51-59)

  /** Every alert of the list has an `id` (otherwise `alert["id"]` raises KeyError). */
  predicate HasIds(alerts: seq<Object>) {
    forall i :: 0 <= i < |alerts| ==> "id" in alerts[i]
  }

  /** `get_alert_details` for one alert of the list. */
  function Details(client: Client, alert: Object, api: Api): DetailFetch
    requires "id" in alert
  {
    GetAlertDetails(client, alert["id"], api.detail, api.logs)
  }

  /** The records kept for `alerts`, in list order: each alert's merged record, when both
      of its requests succeeded. */
  function Kept(client: Client, alerts: seq<Object>, api: Api): seq<Object>
    requires HasIds(alerts)
    decreases |alerts|
  {
    if alerts == [] then []
    else
      var init := alerts[..|alerts| - 1];
      var last := Details(client, alerts[|alerts| - 1], api);
      Kept(client, init, api) + if last.result.Some? then [last.result.value] else []
  }

  /** The requests the loop sends for `alerts`, in order. */
  function DetailRequests(client: Client, alerts: seq<Object>, api: Api): seq<Request>
    requires HasIds(alerts)
    decreases |alerts|
  {
    if alerts == [] then []
    else
      var init := alerts[..|alerts| - 1];
      DetailRequests(client, init, api) + Details(client, alerts[|alerts| - 1], api).sent
  }

  /** The loop works alert by alert: the records kept for a list are those kept for its
      first part followed by those kept for the rest. */
  lemma {:induction false} KeptSplits(client: Client, xs: seq<Object>, ys: seq<Object>, api: Api)
    requires HasIds(xs) && HasIds(ys)
    ensures HasIds(xs + ys)
    ensures Kept(client, xs + ys, api) == Kept(client, xs, api) + Kept(client, ys, api)
    ensures DetailRequests(client, xs + ys, api) == DetailRequests(client, xs, api) + DetailRequests(client, ys, api)
    decreases |ys|
  {
    assert HasIds(xs + ys) by {
      forall i | 0 <= i < |xs + ys| ensures "id" in (xs + ys)[i] {
        if i >= |xs| { assert (xs + ys)[i] == ys[i - |xs|]; }
      }
    }
    if ys != [] {
      var init := ys[..|ys| - 1];
      assert (xs + ys)[..|xs + ys| - 1] == xs + init;
      assert (xs + ys)[|xs + ys| - 1] == ys[|ys| - 1];
      KeptSplits(client, xs, init, api);
    } else {
      assert xs + ys == xs;
    }
  }

  /** At most one record per alert; exactly one per alert when every request succeeds,
      and none when every detail request fails. Each alert costs one or two requests. */
  lemma {:induction false} KeptCounts(client: Client, alerts: seq<Object>, api: Api)
    requires HasIds(alerts)
    ensures |Kept(client, alerts, api)| <= |alerts|
    ensures |alerts| <= |DetailRequests(client, alerts, api)| <= 2 * |alerts|
    ensures (forall i :: 0 <= i < |alerts| ==> Details(client, alerts[i], api).result.Some?) ==>
              |Kept(client, alerts, api)| == |alerts|
    ensures (forall q :: api.detail(q).Failed?) ==> Kept(client, alerts, api) == []
    decreases |alerts|
  {
    if alerts != [] {
      var init := alerts[..|alerts| - 1];
      assert forall i :: 0 <= i < |init| ==> init[i] == alerts[i];
      KeptCounts(client, init, api);
    }
  }

  /** Every record kept carries the alert's logs under `logs`. */
  lemma {:induction false} KeptHaveLogs(client: Client, alerts: seq<Object>, api: Api)
    requires HasIds(alerts)
    ensures forall d :: d in Kept(client, alerts, api) ==> "logs" in d
    decreases |alerts|
  {
    if alerts != [] {
      KeptHaveLogs(client, alerts[..|alerts| - 1], api);
    }
  }

  /** The loop of lines 51-59. A missing `id` stops it with the index of that alert. */
  method FetchDetails(client: Client, alerts: seq<Object>, api: Api)
    returns (r: Result<seq<Object>, nat>, sent: seq<Request>)
    ensures r.Success? <==> HasIds(alerts)
    ensures r.Failure? ==> r.error < |alerts| && "id" !in alerts[r.error] && HasIds(alerts[..r.error])
    ensures r.Failure? ==> sent == DetailRequests(client, alerts[..r.error], api)
    ensures r.Success? ==> r.value == Kept(client, alerts, api) && sent == DetailRequests(client, alerts, api)
  {
    var kept := [];
    sent := [];
    var i := 0;
    while i < |alerts|
      invariant 0 <= i <= |alerts| && HasIds(alerts[..i])
      invariant kept == Kept(client, alerts[..i], api)
      invariant sent == DetailRequests(client, alerts[..i], api)
    {
      var alert := alerts[i];
      if "id" !in alert {
        return Failure(i), sent;
      }
      assert alerts[..i + 1][..i] == alerts[..i];
      var fetched := GetAlertDetails(client, alert["id"], api.detail, api.logs);
      sent := sent + fetched.sent;
      if fetched.result.Some? {
        kept := kept + [fetched.result.value];
      }
      i := i + 1;
    }
    assert alerts[..i] == alerts;
    r := Success(kept);
  }

  /** Every request the detail loop sends carries the client's key. */
  lemma {:induction false} DetailRequestsAuthorized(client: Client, alerts: seq<Object>, api: Api)
    requires HasIds(alerts)
    ensures forall q :: q in DetailRequests(client, alerts, api) ==> Authorized(q, client.apiKey)
    decreases |alerts|
  {
    if alerts != [] {
      DetailRequestsAuthorized(client, alerts[..|alerts| - 1], api);
    }
  }

  // ---------------------------------------------------------------------------
  // main

  /** How a run of the command ends. An exception that escapes `main` is an ending too. */
  datatype Exit =
    | FetchFailed(error: FetchError)                    // get_alerts raised
    | NoAlertsFound                                     // line 44
    | MissingId(index: nat)                             // alert["id"] raised KeyError
    | ProcessingFailed(shape: DataProcessor.ShapeError)  // process_alerts raised
    | NoDataAfterProcessing                             // line 66
    | Exported(table: DataProcessor.Table, widths: seq<nat>)

  /** How the run ends once the alert list `alerts` is in hand and not empty: a missing
      `id` stops it exactly when some alert lacks one. Otherwise `process_alerts` on the
      records kept by the detail loop decides: its shape error, an empty table (no record
      kept), or that very table, exported with the width rule's width for each column. */
  predicate Settled(client: Client, alerts: seq<Object>, api: Api, parse: DataProcessor.Parser,
                    render: Json -> ExcelExporter.Cell, exit: Exit) {
    && !exit.FetchFailed? && !exit.NoAlertsFound?
    && (exit.MissingId? <==> !HasIds(alerts))
    && (exit.MissingId? ==> exit.index < |alerts| && "id" !in alerts[exit.index])
    && (HasIds(alerts) ==>
          var kept := Kept(client, alerts, api);
          var processed := DataProcessor.ProcessAlerts(kept, parse);
          && (exit.ProcessingFailed? <==> processed.Failure?)
          && (exit.ProcessingFailed? ==> exit.shape == processed.error)
          && (exit.NoDataAfterProcessing? <==> kept == [])
          && (exit.Exported? ==>
                && processed.Success?
                && exit.table == processed.value
                && !DataProcessor.IsEmpty(exit.table)
                && exit.table.columns == DataProcessor.Names(DataProcessor.ColumnOrder)
                && 0 < |exit.table.rows| == |kept| <= |alerts|
                && ExcelExporter.Rectangular(exit.table)
                && |exit.widths| == |exit.table.columns|
                && forall k :: 0 <= k < |exit.widths| ==>
                     && exit.widths[k] == ExcelExporter.SheetWidth(exit.table, render, k)
                     && ExcelExporter.Padding <= exit.widths[k] <= ExcelExporter.MaxWidth))
  }

  /** Lines 48-78: fetch the details, process them and size the sheet. */
  method Export(client: Client, alerts: seq<Object>, api: Api, parse: DataProcessor.Parser,
                render: Json -> ExcelExporter.Cell)
    returns (exit: Exit, sent: seq<Request>)
    requires alerts != []
    ensures Settled(client, alerts, api, parse, render, exit)
    // one detail request per alert, in list order, each followed by its logs request when it succeeded
    ensures HasIds(alerts) ==> sent == DetailRequests(client, alerts, api)
    ensures exit.MissingId? ==> exit.index < |alerts| && HasIds(alerts[..exit.index])
                                && sent == DetailRequests(client, alerts[..exit.index], api)
    ensures forall q :: q in sent ==> Authorized(q, client.apiKey)
  {
    var details;
    details, sent := FetchDetails(client, alerts, api);
    if details.Failure? {
      DetailRequestsAuthorized(client, alerts[..details.error], api);
      return MissingId(details.error), sent;
    }
    DetailRequestsAuthorized(client, alerts, api);
    KeptCounts(client, alerts, api);
    var kept := details.value;
    match DataProcessor.ProcessAlerts(kept, parse)
    case Failure(e) =>
      return ProcessingFailed(e), sent;
    case Success(table) =>
      DataProcessor.ProcessedTableIsEmptyOnlyWithoutAlerts(kept, parse);
      if DataProcessor.IsEmpty(table) {
        return NoDataAfterProcessing, sent;
      }
      var widths := ExcelExporter.ColumnWidths(table, render);
      exit := Exported(table, widths);
  }

  /** `main` without its console output and file write. `render` is the conversion of a
      table value into a sheet cell and `parse` the timestamp parser. */
  method Command(apiKey: string, startIso: string, endIso: string, status: StatusFilter, limit: int,
                 api: Api, parse: DataProcessor.Parser, render: Json -> ExcelExporter.Cell)
    returns (exit: Exit, sent: seq<Request>)
    requires Halts(api.list, Headers(Client(apiKey)), SearchParams(startIso, endIso, status, limit))
    // the alert list is paged first, exactly as get_alerts does it
    ensures var run := Outcome(api.list, Headers(Client(apiKey)), SearchParams(startIso, endIso, status, limit));
            && run.sent <= sent
            && (exit.FetchFailed? <==> run.result.Failure?)
            && (exit.FetchFailed? ==> exit.error == run.result.error && sent == run.sent)
            && (exit.NoAlertsFound? <==> run.result == Success([]))
            && (exit.NoAlertsFound? ==> sent == run.sent)
            && (run.result.Success? && run.result.value != [] ==>
                  Settled(Client(apiKey), run.result.value, api, parse, render, exit))
    // then the detail loop, up to the first alert without an `id`
    ensures var run := Outcome(api.list, Headers(Client(apiKey)), SearchParams(startIso, endIso, status, limit));
            && (run.result.Success? && run.result.value != [] && HasIds(run.result.value) ==>
                  sent == run.sent + DetailRequests(Client(apiKey), run.result.value, api))
            && (exit.MissingId? ==>
                  && run.result.Success? && exit.index < |run.result.value|
                  && HasIds(run.result.value[..exit.index])
                  && sent == run.sent + DetailRequests(Client(apiKey), run.result.value[..exit.index], api))
    // every request carries the key given on the command line
    ensures forall q :: q in sent ==> Authorized(q, apiKey)
  {
    var client := Client(apiKey);
    var search := SearchParams(startIso, endIso, status, limit);
    SearchParamsNeedNoDefaults(startIso, endIso, status, limit);
    var fetched, _, listSent := GetAlerts(client, Some(search), api.list);
    sent := listSent;
    FollowsEverywhere(api.list, Headers(client), search, listSent);
    assert forall q :: q in listSent ==> Authorized(q, apiKey) by {
      forall q | q in listSent ensures Authorized(q, apiKey) {
        var k :| 0 <= k < |listSent| && listSent[k] == q;
      }
    }
    if fetched.Failure? {
      return FetchFailed(fetched.error), sent;
    }
    var alerts := fetched.value;
    if alerts == [] {
      return NoAlertsFound, sent;
    }
    var more;
    exit, more := Export(client, alerts, api, parse, render);
    sent := sent + more;
  }
}
