/** Properties of the offset paginator of `get_alerts`: when it stops, what a failure
    reports, what it returns from a server that serves a finite store, and why it needs
    a server that eventually sends a short page. */
module Pagination {
  import opened Wrappers
  import opened Json
  import opened Gateway

  /** The reply to the k-th request of a run. */
  function ReplyTo(list: Request -> PageReply, sent: seq<Request>, k: nat): PageReply
    requires k < |sent|
  {
    list(sent[k])
  }

  /** A run goes on only past full pages: every reply but the last is a non-empty
      page at least `limit` long. */
  lemma {:induction false} PaginateContinuesOnFullPages(list: Request -> PageReply, h: map<string, string>,
                                                        p: Object, offset: nat, last: Option<Json>, fuel: nat)
    requires HasNumericLimit(p)
    requires Paginate(list, h, p, offset, last, fuel).Some?
    ensures var run := Paginate(list, h, p, offset, last, fuel).value;
            && |run.sent| > 0
            && forall k :: 0 <= k < |run.sent| - 1 ==>
                 && ReplyTo(list, run.sent, k).Page?
                 && PageAlerts(ReplyTo(list, run.sent, k)) != []
                 && |PageAlerts(ReplyTo(list, run.sent, k))| >= PageLimit(p)
    decreases fuel
  {
    PaginateStep(list, h, p, offset, last, fuel);
    var run := Paginate(list, h, p, offset, last, fuel).value;
    var q := PageRequest(h, p, offset);
    var reply := list(q);
    if reply.Page? {
      var alerts := PageAlerts(reply);
      if !(alerts == [] || |alerts| < PageLimit(p)) {
        var next := Paginate(list, h, p, offset + |alerts|, reply.message, fuel - 1).value;
        PaginateContinuesOnFullPages(list, h, p, offset + |alerts|, reply.message, fuel - 1);
        assert run.sent == [q] + next.sent;
        forall k | 0 <= k < |run.sent| - 1
          ensures ReplyTo(list, run.sent, k).Page?
          ensures PageAlerts(ReplyTo(list, run.sent, k)) != []
          ensures |PageAlerts(ReplyTo(list, run.sent, k))| >= PageLimit(p)
        {
          if k == 0 {
            assert ReplyTo(list, run.sent, k) == reply;
          } else {
            assert ReplyTo(list, run.sent, k) == ReplyTo(list, next.sent, k - 1);
          }
        }
      }
    }
  }

  /** The last reply decides the result: a failure makes the run fail with the reason of
      lines 74-83 (the previous reply's `message` standing in after a transport failure),
      and otherwise the last page is empty, missing or short and the run succeeds. */
  lemma {:induction false} PaginateEndsAtLastReply(list: Request -> PageReply, h: map<string, string>,
                                                   p: Object, offset: nat, last: Option<Json>, fuel: nat)
    requires HasNumericLimit(p)
    requires Paginate(list, h, p, offset, last, fuel).Some?
    ensures var run := Paginate(list, h, p, offset, last, fuel).value;
            var n := |run.sent|;
            && n > 0
            && (n > 1 ==> ReplyTo(list, run.sent, n - 2).Page?)
            && (run.result.Failure? <==> !ReplyTo(list, run.sent, n - 1).Page?)
            && (run.result.Failure? ==>
                  run.result.error.reason ==
                    ErrorReason(ReplyTo(list, run.sent, n - 1),
                                if n == 1 then last else ReplyTo(list, run.sent, n - 2).message))
            && (run.result.Success? ==>
                  PageAlerts(ReplyTo(list, run.sent, n - 1)) == [] ||
                  |PageAlerts(ReplyTo(list, run.sent, n - 1))| < PageLimit(p))
    decreases fuel
  {
    PaginateStep(list, h, p, offset, last, fuel);
    var run := Paginate(list, h, p, offset, last, fuel).value;
    var q := PageRequest(h, p, offset);
    var reply := list(q);
    if reply.Page? {
      var alerts := PageAlerts(reply);
      if !(alerts == [] || |alerts| < PageLimit(p)) {
        var next := Paginate(list, h, p, offset + |alerts|, reply.message, fuel - 1).value;
        PaginateEndsAtLastReply(list, h, p, offset + |alerts|, reply.message, fuel - 1);
        assert run.sent == [q] + next.sent;
        if |next.sent| == 1 {
          assert run.sent[|run.sent| - 2] == q;
        } else {
          assert run.sent[|run.sent| - 2] == next.sent[|next.sent| - 2];
        }
        assert run.sent[|run.sent| - 1] == next.sent[|next.sent| - 1];
        if run.result.Failure? {
          assert next.result.Failure?;
        }
      }
    }
  }

  /** The part of `store` a well-behaved server returns for a page at `offset`. */
  function Slice(store: seq<Object>, offset: nat, limit: nat): seq<Object> {
    if offset >= |store| then []
    else if offset + limit >= |store| then store[offset..]
    else store[offset..offset + limit]
  }

  /** The server answers every page request with the matching slice of a finite store. */
  ghost predicate ServesStore(list: Request -> PageReply, h: map<string, string>, p: Object, store: seq<Object>)
    requires HasNumericLimit(p)
  {
    && PageLimit(p) > 0
    && forall offset: nat {:trigger Slice(store, offset, PageLimit(p))} ::
         list(PageRequest(h, p, offset)).Page? &&
         PageAlerts(list(PageRequest(h, p, offset))) == Slice(store, offset, PageLimit(p))
  }

  /** The store server's reply to the page request at `offset`. */
  lemma StorePage(list: Request -> PageReply, h: map<string, string>, p: Object, store: seq<Object>, offset: nat)
    requires HasNumericLimit(p)
    requires ServesStore(list, h, p, store)
    ensures list(PageRequest(h, p, offset)).Page?
    ensures PageAlerts(list(PageRequest(h, p, offset))) == Slice(store, offset, PageLimit(p))
  {
  }

  /** `n` pages of `k` alerts. */
  function Times(n: nat, k: nat): nat {
    if n == 0 then 0 else Times(n - 1, k) + k
  }

  lemma {:induction false} TimesIsProduct(n: nat, k: nat)
    ensures Times(n, k) == n * k
  {
    if n > 0 {
      TimesIsProduct(n - 1, k);
    }
  }

  /** With fewer than `limit` alerts left, the store server's next page ends the loop
      with the rest of the store. */
  lemma StoreLastPage(list: Request -> PageReply, h: map<string, string>, p: Object,
                      store: seq<Object>, offset: nat, last: Option<Json>, fuel: nat)
    requires HasNumericLimit(p)
    requires ServesStore(list, h, p, store)
    requires offset <= |store| < offset + PageLimit(p)
    requires fuel > 0
    ensures Paginate(list, h, p, offset, last, fuel) == Some(Run(Success(store[offset..]), [PageRequest(h, p, offset)]))
  {
    StorePage(list, h, p, store, offset);
    assert Slice(store, offset, PageLimit(p)) == store[offset..];
  }

  /** With at least `limit` alerts left, the store server's next page is full and the
      loop goes on at the next offset. */
  lemma StoreFullPage(list: Request -> PageReply, h: map<string, string>, p: Object,
                      store: seq<Object>, offset: nat, last: Option<Json>, fuel: nat)
    requires HasNumericLimit(p)
    requires ServesStore(list, h, p, store)
    requires offset + PageLimit(p) <= |store|
    requires fuel > 0
    ensures list(PageRequest(h, p, offset)).Page?
    ensures var q := PageRequest(h, p, offset);
            var next := Paginate(list, h, p, offset + PageLimit(p), list(q).message, fuel - 1);
            Paginate(list, h, p, offset, last, fuel) ==
              if next.None? then None
              else Some(Run(Prepend(store[offset..offset + PageLimit(p)], next.value.result), [q] + next.value.sent))
  {
    StorePage(list, h, p, store, offset);
    var alerts := PageAlerts(list(PageRequest(h, p, offset)));
    assert alerts == store[offset..offset + PageLimit(p)];
    assert |alerts| == PageLimit(p) > 0;
  }

  /** From any offset inside the store, a store server lets the loop finish within
      `pages + 1` requests, where `pages` is the number of full pages left, and collect
      exactly the rest of the store. */
  lemma {:induction false} StoreRunResult(list: Request -> PageReply, h: map<string, string>, p: Object,
                                          store: seq<Object>, offset: nat, last: Option<Json>, fuel: nat,
                                          pages: nat, remainder: nat)
    requires HasNumericLimit(p)
    requires ServesStore(list, h, p, store)
    requires offset <= |store|
    requires |store| - offset == Times(pages, PageLimit(p)) + remainder && remainder < PageLimit(p)
    requires fuel > pages
    ensures Paginate(list, h, p, offset, last, fuel).Some?
    ensures Paginate(list, h, p, offset, last, fuel).value.result == Success(store[offset..])
    decreases fuel
  {
    var limit := PageLimit(p);
    if pages == 0 {
      StoreLastPage(list, h, p, store, offset, last, fuel);
    } else {
      var q := PageRequest(h, p, offset);
      assert Times(pages, limit) == Times(pages - 1, limit) + limit;
      assert offset + limit <= |store|;
      StoreFullPage(list, h, p, store, offset, last, fuel);
      StoreRunResult(list, h, p, store, offset + limit, list(q).message, fuel - 1, pages - 1, remainder);
      assert store[offset..offset + limit] + store[offset + limit..] == store[offset..];
    }
  }

  /** The requests of a store run from `offset` with `pages` full pages left: one per
      page, `limit` apart. */
  function StoreRequests(h: map<string, string>, p: Object, offset: nat, limit: nat, pages: nat): seq<Request>
    decreases pages
  {
    [PageRequest(h, p, offset)] + if pages == 0 then [] else StoreRequests(h, p, offset + limit, limit, pages - 1)
  }

  /** There are `pages + 1` of them, and the last asks for offset `offset + pages * limit`. */
  lemma {:induction false} StoreRequestsEnd(h: map<string, string>, p: Object, offset: nat, limit: nat, pages: nat)
    ensures var sent := StoreRequests(h, p, offset, limit, pages);
            |sent| == pages + 1 && sent[pages] == PageRequest(h, p, offset + Times(pages, limit))
    decreases pages
  {
    if pages > 0 {
      StoreRequestsEnd(h, p, offset + limit, limit, pages - 1);
      assert Times(pages, limit) == Times(pages - 1, limit) + limit;
    }
  }

  /** The same run sends exactly those requests. */
  lemma {:induction false} StoreRunRequests(list: Request -> PageReply, h: map<string, string>, p: Object,
                                            store: seq<Object>, offset: nat, last: Option<Json>, fuel: nat,
                                            pages: nat, remainder: nat)
    requires HasNumericLimit(p)
    requires ServesStore(list, h, p, store)
    requires offset <= |store|
    requires |store| - offset == Times(pages, PageLimit(p)) + remainder && remainder < PageLimit(p)
    requires fuel > pages
    ensures Paginate(list, h, p, offset, last, fuel).Some?
    ensures Paginate(list, h, p, offset, last, fuel).value.sent == StoreRequests(h, p, offset, PageLimit(p), pages)
    decreases fuel
  {
    var limit := PageLimit(p);
    if pages == 0 {
      StoreLastPage(list, h, p, store, offset, last, fuel);
    } else {
      var q := PageRequest(h, p, offset);
      assert Times(pages, limit) == Times(pages - 1, limit) + limit;
      StoreFullPage(list, h, p, store, offset, last, fuel);
      StoreRunRequests(list, h, p, store, offset + limit, list(q).message, fuel - 1, pages - 1, remainder);
    }
  }

  /** A server that serves slices of a finite store lets `get_alerts` finish, and the
      result is the whole store: `limit` is a page size, never a cap. */
  lemma StoreIsFetchedWhole(list: Request -> PageReply, h: map<string, string>, p: Object, store: seq<Object>)
    requires HasNumericLimit(p)
    requires ServesStore(list, h, p, store)
    ensures Halts(list, h, p)
    ensures Outcome(list, h, p).result == Success(store)
    ensures |Outcome(list, h, p).sent| == |store| / PageLimit(p) + 1
  {
    var fuel := |store| / PageLimit(p) + 1;
    TimesIsProduct(|store| / PageLimit(p), PageLimit(p));
    StoreRunResult(list, h, p, store, 0, None, fuel, |store| / PageLimit(p), |store| % PageLimit(p));
    StoreRunRequests(list, h, p, store, 0, None, fuel, |store| / PageLimit(p), |store| % PageLimit(p));
    StoreRequestsEnd(h, p, 0, PageLimit(p), |store| / PageLimit(p));
    OutcomeIsAnyFinishedRun(list, h, p, fuel);
    assert store[0..] == store;
  }

  /** When the store size is a multiple of `limit`, the loop sends one extra request, at
      offset `|store|`, whose reply is an empty page. */
  lemma ExactMultipleCostsAnEmptyPage(list: Request -> PageReply, h: map<string, string>, p: Object,
                                      store: seq<Object>)
    requires HasNumericLimit(p)
    requires ServesStore(list, h, p, store)
    requires |store| % PageLimit(p) == 0
    ensures Halts(list, h, p)
    ensures var sent := Outcome(list, h, p).sent;
            && sent[|sent| - 1] == PageRequest(h, p, |store|)
            && list(sent[|sent| - 1]).Page?
            && PageAlerts(list(sent[|sent| - 1])) == []
  {
    var limit := PageLimit(p);
    var fuel := |store| / limit + 1;
    TimesIsProduct(|store| / limit, limit);
    StoreRunRequests(list, h, p, store, 0, None, fuel, |store| / limit, 0);
    StoreRequestsEnd(h, p, 0, limit, |store| / limit);
    OutcomeIsAnyFinishedRun(list, h, p, fuel);
    StorePage(list, h, p, store, |store|);
  }

  /** More alerts than `limit` in the store means a result longer than `limit`. */
  lemma ResultMayExceedLimit(list: Request -> PageReply, h: map<string, string>, p: Object, store: seq<Object>)
    requires HasNumericLimit(p)
    requires ServesStore(list, h, p, store)
    requires |store| > PageLimit(p)
    ensures Halts(list, h, p)
    ensures Outcome(list, h, p).result.Success?
    ensures |Outcome(list, h, p).result.value| > PageLimit(p)
  {
    StoreIsFetchedWhole(list, h, p, store);
  }

  /** A server that only ever sends full pages never lets the loop end: whatever the
      number of requests allowed, the run is still going. */
  lemma {:induction false} FullPagesNeverEnd(list: Request -> PageReply, h: map<string, string>, p: Object,
                                             offset: nat, last: Option<Json>, fuel: nat)
    requires HasNumericLimit(p)
    requires forall o: nat ::
               list(PageRequest(h, p, o)).Page? &&
               PageAlerts(list(PageRequest(h, p, o))) != [] &&
               |PageAlerts(list(PageRequest(h, p, o)))| >= PageLimit(p)
    ensures Paginate(list, h, p, offset, last, fuel).None?
    decreases fuel
  {
    if fuel > 0 {
      var reply := list(PageRequest(h, p, offset));
      FullPagesNeverEnd(list, h, p, offset + |PageAlerts(reply)|, reply.message, fuel - 1);
    }
  }

  lemma FullPagesDoNotHalt(list: Request -> PageReply, h: map<string, string>, p: Object)
    requires HasNumericLimit(p)
    requires forall o: nat ::
               list(PageRequest(h, p, o)).Page? &&
               PageAlerts(list(PageRequest(h, p, o))) != [] &&
               |PageAlerts(list(PageRequest(h, p, o)))| >= PageLimit(p)
    ensures !Halts(list, h, p)
  {
    forall fuel: nat
      ensures Paginate(list, h, p, 0, None, fuel).None?
    {
      FullPagesNeverEnd(list, h, p, 0, None, fuel);
    }
  }
}
