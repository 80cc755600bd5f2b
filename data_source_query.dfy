/** The `azresourcegraph_query` data source: building a Resource Graph query
    request from the data source's attributes, and running it page by page
    until the service stops handing out skip tokens. */
module DataSourceQuery {
  import opened Wrappers
  import opened Diagnostics

  /** One record of an object-array result, kept opaque as its JSON text. */
  datatype Row = Row(json: string)

  datatype ResultFormat = ObjectArray | Table

  /** The options of a request that the data source touches. */
  datatype QueryRequestOptions = QueryRequestOptions(resultFormat: ResultFormat, skipToken: Option<string>)

  /** A Resource Graph query request; `None` stands for a nil field. */
  datatype QueryRequest = QueryRequest(
    query: string,
    options: QueryRequestOptions,
    subscriptions: Option<seq<string>>,
    managementGroups: Option<seq<string>>)

  /** One page returned by the service: an optional row count, optional rows
      and an optional skip token; `None` stands for a nil pointer. */
  datatype QueryResponse = QueryResponse(count: Option<int>, data: Option<seq<Row>>, skipToken: Option<string>)

  /** What one remote `Resources` call yields: a page, or the SDK's error text. */
  type ServiceReply = Result<QueryResponse, string>

  const QUERY_FAILED_PREFIX := "query failed: "

  // ---------------------------------------------------------------------
  // Request construction
  // ---------------------------------------------------------------------

  /** The host's `GetOk` on a set attribute: an absent attribute and an empty
      set are both the zero value, so only a non-empty list is "ok". */
  predicate IsSet(ids: seq<string>) {
    |ids| > 0
  }

  /** Copies the list of a set attribute into a freshly made slice, slot by
      slot, as the read function does for both scope attributes. */
  method CollectIds(ids: seq<string>) returns (slice: seq<string>)
    ensures |slice| == |ids|
    ensures forall i :: 0 <= i < |ids| ==> slice[i] == ids[i]
  {
    var slots := new string[|ids|];
    for i := 0 to |ids|
      invariant forall j :: 0 <= j < i ==> slots[j] == ids[j]
    {
      slots[i] := ids[i];
    }
    slice := slots[..];
  }

  /** Builds the first request of a query. `subscriptionIds` and
      `managementGroupIds` are the lists of the two set attributes (empty when
      the attribute is not configured). Nothing here rejects both being set:
      that exclusion belongs to the schema, not to the read function. */
  method BuildRequest(query: string, subscriptionIds: seq<string>, managementGroupIds: seq<string>)
    returns (request: QueryRequest)
    ensures request.query == query
    ensures request.options == QueryRequestOptions(ObjectArray, None)
    ensures request.subscriptions.Some? <==> IsSet(subscriptionIds)
    ensures request.subscriptions.Some? ==>
      |request.subscriptions.value| == |subscriptionIds| &&
      forall i :: 0 <= i < |subscriptionIds| ==> request.subscriptions.value[i] == subscriptionIds[i]
    ensures request.managementGroups.Some? <==> IsSet(managementGroupIds)
    ensures request.managementGroups.Some? ==>
      |request.managementGroups.value| == |managementGroupIds| &&
      forall i :: 0 <= i < |managementGroupIds| ==> request.managementGroups.value[i] == managementGroupIds[i]
  {
    request := QueryRequest(query, QueryRequestOptions(ObjectArray, None), None, None);
    if IsSet(subscriptionIds) {
      var subs := CollectIds(subscriptionIds);
      request := request.(subscriptions := Some(subs));
    }
    if IsSet(managementGroupIds) {
      var grps := CollectIds(managementGroupIds);
      request := request.(managementGroups := Some(grps));
    }
  }

  // ---------------------------------------------------------------------
  // Specification of the pagination loop
  // ---------------------------------------------------------------------

  /** A page adds its rows only when its count is present and positive and
      its data is present; the count is a gate, not a length. */
  predicate Contributes(page: QueryResponse) {
    page.count.Some? && page.count.value > 0 && page.data.Some?
  }

  /** The rows one reply adds to the aggregate. */
  function Contribution(reply: ServiceReply): seq<Row> {
    if reply.Ok? && Contributes(reply.value) then reply.value.data.value else []
  }

  /** The rows of a run of replies, concatenated in fetch order. */
  function Collected(replies: seq<ServiceReply>): seq<Row>
    decreases |replies|
  {
    if replies == [] then []
    else Collected(replies[..|replies| - 1]) + Contribution(replies[|replies| - 1])
  }

  /** A reply ends the loop: an error, or a page without a skip token. */
  predicate Stops(reply: ServiceReply) {
    reply.Err? || reply.value.skipToken.None?
  }

  /** The assumption under which the loop ends at all: the service eventually
      fails or returns a page without a skip token. */
  predicate EventuallyStops(service: seq<ServiceReply>) {
    exists k :: 0 <= k < |service| && Stops(service[k])
  }

  /** The position of the reply that ends the loop. */
  ghost function FirstStop(service: seq<ServiceReply>): (k: nat)
    requires EventuallyStops(service)
    ensures k < |service| && Stops(service[k])
    ensures forall j :: 0 <= j < k ==> !Stops(service[j])
    decreases |service|
  {
    if Stops(service[0]) then 0
    else
      var w :| 0 <= w < |service| && Stops(service[w]);
      assert Stops(service[1..][w - 1]);
      1 + FirstStop(service[1..])
  }

  /** Two requests agree on everything but the skip token. */
  predicate SameQuery(a: QueryRequest, b: QueryRequest) {
    a.query == b.query &&
    a.options.resultFormat == b.options.resultFormat &&
    a.subscriptions == b.subscriptions &&
    a.managementGroups == b.managementGroups
  }

  // ---------------------------------------------------------------------
  // The pagination loop
  // ---------------------------------------------------------------------

  /** Runs `request` against the service, following skip tokens. The i-th
      remote call is answered by `service[i]`; `calls` is the list of requests
      actually sent, in order. */
  method DoResourceQuery(request: QueryRequest, service: seq<ServiceReply>)
    returns (outcome: Result<seq<Row>, string>, calls: seq<QueryRequest>)
    requires EventuallyStops(service)
    ensures |calls| == FirstStop(service) + 1
    ensures calls[0] == request
    ensures forall i :: 0 <= i < |calls| ==> SameQuery(calls[i], request)
    ensures forall i :: 0 < i < |calls| ==>
      service[i - 1].Ok? && calls[i].options.skipToken == service[i - 1].value.skipToken
    ensures service[|calls| - 1].Err? ==> outcome == Err(QUERY_FAILED_PREFIX + service[|calls| - 1].error)
    ensures service[|calls| - 1].Ok? ==> outcome == Ok(Collected(service[..|calls|]))
  {
    var results: seq<Row> := [];
    var current := request;
    var n := 0;
    calls := [];
    ghost var last := FirstStop(service);
    while true
      invariant 0 <= n <= last && |calls| == n
      invariant forall i :: 0 <= i < n ==> SameQuery(calls[i], request)
      invariant forall i :: 0 < i < n ==>
        service[i - 1].Ok? && calls[i].options.skipToken == service[i - 1].value.skipToken
      invariant n == 0 ==> current == request
      invariant SameQuery(current, request)
      invariant n > 0 ==> service[n - 1].Ok? && current.options.skipToken == service[n - 1].value.skipToken
      invariant n > 0 ==> calls[0] == request
      invariant results == Collected(service[..n])
      decreases last - n
    {
      var reply := service[n];
      calls := calls + [current];
      if reply.Err? {
        return Err(QUERY_FAILED_PREFIX + reply.error), calls;
      }
      assert service[..n + 1][..n] == service[..n];
      if Contributes(reply.value) {
        results := results + reply.value.data.value;
      }
      assert results == Collected(service[..n + 1]);
      if reply.value.skipToken.None? {
        break;
      }
      current := current.(options := current.options.(skipToken := reply.value.skipToken));
      n := n + 1;
    }
    outcome := Ok(results);
  }

  /** The read function up to the point where the aggregate is serialised:
      build the request, run it, and turn a failure into one error diagnostic. */
  method ReadQuery(query: string, subscriptionIds: seq<string>, managementGroupIds: seq<string>,
                   service: seq<ServiceReply>)
    returns (outcome: Result<seq<Row>, seq<Diagnostic>>, calls: seq<QueryRequest>)
    requires EventuallyStops(service)
    ensures |calls| == FirstStop(service) + 1
    ensures calls[0].options.skipToken == None
    ensures forall i :: 0 < i < |calls| ==>
      service[i - 1].Ok? && calls[i].options.skipToken == service[i - 1].value.skipToken
    ensures forall i :: 0 <= i < |calls| ==>
      calls[i].query == query && calls[i].options.resultFormat == ObjectArray &&
      calls[i].subscriptions == (if IsSet(subscriptionIds) then Some(subscriptionIds) else None) &&
      calls[i].managementGroups == (if IsSet(managementGroupIds) then Some(managementGroupIds) else None)
    ensures service[|calls| - 1].Err? ==>
      outcome == Err([Diagnostic(Error, QUERY_FAILED_PREFIX + service[|calls| - 1].error)])
    ensures service[|calls| - 1].Ok? ==> outcome == Ok(Collected(service[..|calls|]))
  {
    var request := BuildRequest(query, subscriptionIds, managementGroupIds);
    assert request.subscriptions.Some? ==> request.subscriptions.value == subscriptionIds;
    assert request.managementGroups.Some? ==> request.managementGroups.value == managementGroupIds;
    var data;
    data, calls := DoResourceQuery(request, service);
    match data
    case Err(message) => outcome := Err([Diagnostic(Error, message)]);
    case Ok(rows) => outcome := Ok(rows);
  }

  // ---------------------------------------------------------------------
  // Properties of the aggregate
  // ---------------------------------------------------------------------

  /** Aggregating two runs of replies back to back is aggregating each and
      concatenating: rows keep their fetch order across pages. */
  lemma {:induction false} CollectedAppend(a: seq<ServiceReply>, b: seq<ServiceReply>)
    ensures Collected(a + b) == Collected(a) + Collected(b)
    decreases |b|
  {
    if b == [] {
      assert a + b == a;
    } else {
      var ab, front, last := a + b, b[..|b| - 1], b[|b| - 1];
      assert ab[..|ab| - 1] == a + front;
      assert ab[|ab| - 1] == last;
      CollectedAppend(a, front);
      calc {
        Collected(ab);
        Collected(a + front) + Contribution(last);
        Collected(a) + Collected(front) + Contribution(last);
        Collected(a) + (Collected(front) + Contribution(last));
      }
    }
  }

  /** A row is in the aggregate exactly when some contributing reply holds it. */
  lemma {:induction false} CollectedMembership(replies: seq<ServiceReply>, row: Row)
    ensures row in Collected(replies) <==>
      exists i :: 0 <= i < |replies| && row in Contribution(replies[i])
    decreases |replies|
  {
    if replies != [] {
      var front := replies[..|replies| - 1];
      CollectedMembership(front, row);
      if row in Collected(replies) && row !in Contribution(replies[|replies| - 1]) {
        var i :| 0 <= i < |front| && row in Contribution(front[i]);
        assert replies[i] == front[i];
      }
      if exists i :: 0 <= i < |replies| && row in Contribution(replies[i]) {
        var i :| 0 <= i < |replies| && row in Contribution(replies[i]);
        if i < |front| {
          assert front[i] == replies[i];
        }
      }
    }
  }

  /** Replies that contribute nothing (a nil or non-positive count, nil data,
      or an error) leave the aggregate unchanged. */
  lemma {:induction false} SilentRepliesAddNothing(a: seq<ServiceReply>, b: seq<ServiceReply>)
    requires forall i :: 0 <= i < |b| ==> Contribution(b[i]) == []
    ensures Collected(a + b) == Collected(a)
    decreases |b|
  {
    if b == [] {
      assert a + b == a;
    } else {
      var front := b[..|b| - 1];
      assert (a + b)[..|a + b| - 1] == a + front;
      SilentRepliesAddNothing(a, front);
    }
  }

  /** Replies after the one that ends the loop are never asked for. */
  lemma {:induction false} FirstStopIgnoresLaterReplies(a: seq<ServiceReply>, b: seq<ServiceReply>)
    requires EventuallyStops(a)
    ensures EventuallyStops(a + b)
    ensures FirstStop(a + b) == FirstStop(a)
  {
    var k := FirstStop(a);
    assert (a + b)[k] == a[k];
  }

  /** The rows of the two-page example, in the order the service returns them. */
  const EXAMPLE_ROWS: seq<Row> := [Row("{\"id\":\"r1\"}"), Row("{\"id\":\"r2\"}"), Row("{\"id\":\"r3\"}")]

  /** A service answering with a page of two rows and token "tok1", then a
      tokenless page of one row. */
  function TwoPageService(): seq<ServiceReply> {
    [Ok(QueryResponse(Some(2), Some(EXAMPLE_ROWS[..2]), Some("tok1"))),
     Ok(QueryResponse(Some(1), Some(EXAMPLE_ROWS[2..]), None))]
  }

  /** The two-page example stops after the second call and yields the three
      rows in order. */
  lemma TwoPageExample()
    ensures EventuallyStops(TwoPageService()) && FirstStop(TwoPageService()) == 1
    ensures Collected(TwoPageService()[..2]) == EXAMPLE_ROWS
  {
    var service := TwoPageService();
    assert Stops(service[1]);
    assert service[..2] == service;
    assert service[..1] == [service[0]];
    assert Collected([service[0]]) == EXAMPLE_ROWS[..2] by {
      assert [service[0]][..0] == [];
    }
    assert EXAMPLE_ROWS[..2] + EXAMPLE_ROWS[2..] == EXAMPLE_ROWS;
  }

  /** What a caller can conclude from the contracts alone: the two-page run,
      and the same run failing on its second call. */
  method PaginationScenarios()
  {
    var service := TwoPageService();
    TwoPageExample();
    var outcome, calls := ReadQuery("Resources | project id", [], [], service);
    assert |calls| == 2;
    assert calls[1].options.skipToken == Some("tok1");
    assert calls[0].subscriptions == None && calls[0].managementGroups == None;
    assert outcome == Ok(EXAMPLE_ROWS);

    var failing: seq<ServiceReply> := [service[0], Err("transport error")];
    assert !Stops(failing[0]) && Stops(failing[1]);
    outcome, calls := ReadQuery("Resources | project id", [], [], failing);
    assert |calls| == 2;
    assert QUERY_FAILED_PREFIX + "transport error" == "query failed: transport error";
    assert outcome == Err([Diagnostic(Error, "query failed: transport error")]);

    outcome, calls := ReadQuery("Resources | project id", ["s1", "s2"], [], service);
    assert calls[0].subscriptions == Some(["s1", "s2"]) && calls[0].managementGroups == None;
  }
}
