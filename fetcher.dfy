/** The security-event fetcher (py42/tools/security_event_fetcher.py): choosing
    a storage location per plan, the node-guid-to-URL cache, the cursor choice
    for each fetch, and the handling of each page of events.

    The SDK's asynchronous calls are modelled as follows: a fetch that
    get_security_events dispatches is appended to `outstanding`; its answer
    arrives later through DeliverPage (the `then` callback) or DeliverFailure
    (the `catch` callback). Every call made on a collaborator (SDK or handler
    object) is appended to `calls`. */
module EventFetcher {
  import opened Wrappers
  import opened Topology

  type Url = string
  type Cursor = string

  datatype User = User(userUid: string)

  /** The plan argument of a fetch: a plan uid from a candidate, the list that
      parse_qs gives for the `planUid` query parameter, or None when the query
      has none. */
  datatype PlanRef = PlanUidRef(uid: PlanUid) | QueryValues(values: seq<string>) | NoPlan

  /** The pluggable handler object. Its two other operations,
      process_security_event_response and record_cursor_position, act only
      through their calls, which the log records. */
  datatype Handlers = Handlers(
    shouldProcessUser: User -> bool,
    startingCursor: (PlanRef, User) -> Option<Cursor>)

  /** CustomSecurityEventFetcherHandlers: accept every user, no saved cursor. */
  const DefaultHandlers := Handlers(u => true, (p, u) => None)

  /** The arguments of one get_security_detection_events call, together with
      the list its `catch` continuation captured. */
  datatype Request = Request(
    url: Url,
    plan: PlanRef,
    user: User,
    cursor: Option<Cursor>,
    minTimestamp: Option<int>,
    includeFiles: bool,
    remaining: Option<seq<Candidate>>)

  /** The parts of `response.request.url` the page handler uses. */
  datatype RequestUrl = RequestUrl(scheme: string, netloc: string, query: map<string, seq<string>>)

  /** A page of security events: its raw content (empty when caught up), the
      `cursor` member of its body, and the URL the request was sent to. */
  datatype PageResponse = PageResponse(content: string, cursor: Option<Cursor>, requestUrl: RequestUrl)

  /** A call on a collaborator. RecordCursor keeps its three positional
      arguments under the names of the parameters of
      record_cursor_position(cursor, plan_uid, user) they bind to: the page
      handler passes (plan uid list, user, cursor) in that order. */
  datatype Call =
    | LookupLocations(userUid: string)
    | ResolveStorage(planUid: PlanUid, destinationGuid: Guid, hostAddress: Option<Url>)
    | FetchEvents(request: Request)
    | ProcessResponse(response: PageResponse, user: User)
    | RecordCursor(cursorParam: PlanRef, planUidParam: User, userParam: Cursor)

  /** Where an exception was wrapped and re-raised. */
  datatype Site = LocationResponses | StorageClients | SecurityEvents | EventResponses

  datatype Error =
    | TopologyFault(fault: Fault)
    | ResolutionFailed
    | Wrapped(site: Site, cause: Error)

  predicate Truthy(s: Option<string>)
  {
    s.Some? && s.value != ""
  }

  function Last<T>(s: seq<T>): T
    requires s != []
  {
    s[|s| - 1]
  }

  /** `s` without its element at index `k`. */
  function Without<T>(s: seq<T>, k: nat): (r: seq<T>)
    requires k < |s|
    ensures |r| == |s| - 1
    ensures multiset(r) == multiset(s) - multiset{s[k]}
  {
    assert s == s[..k] + [s[k]] + s[k + 1..];
    s[..k] + s[k + 1..]
  }

  /** Python's list.remove: drop the first element equal to `x`. */
  function RemoveFirst<T(==)>(s: seq<T>, x: T): (r: seq<T>)
    requires x in s
    ensures |r| == |s| - 1
    ensures multiset(r) == multiset(s) - multiset{x}
    ensures s[0] == x ==> r == s[1..]
  {
    assert s == [s[0]] + s[1..];
    if s[0] == x then s[1..]
    else [s[0]] + RemoveFirst(s[1..], x)
  }

  /** The URL the cache offers for a candidate: only a candidate with a node
      guid consults the cache, and only a non-empty entry counts. */
  function CachedUrl(cache: map<Option<Guid>, Url>, c: Candidate): (r: Option<Url>)
    ensures r.Some? ==> c.nodeGuid.Present? && Some(c.nodeGuid.value) in cache
                        && r.value == cache[Some(c.nodeGuid.value)] && r.value != ""
    ensures c.nodeGuid.Present? && Some(c.nodeGuid.value) in cache && cache[Some(c.nodeGuid.value)] != "" ==> r.Some?
  {
    var nodeGuid := GetOrNone(c.nodeGuid);
    if nodeGuid.Some? && nodeGuid in cache && cache[nodeGuid] != "" then Some(cache[nodeGuid]) else None
  }

  /** The request get_security_events dispatches: an explicit cursor wins,
      then the handler's starting cursor; only when both are None is the
      configured floor sent as the minimum timestamp. */
  function DispatchedRequest(handlers: Handlers, floor: Option<int>, url: Url, plan: PlanRef, user: User,
                             cursor: Option<Cursor>, remaining: Option<seq<Candidate>>): (r: Request)
    ensures r.includeFiles
    ensures r.url == url && r.plan == plan && r.user == user && r.remaining == remaining
    ensures cursor.Some? ==> r.cursor == cursor && r.minTimestamp == None
    ensures cursor.None? ==> r.cursor == handlers.startingCursor(plan, user)
    ensures r.cursor.None? ==> r.minTimestamp == floor
    ensures r.cursor.Some? ==> r.minTimestamp.None?
  {
    var start := if cursor.Some? then cursor else handlers.startingCursor(plan, user);
    Request(url, plan, user, start, if start.None? then floor else None, true, remaining)
  }

  /** `scheme://netloc` of the URL a page was fetched from. */
  function StorageUrlOf(u: RequestUrl): (r: Url)
    ensures |r| == |u.scheme| + 3 + |u.netloc|
    ensures r[..|u.scheme|] == u.scheme
    ensures r[|u.scheme|..|u.scheme| + 3] == "://"
    ensures r[|u.scheme| + 3..] == u.netloc
  {
    u.scheme + "://" + u.netloc
  }

  /** parse_qs(query).get("planUid", None). */
  function QueryPlan(u: RequestUrl): (r: PlanRef)
    ensures r.QueryValues? <==> "planUid" in u.query
    ensures r.QueryValues? ==> r.values == u.query["planUid"]
  {
    if "planUid" in u.query then QueryValues(u.query["planUid"]) else NoPlan
  }

  /** The handler calls a page triggers: none for an empty page; otherwise
      the process call, then, when the page's cursor is truthy, the cursor
      record. */
  function PageCalls(response: PageResponse, user: User): (r: seq<Call>)
    ensures response.content == "" <==> r == []
    ensures r != [] ==> r[0] == ProcessResponse(response, user)
    ensures |r| == 2 <==> response.content != "" && Truthy(response.cursor)
    ensures |r| == 2 ==> r[1] == RecordCursor(QueryPlan(response.requestUrl), user, response.cursor.value)
  {
    if response.content == "" then []
    else
      [ProcessResponse(response, user)] +
      if Truthy(response.cursor)
      then [RecordCursor(QueryPlan(response.requestUrl), user, response.cursor.value)]
      else []
  }

  /** The next fetch a page triggers: only a non-empty page with a truthy
      cursor continues, from that cursor, at `scheme://netloc` of the page's
      request, and with no list of remaining locations. */
  function FollowUp(response: PageResponse, user: User): (r: Option<Request>)
    ensures r.Some? <==> response.content != "" && Truthy(response.cursor)
    ensures r.Some? ==> r.value.cursor == response.cursor && r.value.minTimestamp.None?
                        && r.value.remaining.None? && r.value.includeFiles && r.value.user == user
                        && r.value.url == StorageUrlOf(response.requestUrl)
                        && r.value.plan == QueryPlan(response.requestUrl)
  {
    if response.content != "" && Truthy(response.cursor)
    then Some(Request(StorageUrlOf(response.requestUrl), QueryPlan(response.requestUrl), user,
                      response.cursor, None, true, None))
    else None
  }

  function FetchesOf(next: Option<Request>): seq<Call>
  {
    if next.Some? then [FetchEvents(next.value)] else []
  }

  /** The calls of one pagination chain whose successive requests are
      answered by `pages`; the chain ends at the first page without a
      follow-up fetch. */
  function ChainCalls(pages: seq<PageResponse>, user: User): (r: seq<Call>)
    ensures forall c :: c in r ==> c.ProcessResponse? || c.RecordCursor? || c.FetchEvents?
    ensures r == [] <==> pages == [] || pages[0].content == ""
  {
    if pages == [] then []
    else
      PageCalls(pages[0], user) +
      match FollowUp(pages[0], user)
      case None => []
      case Some(next) => [FetchEvents(next)] + ChainCalls(pages[1..], user)
  }

  /** Number of pages a chain consumes: up to and including the first page
      without a follow-up. */
  function Consumed(pages: seq<PageResponse>, user: User): (n: nat)
    ensures n <= |pages|
    ensures pages != [] ==> n > 0
    ensures forall i :: 0 <= i < n - 1 ==> FollowUp(pages[i], user).Some?
    ensures 0 < n < |pages| ==> FollowUp(pages[n - 1], user).None?
  {
    if pages == [] then 0
    else if FollowUp(pages[0], user).None? then 1
    else 1 + Consumed(pages[1..], user)
  }

  /** One page of a chain, seen from anywhere along the chain. */
  lemma ChainStep(pages: seq<PageResponse>, user: User, i: nat)
    requires i < |pages|
    ensures ChainCalls(pages[i..], user) ==
      PageCalls(pages[i], user) + FetchesOf(FollowUp(pages[i], user))
      + (if FollowUp(pages[i], user).Some? then ChainCalls(pages[i + 1..], user) else [])
  {
    assert pages[i..][1..] == pages[i + 1..];
  }

  /** A page with a follow-up moves the rest of the chain one page on. */
  lemma ChainAdvance(pages: seq<PageResponse>, user: User, i: nat, prefix: seq<Call>, next: seq<Call>)
    requires i < |pages| && FollowUp(pages[i], user).Some?
    requires next == prefix + PageCalls(pages[i], user) + FetchesOf(FollowUp(pages[i], user))
    ensures next + ChainCalls(pages[i + 1..], user) == prefix + ChainCalls(pages[i..], user)
  {
    var page, fetch, rest := PageCalls(pages[i], user), FetchesOf(FollowUp(pages[i], user)), ChainCalls(pages[i + 1..], user);
    ChainStep(pages, user, i);
    assert ChainCalls(pages[i..], user) == page + fetch + rest;
    calc {
      next + rest;
      (prefix + page + fetch) + rest;
      prefix + (page + fetch + rest);
    }
  }

  /** The last page a chain consumes completes it. */
  lemma ChainFinish(pages: seq<PageResponse>, user: User, i: nat, prefix: seq<Call>, next: seq<Call>)
    requires i < |pages| && (FollowUp(pages[i], user).None? || i + 1 == |pages|)
    requires next == prefix + PageCalls(pages[i], user) + FetchesOf(FollowUp(pages[i], user))
    ensures next == prefix + ChainCalls(pages[i..], user)
  {
    ChainStep(pages, user, i);
    assert FollowUp(pages[i], user).Some? ==> pages[i + 1..] == [];
  }

  /** Cursor persistence happens before the next request: in a chain, every
      fetch is directly preceded by the record of the cursor it starts from. */
  lemma {:induction false} ChainRecordsBeforeFetch(pages: seq<PageResponse>, user: User, i: nat)
    requires i < |ChainCalls(pages, user)| && ChainCalls(pages, user)[i].FetchEvents?
    ensures i > 0 && ChainCalls(pages, user)[i - 1].RecordCursor?
    ensures Some(ChainCalls(pages, user)[i - 1].userParam) == ChainCalls(pages, user)[i].request.cursor
    decreases |pages|
  {
    var head := PageCalls(pages[0], user);
    var next := FollowUp(pages[0], user);
    var calls := ChainCalls(pages, user);
    assert next.Some?;
    assert calls == head + [FetchEvents(next.value)] + ChainCalls(pages[1..], user);
    if i > |head| {
      ChainRecordsBeforeFetch(pages[1..], user, i - |head| - 1);
    }
  }

  /** The pages handed to the process handler, in call order. */
  function Processed(calls: seq<Call>): seq<PageResponse>
  {
    if calls == [] then []
    else (if calls[0].ProcessResponse? then [calls[0].response] else []) + Processed(calls[1..])
  }

  lemma {:induction false} ProcessedAppend(a: seq<Call>, b: seq<Call>)
    ensures Processed(a + b) == Processed(a) + Processed(b)
    decreases |a|
  {
    if a != [] {
      assert (a + b)[1..] == a[1..] + b;
      ProcessedAppend(a[1..], b);
    } else {
      assert a + b == b;
    }
  }

  function NonEmptyPages(pages: seq<PageResponse>): seq<PageResponse>
  {
    if pages == [] then []
    else (if pages[0].content != "" then [pages[0]] else []) + NonEmptyPages(pages[1..])
  }

  lemma ProcessedPageCalls(p: PageResponse, user: User)
    ensures Processed(PageCalls(p, user)) == if p.content != "" then [p] else []
  {
    var head := PageCalls(p, user);
    if p.content != "" {
      if Truthy(p.cursor) {
        var rec := RecordCursor(QueryPlan(p.requestUrl), user, p.cursor.value);
        assert head == [ProcessResponse(p, user), rec];
        assert head[1..] == [rec];
        assert Processed([rec]) == [] + Processed([rec][1..]);
      } else {
        assert head == [ProcessResponse(p, user)];
      }
    }
  }

  lemma NonEmptyPagesCons(p: PageResponse, rest: seq<PageResponse>)
    ensures NonEmptyPages([p] + rest) == (if p.content != "" then [p] else []) + NonEmptyPages(rest)
  {
    assert ([p] + rest)[1..] == rest;
  }

  lemma ProcessedSkipsFetch(next: Request, tail: seq<Call>)
    ensures Processed([FetchEvents(next)] + tail) == Processed(tail)
  {
    assert ([FetchEvents(next)] + tail)[1..] == tail;
  }

  /** A page with a follow-up adds itself, when non-empty, in front of what
      the rest of the chain processes. */
  lemma {:induction false} ChainProcessesContinue(pages: seq<PageResponse>, user: User)
    requires pages != [] && FollowUp(pages[0], user).Some?
    requires Processed(ChainCalls(pages[1..], user)) == NonEmptyPages(pages[1..][..Consumed(pages[1..], user)])
    ensures Processed(ChainCalls(pages, user)) == NonEmptyPages(pages[..Consumed(pages, user)])
  {
    var p, next := pages[0], FollowUp(pages[0], user).value;
    var head, tail := PageCalls(p, user), ChainCalls(pages[1..], user);
    var c := Consumed(pages[1..], user);
    assert ChainCalls(pages, user) == head + ([FetchEvents(next)] + tail);
    assert Consumed(pages, user) == 1 + c;
    assert pages[..1 + c] == [p] + pages[1..][..c];
    calc {
      Processed(ChainCalls(pages, user));
      Processed(head + ([FetchEvents(next)] + tail));
      { ProcessedAppend(head, [FetchEvents(next)] + tail); }
      Processed(head) + Processed([FetchEvents(next)] + tail);
      { ProcessedPageCalls(p, user); ProcessedSkipsFetch(next, tail); }
      (if p.content != "" then [p] else []) + NonEmptyPages(pages[1..][..c]);
      { NonEmptyPagesCons(p, pages[1..][..c]); }
      NonEmptyPages([p] + pages[1..][..c]);
    }
  }

  /** The sink sees exactly the non-empty pages the chain consumes, in
      order: nothing after the first page that does not continue. */
  lemma {:induction false} ChainProcessesConsumedPages(pages: seq<PageResponse>, user: User)
    ensures Processed(ChainCalls(pages, user)) == NonEmptyPages(pages[..Consumed(pages, user)])
    decreases |pages|
  {
    if pages != [] {
      var p := pages[0];
      if FollowUp(p, user).None? {
        ProcessedPageCalls(p, user);
        assert ChainCalls(pages, user) == PageCalls(p, user) + [];
        assert pages[..1] == [p] + [];
        NonEmptyPagesCons(p, []);
      } else {
        ChainProcessesConsumedPages(pages[1..], user);
        ChainProcessesContinue(pages, user);
      }
    }
  }

  // ---------------------------------------------------------------------------
  // The fetcher object.

  /** The fetcher's mutable state: the node-guid cache, the call log and
      the requests in flight. */
  datatype Snapshot = Snapshot(cache: map<Option<Guid>, Url>, calls: seq<Call>, outstanding: seq<Request>)

  /** A successful selection of candidate `c` from `list`, taking the fetcher
      from `s` to `t`: the URL is the cached one when the cache holds a truthy
      entry for c's node guid, otherwise what one resolver call returned; the
      single new request targets c's plan with the starting cursor or the
      floor and keeps the list minus c for failover; the URL is written to the
      cache under c's node guid. */
  ghost predicate Selection(handlers: Handlers, floor: Option<int>, user: User, list: seq<Candidate>,
                            c: Candidate, s: Snapshot, t: Snapshot)
  {
    && c in list
    && |t.outstanding| == |s.outstanding| + 1
    && var req := Last(t.outstanding);
    && t.outstanding == s.outstanding + [req]
    && req == DispatchedRequest(handlers, floor, req.url, PlanUidRef(c.planUid), user, None, req.remaining)
    && req.remaining.Some?
    && multiset(req.remaining.value) == multiset(list) - multiset{c}
    && t.cache == (if c.nodeGuid.Present? then s.cache[Some(c.nodeGuid.value) := req.url] else s.cache)
    && (CachedUrl(s.cache, c).Some? ==>
          req.url == CachedUrl(s.cache, c).value && t.calls == s.calls + [FetchEvents(req)])
    && (CachedUrl(s.cache, c).None? ==>
          t.calls == s.calls + [ResolveStorage(c.planUid, c.destinationGuid, Some(req.url)), FetchEvents(req)])
  }

  /** A selection of `c` whose resolver call raised: it is the only call
      made, and nothing else changes. */
  ghost predicate ResolveFailure(c: Candidate, s: Snapshot, t: Snapshot)
  {
    && CachedUrl(s.cache, c).None?
    && t == Snapshot(s.cache, s.calls + [ResolveStorage(c.planUid, c.destinationGuid, None)], s.outstanding)
  }

  /** Selecting the last candidate of a list, with its URL cached, sends one
      fetch from that URL with nothing left for failover. */
  lemma CachedLastSelection(handlers: Handlers, floor: Option<int>, user: User, c: Candidate,
                            s: Snapshot, t: Snapshot, url: Url)
    requires Selection(handlers, floor, user, [c], c, s, t)
    requires CachedUrl(s.cache, c) == Some(url)
    ensures var req := DispatchedRequest(handlers, floor, url, PlanUidRef(c.planUid), user, None, Some([]));
      t.outstanding == s.outstanding + [req] && t.calls == s.calls + [FetchEvents(req)]
  {
    var req := Last(t.outstanding);
    assert |multiset(req.remaining.value)| == 0;
  }

  /** Selections for the plans `order[..|chosen|]`, one after the other:
      `chosen[i]` is taken from plan `order[i]`'s candidates, moving the
      fetcher from `states[i]` to `states[i + 1]`. */
  ghost predicate SelectionRun(handlers: Handlers, floor: Option<int>, user: User, plans: PlanDict,
                               order: seq<PlanUid>, chosen: seq<Candidate>, states: seq<Snapshot>)
  {
    && |chosen| <= |order|
    && |states| == |chosen| + 1
    && forall i :: 0 <= i < |chosen| ==>
         && order[i] in plans.lists
         && Selection(handlers, floor, user, plans.lists[order[i]], chosen[i], states[i], states[i + 1])
  }

  /** The loop over a plan dict: `order` is the order the dict is walked in
      (any ordering of its keys); on success every plan got a selection and
      the run ends in `final`; on failure the plans before the failing one got
      a selection, the failing one only its resolver call, and the rest nothing. */
  ghost predicate LocatedPlans(handlers: Handlers, floor: Option<int>, user: User, plans: PlanDict, failed: bool,
                               order: seq<PlanUid>, chosen: seq<Candidate>, states: seq<Snapshot>, final: Snapshot)
  {
    && |order| == |plans.keys|
    && multiset(order) == multiset(plans.keys)
    && SelectionRun(handlers, floor, user, plans, order, chosen, states)
    && (!failed ==> |chosen| == |order| && Last(states) == final)
    && (failed ==>
          && |chosen| < |order|
          && order[|chosen|] in plans.lists
          && exists c :: c in plans.lists[order[|chosen|]] && ResolveFailure(c, Last(states), final))
  }

  lemma RunExtend(handlers: Handlers, floor: Option<int>, user: User, plans: PlanDict,
                  order: seq<PlanUid>, chosen: seq<Candidate>, states: seq<Snapshot>, c: Candidate, t: Snapshot)
    requires SelectionRun(handlers, floor, user, plans, order, chosen, states)
    requires |chosen| < |order| && order[|chosen|] in plans.lists
    requires Selection(handlers, floor, user, plans.lists[order[|chosen|]], c, Last(states), t)
    ensures SelectionRun(handlers, floor, user, plans, order, chosen + [c], states + [t])
  {
    var chosen', states' := chosen + [c], states + [t];
    forall i | 0 <= i < |chosen'|
      ensures order[i] in plans.lists
      ensures Selection(handlers, floor, user, plans.lists[order[i]], chosen'[i], states'[i], states'[i + 1])
    {
      if i < |chosen| {
        assert chosen'[i] == chosen[i] && states'[i] == states[i] && states'[i + 1] == states[i + 1];
      } else {
        assert chosen'[i] == c && states'[i] == Last(states) && states'[i + 1] == t;
      }
    }
  }

  /** A run over a well-formed plan dict dispatches, after the requests
      already in flight, exactly one request per selected plan, in the walk
      order, each for that plan and user, and only ever adds cache keys. */
  lemma {:induction false} RunDispatches(handlers: Handlers, floor: Option<int>, user: User, plans: PlanDict,
                                         order: seq<PlanUid>, chosen: seq<Candidate>, states: seq<Snapshot>)
    requires ValidPlans(plans)
    requires SelectionRun(handlers, floor, user, plans, order, chosen, states)
    ensures var first, last := states[0].outstanding, Last(states).outstanding;
      && |last| == |first| + |chosen|
      && last[..|first|] == first
      && forall i :: 0 <= i < |chosen| ==>
           last[|first| + i].plan == PlanUidRef(order[i]) && last[|first| + i].user == user
    ensures states[0].cache.Keys <= Last(states).cache.Keys
    decreases |chosen|
  {
    if chosen != [] {
      var n := |chosen| - 1;
      assert SelectionRun(handlers, floor, user, plans, order, chosen[..n], states[..n + 1]) by {
        forall i | 0 <= i < n
          ensures order[i] in plans.lists
          ensures Selection(handlers, floor, user, plans.lists[order[i]], chosen[..n][i], states[..n + 1][i], states[..n + 1][i + 1])
        {
          assert chosen[..n][i] == chosen[i] && states[..n + 1][i] == states[i] && states[..n + 1][i + 1] == states[i + 1];
        }
      }
      RunDispatches(handlers, floor, user, plans, order, chosen[..n], states[..n + 1]);
      var mid, last := states[n].outstanding, states[n + 1].outstanding;
      var first := states[0].outstanding;
      assert states[..n + 1][0] == states[0] && Last(states[..n + 1]) == states[n];
      assert Selection(handlers, floor, user, plans.lists[order[n]], chosen[n], states[n], states[n + 1]);
      assert chosen[n].planUid == order[n];
      assert last == mid + [Last(last)];
      forall i | 0 <= i < |chosen|
        ensures last[|first| + i].plan == PlanUidRef(order[i]) && last[|first| + i].user == user
      {
        if i < n {
          assert last[|first| + i] == mid[|first| + i];
        }
      }
    }
  }

  class SecurityEventFetcher {
    const minTimestamp: Option<int>
    const handlers: Handlers
    /** `_guid_to_url_map`, keyed by the value of `node_guid` (None never
        becomes a key). */
    var guidToUrl: map<Option<Guid>, Url>
    /** Dispatched fetches whose callbacks have not run yet. */
    var outstanding: seq<Request>
    /** Calls made on the SDK and on the handler object, oldest first. */
    var calls: seq<Call>

    ghost predicate Valid()
      reads this
    {
      None !in guidToUrl
    }

    ghost function State(): Snapshot
      reads this
    {
      Snapshot(guidToUrl, calls, outstanding)
    }

    /** `custom_handlers or CustomSecurityEventFetcherHandlers()`. */
    constructor (minTimestamp: Option<int>, customHandlers: Option<Handlers>)
      ensures Valid()
      ensures this.minTimestamp == minTimestamp
      ensures handlers == if customHandlers.Some? then customHandlers.value else DefaultHandlers
      ensures guidToUrl == map[] && outstanding == [] && calls == []
    {
      this.minTimestamp := minTimestamp;
      handlers := if customHandlers.Some? then customHandlers.value else DefaultHandlers;
      guidToUrl := map[];
      outstanding := [];
      calls := [];
    }

    /** A user the handler accepts gets one location lookup; others none. */
    method GetUserLocations(user: User) returns (dispatched: bool)
      modifies this
      ensures dispatched == handlers.shouldProcessUser(user)
      ensures calls == old(calls) + if dispatched then [LookupLocations(user.userUid)] else []
      ensures guidToUrl == old(guidToUrl) && outstanding == old(outstanding)
    {
      dispatched := handlers.shouldProcessUser(user);
      if dispatched {
        calls := calls + [LookupLocations(user.userUid)];
      }
    }

    /** Caches `url` under a non-None node guid (overwriting any entry), then
        dispatches one fetch with the chosen cursor or floor. */
    method GetSecurityEvents(url: Url, plan: PlanRef, user: User, cursor: Option<Cursor>,
                             remaining: Option<seq<Candidate>>, nodeGuid: Option<Guid>)
      requires Valid()
      modifies this
      ensures Valid()
      ensures guidToUrl == if nodeGuid.Some? then old(guidToUrl)[nodeGuid := url] else old(guidToUrl)
      ensures outstanding == old(outstanding) + [DispatchedRequest(handlers, minTimestamp, url, plan, user, cursor, remaining)]
      ensures calls == old(calls) + [FetchEvents(DispatchedRequest(handlers, minTimestamp, url, plan, user, cursor, remaining))]
    {
      // `node_guid is not None not in map` chains to
      // `node_guid is not None and None not in map`.
      if nodeGuid != None && None !in guidToUrl {
        guidToUrl := guidToUrl[nodeGuid := url];
      }
      var minTs: Option<int> := None;
      var current := cursor;
      if current.None? {
        current := handlers.startingCursor(plan, user);
        if current.None? {
          minTs := minTimestamp;
        }
      }
      var request := Request(url, plan, user, current, minTs, true, remaining);
      outstanding := outstanding + [request];
      calls := calls + [FetchEvents(request)];
    }

    /** Chooses one candidate at random, takes its URL from the cache or the
        resolver, removes it from the list and fetches from it. */
    method LocateStorageClient(remaining: Option<seq<Candidate>>, user: User) returns (r: Outcome<Error>, chosen: Option<Candidate>)
      requires Valid()
      modifies this
      ensures Valid()
      ensures chosen.None? <==> remaining.None? || remaining.value == []
      ensures chosen.None? ==> r == Pass && unchanged(this)
      ensures chosen.Some? ==> chosen.value in remaining.value
      // A cached, non-empty URL is used without calling the resolver, so it cannot fail.
      ensures chosen.Some? && CachedUrl(old(guidToUrl), chosen.value).Some? ==> r == Pass
      ensures r.Pass? && chosen.Some? ==>
        Selection(handlers, minTimestamp, user, remaining.value, chosen.value, old(State()), State())
      // If the resolver raises, nothing is removed or dispatched and the error is wrapped.
      ensures r.Fail? ==>
        && r == Fail(Wrapped(StorageClients, ResolutionFailed))
        && chosen.Some? && ResolveFailure(chosen.value, old(State()), State())
    {
      if remaining.None? || |remaining.value| == 0 {
        return Pass, None;
      }
      // random.shuffle: any permutation.
      var locations :| multiset(locations) == multiset(remaining.value);
      assert |locations| == |multiset(locations)| == |remaining.value|;
      var location := locations[0];
      assert location in multiset(remaining.value);
      chosen := Some(location);
      var nodeGuid := GetOrNone(location.nodeGuid);
      var storageUrl: Option<Url> := None;
      if nodeGuid.Some? && nodeGuid in guidToUrl {
        storageUrl := Some(guidToUrl[nodeGuid]);
      }
      if !Truthy(storageUrl) {
        // fetch_client_using_plan_info(...).host_address; None: it raised.
        var hostAddress: Option<Url> :| true;
        calls := calls + [ResolveStorage(location.planUid, location.destinationGuid, hostAddress)];
        if hostAddress.None? {
          return Fail(Wrapped(StorageClients, ResolutionFailed)), chosen;
        }
        storageUrl := hostAddress;
      }
      var rest := RemoveFirst(locations, location);
      GetSecurityEvents(storageUrl.value, PlanUidRef(location.planUid), user, None, Some(rest), nodeGuid);
      r := Pass;
    }

    /** The loop `for i in plan_dict: self.locate_storage_client(plan_dict[i], user)`.
        A Python 2 dict is walked in an order of its own, so `order` is any
        ordering of the keys; the loop stops at the first selection that raises. */
    method LocatePlans(plans: PlanDict, user: User)
      returns (r: Outcome<Error>, ghost order: seq<PlanUid>, ghost chosen: seq<Candidate>, ghost states: seq<Snapshot>)
      requires Valid() && ValidPlans(plans)
      modifies this
      ensures Valid()
      ensures r.Fail? ==> r == Fail(Wrapped(StorageClients, ResolutionFailed))
      ensures states != [] && states[0] == old(State())
      ensures LocatedPlans(handlers, minTimestamp, user, plans, r.Fail?, order, chosen, states, State())
      // One request per plan selected, after those already in flight: fewer than the plans on a failure.
      ensures |outstanding| == |old(outstanding)| + |chosen| && outstanding[..|old(outstanding)|] == old(outstanding)
    {
      var keys :| |keys| == |plans.keys| && multiset(keys) == multiset(plans.keys);
      order, chosen, states := keys, [], [State()];
      var i := 0;
      while i < |keys|
        invariant 0 <= i <= |keys|
        invariant Valid()
        invariant |chosen| == i
        invariant SelectionRun(handlers, minTimestamp, user, plans, order, chosen, states)
        invariant states[0] == old(State())
        invariant Last(states) == State()
        invariant |outstanding| == |old(outstanding)| + i && outstanding[..|old(outstanding)|] == old(outstanding)
      {
        assert keys[i] in multiset(keys);
        var list := plans.lists[keys[i]];
        var located, c := LocateStorageClient(Some(list), user);
        if located.Fail? {
          r := located;
          return;
        }
        RunExtend(handlers, minTimestamp, user, plans, order, chosen, states, c.value, State());
        chosen, states := chosen + [c.value], states + [State()];
        i := i + 1;
      }
      r := Pass;
    }

    /** Normalises a location response and locates a storage client for each
        plan in turn; any fault is wrapped and re-raised, which abandons the
        plans not yet located. */
    method HandleSecurityEventLocationResponse(response: LocationResponse, user: User)
      returns (r: Outcome<Error>, ghost order: seq<PlanUid>, ghost chosen: seq<Candidate>, ghost states: seq<Snapshot>)
      requires Valid()
      modifies this
      ensures Valid()
      ensures r.Fail? ==> r.error.Wrapped? && r.error.site == LocationResponses
      ensures Normalized(response) == Success(NoPlans) ==> r == Pass && State() == old(State())
      ensures Normalized(response).Failure? ==>
        && r == Fail(Wrapped(LocationResponses, TopologyFault(Normalized(response).error)))
        && State() == old(State())
      ensures Normalized(response).Success? ==>
        && (r.Fail? ==> r == Fail(Wrapped(LocationResponses, Wrapped(StorageClients, ResolutionFailed))))
        && states != [] && states[0] == old(State())
        && LocatedPlans(handlers, minTimestamp, user, Normalized(response).value, r.Fail?, order, chosen, states, State())
        && |outstanding| == |old(outstanding)| + |chosen| && outstanding[..|old(outstanding)|] == old(outstanding)
    {
      order, chosen, states := [], [], [];
      var normalized := NormalizeLocations(response);
      if normalized.Failure? {
        r := Fail(Wrapped(LocationResponses, TopologyFault(normalized.error)));
        return;
      }
      NormalizedShape(response);
      var located;
      located, order, chosen, states := LocatePlans(normalized.value, user);
      if located.Fail? {
        r := Fail(Wrapped(LocationResponses, located.error));
        return;
      }
      r := Pass;
    }

    /** The `then` callback: processes a non-empty page and, when its cursor
        is truthy, records the cursor and fetches the next page. */
    method HandleSecurityEventResponse(response: PageResponse, callbackUser: User)
      requires Valid()
      modifies this
      ensures Valid()
      ensures guidToUrl == old(guidToUrl)
      ensures calls == old(calls) + PageCalls(response, callbackUser) + FetchesOf(FollowUp(response, callbackUser))
      ensures outstanding == old(outstanding) + if FollowUp(response, callbackUser).Some? then [FollowUp(response, callbackUser).value] else []
    {
      if response.content != "" {
        calls := calls + [ProcessResponse(response, callbackUser)];
        var responseCursor := response.cursor;
        if Truthy(responseCursor) {
          var storageUrl := StorageUrlOf(response.requestUrl);
          var planUid := QueryPlan(response.requestUrl);
          calls := calls + [RecordCursor(planUid, callbackUser, responseCursor.value)];
          GetSecurityEvents(storageUrl, planUid, callbackUser, responseCursor, None, None);
        }
      }
    }

    /** The SDK answers outstanding request `k` with a page. */
    method DeliverPage(k: nat, response: PageResponse)
      requires Valid() && k < |outstanding|
      modifies this
      ensures Valid()
      ensures guidToUrl == old(guidToUrl)
      ensures calls == old(calls) + PageCalls(response, old(outstanding[k]).user)
                                  + FetchesOf(FollowUp(response, old(outstanding[k]).user))
      ensures outstanding == Without(old(outstanding), k)
                             + if FollowUp(response, old(outstanding[k]).user).Some?
                               then [FollowUp(response, old(outstanding[k]).user).value] else []
    {
      var request := outstanding[k];
      outstanding := Without(outstanding, k);
      HandleSecurityEventResponse(response, request.user);
    }

    /** The SDK reports that outstanding request `k` failed: the `catch`
        callback selects again from the list that request captured. */
    method DeliverFailure(k: nat) returns (r: Outcome<Error>, chosen: Option<Candidate>)
      requires Valid() && k < |outstanding|
      modifies this
      ensures Valid()
      ensures var before := old(outstanding[k]).remaining;
        && (chosen.None? <==> before.None? || before.value == [])
        && (chosen.Some? ==> chosen.value in before.value)
      ensures chosen.None? ==> r == Pass && outstanding == Without(old(outstanding), k)
                               && calls == old(calls) && guidToUrl == old(guidToUrl)
      ensures chosen.Some? && CachedUrl(old(guidToUrl), chosen.value).Some? ==> r == Pass
      ensures r.Pass? && chosen.Some? ==>
        Selection(handlers, minTimestamp, old(outstanding[k]).user, old(outstanding[k]).remaining.value, chosen.value,
                  Snapshot(old(guidToUrl), old(calls), Without(old(outstanding), k)), State())
      ensures r.Fail? ==>
        && r == Fail(Wrapped(StorageClients, ResolutionFailed))
        && chosen.Some?
        && ResolveFailure(chosen.value, Snapshot(old(guidToUrl), old(calls), Without(old(outstanding), k)), State())
    {
      var request := outstanding[k];
      outstanding := Without(outstanding, k);
      r, chosen := LocateStorageClient(request.remaining, request.user);
    }

    /** The SDK answers the one request in flight with `pages`, one after
        the other, for as long as the pagination chain continues. */
    method FollowPages(pages: seq<PageResponse>) returns (answered: nat)
      requires Valid() && |outstanding| == 1
      modifies this
      ensures Valid()
      ensures answered == Consumed(pages, old(outstanding[0]).user)
      ensures guidToUrl == old(guidToUrl)
      ensures calls == old(calls) + ChainCalls(pages, old(outstanding[0]).user)
      ensures answered == 0 ==> outstanding == old(outstanding)
      ensures answered > 0 ==>
        outstanding == if FollowUp(pages[answered - 1], old(outstanding[0]).user).Some?
                       then [FollowUp(pages[answered - 1], old(outstanding[0]).user).value] else []
    {
      var user := outstanding[0].user;
      answered := Consumed(pages, user);
      var i := 0;
      while i < answered
        invariant 0 <= i <= answered
        invariant Valid() && guidToUrl == old(guidToUrl)
        invariant i < answered ==> |outstanding| == 1 && outstanding[0].user == user
        invariant i < answered ==> calls + ChainCalls(pages[i..], user) == old(calls) + ChainCalls(pages, user)
        invariant i == answered ==> calls == old(calls) + ChainCalls(pages, user)
        invariant i == 0 ==> outstanding == old(outstanding)
        invariant 0 < i == answered ==>
          outstanding == if FollowUp(pages[i - 1], user).Some? then [FollowUp(pages[i - 1], user).value] else []
      {
        ghost var before := calls;
        DeliverPage(0, pages[i]);
        if i + 1 < answered {
          ChainAdvance(pages, user, i, before, calls);
        } else {
          ChainFinish(pages, user, i, before, calls);
        }
        i := i + 1;
      }
    }
  }
  // ---------------------------------------------------------------------------
  // Runs of the fetcher with the default handlers.

  /** A plan's first fetch carries no cursor and the configured floor; its
      non-empty page with a truthy cursor is processed, the cursor is recorded
      with the plan-uid list and the user in the first two parameters, and
      the next page is fetched from `scheme://netloc` with that cursor and no
      floor. An empty second page ends the chain. */
  method TwoPageScenario(floor: Option<int>, url: Url, plan: PlanUid, user: User,
                         first: PageResponse, second: PageResponse) returns (log: seq<Call>, pending: nat)
    requires first.content != "" && Truthy(first.cursor) && second.content == ""
    ensures log == [
      FetchEvents(Request(url, PlanUidRef(plan), user, None, floor, true, Some([]))),
      ProcessResponse(first, user),
      RecordCursor(QueryPlan(first.requestUrl), user, first.cursor.value),
      FetchEvents(Request(StorageUrlOf(first.requestUrl), QueryPlan(first.requestUrl), user,
                          first.cursor, None, true, None))]
    ensures pending == 0
  {
    var fetcher := new SecurityEventFetcher(floor, None);
    fetcher.GetSecurityEvents(url, PlanUidRef(plan), user, None, Some([]), None);
    fetcher.DeliverPage(0, first);
    fetcher.DeliverPage(0, second);
    log, pending := fetcher.calls, |fetcher.outstanding|;
  }

  /** When a follow-up fetch fails, the `catch` continuation has no list of
      remaining locations, so nothing is retried and the chain stops. */
  method ContinuationFailureScenario(floor: Option<int>, url: Url, plan: PlanUid, user: User,
                                     first: PageResponse, backup: Candidate)
    returns (log: seq<Call>, pending: nat, retried: bool)
    requires first.content != "" && Truthy(first.cursor)
    ensures log == [
      FetchEvents(Request(url, PlanUidRef(plan), user, None, floor, true, Some([backup]))),
      ProcessResponse(first, user),
      RecordCursor(QueryPlan(first.requestUrl), user, first.cursor.value),
      FetchEvents(Request(StorageUrlOf(first.requestUrl), QueryPlan(first.requestUrl), user,
                          first.cursor, None, true, None))]
    ensures pending == 0 && !retried
  {
    var fetcher := new SecurityEventFetcher(floor, None);
    fetcher.GetSecurityEvents(url, PlanUidRef(plan), user, None, Some([backup]), None);
    fetcher.DeliverPage(0, first);
    var r, chosen := fetcher.DeliverFailure(0);
    log, pending, retried := fetcher.calls, |fetcher.outstanding|, chosen.Some?;
  }

  /** A failed first fetch fails over to the one remaining candidate;
      because that candidate's node guid is already cached with a non-empty
      URL, the resolver is not called. The new fetch is left in flight with
      an empty list of remaining locations. */
  method FailoverScenario(floor: Option<int>, url: Url, user: User, first: Candidate, backup: Candidate)
    returns (log: seq<Call>, chosen: Option<Candidate>, pending: seq<Request>)
    requires url != "" && first.nodeGuid.Present? && backup.nodeGuid == first.nodeGuid
    ensures chosen == Some(backup)
    ensures log == [
      FetchEvents(Request(url, PlanUidRef(first.planUid), user, None, floor, true, Some([backup]))),
      FetchEvents(Request(url, PlanUidRef(backup.planUid), user, None, floor, true, Some([])))]
    ensures pending == [Request(url, PlanUidRef(backup.planUid), user, None, floor, true, Some([]))]
  {
    var fetcher := new SecurityEventFetcher(floor, None);
    var firstRequest := Request(url, PlanUidRef(first.planUid), user, None, floor, true, Some([backup]));
    fetcher.GetSecurityEvents(url, PlanUidRef(first.planUid), user, None, Some([backup]), Some(first.nodeGuid.value));
    assert fetcher.calls == [FetchEvents(firstRequest)];
    assert fetcher.guidToUrl == map[Some(first.nodeGuid.value) := url];
    var r, c := fetcher.DeliverFailure(0);
    assert c == Some(backup);
    assert CachedUrl(map[Some(first.nodeGuid.value) := url], backup) == Some(url);
    CachedLastSelection(DefaultHandlers, floor, user, backup,
                        Snapshot(map[Some(first.nodeGuid.value) := url], [FetchEvents(firstRequest)], []),
                        fetcher.State(), url);
    chosen, log, pending := c, fetcher.calls, fetcher.outstanding;
  }

  /** A failed fetch whose list of remaining locations is empty ends the
      plan: no call is made and nothing is left in flight. */
  method ExhaustedScenario(floor: Option<int>, url: Url, plan: PlanUid, user: User)
    returns (log: seq<Call>, chosen: Option<Candidate>, pending: nat)
    ensures chosen == None
    ensures log == [FetchEvents(Request(url, PlanUidRef(plan), user, None, floor, true, Some([])))]
    ensures pending == 0
  {
    var fetcher := new SecurityEventFetcher(floor, None);
    fetcher.GetSecurityEvents(url, PlanUidRef(plan), user, None, Some([]), None);
    var r, c := fetcher.DeliverFailure(0);
    chosen, log, pending := c, fetcher.calls, |fetcher.outstanding|;
  }
}
