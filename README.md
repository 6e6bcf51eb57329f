# py42 security-event fetcher and storage connections, in Dafny

This project models two parts of the py42 SDK and proves properties of the model.

The first part is the security-event fetcher (`py42/tools/security_event_fetcher.py`). It does four things:
- It turns a user's security-event *location response* into a dict of plans. Each plan maps to its list of candidate storage locations (destination guid, node guid, plan uid).
- It picks one candidate per plan at random. The storage URL comes from a node-guid-to-URL cache or from the storage resolver.
- It fetches the plan's security events from that URL, starting from the handler's saved cursor or from a minimum timestamp.
- It follows the pagination cursor page by page. It records each cursor with the handler object, and on a failed fetch it fails over to another candidate.

The second part is the storage service factory (`src/py42/services/storage/_service_factory.py`):
- `ConnectionManager` shares one storage connection per storage URL. URLs are compared without regard to case.
- `StorageServiceFactory.create_archive_service` defaults the destination to the device's first backup destination when none is given.

Files:
- `wrappers.dfy`: `Option`, `Result`, `Outcome`, and `Member`. A `Member` is a JSON object member that is absent, null or present.
- `topology.dfy` (module `Topology`): the location-response shapes and their normalisation into a plan dict.
- `fetcher.dfy` (module `EventFetcher`): the fetcher object.
  - It keeps the node-guid cache, the requests in flight, and a log of every call made on the SDK and the handler object.
  - The SDK's asynchronous `then` and `catch` callbacks are the methods `DeliverPage` and `DeliverFailure`.
  - `random.shuffle` is any permutation.
  - The resolver `fetch_client_using_plan_info` returns any host address or raises.
- `storage_factory.dfy` (module `StorageFactory`): the connection cache and the destination defaulting.

The model follows the code as written, including the points below where the code does something other than the described design intends:
- **Cache overwrite** (`security_event_fetcher.py:111`): `node_guid is not None not in self._guid_to_url_map` is a chained comparison. It means `node_guid is not None and None not in map`. Because None never becomes a key, every fetch with a node guid overwrites that guid's entry. An existing entry is not kept.
- **Argument order** (`:145`): `record_cursor_position(cursor, plan_uid, user)` receives `(plan_uid, user, cursor)`. The `Call.RecordCursor` fields are named after the parameters the arguments bind to.
- **Plan uid as a list** (`:144`): the plan uid of a follow-up fetch is the list that `parse_qs` returns, not a string (`PlanRef.QueryValues`).
- **No failover after the first page** (`:146`): a follow-up fetch passes no remaining locations. When it fails, the `catch` continuation does nothing (`ContinuationFailureScenario`).
- **No retry on resolver failure** (`:94`, `:101-104`, `:75-79`): when the resolver raises, no other candidate is tried. The error is wrapped and re-raised, which abandons the plans not yet located (`LocatePlans`). Which plans those are depends on the walk order below.
- **Walk order of the plan dict** (`:73`): `for i in plan_dict` walks a Python 2 dict in its own hash order, not in insertion order. `LocatePlans` therefore walks any ordering of the keys, and its contract holds for every ordering. The insertion order that `PlanOrder` computes is only the order in which keys were added.

## Model

| member | source | states |
|---|---|---|
| Wrappers.GetOrNone | py42/tools/security_event_fetcher.py:86 | `obj.get(key, None)` gives the value exactly when the member is present, and None when it is absent or null |
| Topology.LegacyList | py42/tools/security_event_fetcher.py:56-58 | the legacy list has one candidate per destination, in input order, carrying the response's plan uid and no node guid |
| Topology.CollectLegacyCandidates | py42/tools/security_event_fetcher.py:56-58 | the append loop builds exactly the legacy list |
| Topology.NodeCandidates | py42/tools/security_event_fetcher.py:61-64 | a node without `securityPlanUids` raises; a node listing plan uids raises when the destination guid or the node-guid member is missing; otherwise it contributes one candidate per plan uid, the i-th being (destination guid, node guid, i-th plan uid) |
| Topology.DestinationCandidatesCount | py42/tools/security_event_fetcher.py:61-64 | a destination yields as many candidates as its nodes list plan uids in total |
| Topology.DestinationCandidates | py42/tools/security_event_fetcher.py:61-64 | the candidates of every node of a destination; a successful result never lacks the node-guid member |
| Topology.Flatten | py42/tools/security_event_fetcher.py:60-64 | the comprehension over destinations, nodes and plan uids; a successful result never lacks the node-guid member |
| Topology.FlattenCount | py42/tools/security_event_fetcher.py:60-64 | the comprehension yields one candidate per (destination, node, plan uid) triple of the response |
| Topology.DestinationCandidatesFail | py42/tools/security_event_fetcher.py:61-64 | walking a destination's nodes raises exactly when some node is malformed (a missing key in a walked entry) |
| Topology.FlattenFails | py42/tools/security_event_fetcher.py:60-64 | the comprehension raises exactly when some destination entry is malformed |
| Topology.DestinationCandidatesMembers | py42/tools/security_event_fetcher.py:61-64 | a candidate is produced for a destination exactly when one of its nodes lists that plan uid |
| Topology.FlattenMembers | py42/tools/security_event_fetcher.py:60-64 | a candidate is produced exactly when its (destination, node, plan uid) triple occurs in the response |
| Topology.PlanOrder | py42/tools/security_event_fetcher.py:65-69 | the keys inserted into the dict have no repeats and are exactly the plan uids that occur, listed in the order they were inserted (first occurrence); this is not the order the dict is walked in |
| Topology.Select | py42/tools/security_event_fetcher.py:70-72 | a plan's list holds exactly the candidates naming that plan |
| Topology.SelectAppend | py42/tools/security_event_fetcher.py:65-72 | grouping distributes over concatenation of the candidate list |
| Topology.GroupedValid | py42/tools/security_event_fetcher.py:65-72 | the grouped dict has distinct keys, one non-empty list per key, and every candidate sits under its own plan uid |
| Topology.GroupByPlan | py42/tools/security_event_fetcher.py:65-72 | the insert-if-absent-then-append loop builds exactly the grouping by plan, and records the keys in the order they were inserted |
| Topology.NormalizeLocations | py42/tools/security_event_fetcher.py:51-72 | the method computes the plan dict or fault that the response denotes: none for a 404 or empty body, the legacy shape when `storageNodeGuids` is non-empty, otherwise the current shape |
| Topology.NormalizedShape | py42/tools/security_event_fetcher.py:51-72 | a 404 or empty response yields no plans; any dict produced is well formed |
| Topology.LegacyShape | py42/tools/security_event_fetcher.py:53-58 | a legacy response yields one key, with the destinations in order and no node guid |
| Topology.CurrentShape | py42/tools/security_event_fetcher.py:59-72 | a current-shape response succeeds exactly when every walked entry is well formed; each plan's list is its triples in order; membership is exactly occurrence in the response |
| EventFetcher.RemoveFirst | py42/tools/security_event_fetcher.py:97 | `list.remove` drops one occurrence: the length drops by one and the multiset loses exactly that element; after a shuffle it drops the head |
| EventFetcher.CachedUrl | py42/tools/security_event_fetcher.py:86-91 | the cache is consulted only for a candidate with a node guid, and only a truthy entry is used, in both directions |
| EventFetcher.DispatchedRequest | py42/tools/security_event_fetcher.py:115-130 | an explicit cursor wins, then the handler's starting cursor; the minimum timestamp is sent only when both are None; files are always included |
| EventFetcher.QueryPlan | py42/tools/security_event_fetcher.py:144 | the plan of a follow-up is the `planUid` query list when present, otherwise None |
| EventFetcher.StorageUrlOf | py42/tools/security_event_fetcher.py:142-143 | the storage URL is the scheme, then `://`, then the netloc of the page's request URL |
| EventFetcher.PageCalls | py42/tools/security_event_fetcher.py:138-145 | an empty page triggers nothing; a non-empty page is processed first; its cursor is recorded exactly when the cursor is truthy, with the arguments `(plan uid list of the request URL, user, cursor)` |
| EventFetcher.FollowUp | py42/tools/security_event_fetcher.py:138-146 | a next fetch happens exactly for a non-empty page with a truthy cursor, from `scheme://netloc` with that cursor, no floor and no remaining locations |
| EventFetcher.ChainCalls | py42/tools/security_event_fetcher.py:136-146 | a chain only processes pages, records cursors and fetches; it makes no call exactly when there is no page or the first page is empty |
| EventFetcher.Consumed | py42/tools/security_event_fetcher.py:136-146 | a chain consumes at most the pages answered and at least one when any is; every consumed page but the last continues the chain; when pages are left over, the last consumed page does not continue it |
| EventFetcher.ChainRecordsBeforeFetch | py42/tools/security_event_fetcher.py:141-146 | in any pagination chain, every follow-up fetch is immediately preceded by the record of the cursor it continues from |
| EventFetcher.ProcessedAppend | py42/tools/security_event_fetcher.py:139 | the pages processed by two call logs in sequence are the pages of each, in order |
| EventFetcher.ChainProcessesConsumedPages | py42/tools/security_event_fetcher.py:136-146 | a chain processes exactly the non-empty pages it consumes, in order |
| EventFetcher.SecurityEventFetcher.constructor | py42/tools/security_event_fetcher.py:23-30 | the default handlers are used when none are given; the cache, the requests in flight and the log start empty |
| EventFetcher.SecurityEventFetcher.GetUserLocations | py42/tools/security_event_fetcher.py:38-45 | a location lookup is issued exactly for users the handler accepts |
| EventFetcher.SecurityEventFetcher.GetSecurityEvents | py42/tools/security_event_fetcher.py:106-130 | a non-None node guid's entry is overwritten with the URL; exactly one fetch is dispatched with the cursor and floor chosen as in `DispatchedRequest` |
| EventFetcher.SecurityEventFetcher.LocateStorageClient | py42/tools/security_event_fetcher.py:81-104 | no-op on None or an empty list; otherwise one candidate of the list is chosen; a truthy cached URL is used without calling the resolver; otherwise the resolver is called once and logged; a resolver failure is wrapped and changes nothing but the log; success dispatches one request for the chosen plan from the list minus the chosen candidate, and writes the URL to the cache under the node guid |
| EventFetcher.CachedLastSelection | py42/tools/security_event_fetcher.py:83-100 | selecting the last candidate with a cached URL sends one fetch from that URL with an empty remaining list and no resolver call |
| EventFetcher.SecurityEventFetcher.LocatePlans | py42/tools/security_event_fetcher.py:73-74 | walks the keys in some ordering of the dict's keys; each plan gets one selection from its own candidates, chained state to state; on a resolver failure, the plans walked before it got a selection, the failing one only its logged resolver call, and the rest nothing; the requests in flight grow by one per selected plan, so by fewer than the plan count on a failure |
| EventFetcher.RunDispatches | py42/tools/security_event_fetcher.py:73-74 | a run of selections keeps the requests already in flight and adds exactly one request per selected plan, in walk order, for that plan and user; cache keys are only added |
| EventFetcher.SecurityEventFetcher.HandleSecurityEventLocationResponse | py42/tools/security_event_fetcher.py:47-79 | a 404 or empty response changes nothing; a malformed one raises a wrapped fault and changes nothing; otherwise the plans of the normalised dict are walked as in `LocatePlans`, and a resolver failure is wrapped twice |
| EventFetcher.SecurityEventFetcher.HandleSecurityEventResponse | py42/tools/security_event_fetcher.py:136-151 | the calls are the page's handler calls followed by its follow-up fetch; the follow-up is the only new request in flight; the cache is untouched |
| EventFetcher.SecurityEventFetcher.DeliverPage | py42/tools/security_event_fetcher.py:122-123 | the answered request leaves the in-flight set and its page is handled for the request's user |
| EventFetcher.SecurityEventFetcher.DeliverFailure | py42/tools/security_event_fetcher.py:129-130 | the failed request leaves the in-flight set; it selects again from the list it captured: nothing more when that list is None or empty; otherwise a selection, with cache use, resolver call, cache write and dispatch as in `LocateStorageClient`, or a wrapped resolver failure that changes nothing but the log |
| EventFetcher.SecurityEventFetcher.FollowPages | py42/tools/security_event_fetcher.py:122-146 | answering the one request in flight page by page consumes `Consumed` pages; the log grows by exactly the chain's calls; the cache is untouched; what is left in flight is the last consumed page's follow-up, if any |
| EventFetcher.TwoPageScenario | py42/tools/security_event_fetcher.py:115-146 | the first fetch carries the floor and no cursor; the cursor is recorded with the arguments in the order `(plan uid list, user, cursor)`; the follow-up carries the cursor and no floor; an empty page ends the chain |
| EventFetcher.ContinuationFailureScenario | py42/tools/security_event_fetcher.py:129-130 | when a follow-up fetch fails, nothing is retried even though the first fetch had a backup location |
| EventFetcher.FailoverScenario | py42/tools/security_event_fetcher.py:81-130 | a failed fetch fails over to the remaining candidate through the cached URL without calling the resolver, leaving that fetch in flight with an empty remaining list |
| EventFetcher.ExhaustedScenario | py42/tools/security_event_fetcher.py:83 | a failed fetch whose remaining list is empty makes no further call and leaves nothing in flight |
| StorageFactory.LowerChar | src/py42/services/storage/_service_factory.py:58 | lower-casing maps each upper-case letter to its lower-case letter and leaves other characters alone |
| StorageFactory.Lower | src/py42/services/storage/_service_factory.py:58 | `url.lower()` keeps the length and lower-cases character by character |
| StorageFactory.LowerIdempotent | src/py42/services/storage/_service_factory.py:58 | lower-casing a cache key again changes nothing |
| StorageFactory.LowerEqualIffSameIgnoringCase | src/py42/services/storage/_service_factory.py:58 | two URLs have the same cache key exactly when they differ only in letter case |
| StorageFactory.Connection.FromHostAddress | src/py42/services/storage/_service_factory.py:68 | the connection is for the given host address and auth |
| StorageFactory.ConnectionManager.constructor | src/py42/services/storage/_service_factory.py:53-55 | `session_cache or {}`: the given cache, or an empty one |
| StorageFactory.ConnectionManager.GetSavedConnectionForUrl | src/py42/services/storage/_service_factory.py:57-58 | a connection is found exactly when the lower-cased URL is a key, and it is that key's connection |
| StorageFactory.ConnectionManager.GetStorageConnection | src/py42/services/storage/_service_factory.py:60-75 | a saved connection is returned unchanged; otherwise a fresh connection for the URL and auth is saved under the lower-cased URL; every failure is a session-initialisation error that leaves the cache as it was |
| StorageFactory.LookupIgnoresCase | src/py42/services/storage/_service_factory.py:57-58 | URLs that differ only in case find the same saved connection |
| StorageFactory.ConnectionReuseScenario | src/py42/services/storage/_service_factory.py:60-75 | a second request for the same URL, in any case, gets the connection the first request created |
| StorageFactory.AutoSelectDestinationGuid | src/py42/services/storage/_service_factory.py:39-49 | a missing `backupUsage` raises KeyError; a null or empty one raises "no destinations"; otherwise the first entry's `targetComputerGuid`, null included, or a KeyError when it is missing |
| StorageFactory.StorageServiceFactory.constructor | src/py42/services/storage/_service_factory.py:14-17 | the factory keeps the connection manager and the device service it is given |
| StorageFactory.StorageServiceFactory.ArchiveDestination | src/py42/services/storage/_service_factory.py:19-21 | the given destination is used as is; only when it is None is the device's first destination selected |
| StorageFactory.StorageServiceFactory.CreateArchiveService | src/py42/services/storage/_service_factory.py:19-27 | an auto-selection error propagates unwrapped and leaves the cache alone; a connection failure is a session-initialisation error that leaves the cache alone; success yields the connection saved for the storage URL of the device's file archive on the chosen destination as user "my": the one already saved, with the cache unchanged, or a fresh one for that URL and auth, saved under the lower-cased URL |

## Left out

- The SDK's transport is not modelled: HTTP, JSON decoding, `urlparse` and `parse_qs`. A response is already decoded into the fields the code reads. A page's request URL is given as its scheme, netloc and parsed query.
- `SecurityEventFetcher.start` is not modelled, because it only iterates users and waits on the SDK's executors (`for_each_user`, `wait`, `wait_all`). Users are handed to `GetUserLocations` directly.
- The lock in `ConnectionManager.get_storage_connection` is not modelled: the model is sequential. The re-check under the lock is kept, and it always agrees with the first check.
- The distribution of `random.shuffle` is not modelled: any permutation may be chosen.
- The resolver `fetch_client_using_plan_info`, `get_storage_url`, and whether `Connection.from_host_address` raises are left open. They can return any answer or raise. Their own code is not part of this model.
- `sdk.storage.using(storage_url)` is assumed not to raise, because the storage client module is not part of this model. Its exception path in `get_security_events` (`:131-134`) is therefore not modelled.
- Custom handlers are pure functions that do not raise. `process_security_event_response` and `record_cursor_position` are recorded as calls, not executed.
- Exception message formatting is not modelled; errors are a datatype that records where each one was wrapped.
- `util.get_obj_from_response` is not part of this model. The legacy `planUid` is modelled as always present, and the top-level members other than `nodeGuid` as present or None.
- Python lists are modelled as values. `remaining_locations` is shuffled and shrunk in place and shared with the `catch` closure, but nothing else reads it, so value semantics gives the same behaviour. The passed-in `session_cache` dict is not aliased.
- `StorageFactory.LowerChar` and `StorageFactory.Lower`: fold ASCII letters only. Python's `str.lower` also folds other Unicode letters.
- JSON null is not modelled for `destinationGuid` of a current-shape entry, for an entry of `securityPlanUids`, or for an entry of `storageNodeGuids`. A candidate's destination guid and plan uid are plain guids. In `DestinationLocations`, None stands for a missing `destinationGuid`, whose lookup raises. A null there does not raise in the code: it is copied into the candidates (`security_event_fetcher.py:58`, `:61`) and reaches only the resolver call.
- `device_service.get_by_guid` (`_service_factory.py:40-42`) is modelled as a function that always answers. If it raised, its error would propagate from `create_archive_service` unwrapped, like an auto-selection error.
- `create_security_data_service` and `create_preservation_data_service` are not modelled: neither is part of the modelled core, and each only builds a service around a connection.
- The restore services, `py42._compat`, and the test suite are not modelled.
