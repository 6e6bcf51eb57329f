/** Normalisation of a security-event location response into, per plan uid, the
    list of candidate storage locations for that plan (py42/tools/security_event_fetcher.py,
    handle_security_event_location_response, the part before the selection calls). */
module Topology {
  import opened Wrappers

  type Guid = string
  type PlanUid = string

  /** One place a plan's events can be read from. `nodeGuid` is Absent in the
      legacy response shape and Null or Present in the current one. */
  datatype Candidate = Candidate(destinationGuid: Guid, nodeGuid: Member<Guid>, planUid: PlanUid)

  /** An entry of `securityPlanLocationsByNode`; `securityPlanUids` is None when
      the member is missing or null (iterating it raises either way). */
  datatype NodeLocations = NodeLocations(nodeGuid: Member<Guid>, securityPlanUids: Option<seq<PlanUid>>)

  /** An entry of `securityPlanLocationsByDestination`; None stands for a
      member whose use raises. */
  datatype DestinationLocations =
    DestinationLocations(destinationGuid: Option<Guid>, securityPlanLocationsByNode: Option<seq<NodeLocations>>)

  /** The decoded body. `storageNodeGuids` (legacy shape, really destination
      guids) and `securityPlanLocationsByDestination` (current shape) are None
      when the body does not carry them. */
  datatype LocationBody = LocationBody(
    storageNodeGuids: Option<seq<Guid>>,
    planUid: PlanUid,
    securityPlanLocationsByDestination: Option<seq<DestinationLocations>>)

  /** A location response; `content` is None when the body is empty. */
  datatype LocationResponse = LocationResponse(statusCode: int, content: Option<LocationBody>)

  /** A structural fault: the named member is missing or cannot be iterated. */
  datatype Fault = Malformed(member: string)

  /** A Python dict from plan uid to candidate list; `keys` is its insertion order. */
  datatype PlanDict = PlanDict(keys: seq<PlanUid>, lists: map<PlanUid, seq<Candidate>>)

  const NoPlans := PlanDict([], map[])

  /** Keys distinct and in step with the map; each list non-empty and filed
      under the plan uid its candidates carry. */
  ghost predicate ValidPlans(d: PlanDict)
  {
    && (forall i, j :: 0 <= i < j < |d.keys| ==> d.keys[i] != d.keys[j])
    && (forall k :: k in d.lists <==> k in d.keys)
    && (forall k :: k in d.lists ==> d.lists[k] != [])
    && (forall k, c :: k in d.lists && c in d.lists[k] ==> c.planUid == k)
  }

  // ---------------------------------------------------------------------------
  // Legacy shape: one plan, one candidate per destination guid.

  /** The legacy candidate list: one entry per destination, in input order,
      carrying only the destination guid and the plan uid. */
  function LegacyList(plan: PlanUid, destinations: seq<Guid>): (r: seq<Candidate>)
    ensures |r| == |destinations|
    ensures forall i :: 0 <= i < |r| ==> r[i] == Candidate(destinations[i], Absent, plan)
  {
    if destinations == [] then []
    else [Candidate(destinations[0], Absent, plan)] + LegacyList(plan, destinations[1..])
  }

  /** The append loop over `storageNodeGuids`. */
  method CollectLegacyCandidates(plan: PlanUid, destinations: seq<Guid>) returns (list: seq<Candidate>)
    ensures list == LegacyList(plan, destinations)
  {
    list := [];
    for i := 0 to |destinations|
      invariant |list| == i
      invariant forall j :: 0 <= j < i ==> list[j] == Candidate(destinations[j], Absent, plan)
    {
      list := list + [Candidate(destinations[i], Absent, plan)];
    }
  }

  // ---------------------------------------------------------------------------
  // Current shape: the comprehension over destination, node and plan uid.

  /** What the comprehension yields for one node. The dict display reads
      x["destinationGuid"] and y["nodeGuid"] once per plan uid, so a node
      without plan uids raises nothing even when those members are missing. */
  function NodeCandidates(destination: Option<Guid>, node: NodeLocations): (r: Result<seq<Candidate>, Fault>)
    ensures r.Success? ==> forall c :: c in r.value ==> !c.nodeGuid.Absent?
    ensures r.Failure? <==>
      || node.securityPlanUids.None?
      || (node.securityPlanUids.value != [] && (destination.None? || node.nodeGuid.Absent?))
    ensures r.Success? ==> node.securityPlanUids.Some? && |r.value| == |node.securityPlanUids.value|
    ensures r.Success? && r.value != [] ==>
      && destination.Some?
      && forall i :: 0 <= i < |r.value| ==>
           r.value[i] == Candidate(destination.value, node.nodeGuid, node.securityPlanUids.value[i])
  {
    match node.securityPlanUids
    case None => Failure(Malformed("securityPlanUids"))
    case Some(uids) =>
      if uids == [] then Success([])
      else if destination.None? then Failure(Malformed("destinationGuid"))
      else if node.nodeGuid.Absent? then Failure(Malformed("nodeGuid"))
      else Success(seq(|uids|, i requires 0 <= i < |uids| => Candidate(destination.value, node.nodeGuid, uids[i])))
  }

  function DestinationCandidates(destination: Option<Guid>, nodes: seq<NodeLocations>): (r: Result<seq<Candidate>, Fault>)
    ensures r.Success? ==> forall c :: c in r.value ==> !c.nodeGuid.Absent?
  {
    if nodes == [] then Success([])
    else
      match NodeCandidates(destination, nodes[0])
      case Failure(f) => Failure(f)
      case Success(head) =>
        match DestinationCandidates(destination, nodes[1..])
        case Failure(f) => Failure(f)
        case Success(tail) => Success(head + tail)
  }

  /** The comprehension at the heart of the current shape, faults included. */
  function Flatten(locations: seq<DestinationLocations>): (r: Result<seq<Candidate>, Fault>)
    ensures r.Success? ==> forall c :: c in r.value ==> !c.nodeGuid.Absent?
  {
    if locations == [] then Success([])
    else
      var x := locations[0];
      match x.securityPlanLocationsByNode
      case None => Failure(Malformed("securityPlanLocationsByNode"))
      case Some(nodes) =>
        match DestinationCandidates(x.destinationGuid, nodes)
        case Failure(f) => Failure(f)
        case Success(head) =>
          match Flatten(locations[1..])
          case Failure(f) => Failure(f)
          case Success(tail) => Success(head + tail)
  }

  /** Number of plan uids listed by the nodes (a missing list counts none). */
  function PlanUidCount(nodes: seq<NodeLocations>): nat
  {
    if nodes == [] then 0
    else (if nodes[0].securityPlanUids.Some? then |nodes[0].securityPlanUids.value| else 0) + PlanUidCount(nodes[1..])
  }

  /** Number of (destination, node, plan uid) triples in the response. */
  function TripleCount(locations: seq<DestinationLocations>): nat
  {
    if locations == [] then 0
    else
      (if locations[0].securityPlanLocationsByNode.Some?
       then PlanUidCount(locations[0].securityPlanLocationsByNode.value) else 0)
      + TripleCount(locations[1..])
  }

  /** A destination yields one candidate per plan uid listed by its nodes. */
  lemma {:induction false} DestinationCandidatesCount(destination: Option<Guid>, nodes: seq<NodeLocations>)
    requires DestinationCandidates(destination, nodes).Success?
    ensures |DestinationCandidates(destination, nodes).value| == PlanUidCount(nodes)
    decreases |nodes|
  {
    if nodes != [] {
      DestinationCandidatesCount(destination, nodes[1..]);
    }
  }

  /** The comprehension yields one candidate per triple, duplicates included. */
  lemma {:induction false} FlattenCount(locations: seq<DestinationLocations>)
    requires Flatten(locations).Success?
    ensures |Flatten(locations).value| == TripleCount(locations)
    decreases |locations|
  {
    if locations != [] {
      var x := locations[0];
      DestinationCandidatesCount(x.destinationGuid, x.securityPlanLocationsByNode.value);
      FlattenCount(locations[1..]);
    }
  }

  /** A node the comprehension can walk without raising. */
  ghost predicate WellFormedNode(destination: Option<Guid>, node: NodeLocations)
  {
    node.securityPlanUids.Some? &&
    (node.securityPlanUids.value != [] ==> destination.Some? && !node.nodeGuid.Absent?)
  }

  ghost predicate WellFormedDestination(x: DestinationLocations)
  {
    x.securityPlanLocationsByNode.Some? &&
    forall y :: y in x.securityPlanLocationsByNode.value ==> WellFormedNode(x.destinationGuid, y)
  }

  /** Candidate `c` is the (destination, node, plan uid) triple of some entry. */
  ghost predicate Yields(locations: seq<DestinationLocations>, c: Candidate)
  {
    exists x, y ::
      && x in locations
      && x.destinationGuid == Some(c.destinationGuid)
      && x.securityPlanLocationsByNode.Some?
      && y in x.securityPlanLocationsByNode.value
      && y.nodeGuid == c.nodeGuid
      && y.securityPlanUids.Some?
      && c.planUid in y.securityPlanUids.value
  }

  lemma {:induction false} DestinationCandidatesFail(destination: Option<Guid>, nodes: seq<NodeLocations>)
    ensures DestinationCandidates(destination, nodes).Success?
        <==> forall y :: y in nodes ==> WellFormedNode(destination, y)
    decreases |nodes|
  {
    if nodes != [] {
      DestinationCandidatesFail(destination, nodes[1..]);
      assert NodeCandidates(destination, nodes[0]).Success? <==> WellFormedNode(destination, nodes[0]);
      assert forall y :: y in nodes <==> y == nodes[0] || y in nodes[1..];
    }
  }

  /** The comprehension raises exactly when some entry it walks is malformed. */
  lemma {:induction false} FlattenFails(locations: seq<DestinationLocations>)
    ensures Flatten(locations).Success? <==> forall x :: x in locations ==> WellFormedDestination(x)
    decreases |locations|
  {
    if locations != [] {
      var x := locations[0];
      FlattenFails(locations[1..]);
      if x.securityPlanLocationsByNode.Some? {
        DestinationCandidatesFail(x.destinationGuid, x.securityPlanLocationsByNode.value);
      }
      assert WellFormedDestination(x) <==>
        x.securityPlanLocationsByNode.Some? &&
        DestinationCandidates(x.destinationGuid, x.securityPlanLocationsByNode.value).Success?;
      assert forall z :: z in locations <==> z == x || z in locations[1..];
    }
  }

  lemma {:induction false} DestinationCandidatesMembers(destination: Option<Guid>, nodes: seq<NodeLocations>, c: Candidate)
    requires DestinationCandidates(destination, nodes).Success?
    ensures c in DestinationCandidates(destination, nodes).value <==>
      (destination == Some(c.destinationGuid) &&
       exists y :: y in nodes && y.nodeGuid == c.nodeGuid && y.securityPlanUids.Some? && c.planUid in y.securityPlanUids.value)
    decreases |nodes|
  {
    if nodes != [] {
      var y0 := nodes[0];
      DestinationCandidatesMembers(destination, nodes[1..], c);
      var uids := y0.securityPlanUids.value;
      if c in NodeCandidates(destination, y0).value {
        var i :| 0 <= i < |uids| && NodeCandidates(destination, y0).value[i] == c;
        assert c.planUid in uids;
      }
      if destination == Some(c.destinationGuid) && y0.nodeGuid == c.nodeGuid && c.planUid in uids {
        var i :| 0 <= i < |uids| && uids[i] == c.planUid;
        assert NodeCandidates(destination, y0).value[i] == c;
      }
      assert forall y :: y in nodes <==> y == y0 || y in nodes[1..];
    }
  }

  /** Each candidate of the comprehension is one (destination, node, plan uid)
      triple of the input, and each such triple is a candidate. */
  lemma {:induction false} FlattenMembers(locations: seq<DestinationLocations>, c: Candidate)
    requires Flatten(locations).Success?
    ensures c in Flatten(locations).value <==> Yields(locations, c)
    decreases |locations|
  {
    if locations != [] {
      var x := locations[0];
      var nodes := x.securityPlanLocationsByNode.value;
      FlattenMembers(locations[1..], c);
      DestinationCandidatesMembers(x.destinationGuid, nodes, c);
      if c in DestinationCandidates(x.destinationGuid, nodes).value {
        var y :| y in nodes && y.nodeGuid == c.nodeGuid && y.securityPlanUids.Some? && c.planUid in y.securityPlanUids.value;
        assert x in locations;
      }
      if Yields(locations[1..], c) {
        var x', y' :| x' in locations[1..] && x'.destinationGuid == Some(c.destinationGuid)
          && x'.securityPlanLocationsByNode.Some? && y' in x'.securityPlanLocationsByNode.value
          && y'.nodeGuid == c.nodeGuid && y'.securityPlanUids.Some? && c.planUid in y'.securityPlanUids.value;
        assert x' in locations;
      }
      if Yields(locations, c) {
        var x', y' :| x' in locations && x'.destinationGuid == Some(c.destinationGuid)
          && x'.securityPlanLocationsByNode.Some? && y' in x'.securityPlanLocationsByNode.value
          && y'.nodeGuid == c.nodeGuid && y'.securityPlanUids.Some? && c.planUid in y'.securityPlanUids.value;
        if x' != x {
          assert x' in locations[1..];
        }
      }
    }
  }

  // ---------------------------------------------------------------------------
  // Grouping by plan uid.

  /** Plan uids in order of first appearance. */
  function PlanOrder(cs: seq<Candidate>): (r: seq<PlanUid>)
    ensures forall i, j :: 0 <= i < j < |r| ==> r[i] != r[j]
    ensures forall k :: k in r <==> exists c :: c in cs && c.planUid == k
  {
    if cs == [] then []
    else
      var prefix := PlanOrder(cs[..|cs| - 1]);
      var last := cs[|cs| - 1];
      assert forall c :: c in cs <==> c in cs[..|cs| - 1] || c == last;
      if last.planUid in prefix then prefix else prefix + [last.planUid]
  }

  /** The candidates of plan `k`, in input order. */
  function Select(cs: seq<Candidate>, k: PlanUid): (r: seq<Candidate>)
    ensures forall c :: c in r <==> c in cs && c.planUid == k
  {
    if cs == [] then []
    else
      var last := cs[|cs| - 1];
      assert forall c :: c in cs <==> c in cs[..|cs| - 1] || c == last;
      Select(cs[..|cs| - 1], k) + (if last.planUid == k then [last] else [])
  }

  /** Grouping keeps input order: the group of a concatenation is the
      concatenation of the groups. */
  lemma {:induction false} SelectAppend(a: seq<Candidate>, b: seq<Candidate>, k: PlanUid)
    ensures Select(a + b, k) == Select(a, k) + Select(b, k)
    decreases |b|
  {
    if b != [] {
      var b' := b[..|b| - 1];
      assert (a + b)[..|a + b| - 1] == a + b';
      SelectAppend(a, b', k);
    } else {
      assert a + b == a;
    }
  }

  /** The dict the grouping loop builds. */
  ghost function Grouped(cs: seq<Candidate>): PlanDict
  {
    PlanDict(PlanOrder(cs), map k | k in PlanOrder(cs) :: Select(cs, k))
  }

  lemma GroupedValid(cs: seq<Candidate>)
    ensures ValidPlans(Grouped(cs))
  {
    var d := Grouped(cs);
    forall k | k in d.lists
      ensures d.lists[k] != []
    {
      var c :| c in cs && c.planUid == k;
      assert c in Select(cs, k);
    }
  }

  lemma PlanOrderSnoc(cs: seq<Candidate>, p: Candidate)
    ensures PlanOrder(cs + [p]) ==
      if p.planUid in PlanOrder(cs) then PlanOrder(cs) else PlanOrder(cs) + [p.planUid]
  {
    assert (cs + [p])[..|cs|] == cs;
  }

  lemma SelectSnoc(cs: seq<Candidate>, p: Candidate, k: PlanUid)
    ensures Select(cs + [p], k) == Select(cs, k) + (if p.planUid == k then [p] else [])
  {
    assert (cs + [p])[..|cs|] == cs;
  }

  lemma SelectAbsent(cs: seq<Candidate>, k: PlanUid)
    requires k !in PlanOrder(cs)
    ensures Select(cs, k) == []
  {
    if Select(cs, k) != [] {
      assert Select(cs, k)[0] in Select(cs, k);
    }
  }

  lemma TakeOneMore<T>(s: seq<T>, i: nat)
    requires i < |s|
    ensures s[..i + 1] == s[..i] + [s[i]]
  {
  }

  /** The grouping loop's invariant after the candidates `cs`. */
  ghost predicate GroupedSoFar(cs: seq<Candidate>, keys: seq<PlanUid>, lists: map<PlanUid, seq<Candidate>>)
  {
    && keys == PlanOrder(cs)
    && (forall k :: k in lists <==> k in keys)
    && (forall k :: k in lists ==> lists[k] == Select(cs, k))
  }

  lemma GroupStep(cs: seq<Candidate>, p: Candidate, keys: seq<PlanUid>, lists: map<PlanUid, seq<Candidate>>,
                  keys': seq<PlanUid>, lists': map<PlanUid, seq<Candidate>>)
    requires GroupedSoFar(cs, keys, lists)
    requires keys' == if p.planUid in lists then keys else keys + [p.planUid]
    requires lists' == lists[p.planUid := (if p.planUid in lists then lists[p.planUid] else []) + [p]]
    ensures GroupedSoFar(cs + [p], keys', lists')
  {
    var k0 := p.planUid;
    assert keys' == PlanOrder(cs + [p]) by {
      PlanOrderSnoc(cs, p);
    }
    assert forall k :: k in lists' <==> k in keys';
    assert forall k :: k in lists' ==> lists'[k] == Select(cs + [p], k) by {
      forall k | k in lists'
        ensures lists'[k] == Select(cs + [p], k)
      {
        SelectSnoc(cs, p, k);
        if k == k0 && k0 !in lists {
          SelectAbsent(cs, k0);
        }
      }
    }
  }

  lemma GroupedDone(cs: seq<Candidate>, keys: seq<PlanUid>, lists: map<PlanUid, seq<Candidate>>)
    requires GroupedSoFar(cs, keys, lists)
    ensures PlanDict(keys, lists) == Grouped(cs)
  {
    assert lists == map k | k in PlanOrder(cs) :: Select(cs, k);
  }

  /** The loop that files each candidate under its plan uid, creating the
      list on first sight. */
  method GroupByPlan(plans: seq<Candidate>) returns (d: PlanDict)
    ensures d == Grouped(plans)
  {
    var keys: seq<PlanUid> := [];
    var lists: map<PlanUid, seq<Candidate>> := map[];
    for i := 0 to |plans|
      invariant GroupedSoFar(plans[..i], keys, lists)
    {
      var p := plans[i];
      ghost var keys0, lists0 := keys, lists;
      if p.planUid !in lists {
        lists := lists[p.planUid := []];
        keys := keys + [p.planUid];
      }
      lists := lists[p.planUid := lists[p.planUid] + [Candidate(p.destinationGuid, p.nodeGuid, p.planUid)]];
      GroupStep(plans[..i], p, keys0, lists0, keys, lists);
      TakeOneMore(plans, i);
    }
    assert plans[..|plans|] == plans;
    GroupedDone(plans, keys, lists);
    d := PlanDict(keys, lists);
  }

  // ---------------------------------------------------------------------------
  // The whole normalisation.

  ghost predicate IsLegacy(body: LocationBody)
  {
    body.storageNodeGuids.Some? && body.storageNodeGuids.value != []
  }

  /** The plan dict a location response yields, or the fault it raises. */
  ghost function Normalized(response: LocationResponse): Result<PlanDict, Fault>
  {
    if response.statusCode == 404 || response.content.None? then Success(NoPlans)
    else
      var body := response.content.value;
      if IsLegacy(body) then
        Success(PlanDict([body.planUid], map[body.planUid := LegacyList(body.planUid, body.storageNodeGuids.value)]))
      else
        match body.securityPlanLocationsByDestination
        case None => Failure(Malformed("securityPlanLocationsByDestination"))
        case Some(locations) =>
          match Flatten(locations)
          case Failure(f) => Failure(f)
          case Success(cs) => Success(Grouped(cs))
  }

  method NormalizeLocations(response: LocationResponse) returns (r: Result<PlanDict, Fault>)
    ensures r == Normalized(response)
  {
    if response.statusCode != 404 && response.content.Some? {
      var body := response.content.value;
      var destinationList := body.storageNodeGuids;
      if destinationList.Some? && destinationList.value != [] {
        var list := CollectLegacyCandidates(body.planUid, destinationList.value);
        return Success(PlanDict([body.planUid], map[body.planUid := list]));
      }
      var locationList := body.securityPlanLocationsByDestination;
      if locationList.None? {
        return Failure(Malformed("securityPlanLocationsByDestination"));
      }
      var plans := Flatten(locationList.value);
      if plans.Failure? {
        return Failure(plans.error);
      }
      var d := GroupByPlan(plans.value);
      return Success(d);
    }
    return Success(NoPlans);
  }

  /** A 404 or an empty body yields no plans; any other response yields a
      well-formed plan dict or a fault. */
  lemma NormalizedShape(response: LocationResponse)
    ensures response.statusCode == 404 || response.content.None? ==> Normalized(response) == Success(NoPlans)
    ensures Normalized(response).Success? ==> ValidPlans(Normalized(response).value)
  {
    if response.statusCode != 404 && response.content.Some? {
      var body := response.content.value;
      if !IsLegacy(body) && Normalized(response).Success? {
        GroupedValid(Flatten(body.securityPlanLocationsByDestination.value).value);
      }
    }
  }

  /** Legacy shape: one plan key; one candidate per destination, in input
      order, without a node guid. */
  lemma LegacyShape(response: LocationResponse)
    requires response.statusCode != 404 && response.content.Some?
    requires IsLegacy(response.content.value)
    ensures
      var body := response.content.value;
      var guids := body.storageNodeGuids.value;
      var r := Normalized(response);
      && r.Success? && r.value.keys == [body.planUid] && r.value.lists.Keys == {body.planUid}
      && |r.value.lists[body.planUid]| == |guids|
      && forall i :: 0 <= i < |guids| ==>
           r.value.lists[body.planUid][i] == Candidate(guids[i], Absent, body.planUid)
  {
  }

  /** Current shape (also taken when `storageNodeGuids` is missing or empty):
      a fault exactly when some walked entry is malformed; otherwise the group
      of each plan holds exactly the triples naming that plan, in triple
      order, each with a node guid member. */
  lemma CurrentShape(response: LocationResponse)
    requires response.statusCode != 404 && response.content.Some?
    requires !IsLegacy(response.content.value)
    ensures
      var locations := response.content.value.securityPlanLocationsByDestination;
      Normalized(response).Success? <==>
        locations.Some? && forall x :: x in locations.value ==> WellFormedDestination(x)
    ensures Normalized(response).Success? ==>
      var locations := response.content.value.securityPlanLocationsByDestination.value;
      var d := Normalized(response).value;
      && d.lists == (map k | k in d.keys :: Select(Flatten(locations).value, k))
      && forall c: Candidate :: (c.planUid in d.lists && c in d.lists[c.planUid]) <==> Yields(locations, c)
  {
    var locations := response.content.value.securityPlanLocationsByDestination;
    if locations.Some? {
      FlattenFails(locations.value);
      if Flatten(locations.value).Success? {
        forall c ensures c in Flatten(locations.value).value <==> Yields(locations.value, c) {
          FlattenMembers(locations.value, c);
        }
      }
    }
  }
}
