/** The scheduler extender: what a pod asks for, and the nodes that can give it. */
module Schedulers {
  import opened Wrappers
  import opened Numbers
  import opened Decimal
  import opened DeviceClasses
  import opened Lvms
  import opened Booking
  import opened VgServices
  import opened NodeAnnotations
  import opened PodMutators

  datatype Node = Node(name: string, annotations: map<string, string>)

  datatype Reason = Fits | NoAnnotation | BadAnnotation(val: string) | OutOfSpace

  datatype FilterResult = FilterResult(nodes: seq<Node>, failedNodes: map<string, Reason>)

  // ---------------------------------------------------------------- what a pod asks for

  /** The sizes that can be read from the capacity annotations. */
  ghost predicate Extracted(annotations: map<string, string>, requested: map<string, Int64>) {
    && (forall dc :: dc in requested ==> Key(dc) in annotations && ParseInt(annotations[Key(dc)]) == Some(requested[dc]))
    && (forall k :: k in annotations && CAPACITY_KEY_PREFIX <= k && ParseInt(annotations[k]).Some? ==> k[|CAPACITY_KEY_PREFIX|..] in requested)
  }

  method ExtractRequestedSize(annotations: map<string, string>) returns (requested: map<string, Int64>)
    ensures Extracted(annotations, requested)
  {
    requested := map[];
    var left := annotations.Keys;
    while left != {}
      invariant left <= annotations.Keys
      invariant forall dc :: dc in requested ==> Key(dc) in annotations && ParseInt(annotations[Key(dc)]) == Some(requested[dc])
      invariant forall k :: k in annotations && k !in left && CAPACITY_KEY_PREFIX <= k && ParseInt(annotations[k]).Some? ==>
        k[|CAPACITY_KEY_PREFIX|..] in requested
      decreases left
    {
      var k :| k in left;
      left := left - {k};
      if CAPACITY_KEY_PREFIX <= k {
        var dc := k[|CAPACITY_KEY_PREFIX|..];
        assert Key(dc) == k;
        var capacity := ParseInt(annotations[k]);
        if capacity.Some? {
          requested := requested[dc := capacity.value];
        }
      }
    }
  }

  /** What a pod is annotated with is read back: the new capacities, over whatever could be read before. */
  lemma AnnotationRoundTrip(before: map<string, string>, capacities: map<string, Int64>, after: map<string, string>,
                            prior: map<string, Int64>, requested: map<string, Int64>)
    requires Annotated(before, capacities, after) && Extracted(before, prior) && Extracted(after, requested)
    ensures requested == prior + capacities
  {
    forall dc
      ensures dc in requested <==> dc in prior + capacities
      ensures dc in requested ==> requested[dc] == (prior + capacities)[dc]
    {
      KeyInjective(dc, dc);
      if dc in capacities {
        IntRoundTrip(capacities[dc]);
      }
    }
  }

  /** For a pod without capacity annotations that is exactly the sum of what its volumes ask from each class. */
  lemma WebhookRoundTrip(api: Api, vs: seq<Volume>, before: map<string, string>, capacities: map<string, Int64>,
                         after: map<string, string>, requested: map<string, Int64>)
    requires Capacities(api, vs, |vs|, capacities) && InRange(api, vs)
    requires Annotated(before, capacities, after) && Extracted(after, requested)
    requires forall k :: k in before ==> !(CAPACITY_KEY_PREFIX <= k)
    ensures forall dc :: dc in requested <==> Asked(api, vs, |vs|, dc)
    ensures forall dc :: dc in requested ==> requested[dc] == Sum(api, vs, |vs|, dc)
  {
    AnnotationRoundTrip(before, capacities, after, map[], requested);
    assert requested == capacities;
  }

  // ---------------------------------------------------------------- which nodes can give it

  predicate Meets(node: Node, dc: string, required: Int64) {
    && Key(dc) in node.annotations
    && ParseUint(node.annotations[Key(dc)]).Some?
    && ToUint64(required) <= ParseUint(node.annotations[Key(dc)]).value
  }

  predicate MeetsAll(node: Node, requested: map<string, Int64>) {
    forall dc :: dc in requested ==> Meets(node, dc, requested[dc])
  }

  method FilterNode(node: Node, requested: map<string, Int64>) returns (reason: Reason)
    ensures reason.Fits? <==> MeetsAll(node, requested)
  {
    var left := requested.Keys;
    while left != {}
      invariant left <= requested.Keys
      invariant forall dc :: dc in requested && dc !in left ==> Meets(node, dc, requested[dc])
      decreases left
    {
      var dc :| dc in left;
      left := left - {dc};
      if Key(dc) !in node.annotations { return NoAnnotation; }
      var val := node.annotations[Key(dc)];
      var capacity := ParseUint(val);
      if capacity.None? { return BadAnnotation(val); }
      if capacity.value < ToUint64(requested[dc]) { return OutOfSpace; }
    }
    return Fits;
  }

  /** The nodes that meet a request, in their order. */
  function Kept(nodes: seq<Node>, requested: map<string, Int64>): seq<Node> {
    if nodes == [] then []
    else
      var last := nodes[|nodes| - 1];
      Kept(nodes[..|nodes| - 1], requested) + if MeetsAll(last, requested) then [last] else []
  }

  /** The reason for each node, found independently of the others. */
  method Reasons(nodes: seq<Node>, requested: map<string, Int64>) returns (reasons: seq<Reason>)
    ensures |reasons| == |nodes|
    ensures forall i :: 0 <= i < |nodes| ==> (reasons[i].Fits? <==> MeetsAll(nodes[i], requested))
  {
    var slots := new Reason[|nodes|];
    for i := 0 to |nodes|
      invariant forall j :: 0 <= j < i ==> (slots[j].Fits? <==> MeetsAll(nodes[j], requested))
    {
      slots[i] := FilterNode(nodes[i], requested);
    }
    return slots[..];
  }

  /** Some node of that name does not meet the request. */
  ghost predicate Rejected(nodes: seq<Node>, requested: map<string, Int64>, name: string) {
    exists i :: 0 <= i < |nodes| && nodes[i].name == name && !MeetsAll(nodes[i], requested)
  }

  /** The nodes without a reason against them, in their order. */
  function Select(nodes: seq<Node>, reasons: seq<Reason>): seq<Node>
    requires |reasons| == |nodes|
  {
    if nodes == [] then []
    else
      var n := |nodes| - 1;
      Select(nodes[..n], reasons[..n]) + if reasons[n].Fits? then [nodes[n]] else []
  }

  lemma {:induction false} SelectIsKept(nodes: seq<Node>, reasons: seq<Reason>, requested: map<string, Int64>)
    requires |reasons| == |nodes|
    requires forall i :: 0 <= i < |nodes| ==> (reasons[i].Fits? <==> MeetsAll(nodes[i], requested))
    ensures Select(nodes, reasons) == Kept(nodes, requested)
  {
    if nodes != [] {
      SelectIsKept(nodes[..|nodes| - 1], reasons[..|nodes| - 1], requested);
    }
  }

  ghost predicate FailsAs(nodes: seq<Node>, reasons: seq<Reason>, name: string, reason: Reason) {
    |reasons| == |nodes| && exists i :: 0 <= i < |nodes| && nodes[i].name == name && reasons[i] == reason && !reason.Fits?
  }

  /** Sorts the nodes into those without a reason and those with one. */
  method Collect(nodes: seq<Node>, reasons: seq<Reason>) returns (r: FilterResult)
    requires |reasons| == |nodes|
    ensures r.nodes == Select(nodes, reasons)
    ensures forall i :: 0 <= i < |nodes| && !reasons[i].Fits? ==> nodes[i].name in r.failedNodes
    ensures forall name :: name in r.failedNodes ==> FailsAs(nodes, reasons, name, r.failedNodes[name])
  {
    var kept: seq<Node> := [];
    var failed: map<string, Reason> := map[];
    for i := 0 to |nodes|
      invariant kept == Select(nodes[..i], reasons[..i])
      invariant forall j :: 0 <= j < i && !reasons[j].Fits? ==> nodes[j].name in failed
      invariant forall name :: name in failed ==> FailsAs(nodes, reasons, name, failed[name])
    {
      assert nodes[..i + 1][..i] == nodes[..i] && reasons[..i + 1][..i] == reasons[..i];
      if reasons[i].Fits? {
        kept := kept + [nodes[i]];
      } else {
        assert FailsAs(nodes, reasons, nodes[i].name, reasons[i]);
        failed := failed[nodes[i].name := reasons[i]];
      }
    }
    assert nodes[..|nodes|] == nodes && reasons[..|nodes|] == reasons;
    return FilterResult(kept, failed);
  }

  method FilterNodes(nodes: seq<Node>, requested: map<string, Int64>) returns (r: FilterResult)
    ensures requested == map[] ==> r == FilterResult(nodes, map[])
    ensures r.nodes == Kept(nodes, requested)
    ensures forall i :: 0 <= i < |nodes| && !MeetsAll(nodes[i], requested) ==> nodes[i].name in r.failedNodes
    ensures forall name :: name in r.failedNodes ==> !r.failedNodes[name].Fits? && Rejected(nodes, requested, name)
  {
    if requested == map[] {
      AllKept(nodes, requested);
      return FilterResult(nodes, map[]);
    }
    var reasons := Reasons(nodes, requested);
    r := Collect(nodes, reasons);
    SelectIsKept(nodes, reasons, requested);
    forall name | name in r.failedNodes
      ensures !r.failedNodes[name].Fits? && Rejected(nodes, requested, name)
    {
      assert FailsAs(nodes, reasons, name, r.failedNodes[name]);
    }
  }

  lemma {:induction false} AllKept(nodes: seq<Node>, requested: map<string, Int64>)
    requires requested == map[]
    ensures Kept(nodes, requested) == nodes
  {
    if nodes != [] {
      AllKept(nodes[..|nodes| - 1], requested);
    }
  }

  /** A kept node is one that meets the request, and every one of those is kept. */
  lemma {:induction false} KeptExactly(nodes: seq<Node>, requested: map<string, Int64>, n: Node)
    ensures n in Kept(nodes, requested) <==> n in nodes && MeetsAll(n, requested)
  {
    if nodes != [] {
      KeptExactly(nodes[..|nodes| - 1], requested, n);
      assert nodes == nodes[..|nodes| - 1] + [nodes[|nodes| - 1]];
    }
  }

  /** On a node that advertises a class, a request is met exactly when it is within the advertised capacity. */
  lemma FilterIsExact(groups: map<string, Group>, dcs: seq<DeviceClass>, annotations: map<string, string>, res: WatchResponse,
                      k: int, node: Node, required: Int64)
    requires Accepted(dcs) && Sound(groups, dcs, res) && 0 <= k < |dcs| && Covers(groups, dcs, res, k)
    requires Backed(groups, Normalize(dcs[k])) && node.annotations == WithResponse(annotations, res)
    requires Advertised(groups, Normalize(dcs[k])) < 0x1_0000_0000_0000_0000
    ensures Meets(node, dcs[k].name, required) <==> ToUint64(required) <= Advertised(groups, Normalize(dcs[k]))
  {
    NodeAdvertises(groups, dcs, annotations, res, k);
    UintRoundTrip(Advertised(groups, Normalize(dcs[k])));
  }
}
