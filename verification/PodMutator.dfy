/** The webhook that annotates pods with the capacity they need from each device class. */
module PodMutators {
  import opened Wrappers
  import opened Constants
  import opened Numbers
  import opened Decimal
  import opened NodeAnnotations

  const PLUGIN_NAME := "topolvm.io"

  datatype StorageClass = StorageClass(provisioner: string, deviceClass: Option<string>)

  datatype Claim = Claim(storageClass: Option<string>, pending: bool, request: Option<Int64>)

  datatype Volume = ClaimVolume(claimName: string) | EphemeralVolume(template: Claim) | OtherVolume

  /** The API server as the webhook reads it. While it is not healthy any read may fail. */
  datatype Api = Api(claims: map<string, Claim>, classes: map<string, StorageClass>, healthy: bool) {
    method Fails() returns (fails: bool)
      ensures healthy ==> !fails
    {
      fails := *;
      fails := fails && !healthy;
    }
  }

  // ---------------------------------------------------------------- what a volume asks for

  datatype Need = Nothing | Bound | Needs(dc: string, bytes: Int64)

  /** The storage class of that name, if it is one of TopoLVM's. */
  function TargetClass(api: Api, name: string): Option<StorageClass> {
    if name in api.classes && api.classes[name].provisioner == PLUGIN_NAME then Some(api.classes[name]) else None
  }

  /** One GiB when the claim does not say how much, or says nothing. */
  function RequestedBytes(claim: Claim): Int64 {
    if claim.request.None? || claim.request.value == 0 then DEFAULT_SIZE else claim.request.value
  }

  function NeedOf(sc: StorageClass, claim: Claim): Need {
    var dc := if sc.deviceClass.None? then DEFAULT_DEVICE_CLASS_ANNOTATION_NAME else sc.deviceClass.value;
    if dc == "" then Nothing else Needs(dc, RequestedBytes(claim))
  }

  function VolumeNeed(api: Api, v: Volume): Need {
    match v
    case OtherVolume => Nothing
    case ClaimVolume(name) =>
      if name !in api.claims || api.claims[name].storageClass in {None, Some("")} then Nothing
      else
        var claim := api.claims[name];
        var sc := TargetClass(api, claim.storageClass.value);
        if sc.None? then Nothing else if !claim.pending then Bound else NeedOf(sc.value, claim)
    case EphemeralVolume(template) =>
      if template.storageClass.None? then Nothing
      else
        var sc := TargetClass(api, template.storageClass.value);
        if sc.None? then Nothing else NeedOf(sc.value, template)
  }

  /** What the first n volumes ask from one class together. */
  function Sum(api: Api, vs: seq<Volume>, n: nat, dc: string): int
    requires n <= |vs|
  {
    if n == 0 then 0
    else
      var need := VolumeNeed(api, vs[n - 1]);
      Sum(api, vs, n - 1, dc) + if need.Needs? && need.dc == dc then need.bytes else 0
  }

  /** One of the first n volumes asks for a class. */
  predicate Asked(api: Api, vs: seq<Volume>, n: nat, dc: string)
    requires n <= |vs|
  {
    n > 0 && (Asked(api, vs, n - 1, dc) || (VolumeNeed(api, vs[n - 1]).Needs? && VolumeNeed(api, vs[n - 1]).dc == dc))
  }

  lemma {:induction false} UnaskedIsZero(api: Api, vs: seq<Volume>, n: nat, dc: string)
    requires n <= |vs| && !Asked(api, vs, n, dc)
    ensures Sum(api, vs, n, dc) == 0
  {
    if n > 0 {
      UnaskedIsZero(api, vs, n - 1, dc);
    }
  }

  ghost predicate IsBound(api: Api, vs: seq<Volume>) {
    exists i :: 0 <= i < |vs| && VolumeNeed(api, vs[i]).Bound?
  }

  /** Every sum along the way is a 64-bit integer. */
  ghost predicate InRange(api: Api, vs: seq<Volume>) {
    forall n, dc :: 0 <= n <= |vs| ==> -0x8000_0000_0000_0000 <= Sum(api, vs, n, dc) < 0x8000_0000_0000_0000
  }

  function Add64(a: Int64, b: Int64): Int64 {
    var sum := a + b;
    if sum >= 0x8000_0000_0000_0000 then sum - 0x1_0000_0000_0000_0000
    else if sum < -0x8000_0000_0000_0000 then sum + 0x1_0000_0000_0000_0000
    else sum
  }

  // ---------------------------------------------------------------- the mutator

  /** Storage classes looked up once per pod; a missing or foreign class is remembered as None. */
  class TargetSC {
    const api: Api
    var cache: map<string, Option<StorageClass>>

    ghost predicate Valid()
      reads this
    {
      forall n :: n in cache ==> cache[n] == TargetClass(api, n)
    }

    constructor (api: Api)
      ensures Valid() && this.api == api
    {
      this.api, cache := api, map[];
    }

    method Get(name: string) returns (r: Result<Option<StorageClass>, ()>)
      requires Valid()
      modifies this
      ensures Valid()
      ensures r.Success? ==> r.value == TargetClass(api, name) && cache == old(cache)[name := r.value]
      ensures r.Failure? ==> !api.healthy && cache == old(cache) && name !in cache
    {
      if name in cache {
        assert cache == cache[name := cache[name]];
        return Success(cache[name]);
      }
      var fails := api.Fails();
      if fails { return Failure(()); }
      if name !in api.classes || api.classes[name].provisioner != PLUGIN_NAME {
        cache := cache[name := None];
        return Success(None);
      }
      cache := cache[name := Some(api.classes[name])];
      return Success(Some(api.classes[name]));
    }
  }

  method PvcCapacity(api: Api, name: string, targetSC: TargetSC) returns (r: Result<Need, ()>)
    requires targetSC.Valid() && targetSC.api == api
    modifies targetSC
    ensures targetSC.Valid()
    ensures r.Success? ==> r.value == VolumeNeed(api, ClaimVolume(name))
    ensures r.Failure? ==> !api.healthy
  {
    var fails := api.Fails();
    if fails { return Failure(()); }
    if name !in api.claims { return Success(Nothing); }
    var claim := api.claims[name];
    if claim.storageClass.None? || claim.storageClass.value == "" { return Success(Nothing); }
    var sc := targetSC.Get(claim.storageClass.value);
    if sc.Failure? { return Failure(()); }
    if sc.value.None? { return Success(Nothing); }
    if !claim.pending { return Success(Bound); }
    return Success(NeedOf(sc.value.value, claim));
  }

  method EphemeralCapacity(api: Api, template: Claim, targetSC: TargetSC) returns (r: Result<Need, ()>)
    requires targetSC.Valid() && targetSC.api == api
    modifies targetSC
    ensures targetSC.Valid()
    ensures r.Success? ==> r.value == VolumeNeed(api, EphemeralVolume(template))
    ensures r.Failure? ==> !api.healthy
  {
    if template.storageClass.None? { return Success(Nothing); }
    var sc := targetSC.Get(template.storageClass.value);
    if sc.Failure? { return Failure(()); }
    if sc.value.None? { return Success(Nothing); }
    return Success(NeedOf(sc.value.value, template));
  }

  /** The capacities of a pod: exactly the classes its volumes ask for, each with the sum of what they ask. */
  ghost predicate Capacities(api: Api, vs: seq<Volume>, n: nat, capacities: map<string, Int64>)
    requires n <= |vs|
  {
    && (forall dc :: dc in capacities <==> Asked(api, vs, n, dc))
    && (InRange(api, vs) ==> forall dc :: dc in capacities ==> capacities[dc] == Sum(api, vs, n, dc))
  }

  function AddNeed(capacities: map<string, Int64>, need: Need): map<string, Int64> {
    if !need.Needs? then capacities
    else capacities[need.dc := Add64(if need.dc in capacities then capacities[need.dc] else 0, need.bytes)]
  }

  lemma AddNeedIsRight(api: Api, vs: seq<Volume>, n: nat, capacities: map<string, Int64>)
    requires n < |vs| && Capacities(api, vs, n, capacities)
    ensures Capacities(api, vs, n + 1, AddNeed(capacities, VolumeNeed(api, vs[n])))
  {
    var need := VolumeNeed(api, vs[n]);
    var after := AddNeed(capacities, need);
    if InRange(api, vs) {
      forall dc | dc in after
        ensures after[dc] == Sum(api, vs, n + 1, dc)
      {
        if dc !in capacities { UnaskedIsZero(api, vs, n, dc); }
        assert -0x8000_0000_0000_0000 <= Sum(api, vs, n + 1, dc) < 0x8000_0000_0000_0000;
      }
    }
  }

  method VolumesCapacity(api: Api, vs: seq<Volume>) returns (r: Result<map<string, Int64>, ()>)
    ensures r.Failure? ==> !api.healthy
    ensures r.Success? && IsBound(api, vs) ==> r.value == map[]
    ensures r.Success? && !IsBound(api, vs) ==> Capacities(api, vs, |vs|, r.value)
  {
    var targetSC := new TargetSC(api);
    var capacities: map<string, Int64> := map[];
    for n := 0 to |vs|
      invariant targetSC.Valid() && targetSC.api == api
      invariant forall i :: 0 <= i < n ==> !VolumeNeed(api, vs[i]).Bound?
      invariant Capacities(api, vs, n, capacities)
    {
      var need: Result<Need, ()>;
      match vs[n] {
        case ClaimVolume(name) => need := PvcCapacity(api, name, targetSC);
        case EphemeralVolume(template) => need := EphemeralCapacity(api, template, targetSC);
        case OtherVolume => need := Success(Nothing);
      }
      if need.Failure? { return Failure(()); }
      if need.value.Bound? { return Success(map[]); }
      AddNeedIsRight(api, vs, n, capacities);
      capacities := AddNeed(capacities, need.value);
    }
    return Success(capacities);
  }

  // ---------------------------------------------------------------- the annotations of a pod

  datatype Container = Container(requests: map<string, nat>, limits: map<string, nat>)

  datatype Response = Errored | Denied | Allowed | Patched(annotations: map<string, string>, containers: seq<Container>)

  const CAPACITY_RESOURCE := "topolvm.io/capacity"

  /** The mark that sends a pod through the scheduler extender: one unit of the capacity resource. */
  predicate Marked(c: Container) {
    CAPACITY_RESOURCE in c.requests && c.requests[CAPACITY_RESOURCE] == 1 &&
    CAPACITY_RESOURCE in c.limits && c.limits[CAPACITY_RESOURCE] == 1
  }

  /** Capacities written over annotations, each under the key of its class. */
  ghost predicate Annotated(before: map<string, string>, capacities: map<string, Int64>, after: map<string, string>) {
    && (forall dc :: dc in capacities ==> Key(dc) in after && after[Key(dc)] == FormatInt(capacities[dc]))
    && (forall k :: k in before ==> k in after)
    && (forall k :: k in after && !IsKeyOf(k, capacities.Keys) ==> k in before && after[k] == before[k])
  }

  /** The key of one of some classes. */
  predicate IsKeyOf(k: string, dcs: set<string>) {
    CAPACITY_KEY_PREFIX <= k && k[|CAPACITY_KEY_PREFIX|..] in dcs
  }

  lemma WriteOne(before: map<string, string>, capacities: map<string, Int64>, left: set<string>, dc: string, after: map<string, string>)
    requires left <= capacities.Keys && dc in left && Annotated(before, capacities - left, after)
    ensures Annotated(before, capacities - (left - {dc}), after[Key(dc) := FormatInt(capacities[dc])])
  {
    KeyInjective(dc, dc);
    var more := after[Key(dc) := FormatInt(capacities[dc])];
    forall d | d in capacities - (left - {dc})
      ensures Key(d) in more && more[Key(d)] == FormatInt(capacities[d])
    {
      KeyInjective(d, dc);
      assert d == dc || d in capacities - left;
    }
    forall k | k in more && !IsKeyOf(k, (capacities - (left - {dc})).Keys)
      ensures k in before && more[k] == before[k]
    {
      assert !IsKeyOf(k, (capacities - left).Keys);
    }
  }

  method Annotate(before: map<string, string>, capacities: map<string, Int64>) returns (after: map<string, string>)
    ensures Annotated(before, capacities, after)
  {
    after := before;
    var left := capacities.Keys;
    while left != {}
      invariant left <= capacities.Keys && Annotated(before, capacities - left, after)
      decreases left
    {
      var dc :| dc in left;
      WriteOne(before, capacities, left, dc, after);
      left := left - {dc};
      after := after[Key(dc) := FormatInt(capacities[dc])];
    }
    assert capacities - left == capacities;
  }

  /** A pod is left alone when it asks for nothing or when one of its volumes already has a node. */
  method Handle(api: Api, containers: seq<Container>, vs: seq<Volume>, annotations: map<string, string>)
    returns (r: Response, ghost capacities: map<string, Int64>)
    ensures r.Errored? ==> !api.healthy && containers != [] && vs != []
    ensures r.Denied? <==> containers == []
    ensures r.Patched? ==>
      && |r.containers| == |containers| > 0 && r.containers[1..] == containers[1..] && Marked(r.containers[0])
      && r.containers[0].requests - {CAPACITY_RESOURCE} == containers[0].requests - {CAPACITY_RESOURCE}
      && r.containers[0].limits - {CAPACITY_RESOURCE} == containers[0].limits - {CAPACITY_RESOURCE}
    ensures r.Patched? ==> !IsBound(api, vs) && Capacities(api, vs, |vs|, capacities) && capacities != map[]
    ensures r.Patched? ==> Annotated(annotations, capacities, r.annotations)
    ensures r.Allowed? ==> IsBound(api, vs) || forall dc :: !Asked(api, vs, |vs|, dc)
  {
    capacities := map[];
    if containers == [] { return Denied, capacities; }
    if vs == [] { return Allowed, capacities; }
    var needed := VolumesCapacity(api, vs);
    if needed.Failure? { return Errored, capacities; }
    capacities := needed.value;
    if needed.value == map[] { return Allowed, capacities; }
    var ctnr := containers[0];
    ctnr := ctnr.(requests := ctnr.requests[CAPACITY_RESOURCE := 1]);
    ctnr := ctnr.(limits := ctnr.limits[CAPACITY_RESOURCE := 1]);
    var after := Annotate(annotations, needed.value);
    return Patched(after, containers[0 := ctnr]), capacities;
  }
}
