/**
 * From a pod to its volumes: what the webhook adds up, what the scheduler compares with the annotations of a node, and
 * what the volumes of the pod then take from the classes of that node.
 */
module Placement {
  import opened Wrappers
  import opened Constants
  import opened Numbers
  import opened Decimal
  import opened DeviceClasses
  import opened Lvms
  import opened StoragePools
  import opened LvServices
  import opened Booking
  import opened VgServices
  import opened NodeAnnotations
  import opened PodMutators
  import opened Schedulers

  // ---------------------------------------------------------------- the volumes of a pod

  /** TopoLVM's storage class of a volume that is still to be provisioned, and its claim. */
  function ToProvision(api: Api, v: Volume): Option<(StorageClass, Claim)> {
    match v
    case OtherVolume => None
    case ClaimVolume(name) =>
      if name !in api.claims || api.claims[name].storageClass in {None, Some("")} || !api.claims[name].pending then None
      else
        var sc := TargetClass(api, api.claims[name].storageClass.value);
        if sc.None? then None else Some((sc.value, api.claims[name]))
    case EphemeralVolume(template) =>
      if template.storageClass.None? then None
      else
        var sc := TargetClass(api, template.storageClass.value);
        if sc.None? then None else Some((sc.value, template))
  }

  /** The device class that the driver asks lvmd for: empty when the storage class does not name one. */
  function ClassAsked(sc: StorageClass): string {
    if sc.deviceClass.None? then "" else sc.deviceClass.value
  }

  function BookingOf(api: Api, v: Volume, name: string): Option<Booked> {
    var p := ToProvision(api, v);
    if p.None? then None else Some(Booked(name, ClassAsked(p.value.0), RequestedBytes(p.value.1)))
  }

  /** What the first n volumes of a pod ask of the lvmd of its node. */
  function Bookings(api: Api, vs: seq<Volume>, names: seq<string>, n: nat): seq<Booked>
    requires n <= |vs| == |names|
  {
    if n == 0 then []
    else
      var q := BookingOf(api, vs[n - 1], names[n - 1]);
      Bookings(api, vs, names, n - 1) + if q.Some? then [q.value] else []
  }

  /** The bytes that the first n volumes ask for under one name of a class. */
  function BookedBytes(api: Api, vs: seq<Volume>, n: nat, deviceClass: string): int
    requires n <= |vs|
  {
    if n == 0 then 0
    else
      var q := BookingOf(api, vs[n - 1], "");
      BookedBytes(api, vs, n - 1, deviceClass) + if q.Some? && q.value.deviceClass == deviceClass then q.value.size else 0
  }

  /** The same with every volume in whole extents. */
  function RoundedBytes(api: Api, vs: seq<Volume>, n: nat, deviceClass: string, extent: nat): nat
    requires n <= |vs| && extent > 0
  {
    if n == 0 then 0
    else
      var q := BookingOf(api, vs[n - 1], "");
      RoundedBytes(api, vs, n - 1, deviceClass, extent) +
      if q.Some? && q.value.deviceClass == deviceClass then RoundUp(ToUint64(q.value.size), extent) else 0
  }

  /** Every request is positive and, in the group it goes to, whole extents. */
  ghost predicate Whole(groups: map<string, Group>, dcs: seq<DeviceClass>, q: Booked) {
    && q.size > 0
    && (Named(dcs, q.deviceClass).Some? && Named(dcs, q.deviceClass).value.volumeGroup in groups ==>
          var e := groups[Named(dcs, q.deviceClass).value.volumeGroup].extent;
          e > 0 && q.size % e == 0)
  }

  ghost predicate AllWhole(groups: map<string, Group>, dcs: seq<DeviceClass>, api: Api, vs: seq<Volume>) {
    forall i {:trigger vs[i]} :: 0 <= i < |vs| && BookingOf(api, vs[i], "").Some? ==> Whole(groups, dcs, BookingOf(api, vs[i], "").value)
  }

  // ---------------------------------------------------------------- the webhook counts no less

  /** Under a name that is not empty the webhook counts at least what is booked; under the default annotation it also counts the unnamed. */
  lemma {:induction false} WebhookCounts(api: Api, vs: seq<Volume>, n: nat, deviceClass: string)
    requires n <= |vs| && deviceClass != "" && !IsBound(api, vs)
    requires forall i :: 0 <= i < |vs| && BookingOf(api, vs[i], "").Some? ==> BookingOf(api, vs[i], "").value.size > 0
    ensures 0 <= BookedBytes(api, vs, n, deviceClass) <= Sum(api, vs, n, deviceClass)
    ensures deviceClass != DEFAULT_DEVICE_CLASS_ANNOTATION_NAME ==> BookedBytes(api, vs, n, deviceClass) == Sum(api, vs, n, deviceClass)
    ensures BookedBytes(api, vs, n, deviceClass) > 0 ==> Asked(api, vs, n, deviceClass)
  {
    if n > 0 {
      WebhookCounts(api, vs, n - 1, deviceClass);
      NeedIsBooked(api, vs[n - 1]);
    }
  }

  /** What the webhook makes of one volume, in terms of the booking it becomes. */
  lemma NeedIsBooked(api: Api, v: Volume)
    ensures var q, need := BookingOf(api, v, ""), VolumeNeed(api, v);
      && (q.None? ==> !need.Needs?)
      && (q.Some? && q.value.deviceClass != "" ==> need == Needs(q.value.deviceClass, q.value.size))
      && (q.Some? && q.value.deviceClass == "" ==> need in {Nothing, Needs(DEFAULT_DEVICE_CLASS_ANNOTATION_NAME, q.value.size)})
  {
  }

  // ---------------------------------------------------------------- what a class has to give

  lemma {:induction false} DemandAppend(rs: seq<Booked>, q: Booked, dcs: seq<DeviceClass>, dc: DeviceClass, e: nat)
    requires e > 0
    ensures Demand(rs + [q], dcs, dc, e) ==
      Demand(rs, dcs, dc, e) + if Named(dcs, q.deviceClass) == Some(dc) then RoundUp(ToUint64(q.size), e) else 0
  {
    if rs == [] {
      assert rs + [q] == [q];
    } else {
      assert (rs + [q])[1..] == rs[1..] + [q];
      DemandAppend(rs[1..], q, dcs, dc, e);
    }
  }

  /** A class is addressed by its own name and, if it is the default, by the empty one. */
  lemma Resolves(dcs: seq<DeviceClass>, k: int, name: string)
    requires Accepted(dcs) && 0 <= k < |dcs|
    ensures Named(dcs, name) == Some(Normalize(dcs[k])) <==> name == dcs[k].name || (name == "" && dcs[k].isDefault)
  {
    assert WellFormed(dcs[k]);
    SearchFinds(dcs, WithName(dcs[k].name), k);
    if dcs[k].isDefault {
      SearchFinds(dcs, TheDefault, k);
    }
    if Named(dcs, name).Some? {
      var m := NamedAt(dcs, name);
      NamedMatches(dcs, name, m);
      if m != k {
        assert !Clash(dcs[m], dcs[k]) || !Clash(dcs[k], dcs[m]);
      }
    }
  }

  /** The class that is found bears the name, or is the default for the empty one. */
  lemma NamedMatches(dcs: seq<DeviceClass>, name: string, m: int)
    requires Accepted(dcs) && 0 <= m < |dcs| && Named(dcs, name) == Some(Normalize(dcs[m]))
    ensures dcs[m].name == name || (name == "" && dcs[m].isDefault)
  {
    SearchMatches(dcs, TheDefault);
    SearchMatches(dcs, WithName(name));
  }

  lemma {:induction false} SearchMatches(dcs: seq<DeviceClass>, q: Query)
    ensures Search(dcs, q).Some? && q.TheDefault? ==> Search(dcs, q).value.isDefault
    ensures Search(dcs, q).Some? && q.WithName? ==> Search(dcs, q).value.name == q.name
  {
    if dcs != [] && !Matches(q, dcs[0]) {
      SearchMatches(dcs[1..], q);
    }
  }

  /** The demand on a class is what is booked under its names, in whole extents. */
  lemma {:induction false} DemandIs(dcs: seq<DeviceClass>, api: Api, vs: seq<Volume>, names: seq<string>, n: nat, k: int, e: nat)
    requires Accepted(dcs) && 0 <= k < |dcs| && n <= |vs| == |names| && e > 0
    ensures Demand(Bookings(api, vs, names, n), dcs, Normalize(dcs[k]), e) ==
      RoundedBytes(api, vs, n, dcs[k].name, e) + if dcs[k].isDefault then RoundedBytes(api, vs, n, "", e) else 0
  {
    if n > 0 {
      DemandIs(dcs, api, vs, names, n - 1, k, e);
      var q, before := BookingOf(api, vs[n - 1], names[n - 1]), Bookings(api, vs, names, n - 1);
      assert Bookings(api, vs, names, n) == if q.Some? then before + [q.value] else before;
      if q.Some? {
        DemandAppend(before, q.value, dcs, Normalize(dcs[k]), e);
        Resolves(dcs, k, q.value.deviceClass);
        assert WellFormed(dcs[k]);
      }
    }
  }

  /** Under a name of a class, whole-extent requests are not rounded. */
  lemma {:induction false} WholeIsRounded(groups: map<string, Group>, dcs: seq<DeviceClass>, api: Api, vs: seq<Volume>, n: nat, k: int, name: string)
    requires Accepted(dcs) && 0 <= k < |dcs| && n <= |vs| && AllWhole(groups, dcs, api, vs)
    requires dcs[k].volumeGroup in groups && groups[dcs[k].volumeGroup].extent > 0
    requires name == dcs[k].name || (name == "" && dcs[k].isDefault)
    ensures RoundedBytes(api, vs, n, name, groups[dcs[k].volumeGroup].extent) == BookedBytes(api, vs, n, name)
  {
    if n > 0 {
      WholeIsRounded(groups, dcs, api, vs, n - 1, k, name);
      var q := BookingOf(api, vs[n - 1], "");
      if q.Some? && q.value.deviceClass == name {
        Resolves(dcs, k, name);
        assert Whole(groups, dcs, q.value);
        RoundUpIsLeast(q.value.size, groups[dcs[k].volumeGroup].extent);
      }
    }
  }

  // ---------------------------------------------------------------- a node that the scheduler keeps

  /** An annotated node: every class that has something to allocate from is advertised on it, on 64 bits. */
  ghost predicate Annotates(groups: map<string, Group>, dcs: seq<DeviceClass>, prior: map<string, string>, res: WatchResponse, node: Node) {
    && Accepted(dcs) && Sound(groups, dcs, res) && node.annotations == WithResponse(prior, res)
    && (forall k {:trigger dcs[k]} :: 0 <= k < |dcs| ==> Covers(groups, dcs, res, k))
    && (forall k {:trigger dcs[k]} :: 0 <= k < |dcs| && Backed(groups, Normalize(dcs[k])) ==>
          Advertised(groups, Normalize(dcs[k])) < 0x1_0000_0000_0000_0000)
  }

  /** What the scheduler reads from the annotations of a pod is what its volumes ask for. */
  ghost predicate Requests(api: Api, vs: seq<Volume>, requested: map<string, Int64>) {
    && (forall dc :: dc in requested <==> Asked(api, vs, |vs|, dc))
    && (forall dc :: dc in requested ==> requested[dc] == Sum(api, vs, |vs|, dc))
  }

  /** The webhook and the scheduler make sure of that for a pod that came without capacity annotations. */
  lemma AnnotatedPodRequests(api: Api, vs: seq<Volume>, before: map<string, string>, capacities: map<string, Int64>,
                             after: map<string, string>, requested: map<string, Int64>)
    requires Capacities(api, vs, |vs|, capacities) && InRange(api, vs)
    requires Annotated(before, capacities, after) && Extracted(after, requested)
    requires forall k :: k in before ==> !(CAPACITY_KEY_PREFIX <= k)
    ensures Requests(api, vs, requested)
  {
    WebhookRoundTrip(api, vs, before, capacities, after, requested);
  }

  /** What is booked under the two names of the default class together is within its advertised capacity. */
  ghost predicate DefaultFits(groups: map<string, Group>, dcs: seq<DeviceClass>, api: Api, vs: seq<Volume>) {
    forall k {:trigger dcs[k]} :: 0 <= k < |dcs| && dcs[k].isDefault && Backed(groups, Normalize(dcs[k])) ==>
      BookedBytes(api, vs, |vs|, dcs[k].name) + BookedBytes(api, vs, |vs|, "") <= Advertised(groups, Normalize(dcs[k]))
  }

  /** On a kept node what is booked under the name of a class is within its advertised capacity. */
  lemma KeptNodeHasRoomByName(groups: map<string, Group>, dcs: seq<DeviceClass>, prior: map<string, string>, res: WatchResponse,
                              node: Node, api: Api, vs: seq<Volume>, requested: map<string, Int64>, k: int)
    requires Annotates(groups, dcs, prior, res, node) && Requests(api, vs, requested) && MeetsAll(node, requested)
    requires !IsBound(api, vs) && AllWhole(groups, dcs, api, vs)
    requires 0 <= k < |dcs| && Backed(groups, Normalize(dcs[k]))
    ensures 0 <= BookedBytes(api, vs, |vs|, dcs[k].name) <= Advertised(groups, Normalize(dcs[k]))
  {
    var name := dcs[k].name;
    assert WellFormed(dcs[k]);
    forall i | 0 <= i < |vs| && BookingOf(api, vs[i], "").Some?
      ensures BookingOf(api, vs[i], "").value.size > 0
    {
      assert Whole(groups, dcs, BookingOf(api, vs[i], "").value);
    }
    WebhookCounts(api, vs, |vs|, name);
    if BookedBytes(api, vs, |vs|, name) > 0 {
      assert name in requested && Meets(node, name, requested[name]);
      FilterIsExact(groups, dcs, prior, res, k, node, requested[name]);
    }
  }

  /** What is booked under the names of a class, every volume in whole extents, is within its advertised capacity. */
  ghost predicate RoomIn(groups: map<string, Group>, listed: DeviceClass, api: Api, vs: seq<Volume>) {
    var dc := Normalize(listed);
    Backed(groups, dc) && groups[dc.volumeGroup].extent > 0 ==>
      RoundedBytes(api, vs, |vs|, listed.name, groups[dc.volumeGroup].extent) +
      (if listed.isDefault then RoundedBytes(api, vs, |vs|, "", groups[dc.volumeGroup].extent) else 0) <= Advertised(groups, dc)
  }

  ghost predicate RoomFor(groups: map<string, Group>, dcs: seq<DeviceClass>, api: Api, vs: seq<Volume>) {
    forall k {:trigger dcs[k]} :: 0 <= k < |dcs| ==> RoomIn(groups, dcs[k], api, vs)
  }

  /** Whatever the requests, a node has room for the volumes of a pod exactly when they fit in whole extents under the names of each class. */
  lemma RoomExactly(groups: map<string, Group>, dcs: seq<DeviceClass>, api: Api, vs: seq<Volume>, names: seq<string>)
    requires Accepted(dcs) && |names| == |vs|
    ensures AllWithinAdvertised(groups, dcs, Bookings(api, vs, names, |vs|)) <==> RoomFor(groups, dcs, api, vs)
  {
    var rs := Bookings(api, vs, names, |vs|);
    forall k | 0 <= k < |dcs|
      ensures WithinAdvertised(groups, dcs, rs, dcs[k]) <==> RoomIn(groups, dcs[k], api, vs)
    {
      if Backed(groups, Normalize(dcs[k])) && groups[dcs[k].volumeGroup].extent > 0 {
        DemandIs(dcs, api, vs, names, |vs|, k, groups[dcs[k].volumeGroup].extent);
      }
    }
  }

  lemma WholeRoomIn(groups: map<string, Group>, dcs: seq<DeviceClass>, api: Api, vs: seq<Volume>, k: int)
    requires Accepted(dcs) && 0 <= k < |dcs| && AllWhole(groups, dcs, api, vs)
    requires Backed(groups, Normalize(dcs[k])) && groups[dcs[k].volumeGroup].extent > 0
    ensures RoomIn(groups, dcs[k], api, vs) <==>
      BookedBytes(api, vs, |vs|, dcs[k].name) + (if dcs[k].isDefault then BookedBytes(api, vs, |vs|, "") else 0) <= Advertised(groups, Normalize(dcs[k]))
  {
    WholeIsRounded(groups, dcs, api, vs, |vs|, k, dcs[k].name);
    if dcs[k].isDefault {
      WholeIsRounded(groups, dcs, api, vs, |vs|, k, "");
    }
  }

  lemma KeptNodeHasRoomForWhole(groups: map<string, Group>, dcs: seq<DeviceClass>, prior: map<string, string>, res: WatchResponse,
                                node: Node, api: Api, vs: seq<Volume>, requested: map<string, Int64>)
    requires Annotates(groups, dcs, prior, res, node) && Requests(api, vs, requested) && MeetsAll(node, requested)
    requires !IsBound(api, vs) && AllWhole(groups, dcs, api, vs)
    requires forall v :: v in groups ==> groups[v].extent > 0
    ensures RoomFor(groups, dcs, api, vs) <==> DefaultFits(groups, dcs, api, vs)
  {
    forall k | 0 <= k < |dcs|
      ensures RoomIn(groups, dcs[k], api, vs) <==>
        (dcs[k].isDefault && Backed(groups, Normalize(dcs[k])) ==>
           BookedBytes(api, vs, |vs|, dcs[k].name) + BookedBytes(api, vs, |vs|, "") <= Advertised(groups, Normalize(dcs[k])))
    {
      if Backed(groups, Normalize(dcs[k])) {
        WholeRoomIn(groups, dcs, api, vs, k);
        KeptNodeHasRoomByName(groups, dcs, prior, res, node, api, vs, requested, k);
      }
    }
  }

  /**
   * A node that the scheduler keeps has room for all volumes of the pod exactly when they fit in whole extents under the
   * names of each class. For whole-extent requests the scheduler has seen to that, except that what they ask for under
   * the two names of the default class has to fit together.
   */
  lemma KeptNodeHasRoom(groups: map<string, Group>, dcs: seq<DeviceClass>, prior: map<string, string>, res: WatchResponse,
                        node: Node, api: Api, vs: seq<Volume>, names: seq<string>, requested: map<string, Int64>)
    requires Annotates(groups, dcs, prior, res, node) && Requests(api, vs, requested) && MeetsAll(node, requested)
    requires !IsBound(api, vs) && |names| == |vs|
    requires forall v :: v in groups ==> groups[v].extent > 0
    ensures AllWithinAdvertised(groups, dcs, Bookings(api, vs, names, |vs|)) <==> RoomFor(groups, dcs, api, vs)
    ensures AllWhole(groups, dcs, api, vs) ==> (RoomFor(groups, dcs, api, vs) <==> DefaultFits(groups, dcs, api, vs))
  {
    RoomExactly(groups, dcs, api, vs, names);
    if AllWhole(groups, dcs, api, vs) {
      KeptNodeHasRoomForWhole(groups, dcs, prior, res, node, api, vs, requested);
    }
  }

  /** Where there is room, lvmd grants every volume of the pod. */
  method Provision(s: LvService, api: Api, vs: seq<Volume>, names: seq<string>) returns (granted: nat)
    requires s.Valid() && s.lvm.healthy && |names| == |vs|
    requires RoomFor(s.lvm.groups, s.dcmapper.classes, api, vs) && AllRepresentable(s.lvm.groups, s.dcmapper.classes)
    requires AllAddressable(s.lvm.groups, s.dcmapper.classes, Bookings(api, vs, names, |vs|))
    modifies s, s.lvm`groups
    ensures granted == |Bookings(api, vs, names, |vs|)| && s.Valid()
  {
    RoomExactly(s.lvm.groups, s.dcmapper.classes, api, vs, names);
    granted := CreateAll(s, Bookings(api, vs, names, |vs|));
  }

  /** So it does on a kept node for whole-extent requests that fit together under the two names of the default class. */
  method ProvisionKept(s: LvService, api: Api, vs: seq<Volume>, names: seq<string>, ghost prior: map<string, string>,
                       ghost res: WatchResponse, ghost node: Node, ghost requested: map<string, Int64>)
    returns (granted: nat)
    requires s.Valid() && s.lvm.healthy && |names| == |vs|
    requires Annotates(s.lvm.groups, s.dcmapper.classes, prior, res, node) && Requests(api, vs, requested) && MeetsAll(node, requested)
    requires !IsBound(api, vs) && AllWhole(s.lvm.groups, s.dcmapper.classes, api, vs)
    requires DefaultFits(s.lvm.groups, s.dcmapper.classes, api, vs) && AllRepresentable(s.lvm.groups, s.dcmapper.classes)
    requires AllAddressable(s.lvm.groups, s.dcmapper.classes, Bookings(api, vs, names, |vs|))
    modifies s, s.lvm`groups
    ensures granted == |Bookings(api, vs, names, |vs|)| && s.Valid()
  {
    forall v | v in s.lvm.groups
      ensures s.lvm.groups[v].extent > 0
    {
      assert ValidGroup(s.lvm.groups[v]);
    }
    KeptNodeHasRoom(s.lvm.groups, s.dcmapper.classes, prior, res, node, api, vs, names, requested);
    granted := Provision(s, api, vs, names);
  }

  // ---------------------------------------------------------------- pods that a kept node has no room for

  /** Claims of the same size: one leaves the class open, two name it. */
  function SomeClaims(bytes: Int64, name: string): Api {
    Api(map["unnamed" := Claim(Some("default"), true, Some(bytes)), "named" := Claim(Some("explicit"), true, Some(bytes)),
            "another" := Claim(Some("explicit"), true, Some(bytes))],
        map["default" := StorageClass(PLUGIN_NAME, None), "explicit" := StorageClass(PLUGIN_NAME, Some(name))], true)
  }

  /** A pod that asks under both names of the default class, and one that asks twice under the same name. */
  const BOTH := [ClaimVolume("unnamed"), ClaimVolume("named")]
  const TWICE := [ClaimVolume("named"), ClaimVolume("another")]

  lemma SomeClaimsAsk(bytes: Int64, name: string)
    requires bytes > 0 && name !in {"", DEFAULT_DEVICE_CLASS_ANNOTATION_NAME}
    ensures var api := SomeClaims(bytes, name);
      && VolumeNeed(api, BOTH[0]) == Needs(DEFAULT_DEVICE_CLASS_ANNOTATION_NAME, bytes) && VolumeNeed(api, BOTH[1]) == Needs(name, bytes)
      && VolumeNeed(api, TWICE[0]) == VolumeNeed(api, TWICE[1]) == Needs(name, bytes)
      && BookingOf(api, BOTH[0], "") == Some(Booked("", "", bytes)) && BookingOf(api, BOTH[1], "") == Some(Booked("", name, bytes))
      && BookingOf(api, TWICE[0], "") == BookingOf(api, TWICE[1], "") == Some(Booked("", name, bytes))
      && !IsBound(api, BOTH) && !IsBound(api, TWICE)
  {
  }

  lemma BothRequest(bytes: Int64, name: string)
    requires bytes > 0 && name !in {"", DEFAULT_DEVICE_CLASS_ANNOTATION_NAME}
    ensures Requests(SomeClaims(bytes, name), BOTH, map[DEFAULT_DEVICE_CLASS_ANNOTATION_NAME := bytes, name := bytes])
  {
    var api := SomeClaims(bytes, name);
    SomeClaimsAsk(bytes, name);
    forall dc
      ensures Asked(api, BOTH, 2, dc) <==> dc in {DEFAULT_DEVICE_CLASS_ANNOTATION_NAME, name}
      ensures dc in {DEFAULT_DEVICE_CLASS_ANNOTATION_NAME, name} ==> Sum(api, BOTH, 2, dc) == bytes
    {
      assert Asked(api, BOTH, 1, dc) <==> dc == DEFAULT_DEVICE_CLASS_ANNOTATION_NAME;
      assert Sum(api, BOTH, 1, dc) == if dc == DEFAULT_DEVICE_CLASS_ANNOTATION_NAME then bytes else 0;
    }
  }

  lemma TwiceRequest(bytes: Int64, name: string)
    requires 0 < 2 * bytes < 0x8000_0000_0000_0000 && name !in {"", DEFAULT_DEVICE_CLASS_ANNOTATION_NAME}
    ensures Requests(SomeClaims(bytes, name), TWICE, map[name := 2 * bytes])
  {
    var api := SomeClaims(bytes, name);
    SomeClaimsAsk(bytes, name);
    forall dc
      ensures Asked(api, TWICE, 2, dc) <==> dc == name
      ensures dc == name ==> Sum(api, TWICE, 2, dc) == 2 * bytes
    {
      assert Asked(api, TWICE, 1, dc) <==> dc == name;
      assert Sum(api, TWICE, 1, dc) == if dc == name then bytes else 0;
    }
  }

  /** In whole extents each of the two pods takes twice the rounded size. */
  lemma BothTake(bytes: Int64, name: string, e: nat)
    requires bytes > 0 && name !in {"", DEFAULT_DEVICE_CLASS_ANNOTATION_NAME} && e > 0
    ensures RoundedBytes(SomeClaims(bytes, name), BOTH, 2, name, e) == RoundUp(bytes, e)
    ensures RoundedBytes(SomeClaims(bytes, name), BOTH, 2, "", e) == RoundUp(bytes, e)
    ensures RoundedBytes(SomeClaims(bytes, name), TWICE, 2, name, e) == 2 * RoundUp(bytes, e)
  {
    var api := SomeClaims(bytes, name);
    SomeClaimsAsk(bytes, name);
    assert RoundedBytes(api, BOTH, 1, name, e) == 0 && RoundedBytes(api, BOTH, 1, "", e) == RoundUp(bytes, e);
    assert RoundedBytes(api, TWICE, 1, name, e) == RoundUp(bytes, e);
  }

  /** The scheduler finds the whole advertised capacity under each name of the default class. */
  lemma BothNamesPass(groups: map<string, Group>, dcs: seq<DeviceClass>, prior: map<string, string>, res: WatchResponse, node: Node, k: int, bytes: Int64)
    requires Annotates(groups, dcs, prior, res, node)
    requires 0 <= k < |dcs| && dcs[k].isDefault && Backed(groups, Normalize(dcs[k])) && bytes == Advertised(groups, Normalize(dcs[k]))
    requires DefaultKeyIsFree(dcs)
    ensures MeetsAll(node, map[DEFAULT_DEVICE_CLASS_ANNOTATION_NAME := bytes, dcs[k].name := bytes])
  {
    FilterIsExact(groups, dcs, prior, res, k, node, bytes);
    NodeAdvertisesDefault(groups, dcs, prior, res, k);
    UintRoundTrip(bytes);
    assert Meets(node, DEFAULT_DEVICE_CLASS_ANNOTATION_NAME, bytes);
  }

  /**
   * On every node whose default class has capacity, two volumes of that capacity, one without a class and one with the
   * name of the default class, pass the scheduler and are more than the class advertises.
   */
  lemma BothNamesOverbook(groups: map<string, Group>, dcs: seq<DeviceClass>, prior: map<string, string>, res: WatchResponse,
                          node: Node, k: int, bytes: Int64)
    requires Annotates(groups, dcs, prior, res, node)
    requires 0 <= k < |dcs| && dcs[k].isDefault && Backed(groups, Normalize(dcs[k])) && groups[dcs[k].volumeGroup].extent > 0
    requires 0 < bytes == Advertised(groups, Normalize(dcs[k]))
    requires DefaultKeyIsFree(dcs)
    ensures Requests(SomeClaims(bytes, dcs[k].name), BOTH, map[DEFAULT_DEVICE_CLASS_ANNOTATION_NAME := bytes, dcs[k].name := bytes])
    ensures MeetsAll(node, map[DEFAULT_DEVICE_CLASS_ANNOTATION_NAME := bytes, dcs[k].name := bytes])
    ensures !RoomFor(groups, dcs, SomeClaims(bytes, dcs[k].name), BOTH)
  {
    assert WellFormed(dcs[k]);
    BothRequest(bytes, dcs[k].name);
    BothNamesPass(groups, dcs, prior, res, node, k, bytes);
    BothTake(bytes, dcs[k].name, groups[dcs[k].volumeGroup].extent);
    RoundUpIsLeast(bytes, groups[dcs[k].volumeGroup].extent);
    assert !RoomIn(groups, dcs[k], SomeClaims(bytes, dcs[k].name), BOTH);
  }

  /** Where the two are also more than the class has free, lvmd refuses the second after it made the first; so it does for every thin class. */
  lemma SecondIsRefused(before: map<string, Group>, after: map<string, Group>, dc: DeviceClass, bytes: nat, first: string, second: string)
    requires Creates(before, after, dc, first, bytes) && ValidGroup(before[dc.volumeGroup]) && Countable(before, dc, bytes)
    requires 0 < bytes == Advertised(before, dc)
    ensures FreeOf(before, dc) < 2 * bytes ==> !Creatable(after, dc, second, bytes)
    ensures dc.kind.Thin? ==> !Creatable(after, dc, second, bytes)
  {
    SecondIsCreatable(before, after, dc, first, bytes, second, bytes);
    RoundUpIsLeast(bytes, before[dc.volumeGroup].extent);
  }

  /** Two sectors in two volumes are no less than two extents. */
  lemma TwoSectorsTakeTwoExtents(groups: map<string, Group>, listed: DeviceClass)
    requires listed.name !in {"", DEFAULT_DEVICE_CLASS_ANNOTATION_NAME} && Backed(groups, Normalize(listed))
    requires Advertised(groups, Normalize(listed)) < 2 * groups[listed.volumeGroup].extent
    ensures !RoomIn(groups, listed, SomeClaims(SECTOR, listed.name), TWICE)
  {
    BothTake(SECTOR, listed.name, groups[listed.volumeGroup].extent);
    RoundUpTakesOne(SECTOR, groups[listed.volumeGroup].extent);
  }

  /**
   * The scheduler adds up bytes while lvmd rounds each volume up: two sectors asked for as two volumes of one class pass
   * wherever two sectors but not two extents are advertised.
   */
  lemma RoundingOverbooks(groups: map<string, Group>, dcs: seq<DeviceClass>, prior: map<string, string>, res: WatchResponse, node: Node, k: int)
    requires Annotates(groups, dcs, prior, res, node)
    requires 0 <= k < |dcs| && Backed(groups, Normalize(dcs[k])) && dcs[k].name != DEFAULT_DEVICE_CLASS_ANNOTATION_NAME
    requires 2 * SECTOR <= Advertised(groups, Normalize(dcs[k])) < 2 * groups[dcs[k].volumeGroup].extent
    ensures Requests(SomeClaims(SECTOR, dcs[k].name), TWICE, map[dcs[k].name := 2 * SECTOR])
    ensures MeetsAll(node, map[dcs[k].name := 2 * SECTOR])
    ensures !RoomFor(groups, dcs, SomeClaims(SECTOR, dcs[k].name), TWICE)
  {
    assert WellFormed(dcs[k]);
    TwiceRequest(SECTOR, dcs[k].name);
    FilterIsExact(groups, dcs, prior, res, k, node, 2 * SECTOR);
    TwoSectorsTakeTwoExtents(groups, dcs[k]);
  }
}
