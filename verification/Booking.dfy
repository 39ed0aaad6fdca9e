/** Requests booked against the capacity that a node advertises. */
module Booking {
  import opened Wrappers
  import opened Constants
  import opened Numbers
  import opened DeviceClasses
  import opened Lvms
  import opened VolumeGroups
  import opened Overprovisioning
  import opened StoragePools
  import opened LvServices

  /** The bytes advertised for a class: thick classes keep a spare. */
  ghost function Advertised(groups: map<string, Group>, dc: DeviceClass): (n: nat)
    requires Usable(dc) && PoolExists(groups, dc)
    ensures n <= FreeOf(groups, dc)
  {
    var free := FreeOf(groups, dc);
    if dc.kind.Thin? then free else if free < GetSpare(dc) then 0 else free - GetSpare(dc)
  }

  datatype Booked = Booked(name: string, deviceClass: string, size: Int64)

  /** The bytes that some requests take from one class in whole extents, under whatever name they address it. */
  ghost function Demand(rs: seq<Booked>, dcs: seq<DeviceClass>, dc: DeviceClass, extent: nat): nat
    requires extent > 0
  {
    if rs == [] then 0
    else
      (if Named(dcs, rs[0].deviceClass) == Some(dc) then RoundUp(ToUint64(rs[0].size), extent) else 0) +
      Demand(rs[1..], dcs, dc, extent)
  }

  /** The virtual size of every pool fits in 64 bits. */
  ghost predicate Representable(groups: map<string, Group>, dc: DeviceClass) {
    Usable(dc) && dc.kind.Thin? && PoolExists(groups, dc) ==>
      Capacity(dc.thinPool.value.overprovisionRatio, groups[dc.volumeGroup].lvs[dc.thinPool.value.name].size) < 0x1_0000_0000_0000_0000
  }

  lemma WrapFits(promised: nat, size: nat)
    requires Wrap(promised) + size < 0x1_0000_0000_0000_0000
    ensures Wrap(promised + size) == Wrap(promised) + size
  {
    DivModIs(promised + size, 0x1_0000_0000_0000_0000, promised / 0x1_0000_0000_0000_0000, Wrap(promised) + size);
  }

  function Less(free: nat, taken: nat): nat {
    if taken <= free then free - taken else 0
  }

  /** What the pool of a class has promised still fits in 64 bits with one more volume. */
  ghost predicate Countable(groups: map<string, Group>, dc: DeviceClass, size: nat)
    requires Usable(dc) && PoolExists(groups, dc) && groups[dc.volumeGroup].extent > 0
  {
    dc.kind.Thin? ==>
      Wrap(Promised(groups[dc.volumeGroup], dc.thinPool.value.name)) + RoundUp(size, groups[dc.volumeGroup].extent) < 0x1_0000_0000_0000_0000
  }

  lemma RepresentableIsCountable(groups: map<string, Group>, dc: DeviceClass, size: nat)
    requires Usable(dc) && PoolExists(groups, dc) && groups[dc.volumeGroup].extent > 0 && size > 0
    requires Representable(groups, dc) && RoundUp(size, groups[dc.volumeGroup].extent) <= FreeOf(groups, dc)
    ensures Countable(groups, dc, size)
  {
    RoundUpIsLeast(size, groups[dc.volumeGroup].extent);
  }

  /** Creating a volume takes its size in whole extents from its own class, as far as there is so much. */
  lemma CreateTakesItsSize(before: map<string, Group>, after: map<string, Group>, dc: DeviceClass, name: string, size: nat)
    requires Creates(before, after, dc, name, size) && ValidGroup(before[dc.volumeGroup]) && Countable(before, dc, size)
    ensures PoolExists(after, dc)
    ensures FreeOf(after, dc) == Less(FreeOf(before, dc), RoundUp(size, before[dc.volumeGroup].extent))
  {
    var g := before[dc.volumeGroup];
    if dc.kind.Thin? {
      var pool := dc.thinPool.value.name;
      RoundUpIsLeast(size, g.extent);
      PromisedAfterAdd(g, name, Lvms.Thin(g, pool, size), pool);
      WrapFits(Promised(g, pool), RoundUp(size, g.extent));
    }
  }

  /** After one creation another one is granted exactly when both fit into what there was, the first in whole extents. */
  lemma SecondIsCreatable(before: map<string, Group>, after: map<string, Group>, dc: DeviceClass, first: string, size: nat, second: string, other: nat)
    requires Creates(before, after, dc, first, size) && ValidGroup(before[dc.volumeGroup]) && Countable(before, dc, size)
    ensures Creatable(after, dc, second, other) <==>
      && 0 < other && RoundUp(size, before[dc.volumeGroup].extent) + other <= FreeOf(before, dc)
      && second != first && second !in before[dc.volumeGroup].lvs && (dc.kind.Thick? ==> other % SECTOR == 0)
  {
    CreateTakesItsSize(before, after, dc, first, size);
  }

  /** ... and nothing from any other class. */
  lemma CreateTakesNothingElse(before: map<string, Group>, after: map<string, Group>, dc: DeviceClass, name: string, size: nat, other: DeviceClass)
    requires Creates(before, after, dc, name, size)
    requires Usable(other) && PoolExists(before, other) && TargetOf(other) != TargetOf(dc)
    ensures PoolExists(after, other) && FreeOf(after, other) == FreeOf(before, other)
  {
    if other.volumeGroup == dc.volumeGroup && other.kind.Thin? {
      var g := before[dc.volumeGroup];
      var lv := if dc.kind.Thick? then Linear(g, size) else Lvms.Thin(g, dc.thinPool.value.name, size);
      PromisedAfterAdd(g, name, lv, other.thinPool.value.name);
    }
  }

  /** What is still to come fits into what one class has left. */
  ghost predicate FitsIn(groups: map<string, Group>, dcs: seq<DeviceClass>, rs: seq<Booked>, dc: DeviceClass) {
    && Usable(dc) && PoolExists(groups, dc) && groups[dc.volumeGroup].extent > 0
    && Representable(groups, dc) && Demand(rs, dcs, dc, groups[dc.volumeGroup].extent) <= FreeOf(groups, dc)
  }

  /** Whatever is still to come fits into what each class has left. */
  ghost predicate Fits(groups: map<string, Group>, dcs: seq<DeviceClass>, rs: seq<Booked>) {
    forall k {:trigger dcs[k]} :: 0 <= k < |dcs| ==>
      var dc := Normalize(dcs[k]);
      Usable(dc) && PoolExists(groups, dc) && groups[dc.volumeGroup].extent > 0 ==> FitsIn(groups, dcs, rs, dc)
  }

  /** A request that can be addressed: its class is there, its size is whole sectors, and its name is new. */
  ghost predicate Addressable(groups: map<string, Group>, dcs: seq<DeviceClass>, q: Booked) {
    && Named(dcs, q.deviceClass).Some?
    && var dc := Named(dcs, q.deviceClass).value;
    && Usable(dc) && PoolExists(groups, dc)
    && q.size > 0 && q.size % SECTOR == 0
    && q.name !in groups[dc.volumeGroup].lvs
  }

  ghost predicate AllAddressable(groups: map<string, Group>, dcs: seq<DeviceClass>, rs: seq<Booked>) {
    && (forall i :: 0 <= i < |rs| ==> Addressable(groups, dcs, rs[i]))
    && (forall i, j :: 0 <= i < j < |rs| ==> rs[i].name != rs[j].name)
  }

  lemma FirstIsCreatable(groups: map<string, Group>, dcs: seq<DeviceClass>, rs: seq<Booked>)
    requires Accepted(dcs) && rs != [] && Fits(groups, dcs, rs) && AllAddressable(groups, dcs, rs)
    requires forall v :: v in groups ==> ValidGroup(groups[v])
    ensures Creatable(groups, Named(dcs, rs[0].deviceClass).value, rs[0].name, ToUint64(rs[0].size))
  {
    var q := rs[0];
    var dc := Named(dcs, q.deviceClass).value;
    var k := NamedAt(dcs, q.deviceClass);
    assert Addressable(groups, dcs, q);
    assert Normalize(dcs[k]) == dc && ValidGroup(groups[dc.volumeGroup]);
    RoundUpIsLeast(q.size, groups[dc.volumeGroup].extent);
  }

  lemma RestFitsOwn(before: map<string, Group>, after: map<string, Group>, dcs: seq<DeviceClass>, rs: seq<Booked>, dc: DeviceClass)
    requires rs != [] && FitsIn(before, dcs, rs, dc) && Named(dcs, rs[0].deviceClass) == Some(dc) && rs[0].size > 0
    requires Creates(before, after, dc, rs[0].name, ToUint64(rs[0].size)) && ValidGroup(before[dc.volumeGroup])
    ensures FitsIn(after, dcs, rs[1..], dc)
  {
    RepresentableIsCountable(before, dc, ToUint64(rs[0].size));
    CreateTakesItsSize(before, after, dc, rs[0].name, ToUint64(rs[0].size));
  }

  lemma RestFitsOther(before: map<string, Group>, after: map<string, Group>, dcs: seq<DeviceClass>, rs: seq<Booked>, dc: DeviceClass, other: DeviceClass)
    requires rs != [] && FitsIn(before, dcs, rs, other) && Named(dcs, rs[0].deviceClass) == Some(dc) && dc != other
    requires Creates(before, after, dc, rs[0].name, ToUint64(rs[0].size)) && TargetOf(other) != TargetOf(dc)
    ensures FitsIn(after, dcs, rs[1..], other)
  {
    CreateTakesNothingElse(before, after, dc, rs[0].name, ToUint64(rs[0].size), other);
  }

  lemma RestFitsAt(before: map<string, Group>, after: map<string, Group>, dcs: seq<DeviceClass>, rs: seq<Booked>, k: int)
    requires Accepted(dcs) && rs != [] && Fits(before, dcs, rs) && Addressable(before, dcs, rs[0])
    requires forall v :: v in before ==> ValidGroup(before[v])
    requires Creates(before, after, Named(dcs, rs[0].deviceClass).value, rs[0].name, ToUint64(rs[0].size))
    requires 0 <= k < |dcs| && Usable(Normalize(dcs[k])) && PoolExists(after, Normalize(dcs[k]))
    ensures FitsIn(after, dcs, rs[1..], Normalize(dcs[k]))
  {
    var q, other := rs[0], Normalize(dcs[k]);
    var dc := Named(dcs, q.deviceClass).value;
    var m := NamedAt(dcs, q.deviceClass);
    assert dcs[k] == dcs[k] && dcs[m] == dcs[m];
    assert PoolExists(before, other) && ValidGroup(before[other.volumeGroup]);
    assert FitsIn(before, dcs, rs, other);
    if k == m {
      RestFitsOwn(before, after, dcs, rs, dc);
    } else {
      TargetsDiffer(dcs, k, m);
      assert dcs[k].name != dcs[m].name by { assert !Clash(dcs[k], dcs[m]) || !Clash(dcs[m], dcs[k]); }
      RestFitsOther(before, after, dcs, rs, dc, other);
    }
  }

  lemma RestFits(before: map<string, Group>, after: map<string, Group>, dcs: seq<DeviceClass>, rs: seq<Booked>)
    requires Accepted(dcs) && rs != [] && Fits(before, dcs, rs) && Addressable(before, dcs, rs[0])
    requires forall v :: v in before ==> ValidGroup(before[v])
    requires Creates(before, after, Named(dcs, rs[0].deviceClass).value, rs[0].name, ToUint64(rs[0].size))
    ensures Fits(after, dcs, rs[1..])
  {
    forall k | 0 <= k < |dcs| && Usable(Normalize(dcs[k])) && PoolExists(after, Normalize(dcs[k]))
      ensures FitsIn(after, dcs, rs[1..], Normalize(dcs[k]))
    {
      RestFitsAt(before, after, dcs, rs, k);
    }
  }

  lemma StillAddressable(before: map<string, Group>, after: map<string, Group>, dcs: seq<DeviceClass>, dc: DeviceClass, name: string, size: nat, q: Booked)
    requires Creates(before, after, dc, name, size) && Addressable(before, dcs, q) && q.name != name
    ensures Addressable(after, dcs, q)
  {
  }

  lemma RestIsAddressable(before: map<string, Group>, after: map<string, Group>, dcs: seq<DeviceClass>, dc: DeviceClass, rs: seq<Booked>, size: nat)
    requires rs != [] && AllAddressable(before, dcs, rs) && Creates(before, after, dc, rs[0].name, size)
    ensures AllAddressable(after, dcs, rs[1..])
  {
    forall i | 0 <= i < |rs[1..]|
      ensures Addressable(after, dcs, rs[1..][i])
    {
      StillAddressable(before, after, dcs, dc, rs[0].name, size, rs[i + 1]);
    }
  }

  /** In whole extents, the requests for one class are within what was advertised for it. */
  ghost predicate WithinAdvertised(groups: map<string, Group>, dcs: seq<DeviceClass>, rs: seq<Booked>, listed: DeviceClass) {
    var dc := Normalize(listed);
    Usable(dc) && PoolExists(groups, dc) && groups[dc.volumeGroup].extent > 0 ==>
      Demand(rs, dcs, dc, groups[dc.volumeGroup].extent) <= Advertised(groups, dc)
  }

  ghost predicate AllWithinAdvertised(groups: map<string, Group>, dcs: seq<DeviceClass>, rs: seq<Booked>) {
    forall k {:trigger dcs[k]} :: 0 <= k < |dcs| ==> WithinAdvertised(groups, dcs, rs, dcs[k])
  }

  ghost predicate AllRepresentable(groups: map<string, Group>, dcs: seq<DeviceClass>) {
    forall k {:trigger dcs[k]} :: 0 <= k < |dcs| ==> Representable(groups, Normalize(dcs[k]))
  }

  /**
   * Requests of whole sectors, in any order and for any classes, that add up in whole extents for each class to at most
   * what was advertised for it are all granted.
   */
  method CreateAll(s: LvService, rs: seq<Booked>) returns (granted: nat)
    requires s.Valid() && s.lvm.healthy
    requires AllAddressable(s.lvm.groups, s.dcmapper.classes, rs)
    requires AllRepresentable(s.lvm.groups, s.dcmapper.classes) && AllWithinAdvertised(s.lvm.groups, s.dcmapper.classes, rs)
    modifies s, s.lvm`groups
    ensures granted == |rs|
    ensures s.Valid()
  {
    granted := 0;
    assert rs[0..] == rs;
    for i := 0 to |rs|
      invariant s.Valid() && s.lvm.healthy && granted == i
      invariant Fits(s.lvm.groups, s.dcmapper.classes, rs[i..]) && AllAddressable(s.lvm.groups, s.dcmapper.classes, rs[i..])
    {
      FirstIsCreatable(s.lvm.groups, s.dcmapper.classes, rs[i..]);
      ghost var before := s.lvm.groups;
      var r := s.CreateLV(rs[i].name, rs[i].deviceClass, "", rs[i].size);
      RestFits(before, s.lvm.groups, s.dcmapper.classes, rs[i..]);
      RestIsAddressable(before, s.lvm.groups, s.dcmapper.classes, Named(s.dcmapper.classes, rs[i].deviceClass).value, rs[i..], ToUint64(rs[i].size));
      assert rs[i..][1..] == rs[i + 1..];
      if r.Success? { granted := granted + 1; }
    }
  }
}
