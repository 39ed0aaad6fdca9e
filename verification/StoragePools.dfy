/** The space a device class allocates from: a whole volume group, or a thin pool in one. */
module StoragePools {
  import opened Wrappers
  import opened Constants
  import opened Numbers
  import opened DeviceClasses
  import opened Lvms
  import opened VolumeGroups
  import opened Overprovisioning

  /** A class as the manager hands it out. */
  predicate Usable(dc: DeviceClass) {
    dc.kind.Thick? ||
    (dc.kind.Thin? && dc.thinPool.Some? && dc.thinPool.value.name != "" && dc.thinPool.value.overprovisionRatio >= 1.0)
  }

  datatype StoragePool = VolumeGroupAdapter(vg: VolumeGroup) | ThinPoolAdapter(pool: VolumeGroups.ThinPool, ratio: real)

  // ---------------------------------------------------------------- what a class offers in a state of LVM

  predicate PoolExists(groups: map<string, Group>, dc: DeviceClass)
    requires Usable(dc)
  {
    dc.volumeGroup in groups && (dc.kind.Thin? ==> HasPool(groups[dc.volumeGroup], dc.thinPool.value.name))
  }

  ghost function FreeOf(groups: map<string, Group>, dc: DeviceClass): nat
    requires Usable(dc) && PoolExists(groups, dc)
  {
    if dc.kind.Thick? then groups[dc.volumeGroup].free
    else FreeIn(groups[dc.volumeGroup], dc.thinPool.value.name, dc.thinPool.value.overprovisionRatio)
  }

  function VolumesOf(groups: map<string, Group>, dc: DeviceClass): map<string, LogicalVolume>
    requires Usable(dc) && PoolExists(groups, dc)
  {
    var rows := RowsOf(dc.volumeGroup, groups[dc.volumeGroup].lvs);
    if dc.kind.Thick? then Volumes(rows) else PoolVolumes(rows, dc.thinPool.value.name)
  }

  predicate CanMake(g: Group, dc: DeviceClass, name: string, size: nat)
    requires Usable(dc)
  {
    if dc.kind.Thick? then size % SECTOR == 0 && CanCreateLinear(g, name, size)
    else CanCreateThin(g, dc.thinPool.value.name, name, size)
  }

  function Made(g: Group, dc: DeviceClass, name: string, size: nat): Group
    requires Usable(dc) && CanMake(g, dc, name, size)
  {
    if dc.kind.Thick? then WithLinear(g, name, size) else WithThin(g, dc.thinPool.value.name, name, size)
  }

  // ---------------------------------------------------------------- the adapters

  method StoragePoolForDeviceClass(lvm: Lvm, dc: DeviceClass) returns (r: Result<StoragePool, Error>)
    requires Usable(dc)
    ensures r.Success? ==> PoolExists(lvm.groups, dc) && Serves(lvm, dc, r.value)
    ensures lvm.healthy ==> (r.Success? <==> PoolExists(lvm.groups, dc))
  {
    var vg := FindVolumeGroup(lvm, dc.volumeGroup);
    if vg.Failure? { return Failure(vg.error); }
    if dc.kind.Thick? {
      return Success(VolumeGroupAdapter(vg.value));
    }
    var pool := FindPool(lvm, vg.value, dc.thinPool.value.name);
    if pool.Failure? { return Failure(pool.error); }
    return Success(ThinPoolAdapter(pool.value, dc.thinPool.value.overprovisionRatio));
  }

  /** A pool object that was read for a class, in this state. */
  ghost predicate Serves(lvm: Lvm, dc: DeviceClass, p: StoragePool)
    requires Usable(dc)
    reads lvm
  {
    && PoolExists(lvm.groups, dc)
    && Addresses(dc, p)
    && (p.VolumeGroupAdapter? ==> p.vg.free == lvm.groups[dc.volumeGroup].free)
    && (p.ThinPoolAdapter? ==> p.pool.state.lv == lvm.groups[dc.volumeGroup].lvs[dc.thinPool.value.name])
  }

  /** A pool object that belongs to a class, whatever has changed since it was read. */
  predicate Addresses(dc: DeviceClass, p: StoragePool)
    requires Usable(dc)
  {
    match p
    case VolumeGroupAdapter(vg) => dc.kind.Thick? && vg.name == dc.volumeGroup && vg.reportLvs.None?
    case ThinPoolAdapter(pool, ratio) =>
      && dc.kind.Thin? && pool.vg.name == dc.volumeGroup && pool.vg.reportLvs.None?
      && pool.state.name == dc.thinPool.value.name && ratio == dc.thinPool.value.overprovisionRatio
  }

  method Free(lvm: Lvm, ghost dc: DeviceClass, p: StoragePool) returns (r: Result<nat, Error>)
    requires Usable(dc) && Serves(lvm, dc, p)
    ensures r.Success? ==> r.value == FreeOf(lvm.groups, dc)
    ensures lvm.healthy ==> r.Success?
  {
    match p
    case VolumeGroupAdapter(vg) => return Success(vg.free);
    case ThinPoolAdapter(pool, ratio) =>
      var usage := Usage(lvm, pool);
      if usage.Failure? { return Failure(usage.error); }
      return FreeBytes(usage.value, ratio);
  }

  method FindVolumeIn(lvm: Lvm, ghost dc: DeviceClass, p: StoragePool, name: string) returns (r: Result<LogicalVolume, Error>)
    requires Usable(dc) && PoolExists(lvm.groups, dc) && Addresses(dc, p)
    ensures r != Failure(CallFailed) ==> r == Lookup(VolumesOf(lvm.groups, dc), name)
    ensures lvm.healthy ==> r != Failure(CallFailed)
  {
    match p
    case VolumeGroupAdapter(vg) => r := FindVolume(lvm, vg, name);
    case ThinPoolAdapter(pool, _) => r := PoolFindVolume(lvm, pool, name);
  }

  method CreateVolume(lvm: Lvm, ghost dc: DeviceClass, p: StoragePool, name: string, size: nat) returns (r: Result<(), Error>)
    requires lvm.Valid() && Usable(dc) && PoolExists(lvm.groups, dc) && Addresses(dc, p)
    modifies lvm`groups
    ensures lvm.Valid()
    ensures r.Failure? ==> lvm.groups == old(lvm.groups)
    ensures r.Success? ==>
      CanMake(old(lvm.groups)[dc.volumeGroup], dc, name, size) &&
      lvm.groups == old(lvm.groups)[dc.volumeGroup := Made(old(lvm.groups)[dc.volumeGroup], dc, name, size)]
    ensures lvm.healthy && CanMake(old(lvm.groups)[dc.volumeGroup], dc, name, size) ==> r.Success?
  {
    match p
    case VolumeGroupAdapter(vg) =>
      if size % SECTOR != 0 { return Failure(CallFailed); }
      r := lvm.CreateLinear(vg.name, name, size);
    case ThinPoolAdapter(pool, _) =>
      r := lvm.CreateThin(pool.vg.name, pool.state.name, name, size);
  }

  // ---------------------------------------------------------------- the bounds of all classes together

  ghost predicate ClassBounded(groups: map<string, Group>, dc: DeviceClass) {
    dc.kind.Thin? && dc.thinPool.Some? && dc.volumeGroup in groups ==>
      Bounded(groups[dc.volumeGroup], dc.thinPool.value.name, dc.thinPool.value.overprovisionRatio)
  }

  ghost predicate AllBounded(groups: map<string, Group>, dcs: seq<DeviceClass>) {
    forall i {:trigger ClassBounded(groups, dcs[i])} :: 0 <= i < |dcs| ==> ClassBounded(groups, dcs[i])
  }

  /** Two classes of a valid list never share a thin pool. */
  lemma TargetsDiffer(dcs: seq<DeviceClass>, i: int, k: int)
    requires Accepted(dcs) && 0 <= i < |dcs| && 0 <= k < |dcs| && i != k
    ensures TargetOf(dcs[i]) != TargetOf(dcs[k])
  {
    assert !Clash(dcs[i], dcs[k]) || !Clash(dcs[k], dcs[i]);
  }

  lemma MakeKeepsClassBounded(groups: map<string, Group>, dcs: seq<DeviceClass>, k: int, i: int, name: string, size: nat)
    requires Accepted(dcs) && 0 <= i < |dcs| && 0 <= k < |dcs|
    requires var dc := Normalize(dcs[k]);
      && Usable(dc) && PoolExists(groups, dc) && ValidGroup(groups[dc.volumeGroup])
      && CanMake(groups[dc.volumeGroup], dc, name, size) && size <= FreeOf(groups, dc)
    requires ClassBounded(groups, dcs[i])
    ensures var dc := Normalize(dcs[k]);
      ClassBounded(groups[dc.volumeGroup := Made(groups[dc.volumeGroup], dc, name, size)], dcs[i])
  {
    var dc, other := Normalize(dcs[k]), dcs[i];
    if other.kind.Thin? && other.thinPool.Some? && other.volumeGroup == dc.volumeGroup {
      var g, pool, ratio := groups[dc.volumeGroup], other.thinPool.value.name, other.thinPool.value.overprovisionRatio;
      var lv := if dc.kind.Thick? then Linear(g, size) else Lvms.Thin(g, dc.thinPool.value.name, size);
      if i != k { TargetsDiffer(dcs, i, k); } else { AdmittedStaysWithin(g, pool, ratio, 0, size); }
      AddKeepsBounded(g, name, lv, pool, ratio);
    }
  }

  lemma PruneKeepsAllBounded(groups: map<string, Group>, dcs: seq<DeviceClass>, vgName: string, after: Group, name: string)
    requires vgName in groups && AllBounded(groups, dcs) && Pruned(groups[vgName], after, name)
    ensures AllBounded(groups[vgName := after], dcs)
  {
    forall i | 0 <= i < |dcs|
      ensures ClassBounded(groups[vgName := after], dcs[i])
    {
      assert ClassBounded(groups, dcs[i]);
      var dc := dcs[i];
      if dc.kind.Thin? && dc.thinPool.Some? && dc.volumeGroup == vgName {
        PruneKeepsBounded(groups[vgName], after, name, dc.thinPool.value.name, dc.thinPool.value.overprovisionRatio);
      }
    }
  }
}
