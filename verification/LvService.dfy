/** lvmd's LVService: admission checks, effects on LVM on every exit path, and notifications. */
module LvServices {
  import opened Wrappers
  import opened Constants
  import opened Numbers
  import opened DeviceClasses
  import opened Lvms
  import opened VolumeGroups
  import opened Overprovisioning
  import opened StoragePools

  /** Status codes; Unknown stands for an error that carries none. */
  datatype Code = NoSuch | Internal | ResourceExhausted | Unimplemented | OutOfRange | Unknown

  /** No group changes its shape, and no volume that stays gets smaller. */
  ghost predicate NeverShrinks(before: map<string, Group>, after: map<string, Group>) {
    after.Keys == before.Keys && forall v :: v in before ==> GroupNeverShrinks(before[v], after[v])
  }

  ghost predicate GroupNeverShrinks(before: Group, after: Group) {
    && after.extent == before.extent && after.size == before.size
    && forall n :: n in before.lvs && n in after.lvs ==> before.lvs[n].size <= after.lvs[n].size
  }

  // ---------------------------------------------------------------- what each call may do

  /** LVM gained the requested volume and nothing else changed. */
  ghost predicate Creates(before: map<string, Group>, after: map<string, Group>, dc: DeviceClass, name: string, size: nat) {
    && Usable(dc) && PoolExists(before, dc) && CanMake(before[dc.volumeGroup], dc, name, size)
    && size <= FreeOf(before, dc)
    && after == before[dc.volumeGroup := Made(before[dc.volumeGroup], dc, name, size)]
  }

  ghost predicate Resizes(before: map<string, Group>, after: map<string, Group>, dc: DeviceClass, name: string, size: nat) {
    && Usable(dc) && PoolExists(before, dc) && name in VolumesOf(before, dc)
    && VolumesOf(before, dc)[name].size < size && size - VolumesOf(before, dc)[name].size <= FreeOf(before, dc)
    && CanGrow(before[dc.volumeGroup], name, size)
    && after == before[dc.volumeGroup := Grown(before[dc.volumeGroup], name, size)]
  }

  lemma CreatesKeepsAllBounded(before: map<string, Group>, after: map<string, Group>, dcs: seq<DeviceClass>, k: int, name: string, size: nat)
    requires Accepted(dcs) && 0 <= k < |dcs| && Creates(before, after, Normalize(dcs[k]), name, size)
    requires ValidGroup(before[dcs[k].volumeGroup])
    ensures AllBounded(before, dcs) ==> AllBounded(after, dcs)
    ensures NeverShrinks(before, after)
  {
    if AllBounded(before, dcs) {
      forall i | 0 <= i < |dcs|
        ensures ClassBounded(after, dcs[i])
      {
        assert ClassBounded(before, dcs[i]);
        MakeKeepsClassBounded(before, dcs, k, i, name, size);
      }
    }
  }

  /** A thick class is not used for a thin volume. */
  ghost predicate RightClass(groups: map<string, Group>, dc: DeviceClass, name: string) {
    dc.kind.Thick? && name in LvsOf(groups, dc.volumeGroup) ==> !IsThin(LvsOf(groups, dc.volumeGroup)[name])
  }

  lemma ResizeKeepsClassBounded(before: map<string, Group>, after: map<string, Group>, dcs: seq<DeviceClass>, k: int, i: int, name: string, size: nat)
    requires Accepted(dcs) && 0 <= k < |dcs| && 0 <= i < |dcs| && Resizes(before, after, Normalize(dcs[k]), name, size)
    requires ValidGroup(before[dcs[k].volumeGroup]) && RightClass(before, Normalize(dcs[k]), name)
    requires ClassBounded(before, dcs[i])
    ensures ClassBounded(after, dcs[i])
  {
    var dc, other := Normalize(dcs[k]), dcs[i];
    if other.kind.Thin? && other.thinPool.Some? && other.volumeGroup == dc.volumeGroup && other.thinPool.value.overprovisionRatio >= 1.0 {
      var g, pool, ratio := before[dc.volumeGroup], other.thinPool.value.name, other.thinPool.value.overprovisionRatio;
      var lv := g.lvs[name];
      assert ValidLv(g.extent, lv);
      if i != k { TargetsDiffer(dcs, i, k); }
      if InPool(lv, pool) && HasPool(g, pool) {
        assert i == k;
        PromisedHolds(g, name, pool);
        AdmittedStaysWithin(g, pool, ratio, lv.size, size);
      }
      GrowKeepsBounded(g, name, RoundUp(size, g.extent), pool, ratio);
    }
  }

  lemma ResizesKeepsAllBounded(before: map<string, Group>, after: map<string, Group>, dcs: seq<DeviceClass>, k: int, name: string, size: nat)
    requires Accepted(dcs) && 0 <= k < |dcs| && Resizes(before, after, Normalize(dcs[k]), name, size)
    requires ValidGroup(before[dcs[k].volumeGroup])
    ensures AllBounded(before, dcs) && RightClass(before, Normalize(dcs[k]), name) ==> AllBounded(after, dcs)
    ensures NeverShrinks(before, after)
  {
    if AllBounded(before, dcs) && RightClass(before, Normalize(dcs[k]), name) {
      forall i | 0 <= i < |dcs|
        ensures ClassBounded(after, dcs[i])
      {
        assert ClassBounded(before, dcs[i]);
        ResizeKeepsClassBounded(before, after, dcs, k, i, name, size);
      }
    }
  }

  ghost predicate Finds(groups: map<string, Group>, dc: DeviceClass, name: string) {
    Usable(dc) && PoolExists(groups, dc) && name in VolumesOf(groups, dc)
  }

  lemma FoundInGroup(groups: map<string, Group>, dc: DeviceClass, name: string)
    requires Finds(groups, dc, name)
    ensures Lookup(Volumes(RowsOf(dc.volumeGroup, groups[dc.volumeGroup].lvs)), name) == Success(VolumesOf(groups, dc)[name])
    ensures VolumesOf(groups, dc)[name].vgName == dc.volumeGroup && VolumesOf(groups, dc)[name].name == name
    ensures name in groups[dc.volumeGroup].lvs
  {
  }

  datatype Admission = Refused(code: Code) | Unneeded(current: nat) | Granted(lv: LogicalVolume, vg: VolumeGroup)

  /** A group of four extents, half of them in an unused pool. */
  lemma EmptyPool(e: nat, pool: string) returns (g: Group)
    requires e > 0 && e % SECTOR == 0 && pool != ""
    ensures ValidGroup(g) && Promised(g, pool) == 0
    ensures g == Group(e, 4 * e, 2 * e, map[pool := Lv('t', 2 * e, "", 0, "")])
  {
    var empty := Group(e, 4 * e, 4 * e, map[]);
    assert Allocated(empty.lvs) == map[] && VirtualSizes(empty.lvs, pool) == map[];
    MultipleOf(4, e);
    MultipleOf(2, e);
    AddKeepsValid(empty, pool, Lv('t', 2 * e, "", 0, ""));
    PromisedAfterAdd(empty, pool, Lv('t', 2 * e, "", 0, ""), pool);
    g := AddLv(empty, pool, Lv('t', 2 * e, "", 0, ""));
  }

  /** The same pool, promised in full to one volume. */
  lemma FullPool(e: nat, pool: string, name: string) returns (g: Group)
    requires e > 0 && e % SECTOR == 0 && pool != "" && pool != name
    ensures ValidGroup(g) && Promised(g, pool) == 2 * e
    ensures g.extent == e && g.free == 2 * e
    ensures g.lvs == map[pool := Lv('t', 2 * e, "", 0, "")][name := Lv('V', 2 * e, "", 0, pool)]
  {
    var before := EmptyPool(e, pool);
    MultipleOf(2, e);
    AddKeepsValid(before, name, Lv('V', 2 * e, "", 0, pool));
    PromisedAfterAdd(before, name, Lv('V', 2 * e, "", 0, pool), pool);
    g := AddLv(before, name, Lv('V', 2 * e, "", 0, pool));
  }

  /** One more extent fits into the group and not into the promises of the pool. */
  lemma FullPoolGrows(g: Group, e: nat, pool: string, name: string)
    requires e > 0 && pool != "" && pool != name
    requires g.extent == e && g.free == 2 * e && Promised(g, pool) == 2 * e
    requires g.lvs == map[pool := Lv('t', 2 * e, "", 0, "")][name := Lv('V', 2 * e, "", 0, pool)]
    ensures Limit(g, pool, 1.0) == 2 * e && CanGrow(g, name, 3 * e)
    ensures Promised(Grown(g, name, 3 * e), pool) == 3 * e && Limit(Grown(g, name, 3 * e), pool, 1.0) == 2 * e
  {
    MultipleOf(2, e);
    MultipleOf(3, e);
    RoundUpIsLeast(2 * e, e);
    RoundUpIsLeast(3 * e, e);
    assert Capacity(1.0, 2 * e) == 2 * e;
    PromisedAfterGrow(g, name, 3 * e, pool);
  }

  /** A thick class checks the free space of the group, so a thin volume resized through it can break the bound of its pool. */
  lemma ThickResizeEscapes(thick: DeviceClass, thin: DeviceClass, name: string) returns (before: map<string, Group>, after: map<string, Group>)
    requires thick.kind.Thick? && thin.kind.Thin? && thin.thinPool.Some? && thin.thinPool.value.overprovisionRatio == 1.0
    requires thin.thinPool.value.name !in {"", name} && thick.volumeGroup == thin.volumeGroup
    ensures thick.volumeGroup in before && ValidGroup(before[thick.volumeGroup])
    ensures Resizes(before, after, thick, name, 3 * SECTOR) && !RightClass(before, thick, name)
    ensures ClassBounded(before, thin) && !ClassBounded(after, thin)
  {
    var pool := thin.thinPool.value.name;
    var g := FullPool(SECTOR, pool, name);
    FullPoolGrows(g, SECTOR, pool, name);
    before := map[thick.volumeGroup := g];
    after := before[thick.volumeGroup := Grown(g, name, 3 * SECTOR)];
  }

  /** A volume that a class finds, and that is not the non-thin snapshot of another. */
  ghost predicate Growable(groups: map<string, Group>, dc: DeviceClass, name: string) {
    Finds(groups, dc, name) && VolumesOf(groups, dc)[name].size == groups[dc.volumeGroup].lvs[name].size
  }

  /** Growing a volume of whole extents by what is free in bytes is possible. */
  lemma AdmittedCanGrow(groups: map<string, Group>, dc: DeviceClass, name: string, size: nat)
    requires Growable(groups, dc, name) && ValidGroup(groups[dc.volumeGroup])
    requires 0 < size - VolumesOf(groups, dc)[name].size <= FreeOf(groups, dc)
    ensures CanGrow(groups[dc.volumeGroup], name, size)
  {
    var g := groups[dc.volumeGroup];
    var lv := g.lvs[name];
    assert ValidLv(g.extent, lv);
    RoundUpIsLeast(size, g.extent);
    RoundedGrowthFits(g, lv.size, size);
  }

  ghost predicate Removes(before: map<string, Group>, after: map<string, Group>, vgName: string, name: string) {
    && vgName in before && vgName in after && Pruned(before[vgName], after[vgName], name)
    && after == before[vgName := after[vgName]]
  }

  lemma RemovesKeeps(before: map<string, Group>, after: map<string, Group>, dcs: seq<DeviceClass>, vgName: string, name: string)
    requires Removes(before, after, vgName, name)
    ensures AllBounded(before, dcs) ==> AllBounded(after, dcs)
    ensures NeverShrinks(before, after)
  {
    if AllBounded(before, dcs) {
      PruneKeepsAllBounded(before, dcs, vgName, after[vgName], name);
    }
  }

  // ---------------------------------------------------------------- requests

  datatype Request =
    | CreateRequest(name: string, deviceClass: string, optionClass: string, sizeBytes: Int64)
    | ResizeRequest(name: string, deviceClass: string, sizeBytes: Int64)
    | RemoveRequest(name: string, deviceClass: string)
    | SnapshotRequest(name: string, deviceClass: string, source: string, sizeBytes: Int64, accessType: string)

  /**
   * The class of a request fits the volume it names: a thin volume is not resized through a thick class, and a
   * snapshot is taken through the class of its source's pool.
   */
  ghost predicate WellAddressed(groups: map<string, Group>, dcs: seq<DeviceClass>, q: Request) {
    Named(dcs, q.deviceClass).Some? ==>
      var dc := Named(dcs, q.deviceClass).value;
      match q
      case CreateRequest(_, _, _, _) => true
      case RemoveRequest(_, _) => true
      case ResizeRequest(name, _, _) => RightClass(groups, dc, name)
      case SnapshotRequest(_, _, source, _, _) =>
        dc.kind.Thin? && dc.thinPool.Some? && source in LvsOf(groups, dc.volumeGroup) ==>
          InPool(LvsOf(groups, dc.volumeGroup)[source], dc.thinPool.value.name)
  }

  // ---------------------------------------------------------------- snapshots

  /** A snapshot of a thin volume may be taken through a class, in its final size. */
  ghost predicate Snapshotable(groups: map<string, Group>, dc: DeviceClass, source: string, name: string, size: nat) {
    && Usable(dc) && dc.kind.Thin? && PoolExists(groups, dc)
    && CanSnapshot(groups[dc.volumeGroup], source, name)
    && groups[dc.volumeGroup].lvs[source].size <= size <= FreeOf(groups, dc)
  }

  /** The group once the snapshot is taken, and once it has grown to its final size. */
  function Taken(g: Group, source: string, name: string, size: nat): Group
    requires CanSnapshot(g, source, name)
  {
    var taken := WithSnapshot(g, source, name);
    if CanGrow(taken, name, size) then Grown(taken, name, size) else taken
  }

  ghost predicate SnapshotLeaves(g: Group, after: Group, source: string, name: string, size: nat)
    requires CanSnapshot(g, source, name)
  {
    || after == WithSnapshot(g, source, name)
    || after == Taken(g, source, name, size)
    || Pruned(WithSnapshot(g, source, name), after, name)
    || Pruned(Taken(g, source, name, size), after, name)
  }

  lemma TakenKeepsBounded(g: Group, source: string, name: string, size: nat, pool: string, ratio: real, admitted: bool)
    requires ValidGroup(g) && CanSnapshot(g, source, name) && Bounded(g, pool, ratio) && g.lvs[source].size <= size
    requires admitted <==> InPool(g.lvs[source], pool)
    requires admitted && ratio >= 1.0 && HasPool(g, pool) ==> size <= FreeIn(g, pool, ratio)
    ensures Bounded(WithSnapshot(g, source, name), pool, ratio)
    ensures Bounded(Taken(g, source, name, size), pool, ratio)
  {
    if ratio >= 1.0 {
      var lv := g.lvs[source];
      assert ValidLv(g.extent, lv);
      if admitted && HasPool(g, pool) {
        AdmittedStaysWithin(g, pool, ratio, 0, lv.size);
        AdmittedStaysWithin(g, pool, ratio, 0, size);
        RoundUpIsLeast(lv.size, g.extent);
      }
      AddKeepsBounded(g, name, SnapshotOf(g, source), pool, ratio);
      PromisedAfterAdd(g, name, SnapshotOf(g, source), pool);
      var taken := WithSnapshot(g, source, name);
      if CanGrow(taken, name, size) {
        GrowKeepsBounded(taken, name, RoundUp(size, g.extent), pool, ratio);
      }
    }
  }

  /** A snapshot keeps the bound of a pool exactly when its source is elsewhere or its final size is within the limit. */
  lemma TakenBoundedExactly(g: Group, source: string, name: string, size: nat, pool: string, ratio: real)
    requires ValidGroup(g) && CanSnapshot(g, source, name) && Bounded(g, pool, ratio) && ratio >= 1.0 && g.lvs[source].size <= size
    ensures Bounded(Taken(g, source, name, size), pool, ratio) <==>
      (HasPool(g, pool) && InPool(g.lvs[source], pool) ==> Promised(g, pool) + RoundUp(size, g.extent) <= Limit(g, pool, ratio))
  {
    var lv, taken := g.lvs[source], WithSnapshot(g, source, name);
    assert ValidLv(g.extent, lv);
    RoundUpIsLeast(size, g.extent);
    PromisedAfterAdd(g, name, SnapshotOf(g, source), pool);
    if CanGrow(taken, name, size) {
      PromisedAfterGrow(taken, name, RoundUp(size, g.extent), pool);
    }
  }

  /** A full pool, and an empty one of the same size beside it. */
  lemma TwoPools(e: nat, pool: string, empty: string, name: string) returns (g: Group)
    requires e > 0 && e % SECTOR == 0 && pool != "" && empty != "" && pool != empty && name != pool && name != empty
    ensures ValidGroup(g) && g.extent == e && Promised(g, pool) == 2 * e && Promised(g, empty) == 0
    ensures g.lvs == map[pool := Lv('t', 2 * e, "", 0, "")][name := Lv('V', 2 * e, "", 0, pool)][empty := Lv('t', 2 * e, "", 0, "")]
  {
    var full := FullPool(e, pool, name);
    NothingPromised(full, empty);
    AddEmptyPool(full, empty, pool);
    g := AddLv(full, empty, Lv('t', 2 * e, "", 0, ""));
  }

  lemma NothingPromised(g: Group, empty: string)
    requires forall n :: n in g.lvs ==> !InPool(g.lvs[n], empty)
    ensures Promised(g, empty) == 0
  {
    assert VirtualSizes(g.lvs, empty) == map[];
  }

  lemma AddEmptyPool(full: Group, empty: string, pool: string)
    requires ValidGroup(full) && empty != "" && empty !in full.lvs && 2 * full.extent <= full.free
    ensures var g := AddLv(full, empty, Lv('t', 2 * full.extent, "", 0, ""));
      ValidGroup(g) && Promised(g, pool) == Promised(full, pool) && Promised(g, empty) == Promised(full, empty)
  {
    MultipleOf(2, full.extent);
    AddKeepsValid(full, empty, Lv('t', 2 * full.extent, "", 0, ""));
    PromisedAfterAdd(full, empty, Lv('t', 2 * full.extent, "", 0, ""), pool);
    PromisedAfterAdd(full, empty, Lv('t', 2 * full.extent, "", 0, ""), empty);
  }

  /**
   * The check looks at the pool of the class and the snapshot lands in the pool of its source, so a source outside the
   * pool of the class can break the bound of its own pool.
   */
  lemma SnapshotEscapes(dc: DeviceClass, other: DeviceClass, source: string, name: string)
    returns (before: map<string, Group>, after: map<string, Group>)
    requires Usable(dc) && dc.kind.Thin? && Usable(other) && other.kind.Thin? && dc.volumeGroup == other.volumeGroup
    requires other.thinPool.value.overprovisionRatio == 1.0 && dc.thinPool.value.name != other.thinPool.value.name
    requires source !in {dc.thinPool.value.name, other.thinPool.value.name}
    requires name !in {source, dc.thinPool.value.name, other.thinPool.value.name}
    ensures dc.volumeGroup in before && ValidGroup(before[dc.volumeGroup])
    ensures Snapshotable(before, dc, source, name, 2 * SECTOR) && !InPool(before[dc.volumeGroup].lvs[source], dc.thinPool.value.name)
    ensures after == before[dc.volumeGroup := Taken(before[dc.volumeGroup], source, name, 2 * SECTOR)]
    ensures ClassBounded(before, other) && !ClassBounded(after, other)
  {
    var pool, ratio := other.thinPool.value.name, other.thinPool.value.overprovisionRatio;
    var g := TwoPools(SECTOR, pool, dc.thinPool.value.name, source);
    before := map[dc.volumeGroup := g];
    after := before[dc.volumeGroup := Taken(g, source, name, 2 * SECTOR)];
    FullLimit(g, pool);
    TakenBoundedExactly(g, source, name, 2 * SECTOR, pool, ratio);
  }

  lemma FullLimit(g: Group, pool: string)
    requires g.extent == SECTOR && HasPool(g, pool) && g.lvs[pool].size == 2 * SECTOR
    ensures Limit(g, pool, 1.0) == 2 * SECTOR && RoundUp(2 * SECTOR, SECTOR) == 2 * SECTOR
  {
    RoundUpIsLeast(2 * SECTOR, SECTOR);
    assert Capacity(1.0, 2 * SECTOR) == 2 * SECTOR;
  }

  lemma SnapshotKeepsClassBounded(groups: map<string, Group>, dcs: seq<DeviceClass>, k: int, i: int,
                                  source: string, name: string, size: nat, after: Group)
    requires Accepted(dcs) && 0 <= k < |dcs| && 0 <= i < |dcs| && Snapshotable(groups, Normalize(dcs[k]), source, name, size)
    requires ValidGroup(groups[dcs[k].volumeGroup]) && SnapshotLeaves(groups[dcs[k].volumeGroup], after, source, name, size)
    requires InPool(groups[dcs[k].volumeGroup].lvs[source], dcs[k].thinPool.value.name)
    requires ClassBounded(groups, dcs[i])
    ensures ClassBounded(groups[dcs[k].volumeGroup := after], dcs[i])
  {
    var g, other := groups[dcs[k].volumeGroup], dcs[i];
    if other.kind.Thin? && other.thinPool.Some? && other.volumeGroup == dcs[k].volumeGroup {
      var pool, ratio := other.thinPool.value.name, other.thinPool.value.overprovisionRatio;
      if i != k { TargetsDiffer(dcs, i, k); }
      TakenKeepsBounded(g, source, name, size, pool, ratio, i == k);
      if Pruned(WithSnapshot(g, source, name), after, name) {
        PruneKeepsBounded(WithSnapshot(g, source, name), after, name, pool, ratio);
      }
      if Pruned(Taken(g, source, name, size), after, name) {
        PruneKeepsBounded(Taken(g, source, name, size), after, name, pool, ratio);
      }
    }
  }

  lemma SnapshotsKeep(before: map<string, Group>, after: map<string, Group>, dcs: seq<DeviceClass>, k: int, source: string, name: string, size: nat)
    requires Accepted(dcs) && 0 <= k < |dcs| && Snapshotable(before, Normalize(dcs[k]), source, name, size)
    requires SnapshotTried(before, after, dcs[k].volumeGroup, source, name, size)
    requires ValidGroup(before[dcs[k].volumeGroup])
    ensures NeverShrinks(before, after)
    ensures AllBounded(before, dcs) && InPool(before[dcs[k].volumeGroup].lvs[source], dcs[k].thinPool.value.name) ==> AllBounded(after, dcs)
  {
    if AllBounded(before, dcs) && InPool(before[dcs[k].volumeGroup].lvs[source], dcs[k].thinPool.value.name) {
      forall i | 0 <= i < |dcs|
        ensures ClassBounded(after, dcs[i])
      {
        assert ClassBounded(before, dcs[i]);
        SnapshotKeepsClassBounded(before, dcs, k, i, source, name, size, after[dcs[k].volumeGroup]);
      }
    }
  }

  ghost predicate SnapshotTaken(before: map<string, Group>, after: map<string, Group>, vgName: string, source: string, name: string, size: nat) {
    && vgName in before && CanSnapshot(before[vgName], source, name)
    && (|| after == before[vgName := WithSnapshot(before[vgName], source, name)]
        || after == before[vgName := Taken(before[vgName], source, name, size)])
  }

  /** The snapshot is there, or was there and has been taken back. */
  ghost predicate SnapshotTried(before: map<string, Group>, after: map<string, Group>, vgName: string, source: string, name: string, size: nat) {
    && vgName in before && vgName in after && CanSnapshot(before[vgName], source, name)
    && after == before[vgName := after[vgName]]
    && SnapshotLeaves(before[vgName], after[vgName], source, name, size)
  }

  ghost predicate SnapshotDone(before: map<string, Group>, after: map<string, Group>, vgName: string,
                               source: string, name: string, size: nat, lv: LogicalVolume) {
    && vgName in before && CanSnapshot(before[vgName], source, name)
    && after == before[vgName := Taken(before[vgName], source, name, size)]
    && Lookup(Volumes(RowsOf(vgName, after[vgName].lvs)), name) == Success(lv)
  }

  lemma TakenIsTried(before: map<string, Group>, taken: map<string, Group>, after: map<string, Group>,
                     vgName: string, source: string, name: string, size: nat)
    requires SnapshotTaken(before, taken, vgName, source, name, size)
    requires after == taken || Removes(taken, after, vgName, name)
    ensures SnapshotTried(before, after, vgName, source, name, size)
  {
    assert after == before[vgName := after[vgName]];
  }

  lemma WellAddressedSnapshotKeeps(before: map<string, Group>, after: map<string, Group>, dcs: seq<DeviceClass>, k: int, q: Request, size: nat)
    requires q.SnapshotRequest? && Accepted(dcs) && 0 <= k < |dcs| && Named(dcs, q.deviceClass) == Some(Normalize(dcs[k]))
    requires Snapshotable(before, Normalize(dcs[k]), q.source, q.name, size)
    requires SnapshotTried(before, after, dcs[k].volumeGroup, q.source, q.name, size)
    requires ValidGroup(before[dcs[k].volumeGroup])
    ensures NeverShrinks(before, after)
    ensures WellAddressed(before, dcs, q) ==> (AllBounded(before, dcs) ==> AllBounded(after, dcs))
  {
    SnapshotsKeep(before, after, dcs, k, q.source, q.name, size);
  }

  function SnapshotVolume(g: Group, vgName: string, source: string, name: string): LogicalVolume
    requires source in g.lvs
  {
    ConvertLV(Row(vgName, name, SnapshotOf(g, source)))
  }

  /** A fresh snapshot is found with the size of its source. */
  lemma SnapshotIsFound(g: Group, vgName: string, source: string, name: string)
    requires ValidGroup(g) && CanSnapshot(g, source, name)
    ensures Lookup(Volumes(RowsOf(vgName, WithSnapshot(g, source, name).lvs)), name) == Success(SnapshotVolume(g, vgName, source, name))
    ensures SnapshotVolume(g, vgName, source, name).size == g.lvs[source].size
  {
    assert ValidLv(g.extent, g.lvs[source]);
  }

  lemma SnapshotCanGrow(g: Group, source: string, name: string, size: nat)
    requires ValidGroup(g) && CanSnapshot(g, source, name) && g.lvs[source].size <= size
    ensures CanGrow(WithSnapshot(g, source, name), name, size) <==> g.lvs[source].size < size
  {
    assert ValidLv(g.extent, g.lvs[source]);
    RoundUpIsLeast(size, g.extent);
  }

  /** Resizing a fresh snapshot completes it. */
  lemma ResizedIsTaken(before: map<string, Group>, taken: map<string, Group>, after: map<string, Group>,
                       vgName: string, source: string, name: string, size: nat)
    requires vgName in before && ValidGroup(before[vgName]) && CanSnapshot(before[vgName], source, name)
    requires before[vgName].lvs[source].size <= size && taken == before[vgName := WithSnapshot(before[vgName], source, name)]
    requires after == taken || (CanGrow(taken[vgName], name, size) && after == taken[vgName := Grown(taken[vgName], name, size)])
    ensures SnapshotTaken(before, after, vgName, source, name, size)
    ensures (after == taken <==> before[vgName].lvs[source].size == size) ==>
      after == before[vgName := Taken(before[vgName], source, name, size)]
  {
    SnapshotCanGrow(before[vgName], source, name, size);
    if CanGrow(taken[vgName], name, size) {
      assert taken[vgName := Grown(taken[vgName], name, size)] == before[vgName := Taken(before[vgName], source, name, size)];
    }
  }

  // ---------------------------------------------------------------- runs of the service

  /** What a request may do to LVM, whatever fails: nothing, or the effect of its kind, through the class it names. */
  ghost predicate Effects(before: map<string, Group>, after: map<string, Group>, dcs: seq<DeviceClass>, q: Request) {
    after == before ||
    (Named(dcs, q.deviceClass).Some? &&
     var dc := Named(dcs, q.deviceClass).value;
     match q
     case CreateRequest(name, _, _, size) => Creates(before, after, dc, name, ToUint64(size))
     case ResizeRequest(name, _, size) => Resizes(before, after, dc, name, ToUint64(size))
     case RemoveRequest(name, _) => Removes(before, after, dc.volumeGroup, name)
     case SnapshotRequest(name, _, source, size, _) =>
       exists final :: Snapshotable(before, dc, source, name, final) && SnapshotTried(before, after, dc.volumeGroup, source, name, final))
  }

  /** What every call guarantees, well addressed or not. */
  ghost predicate Served(before: map<string, Group>, after: map<string, Group>, dcs: seq<DeviceClass>, q: Request) {
    && NeverShrinks(before, after) && Effects(before, after, dcs, q)
    && (WellAddressed(before, dcs, q) ==> (AllBounded(before, dcs) ==> AllBounded(after, dcs)))
  }

  lemma ServedNothing(groups: map<string, Group>, dcs: seq<DeviceClass>, q: Request)
    ensures Served(groups, groups, dcs, q)
  {
  }

  lemma ServedCreate(before: map<string, Group>, after: map<string, Group>, dcs: seq<DeviceClass>, k: int, q: Request)
    requires q.CreateRequest? && Accepted(dcs) && 0 <= k < |dcs| && Named(dcs, q.deviceClass) == Some(Normalize(dcs[k]))
    requires Creates(before, after, Normalize(dcs[k]), q.name, ToUint64(q.sizeBytes)) && ValidGroup(before[dcs[k].volumeGroup])
    ensures Served(before, after, dcs, q)
  {
    CreatesKeepsAllBounded(before, after, dcs, k, q.name, ToUint64(q.sizeBytes));
  }

  lemma ServedResize(before: map<string, Group>, after: map<string, Group>, dcs: seq<DeviceClass>, k: int, q: Request)
    requires q.ResizeRequest? && Accepted(dcs) && 0 <= k < |dcs| && Named(dcs, q.deviceClass) == Some(Normalize(dcs[k]))
    requires Resizes(before, after, Normalize(dcs[k]), q.name, ToUint64(q.sizeBytes)) && ValidGroup(before[dcs[k].volumeGroup])
    ensures Served(before, after, dcs, q)
  {
    ResizesKeepsAllBounded(before, after, dcs, k, q.name, ToUint64(q.sizeBytes));
  }

  lemma ServedRemove(before: map<string, Group>, after: map<string, Group>, dcs: seq<DeviceClass>, q: Request)
    requires q.RemoveRequest? && Named(dcs, q.deviceClass).Some?
    requires Removes(before, after, Named(dcs, q.deviceClass).value.volumeGroup, q.name)
    ensures Served(before, after, dcs, q)
  {
    RemovesKeeps(before, after, dcs, Named(dcs, q.deviceClass).value.volumeGroup, q.name);
  }

  lemma ServedSnapshot(before: map<string, Group>, after: map<string, Group>, dcs: seq<DeviceClass>, k: int, q: Request, size: nat)
    requires q.SnapshotRequest? && Accepted(dcs) && 0 <= k < |dcs| && Named(dcs, q.deviceClass) == Some(Normalize(dcs[k]))
    requires Snapshotable(before, Normalize(dcs[k]), q.source, q.name, size) && ValidGroup(before[dcs[k].volumeGroup])
    requires SnapshotTried(before, after, dcs[k].volumeGroup, q.source, q.name, size)
    ensures Served(before, after, dcs, q)
  {
    WellAddressedSnapshotKeeps(before, after, dcs, k, q, size);
  }

  ghost predicate AllValid(groups: map<string, Group>) {
    forall v {:trigger ValidGroup(groups[v])} :: v in groups ==> ValidGroup(groups[v])
  }

  ghost predicate Traced(trace: seq<map<string, Group>>, requests: seq<Request>, dcs: seq<DeviceClass>) {
    && |trace| == |requests| + 1
    && (forall i {:trigger AllValid(trace[i])} :: 0 <= i <= |requests| ==> AllValid(trace[i]))
    && (forall i :: 0 <= i < |requests| ==> ServedAt(trace, requests, dcs, i))
  }

  ghost predicate ServedAt(trace: seq<map<string, Group>>, requests: seq<Request>, dcs: seq<DeviceClass>, i: nat)
    requires |trace| == |requests| + 1 && i < |requests|
  {
    Served(trace[i], trace[i + 1], dcs, requests[i])
  }

  ghost predicate AllAddressed(trace: seq<map<string, Group>>, requests: seq<Request>, dcs: seq<DeviceClass>)
    requires |requests| <= |trace|
  {
    forall i {:trigger WellAddressed(trace[i], dcs, requests[i])} :: 0 <= i < |requests| ==> WellAddressed(trace[i], dcs, requests[i])
  }

  lemma TraceGrows(trace: seq<map<string, Group>>, requests: seq<Request>, dcs: seq<DeviceClass>, q: Request, after: map<string, Group>)
    requires Traced(trace, requests, dcs) && AllValid(after)
    requires Served(trace[|requests|], after, dcs, q)
    ensures Traced(trace + [after], requests + [q], dcs)
  {
    forall i | 0 <= i < |requests + [q]|
      ensures ServedAt(trace + [after], requests + [q], dcs, i)
    {
      assert i < |requests| ==> ServedAt(trace, requests, dcs, i);
    }
  }

  lemma ServedKeepsBounded(before: map<string, Group>, after: map<string, Group>, dcs: seq<DeviceClass>, q: Request)
    requires Served(before, after, dcs, q) && WellAddressed(before, dcs, q) && AllBounded(before, dcs)
    ensures AllBounded(after, dcs)
  {
  }

  lemma StepKeepsBounded(trace: seq<map<string, Group>>, requests: seq<Request>, dcs: seq<DeviceClass>, i: nat)
    requires Traced(trace, requests, dcs) && i < |requests| && AllAddressed(trace, requests, dcs) && AllBounded(trace[i], dcs)
    ensures AllBounded(trace[i + 1], dcs)
  {
    assert ServedAt(trace, requests, dcs, i) && WellAddressed(trace[i], dcs, requests[i]);
    ServedKeepsBounded(trace[i], trace[i + 1], dcs, requests[i]);
  }

  /** When every call is well addressed in the state it meets, every thin bound holds in every state of the run. */
  lemma {:induction false} RunKeepsBounded(trace: seq<map<string, Group>>, requests: seq<Request>, dcs: seq<DeviceClass>, i: nat)
    requires Traced(trace, requests, dcs) && i <= |requests|
    requires AllAddressed(trace, requests, dcs) && AllBounded(trace[0], dcs)
    ensures AllBounded(trace[i], dcs)
  {
    if i > 0 {
      RunKeepsBounded(trace, requests, dcs, i - 1);
      StepKeepsBounded(trace, requests, dcs, i - 1);
    }
  }

  lemma ServedKeepsShape(before: map<string, Group>, after: map<string, Group>, dcs: seq<DeviceClass>, q: Request, v: string)
    requires Served(before, after, dcs, q) && v in before
    ensures v in after && after[v].size == before[v].size && after[v].extent == before[v].extent
  {
    assert v in after.Keys && GroupNeverShrinks(before[v], after[v]);
  }

  lemma StepKeepsShape(trace: seq<map<string, Group>>, requests: seq<Request>, dcs: seq<DeviceClass>, i: nat, v: string)
    requires Traced(trace, requests, dcs) && i < |requests| && v in trace[i]
    ensures v in trace[i + 1] && trace[i + 1][v].size == trace[i][v].size && trace[i + 1][v].extent == trace[i][v].extent
  {
    assert ServedAt(trace, requests, dcs, i);
    ServedKeepsShape(trace[i], trace[i + 1], dcs, requests[i], v);
  }

  /** Over a whole run the size and the extent of every group stay what they were. */
  lemma {:induction false} RunKeepsShape(trace: seq<map<string, Group>>, requests: seq<Request>, dcs: seq<DeviceClass>, i: nat, v: string)
    requires Traced(trace, requests, dcs) && i <= |requests| && v in trace[0]
    ensures v in trace[i] && trace[i][v].size == trace[0][v].size && trace[i][v].extent == trace[0][v].extent
  {
    if i > 0 {
      RunKeepsShape(trace, requests, dcs, i - 1, v);
      StepKeepsShape(trace, requests, dcs, i - 1, v);
    }
  }

  /** So in every state what is allocated and what is free make up the size the group had at first. */
  lemma RunConserves(trace: seq<map<string, Group>>, requests: seq<Request>, dcs: seq<DeviceClass>, i: nat, v: string)
    requires Traced(trace, requests, dcs) && i <= |requests| && v in trace[0]
    ensures v in trace[i] && trace[i][v].free + Total(Allocated(trace[i][v].lvs)) == trace[0][v].size
  {
    RunKeepsShape(trace, requests, dcs, i, v);
    assert AllValid(trace[i]) && ValidGroup(trace[i][v]);
  }

  // ---------------------------------------------------------------- the service

  /** A creation that nothing but a failing command can stop; sizes are compared in bytes. */
  ghost predicate Creatable(groups: map<string, Group>, dc: DeviceClass, name: string, size: nat) {
    && Usable(dc) && PoolExists(groups, dc) && 0 < size <= FreeOf(groups, dc)
    && name !in groups[dc.volumeGroup].lvs && (dc.kind.Thick? ==> size % SECTOR == 0)
  }

  /** Among admitted requests, the creatable ones are those LVM can satisfy. */
  lemma AdmittedIsCreatable(groups: map<string, Group>, dc: DeviceClass, name: string, size: nat)
    requires Usable(dc) && PoolExists(groups, dc) && ValidGroup(groups[dc.volumeGroup]) && size <= FreeOf(groups, dc)
    ensures Creatable(groups, dc, name, size) <==> CanMake(groups[dc.volumeGroup], dc, name, size)
  {
    RoundedFits(groups[dc.volumeGroup], size);
  }

  /** A created volume is found under its name, with its size in whole extents. */
  lemma MadeIsFound(before: map<string, Group>, after: map<string, Group>, dc: DeviceClass, name: string, size: nat)
    requires Creates(before, after, dc, name, size)
    ensures PoolExists(after, dc) && name in VolumesOf(after, dc)
    ensures VolumesOf(after, dc)[name].size == RoundUp(size, before[dc.volumeGroup].extent)
  {
  }

  class LvService {
    const lvm: Lvm
    const dcmapper: DeviceClassManager
    const optionClasses: set<string>
    var notifications: nat

    ghost predicate Valid()
      reads this, lvm, dcmapper
    {
      lvm.Valid() && dcmapper.Valid()
    }

    constructor (lvm: Lvm, dcmapper: DeviceClassManager, optionClasses: set<string>)
      requires lvm.Valid() && dcmapper.Valid()
      ensures Valid() && this.lvm == lvm && this.dcmapper == dcmapper && this.optionClasses == optionClasses && notifications == 0
    {
      this.lvm, this.dcmapper, this.optionClasses, notifications := lvm, dcmapper, optionClasses, 0;
    }

    method Notify()
      modifies this
      ensures notifications == old(notifications) + 1
    {
      notifications := notifications + 1;
    }

    /** The class a request names, and its place in the configuration. */
    method ClassOf(name: string) returns (dc: Option<DeviceClass>, ghost k: nat)
      requires Valid()
      ensures dc == Named(dcmapper.classes, name)
      ensures dc.Some? ==> Usable(dc.value) && k < |dcmapper.classes| && dc.value == Normalize(dcmapper.classes[k])
    {
      dc := dcmapper.DeviceClass(name);
      k := 0;
      if dc.Some? {
        k := NamedAt(dcmapper.classes, name);
      }
    }

    method CreateIn(dc: DeviceClass, name: string, optionClass: string, size: nat) returns (r: Result<LogicalVolume, Code>)
      requires Valid() && Usable(dc)
      modifies this, lvm`groups
      ensures Valid()
      ensures lvm.groups == old(lvm.groups) || Creates(old(lvm.groups), lvm.groups, dc, name, size)
      ensures r.Success? ==>
        Creates(old(lvm.groups), lvm.groups, dc, name, size) && Lookup(VolumesOf(lvm.groups, dc), name) == Success(r.value)
      ensures r.Failure? ==> r.error in {Internal, ResourceExhausted}
      ensures r.Failure? && lvm.groups != old(lvm.groups) ==> r.error == Internal && !lvm.healthy
      ensures r == Failure(ResourceExhausted) ==> PoolExists(old(lvm.groups), dc) && FreeOf(old(lvm.groups), dc) < size
      ensures lvm.healthy ==>
        (r.Success? <==> Creatable(old(lvm.groups), dc, name, size) && (optionClass == "" || optionClass in optionClasses))
      ensures notifications == old(notifications) + if r.Success? then 1 else 0
    {
      var pool := StoragePoolForDeviceClass(lvm, dc);
      if pool.Failure? { return Failure(Internal); }
      var free := Free(lvm, dc, pool.value);
      if free.Failure? { return Failure(Internal); }
      if free.value < size { return Failure(ResourceExhausted); }
      if optionClass !in optionClasses && optionClass != "" { return Failure(Internal); }
      AdmittedIsCreatable(lvm.groups, dc, name, size);
      var created := CreateVolume(lvm, dc, pool.value, name, size);
      if created.Failure? { return Failure(Internal); }
      MadeIsFound(old(lvm.groups), lvm.groups, dc, name, size);
      var lv := FindVolumeIn(lvm, dc, pool.value, name);
      if lv.Failure? { return Failure(Internal); }
      Notify();
      return Success(lv.value);
    }

    method CreateLV(name: string, deviceClass: string, optionClass: string, sizeBytes: Int64)
      returns (r: Result<LogicalVolume, Code>)
      requires Valid()
      modifies this, lvm`groups
      ensures Valid() && Served(old(lvm.groups), lvm.groups, dcmapper.classes, CreateRequest(name, deviceClass, optionClass, sizeBytes))
      ensures r == Failure(NoSuch) <==> Named(dcmapper.classes, deviceClass).None?
      ensures r.Success? ==>
        Creates(old(lvm.groups), lvm.groups, Named(dcmapper.classes, deviceClass).value, name, ToUint64(sizeBytes))
      ensures r.Failure? && lvm.groups != old(lvm.groups) ==>
        && r.error == Internal && !lvm.healthy
        && Creates(old(lvm.groups), lvm.groups, Named(dcmapper.classes, deviceClass).value, name, ToUint64(sizeBytes))
      ensures lvm.healthy && Named(dcmapper.classes, deviceClass).Some? ==>
        (r.Success? <==>
          && Creatable(old(lvm.groups), Named(dcmapper.classes, deviceClass).value, name, ToUint64(sizeBytes))
          && (optionClass == "" || optionClass in optionClasses))
      ensures notifications == old(notifications) + if r.Success? then 1 else 0
    {
      ghost var q := CreateRequest(name, deviceClass, optionClass, sizeBytes);
      ServedNothing(lvm.groups, dcmapper.classes, q);
      var dc, k := ClassOf(deviceClass);
      if dc.None? { return Failure(NoSuch); }
      r := CreateIn(dc.value, name, optionClass, ToUint64(sizeBytes));
      if lvm.groups != old(lvm.groups) {
        ServedCreate(old(lvm.groups), lvm.groups, dcmapper.classes, k, q);
      }
    }

    /** Grows a volume; the size it ends with is read back from LVM. */
    method Resize(lv: LogicalVolume, vg: VolumeGroup, size: nat) returns (r: Result<nat, Error>)
      requires lvm.Valid() && vg.name == lv.vgName && vg.reportLvs.None? && vg.name in lvm.groups
      requires lv.name in Volumes(RowsOf(vg.name, lvm.groups[vg.name].lvs))
      requires lv == Volumes(RowsOf(vg.name, lvm.groups[vg.name].lvs))[lv.name]
      modifies lvm`groups
      ensures lvm.Valid()
      ensures lvm.groups == old(lvm.groups) ||
        (lv.size < size && CanGrow(old(lvm.groups)[vg.name], lv.name, size) &&
         lvm.groups == old(lvm.groups)[vg.name := Grown(old(lvm.groups)[vg.name], lv.name, size)])
      ensures r.Success? ==>
        && (lvm.groups == old(lvm.groups) <==> lv.size == size)
        && Lookup(Volumes(RowsOf(vg.name, lvm.groups[vg.name].lvs)), lv.name) == Success(lv.(size := r.value))
      ensures lv.size > size ==> r.Failure? && lvm.groups == old(lvm.groups)
      ensures lvm.healthy ==> (r.Success? <==> lv.size == size || (lv.size < size && CanGrow(old(lvm.groups)[vg.name], lv.name, size)))
      ensures lvm.healthy && r.Failure? ==> lvm.groups == old(lvm.groups)
    {
      if lv.size > size { return Failure(CallFailed); }
      if lv.size == size { return Success(lv.size); }
      var resized := lvm.Resize(vg.name, lv.name, size);
      if resized.Failure? { return Failure(resized.error); }
      assert lvm.groups[vg.name].lvs[lv.name].size > old(lvm.groups)[vg.name].lvs[lv.name].size;
      var vol := FindVolume(lvm, vg, lv.name);
      if vol.Failure? { return Failure(vol.error); }
      return Success(vol.value.size);
    }

    /** The checks of a resize, before anything changes. */
    method AdmitGrowth(dc: DeviceClass, name: string, size: nat) returns (a: Admission)
      requires Valid() && Usable(dc)
      ensures a.Refused? ==> a.code in {NoSuch, Internal, ResourceExhausted}
      ensures a == Refused(NoSuch) ==> PoolExists(lvm.groups, dc) && name !in VolumesOf(lvm.groups, dc)
      ensures a == Refused(ResourceExhausted) ==> Finds(lvm.groups, dc, name) && size - VolumesOf(lvm.groups, dc)[name].size > FreeOf(lvm.groups, dc)
      ensures a.Unneeded? ==> Finds(lvm.groups, dc, name) && size <= VolumesOf(lvm.groups, dc)[name].size == a.current
      ensures a.Granted? ==>
        && Finds(lvm.groups, dc, name) && a.lv == VolumesOf(lvm.groups, dc)[name]
        && 0 < size - a.lv.size <= FreeOf(lvm.groups, dc)
        && a.vg.name == dc.volumeGroup && a.vg.reportLvs.None?
      ensures lvm.healthy && Finds(lvm.groups, dc, name) ==>
        (a.Refused? <==> size - VolumesOf(lvm.groups, dc)[name].size > FreeOf(lvm.groups, dc))
    {
      var pool := StoragePoolForDeviceClass(lvm, dc);
      if pool.Failure? { return Refused(Internal); }
      var lv := FindVolumeIn(lvm, dc, pool.value, name);
      if lv == Failure(NotFound) { return Refused(NoSuch); }
      if lv.Failure? { return Refused(Internal); }
      if size <= lv.value.size { return Unneeded(lv.value.size); }
      var free := Free(lvm, dc, pool.value);
      if free.Failure? { return Refused(Internal); }
      if free.value < size - lv.value.size { return Refused(ResourceExhausted); }
      return Granted(lv.value, if pool.value.VolumeGroupAdapter? then pool.value.vg else pool.value.pool.vg);
    }

    method ResizeIn(dc: DeviceClass, name: string, size: nat) returns (r: Result<nat, Code>)
      requires Valid() && Usable(dc)
      modifies this, lvm`groups
      ensures Valid()
      ensures lvm.groups == old(lvm.groups) || Resizes(old(lvm.groups), lvm.groups, dc, name, size)
      ensures r.Success? ==> Finds(old(lvm.groups), dc, name)
      ensures r.Success? ==> (lvm.groups == old(lvm.groups) <==> size <= VolumesOf(old(lvm.groups), dc)[name].size)
      ensures r.Failure? ==> r.error in {NoSuch, Internal, ResourceExhausted}
      ensures r.Failure? && lvm.groups != old(lvm.groups) ==> r.error == Internal && !lvm.healthy
      ensures r == Failure(NoSuch) ==> PoolExists(old(lvm.groups), dc) && name !in VolumesOf(old(lvm.groups), dc)
      ensures lvm.healthy && Growable(old(lvm.groups), dc, name) ==>
        (r.Success? <==> size - VolumesOf(old(lvm.groups), dc)[name].size <= FreeOf(old(lvm.groups), dc))
      ensures notifications == old(notifications) + if r.Success? && lvm.groups != old(lvm.groups) then 1 else 0
    {
      var a := AdmitGrowth(dc, name, size);
      match a
      case Refused(code) => return Failure(code);
      case Unneeded(current) => return Success(current);
      case Granted(lv, vg) =>
        FoundInGroup(lvm.groups, dc, name);
        if lv.size == lvm.groups[dc.volumeGroup].lvs[name].size {
          AdmittedCanGrow(lvm.groups, dc, name, size);
        }
        var resized := Resize(lv, vg, size);
        if resized.Failure? { return Failure(Internal); }
        Notify();
        return Success(resized.value);
    }

    method ResizeLV(name: string, deviceClass: string, sizeBytes: Int64) returns (r: Result<nat, Code>)
      requires Valid()
      modifies this, lvm`groups
      ensures Valid() && Served(old(lvm.groups), lvm.groups, dcmapper.classes, ResizeRequest(name, deviceClass, sizeBytes))
      ensures Named(dcmapper.classes, deviceClass).None? ==> r == Failure(NoSuch)
      ensures r.Failure? && lvm.groups != old(lvm.groups) ==> r.error == Internal && !lvm.healthy
      ensures notifications == old(notifications) + if r.Success? && lvm.groups != old(lvm.groups) then 1 else 0
    {
      ghost var q := ResizeRequest(name, deviceClass, sizeBytes);
      ServedNothing(lvm.groups, dcmapper.classes, q);
      var dc, k := ClassOf(deviceClass);
      if dc.None? { return Failure(NoSuch); }
      r := ResizeIn(dc.value, name, ToUint64(sizeBytes));
      if lvm.groups != old(lvm.groups) {
        ServedResize(old(lvm.groups), lvm.groups, dcmapper.classes, k, q);
      }
    }

    method RemoveIn(vgName: string, name: string) returns (r: Result<(), Code>)
      requires Valid()
      modifies this, lvm`groups
      ensures Valid()
      ensures r.Failure? ==> lvm.groups == old(lvm.groups) && r.error in {NoSuch, Unknown}
      ensures r.Success? ==> Removes(old(lvm.groups), lvm.groups, vgName, name)
      ensures r == Failure(NoSuch) ==> name !in LvsOf(old(lvm.groups), vgName)
      ensures lvm.healthy ==> (r.Success? <==> name in LvsOf(old(lvm.groups), vgName))
      ensures notifications == old(notifications) + if r.Success? then 1 else 0
    {
      var vg := FindVolumeGroup(lvm, vgName);
      if vg == Failure(NotFound) { return Failure(NoSuch); }
      if vg.Failure? { return Failure(Unknown); }
      var removed := lvm.Remove(vg.value.name, name);
      if removed == Failure(NotFound) { return Failure(NoSuch); }
      if removed.Failure? { return Failure(Unknown); }
      Notify();
      return Success(());
    }

    method RemoveLV(name: string, deviceClass: string) returns (r: Result<(), Code>)
      requires Valid()
      modifies this, lvm`groups
      ensures Valid() && Served(old(lvm.groups), lvm.groups, dcmapper.classes, RemoveRequest(name, deviceClass))
      ensures r.Failure? ==> lvm.groups == old(lvm.groups)
      ensures Named(dcmapper.classes, deviceClass).None? ==> r == Failure(NoSuch)
      ensures r.Success? ==> Removes(old(lvm.groups), lvm.groups, Named(dcmapper.classes, deviceClass).value.volumeGroup, name)
      ensures r == Failure(NoSuch) && Named(dcmapper.classes, deviceClass).Some? ==>
        name !in LvsOf(old(lvm.groups), Named(dcmapper.classes, deviceClass).value.volumeGroup)
      ensures notifications == old(notifications) + if r.Success? then 1 else 0
    {
      ghost var q := RemoveRequest(name, deviceClass);
      ServedNothing(lvm.groups, dcmapper.classes, q);
      var dc, k := ClassOf(deviceClass);
      if dc.None? { return Failure(NoSuch); }
      r := RemoveIn(dc.value.volumeGroup, name);
      if r.Success? {
        ServedRemove(old(lvm.groups), lvm.groups, dcmapper.classes, q);
      }
    }

    /** lvchange: makes a volume available, read-only or read-write. */
    method Activate(access: string) returns (ok: bool)
      ensures ok ==> access in {"ro", "rw"}
      ensures lvm.healthy ==> (ok <==> access in {"ro", "rw"})
    {
      var fails := lvm.Fails();
      return access in {"ro", "rw"} && !fails;
    }

    /** Takes a snapshot, as large as its source. */
    method Snap(vg: VolumeGroup, source: string, name: string) returns (r: Result<LogicalVolume, Error>)
      requires Valid() && vg.name in lvm.groups && vg.reportLvs.None? && source in lvm.groups[vg.name].lvs
      modifies lvm`groups
      ensures Valid()
      ensures lvm.groups == old(lvm.groups) ||
        (CanSnapshot(old(lvm.groups)[vg.name], source, name) &&
         lvm.groups == old(lvm.groups)[vg.name := WithSnapshot(old(lvm.groups)[vg.name], source, name)])
      ensures r.Success? ==>
        && lvm.groups != old(lvm.groups)
        && r.value == SnapshotVolume(old(lvm.groups)[vg.name], vg.name, source, name)
      ensures lvm.healthy ==> (r.Success? <==> CanSnapshot(old(lvm.groups)[vg.name], source, name))
      ensures lvm.healthy && r.Failure? ==> lvm.groups == old(lvm.groups)
    {
      var taken := lvm.Snapshot(vg.name, source, name);
      if taken.Failure? { return Failure(taken.error); }
      SnapshotIsFound(old(lvm.groups)[vg.name], vg.name, source, name);
      r := FindVolume(lvm, vg, name);
    }

    /** Takes a snapshot and lets it grow to its final size. */
    method SnapshotAndGrow(vg: VolumeGroup, source: string, name: string, size: nat) returns (r: Result<LogicalVolume, Error>)
      requires Valid() && vg.name in lvm.groups && vg.reportLvs.None?
      requires source in lvm.groups[vg.name].lvs && lvm.groups[vg.name].lvs[source].size <= size
      modifies lvm`groups
      ensures Valid()
      ensures lvm.groups == old(lvm.groups) || SnapshotTaken(old(lvm.groups), lvm.groups, vg.name, source, name, size)
      ensures r.Success? ==> SnapshotDone(old(lvm.groups), lvm.groups, vg.name, source, name, size, r.value)
      ensures lvm.healthy ==> (r.Success? <==> CanSnapshot(old(lvm.groups)[vg.name], source, name))
      ensures lvm.healthy && r.Failure? ==> lvm.groups == old(lvm.groups)
    {
      var snap := Snap(vg, source, name);
      if snap.Failure? { return Failure(snap.error); }
      ghost var g := old(lvm.groups)[vg.name];
      SnapshotIsFound(g, vg.name, source, name);
      SnapshotCanGrow(g, source, name, size);
      ghost var taken := lvm.groups;
      var resized := Resize(snap.value, vg, size);
      ResizedIsTaken(old(lvm.groups), taken, lvm.groups, vg.name, source, name, size);
      if resized.Failure? { return Failure(resized.error); }
      return Success(snap.value.(size := resized.value));
    }

    /** Takes a snapshot back; whether that succeeds is not looked at. */
    method TakeBack(vgName: string, name: string)
      requires Valid()
      modifies lvm`groups
      ensures Valid()
      ensures lvm.groups == old(lvm.groups) || Removes(old(lvm.groups), lvm.groups, vgName, name)
      ensures lvm.healthy ==> name !in LvsOf(lvm.groups, vgName)
    {
      var _ := lvm.Remove(vgName, name);
    }

    /** Takes the snapshot once it is admitted, and takes it back when it cannot be activated. */
    method TakeSnapshot(vg: VolumeGroup, source: string, name: string, size: nat, accessType: string)
      returns (r: Result<LogicalVolume, Code>)
      requires Valid() && vg.name in lvm.groups && vg.reportLvs.None?
      requires source in lvm.groups[vg.name].lvs && lvm.groups[vg.name].lvs[source].size <= size
      modifies this, lvm`groups
      ensures Valid()
      ensures lvm.groups == old(lvm.groups) || SnapshotTried(old(lvm.groups), lvm.groups, vg.name, source, name, size)
      ensures r.Success? ==> SnapshotDone(old(lvm.groups), lvm.groups, vg.name, source, name, size, r.value) && accessType in {"ro", "rw"}
      ensures r.Failure? ==> r.error == Internal
      ensures lvm.healthy ==>
        (r.Success? <==> CanSnapshot(old(lvm.groups)[vg.name], source, name) && accessType in {"ro", "rw"})
      ensures lvm.healthy && r.Failure? ==> lvm.groups == old(lvm.groups) || name !in LvsOf(lvm.groups, vg.name)
      ensures notifications == old(notifications) + if r.Success? then 1 else 0
    {
      var snap := SnapshotAndGrow(vg, source, name, size);
      ghost var taken := lvm.groups;
      if taken != old(lvm.groups) { TakenIsTried(old(lvm.groups), taken, taken, vg.name, source, name, size); }
      if snap.Failure? { return Failure(Internal); }
      var ok := Activate(accessType);
      if !ok {
        TakeBack(vg.name, name);
        TakenIsTried(old(lvm.groups), taken, lvm.groups, vg.name, source, name, size);
        return Failure(Internal);
      }
      Notify();
      return Success(snap.value);
    }

    /** The source is a thin volume, and the snapshot is at least as large as it and within the free bytes of the pool. */
    ghost predicate SnapshotAdmissible(groups: map<string, Group>, dc: DeviceClass, source: string, sizeBytes: Int64)
      requires Usable(dc)
    {
      && dc.kind.Thin? && PoolExists(groups, dc) && source in groups[dc.volumeGroup].lvs
      && var lv := groups[dc.volumeGroup].lvs[source];
      && IsThin(lv) && lv.size <= SnapshotSize(lv, sizeBytes) <= FreeOf(groups, dc)
    }

    function SnapshotSize(lv: Lv, sizeBytes: Int64): nat {
      if sizeBytes == 0 then lv.size else ToUint64(sizeBytes)
    }

    /** The checks of a snapshot, before anything changes; grants the source and the size to give the snapshot. */
    method AdmitSnapshot(dc: DeviceClass, source: string, sizeBytes: Int64) returns (a: Admission, size: nat)
      requires Valid() && Usable(dc)
      ensures !a.Unneeded?
      ensures a == Refused(OutOfRange) ==>
        source in LvsOf(lvm.groups, dc.volumeGroup) && 0 < ToUint64(sizeBytes) < LvsOf(lvm.groups, dc.volumeGroup)[source].size
      ensures a.Refused? && a.code == ResourceExhausted ==> dc.kind.Thin? && PoolExists(lvm.groups, dc) && FreeOf(lvm.groups, dc) < size
      ensures dc.kind.Thick? ==> a == Refused(Unimplemented)
      ensures a.Granted? ==>
        && dc.kind.Thin? && PoolExists(lvm.groups, dc) && a.vg.name == dc.volumeGroup && a.vg.reportLvs.None?
        && source in lvm.groups[dc.volumeGroup].lvs && IsThin(lvm.groups[dc.volumeGroup].lvs[source])
        && size == (if sizeBytes == 0 then lvm.groups[dc.volumeGroup].lvs[source].size else ToUint64(sizeBytes))
        && lvm.groups[dc.volumeGroup].lvs[source].size <= size <= FreeOf(lvm.groups, dc)
      ensures lvm.healthy ==> (a.Granted? <==> SnapshotAdmissible(lvm.groups, dc, source, sizeBytes))
    {
      size := 0;
      var found := FindSource(dc, source);
      if found.Refused? { return found, size; }
      var sizeOnCreation := found.lv.size;
      size := ToUint64(sizeBytes);
      if size == 0 { size := sizeOnCreation; }
      if sizeOnCreation > size { return Refused(OutOfRange), size; }
      var free := FreeInPool(dc, found.vg);
      if free.Failure? { return Refused(Internal), size; }
      if free.value < size { return Refused(ResourceExhausted), size; }
      return found, size;
    }

    /** The source of a snapshot, which has to be a thin volume. */
    method FindSource(dc: DeviceClass, source: string) returns (a: Admission)
      requires Valid() && Usable(dc)
      ensures !a.Unneeded? && (a.Refused? ==> a.code in {NoSuch, Internal, Unimplemented, Unknown})
      ensures dc.kind.Thick? ==> a == Refused(Unimplemented)
      ensures a.Granted? ==>
        && dc.kind.Thin? && dc.volumeGroup in lvm.groups && a.vg.name == dc.volumeGroup && a.vg.reportLvs.None?
        && source in lvm.groups[dc.volumeGroup].lvs && IsThin(lvm.groups[dc.volumeGroup].lvs[source])
        && a.lv.size == lvm.groups[dc.volumeGroup].lvs[source].size
      ensures lvm.healthy ==>
        (a.Granted? <==>
          && dc.kind.Thin? && dc.volumeGroup in lvm.groups && source in lvm.groups[dc.volumeGroup].lvs
          && IsThin(lvm.groups[dc.volumeGroup].lvs[source]))
    {
      if dc.kind.Thick? { return Refused(Unimplemented); }
      var vg := FindVolumeGroup(lvm, dc.volumeGroup);
      if vg.Failure? { return Refused(Unknown); }
      var sourceLV := FindVolume(lvm, vg.value, source);
      if sourceLV == Failure(NotFound) { return Refused(NoSuch); }
      if sourceLV.Failure? { return Refused(Internal); }
      assert ValidLv(lvm.groups[dc.volumeGroup].extent, lvm.groups[dc.volumeGroup].lvs[source]);
      if sourceLV.value.attr != 'V' { return Refused(Unimplemented); }
      return Granted(sourceLV.value, vg.value);
    }

    method FreeInPool(dc: DeviceClass, vg: VolumeGroup) returns (r: Result<nat, Error>)
      requires Valid() && Usable(dc) && dc.kind.Thin? && dc.volumeGroup in lvm.groups && vg.name == dc.volumeGroup && vg.reportLvs.None?
      ensures r.Success? ==> PoolExists(lvm.groups, dc) && r.value == FreeOf(lvm.groups, dc)
      ensures lvm.healthy ==> (r.Success? <==> PoolExists(lvm.groups, dc))
    {
      var pool := FindPool(lvm, vg, dc.thinPool.value.name);
      if pool.Failure? { return Failure(pool.error); }
      var usage := Usage(lvm, pool.value);
      if usage.Failure? { return Failure(usage.error); }
      return FreeBytes(usage.value, dc.thinPool.value.overprovisionRatio);
    }

    method SnapshotIn(dc: DeviceClass, name: string, source: string, sizeBytes: Int64, accessType: string)
      returns (r: Result<LogicalVolume, Code>, ghost size: nat)
      requires Valid() && Usable(dc)
      modifies this, lvm`groups
      ensures Valid()
      ensures lvm.groups == old(lvm.groups) ||
        (Snapshotable(old(lvm.groups), dc, source, name, size) && SnapshotTried(old(lvm.groups), lvm.groups, dc.volumeGroup, source, name, size))
      ensures r.Success? ==>
        && SnapshotDone(old(lvm.groups), lvm.groups, dc.volumeGroup, source, name, size, r.value) && accessType in {"ro", "rw"}
        && size == if sizeBytes == 0 then old(lvm.groups)[dc.volumeGroup].lvs[source].size else ToUint64(sizeBytes)
      ensures r.Failure? && r.error != Internal ==> lvm.groups == old(lvm.groups)
      ensures lvm.healthy ==>
        (r.Success? <==>
          && SnapshotAdmissible(old(lvm.groups), dc, source, sizeBytes) && name !in old(lvm.groups)[dc.volumeGroup].lvs
          && accessType in {"ro", "rw"})
      ensures notifications == old(notifications) + if r.Success? then 1 else 0
    {
      var a, desired := AdmitSnapshot(dc, source, sizeBytes);
      size := desired;
      if a.Refused? { return Failure(a.code), size; }
      r := TakeSnapshot(a.vg, source, name, desired, accessType);
    }

    method CreateLVSnapshot(name: string, deviceClass: string, source: string, sizeBytes: Int64, accessType: string)
      returns (r: Result<LogicalVolume, Code>, ghost size: nat)
      requires Valid()
      modifies this, lvm`groups
      ensures Valid()
      ensures Served(old(lvm.groups), lvm.groups, dcmapper.classes, SnapshotRequest(name, deviceClass, source, sizeBytes, accessType))
      ensures Named(dcmapper.classes, deviceClass).None? ==> r == Failure(NoSuch)
      ensures r.Failure? && r.error != Internal ==> lvm.groups == old(lvm.groups)
      ensures r.Success? ==>
        && SnapshotDone(old(lvm.groups), lvm.groups, Named(dcmapper.classes, deviceClass).value.volumeGroup, source, name, size, r.value)
        && accessType in {"ro", "rw"} && (sizeBytes != 0 ==> size == ToUint64(sizeBytes))
      ensures lvm.healthy && Named(dcmapper.classes, deviceClass).Some? ==>
        var dc := Named(dcmapper.classes, deviceClass).value;
        Usable(dc) &&
        (r.Success? <==>
          && SnapshotAdmissible(old(lvm.groups), dc, source, sizeBytes) && name !in old(lvm.groups)[dc.volumeGroup].lvs
          && accessType in {"ro", "rw"})
      ensures notifications == old(notifications) + if r.Success? then 1 else 0
    {
      ghost var q := SnapshotRequest(name, deviceClass, source, sizeBytes, accessType);
      ServedNothing(lvm.groups, dcmapper.classes, q);
      var dc, k := ClassOf(deviceClass);
      size := 0;
      if dc.None? { return Failure(NoSuch), size; }
      r, size := SnapshotIn(dc.value, name, source, sizeBytes, accessType);
      if lvm.groups != old(lvm.groups) {
        ServedSnapshot(old(lvm.groups), lvm.groups, dcmapper.classes, k, q, size);
      }
    }

    method Handle(q: Request)
      requires Valid()
      modifies this, lvm`groups
      ensures Valid() && Served(old(lvm.groups), lvm.groups, dcmapper.classes, q)
    {
      match q
      case CreateRequest(name, deviceClass, optionClass, sizeBytes) =>
        var _ := CreateLV(name, deviceClass, optionClass, sizeBytes);
      case ResizeRequest(name, deviceClass, sizeBytes) =>
        var _ := ResizeLV(name, deviceClass, sizeBytes);
      case RemoveRequest(name, deviceClass) =>
        var _ := RemoveLV(name, deviceClass);
      case SnapshotRequest(name, deviceClass, source, sizeBytes, accessType) =>
        var _, _ := CreateLVSnapshot(name, deviceClass, source, sizeBytes, accessType);
    }

    /**
     * Any sequence of calls with any failures: the ghost trace holds the state of LVM before the first call and after
     * each of them. Neighbouring states differ by what the call may do; all of them conserve space in groups of the
     * same size and extent; and if every call is well addressed in the state it meets, every thin bound holds
     * throughout.
     */
    method Serve(requests: seq<Request>) returns (ghost trace: seq<map<string, Group>>)
      requires Valid()
      modifies this, lvm
      ensures Valid() && |trace| == |requests| + 1 && trace[0] == old(lvm.groups) && trace[|requests|] == lvm.groups
      ensures Traced(trace, requests, dcmapper.classes)
      ensures AllAddressed(trace, requests, dcmapper.classes) && AllBounded(trace[0], dcmapper.classes) ==>
        forall i :: 0 <= i <= |requests| ==> AllBounded(trace[i], dcmapper.classes)
    {
      trace := [lvm.groups];
      for n := 0 to |requests|
        invariant Valid() && |trace| == n + 1 && trace[0] == old(lvm.groups) && trace[n] == lvm.groups
        invariant Traced(trace, requests[..n], dcmapper.classes)
      {
        lvm.healthy := *;
        Handle(requests[n]);
        TraceGrows(trace, requests[..n], dcmapper.classes, requests[n], lvm.groups);
        trace := trace + [lvm.groups];
        assert requests[..n + 1] == requests[..n] + [requests[n]];
      }
      assert requests[..|requests|] == requests;
      if AllAddressed(trace, requests, dcmapper.classes) && AllBounded(trace[0], dcmapper.classes) {
        forall i | 0 <= i <= |requests|
          ensures AllBounded(trace[i], dcmapper.classes)
        {
          RunKeepsBounded(trace, requests, dcmapper.classes, i);
        }
      }
    }
  }
}
