/** lvmd's VGService: the capacities it reports for the device classes. */
module VgServices {
  import opened Wrappers
  import opened Numbers
  import opened DeviceClasses
  import opened Lvms
  import opened VolumeGroups
  import opened Overprovisioning
  import opened StoragePools
  import opened LvServices
  import opened Booking

  datatype ThinPoolItem = ThinPoolItem(overprovisionBytes: nat, sizeBytes: nat)

  datatype WatchItem = WatchItem(deviceClass: string, freeBytes: nat, sizeBytes: nat, thinPool: Option<ThinPoolItem>)

  datatype WatchResponse = WatchResponse(freeBytes: nat, items: seq<WatchItem>)

  /** The bytes of an item that end up in a node annotation. */
  function Offered(item: WatchItem): nat {
    if item.thinPool.Some? then item.thinPool.value.overprovisionBytes else item.freeBytes
  }

  // ---------------------------------------------------------------- what a response should hold

  ghost predicate Backed(groups: map<string, Group>, dc: DeviceClass) {
    Usable(dc) && PoolExists(groups, dc)
  }

  /** An item that reports the advertised capacity of the k-th class. */
  ghost predicate Reports(groups: map<string, Group>, dcs: seq<DeviceClass>, k: int, item: WatchItem) {
    && 0 <= k < |dcs| && Backed(groups, Normalize(dcs[k]))
    && item.deviceClass == dcs[k].name && Offered(item) == Advertised(groups, Normalize(dcs[k]))
  }

  ghost predicate Genuine(groups: map<string, Group>, dcs: seq<DeviceClass>, item: WatchItem) {
    exists k :: Reports(groups, dcs, k, item)
  }

  ghost predicate Sound(groups: map<string, Group>, dcs: seq<DeviceClass>, res: WatchResponse) {
    && (forall i :: 0 <= i < |res.items| ==> Genuine(groups, dcs, res.items[i]))
    && (res.freeBytes != 0 ==> exists k :: DefaultIs(groups, dcs, k, res.freeBytes))
  }

  ghost predicate DefaultIs(groups: map<string, Group>, dcs: seq<DeviceClass>, k: int, bytes: nat) {
    && 0 <= k < |dcs| && dcs[k].isDefault
    && Backed(groups, Normalize(dcs[k])) && bytes == Advertised(groups, Normalize(dcs[k]))
  }

  ghost predicate ListsName(items: seq<WatchItem>, name: string) {
    exists i :: 0 <= i < |items| && items[i].deviceClass == name
  }

  /** The k-th class, if it has something to allocate from, is reported. */
  ghost predicate Covers(groups: map<string, Group>, dcs: seq<DeviceClass>, res: WatchResponse, k: int)
    requires 0 <= k < |dcs|
  {
    Backed(groups, Normalize(dcs[k])) ==>
      && ListsName(res.items, dcs[k].name)
      && (dcs[k].isDefault ==> res.freeBytes == Advertised(groups, Normalize(dcs[k])))
  }

  /** Classes whose target is among those visited are covered. */
  ghost predicate CoversVisited(groups: map<string, Group>, dcs: seq<DeviceClass>, res: WatchResponse, visited: iset<Target>) {
    forall k {:trigger Covers(groups, dcs, res, k)} :: 0 <= k < |dcs| && TargetOf(dcs[k]) in visited ==> Covers(groups, dcs, res, k)
  }

  // ---------------------------------------------------------------- adding one item

  function AddItem(res: WatchResponse, item: WatchItem, isDefault: bool): WatchResponse {
    WatchResponse(if isDefault then Offered(item) else res.freeBytes, res.items + [item])
  }

  lemma AddKeepsSound(groups: map<string, Group>, dcs: seq<DeviceClass>, res: WatchResponse, k: int, item: WatchItem)
    requires Sound(groups, dcs, res) && Reports(groups, dcs, k, item)
    ensures Sound(groups, dcs, AddItem(res, item, dcs[k].isDefault))
  {
    var after := AddItem(res, item, dcs[k].isDefault);
    forall i | 0 <= i < |after.items|
      ensures Genuine(groups, dcs, after.items[i])
    {
      if i < |res.items| {
        assert Genuine(groups, dcs, res.items[i]);
      } else {
        assert Reports(groups, dcs, k, after.items[i]);
      }
    }
    if dcs[k].isDefault {
      assert DefaultIs(groups, dcs, k, Offered(item));
    }
  }

  lemma AddKeepsCovers(groups: map<string, Group>, dcs: seq<DeviceClass>, res: WatchResponse, k: int, item: WatchItem, m: int)
    requires Accepted(dcs) && Reports(groups, dcs, k, item) && 0 <= m < |dcs| && (m == k || Covers(groups, dcs, res, m))
    ensures Covers(groups, dcs, AddItem(res, item, dcs[k].isDefault), m)
  {
    var after := AddItem(res, item, dcs[k].isDefault);
    if m == k {
      assert after.items[|res.items|] == item;
    } else {
      assert !Clash(dcs[m], dcs[k]) || !Clash(dcs[k], dcs[m]);
      if ListsName(res.items, dcs[m].name) {
        var i :| 0 <= i < |res.items| && res.items[i].deviceClass == dcs[m].name;
        assert after.items[i].deviceClass == dcs[m].name;
      }
    }
  }

  /** Adding the item of a class extends what is covered by the target of that class. */
  lemma AddVisits(groups: map<string, Group>, dcs: seq<DeviceClass>, res: WatchResponse, visited: iset<Target>, k: int, item: WatchItem)
    requires Accepted(dcs) && Sound(groups, dcs, res) && CoversVisited(groups, dcs, res, visited) && Reports(groups, dcs, k, item)
    ensures Sound(groups, dcs, AddItem(res, item, dcs[k].isDefault))
    ensures CoversVisited(groups, dcs, AddItem(res, item, dcs[k].isDefault), visited + iset{TargetOf(dcs[k])})
  {
    AddKeepsSound(groups, dcs, res, k, item);
    forall m | 0 <= m < |dcs| && TargetOf(dcs[m]) in visited + iset{TargetOf(dcs[k])}
      ensures Covers(groups, dcs, AddItem(res, item, dcs[k].isDefault), m)
    {
      if m != k { TargetsDiffer(dcs, m, k); }
      AddKeepsCovers(groups, dcs, res, k, item, m);
    }
  }

  /** The class that allocates from a target, by its position. */
  lemma TargetAt(dcs: seq<DeviceClass>, t: Target) returns (k: int)
    requires Accepted(dcs)
    ensures Search(dcs, WithTarget(t)).Some? ==>
      0 <= k < |dcs| && Search(dcs, WithTarget(t)).value == Normalize(dcs[k]) && TargetOf(dcs[k]) == t && Usable(Normalize(dcs[k]))
    ensures Search(dcs, WithTarget(t)).None? ==> forall m :: 0 <= m < |dcs| ==> TargetOf(dcs[m]) != t
  {
    k := 0;
    var q := WithTarget(t);
    SearchMisses(dcs, q);
    assert forall m :: 0 <= m < |dcs| ==> (Matches(q, dcs[m]) <==> TargetOf(dcs[m]) == t);
    if Search(dcs, q).Some? {
      k :| 0 <= k < |dcs| && Matches(q, dcs[k]);
      SearchFinds(dcs, q, k);
      assert WellFormed(dcs[k]);
    }
  }

  /** A target without a class needs no item. */
  lemma SkipVisits(groups: map<string, Group>, dcs: seq<DeviceClass>, res: WatchResponse, visited: iset<Target>, t: Target)
    requires CoversVisited(groups, dcs, res, visited) && forall m :: 0 <= m < |dcs| ==> TargetOf(dcs[m]) != t
    ensures CoversVisited(groups, dcs, res, visited + iset{t})
  {
    forall m | 0 <= m < |dcs| && TargetOf(dcs[m]) in visited + iset{t}
      ensures Covers(groups, dcs, res, m)
    {
      assert TargetOf(dcs[m]) in visited;
    }
  }

  ghost predicate Visited(groups: map<string, Group>, vgName: string, visited: iset<Target>) {
    && vgName in groups && Target.VolumeGroup(vgName) in visited
    && forall p :: HasPool(groups[vgName], p) ==> Target.ThinPool(vgName, p) in visited
  }

  lemma VisitedMore(groups: map<string, Group>, vgName: string, visited: iset<Target>, more: iset<Target>)
    requires Visited(groups, vgName, visited) && visited <= more
    ensures Visited(groups, vgName, more)
  {
  }

  /** Once its group and the pools of the group are visited, a class is covered: a missing pool backs no class. */
  lemma VisitedIsCovered(groups: map<string, Group>, dcs: seq<DeviceClass>, res: WatchResponse, visited: iset<Target>, k: int)
    requires CoversVisited(groups, dcs, res, visited)
    requires 0 <= k < |dcs| && (dcs[k].volumeGroup in groups ==> Visited(groups, dcs[k].volumeGroup, visited))
    ensures Covers(groups, dcs, res, k)
  {
    if Backed(groups, Normalize(dcs[k])) {
      assert TargetOf(dcs[k]) in visited;
    }
  }

  // ---------------------------------------------------------------- the service

  class VgService {
    const lvm: Lvm
    const dcManager: DeviceClassManager

    ghost predicate Valid()
      reads this, lvm, dcManager
    {
      && lvm.Valid() && dcManager.Valid()
      && (forall i :: 0 <= i < |dcManager.classes| ==> SlashFree(dcManager.classes[i].volumeGroup))
      && (forall v :: v in lvm.groups ==> SlashFree(v))
    }

    constructor (lvm: Lvm, dcManager: DeviceClassManager)
      requires lvm.Valid() && dcManager.Valid()
      requires forall i :: 0 <= i < |dcManager.classes| ==> SlashFree(dcManager.classes[i].volumeGroup)
      requires forall v :: v in lvm.groups ==> SlashFree(v)
      ensures Valid() && this.lvm == lvm && this.dcManager == dcManager
    {
      this.lvm, this.dcManager := lvm, dcManager;
    }

    /** The free bytes of a class, without its spare; a thin class keeps a spare here too. */
    method GetFreeBytes(deviceClass: string) returns (r: Result<nat, Code>)
      requires Valid()
      ensures r == Failure(NoSuch) <==> Named(dcManager.classes, deviceClass).None?
      ensures r.Success? ==>
        var dc := Named(dcManager.classes, deviceClass).value;
        Backed(lvm.groups, dc) && r.value == if FreeOf(lvm.groups, dc) < GetSpare(dc) then 0 else FreeOf(lvm.groups, dc) - GetSpare(dc)
      ensures lvm.healthy && Named(dcManager.classes, deviceClass).Some? ==>
        (r.Success? <==> Backed(lvm.groups, Named(dcManager.classes, deviceClass).value))
    {
      var dc := dcManager.DeviceClass(deviceClass);
      if dc.None? { return Failure(NoSuch); }
      ghost var k := NamedAt(dcManager.classes, deviceClass);
      var pool := StoragePoolForDeviceClass(lvm, dc.value);
      if pool.Failure? { return Failure(Internal); }
      var free := Free(lvm, dc.value, pool.value);
      if free.Failure? { return Failure(Internal); }
      var spare := GetSpare(dc.value);
      return Success(if free.value < spare then 0 else free.value - spare);
    }

    /** The item of a thin pool, if a class allocates from it. */
    method ThinItem(vg: VolumeGroup, poolName: string) returns (item: Option<(WatchItem, bool)>, ghost k: int)
      requires Valid() && FromReport(lvm, vg) && HasPool(lvm.groups[vg.name], poolName)
      ensures item.Some? ==>
        && Reports(lvm.groups, dcManager.classes, k, item.value.0) && item.value.1 == dcManager.classes[k].isDefault
        && TargetOf(dcManager.classes[k]) == Target.ThinPool(vg.name, poolName)
      ensures item.None? ==>
        forall m :: 0 <= m < |dcManager.classes| ==> TargetOf(dcManager.classes[m]) != Target.ThinPool(vg.name, poolName)
    {
      k := TargetAt(dcManager.classes, Target.ThinPool(vg.name, poolName));
      var found := dcManager.FindDeviceClassByThinPoolName(vg.name, poolName);
      if found.None? { return None, k; }
      var dc := found.value;
      var pool := FindPool(lvm, vg, dc.thinPool.value.name);
      var usage := Usage(lvm, pool.value);
      var opb := FreeBytes(usage.value, dc.thinPool.value.overprovisionRatio);
      return Some((WatchItem(dc.name, vg.free, vg.size, Some(ThinPoolItem(opb.value, usage.value.sizeBytes))), dc.isDefault)), k;
    }

    /** The item of a whole group, if a class allocates from it. */
    method ThickItem(vg: VolumeGroup) returns (item: Option<(WatchItem, bool)>, ghost k: int)
      requires Valid() && FromReport(lvm, vg)
      ensures item.Some? ==>
        && Reports(lvm.groups, dcManager.classes, k, item.value.0) && item.value.1 == dcManager.classes[k].isDefault
        && TargetOf(dcManager.classes[k]) == Target.VolumeGroup(vg.name)
      ensures item.None? ==>
        forall m :: 0 <= m < |dcManager.classes| ==> TargetOf(dcManager.classes[m]) != Target.VolumeGroup(vg.name)
    {
      k := TargetAt(dcManager.classes, Target.VolumeGroup(vg.name));
      var found := dcManager.FindDeviceClassByVGName(vg.name);
      if found.None? { return None, k; }
      var dc := found.value;
      var spare := GetSpare(dc);
      var free := if vg.free < spare then 0 else vg.free - spare;
      return Some((WatchItem(dc.name, free, vg.size, None), dc.isDefault)), k;
    }

    method AddThinItems(res0: WatchResponse, vg: VolumeGroup, ghost visited: iset<Target>) returns (res: WatchResponse, ghost seen: iset<Target>)
      requires Valid() && FromReport(lvm, vg)
      requires Sound(lvm.groups, dcManager.classes, res0) && CoversVisited(lvm.groups, dcManager.classes, res0, visited)
      ensures Sound(lvm.groups, dcManager.classes, res) && CoversVisited(lvm.groups, dcManager.classes, res, seen)
      ensures visited <= seen && forall p :: HasPool(lvm.groups[vg.name], p) ==> Target.ThinPool(vg.name, p) in seen
    {
      res, seen := res0, visited;
      var pools := ListPools(lvm, vg, "");
      var left := pools.value.Keys;
      AnswersLookup(pools.value, Pools(vg, Current(lvm, vg)), "");
      while left != {}
        invariant left <= pools.value.Keys && visited <= seen
        invariant Sound(lvm.groups, dcManager.classes, res) && CoversVisited(lvm.groups, dcManager.classes, res, seen)
        invariant forall p :: p in pools.value && p !in left ==> Target.ThinPool(vg.name, p) in seen
        decreases left
      {
        var p :| p in left;
        left := left - {p};
        var item, k := ThinItem(vg, pools.value[p].state.name);
        if item.Some? {
          AddVisits(lvm.groups, dcManager.classes, res, seen, k, item.value.0);
          res := AddItem(res, item.value.0, item.value.1);
        } else {
          SkipVisits(lvm.groups, dcManager.classes, res, seen, Target.ThinPool(vg.name, p));
        }
        seen := seen + iset{Target.ThinPool(vg.name, p)};
      }
    }

    method AddGroup(res0: WatchResponse, vg: VolumeGroup, ghost visited: iset<Target>) returns (res: WatchResponse, ghost seen: iset<Target>)
      requires Valid() && FromReport(lvm, vg)
      requires Sound(lvm.groups, dcManager.classes, res0) && CoversVisited(lvm.groups, dcManager.classes, res0, visited)
      ensures Sound(lvm.groups, dcManager.classes, res) && CoversVisited(lvm.groups, dcManager.classes, res, seen)
      ensures visited <= seen && Visited(lvm.groups, vg.name, seen)
    {
      res, seen := AddThinItems(res0, vg, visited);
      var item, k := ThickItem(vg);
      if item.Some? {
        AddVisits(lvm.groups, dcManager.classes, res, seen, k, item.value.0);
        res := AddItem(res, item.value.0, item.value.1);
      } else {
        SkipVisits(lvm.groups, dcManager.classes, res, seen, Target.VolumeGroup(vg.name));
      }
      seen := seen + iset{Target.VolumeGroup(vg.name)};
    }

    method AddGroups(vgs: seq<VolumeGroup>) returns (res: WatchResponse, ghost visited: iset<Target>)
      requires Valid() && forall i :: 0 <= i < |vgs| ==> FromReport(lvm, vgs[i])
      ensures Sound(lvm.groups, dcManager.classes, res) && CoversVisited(lvm.groups, dcManager.classes, res, visited)
      ensures forall i :: 0 <= i < |vgs| ==> Visited(lvm.groups, vgs[i].name, visited)
    {
      res, visited := WatchResponse(0, []), iset{};
      for i := 0 to |vgs|
        invariant Sound(lvm.groups, dcManager.classes, res) && CoversVisited(lvm.groups, dcManager.classes, res, visited)
        invariant forall j :: 0 <= j < i ==> Visited(lvm.groups, vgs[j].name, visited)
      {
        ghost var before := visited;
        res, visited := AddGroup(res, vgs[i], visited);
        forall j | 0 <= j < i
          ensures Visited(lvm.groups, vgs[j].name, visited)
        {
          VisitedMore(lvm.groups, vgs[j].name, before, visited);
        }
      }
    }

    /** Every class that has something to allocate from is reported, with its advertised capacity, and nothing else is. */
    method Send() returns (r: Result<WatchResponse, Code>)
      requires Valid()
      ensures r.Failure? ==> !lvm.healthy
      ensures r.Success? ==> Sound(lvm.groups, dcManager.classes, r.value)
      ensures r.Success? ==> forall k :: 0 <= k < |dcManager.classes| ==> Covers(lvm.groups, dcManager.classes, r.value, k)
    {
      var vgs := ListVolumeGroups(lvm);
      if vgs.Failure? { return Failure(Unknown); }
      var res, visited := AddGroups(vgs.value);
      forall k | 0 <= k < |dcManager.classes|
        ensures Covers(lvm.groups, dcManager.classes, res, k)
      {
        VisitedIsCovered(lvm.groups, dcManager.classes, res, visited, k);
      }
      return Success(res);
    }
  }
}
