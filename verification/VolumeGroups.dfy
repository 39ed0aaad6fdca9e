/**
 * lvmd's view of LVM. A volume group is read either with the volumes of a full report attached (fast path)
 * or without them, and then its volumes are asked for one command at a time (slow path).
 */
module VolumeGroups {
  import opened Wrappers
  import opened Numbers
  import opened Lvms

  /** A number on 64 bits; adding up on 64 bits and reducing the sum come to the same. */
  function Wrap(n: nat): nat {
    n % 0x1_0000_0000_0000_0000
  }

  datatype VolumeGroup = VolumeGroup(name: string, size: nat, free: nat, reportLvs: Option<map<string, Row>>)

  datatype LogicalVolume = LogicalVolume(
    vgName: string, name: string, size: nat, origin: Option<string>, pool: Option<string>, attr: char)

  datatype ThinPool = ThinPool(vg: VolumeGroup, state: Row)

  datatype ThinPoolUsage = ThinPoolUsage(virtualBytes: nat, sizeBytes: nat)

  // ---------------------------------------------------------------- what the answers should be

  /** A non-thin snapshot has the size of its origin. */
  function ConvertLV(row: Row): LogicalVolume {
    var origin := if row.lv.origin == "" then None else Some(row.lv.origin);
    var pool := if row.lv.poolLv == "" then None else Some(row.lv.poolLv);
    var size := if origin.Some? && pool.None? then row.lv.originSize else row.lv.size;
    LogicalVolume(row.vgName, row.name, size, origin, pool, row.lv.attr)
  }

  function Volumes(rows: map<string, Row>): map<string, LogicalVolume> {
    map n | n in rows && !IsThinPool(rows[n].lv) :: ConvertLV(rows[n])
  }

  function Pools(vg: VolumeGroup, rows: map<string, Row>): map<string, ThinPool> {
    map n | n in rows && IsThinPool(rows[n].lv) :: ThinPool(vg, rows[n])
  }

  function PoolVolumes(rows: map<string, Row>, pool: string): map<string, LogicalVolume> {
    map n | n in rows && InPool(rows[n].lv, pool) :: ConvertLV(rows[n])
  }

  function Lookup<T>(m: map<string, T>, name: string): Result<T, Error> {
    if name in m then Success(m[name]) else Failure(NotFound)
  }

  /** The current rows of a group, whatever the path. */
  function Current(lvm: Lvm, vg: VolumeGroup): map<string, Row>
    reads lvm
  {
    RowsOf(vg.name, LvsOf(lvm.groups, vg.name))
  }

  /** The attached report, if there is one, is up to date. */
  predicate Fresh(lvm: Lvm, vg: VolumeGroup)
    reads lvm
  {
    vg.reportLvs.Some? ==> vg.reportLvs.value == Current(lvm, vg)
  }

  /** The whole of a table when no name is given; with a name, part of it, but at the name as much as the whole. */
  predicate Answers<T(==)>(part: map<string, T>, whole: map<string, T>, name: string) {
    && (forall n :: n in part ==> n in whole && part[n] == whole[n])
    && (forall n :: n in whole && (name == "" || n == name) ==> n in part)
  }

  lemma AnswersLookup<T>(part: map<string, T>, whole: map<string, T>, name: string)
    requires Answers(part, whole, name)
    ensures name == "" ==> part == whole
    ensures Lookup(part, name) == Lookup(whole, name)
  {
  }

  // ---------------------------------------------------------------- reading

  /** The rows of one group, by name. */
  method FilterLV(vgName: string, lvs: seq<Row>) returns (filtered: map<string, Row>)
    ensures forall n :: n in filtered ==> filtered[n] in lvs && filtered[n].vgName == vgName && filtered[n].name == n
    ensures forall i :: 0 <= i < |lvs| && lvs[i].vgName == vgName ==> lvs[i].name in filtered
  {
    filtered := map[];
    for k := 0 to |lvs|
      invariant forall n :: n in filtered ==> filtered[n] in lvs && filtered[n].vgName == vgName && filtered[n].name == n
      invariant forall i :: 0 <= i < k && lvs[i].vgName == vgName ==> lvs[i].name in filtered
    {
      if lvs[k].vgName == vgName {
        filtered := filtered[lvs[k].name := lvs[k]];
      }
    }
  }

  method FindVolumeGroup(lvm: Lvm, name: string) returns (r: Result<VolumeGroup, Error>)
    ensures r.Success? ==>
      name in lvm.groups && r.value == VolumeGroup(name, lvm.groups[name].size, lvm.groups[name].free, None)
    ensures r == Failure(NotFound) ==> name !in lvm.groups
    ensures lvm.healthy ==> r != Failure(CallFailed) && (r.Success? <==> name in lvm.groups)
  {
    var v := lvm.Vgs(name);
    if v.Failure? { return Failure(v.error); }
    return Success(VolumeGroup(name, v.value.0, v.value.1, None));
  }

  ghost predicate FromReport(lvm: Lvm, vg: VolumeGroup)
    reads lvm
  {
    && vg.name in lvm.groups && vg.size == lvm.groups[vg.name].size && vg.free == lvm.groups[vg.name].free
    && vg.reportLvs == Some(Current(lvm, vg))
  }

  lemma FilteredIsCurrent(groups: map<string, Group>, vgName: string, rows: seq<Row>, filtered: map<string, Row>)
    requires forall row :: row in rows <==> Reported(groups, row)
    requires forall n :: n in filtered ==> filtered[n] in rows && filtered[n].vgName == vgName && filtered[n].name == n
    requires forall i :: 0 <= i < |rows| && rows[i].vgName == vgName ==> rows[i].name in filtered
    ensures filtered == RowsOf(vgName, LvsOf(groups, vgName))
  {
    forall n | n in LvsOf(groups, vgName)
      ensures n in filtered
    {
      var row := Row(vgName, n, LvsOf(groups, vgName)[n]);
      assert Reported(groups, row);
    }
  }

  /** Every group once, each with its volumes attached. */
  method ListVolumeGroups(lvm: Lvm) returns (r: Result<seq<VolumeGroup>, Error>)
    ensures r.Failure? ==> r.error == CallFailed && !lvm.healthy
    ensures r.Success? ==> forall i :: 0 <= i < |r.value| ==> FromReport(lvm, r.value[i]) && Fresh(lvm, r.value[i])
    ensures r.Success? ==> forall v :: v in lvm.groups ==> exists i :: 0 <= i < |r.value| && r.value[i].name == v
    ensures r.Success? ==> forall i, j :: 0 <= i < j < |r.value| ==> r.value[i].name != r.value[j].name
  {
    var report := lvm.FullReport();
    if report.Failure? { return Failure(report.error); }
    var (vgs, lvs) := report.value;
    var groups: seq<VolumeGroup> := [];
    for k := 0 to |vgs|
      invariant |groups| == k
      invariant forall i :: 0 <= i < k ==> groups[i].name == vgs[i].0 && FromReport(lvm, groups[i])
    {
      var filtered := FilterLV(vgs[k].0, lvs);
      FilteredIsCurrent(lvm.groups, vgs[k].0, lvs, filtered);
      groups := groups + [VolumeGroup(vgs[k].0, vgs[k].1, vgs[k].2, Some(filtered))];
    }
    forall v | v in lvm.groups
      ensures exists i :: 0 <= i < |groups| && groups[i].name == v
    {
      var i :| 0 <= i < |vgs| && vgs[i] == (v, lvm.groups[v].size, lvm.groups[v].free);
      assert groups[i].name == v;
    }
    return Success(groups);
  }

  method GetLVReport(lvm: Lvm, vgName: string, lvName: string) returns (r: Result<map<string, Row>, Error>)
    ensures r == Failure(NotFound) ==> Answers(map[], RowsOf(vgName, LvsOf(lvm.groups, vgName)), lvName)
    ensures r.Success? ==> Answers(r.value, RowsOf(vgName, LvsOf(lvm.groups, vgName)), lvName)
    ensures lvm.healthy ==> r != Failure(CallFailed)
  {
    var lvs := lvm.Lvs(vgName, lvName);
    if lvs.Failure? { return Failure(lvs.error); }
    var rows := lvs.value;
    var lvmap: map<string, Row> := map[];
    for k := 0 to |rows|
      invariant forall n :: n in lvmap ==> n in RowsOf(vgName, LvsOf(lvm.groups, vgName)) && lvmap[n] == RowsOf(vgName, LvsOf(lvm.groups, vgName))[n]
      invariant forall i :: 0 <= i < k ==> rows[i].name in lvmap
    {
      lvmap := lvmap[rows[k].name := rows[k]];
    }
    forall n | n in LvsOf(lvm.groups, vgName) && (lvName == "" || n == lvName)
      ensures n in lvmap
    {
      var i :| 0 <= i < |rows| && rows[i] == Row(vgName, n, LvsOf(lvm.groups, vgName)[n]);
    }
    return Success(lvmap);
  }

  /** The rows of a report that is not empty, and otherwise those a command gives. */
  method GetLVs(lvm: Lvm, vg: VolumeGroup, name: string) returns (r: Result<map<string, Row>, Error>)
    requires Fresh(lvm, vg)
    ensures r.Success? ==> Answers(r.value, Current(lvm, vg), name)
    ensures r == Failure(NotFound) ==> Answers(map[], Current(lvm, vg), name)
    ensures r == Failure(CallFailed) ==> !lvm.healthy && (vg.reportLvs.None? || vg.reportLvs.value == map[])
  {
    if vg.reportLvs.Some? && |vg.reportLvs.value| > 0 {
      if name != "" {
        if name in vg.reportLvs.value {
          return Success(map[name := vg.reportLvs.value[name]]);
        }
        return Failure(NotFound);
      }
      return Success(vg.reportLvs.value);
    }
    r := GetLVReport(lvm, vg.name, name);
  }

  /** The rows to list from: those of any report, even an empty one, or those of a command; a missing target has none. */
  method RowsToList(lvm: Lvm, vg: VolumeGroup, name: string) returns (r: Result<map<string, Row>, Error>)
    requires Fresh(lvm, vg)
    ensures r.Success? ==> Answers(r.value, Current(lvm, vg), name)
    ensures r.Failure? ==> vg.reportLvs.None? && r.error == CallFailed && !lvm.healthy
  {
    if vg.reportLvs.Some? {
      return Success(vg.reportLvs.value);
    }
    r := GetLVs(lvm, vg, name);
    if r == Failure(NotFound) {
      return Success(map[]);
    }
  }

  method ListVolumesFor(lvm: Lvm, vg: VolumeGroup, name: string) returns (r: Result<map<string, LogicalVolume>, Error>)
    requires Fresh(lvm, vg)
    ensures r.Success? ==> Answers(r.value, Volumes(Current(lvm, vg)), name)
    ensures r.Failure? ==> vg.reportLvs.None? && r.error == CallFailed && !lvm.healthy
  {
    var lvs := RowsToList(lvm, vg, name);
    if lvs.Failure? { return Failure(lvs.error); }
    var ret: map<string, LogicalVolume> := map[];
    var left := lvs.value.Keys;
    while left != {}
      invariant left <= lvs.value.Keys
      invariant ret == map n | n in lvs.value && n !in left && !IsThinPool(lvs.value[n].lv) :: ConvertLV(lvs.value[n])
      decreases left
    {
      var n :| n in left;
      left := left - {n};
      var lv := lvs.value[n];
      if !IsThinPool(lv.lv) {
        ret := ret[lv.name := ConvertLV(lv)];
      }
    }
    return Success(ret);
  }

  method FindVolume(lvm: Lvm, vg: VolumeGroup, name: string) returns (r: Result<LogicalVolume, Error>)
    requires Fresh(lvm, vg)
    ensures r != Failure(CallFailed) ==> r == Lookup(Volumes(Current(lvm, vg)), name)
    ensures r == Failure(CallFailed) ==> vg.reportLvs.None? && !lvm.healthy
  {
    var volumes := ListVolumesFor(lvm, vg, name);
    if volumes.Failure? { return Failure(volumes.error); }
    AnswersLookup(volumes.value, Volumes(Current(lvm, vg)), name);
    if name !in volumes.value { return Failure(NotFound); }
    return Success(volumes.value[name]);
  }

  method ListVolumes(lvm: Lvm, vg: VolumeGroup) returns (r: Result<map<string, LogicalVolume>, Error>)
    requires Fresh(lvm, vg)
    ensures r.Success? ==> r.value == Volumes(Current(lvm, vg))
    ensures r.Failure? ==> vg.reportLvs.None? && r.error == CallFailed && !lvm.healthy
  {
    r := ListVolumesFor(lvm, vg, "");
    if r.Success? { AnswersLookup(r.value, Volumes(Current(lvm, vg)), ""); }
  }

  method ListPools(lvm: Lvm, vg: VolumeGroup, name: string) returns (r: Result<map<string, ThinPool>, Error>)
    requires Fresh(lvm, vg)
    ensures r.Success? ==> Answers(r.value, Pools(vg, Current(lvm, vg)), name)
    ensures r.Failure? ==> vg.reportLvs.None? && r.error == CallFailed && !lvm.healthy
  {
    var lvs := RowsToList(lvm, vg, name);
    if lvs.Failure? { return Failure(lvs.error); }
    var ret: map<string, ThinPool> := map[];
    var left := lvs.value.Keys;
    while left != {}
      invariant left <= lvs.value.Keys
      invariant ret == map n | n in lvs.value && n !in left && IsThinPool(lvs.value[n].lv) :: ThinPool(vg, lvs.value[n])
      decreases left
    {
      var n :| n in left;
      left := left - {n};
      var lv := lvs.value[n];
      if IsThinPool(lv.lv) {
        ret := ret[lv.name := ThinPool(vg, lv)];
      }
    }
    return Success(ret);
  }

  method FindPool(lvm: Lvm, vg: VolumeGroup, name: string) returns (r: Result<ThinPool, Error>)
    requires Fresh(lvm, vg)
    ensures r != Failure(CallFailed) ==> r == Lookup(Pools(vg, Current(lvm, vg)), name)
    ensures r == Failure(CallFailed) ==> vg.reportLvs.None? && !lvm.healthy
  {
    var pools := ListPools(lvm, vg, name);
    if pools.Failure? { return Failure(pools.error); }
    AnswersLookup(pools.value, Pools(vg, Current(lvm, vg)), name);
    if name !in pools.value { return Failure(NotFound); }
    return Success(pools.value[name]);
  }

  ghost predicate Keyed(volumes: map<string, LogicalVolume>) {
    forall n :: n in volumes ==> volumes[n].name == n
  }

  function OfPool(volumes: map<string, LogicalVolume>, pool: Option<string>): map<string, LogicalVolume> {
    map n | n in volumes && volumes[n].pool == pool :: volumes[n]
  }

  method FilterPool(volumes: map<string, LogicalVolume>, pool: Option<string>) returns (filtered: map<string, LogicalVolume>)
    requires Keyed(volumes)
    ensures filtered == OfPool(volumes, pool)
  {
    filtered := map[];
    var left := volumes.Keys;
    while left != {}
      invariant left <= volumes.Keys
      invariant filtered == OfPool(volumes, pool) - left
      decreases left
    {
      var n :| n in left;
      left := left - {n};
      if volumes[n].pool == pool {
        filtered := filtered[volumes[n].name := volumes[n]];
      }
    }
  }

  lemma PoolVolumesAre(rows: map<string, Row>, pool: string)
    ensures PoolVolumes(rows, pool) == OfPool(Volumes(rows), Some(pool))
  {
  }

  method PoolListVolumes(lvm: Lvm, t: ThinPool) returns (r: Result<map<string, LogicalVolume>, Error>)
    requires Fresh(lvm, t.vg)
    ensures r.Success? ==> r.value == PoolVolumes(Current(lvm, t.vg), t.state.name)
    ensures r.Failure? ==> t.vg.reportLvs.None? && r.error == CallFailed && !lvm.healthy
  {
    var volumes := ListVolumes(lvm, t.vg);
    if volumes.Failure? { return Failure(volumes.error); }
    PoolVolumesAre(Current(lvm, t.vg), t.state.name);
    var filtered := FilterPool(volumes.value, Some(t.state.name));
    return Success(filtered);
  }

  method PoolFindVolume(lvm: Lvm, t: ThinPool, name: string) returns (r: Result<LogicalVolume, Error>)
    requires Fresh(lvm, t.vg)
    ensures r != Failure(CallFailed) ==> r == Lookup(PoolVolumes(Current(lvm, t.vg), t.state.name), name)
    ensures r == Failure(CallFailed) ==> t.vg.reportLvs.None? && !lvm.healthy
  {
    r := FindVolume(lvm, t.vg, name);
    if r.Success? && r.value.pool != Some(t.state.name) {
      return Failure(NotFound);
    }
  }

  ghost function SizesOf(volumes: map<string, LogicalVolume>): map<string, nat> {
    map n | n in volumes :: volumes[n].size
  }

  /** The sum so far, when some volumes are left to add. */
  ghost function Done(volumes: map<string, LogicalVolume>, left: set<string>): nat {
    Total(SizesOf(volumes) - left)
  }

  lemma DoneAtFirstAndLast(volumes: map<string, LogicalVolume>)
    ensures Done(volumes, volumes.Keys) == 0 && Done(volumes, {}) == Total(SizesOf(volumes))
  {
    assert SizesOf(volumes) - volumes.Keys == map[];
    assert SizesOf(volumes) - {} == SizesOf(volumes);
  }

  lemma DoneOneMore(volumes: map<string, LogicalVolume>, left: set<string>, n: string)
    requires n in left && n in volumes
    ensures Done(volumes, left - {n}) == Done(volumes, left) + volumes[n].size
  {
    var sizes := SizesOf(volumes);
    TotalUpdate(sizes - left, n, sizes[n]);
    assert sizes - (left - {n}) == (sizes - left)[n := sizes[n]];
  }

  method SumSizes(volumes: map<string, LogicalVolume>) returns (sum: nat)
    ensures sum == Total(SizesOf(volumes))
  {
    sum := 0;
    var left := volumes.Keys;
    DoneAtFirstAndLast(volumes);
    while left != {}
      invariant left <= volumes.Keys && sum == Done(volumes, left)
      decreases left
    {
      var n :| n in left;
      DoneOneMore(volumes, left, n);
      left := left - {n};
      sum := sum + volumes[n].size;
    }
  }

  lemma PoolSizesAre(vgName: string, lvs: map<string, Lv>, pool: string)
    ensures SizesOf(PoolVolumes(RowsOf(vgName, lvs), pool)) == VirtualSizes(lvs, pool)
  {
  }

  /** The bytes promised by a pool's volumes, added up on 64 bits, and the size of the pool. */
  method Usage(lvm: Lvm, t: ThinPool) returns (r: Result<ThinPoolUsage, Error>)
    requires Fresh(lvm, t.vg)
    ensures r.Success? ==>
      && r.value.virtualBytes == Wrap(Total(VirtualSizes(LvsOf(lvm.groups, t.vg.name), t.state.name)))
      && r.value.sizeBytes == t.state.lv.size
    ensures r.Failure? ==> t.vg.reportLvs.None? && r.error == CallFailed && !lvm.healthy
  {
    var lvs := PoolListVolumes(lvm, t);
    if lvs.Failure? { return Failure(lvs.error); }
    var sum := SumSizes(lvs.value);
    PoolSizesAre(t.vg.name, LvsOf(lvm.groups, t.vg.name), t.state.name);
    return Success(ThinPoolUsage(Wrap(sum), t.state.lv.size));
  }

  /**
   * Whatever the slow path answers when its commands do not fail, the fast path answers too: for a volume, the
   * list of volumes, a thin pool, and the volumes and usage of that pool, under every name.
   */
  method FastMatchesSlow(lvm: Lvm, fast: VolumeGroup, slow: VolumeGroup, name: string)
    returns (volumes: (Result<LogicalVolume, Error>, Result<LogicalVolume, Error>),
             lists: (Result<map<string, LogicalVolume>, Error>, Result<map<string, LogicalVolume>, Error>),
             pools: (Result<ThinPool, Error>, Result<ThinPool, Error>),
             members: (Result<map<string, LogicalVolume>, Error>, Result<map<string, LogicalVolume>, Error>),
             usages: (Result<ThinPoolUsage, Error>, Result<ThinPoolUsage, Error>))
    requires FromReport(lvm, fast) && slow == fast.(reportLvs := None)
    ensures volumes.1 != Failure(CallFailed) ==> volumes.0 == volumes.1
    ensures lists.1 != Failure(CallFailed) ==> lists.0 == lists.1
    ensures pools.1 != Failure(CallFailed) ==>
      && (pools.0.Success? <==> pools.1.Success?)
      && (pools.1.Success? ==> pools.0.value.state == pools.1.value.state)
    ensures pools.1.Success? && members.1 != Failure(CallFailed) ==> members.0 == members.1
    ensures pools.1.Success? && usages.1 != Failure(CallFailed) ==> usages.0 == usages.1
    ensures lvm.healthy ==> volumes.1 != Failure(CallFailed) && lists.1 != Failure(CallFailed) && pools.1 != Failure(CallFailed)
  {
    var v0 := FindVolume(lvm, fast, name);
    var v1 := FindVolume(lvm, slow, name);
    var l0 := ListVolumes(lvm, fast);
    var l1 := ListVolumes(lvm, slow);
    var p0 := FindPool(lvm, fast, name);
    var p1 := FindPool(lvm, slow, name);
    volumes, lists, pools := (v0, v1), (l0, l1), (p0, p1);
    members, usages := (Failure(NotFound), Failure(NotFound)), (Failure(NotFound), Failure(NotFound));
    if p0.Success? && p1.Success? {
      var m0 := PoolListVolumes(lvm, p0.value);
      var m1 := PoolListVolumes(lvm, p1.value);
      var u0 := Usage(lvm, p0.value);
      var u1 := Usage(lvm, p1.value);
      members, usages := (m0, m1), (u0, u1);
    }
  }

  /** The virtual size a pool may hand out. */
  function Capacity(ratio: real, size: nat): (c: nat)
    requires ratio >= 1.0
    ensures size <= c
  {
    assert ratio * size as real >= size as real;
    (ratio * size as real).Floor
  }

  function FreeBytes(u: ThinPoolUsage, ratio: real): Result<nat, Error> {
    if ratio < 1.0 then Failure(CallFailed)
    else
      var capacity := Capacity(ratio, u.sizeBytes);
      Success(if capacity <= u.virtualBytes then 0 else capacity - u.virtualBytes)
  }
}
