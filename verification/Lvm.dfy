/** Linux LVM as lvmd sees it: volume groups, their volumes, and the commands that read and change them. */
module Lvms {
  import opened Wrappers
  import opened Constants
  import opened Numbers

  datatype Error = NotFound | CallFailed

  /** A volume; attr is the first letter of lv_attr. */
  datatype Lv = Lv(attr: char, size: nat, origin: string, originSize: nat, poolLv: string)

  datatype Group = Group(extent: nat, size: nat, free: nat, lvs: map<string, Lv>)

  /** One line of a report. */
  datatype Row = Row(vgName: string, name: string, lv: Lv)

  predicate IsThinPool(lv: Lv) { lv.attr == 't' }

  predicate IsThin(lv: Lv) { lv.attr == 'V' }

  /** The space that volumes take from their group; thin volumes take none. */
  ghost function Allocated(lvs: map<string, Lv>): map<string, nat> {
    map n | n in lvs && !IsThin(lvs[n]) :: lvs[n].size
  }

  predicate InPool(lv: Lv, pool: string) {
    !IsThinPool(lv) && lv.poolLv != "" && lv.poolLv == pool
  }

  /** The virtual sizes of the volumes of a thin pool. */
  ghost function VirtualSizes(lvs: map<string, Lv>, pool: string): map<string, nat> {
    map n | n in lvs && InPool(lvs[n], pool) :: lvs[n].size
  }

  ghost predicate ValidLv(extent: nat, lv: Lv)
    requires extent > 0
  {
    lv.size % extent == 0 && (lv.poolLv != "" <==> IsThin(lv))
  }

  ghost predicate ValidLvs(extent: nat, lvs: map<string, Lv>)
    requires extent > 0
  {
    forall n :: n in lvs ==> ValidLv(extent, lvs[n])
  }

  /** Whole extents only, and what is allocated and what is free make up the group. */
  ghost predicate ValidGroup(g: Group) {
    && g.extent > 0 && g.extent % SECTOR == 0
    && g.free % g.extent == 0
    && ValidLvs(g.extent, g.lvs)
    && g.free + Total(Allocated(g.lvs)) == g.size
  }

  // ---------------------------------------------------------------- what commands do to a group

  function AddLv(g: Group, name: string, lv: Lv): Group
    requires !IsThin(lv) ==> lv.size <= g.free
  {
    g.(lvs := g.lvs[name := lv], free := if IsThin(lv) then g.free else g.free - lv.size)
  }

  function GrowLv(g: Group, name: string, size: nat): Group
    requires name in g.lvs && g.lvs[name].size <= size
    requires !IsThin(g.lvs[name]) ==> size - g.lvs[name].size <= g.free
  {
    var lv := g.lvs[name];
    g.(lvs := g.lvs[name := lv.(size := size)], free := if IsThin(lv) then g.free else g.free - (size - lv.size))
  }

  function DropLv(g: Group, name: string): Group
    requires name in g.lvs
  {
    var lv := g.lvs[name];
    g.(lvs := g.lvs - {name}, free := if IsThin(lv) then g.free else g.free + lv.size)
  }

  lemma AllocatedAdd(lvs: map<string, Lv>, name: string, lv: Lv)
    requires name !in lvs || IsThin(lvs[name]) == IsThin(lv)
    ensures Allocated(lvs[name := lv]) == if IsThin(lv) then Allocated(lvs) else Allocated(lvs)[name := lv.size]
  {
  }

  lemma AddKeepsValid(g: Group, name: string, lv: Lv)
    requires ValidGroup(g) && name !in g.lvs && ValidLv(g.extent, lv)
    requires !IsThin(lv) ==> lv.size <= g.free
    ensures ValidGroup(AddLv(g, name, lv))
  {
    AllocatedAdd(g.lvs, name, lv);
    TotalUpdate(Allocated(g.lvs), name, lv.size);
    SubtractMultiples(g.free, lv.size, g.extent);
  }

  lemma GrowKeepsValid(g: Group, name: string, size: nat)
    requires ValidGroup(g) && name in g.lvs && g.lvs[name].size <= size && size % g.extent == 0
    requires !IsThin(g.lvs[name]) ==> size - g.lvs[name].size <= g.free
    ensures ValidGroup(GrowLv(g, name, size))
  {
    var lv := g.lvs[name];
    assert ValidLv(g.extent, lv);
    AllocatedAdd(g.lvs, name, lv.(size := size));
    TotalUpdate(Allocated(g.lvs), name, size);
    SubtractMultiples(size, lv.size, g.extent);
    SubtractMultiples(g.free, size - lv.size, g.extent);
  }

  lemma AllocatedDrop(lvs: map<string, Lv>, name: string)
    requires name in lvs
    ensures Allocated(lvs - {name}) == if IsThin(lvs[name]) then Allocated(lvs) else Allocated(lvs) - {name}
  {
  }

  lemma DropKeepsValid(g: Group, name: string)
    requires ValidGroup(g) && name in g.lvs
    ensures ValidGroup(DropLv(g, name))
  {
    var lv := g.lvs[name];
    assert ValidLv(g.extent, lv);
    AllocatedDrop(g.lvs, name);
    if !IsThin(lv) {
      TotalWithout(Allocated(g.lvs), name);
      AddMultiples(g.free, lv.size, g.extent);
    }
  }

  /** A request that fits into whole free extents still fits after rounding up to extents. */
  lemma RoundedFits(g: Group, requested: nat)
    requires ValidGroup(g)
    ensures requested <= g.free <==> RoundUp(requested, g.extent) <= g.free
    ensures RoundUp(requested, g.extent) % g.extent == 0
  {
    RoundUpIsLeast(requested, g.extent);
  }

  /** The same for growing a volume whose size is whole extents. */
  lemma RoundedGrowthFits(g: Group, current: nat, requested: nat)
    requires ValidGroup(g) && current % g.extent == 0 && current <= requested
    ensures requested - current <= g.free <==> RoundUp(requested, g.extent) - current <= g.free
    ensures current <= RoundUp(requested, g.extent) && RoundUp(requested, g.extent) % g.extent == 0
  {
    RoundUpIsLeast(requested, g.extent);
    RoundUpShift(requested - current, current, g.extent);
    RoundedFits(g, requested - current);
  }

  /** The volumes that leave with a removed one: those of a removed pool, and ordinary snapshots. */
  predicate DependsOn(lv: Lv, name: string) {
    lv.poolLv == name || (lv.poolLv == "" && lv.origin == name)
  }

  function Linear(g: Group, size: nat): Lv
    requires g.extent > 0
  {
    Lv('-', RoundUp(size, g.extent), "", 0, "")
  }

  function Thin(g: Group, pool: string, size: nat): Lv
    requires g.extent > 0
  {
    Lv('V', RoundUp(size, g.extent), "", 0, pool)
  }

  function SnapshotOf(g: Group, source: string): Lv
    requires source in g.lvs
  {
    g.lvs[source].(origin := source, originSize := g.lvs[source].size)
  }

  predicate CanCreateLinear(g: Group, name: string, size: nat) {
    g.extent > 0 && size > 0 && name !in g.lvs && RoundUp(size, g.extent) <= g.free
  }

  function WithLinear(g: Group, name: string, size: nat): Group
    requires CanCreateLinear(g, name, size)
  {
    AddLv(g, name, Linear(g, size))
  }

  predicate CanCreateThin(g: Group, pool: string, name: string, size: nat) {
    g.extent > 0 && size > 0 && name !in g.lvs && pool != "" && pool in g.lvs && IsThinPool(g.lvs[pool])
  }

  function WithThin(g: Group, pool: string, name: string, size: nat): Group
    requires CanCreateThin(g, pool, name, size)
  {
    AddLv(g, name, Thin(g, pool, size))
  }

  predicate CanSnapshot(g: Group, source: string, name: string) {
    name !in g.lvs && source in g.lvs && IsThin(g.lvs[source])
  }

  function WithSnapshot(g: Group, source: string, name: string): Group
    requires CanSnapshot(g, source, name)
  {
    AddLv(g, name, SnapshotOf(g, source))
  }

  predicate CanGrow(g: Group, name: string, size: nat) {
    && g.extent > 0 && name in g.lvs && g.lvs[name].size < RoundUp(size, g.extent)
    && (IsThin(g.lvs[name]) || RoundUp(size, g.extent) - g.lvs[name].size <= g.free)
  }

  function Grown(g: Group, name: string, size: nat): Group
    requires CanGrow(g, name, size)
  {
    GrowLv(g, name, RoundUp(size, g.extent))
  }

  // ---------------------------------------------------------------- the commands

  function LvsOf(groups: map<string, Group>, vgName: string): map<string, Lv> {
    if vgName in groups then groups[vgName].lvs else map[]
  }

  function RowsOf(vgName: string, lvs: map<string, Lv>): map<string, Row> {
    map n | n in lvs :: Row(vgName, n, lvs[n])
  }

  ghost predicate Reported(groups: map<string, Group>, row: Row) {
    row.name in LvsOf(groups, row.vgName) && row.lv == LvsOf(groups, row.vgName)[row.name]
  }

  /** The machine's LVM. While it is not healthy any command may fail, and then it changes nothing. */
  class Lvm {
    var groups: map<string, Group>
    var healthy: bool

    ghost predicate Valid()
      reads this
    {
      forall v :: v in groups ==> ValidGroup(groups[v])
    }

    method Fails() returns (fails: bool)
      ensures healthy ==> !fails
    {
      fails := *;
      fails := fails && !healthy;
    }

    /** vgs: size and free space of a group. */
    method Vgs(name: string) returns (r: Result<(nat, nat), Error>)
      ensures r.Success? ==> name in groups && r.value == (groups[name].size, groups[name].free)
      ensures r == Failure(NotFound) ==> name !in groups
      ensures healthy ==> r != Failure(CallFailed) && (r.Success? <==> name in groups)
    {
      var fails := Fails();
      if fails { return Failure(CallFailed); }
      if name !in groups { return Failure(NotFound); }
      return Success((groups[name].size, groups[name].free));
    }

    /** The rows of a group in some order. */
    method RowsIn(vgName: string, wanted: set<string>) returns (rows: seq<Row>)
      requires wanted <= LvsOf(groups, vgName).Keys
      ensures forall i :: 0 <= i < |rows| ==> rows[i].vgName == vgName && rows[i].name in wanted && Reported(groups, rows[i])
      ensures forall n :: n in wanted ==> Row(vgName, n, LvsOf(groups, vgName)[n]) in rows
    {
      rows := [];
      var left := wanted;
      while left != {}
        invariant left <= wanted
        invariant forall i :: 0 <= i < |rows| ==> rows[i].vgName == vgName && rows[i].name in wanted && Reported(groups, rows[i])
        invariant forall n :: n in wanted - left ==> Row(vgName, n, LvsOf(groups, vgName)[n]) in rows
        decreases left
      {
        var n :| n in left;
        left := left - {n};
        rows := rows + [Row(vgName, n, LvsOf(groups, vgName)[n])];
      }
    }

    /** lvs on a group, or on one volume of it; reporting nothing and not knowing the target are both NotFound. */
    method Lvs(vgName: string, lvName: string) returns (r: Result<seq<Row>, Error>)
      ensures r == Failure(NotFound) ==> if lvName == "" then LvsOf(groups, vgName) == map[] else lvName !in LvsOf(groups, vgName)
      ensures r.Success? ==>
        forall i :: 0 <= i < |r.value| ==>
          r.value[i].vgName == vgName && Reported(groups, r.value[i]) && (lvName == "" || r.value[i].name == lvName)
      ensures r.Success? ==>
        forall n :: n in LvsOf(groups, vgName) && (lvName == "" || n == lvName) ==>
          Row(vgName, n, LvsOf(groups, vgName)[n]) in r.value
      ensures healthy ==> r != Failure(CallFailed)
    {
      var fails := Fails();
      if fails { return Failure(CallFailed); }
      var lvs := LvsOf(groups, vgName);
      if vgName !in groups || (lvName != "" && lvName !in lvs) || lvs == map[] { return Failure(NotFound); }
      var rows := RowsIn(vgName, if lvName == "" then lvs.Keys else {lvName});
      return Success(rows);
    }

    /** fullreport: all groups and the volumes of all groups. */
    method FullReport() returns (r: Result<(seq<(string, nat, nat)>, seq<Row>), Error>)
      ensures r.Success? ==>
        && (forall i :: 0 <= i < |r.value.0| ==>
             r.value.0[i].0 in groups && r.value.0[i] == (r.value.0[i].0, groups[r.value.0[i].0].size, groups[r.value.0[i].0].free))
        && (forall v :: v in groups ==> (v, groups[v].size, groups[v].free) in r.value.0)
        && (forall i, j :: 0 <= i < j < |r.value.0| ==> r.value.0[i].0 != r.value.0[j].0)
        && (forall row :: row in r.value.1 <==> Reported(groups, row))
      ensures r.Failure? ==> r.error == CallFailed && !healthy
    {
      var fails := Fails();
      if fails { return Failure(CallFailed); }
      var vgs: seq<(string, nat, nat)> := [];
      var rows: seq<Row> := [];
      var left := groups.Keys;
      while left != {}
        invariant left <= groups.Keys
        invariant forall i :: 0 <= i < |vgs| ==>
          vgs[i].0 in groups.Keys - left && vgs[i] == (vgs[i].0, groups[vgs[i].0].size, groups[vgs[i].0].free)
        invariant forall v :: v in groups.Keys - left ==> (v, groups[v].size, groups[v].free) in vgs
        invariant forall i, j :: 0 <= i < j < |vgs| ==> vgs[i].0 != vgs[j].0
        invariant forall row :: row in rows <==> row.vgName !in left && Reported(groups, row)
        decreases left
      {
        var v :| v in left;
        left := left - {v};
        var more := RowsIn(v, groups[v].lvs.Keys);
        vgs := vgs + [(v, groups[v].size, groups[v].free)];
        rows := rows + more;
      }
      return Success((vgs, rows));
    }

    /** lvcreate -L: a linear volume of whole extents. */
    method CreateLinear(vgName: string, name: string, size: nat) returns (r: Result<(), Error>)
      requires Valid()
      modifies this`groups
      ensures Valid()
      ensures r.Failure? ==> groups == old(groups)
      ensures r.Success? ==>
        vgName in old(groups) && CanCreateLinear(old(groups)[vgName], name, size) &&
        groups == old(groups)[vgName := WithLinear(old(groups)[vgName], name, size)]
      ensures healthy && vgName in old(groups) && CanCreateLinear(old(groups)[vgName], name, size) ==> r.Success?
    {
      var fails := Fails();
      if fails || vgName !in groups || !CanCreateLinear(groups[vgName], name, size) { return Failure(CallFailed); }
      var g := groups[vgName];
      RoundUpIsLeast(size, g.extent);
      AddKeepsValid(g, name, Linear(g, size));
      groups := groups[vgName := WithLinear(g, name, size)];
      return Success(());
    }

    /** lvcreate -T -V: a thin volume whose virtual size is whole extents. */
    method CreateThin(vgName: string, pool: string, name: string, size: nat) returns (r: Result<(), Error>)
      requires Valid()
      modifies this`groups
      ensures Valid()
      ensures r.Failure? ==> groups == old(groups)
      ensures r.Success? ==>
        vgName in old(groups) && CanCreateThin(old(groups)[vgName], pool, name, size) &&
        groups == old(groups)[vgName := WithThin(old(groups)[vgName], pool, name, size)]
      ensures healthy && vgName in old(groups) && CanCreateThin(old(groups)[vgName], pool, name, size) ==> r.Success?
    {
      var fails := Fails();
      if fails || vgName !in groups || !CanCreateThin(groups[vgName], pool, name, size) { return Failure(CallFailed); }
      var g := groups[vgName];
      RoundUpIsLeast(size, g.extent);
      AddKeepsValid(g, name, Thin(g, pool, size));
      groups := groups[vgName := WithThin(g, pool, name, size)];
      return Success(());
    }

    /** lvcreate -s on a thin volume: a volume of the same size in the same pool. */
    method Snapshot(vgName: string, source: string, name: string) returns (r: Result<(), Error>)
      requires Valid()
      modifies this`groups
      ensures Valid()
      ensures r.Failure? ==> groups == old(groups)
      ensures r.Success? ==>
        vgName in old(groups) && CanSnapshot(old(groups)[vgName], source, name) &&
        groups == old(groups)[vgName := WithSnapshot(old(groups)[vgName], source, name)]
      ensures healthy && vgName in old(groups) && CanSnapshot(old(groups)[vgName], source, name) ==> r.Success?
    {
      var fails := Fails();
      if fails || vgName !in groups || !CanSnapshot(groups[vgName], source, name) { return Failure(CallFailed); }
      var g := groups[vgName];
      assert ValidLv(g.extent, g.lvs[source]);
      AddKeepsValid(g, name, SnapshotOf(g, source));
      groups := groups[vgName := WithSnapshot(g, source, name)];
      return Success(());
    }

    /** lvresize -L without force: grows to whole extents, never shrinks. */
    method Resize(vgName: string, name: string, size: nat) returns (r: Result<(), Error>)
      requires Valid()
      modifies this`groups
      ensures Valid()
      ensures r.Failure? ==> groups == old(groups)
      ensures r.Success? ==>
        vgName in old(groups) && CanGrow(old(groups)[vgName], name, size) &&
        groups == old(groups)[vgName := Grown(old(groups)[vgName], name, size)]
      ensures healthy && vgName in old(groups) && CanGrow(old(groups)[vgName], name, size) ==> r.Success?
    {
      var fails := Fails();
      if fails || vgName !in groups || !CanGrow(groups[vgName], name, size) { return Failure(CallFailed); }
      var g := groups[vgName];
      RoundUpIsLeast(size, g.extent);
      GrowKeepsValid(g, name, RoundUp(size, g.extent));
      groups := groups[vgName := Grown(g, name, size)];
      return Success(());
    }

    /** lvremove -f: removes a volume together with what cannot exist without it. */
    method Remove(vgName: string, name: string) returns (r: Result<(), Error>)
      requires Valid()
      modifies this`groups
      ensures Valid()
      ensures r.Failure? ==> groups == old(groups)
      ensures r == Failure(NotFound) ==> name !in LvsOf(old(groups), vgName)
      ensures r.Success? ==>
        vgName in old(groups) && vgName in groups && Pruned(old(groups)[vgName], groups[vgName], name) &&
        groups == old(groups)[vgName := groups[vgName]]
      ensures healthy ==> (r.Success? <==> name in LvsOf(old(groups), vgName))
    {
      var fails := Fails();
      if fails { return Failure(CallFailed); }
      if vgName !in groups || name !in groups[vgName].lvs { return Failure(NotFound); }
      var g := Prune(groups[vgName], name);
      groups := groups[vgName := g];
      return Success(());
    }
  }

  lemma DropOneThenRest(lvs: map<string, Lv>, n: string, names: set<string>)
    requires n in names
    ensures lvs - {n} - (names - {n}) == lvs - names
  {
  }

  method DropAll(g0: Group, names: set<string>) returns (g: Group)
    requires ValidGroup(g0) && names <= g0.lvs.Keys
    ensures ValidGroup(g) && g.extent == g0.extent && g.size == g0.size && g.lvs == g0.lvs - names
    decreases |names|
  {
    if names == {} {
      return g0;
    }
    var n :| n in names;
    DropKeepsValid(g0, n);
    DropOneThenRest(g0.lvs, n, names);
    g := DropAll(DropLv(g0, n), names - {n});
  }

  method Prune(g0: Group, name: string) returns (g: Group)
    requires ValidGroup(g0) && name in g0.lvs
    ensures ValidGroup(g) && Pruned(g0, g, name)
  {
    g := DropAll(g0, (set n | n in g0.lvs && DependsOn(g0.lvs[n], name)) + {name});
  }

  /** What a removal leaves: everything else except dependents, unchanged. */
  ghost predicate Pruned(before: Group, after: Group, name: string) {
    && after.extent == before.extent && after.size == before.size
    && name in before.lvs && name !in after.lvs
    && (forall n :: n in after.lvs ==> n in before.lvs && after.lvs[n] == before.lvs[n])
    && (forall n :: n in before.lvs && n != name ==> (n in after.lvs <==> !DependsOn(before.lvs[n], name)))
  }
}
