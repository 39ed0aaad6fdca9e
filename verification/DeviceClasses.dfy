/** Device classes of lvmd: their validation, and the indexes by class, volume group and thin pool. */
module DeviceClasses {
  import opened Wrappers

  datatype DeviceType = Unset | Thick | Thin | OtherType(name: string)

  datatype ThinPoolConfig = ThinPoolConfig(name: string, overprovisionRatio: real)

  datatype DeviceClass = DeviceClass(
    name: string,
    volumeGroup: string,
    isDefault: bool,
    spareGb: Option<nat>,
    stripeSize: string,
    kind: DeviceType,
    thinPool: Option<ThinPoolConfig>)

  const DEFAULT_SPARE_GB := 10
  const DEFAULT_DEVICE_CLASS_NAME := ""

  /** Spare bytes of a class; the shift is on 64 bits. */
  function GetSpare(dc: DeviceClass): nat {
    (if dc.spareGb.None? then DEFAULT_SPARE_GB else dc.spareGb.value) * 0x4000_0000 % 0x1_0000_0000_0000_0000
  }

  predicate IsAlphanumeric(c: char) {
    'a' <= c <= 'z' || 'A' <= c <= 'Z' || '0' <= c <= '9'
  }

  /** ^([A-Za-z0-9][-A-Za-z0-9_.]*)?[A-Za-z0-9]$ */
  predicate IsQualifiedName(s: string) {
    |s| > 0 && IsAlphanumeric(s[0]) && IsAlphanumeric(s[|s| - 1]) &&
    forall i :: 0 <= i < |s| ==> IsAlphanumeric(s[i]) || s[i] in "-_."
  }

  /** (?i)^([0-9]*)(k|m|g|t|p|e|b|s)?$ */
  predicate IsStripeSize(s: string) {
    forall i :: 0 <= i < |s| ==> '0' <= s[i] <= '9' || (i == |s| - 1 && s[i] in "kmgtpebsKMGTPEBS")
  }

  // ---------------------------------------------------------------- what a valid list is

  /** The volume group, or the volume group and thin pool, that a class allocates from. */
  datatype Target = VolumeGroup(vg: string) | ThinPool(vg: string, pool: string)

  predicate WellFormed(dc: DeviceClass) {
    && 0 < |dc.name| <= 63 && IsQualifiedName(dc.name)
    && dc.volumeGroup != ""
    && !dc.kind.OtherType?
    && (dc.kind.Thin? ==> dc.thinPool.Some? && dc.thinPool.value.name != "" && dc.thinPool.value.overprovisionRatio >= 1.0)
    && (dc.stripeSize != "" ==> IsStripeSize(dc.stripeSize))
  }

  function TargetOf(dc: DeviceClass): Target {
    if dc.kind.Thin? && dc.thinPool.Some? then ThinPool(dc.volumeGroup, dc.thinPool.value.name) else VolumeGroup(dc.volumeGroup)
  }

  /** The string under which the validation remembers a target. */
  function TargetKey(dc: DeviceClass): string {
    match TargetOf(dc)
    case VolumeGroup(vg) => vg
    case ThinPool(vg, pool) => vg + "/" + pool
  }

  predicate Clash(x: DeviceClass, y: DeviceClass) {
    x.name == y.name || TargetKey(x) == TargetKey(y) || (x.isDefault && y.isDefault)
  }

  ghost predicate ClashFree(dcs: seq<DeviceClass>) {
    forall i, j {:trigger Clash(dcs[i], dcs[j])} :: 0 <= i < j < |dcs| ==> !Clash(dcs[i], dcs[j])
  }

  ghost predicate Accepted(dcs: seq<DeviceClass>) {
    dcs != [] && ClashFree(dcs) && forall i {:trigger WellFormed(dcs[i])} :: 0 <= i < |dcs| ==> WellFormed(dcs[i])
  }

  predicate SlashFree(s: string) {
    '/' !in s
  }

  lemma SplitAtSlash(a: string, b: string, c: string, d: string)
    requires SlashFree(a) && SlashFree(c)
    requires a + "/" + b == c + "/" + d
    ensures a == c && b == d
  {
    var s := a + "/" + b;
    assert s == c + "/" + d;
    assert s[|a|] == '/' && s[|c|] == '/';
    assert forall i :: 0 <= i < |a| ==> s[i] == a[i];
    assert forall i :: 0 <= i < |c| ==> s[i] == c[i];
    assert |a| == |c|;
    assert s[|a| + 1..] == b && s[|c| + 1..] == d;
  }

  /** With slash-free volume group names, equal keys are equal targets. */
  lemma KeysAreTargets(x: DeviceClass, y: DeviceClass)
    requires SlashFree(x.volumeGroup) && SlashFree(y.volumeGroup)
    ensures TargetKey(x) == TargetKey(y) <==> TargetOf(x) == TargetOf(y)
  {
    if TargetKey(x) == TargetKey(y) && TargetOf(x).ThinPool? && TargetOf(y).ThinPool? {
      SplitAtSlash(x.volumeGroup, TargetOf(x).pool, y.volumeGroup, TargetOf(y).pool);
    } else {
      assert TargetOf(x).ThinPool? ==> TargetKey(x)[|x.volumeGroup|] == '/';
      assert TargetOf(y).ThinPool? ==> TargetKey(y)[|y.volumeGroup|] == '/';
    }
  }

  // ---------------------------------------------------------------- validation

  /** The checks on one class alone, in the order the validation makes them. */
  method CheckOne(dc: DeviceClass) returns (ok: bool)
    ensures ok <==> WellFormed(dc)
  {
    if |dc.name| == 0 || |dc.name| > 63 || !IsQualifiedName(dc.name) || |dc.volumeGroup| == 0 || dc.kind.OtherType? {
      return false;
    }
    if dc.kind.Thin? &&
       (dc.thinPool.None? || |dc.thinPool.value.name| == 0 || dc.thinPool.value.overprovisionRatio < 1.0) {
      return false;
    }
    return dc.stripeSize == "" || IsStripeSize(dc.stripeSize);
  }

  /** The first n entries of a list are all different. */
  ghost predicate AllDifferent(ks: seq<string>, n: nat)
    requires n <= |ks|
  {
    forall m :: 0 <= m < n ==> ks[m] !in ks[..m]
  }

  ghost function NamesOf(dcs: seq<DeviceClass>): seq<string> {
    seq(|dcs|, i requires 0 <= i < |dcs| => dcs[i].name)
  }

  ghost function KeysOf(dcs: seq<DeviceClass>): seq<string> {
    seq(|dcs|, i requires 0 <= i < |dcs| => TargetKey(dcs[i]))
  }

  ghost predicate Repeats(ks: seq<string>, i: int, j: int) {
    0 <= i < j < |ks| && ks[i] == ks[j]
  }

  lemma DifferentMeans(ks: seq<string>)
    ensures AllDifferent(ks, |ks|) <==> forall i, j :: !Repeats(ks, i, j)
  {
    if !AllDifferent(ks, |ks|) {
      var m :| 0 <= m < |ks| && ks[m] in ks[..m];
      var i :| 0 <= i < m && ks[..m][i] == ks[m];
      assert Repeats(ks, i, m);
    }
    forall i, j | Repeats(ks, i, j)
      ensures !AllDifferent(ks, |ks|)
    {
      assert ks[..j][i] == ks[j];
    }
  }

  /** How many of the first n classes are default classes. */
  function Defaults(dcs: seq<DeviceClass>, n: nat): nat
    requires n <= |dcs|
  {
    if n == 0 then 0 else Defaults(dcs, n - 1) + if dcs[n - 1].isDefault then 1 else 0
  }

  lemma {:induction false} DefaultsCount(dcs: seq<DeviceClass>, n: nat)
    requires n <= |dcs|
    ensures Defaults(dcs, n) == 0 <==> forall i :: 0 <= i < n ==> !dcs[i].isDefault
    ensures Defaults(dcs, n) > 1 <==> exists i, j :: 0 <= i < j < n && dcs[i].isDefault && dcs[j].isDefault
  {
    if n > 0 {
      DefaultsCount(dcs, n - 1);
    }
  }

  ghost predicate BothDefault(dcs: seq<DeviceClass>, i: int, j: int) {
    0 <= i < j < |dcs| && dcs[i].isDefault && dcs[j].isDefault
  }

  lemma ClashAt(dcs: seq<DeviceClass>, i: int, j: int)
    requires 0 <= i < j < |dcs|
    ensures Clash(dcs[i], dcs[j]) <==>
      Repeats(NamesOf(dcs), i, j) || Repeats(KeysOf(dcs), i, j) || BothDefault(dcs, i, j)
  {
  }

  lemma DefaultsMeans(dcs: seq<DeviceClass>)
    ensures Defaults(dcs, |dcs|) <= 1 <==> forall i, j :: !BothDefault(dcs, i, j)
  {
    DefaultsCount(dcs, |dcs|);
    if Defaults(dcs, |dcs|) > 1 {
      var i, j :| 0 <= i < j < |dcs| && dcs[i].isDefault && dcs[j].isDefault;
      assert BothDefault(dcs, i, j);
    }
  }

  lemma ClashFreeAt(dcs: seq<DeviceClass>, i: int, j: int)
    requires 0 <= i < j < |dcs|
    requires AllDifferent(NamesOf(dcs), |dcs|) && AllDifferent(KeysOf(dcs), |dcs|) && Defaults(dcs, |dcs|) <= 1
    ensures !Clash(dcs[i], dcs[j])
  {
    ClashAt(dcs, i, j);
    DefaultsMeans(dcs);
    DifferentMeans(NamesOf(dcs));
    DifferentMeans(KeysOf(dcs));
  }

  lemma ClashFreeKeys(dcs: seq<DeviceClass>, ks: seq<string>)
    requires ClashFree(dcs) && (ks == NamesOf(dcs) || ks == KeysOf(dcs))
    ensures AllDifferent(ks, |ks|)
  {
    DifferentMeans(ks);
    if i, j :| Repeats(ks, i, j) {
      ClashAt(dcs, i, j);
    }
  }

  lemma ClashFreeDefaults(dcs: seq<DeviceClass>)
    requires ClashFree(dcs)
    ensures Defaults(dcs, |dcs|) <= 1
  {
    DefaultsMeans(dcs);
    if i, j :| BothDefault(dcs, i, j) {
      ClashAt(dcs, i, j);
    }
  }

  lemma AcceptedMeans(dcs: seq<DeviceClass>)
    ensures ClashFree(dcs) <==>
      AllDifferent(NamesOf(dcs), |dcs|) && AllDifferent(KeysOf(dcs), |dcs|) && Defaults(dcs, |dcs|) <= 1
  {
    if ClashFree(dcs) {
      ClashFreeKeys(dcs, NamesOf(dcs));
      ClashFreeKeys(dcs, KeysOf(dcs));
      ClashFreeDefaults(dcs);
    } else {
      var i, j :| 0 <= i < j < |dcs| && Clash(dcs[i], dcs[j]);
      if AllDifferent(NamesOf(dcs), |dcs|) && AllDifferent(KeysOf(dcs), |dcs|) && Defaults(dcs, |dcs|) <= 1 {
        ClashFreeAt(dcs, i, j);
      }
    }
  }

  ghost function Collected(ks: seq<string>, n: nat): set<string>
    requires n <= |ks|
  {
    set k | k in ks[..n]
  }

  /** The first n classes are fine, and their names and keys have been collected. */
  ghost predicate Checked(dcs: seq<DeviceClass>, n: nat, dcNames: set<string>, vgNames: set<string>)
    requires n <= |dcs|
  {
    && (forall i {:trigger WellFormed(dcs[i])} :: 0 <= i < n ==> WellFormed(dcs[i]))
    && AllDifferent(NamesOf(dcs), n) && AllDifferent(KeysOf(dcs), n)
    && dcNames == Collected(NamesOf(dcs), n)
    && vgNames == Collected(KeysOf(dcs), n)
  }

  lemma CollectedNext(ks: seq<string>, n: nat, seen: set<string>)
    requires n < |ks| && seen == Collected(ks, n) && AllDifferent(ks, n)
    ensures ks[n] !in seen ==> AllDifferent(ks, n + 1)
    ensures ks[n] in seen ==> !AllDifferent(ks, |ks|)
    ensures seen + {ks[n]} == Collected(ks, n + 1)
  {
    assert ks[..n + 1] == ks[..n] + [ks[n]];
    assert ks[n] in seen ==> ks[n] in ks[..n];
  }

  lemma CheckedNext(dcs: seq<DeviceClass>, n: nat, dcNames: set<string>, vgNames: set<string>)
    requires n < |dcs| && Checked(dcs, n, dcNames, vgNames)
    ensures WellFormed(dcs[n]) && dcs[n].name !in dcNames && TargetKey(dcs[n]) !in vgNames ==>
      Checked(dcs, n + 1, dcNames + {dcs[n].name}, vgNames + {TargetKey(dcs[n])})
    ensures dcs[n].name in dcNames || TargetKey(dcs[n]) in vgNames ==> !ClashFree(dcs)
  {
    AcceptedMeans(dcs);
    CollectedNext(NamesOf(dcs), n, dcNames);
    CollectedNext(KeysOf(dcs), n, vgNames);
  }

  lemma CheckedAll(dcs: seq<DeviceClass>, dcNames: set<string>, vgNames: set<string>)
    requires dcs != [] && Checked(dcs, |dcs|, dcNames, vgNames)
    ensures Accepted(dcs) <==> Defaults(dcs, |dcs|) <= 1
  {
    AcceptedMeans(dcs);
  }

  /** Accepts exactly the lists described by Accepted. */
  method ValidateDeviceClasses(dcs: seq<DeviceClass>) returns (ok: bool)
    ensures ok <==> Accepted(dcs)
  {
    if |dcs| < 1 {
      return false;
    }
    var countDefault := 0;
    var dcNames: set<string> := {};
    var vgNames: set<string> := {};
    for n := 0 to |dcs|
      invariant Checked(dcs, n, dcNames, vgNames) && countDefault == Defaults(dcs, n)
    {
      var dc := dcs[n];
      var fine := CheckOne(dc);
      if !fine {
        return false;
      }
      CheckedNext(dcs, n, dcNames, vgNames);
      if dc.name in dcNames {
        return false;
      }
      if TargetKey(dc) in vgNames {
        return false;
      }
      countDefault := if dc.isDefault then countDefault + 1 else countDefault;
      dcNames := dcNames + {dc.name};
      vgNames := vgNames + {TargetKey(dc)};
    }
    CheckedAll(dcs, dcNames, vgNames);
    return countDefault <= 1;
  }

  // ---------------------------------------------------------------- the indexes

  /** A class without a type is a thick one. */
  function Normalize(dc: DeviceClass): DeviceClass {
    if dc.kind.Unset? then dc.(kind := Thick) else dc
  }

  datatype Query = TheDefault | WithName(name: string) | WithTarget(target: Target)

  predicate Matches(q: Query, dc: DeviceClass) {
    match q
    case TheDefault => dc.isDefault
    case WithName(name) => dc.name == name
    case WithTarget(target) => TargetOf(dc) == target
  }

  /** Linear search for the first class that matches. */
  function Search(dcs: seq<DeviceClass>, q: Query): Option<DeviceClass> {
    if dcs == [] then None else if Matches(q, dcs[0]) then Some(Normalize(dcs[0])) else Search(dcs[1..], q)
  }

  /** The class a request names: the empty name means the default class, if there is one. */
  function Named(dcs: seq<DeviceClass>, name: string): Option<DeviceClass> {
    var d := Search(dcs, TheDefault);
    if name == DEFAULT_DEVICE_CLASS_NAME && d.Some? then d else Search(dcs, WithName(name))
  }

  lemma {:induction false} SearchMisses(dcs: seq<DeviceClass>, q: Query)
    ensures Search(dcs, q).None? <==> forall i :: 0 <= i < |dcs| ==> !Matches(q, dcs[i])
  {
    if dcs != [] && !Matches(q, dcs[0]) {
      SearchMisses(dcs[1..], q);
      assert forall i :: 1 <= i < |dcs| ==> dcs[i] == dcs[1..][i - 1];
    }
  }

  /** In a list without clashes a match is the only one, and the search returns it. */
  lemma {:induction false} SearchFinds(dcs: seq<DeviceClass>, q: Query, i: nat)
    requires ClashFree(dcs)
    requires i < |dcs| && Matches(q, dcs[i])
    ensures Search(dcs, q) == Some(Normalize(dcs[i]))
    ensures forall j :: 0 <= j < |dcs| && Matches(q, dcs[j]) ==> j == i
  {
    forall j | 0 <= j < |dcs| && Matches(q, dcs[j])
      ensures j == i
    {
      assert Clash(dcs[i], dcs[j]) && Clash(dcs[j], dcs[i]);
    }
    if i > 0 {
      var rest := dcs[1..];
      assert ClashFree(rest) by {
        forall j, k | 0 <= j < k < |rest|
          ensures !Clash(rest[j], rest[k])
        {
          assert !Clash(dcs[j + 1], dcs[k + 1]);
        }
      }
      assert !Matches(q, dcs[0]);
      SearchFinds(rest, q, i - 1);
    }
  }

  /** Every class that is found is one of the list, with its type filled in. */
  lemma {:induction false} SearchIsMember(dcs: seq<DeviceClass>, q: Query)
    ensures Search(dcs, q).Some? ==> exists i :: 0 <= i < |dcs| && Search(dcs, q).value == Normalize(dcs[i])
  {
    if dcs != [] && !Matches(q, dcs[0]) {
      SearchIsMember(dcs[1..], q);
      if Search(dcs, q).Some? {
        var i :| 0 <= i < |dcs[1..]| && Search(dcs[1..], q).value == Normalize(dcs[1..][i]);
        assert dcs[1..][i] == dcs[i + 1];
      }
    }
  }

  /** The position of the class that a request names. */
  lemma NamedAt(dcs: seq<DeviceClass>, name: string) returns (i: nat)
    requires Accepted(dcs) && Named(dcs, name).Some?
    ensures i < |dcs| && Named(dcs, name).value == Normalize(dcs[i]) && WellFormed(dcs[i])
  {
    SearchIsMember(dcs, TheDefault);
    SearchIsMember(dcs, WithName(name));
    i :| 0 <= i < |dcs| && Named(dcs, name).value == Normalize(dcs[i]);
    assert WellFormed(dcs[i]);
  }

  datatype IndexKind = ByName | ByVolumeGroup | ByThinPool

  /** The key of a class in an index, for the classes that belong there. */
  function KeyFor(kind: IndexKind, dc: DeviceClass): Option<string> {
    match kind
    case ByName => Some(dc.name)
    case ByVolumeGroup => if dc.kind.Unset? || dc.kind.Thick? then Some(TargetKey(dc)) else None
    case ByThinPool => if TargetOf(dc).ThinPool? then Some(TargetKey(dc)) else None
  }

  ghost function Index(kind: IndexKind, dcs: seq<DeviceClass>): map<string, DeviceClass> {
    if dcs == [] then map[]
    else
      var last := dcs[|dcs| - 1];
      var m := Index(kind, dcs[..|dcs| - 1]);
      if KeyFor(kind, last).Some? then m[KeyFor(kind, last).value := Normalize(last)] else m
  }

  lemma {:induction false} IndexHolds(kind: IndexKind, dcs: seq<DeviceClass>, k: string)
    ensures k in Index(kind, dcs) ==>
      exists i :: 0 <= i < |dcs| && KeyFor(kind, dcs[i]) == Some(k) && Index(kind, dcs)[k] == Normalize(dcs[i])
    ensures k !in Index(kind, dcs) ==> forall i :: 0 <= i < |dcs| ==> KeyFor(kind, dcs[i]) != Some(k)
  {
    if dcs != [] {
      var init := dcs[..|dcs| - 1];
      IndexHolds(kind, init, k);
      if KeyFor(kind, dcs[|dcs| - 1]) != Some(k) && k in Index(kind, dcs) {
        var i :| 0 <= i < |init| && KeyFor(kind, init[i]) == Some(k) && Index(kind, init)[k] == Normalize(init[i]);
        assert KeyFor(kind, dcs[i]) == Some(k);
      }
    }
  }

  ghost function LastDefault(dcs: seq<DeviceClass>): Option<DeviceClass> {
    if dcs == [] then None
    else if dcs[|dcs| - 1].isDefault then Some(Normalize(dcs[|dcs| - 1]))
    else LastDefault(dcs[..|dcs| - 1])
  }

  lemma {:induction false} LastDefaultHolds(dcs: seq<DeviceClass>)
    ensures LastDefault(dcs).None? ==> forall i :: 0 <= i < |dcs| ==> !dcs[i].isDefault
    ensures LastDefault(dcs).Some? ==> exists i :: 0 <= i < |dcs| && dcs[i].isDefault && LastDefault(dcs) == Some(Normalize(dcs[i]))
  {
    if dcs != [] && !dcs[|dcs| - 1].isDefault {
      LastDefaultHolds(dcs[..|dcs| - 1]);
    }
  }

  class DeviceClassManager {
    ghost const classes: seq<DeviceClass>
    var defaultDeviceClass: Option<DeviceClass>
    var deviceClassByName: map<string, DeviceClass>
    var deviceClassByVGName: map<string, DeviceClass>
    var deviceClassByThinPoolName: map<string, DeviceClass>

    /** The indexes are those of the list. */
    ghost predicate Indexed()
      reads this
    {
      && defaultDeviceClass == LastDefault(classes)
      && deviceClassByName == Index(ByName, classes)
      && deviceClassByVGName == Index(ByVolumeGroup, classes)
      && deviceClassByThinPoolName == Index(ByThinPool, classes)
    }

    ghost predicate Valid()
      reads this
    {
      Accepted(classes) && Indexed()
    }

    /** Any list will do, as long as every thin class has a pool. */
    constructor (dcs: seq<DeviceClass>)
      requires forall i :: 0 <= i < |dcs| && dcs[i].kind.Thin? ==> dcs[i].thinPool.Some?
      ensures Indexed() && classes == dcs && (Accepted(dcs) ==> Valid())
    {
      var theDefault: Option<DeviceClass> := None;
      var byName: map<string, DeviceClass> := map[];
      var byVg: map<string, DeviceClass> := map[];
      var byPool: map<string, DeviceClass> := map[];
      for n := 0 to |dcs|
        invariant theDefault == LastDefault(dcs[..n])
        invariant byName == Index(ByName, dcs[..n])
        invariant byVg == Index(ByVolumeGroup, dcs[..n])
        invariant byPool == Index(ByThinPool, dcs[..n])
      {
        assert dcs[..n + 1][..n] == dcs[..n];
        var dc := Normalize(dcs[n]);
        if dc.isDefault {
          theDefault := Some(dc);
        }
        byName := byName[dc.name := dc];
        if dc.kind.Thick? {
          byVg := byVg[dc.volumeGroup := dc];
        } else if dc.kind.Thin? {
          byPool := byPool[dc.volumeGroup + "/" + dc.thinPool.value.name := dc];
        }
      }
      assert dcs[..|dcs|] == dcs;
      classes, defaultDeviceClass := dcs, theDefault;
      deviceClassByName, deviceClassByVGName, deviceClassByThinPoolName := byName, byVg, byPool;
    }

    /** The class by its name, as a search through the list would find it. */
    method DeviceClass(name: string) returns (r: Option<DeviceClass>)
      requires Valid()
      ensures r == Named(classes, name)
    {
      SearchMisses(classes, TheDefault);
      SearchMisses(classes, WithName(name));
      LastDefaultHolds(classes);
      IndexHolds(ByName, classes, name);
      if defaultDeviceClass.Some? {
        ghost var i :| 0 <= i < |classes| && classes[i].isDefault && LastDefault(classes) == Some(Normalize(classes[i]));
        SearchFinds(classes, TheDefault, i);
      }
      if name == DEFAULT_DEVICE_CLASS_NAME && defaultDeviceClass.Some? {
        return defaultDeviceClass;
      }
      if name in deviceClassByName {
        ghost var i :| 0 <= i < |classes| && KeyFor(ByName, classes[i]) == Some(name) && Index(ByName, classes)[name] == Normalize(classes[i]);
        SearchFinds(classes, WithName(name), i);
        return Some(deviceClassByName[name]);
      }
      assert forall i :: 0 <= i < |classes| && Matches(WithName(name), classes[i]) ==> KeyFor(ByName, classes[i]) == Some(name);
      return None;
    }

    method FindDeviceClassByVGName(vgName: string) returns (r: Option<DeviceClass>)
      requires Valid()
      ensures r == Search(classes, WithTarget(VolumeGroup(vgName)))
    {
      var q := WithTarget(VolumeGroup(vgName));
      SearchMisses(classes, q);
      IndexHolds(ByVolumeGroup, classes, vgName);
      forall i | 0 <= i < |classes| && Matches(q, classes[i])
        ensures KeyFor(ByVolumeGroup, classes[i]) == Some(vgName)
      {
        assert WellFormed(classes[i]);
      }
      if vgName in deviceClassByVGName {
        ghost var i :| 0 <= i < |classes| && KeyFor(ByVolumeGroup, classes[i]) == Some(vgName) && Index(ByVolumeGroup, classes)[vgName] == Normalize(classes[i]);
        SearchFinds(classes, q, i);
        return Some(deviceClassByVGName[vgName]);
      }
      return None;
    }

    /** The thin class with that key; with slash-free group names the key stands for one group and pool. */
    method FindDeviceClassByThinPoolName(vgName: string, poolName: string) returns (r: Option<DeviceClass>)
      requires Valid()
      ensures r.Some? <==> exists i :: 0 <= i < |classes| && HasPoolKey(classes[i], vgName, poolName)
      ensures r.Some? ==> exists i :: 0 <= i < |classes| && HasPoolKey(classes[i], vgName, poolName) && r == Some(Normalize(classes[i]))
      ensures SlashFree(vgName) && (forall i :: 0 <= i < |classes| ==> SlashFree(classes[i].volumeGroup)) ==>
        r == Search(classes, WithTarget(ThinPool(vgName, poolName)))
    {
      var name := vgName + "/" + poolName;
      IndexHolds(ByThinPool, classes, name);
      ThinPoolSearch(classes, vgName, poolName);
      if name in deviceClassByThinPoolName {
        ghost var i :| 0 <= i < |classes| && KeyFor(ByThinPool, classes[i]) == Some(name) && Index(ByThinPool, classes)[name] == Normalize(classes[i]);
        assert HasPoolKey(classes[i], vgName, poolName);
        return Some(deviceClassByThinPoolName[name]);
      }
      return None;
    }
  }

  /** A thin class whose group and pool, joined by a slash, read like these. */
  predicate HasPoolKey(dc: DeviceClass, vgName: string, poolName: string) {
    KeyFor(ByThinPool, dc) == Some(vgName + "/" + poolName)
  }

  /** With slash-free group names a search for the group and the pool finds the class with the key. */
  lemma ThinPoolSearch(dcs: seq<DeviceClass>, vgName: string, poolName: string)
    requires Accepted(dcs)
    ensures SlashFree(vgName) && (forall i :: 0 <= i < |dcs| ==> SlashFree(dcs[i].volumeGroup)) ==>
      && (forall i :: 0 <= i < |dcs| && HasPoolKey(dcs[i], vgName, poolName) ==>
           Search(dcs, WithTarget(ThinPool(vgName, poolName))) == Some(Normalize(dcs[i])))
      && ((forall i :: 0 <= i < |dcs| ==> !HasPoolKey(dcs[i], vgName, poolName)) ==> Search(dcs, WithTarget(ThinPool(vgName, poolName))).None?)
  {
    var q := WithTarget(ThinPool(vgName, poolName));
    SearchMisses(dcs, q);
    if SlashFree(vgName) && forall i :: 0 <= i < |dcs| ==> SlashFree(dcs[i].volumeGroup) {
      forall i | 0 <= i < |dcs| && HasPoolKey(dcs[i], vgName, poolName)
        ensures Search(dcs, q) == Some(Normalize(dcs[i]))
      {
        SplitAtSlash(dcs[i].volumeGroup, TargetOf(dcs[i]).pool, vgName, poolName);
        SearchFinds(dcs, q, i);
      }
      forall i | 0 <= i < |dcs| && Matches(q, dcs[i])
        ensures HasPoolKey(dcs[i], vgName, poolName)
      {
      }
    }
  }
}
