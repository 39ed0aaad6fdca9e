/** The capacity annotations that the metrics exporter writes on a node. */
module NodeAnnotations {
  import opened Wrappers
  import opened Decimal
  import opened DeviceClasses
  import opened Lvms
  import opened Booking
  import opened VgServices

  const CAPACITY_KEY_PREFIX := "capacity.topolvm.io/"
  const DEFAULT_DEVICE_CLASS_ANNOTATION_NAME := "00default"

  /** The annotation of a device class. */
  function Key(dc: string): string {
    CAPACITY_KEY_PREFIX + dc
  }

  lemma KeyInjective(a: string, b: string)
    ensures Key(a) == Key(b) <==> a == b
    ensures CAPACITY_KEY_PREFIX <= Key(a) && Key(a)[|CAPACITY_KEY_PREFIX|..] == a
  {
    assert Key(a)[|CAPACITY_KEY_PREFIX|..] == a;
    assert Key(b)[|CAPACITY_KEY_PREFIX|..] == b;
  }

  /** The annotations after the items, each in turn, were written over them. */
  function WithItems(annotations: map<string, string>, items: seq<WatchItem>): map<string, string> {
    if items == [] then annotations
    else
      var last := items[|items| - 1];
      WithItems(annotations, items[..|items| - 1])[Key(last.deviceClass) := FormatUint(Offered(last))]
  }

  function WithResponse(annotations: map<string, string>, res: WatchResponse): map<string, string> {
    WithItems(annotations[Key(DEFAULT_DEVICE_CLASS_ANNOTATION_NAME) := FormatUint(res.freeBytes)], res.items)
  }

  method UpdateNode(annotations: map<string, string>, res: WatchResponse) returns (after: map<string, string>)
    ensures after == WithResponse(annotations, res)
  {
    after := annotations[Key(DEFAULT_DEVICE_CLASS_ANNOTATION_NAME) := FormatUint(res.freeBytes)];
    ghost var start := after;
    for i := 0 to |res.items|
      invariant after == WithItems(start, res.items[..i])
    {
      assert res.items[..i + 1][..i] == res.items[..i];
      var item := res.items[i];
      var freeSize := if item.thinPool.Some? then item.thinPool.value.overprovisionBytes else item.freeBytes;
      after := after[Key(item.deviceClass) := FormatUint(freeSize)];
    }
    assert res.items[..|res.items|] == res.items;
  }

  lemma {:induction false} ListedIsAnnotated(annotations: map<string, string>, items: seq<WatchItem>, name: string, bytes: nat)
    requires ListsName(items, name)
    requires forall i :: 0 <= i < |items| && items[i].deviceClass == name ==> Offered(items[i]) == bytes
    ensures Key(name) in WithItems(annotations, items) && WithItems(annotations, items)[Key(name)] == FormatUint(bytes)
  {
    var init, last := items[..|items| - 1], items[|items| - 1];
    if last.deviceClass != name {
      var i :| 0 <= i < |items| && items[i].deviceClass == name;
      assert init[i].deviceClass == name;
      ListedIsAnnotated(annotations, init, name, bytes);
      KeyInjective(last.deviceClass, name);
    }
  }

  lemma {:induction false} UnlistedIsKept(annotations: map<string, string>, items: seq<WatchItem>, key: string)
    requires forall i :: 0 <= i < |items| ==> Key(items[i].deviceClass) != key
    ensures key in WithItems(annotations, items) <==> key in annotations
    ensures key in annotations ==> WithItems(annotations, items)[key] == annotations[key]
  {
    if items != [] {
      UnlistedIsKept(annotations, items[..|items| - 1], key);
    }
  }

  /** The bytes reported under the name of a class are its own: names are unique. */
  lemma ReportIsOwn(groups: map<string, Group>, dcs: seq<DeviceClass>, res: WatchResponse, k: int, i: int)
    requires Accepted(dcs) && Sound(groups, dcs, res)
    requires 0 <= k < |dcs| && 0 <= i < |res.items| && res.items[i].deviceClass == dcs[k].name
    ensures Reports(groups, dcs, k, res.items[i])
  {
    assert Genuine(groups, dcs, res.items[i]);
    var m :| Reports(groups, dcs, m, res.items[i]);
    if m != k {
      assert Clash(dcs[m], dcs[k]) && Clash(dcs[k], dcs[m]);
    }
  }

  /** After an update the annotation of a class that has something to allocate from is its advertised capacity. */
  lemma NodeAdvertises(groups: map<string, Group>, dcs: seq<DeviceClass>, annotations: map<string, string>, res: WatchResponse, k: int)
    requires Accepted(dcs) && Sound(groups, dcs, res) && 0 <= k < |dcs| && Covers(groups, dcs, res, k)
    requires Backed(groups, Normalize(dcs[k]))
    ensures var after := WithResponse(annotations, res);
      Key(dcs[k].name) in after && after[Key(dcs[k].name)] == FormatUint(Advertised(groups, Normalize(dcs[k])))
  {
    forall i | 0 <= i < |res.items| && res.items[i].deviceClass == dcs[k].name
      ensures Offered(res.items[i]) == Advertised(groups, Normalize(dcs[k]))
    {
      ReportIsOwn(groups, dcs, res, k, i);
    }
    ListedIsAnnotated(annotations[Key(DEFAULT_DEVICE_CLASS_ANNOTATION_NAME) := FormatUint(res.freeBytes)], res.items,
                      dcs[k].name, Advertised(groups, Normalize(dcs[k])));
  }

  /** No class bears the name under which the default class is advertised. */
  ghost predicate DefaultKeyIsFree(dcs: seq<DeviceClass>) {
    forall m {:trigger dcs[m]} :: 0 <= m < |dcs| ==> dcs[m].name != DEFAULT_DEVICE_CLASS_ANNOTATION_NAME
  }

  /** The default annotation is the capacity of the default class, unless a class has taken that name. */
  lemma NodeAdvertisesDefault(groups: map<string, Group>, dcs: seq<DeviceClass>, annotations: map<string, string>, res: WatchResponse, k: int)
    requires Accepted(dcs) && Sound(groups, dcs, res) && 0 <= k < |dcs| && Covers(groups, dcs, res, k)
    requires Backed(groups, Normalize(dcs[k])) && dcs[k].isDefault
    requires DefaultKeyIsFree(dcs)
    ensures var after := WithResponse(annotations, res); var key := Key(DEFAULT_DEVICE_CLASS_ANNOTATION_NAME);
      key in after && after[key] == FormatUint(Advertised(groups, Normalize(dcs[k])))
  {
    var key := Key(DEFAULT_DEVICE_CLASS_ANNOTATION_NAME);
    forall i | 0 <= i < |res.items|
      ensures Key(res.items[i].deviceClass) != key
    {
      assert Genuine(groups, dcs, res.items[i]);
      var m :| Reports(groups, dcs, m, res.items[i]);
      assert dcs[m].name != DEFAULT_DEVICE_CLASS_ANNOTATION_NAME;
      KeyInjective(res.items[i].deviceClass, DEFAULT_DEVICE_CLASS_ANNOTATION_NAME);
    }
    UnlistedIsKept(annotations[key := FormatUint(res.freeBytes)], res.items, key);
  }
}
