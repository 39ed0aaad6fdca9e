/** The virtual bytes that the volumes of a thin pool may promise together. */
module Overprovisioning {
  import opened Numbers
  import opened Lvms
  import opened VolumeGroups

  /** What the volumes of a pool promise. */
  ghost function Promised(g: Group, pool: string): nat {
    Total(VirtualSizes(g.lvs, pool))
  }

  predicate HasPool(g: Group, pool: string) {
    pool in g.lvs && IsThinPool(g.lvs[pool])
  }

  /** The overprovisioned size of a pool, up to the end of an extent. */
  function Limit(g: Group, pool: string, ratio: real): nat
    requires g.extent > 0 && ratio >= 1.0 && HasPool(g, pool)
  {
    RoundUp(Capacity(ratio, g.lvs[pool].size), g.extent)
  }

  ghost predicate Bounded(g: Group, pool: string, ratio: real) {
    g.extent > 0 && ratio >= 1.0 && HasPool(g, pool) ==> Promised(g, pool) <= Limit(g, pool, ratio) < 0x1_0000_0000_0000_0000
  }

  /** What lvmd takes to be free in a pool. */
  ghost function FreeIn(g: Group, pool: string, ratio: real): nat
    requires ratio >= 1.0 && HasPool(g, pool)
  {
    FreeBytes(ThinPoolUsage(Wrap(Promised(g, pool)), g.lvs[pool].size), ratio).value
  }

  lemma PromisedIsWhole(g: Group, pool: string)
    requires ValidGroup(g)
    ensures Promised(g, pool) % g.extent == 0
  {
    forall n | n in VirtualSizes(g.lvs, pool)
      ensures IsMultiple(VirtualSizes(g.lvs, pool)[n], g.extent)
    {
      assert ValidLv(g.extent, g.lvs[n]);
    }
    TotalOfMultiples(VirtualSizes(g.lvs, pool), g.extent);
  }

  /** Rounding up after the byte-level check overshoots the capacity by less than one extent. */
  lemma RoundedWithin(promised: nat, current: nat, requested: nat, capacity: nat, extent: nat)
    requires extent > 0 && promised % extent == 0 && current % extent == 0 && current <= promised && current <= requested
    requires promised - current + requested <= capacity
    ensures promised - current + RoundUp(requested, extent) <= RoundUp(capacity, extent) < capacity + extent
  {
    RoundUpIsLeast(capacity, extent);
    SubtractMultiples(promised, current, extent);
    RoundUpShift(requested, promised - current, extent);
    RoundUpBelow(promised - current + requested, extent, RoundUp(capacity, extent));
  }

  /** A request passes the byte-level check, and its rounded size does not fit. */
  predicate Overshoots(promised: nat, requested: nat, capacity: nat, extent: nat)
    requires extent > 0
  {
    promised % extent == 0 && promised + requested <= capacity < promised + RoundUp(requested, extent)
  }

  /** No overshoot ever happens exactly when the capacity is whole extents. */
  lemma OvershootExactly(capacity: nat, extent: nat)
    requires extent > 0
    ensures capacity % extent == 0 <==> forall promised: nat, requested: nat :: !Overshoots(promised, requested, capacity, extent)
  {
    RoundUpIsLeast(capacity, extent);
    if capacity % extent == 0 {
      forall promised: nat, requested: nat
        ensures !Overshoots(promised, requested, capacity, extent)
      {
        if promised % extent == 0 && promised + requested <= capacity {
          RoundedWithin(promised, 0, requested, capacity, extent);
        }
      }
    } else {
      assert Overshoots(0, capacity, capacity, extent);
    }
  }

  /** What passes the check of CreateLV, ResizeLV or CreateLVSnapshot stays within the limit. */
  lemma AdmittedStaysWithin(g: Group, pool: string, ratio: real, current: nat, requested: nat)
    requires ValidGroup(g) && ratio >= 1.0 && HasPool(g, pool) && Bounded(g, pool, ratio)
    requires current % g.extent == 0 && current <= Promised(g, pool) && current <= requested
    requires requested - current <= FreeIn(g, pool, ratio)
    ensures Promised(g, pool) - current + RoundUp(requested, g.extent) <= Limit(g, pool, ratio)
  {
    var promised, capacity := Promised(g, pool), Capacity(ratio, g.lvs[pool].size);
    PromisedIsWhole(g, pool);
    if promised < capacity {
      RoundedWithin(promised, current, requested, capacity, g.extent);
    } else {
      RoundUpIsLeast(current, g.extent);
    }
  }

  // ---------------------------------------------------------------- what each change does to the promises

  lemma SizesAfterAdd(lvs: map<string, Lv>, name: string, lv: Lv, pool: string)
    requires name in lvs ==> InPool(lvs[name], pool) == InPool(lv, pool)
    ensures VirtualSizes(lvs[name := lv], pool) == if InPool(lv, pool) then VirtualSizes(lvs, pool)[name := lv.size] else VirtualSizes(lvs, pool)
  {
  }

  lemma PromisedAfterAdd(g: Group, name: string, lv: Lv, pool: string)
    requires name !in g.lvs && (IsThin(lv) || lv.size <= g.free)
    ensures Promised(AddLv(g, name, lv), pool) == Promised(g, pool) + if InPool(lv, pool) then lv.size else 0
  {
    SizesAfterAdd(g.lvs, name, lv, pool);
    TotalUpdate(VirtualSizes(g.lvs, pool), name, lv.size);
  }

  lemma PromisedHolds(g: Group, name: string, pool: string)
    requires name in g.lvs && InPool(g.lvs[name], pool)
    ensures g.lvs[name].size <= Promised(g, pool)
  {
    TotalWithout(VirtualSizes(g.lvs, pool), name);
  }

  lemma PromisedAfterGrow(g: Group, name: string, size: nat, pool: string)
    requires name in g.lvs && g.lvs[name].size <= size
    requires IsThin(g.lvs[name]) || size - g.lvs[name].size <= g.free
    ensures Promised(GrowLv(g, name, size), pool) ==
      Promised(g, pool) + if InPool(g.lvs[name], pool) then size - g.lvs[name].size else 0
  {
    SizesAfterAdd(g.lvs, name, g.lvs[name].(size := size), pool);
    TotalUpdate(VirtualSizes(g.lvs, pool), name, size);
  }

  lemma {:induction false} TotalOfPart(part: map<string, nat>, whole: map<string, nat>)
    requires forall n :: n in part ==> n in whole && part[n] == whole[n]
    ensures Total(part) <= Total(whole)
    decreases |part|
  {
    if |part| > 0 {
      var n := Pick(part);
      TotalWithout(part, n);
      TotalWithout(whole, n);
      TotalOfPart(part - {n}, whole - {n});
    }
  }

  lemma AddKeepsBounded(g: Group, name: string, lv: Lv, pool: string, ratio: real)
    requires Bounded(g, pool, ratio) && name !in g.lvs && !IsThinPool(lv) && (IsThin(lv) || lv.size <= g.free)
    requires g.extent > 0 && ratio >= 1.0 && InPool(lv, pool) && HasPool(g, pool) ==> Promised(g, pool) + lv.size <= Limit(g, pool, ratio)
    ensures Bounded(AddLv(g, name, lv), pool, ratio)
  {
    PromisedAfterAdd(g, name, lv, pool);
  }

  /** Growing a volume keeps the bound of a pool exactly when the new promise is within the limit. */
  lemma GrowKeepsBounded(g: Group, name: string, size: nat, pool: string, ratio: real)
    requires Bounded(g, pool, ratio) && g.extent > 0 && ratio >= 1.0
    requires name in g.lvs && !IsThinPool(g.lvs[name]) && g.lvs[name].size <= size
    requires IsThin(g.lvs[name]) || size - g.lvs[name].size <= g.free
    ensures Bounded(GrowLv(g, name, size), pool, ratio) <==>
      (HasPool(g, pool) && InPool(g.lvs[name], pool) ==>
         Promised(g, pool) - g.lvs[name].size + size <= Limit(g, pool, ratio))
  {
    PromisedAfterGrow(g, name, size, pool);
  }

  lemma PruneKeepsBounded(before: Group, after: Group, name: string, pool: string, ratio: real)
    requires Bounded(before, pool, ratio) && Pruned(before, after, name)
    ensures Bounded(after, pool, ratio)
  {
    TotalOfPart(VirtualSizes(after.lvs, pool), VirtualSizes(before.lvs, pool));
  }
}
