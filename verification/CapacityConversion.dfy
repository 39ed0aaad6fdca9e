/** The capacity of a CSI request, on 64-bit integers with truncating division. */
module CapacityConversion {
  import opened Wrappers
  import opened Constants
  import opened Numbers

  const MAX := 0x7fff_ffff_ffff_ffff

  /** A sum of two 64-bit integers, or a product that is not further out of range, wrapped around once. */
  function Wrap(x: int): Int64
    requires -0x8000_0000_0000_0000 <= x < 0x1_8000_0000_0000_0000
  {
    if x < 0x8000_0000_0000_0000 then x else x - 0x1_0000_0000_0000_0000
  }

  /** Division that truncates towards zero, by a positive number. */
  function Quotient(x: int, d: nat): int
    requires d > 0
  {
    if x >= 0 then x / d else -(-x / d)
  }

  function RoundUpTo(size: Int64): Int64 {
    var quotient := Quotient(Wrap(size + SECTOR - 1), SECTOR);
    assert quotient * SECTOR >= -0x8000_0000_0000_0000;
    Wrap(quotient * SECTOR)
  }

  function RoundDownTo(size: Int64): Int64
    requires size >= 0
  {
    size - size % SECTOR
  }

  datatype ConversionError = NegativeRequest | NegativeLimit | RequestExceedsLimit | ResultIsZero

  function ConvertRequestCapacityBytes(request: Int64, limit: Int64): Result<Int64, ConversionError> {
    if request < 0 then Failure(NegativeRequest)
    else if limit < 0 then Failure(NegativeLimit)
    else if limit != 0 && request > limit then Failure(RequestExceedsLimit)
    else if request == 0 then
      if limit == 0 || limit >= DEFAULT_SIZE then Success(DEFAULT_SIZE)
      else
        var rounded := RoundDownTo(limit);
        if rounded == 0 then Failure(ResultIsZero) else Success(rounded)
    else if request % SECTOR != 0 then
      var rounded := RoundUpTo(request);
      if limit > 0 && rounded > limit then Failure(RequestExceedsLimit) else Success(rounded)
    else Success(request)
  }

  // ---------------------------------------------------------------- what the result should be

  /** A capacity that the caller allows: positive, whole sectors, at least the request, within any limit. */
  predicate Allowed(request: Int64, limit: Int64, capacity: int) {
    && 0 < capacity <= MAX && capacity % SECTOR == 0
    && request <= capacity && (limit == 0 || capacity <= limit)
  }

  /** A request without a size gets the default size, or as much of it as the limit allows; otherwise the least. */
  ghost predicate Best(request: Int64, limit: Int64, capacity: int) {
    && Allowed(request, limit, capacity)
    && (request > 0 ==> forall c :: Allowed(request, limit, c) ==> capacity <= c)
    && (request == 0 ==> capacity <= DEFAULT_SIZE && forall c :: Allowed(request, limit, c) && c <= DEFAULT_SIZE ==> c <= capacity)
  }

  /** An error for a negative input or when nothing is allowed, and otherwise the best capacity. */
  ghost predicate Right(request: Int64, limit: Int64, r: Result<Int64, ConversionError>) {
    if request < 0 || limit < 0 || forall c :: !Allowed(request, limit, c) then r.Failure?
    else r.Success? && Best(request, limit, r.value)
  }

  const LARGEST := 0x7fff_ffff_ffff_f000

  lemma RoundUpToIs(size: Int64)
    requires 0 <= size <= LARGEST
    ensures RoundUpTo(size) == RoundUp(size, SECTOR)
  {
    RoundUpIsLeast(size, SECTOR);
  }

  /** Above the largest multiple the addition wraps around and the result is negative. */
  lemma RoundUpToWraps(size: Int64)
    requires size > LARGEST
    ensures RoundUpTo(size) < 0 && RoundUpTo(size) % SECTOR == 0
  {
    var sum := size + SECTOR - 1 - 0x1_0000_0000_0000_0000;
    assert Wrap(size + SECTOR - 1) == sum;
  }

  lemma RightWithoutRequest(limit: Int64)
    requires limit >= 0
    ensures Right(0, limit, ConvertRequestCapacityBytes(0, limit))
  {
    if 0 < limit < SECTOR {
      assert RoundDownTo(limit) == 0;
    } else {
      assert Allowed(0, limit, if limit == 0 || limit >= DEFAULT_SIZE then DEFAULT_SIZE else RoundDownTo(limit));
    }
  }

  lemma RightWithRequest(request: Int64, limit: Int64)
    requires 0 < request <= LARGEST && (limit == 0 || request <= limit)
    ensures Right(request, limit, ConvertRequestCapacityBytes(request, limit))
  {
    var rounded := RoundUp(request, SECTOR);
    RoundUpToIs(request);
    RoundUpIsLeast(request, SECTOR);
    if limit == 0 || rounded <= limit {
      RoundUpBelow(request, SECTOR, LARGEST);
      assert Allowed(request, limit, rounded);
    }
  }

  /**
   * The conversion is right exactly when the request is at most 2^63 - 4096, or is refused before rounding; any
   * other request passes without an error and with a negative capacity.
   */
  lemma ConversionIsExact(request: Int64, limit: Int64)
    ensures Right(request, limit, ConvertRequestCapacityBytes(request, limit)) <==>
      request <= LARGEST || limit < 0 || (limit != 0 && limit < request)
    ensures !Right(request, limit, ConvertRequestCapacityBytes(request, limit)) ==>
      ConvertRequestCapacityBytes(request, limit).Success? && ConvertRequestCapacityBytes(request, limit).value < 0
  {
    if request == 0 && limit >= 0 {
      RightWithoutRequest(limit);
    } else if 0 < request <= LARGEST && (limit == 0 || request <= limit) {
      RightWithRequest(request, limit);
    } else if request > LARGEST && (limit == 0 || request <= limit) {
      RoundUpToWraps(request);
    }
  }

  /** A right capacity passes the sector check of a linear volume. */
  lemma ConvertedPassesSectorCheck(request: Int64, limit: Int64)
    requires request <= LARGEST && ConvertRequestCapacityBytes(request, limit).Success?
    ensures var capacity := ConvertRequestCapacityBytes(request, limit).value;
      capacity > 0 && capacity % SECTOR == 0 && request <= capacity && (limit == 0 || capacity <= limit)
  {
    ConversionIsExact(request, limit);
  }

  // ---------------------------------------------------------------- configured minimums

  datatype Capability = Block | Mount(fsType: string) | Neither

  datatype MinimumAllocationSettings = MinimumAllocationSettings(filesystem: map<string, Int64>, block: Int64)

  /** The minimum that the settings give for one capability. */
  function MinimumFor(settings: MinimumAllocationSettings, capability: Capability): Int64 {
    match capability
    case Block => settings.block
    case Mount(fsType) => if fsType in settings.filesystem then settings.filesystem[fsType] else 0
    case Neither => 0
  }

  /** The first capability that says how the volume is accessed. */
  ghost predicate Decides(capabilities: seq<Capability>, i: int) {
    0 <= i < |capabilities| && !capabilities[i].Neither? && forall j :: 0 <= j < i ==> capabilities[j].Neither?
  }

  method GetMinimumAllocationSize(settings: MinimumAllocationSettings, capabilities: seq<Capability>) returns (size: Int64)
    ensures size >= 0
    ensures forall i :: Decides(capabilities, i) ==> size == if MinimumFor(settings, capabilities[i]) < 0 then 0 else MinimumFor(settings, capabilities[i])
    ensures (forall i :: 0 <= i < |capabilities| ==> capabilities[i].Neither?) ==> size == 0
  {
    var quantity: Int64 := 0;
    for i := 0 to |capabilities|
      invariant quantity == 0 && forall j :: 0 <= j < i ==> capabilities[j].Neither?
    {
      match capabilities[i] {
        case Block =>
          quantity := settings.block;
          assert Decides(capabilities, i);
          break;
        case Mount(fsType) =>
          assert Decides(capabilities, i);
          if fsType !in settings.filesystem { break; }
          quantity := settings.filesystem[fsType];
          break;
        case Neither =>
      }
    }
    return if quantity < 0 then 0 else quantity;
  }

  method MinMaxAllocationsFromSettings(settings: MinimumAllocationSettings, required: Int64, limit: Int64, capabilities: seq<Capability>)
    returns (min: Int64, max: Int64)
    ensures max == limit && min >= required && min >= 0
    ensures forall i :: Decides(capabilities, i) ==> min >= MinimumFor(settings, capabilities[i])
    ensures min == required || min == 0 || exists i :: Decides(capabilities, i) && min == MinimumFor(settings, capabilities[i])
    ensures forall i :: Decides(capabilities, i) ==> min == Needed(settings, required, capabilities[i])
  {
    var minimumSize := GetMinimumAllocationSize(settings, capabilities);
    min, max := if minimumSize > required then minimumSize else required, limit;
    DecidedOrNot(capabilities);
  }

  lemma {:induction false} DecidedOrNot(capabilities: seq<Capability>)
    ensures (exists i :: Decides(capabilities, i)) || forall i :: 0 <= i < |capabilities| ==> capabilities[i].Neither?
  {
    if capabilities != [] {
      var init := capabilities[..|capabilities| - 1];
      DecidedOrNot(init);
      if i :| Decides(init, i) {
        assert Decides(capabilities, i);
      } else if !capabilities[|capabilities| - 1].Neither? {
        assert Decides(capabilities, |capabilities| - 1);
      }
    }
  }

  // ---------------------------------------------------------------- the capacity of a new volume

  datatype RequestError = NoCapabilities | UnknownAccessType | Unconvertible(error: ConversionError)

  predicate AllKnown(capabilities: seq<Capability>) {
    capabilities != [] && forall i :: 0 <= i < |capabilities| ==> !capabilities[i].Neither?
  }

  /** What a volume has to have: the request, and the minimum configured for its first capability. */
  function Needed(settings: MinimumAllocationSettings, required: Int64, capability: Capability): Int64 {
    var minimum := if MinimumFor(settings, capability) < 0 then 0 else MinimumFor(settings, capability);
    if minimum > required then minimum else required
  }

  /**
   * The size of a new volume from end to end. Up to 2^63 - 4096 it is the best capacity that covers the request and
   * the configured minimum within the limit, or there is none; a larger need that the limit admits becomes negative.
   * A negative request counts as none.
   */
  method CapacityToCreate(settings: MinimumAllocationSettings, required: Int64, limit: Int64, capabilities: seq<Capability>)
    returns (r: Result<Int64, RequestError>)
    ensures !AllKnown(capabilities) ==> r.Failure? && r.error in {NoCapabilities, UnknownAccessType}
    ensures AllKnown(capabilities) && Needed(settings, required, capabilities[0]) <= LARGEST ==>
      var need := Needed(settings, required, capabilities[0]);
      if r.Failure? then limit < 0 || forall c :: !Allowed(need, limit, c)
      else Best(need, limit, r.value) && r.value >= required && r.value >= MinimumFor(settings, capabilities[0])
    ensures AllKnown(capabilities) && Needed(settings, required, capabilities[0]) > LARGEST ==>
      if limit < 0 || (limit != 0 && limit < Needed(settings, required, capabilities[0])) then r.Failure?
      else r.Success? && r.value < 0
  {
    if capabilities == [] {
      return Failure(NoCapabilities);
    }
    var request, max := MinMaxAllocationsFromSettings(settings, required, limit, capabilities);
    for i := 0 to |capabilities|
      invariant forall j :: 0 <= j < i ==> !capabilities[j].Neither?
    {
      if capabilities[i].Neither? {
        return Failure(UnknownAccessType);
      }
    }
    assert Decides(capabilities, 0);
    ConversionIsExact(request, max);
    var capacity := ConvertRequestCapacityBytes(request, max);
    return if capacity.Success? then Success(capacity.value) else Failure(Unconvertible(capacity.error));
  }
}
