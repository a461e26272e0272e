/**
  Adapter selection (PhysicalDevice.cpp). Every Vulkan query the source makes
  about a physical device is replaced by its answer, given as plain data: a
  `DeviceQuery` per enumerated device and a `SurfaceQuery` per device for the
  surface-dependent queries. The static state of the source class (the list of
  all devices, the selected index and device, the dirty flag) is the
  `AdapterRegistry` class.
 */
module PhysicalDevice {
  import opened Vk

  const VK_QUEUE_GRAPHICS_BIT: bv32 := 0x1
  const VK_KHR_SWAPCHAIN_EXTENSION_NAME: string := "VK_KHR_swapchain"
  const VK_IMAGE_TILING_OPTIMAL: int := 0
  const VK_IMAGE_TILING_LINEAR: int := 1
  /** Size of the memoryTypes array of VkPhysicalDeviceMemoryProperties. */
  const VK_MAX_MEMORY_TYPES: nat := 32

  /** A queue family: its queue flags and whether it can present to the surface. */
  datatype QueueFamily = QueueFamily(queueFlags: bv32, presentSupport: bool)

  datatype Capability = Graphics | Present

  /** Bit `bit` is set in `flags`. */
  predicate HasBit(flags: bv32, bit: bv32) {
    flags & bit != 0
  }

  /** `have` contains every bit of `want`. */
  predicate Includes(have: bv32, want: bv32) {
    have & want == want
  }

  predicate Has(q: QueueFamily, c: Capability) {
    match c
    case Graphics => HasBit(q.queueFlags, VK_QUEUE_GRAPHICS_BIT)
    case Present => q.presentSupport
  }

  /** The features of VkPhysicalDeviceFeatures the engine looks at by name;
      every other supported feature is only named in `others`. */
  datatype Features = Features(
    logicOp: bool,
    samplerAnisotropy: bool,
    sampleRateShading: bool,
    fillModeNonSolid: bool,
    wideLines: bool,
    depthClamp: bool,
    others: set<string>)

  datatype MemoryType = MemoryType(propertyFlags: bv32)

  datatype SurfaceFormat = SurfaceFormat(format: int, colorSpace: int)

  datatype SurfaceCapabilities = SurfaceCapabilities(
    minImageCount: nat, maxImageCount: nat, currentWidth: nat, currentHeight: nat)

  const NO_CAPABILITIES := SurfaceCapabilities(0, 0, 0, 0)

  /** What the driver reports about one enumerated device. */
  datatype DeviceQuery = DeviceQuery(
    handle: Handle,
    extensions: seq<string>,
    families: seq<QueueFamily>,
    colorSampleCounts: bv32,
    depthSampleCounts: bv32,
    features: Features,
    memoryTypes: seq<MemoryType>)

  /** What the driver reports about one device against the current surface. */
  datatype SurfaceQuery = SurfaceQuery(
    capabilities: SurfaceCapabilities,
    formats: seq<SurfaceFormat>,
    presentModes: seq<int>)

  /** One entry of `allDevices`. */
  datatype Adapter = Adapter(
    handle: Handle,
    suitable: bool,
    presentFamily: int,
    graphicsFamily: int,
    maxSamples: bv32,
    features: Features,
    capabilities: SurfaceCapabilities,
    memoryTypes: seq<MemoryType>,
    presentModes: seq<int>,
    surfaceFormats: seq<SurfaceFormat>,
    extensions: seq<string>,
    families: seq<QueueFamily>)

  // ---------------------------------------------------------------------------
  // Queue-family scan

  /** Position of the first family with capability `c`, or `|f|`. */
  function First(f: seq<QueueFamily>, c: Capability): (k: nat)
    ensures k <= |f|
    ensures forall i :: 0 <= i < k ==> !Has(f[i], c)
    ensures k < |f| ==> Has(f[k], c)
  {
    if f == [] then 0
    else if Has(f[0], c) then 0
    else
      var k := 1 + First(f[1..], c);
      assert forall i :: 1 <= i < k ==> f[i] == f[1..][i - 1];
      k
  }

  /** Number of families the scan visits: it stops right after the first
      index by which both a graphics and a present family have been seen. */
  function ScanLength(f: seq<QueueFamily>): nat {
    var g, p := First(f, Graphics), First(f, Present);
    if g < |f| && p < |f| then (if g < p then p else g) + 1 else |f|
  }

  /** Last position below `n` with capability `c`, or -1. */
  function LastBefore(f: seq<QueueFamily>, n: nat, c: Capability): (k: int)
    requires n <= |f|
    ensures -1 <= k < n
    ensures k != -1 ==> Has(f[k], c)
    ensures forall i :: k < i < n ==> !Has(f[i], c)
  {
    if n == 0 then -1
    else if Has(f[n - 1], c) then n - 1
    else LastBefore(f, n - 1, c)
  }

  datatype FamilyChoice = FamilyChoice(graphics: int, present: int)

  /** The graphics and present families the scan settles on: the last family
      of each kind among the visited ones. */
  function ChosenFamilies(f: seq<QueueFamily>): FamilyChoice {
    var n := ScanLength(f);
    FamilyChoice(LastBefore(f, n, Graphics), LastBefore(f, n, Present))
  }

  lemma LastBeforeFirst(f: seq<QueueFamily>, n: nat, c: Capability)
    requires n <= |f|
    ensures LastBefore(f, n, c) == -1 <==> First(f, c) >= n
  {
    var k := First(f, c);
    if k < n {
      assert Has(f[k], c);
    }
  }

  /** Each chosen family is -1 or a family with that capability; it is -1
      exactly when the device has no such family at all; and when both exist
      the scan stopped at the first index by which both had been seen. */
  lemma {:induction false} ChosenFamiliesValid(f: seq<QueueFamily>)
    ensures var ch := ChosenFamilies(f);
      && (ch.graphics == -1 || (0 <= ch.graphics < |f| && Has(f[ch.graphics], Graphics)))
      && (ch.present == -1 || (0 <= ch.present < |f| && Has(f[ch.present], Present)))
      && (ch.graphics == -1 <==> forall i :: 0 <= i < |f| ==> !Has(f[i], Graphics))
      && (ch.present == -1 <==> forall i :: 0 <= i < |f| ==> !Has(f[i], Present))
      && (ch.graphics != -1 && ch.present != -1 ==>
            (if ch.graphics < ch.present then ch.present else ch.graphics) == ScanLength(f) - 1)
  {
    var n := ScanLength(f);
    LastBeforeFirst(f, n, Graphics);
    LastBeforeFirst(f, n, Present);
    var g, p := First(f, Graphics), First(f, Present);
    if g < |f| && p < |f| {
      var top := if g < p then p else g;
      assert Has(f[top], if g < p then Present else Graphics);
    }
  }

  /** The family loop of `PhysicalDevice::Create`. */
  method ScanFamilies(f: seq<QueueFamily>) returns (graphicsFamily: int, presentFamily: int)
    ensures FamilyChoice(graphicsFamily, presentFamily) == ChosenFamilies(f)
  {
    graphicsFamily, presentFamily := -1, -1;
    var i := 0;
    while i < |f| && !(presentFamily != -1 && graphicsFamily != -1)
      invariant i <= ScanLength(f) <= |f|
      invariant graphicsFamily == LastBefore(f, i, Graphics)
      invariant presentFamily == LastBefore(f, i, Present)
    {
      ScanGoesOn(f, i);
      if Has(f[i], Graphics) {
        graphicsFamily := i;
      }
      if Has(f[i], Present) {
        presentFamily := i;
      }
      i := i + 1;
    }
    ScanStops(f, i);
  }

  /** While a kind of family is still missing, the scan has not reached its
      end. */
  lemma ScanGoesOn(f: seq<QueueFamily>, i: nat)
    requires i < |f| && !(LastBefore(f, i, Graphics) != -1 && LastBefore(f, i, Present) != -1)
    ensures i < ScanLength(f) <= |f|
  {
    LastBeforeFirst(f, i, Graphics);
    LastBeforeFirst(f, i, Present);
  }

  /** Once both kinds have been seen, or every family visited, the scan ends. */
  lemma ScanStops(f: seq<QueueFamily>, i: nat)
    requires i <= ScanLength(f) <= |f|
    requires i == |f| || (LastBefore(f, i, Graphics) != -1 && LastBefore(f, i, Present) != -1)
    ensures i == ScanLength(f)
  {
    LastBeforeFirst(f, i, Graphics);
    LastBeforeFirst(f, i, Present);
  }

  // ---------------------------------------------------------------------------
  // Multisampling

  /** VK_SAMPLE_COUNT_1_BIT .. VK_SAMPLE_COUNT_64_BIT, that is bit `k` for
      `k` in 0 .. 6. */
  function SampleBit(k: nat): bv32
    requires k <= 6
  {
    [0x1, 0x2, 0x4, 0x8, 0x10, 0x20, 0x40][k]
  }

  /** The highest of the sample bits `k`, `k - 1`, .., 1 set in `counts`, or
      bit 0 when none of them is. */
  function HighestSampleBitUpTo(counts: bv32, k: nat): (b: nat)
    requires k <= 6
    ensures b <= k
  {
    if k == 0 then 0
    else if HasBit(counts, SampleBit(k)) then k
    else HighestSampleBitUpTo(counts, k - 1)
  }

  /** The `maxSamples` of a device whose colour and depth sample counts are
      both `counts`. */
  function MaxSampleCount(counts: bv32): bv32 {
    SampleBit(HighestSampleBitUpTo(counts, 6))
  }

  lemma {:induction false} HighestSampleBitUpToIsHighest(counts: bv32, k: nat)
    requires k <= 6
    ensures var b := HighestSampleBitUpTo(counts, k);
      (b == 0 || HasBit(counts, SampleBit(b))) && forall j :: b < j <= k ==> !HasBit(counts, SampleBit(j))
  {
    if k > 0 && !HasBit(counts, SampleBit(k)) {
      HighestSampleBitUpToIsHighest(counts, k - 1);
    }
  }

  /** `maxSamples` is the highest sample count of 2 .. 64 that is supported
      for both colour and depth, and one sample when there is none. */
  lemma MaxSampleCountIsHighest(color: bv32, depth: bv32)
    ensures exists b :: (0 <= b <= 6 && MaxSampleCount(color & depth) == SampleBit(b) &&
                         (b == 0 || HasBit(color & depth, SampleBit(b))) &&
                         (forall j :: b < j <= 6 ==> !HasBit(color & depth, SampleBit(j))))
  {
    HighestSampleBitUpToIsHighest(color & depth, 6);
    var b := HighestSampleBitUpTo(color & depth, 6);
    assert MaxSampleCount(color & depth) == SampleBit(b);
  }

  /** The chain of `if (counts & VK_SAMPLE_COUNT_n_BIT)` tests of
      `PhysicalDevice::Create`. */
  method ComputeMaxSamples(color: bv32, depth: bv32) returns (maxSamples: bv32)
    ensures maxSamples == MaxSampleCount(color & depth)
  {
    var counts := color;
    counts := counts & depth;
    maxSamples := SampleBit(0);
    if HasBit(counts, SampleBit(1)) { maxSamples := SampleBit(1); }
    assert maxSamples == SampleBit(HighestSampleBitUpTo(counts, 1));
    if HasBit(counts, SampleBit(2)) { maxSamples := SampleBit(2); }
    assert maxSamples == SampleBit(HighestSampleBitUpTo(counts, 2));
    if HasBit(counts, SampleBit(3)) { maxSamples := SampleBit(3); }
    assert maxSamples == SampleBit(HighestSampleBitUpTo(counts, 3));
    if HasBit(counts, SampleBit(4)) { maxSamples := SampleBit(4); }
    assert maxSamples == SampleBit(HighestSampleBitUpTo(counts, 4));
    if HasBit(counts, SampleBit(5)) { maxSamples := SampleBit(5); }
    assert maxSamples == SampleBit(HighestSampleBitUpTo(counts, 5));
    if HasBit(counts, SampleBit(6)) { maxSamples := SampleBit(6); }
  }

  // ---------------------------------------------------------------------------
  // Suitability

  /** The required extensions the device does not offer. */
  function Missing(required: seq<string>, extensions: seq<string>): set<string> {
    set e | e in required && e !in extensions
  }

  /** The `requiredExt.erase(...)` loop of `PhysicalDevice::Create`. */
  method MissingExtensions(required: seq<string>, extensions: seq<string>) returns (missing: set<string>)
    ensures forall e :: e in missing <==> e in required && e !in extensions
  {
    missing := set e | e in required;
    var i := 0;
    while i < |extensions|
      invariant 0 <= i <= |extensions|
      invariant missing == set e | e in required && e !in extensions[..i]
    {
      missing := missing - {extensions[i]};
      assert extensions[..i + 1] == extensions[..i] + [extensions[i]];
      i := i + 1;
    }
    assert extensions[..i] == extensions;
  }

  /** The entries `PhysicalDevice::Create` appends, one per enumerated device. */
  function AdaptersOf(devices: seq<DeviceQuery>, required: seq<string>): seq<Adapter> {
    Map(d => AdapterOf(d, required), devices)
  }

  /** Every entry updated by the surface query at its own position. */
  function SurfacesApplied(adapters: seq<Adapter>, surfaces: seq<SurfaceQuery>): (r: seq<Adapter>)
    requires |surfaces| == |adapters|
  {
    seq(|adapters|, i requires 0 <= i < |adapters| => SurfaceUpdated(adapters[i], surfaces[i]))
  }

  /** The entry `PhysicalDevice::Create` appends for one enumerated device. */
  function AdapterOf(d: DeviceQuery, required: seq<string>): Adapter {
    var ch := ChosenFamilies(d.families);
    Adapter(
      d.handle,
      Missing(required, d.extensions) == {} && ch.graphics != -1 && ch.present != -1,
      ch.present,
      ch.graphics,
      MaxSampleCount(d.colorSampleCounts & d.depthSampleCounts),
      d.features,
      NO_CAPABILITIES,
      d.memoryTypes,
      [],
      [],
      d.extensions,
      d.families)
  }

  /** After `Create`, a device is suitable exactly when it offers every
      required extension and has both a graphics and a present family. */
  lemma AdapterOfSuitable(d: DeviceQuery, required: seq<string>)
    ensures AdapterOf(d, required).suitable <==>
      && (forall e :: e in required ==> e in d.extensions)
      && (exists i :: 0 <= i < |d.families| && Has(d.families[i], Graphics))
      && (exists i :: 0 <= i < |d.families| && Has(d.families[i], Present))
  {
    ChosenFamiliesValid(d.families);
    if forall e :: e in required ==> e in d.extensions {
      assert Missing(required, d.extensions) == {};
    } else {
      var e :| e in required && e !in d.extensions;
      assert e in Missing(required, d.extensions);
    }
  }

  /** The body of the device loop of `PhysicalDevice::Create`. */
  method BuildAdapter(d: DeviceQuery, required: seq<string>) returns (a: Adapter)
    ensures a == AdapterOf(d, required)
  {
    var graphicsFamily, presentFamily := ScanFamilies(d.families);
    var maxSamples := ComputeMaxSamples(d.colorSampleCounts, d.depthSampleCounts);
    var missing := MissingExtensions(required, d.extensions);
    var suitable := true;
    suitable := suitable && missing == {};
    suitable := suitable && graphicsFamily != -1;
    suitable := suitable && presentFamily != -1;
    a := Adapter(d.handle, suitable, presentFamily, graphicsFamily, maxSamples, d.features,
                 NO_CAPABILITIES, d.memoryTypes, [], [], d.extensions, d.families);
  }

  // ---------------------------------------------------------------------------
  // Surface update and selection

  /** One device after `OnSurfaceUpdate`: the capabilities are always
      replaced, the format and mode lists only when the driver reports some,
      and suitability is narrowed by both counts being non-zero. */
  function SurfaceUpdated(a: Adapter, s: SurfaceQuery): Adapter {
    a.(capabilities := s.capabilities,
       surfaceFormats := if |s.formats| != 0 then s.formats else a.surfaceFormats,
       presentModes := if |s.presentModes| != 0 then s.presentModes else a.presentModes,
       suitable := a.suitable && |s.presentModes| > 0 && |s.formats| > 0)
  }

  /** A surface update never makes a device suitable, and a device stays
      suitable exactly when it reports at least one format and one mode. */
  lemma SurfaceUpdateNarrows(a: Adapter, s: SurfaceQuery)
    ensures SurfaceUpdated(a, s).suitable ==> a.suitable
    ensures a.suitable ==> (SurfaceUpdated(a, s).suitable <==> |s.formats| > 0 && |s.presentModes| > 0)
    ensures |s.formats| == 0 ==> SurfaceUpdated(a, s).surfaceFormats == a.surfaceFormats
    ensures |s.presentModes| == 0 ==> SurfaceUpdated(a, s).presentModes == a.presentModes
    ensures SurfaceUpdated(a, s).suitable ==>
      SurfaceUpdated(a, s).surfaceFormats == s.formats && SurfaceUpdated(a, s).presentModes == s.presentModes
  {
  }

  /** Last position of a suitable device, or -1. */
  function LastSuitable(devices: seq<Adapter>): (k: int)
    ensures -1 <= k < |devices|
    ensures k != -1 ==> devices[k].suitable
    ensures forall i :: k < i < |devices| ==> !devices[i].suitable
  {
    if devices == [] then -1
    else if devices[|devices| - 1].suitable then |devices| - 1
    else LastSuitable(devices[..|devices| - 1])
  }

  /** The index `UpdateDevice` leaves: the current one while it names a
      suitable device, otherwise the last suitable device, and the old index
      when there is none. */
  function Reselect(devices: seq<Adapter>, index: int): (r: int)
    ensures (0 <= r < |devices| && devices[r].suitable) <==> exists i :: 0 <= i < |devices| && devices[i].suitable
    ensures 0 <= index < |devices| && devices[index].suitable ==> r == index
    ensures r != index ==> r == LastSuitable(devices) && !(0 <= index < |devices| && devices[index].suitable)
  {
    if 0 <= index < |devices| && devices[index].suitable then index
    else if LastSuitable(devices) != -1 then LastSuitable(devices)
    else index
  }

  /** `FindMemoryType`'s test for memory type `i`. */
  predicate MemoryTypeFits(memoryTypes: seq<MemoryType>, i: nat, typeFilter: bv32, properties: bv32)
    requires i < |memoryTypes| <= VK_MAX_MEMORY_TYPES
  {
    HasBit(typeFilter, (1 as bv32) << i) && Includes(memoryTypes[i].propertyFlags, properties)
  }

  /** The memory-type search of the Device Memory chapter of the Vulkan
      specification, over the selected device's memory types. */
  method FindMemoryType(memoryTypes: seq<MemoryType>, typeFilter: bv32, properties: bv32) returns (r: Result<nat>)
    requires |memoryTypes| <= VK_MAX_MEMORY_TYPES
    ensures r.Ok? ==> r.value < |memoryTypes| && MemoryTypeFits(memoryTypes, r.value, typeFilter, properties)
    ensures r.Ok? ==> forall i :: 0 <= i < r.value ==> !MemoryTypeFits(memoryTypes, i, typeFilter, properties)
    ensures r.Err? ==> r.error == "failed to find suitable memory type"
    ensures r.Err? ==> forall i :: 0 <= i < |memoryTypes| ==> !MemoryTypeFits(memoryTypes, i, typeFilter, properties)
  {
    var i := 0;
    while i < |memoryTypes|
      invariant 0 <= i <= |memoryTypes|
      invariant forall j :: 0 <= j < i ==> !MemoryTypeFits(memoryTypes, j, typeFilter, properties)
    {
      if HasBit(typeFilter, (1 as bv32) << i) {
        if Includes(memoryTypes[i].propertyFlags, properties) {
          return Ok(i);
        }
      }
      i := i + 1;
    }
    return Err("failed to find suitable memory type");
  }

  datatype FormatProperties = FormatProperties(linearTilingFeatures: bv32, optimalTilingFeatures: bv32)

  function SupportFormat(props: FormatProperties, tiling: int, features: bv32): (r: bool)
    ensures tiling != VK_IMAGE_TILING_LINEAR && tiling != VK_IMAGE_TILING_OPTIMAL ==> !r
    ensures tiling == VK_IMAGE_TILING_LINEAR ==> (r <==> Includes(props.linearTilingFeatures, features))
    ensures tiling == VK_IMAGE_TILING_OPTIMAL ==> (r <==> Includes(props.optimalTilingFeatures, features))
  {
    if tiling == VK_IMAGE_TILING_LINEAR && Includes(props.linearTilingFeatures, features) then true
    else if tiling == VK_IMAGE_TILING_OPTIMAL && Includes(props.optimalTilingFeatures, features) then true
    else false
  }

  /** Asking for fewer features never turns a supported format unsupported. */
  lemma SupportFormatMonotone(props: FormatProperties, tiling: int, features: bv32, fewer: bv32)
    requires Includes(features, fewer)
    ensures SupportFormat(props, tiling, features) ==> SupportFormat(props, tiling, fewer)
  {
    IncludesTransitive(props.linearTilingFeatures, features, fewer);
    IncludesTransitive(props.optimalTilingFeatures, features, fewer);
  }

  lemma IncludesTransitive(a: bv32, b: bv32, c: bv32)
    requires Includes(b, c)
    ensures Includes(a, b) ==> Includes(a, c)
  {
  }

  /** The static members of the source class `PhysicalDevice`. The current
      `device` is `allDevices[index]` when `hasDevice` holds and null otherwise. */
  class AdapterRegistry {
    var allDevices: seq<Adapter>
    var index: int
    var hasDevice: bool
    var dirty: bool
    const requiredExtensions: seq<string>

    ghost predicate Valid()
      reads this
    {
      && index >= -1
      && (hasDevice ==> 0 <= index < |allDevices|)
    }

    constructor ()
      ensures Valid()
      ensures allDevices == [] && index == -1 && !hasDevice && dirty
      ensures requiredExtensions == [VK_KHR_SWAPCHAIN_EXTENSION_NAME]
    {
      allDevices := [];
      index := -1;
      hasDevice := false;
      dirty := true;
      requiredExtensions := [VK_KHR_SWAPCHAIN_EXTENSION_NAME];
    }

    /** The device `device` points to. */
    function Selected(): Adapter
      reads this
      requires Valid() && hasDevice
    {
      allDevices[index]
    }

    /** `index` names a device in the list that is suitable. The source
        indexes `allDevices[index]` without a range check; an index left over
        from before `Destroy` that is out of range counts as unsuitable here. */
    predicate IndexSuitable()
      reads this
    {
      0 <= index < |allDevices| && allDevices[index].suitable
    }

    method UpdateDevice() returns (o: Outcome)
      requires Valid()
      modifies this
      ensures Valid()
      ensures allDevices == old(allDevices) && dirty == old(dirty)
      ensures old(IndexSuitable()) ==> index == old(index)
      ensures !old(IndexSuitable()) ==>
        index == if LastSuitable(allDevices) != -1 then LastSuitable(allDevices) else old(index)
      ensures index == Reselect(allDevices, old(index))
      ensures o.Pass? <==> exists i :: 0 <= i < |allDevices| && allDevices[i].suitable
      ensures o.Pass? ==> hasDevice && IndexSuitable()
      ensures o.Fail? ==> o.error == "can't find suitable device" && hasDevice == (0 <= index < |allDevices|)
    {
      if index == -1 || !IndexSuitable() {
        var i := 0;
        while i < |allDevices|
          invariant 0 <= i <= |allDevices| && allDevices == old(allDevices) && dirty == old(dirty)
          invariant index == if LastSuitable(allDevices[..i]) != -1 then LastSuitable(allDevices[..i]) else old(index)
        {
          assert allDevices[..i + 1][..i] == allDevices[..i];
          if allDevices[i].suitable {
            index := i;
          }
          i := i + 1;
        }
        assert allDevices[..i] == allDevices;
      }
      hasDevice := 0 <= index < |allDevices|;
      if !IndexSuitable() {
        return Fail("can't find suitable device");
      }
      o := Pass;
    }

    method OnSurfaceUpdate(surfaces: seq<SurfaceQuery>) returns (o: Outcome)
      requires Valid() && hasDevice
      requires |surfaces| == |allDevices|
      modifies this
      ensures Valid()
      ensures allDevices == SurfacesApplied(old(allDevices), surfaces)
      ensures dirty == old(dirty)
      ensures allDevices[old(index)].suitable ==> index == old(index) && o.Pass?
      ensures index == Reselect(allDevices, old(index))
      ensures o.Pass? <==> exists i :: 0 <= i < |allDevices| && allDevices[i].suitable
      ensures o.Pass? ==> hasDevice && IndexSuitable()
      ensures o.Fail? ==> o.error == "can't find suitable device"
    {
      var i := 0;
      while i < |allDevices|
        invariant 0 <= i <= |allDevices| == |old(allDevices)|
        invariant index == old(index) && hasDevice && dirty == old(dirty) && Valid()
        invariant forall j :: 0 <= j < i ==> allDevices[j] == SurfaceUpdated(old(allDevices[j]), surfaces[j])
        invariant forall j :: i <= j < |allDevices| ==> allDevices[j] == old(allDevices[j])
      {
        allDevices := allDevices[i := SurfaceUpdated(allDevices[i], surfaces[i])];
        i := i + 1;
      }
      assert allDevices == SurfacesApplied(old(allDevices), surfaces);
      if !allDevices[index].suitable {
        o := UpdateDevice();
      } else {
        o := Pass;
      }
    }

    /** `PhysicalDevice::Create`: enumerates the devices, appends one entry per
        device, selects one and applies the surface queries. */
    method Create(devices: seq<DeviceQuery>, surfaces: seq<SurfaceQuery>) returns (o: Outcome)
      requires Valid()
      requires |surfaces| == |allDevices| + |devices|
      modifies this
      ensures Valid()
      ensures |devices| == 0 ==>
        o == Fail("failed to find GPUs with Vulkan support!") && allDevices == old(allDevices) && index == old(index)
      ensures o.Pass? ==>
        && |AdaptersOf(devices, requiredExtensions)| == |devices|
        && allDevices == SurfacesApplied(old(allDevices) + AdaptersOf(devices, requiredExtensions), surfaces)
        && hasDevice && IndexSuitable()
        && index == Reselect(allDevices, Reselect(old(allDevices) + AdaptersOf(devices, requiredExtensions), old(index)))
      ensures |devices| > 0 && o.Fail? ==> o.error == "can't find suitable device"
      ensures o.Pass? ==> !dirty
      ensures o.Fail? ==> dirty == old(dirty)
    {
      if |devices| == 0 {
        return Fail("failed to find GPUs with Vulkan support!");
      }
      MapAt(d => AdapterOf(d, requiredExtensions), devices);
      AppendAdapters(devices);
      o := UpdateDevice();
      if o.Fail? {
        return;
      }
      o := OnSurfaceUpdate(surfaces);
      if o.Fail? {
        return;
      }
      dirty := false;
    }

    /** The enumeration loop of `PhysicalDevice::Create`: one adapter entry
        per enumerated device, appended in enumeration order. */
    method AppendAdapters(devices: seq<DeviceQuery>)
      requires Valid()
      modifies this`allDevices
      ensures Valid()
      ensures allDevices == old(allDevices) + AdaptersOf(devices, requiredExtensions)
    {
      ghost var before := allDevices;
      var k := 0;
      while k < |devices|
        invariant 0 <= k <= |devices|
        invariant Valid()
        invariant allDevices == before + AdaptersOf(devices[..k], requiredExtensions)
      {
        var a := BuildAdapter(devices[k], requiredExtensions);
        PrefixSnoc(devices, k);
        MapSnoc(d => AdapterOf(d, requiredExtensions), devices[..k], devices[k]);
        AppendAssoc(before, AdaptersOf(devices[..k], requiredExtensions), [a]);
        allDevices := allDevices + [a];
        k := k + 1;
      }
      assert devices[..k] == devices;
    }

    /** Clears the device list and the selection; `index` is left as it was. */
    method Destroy()
      requires Valid()
      modifies this
      ensures Valid()
      ensures allDevices == [] && !hasDevice
      ensures index == old(index) && dirty == old(dirty)
    {
      allDevices := [];
      hasDevice := false;
    }
  }
}
