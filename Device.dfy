// Physical-device selection and logical-device set-up
// (source/vulkan/vulkan_device.hpp, source/vulkan/VulkanDevice.cpp).
// Every Vulkan query the C++ code makes about a physical device is an input:
// a PhysicalDevice value bundles the answers.

module Device {
  import opened Common

  // ---------------------------------------------------------------- constants

  const QUEUE_GRAPHICS_BIT: bv32 := 0x1
  const QUEUE_COMPUTE_BIT: bv32 := 0x2

  const SAMPLE_COUNT_1_BIT: bv32 := 0x1

  /** VK_KHR_SWAPCHAIN_EXTENSION_NAME */
  const SWAPCHAIN_EXTENSION_NAME: string := "VK_KHR_swapchain"

  /** The required device extensions: the swapchain extension and nothing else. */
  const DeviceExtensions: seq<string> := [SWAPCHAIN_EXTENSION_NAME]

  /** VK_MAX_MEMORY_TYPES: a device reports at most this many memory types. */
  const MAX_MEMORY_TYPES: nat := 32

  // ---------------------------------------------------------------- queried data

  /** One VkQueueFamilyProperties entry, together with the answer of
      vkGetPhysicalDeviceSurfaceSupportKHR for the same family index. */
  datatype QueueFamily = QueueFamily(queueFlags: bv32, timestampValidBits: nat, presentSupport: bool)

  type Format = int

  datatype SurfaceFormat = SurfaceFormat(format: Format, colorSpace: int)

  datatype Tiling = Optimal | Linear | DrmFormatModifier

  /** VkFormatProperties: the features a format supports per tiling. */
  datatype FormatProperties = FormatProperties(linearTilingFeatures: bv32, optimalTilingFeatures: bv32, bufferFeatures: bv32)

  /** Everything the device code asks the driver about one physical device. */
  datatype PhysicalDevice = PhysicalDevice(
    queueFamilies: seq<QueueFamily>,
    extensions: seq<string>,
    formats: seq<SurfaceFormat>,
    presentModes: seq<int>,
    samplerAnisotropy: bool,
    framebufferColorSampleCounts: bv32,
    framebufferDepthSampleCounts: bv32)

  // ---------------------------------------------------------------- queue families

  datatype QueueFamilyIndices = QueueFamilyIndices(graphicsFamily: Option<nat>, presentFamily: Option<nat>, computeFamily: Option<nat>)

  /** A default-constructed QueueFamilyIndices: all three optionals empty. */
  const NoFamilies: QueueFamilyIndices := QueueFamilyIndices(None, None, None)

  /** isComplete(): no one of the three families is missing. */
  predicate IsComplete(q: QueueFamilyIndices): (b: bool)
    ensures b <==> None !in {q.graphicsFamily, q.presentFamily, q.computeFamily}
  {
    q.graphicsFamily.Some? && q.presentFamily.Some? && q.computeFamily.Some?
  }

  lemma DefaultIsNotComplete()
    ensures !IsComplete(NoFamilies)
  {
  }

  /** Assigning a value to any of the three optionals of a complete set keeps it complete. */
  lemma AssignKeepsComplete(q: QueueFamilyIndices, i: nat)
    requires IsComplete(q)
    ensures IsComplete(q.(graphicsFamily := Some(i)))
    ensures IsComplete(q.(presentFamily := Some(i)))
    ensures IsComplete(q.(computeFamily := Some(i)))
  {
  }

  datatype Capability = Graphics | Present | Compute

  predicate Offers(f: QueueFamily, c: Capability)
  {
    match c
    case Graphics => Has(f.queueFlags, QUEUE_GRAPHICS_BIT)
    case Present => f.presentSupport
    case Compute => Has(f.queueFlags, QUEUE_COMPUTE_BIT)
  }

  /** A compute family whose timestamps are unusable: the scan throws on it. */
  predicate TimestampsMissing(f: QueueFamily)
  {
    Offers(f, Compute) && f.timestampValidBits == 0
  }

  /** The last family index below `n` that offers `c`: later families overwrite earlier ones. */
  function LastOffering(fams: seq<QueueFamily>, n: nat, c: Capability): (r: Option<nat>)
    requires n <= |fams|
    ensures r.Some? ==> r.value < n && Offers(fams[r.value], c)
    ensures r.Some? ==> forall j :: r.value < j < n ==> !Offers(fams[j], c)
    ensures r.None? ==> forall j :: 0 <= j < n ==> !Offers(fams[j], c)
  {
    if n == 0 then None
    else if Offers(fams[n - 1], c) then Some(n - 1)
    else LastOffering(fams, n - 1, c)
  }

  /** The indices the scan holds after visiting the first `n` families. */
  function IndicesAfter(fams: seq<QueueFamily>, n: nat): QueueFamilyIndices
    requires n <= |fams|
  {
    QueueFamilyIndices(LastOffering(fams, n, Graphics), LastOffering(fams, n, Present), LastOffering(fams, n, Compute))
  }

  function StopFrom(fams: seq<QueueFamily>, n: nat): (r: nat)
    requires n <= |fams|
    ensures n <= r <= |fams|
    ensures r == |fams| || IsComplete(IndicesAfter(fams, r))
    ensures forall m :: n <= m < r ==> !IsComplete(IndicesAfter(fams, m))
    decreases |fams| - n
  {
    if n == |fams| || IsComplete(IndicesAfter(fams, n)) then n else StopFrom(fams, n + 1)
  }

  /** How many families the scan visits: up to the first prefix after which
      graphics, present and compute have all been seen, or all of them. */
  function StopLength(fams: seq<QueueFamily>): (r: nat)
    ensures r <= |fams|
    ensures r == |fams| || IsComplete(IndicesAfter(fams, r))
    ensures forall m :: 0 <= m < r ==> !IsComplete(IndicesAfter(fams, m))
  {
    StopFrom(fams, 0)
  }

  /** The scan throws: it reaches a compute family without timestamp support. */
  ghost predicate ScanFails(fams: seq<QueueFamily>)
  {
    exists j :: 0 <= j < StopLength(fams) && TimestampsMissing(fams[j])
  }

  /** Visiting family `i` overwrites each optional with `i` where the family offers it. */
  lemma IndicesAfterStep(fams: seq<QueueFamily>, i: nat)
    requires i < |fams|
    ensures var q := IndicesAfter(fams, i);
      IndicesAfter(fams, i + 1) == QueueFamilyIndices(
        if Offers(fams[i], Graphics) then Some(i) else q.graphicsFamily,
        if Offers(fams[i], Present) then Some(i) else q.presentFamily,
        if Offers(fams[i], Compute) then Some(i) else q.computeFamily)
  {
  }

  /** findQueueFamilies */
  method FindQueueFamilies(fams: seq<QueueFamily>) returns (r: Result<QueueFamilyIndices>)
    ensures r.Err? <==> ScanFails(fams)
    ensures r.Ok? ==> r.value == IndicesAfter(fams, StopLength(fams))
  {
    var indices := NoFamilies;
    var i := 0;
    while i < |fams|
      invariant 0 <= i <= |fams|
      invariant indices == IndicesAfter(fams, i)
      invariant forall m :: 0 <= m <= i ==> !IsComplete(IndicesAfter(fams, m))
      invariant forall j :: 0 <= j < i ==> !TimestampsMissing(fams[j])
    {
      var family := fams[i];
      IndicesAfterStep(fams, i);
      if Has(family.queueFlags, QUEUE_GRAPHICS_BIT) {
        indices := indices.(graphicsFamily := Some(i));
      }
      if family.presentSupport {
        indices := indices.(presentFamily := Some(i));
      }
      if Has(family.queueFlags, QUEUE_COMPUTE_BIT) {
        if family.timestampValidBits == 0 {
          assert StopLength(fams) > i;
          return Err("timestamps not valid for compute shaders");
        }
        indices := indices.(computeFamily := Some(i));
      }
      assert indices == IndicesAfter(fams, i + 1);
      if IsComplete(indices) {
        assert StopLength(fams) == i + 1;
        return Ok(indices);
      }
      i := i + 1;
    }
    assert StopLength(fams) == |fams|;
    return Ok(indices);
  }

  /** Some family among all of them offers `c`. */
  predicate SomeFamilyOffers(fams: seq<QueueFamily>, c: Capability)
  {
    exists j :: 0 <= j < |fams| && Offers(fams[j], c)
  }

  /** The scan ends with a complete set exactly when each of graphics, present
      and compute is offered by some family: stopping early never loses one. */
  lemma {:induction false} ScanCompleteIffAllOffered(fams: seq<QueueFamily>)
    ensures IsComplete(IndicesAfter(fams, StopLength(fams))) <==>
            SomeFamilyOffers(fams, Graphics) && SomeFamilyOffers(fams, Present) && SomeFamilyOffers(fams, Compute)
  {
    var n := StopLength(fams);
    if IsComplete(IndicesAfter(fams, n)) {
      var q := IndicesAfter(fams, n);
      assert Offers(fams[q.graphicsFamily.value], Graphics);
      assert Offers(fams[q.presentFamily.value], Present);
      assert Offers(fams[q.computeFamily.value], Compute);
    } else {
      assert n == |fams|;
      var c :| LastOffering(fams, n, c).None?;
      assert !SomeFamilyOffers(fams, c);
    }
  }

  // ---------------------------------------------------------------- extensions

  /** Every required extension name appears among the available ones. */
  predicate ExtensionsSupported(available: seq<string>)
  {
    forall e :: e in DeviceExtensions ==> e in available
  }

  /** checkDeviceExtensionSupport: erases each available name from the set of
      required names and reports whether the set ran empty. */
  method CheckDeviceExtensionSupport(available: seq<string>) returns (supported: bool)
    ensures supported <==> ExtensionsSupported(available)
  {
    var required: set<string> := set e | e in DeviceExtensions;
    var i := 0;
    while i < |available|
      invariant 0 <= i <= |available|
      invariant required == (set e | e in DeviceExtensions) - (set k | 0 <= k < i :: available[k])
    {
      required := required - {available[i]};
      i := i + 1;
    }
    supported := required == {};
    if supported {
      forall e | e in DeviceExtensions ensures e in available {
        assert e !in required;
      }
    } else {
      var e :| e in required;
      assert e !in available;
    }
  }

  // ---------------------------------------------------------------- suitability

  /** What isDeviceSuitable decides for a device whose family scan did not throw. */
  ghost predicate Suitable(d: PhysicalDevice)
  {
    IsComplete(IndicesAfter(d.queueFamilies, StopLength(d.queueFamilies)))
    && ExtensionsSupported(d.extensions)
    && |d.formats| > 0
    && |d.presentModes| > 0
    && d.samplerAnisotropy
  }

  /** isDeviceSuitable: the swap-chain support lists are only consulted when the
      extensions are supported. */
  method IsDeviceSuitable(d: PhysicalDevice) returns (r: Result<bool>)
    ensures r.Err? <==> ScanFails(d.queueFamilies)
    ensures r.Ok? ==> (r.value <==> Suitable(d))
  {
    var indices := FindQueueFamilies(d.queueFamilies);
    if indices.Err? {
      return Err(indices.reason);
    }
    var extensionsSupported := CheckDeviceExtensionSupport(d.extensions);
    var swapChainAdequate := false;
    if extensionsSupported {
      swapChainAdequate := |d.formats| > 0 && |d.presentModes| > 0;
    }
    return Ok(IsComplete(indices.value) && extensionsSupported && swapChainAdequate && d.samplerAnisotropy);
  }

  // ---------------------------------------------------------------- sample count

  /** VK_SAMPLE_COUNT_64_BIT down to VK_SAMPLE_COUNT_2_BIT, in the order they are tried. */
  const SampleCountBits: seq<bv32> := [0x40, 0x20, 0x10, 0x8, 0x4, 0x2]

  /** getMaxUsableSampleCount: the highest sample count supported for both
      colour and depth framebuffer attachments, 1 when only one sample is. */
  function GetMaxUsableSampleCount(d: PhysicalDevice): (r: bv32)
    ensures r == SAMPLE_COUNT_1_BIT || r in SampleCountBits
    ensures r != SAMPLE_COUNT_1_BIT ==> Has(d.framebufferColorSampleCounts & d.framebufferDepthSampleCounts, r)
    ensures forall k :: 0 <= k < |SampleCountBits| && r < SampleCountBits[k] ==>
              !Has(d.framebufferColorSampleCounts & d.framebufferDepthSampleCounts, SampleCountBits[k])
  {
    var counts := d.framebufferColorSampleCounts & d.framebufferDepthSampleCounts;
    if Has(counts, 0x40) then 0x40
    else if Has(counts, 0x20) then 0x20
    else if Has(counts, 0x10) then 0x10
    else if Has(counts, 0x8) then 0x8
    else if Has(counts, 0x4) then 0x4
    else if Has(counts, 0x2) then 0x2
    else SAMPLE_COUNT_1_BIT
  }

  // ---------------------------------------------------------------- formats

  /** The features of `props` for `tiling` include all of `features`. Only the
      linear and optimal tilings are ever accepted. */
  predicate TilingSupports(props: FormatProperties, tiling: Tiling, features: bv32)
  {
    (tiling == Linear && Covers(props.linearTilingFeatures, features))
    || (tiling == Optimal && Covers(props.optimalTilingFeatures, features))
  }

  /** findSupportedFormat: the first candidate whose features for the given
      tiling include the requested ones; throws when there is none. */
  method FindSupportedFormat(candidates: seq<Format>, properties: Format -> FormatProperties, tiling: Tiling, features: bv32)
    returns (r: Result<Format>)
    ensures r.Err? <==> forall k :: 0 <= k < |candidates| ==> !TilingSupports(properties(candidates[k]), tiling, features)
    ensures r.Ok? ==> exists k :: 0 <= k < |candidates| && r.value == candidates[k]
                        && TilingSupports(properties(candidates[k]), tiling, features)
                        && forall j :: 0 <= j < k ==> !TilingSupports(properties(candidates[j]), tiling, features)
  {
    var i := 0;
    while i < |candidates|
      invariant 0 <= i <= |candidates|
      invariant forall j :: 0 <= j < i ==> !TilingSupports(properties(candidates[j]), tiling, features)
    {
      var props := properties(candidates[i]);
      if tiling == Linear && Covers(props.linearTilingFeatures, features) {
        return Ok(candidates[i]);
      } else if tiling == Optimal && Covers(props.optimalTilingFeatures, features) {
        return Ok(candidates[i]);
      }
      i := i + 1;
    }
    return Err("failed to find supported format");
  }

  // ---------------------------------------------------------------- memory types

  /** Memory type `i` may back a resource with filter `typeFilter` and has all of `properties`. */
  predicate MemoryTypeFits(typeFilter: bv32, memoryTypes: seq<bv32>, properties: bv32, i: nat)
    requires i < |memoryTypes| <= MAX_MEMORY_TYPES
  {
    BitSet(typeFilter, i) && Covers(memoryTypes[i], properties)
  }

  /** findMemoryType: the smallest fitting memory-type index; throws when there
      is none. `memoryTypes` holds the property flags of each reported type. */
  method FindMemoryType(typeFilter: bv32, memoryTypes: seq<bv32>, properties: bv32) returns (r: Result<nat>)
    requires |memoryTypes| <= MAX_MEMORY_TYPES
    ensures r.Err? <==> forall i :: 0 <= i < |memoryTypes| ==> !MemoryTypeFits(typeFilter, memoryTypes, properties, i)
    ensures r.Ok? ==> r.value < |memoryTypes| && MemoryTypeFits(typeFilter, memoryTypes, properties, r.value)
    ensures r.Ok? ==> forall i :: 0 <= i < r.value ==> !MemoryTypeFits(typeFilter, memoryTypes, properties, i)
  {
    var i := 0;
    while i < |memoryTypes|
      invariant 0 <= i <= |memoryTypes|
      invariant forall j :: 0 <= j < i ==> !MemoryTypeFits(typeFilter, memoryTypes, properties, j)
    {
      if typeFilter & ((1 as bv32) << i) != 0 && memoryTypes[i] & properties == properties {
        assert MemoryTypeFits(typeFilter, memoryTypes, properties, i);
        return Ok(i);
      }
      i := i + 1;
    }
    return Err("failed to find suitable memory type");
  }

  // ---------------------------------------------------------------- logical device

  /** Inserts `x` into a strictly increasing sequence, keeping it strictly
      increasing and without duplicates (insertion into a std::set). */
  function InsertSorted(x: nat, s: seq<nat>): (r: seq<nat>)
    requires forall i, j :: 0 <= i < j < |s| ==> s[i] < s[j]
    ensures forall i, j :: 0 <= i < j < |r| ==> r[i] < r[j]
    ensures forall y :: y in r <==> y == x || y in s
  {
    if s == [] then [x]
    else if x == s[0] then s
    else if x < s[0] then [x] + s
    else
      var t := InsertSorted(x, s[1..]);
      assert forall k :: 0 <= k < |t| ==> t[k] == x || t[k] in s[1..];
      [s[0]] + t
  }

  /** VkDeviceQueueCreateInfo: one queue of the family, priority 1.0. */
  datatype QueueCreateInfo = QueueCreateInfo(queueFamilyIndex: nat, queueCount: nat)

  /** The part of VkDeviceCreateInfo that the code decides. */
  datatype DeviceCreateInfo = DeviceCreateInfo(
    queueCreateInfos: seq<QueueCreateInfo>,
    enabledExtensions: seq<string>,
    samplerAnisotropy: bool,
    sampleRateShading: bool)

  /** The distinct family indices of a complete set, in the ascending order in
      which a std::set enumerates them. */
  function UniqueQueueFamilies(q: QueueFamilyIndices): (r: seq<nat>)
    requires IsComplete(q)
    ensures forall i, j :: 0 <= i < j < |r| ==> r[i] < r[j]
    ensures forall f :: f in r <==> f == q.graphicsFamily.value || f == q.presentFamily.value || f == q.computeFamily.value
  {
    InsertSorted(q.computeFamily.value, InsertSorted(q.presentFamily.value, [q.graphicsFamily.value]))
  }

  /** createLogicalDevice: one single-queue create entry per distinct family,
      the required extensions, anisotropic filtering and sample shading. */
  function CreateLogicalDeviceInfo(q: QueueFamilyIndices): (info: DeviceCreateInfo)
    requires IsComplete(q)
    ensures |info.queueCreateInfos| == |UniqueQueueFamilies(q)|
    ensures forall i :: 0 <= i < |info.queueCreateInfos| ==>
              info.queueCreateInfos[i] == QueueCreateInfo(UniqueQueueFamilies(q)[i], 1)
    ensures info.enabledExtensions == DeviceExtensions
    ensures info.samplerAnisotropy && info.sampleRateShading
  {
    var families := UniqueQueueFamilies(q);
    DeviceCreateInfo(seq(|families|, i requires 0 <= i < |families| => QueueCreateInfo(families[i], 1)), DeviceExtensions, true, true)
  }

  /** When graphics, present and compute share a family a single queue-create entry remains. */
  lemma SharedFamilyGivesOneQueue(f: nat)
    ensures |CreateLogicalDeviceInfo(QueueFamilyIndices(Some(f), Some(f), Some(f))).queueCreateInfos| == 1
  {
  }

  /** Device `k` is the one pickPhysicalDevice settles on: every earlier
      device was examined without a throw and found unsuitable. */
  ghost predicate FirstSuitable(devices: seq<PhysicalDevice>, k: nat)
  {
    k < |devices|
    && (forall j :: 0 <= j < k ==> !ScanFails(devices[j].queueFamilies) && !Suitable(devices[j]))
    && !ScanFails(devices[k].queueFamilies) && Suitable(devices[k])
  }

  /** A throw while examining device `i` means no device is the first suitable one. */
  lemma NoFirstSuitableAfterThrow(devices: seq<PhysicalDevice>, i: nat)
    requires i < |devices| && ScanFails(devices[i].queueFamilies)
    requires forall j :: 0 <= j < i ==> !ScanFails(devices[j].queueFamilies) && !Suitable(devices[j])
    ensures forall k: nat :: !FirstSuitable(devices, k)
  {
  }

  // ---------------------------------------------------------------- the device object

  /** The selection state of a VulkanDevice: the chosen physical device (an
      index into the enumerated list; None is VK_NULL_HANDLE), its MSAA sample
      count, its queue family indices and what the logical device is created
      with (None until createLogicalDevice runs). */
  class VulkanDevice {
    var physicalDevice: Option<nat>
    var msaaSamples: bv32
    var familyIndices: QueueFamilyIndices
    var deviceInfo: Option<DeviceCreateInfo>

    /** The constructor's first step, the sample count, before
        pickPhysicalDevice runs; NewVulkanDevice runs the whole constructor. */
    constructor ()
      ensures physicalDevice == None && msaaSamples == SAMPLE_COUNT_1_BIT && familyIndices == NoFamilies
      ensures deviceInfo == None
    {
      physicalDevice := None;
      msaaSamples := SAMPLE_COUNT_1_BIT;
      familyIndices := NoFamilies;
      deviceInfo := None;
    }

    /** createLogicalDevice, for the families pickPhysicalDevice found. */
    method CreateLogicalDevice()
      requires IsComplete(familyIndices)
      modifies this
      ensures familyIndices == old(familyIndices)
      ensures physicalDevice == old(physicalDevice) && msaaSamples == old(msaaSamples)
      ensures deviceInfo == Some(CreateLogicalDeviceInfo(familyIndices))
    {
      deviceInfo := Some(CreateLogicalDeviceInfo(familyIndices));
    }

    /** pickPhysicalDevice */
    method PickPhysicalDevice(devices: seq<PhysicalDevice>) returns (r: Outcome)
      requires physicalDevice == None
      modifies this
      ensures |devices| == 0 ==> r.Fail? && unchanged(this)
      ensures deviceInfo == old(deviceInfo)
      ensures r.Fail? ==> physicalDevice == None && msaaSamples == old(msaaSamples)
                          && familyIndices == old(familyIndices)
      ensures r.Pass? <==> exists k :: FirstSuitable(devices, k)
      ensures r.Pass? ==> physicalDevice.Some? && FirstSuitable(devices, physicalDevice.value)
      ensures r.Pass? ==> msaaSamples == GetMaxUsableSampleCount(devices[physicalDevice.value])
      ensures r.Pass? ==> familyIndices == IndicesAfter(devices[physicalDevice.value].queueFamilies,
                                                         StopLength(devices[physicalDevice.value].queueFamilies))
    {
      if |devices| == 0 {
        return Fail("failed to find GPUs with Vulkan support");
      }
      var i := 0;
      while i < |devices|
        invariant 0 <= i <= |devices|
        invariant physicalDevice == None
        invariant deviceInfo == old(deviceInfo)
        invariant msaaSamples == old(msaaSamples) && familyIndices == old(familyIndices)
        invariant forall j :: 0 <= j < i ==> !ScanFails(devices[j].queueFamilies) && !Suitable(devices[j])
      {
        var suitable := IsDeviceSuitable(devices[i]);
        if suitable.Err? {
          NoFirstSuitableAfterThrow(devices, i);
          return Fail(suitable.reason);
        }
        if suitable.value {
          physicalDevice := Some(i);
          msaaSamples := GetMaxUsableSampleCount(devices[i]);
          var indices := FindQueueFamilies(devices[i].queueFamilies);
          familyIndices := indices.value;
          assert FirstSuitable(devices, i);
          break;
        }
        i := i + 1;
      }
      if physicalDevice == None {
        assert forall k: nat :: !FirstSuitable(devices, k);
        return Fail("failed to find a suitable GPU");
      }
      assert FirstSuitable(devices, physicalDevice.value);
      return Pass;
    }
  }

  /** The VulkanDevice constructor: the sample count, then pickPhysicalDevice,
      then createLogicalDevice. A throw from pickPhysicalDevice leaves the
      caller without a device, and no logical device is created. */
  method NewVulkanDevice(devices: seq<PhysicalDevice>) returns (d: VulkanDevice, r: Outcome)
    ensures fresh(d)
    ensures r.Pass? <==> exists k :: FirstSuitable(devices, k)
    ensures r.Pass? ==> d.physicalDevice.Some? && FirstSuitable(devices, d.physicalDevice.value)
    ensures r.Pass? ==> d.msaaSamples == GetMaxUsableSampleCount(devices[d.physicalDevice.value])
    ensures r.Pass? ==> d.familyIndices == IndicesAfter(devices[d.physicalDevice.value].queueFamilies,
                                                        StopLength(devices[d.physicalDevice.value].queueFamilies))
    ensures r.Pass? ==> IsComplete(d.familyIndices) && d.deviceInfo == Some(CreateLogicalDeviceInfo(d.familyIndices))
    ensures r.Fail? ==> d.physicalDevice == None && d.deviceInfo == None
  {
    d := new VulkanDevice();
    r := d.PickPhysicalDevice(devices);
    if r.Pass? {
      d.CreateLogicalDevice();
    }
  }
}
