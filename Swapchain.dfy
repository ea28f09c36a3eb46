// Swap-chain configuration (source/vulkan/vulkan_swapchain.cpp): surface
// format, present mode, extent and image count selection, the sharing mode,
// and the image views made for the images the driver hands back.

module Swapchain {
  import opened Common
  import Device
  import Image

  const COLOR_SPACE_SRGB_NONLINEAR: int := 0

  const PRESENT_MODE_IMMEDIATE: int := 0
  const PRESENT_MODE_MAILBOX: int := 1
  const PRESENT_MODE_FIFO: int := 2

  const IMAGE_USAGE_COLOR_ATTACHMENT_BIT: bv32 := 0x10
  const COMPOSITE_ALPHA_OPAQUE_BIT: bv32 := 0x1

  datatype SharingMode = Exclusive | Concurrent

  /** VkExtent2D: two uint32_t sides. */
  datatype Extent2D = Extent2D(width: int, height: int)

  predicate ExtentIsU32(e: Extent2D) { IsU32(e.width) && IsU32(e.height) }

  /** VkSurfaceCapabilitiesKHR, the fields the swap chain reads. */
  datatype SurfaceCapabilities = SurfaceCapabilities(
    minImageCount: int, maxImageCount: int,
    currentExtent: Extent2D, minImageExtent: Extent2D, maxImageExtent: Extent2D,
    currentTransform: bv32)

  predicate CapabilitiesAreU32(caps: SurfaceCapabilities)
  {
    IsU32(caps.minImageCount) && IsU32(caps.maxImageCount)
    && ExtentIsU32(caps.currentExtent) && ExtentIsU32(caps.minImageExtent) && ExtentIsU32(caps.maxImageExtent)
  }

  /** SwapChainSupportDetails */
  datatype SupportDetails = SupportDetails(
    capabilities: SurfaceCapabilities,
    formats: seq<Device.SurfaceFormat>,
    presentModes: seq<int>)

  // ---------------------------------------------------------------- surface format

  predicate IsPreferredFormat(f: Device.SurfaceFormat)
  {
    f.format == Image.FORMAT_B8G8R8A8_UNORM && f.colorSpace == COLOR_SPACE_SRGB_NONLINEAR
  }

  /** `f` is an offered format; the preferred one whenever it is offered, else the first. */
  predicate FormatChoice(availableFormats: seq<Device.SurfaceFormat>, f: Device.SurfaceFormat)
    requires |availableFormats| > 0
  {
    f in availableFormats
    && ((exists k :: 0 <= k < |availableFormats| && IsPreferredFormat(availableFormats[k])) ==> IsPreferredFormat(f))
    && ((forall k :: 0 <= k < |availableFormats| ==> !IsPreferredFormat(availableFormats[k])) ==> f == availableFormats[0])
  }

  /** chooseSwapSurfaceFormat: the first B8G8R8A8_UNORM / SRGB_NONLINEAR entry,
      else the first entry. Reading the first entry of an empty list is
      undefined, so the list must not be empty; a suitable device always
      reports at least one format. */
  method ChooseSwapSurfaceFormat(availableFormats: seq<Device.SurfaceFormat>) returns (f: Device.SurfaceFormat)
    requires |availableFormats| > 0
    ensures FormatChoice(availableFormats, f)
  {
    var i := 0;
    while i < |availableFormats|
      invariant 0 <= i <= |availableFormats|
      invariant forall k :: 0 <= k < i ==> !IsPreferredFormat(availableFormats[k])
    {
      if availableFormats[i].format == Image.FORMAT_B8G8R8A8_UNORM && availableFormats[i].colorSpace == COLOR_SPACE_SRGB_NONLINEAR {
        return availableFormats[i];
      }
      i := i + 1;
    }
    return availableFormats[0];
  }

  // ---------------------------------------------------------------- present mode

  predicate ModeChoice(availablePresentModes: seq<int>, mode: int)
  {
    (mode == PRESENT_MODE_MAILBOX <==> PRESENT_MODE_MAILBOX in availablePresentModes)
    && (mode == PRESENT_MODE_MAILBOX || mode == PRESENT_MODE_FIFO)
  }

  /** chooseSwapPresentMode: MAILBOX when offered, otherwise FIFO, which every
      implementation supports. */
  method ChooseSwapPresentMode(availablePresentModes: seq<int>) returns (mode: int)
    ensures ModeChoice(availablePresentModes, mode)
  {
    var i := 0;
    while i < |availablePresentModes|
      invariant 0 <= i <= |availablePresentModes|
      invariant PRESENT_MODE_MAILBOX !in availablePresentModes[..i]
    {
      if availablePresentModes[i] == PRESENT_MODE_MAILBOX {
        return availablePresentModes[i];
      }
      assert availablePresentModes[..i + 1] == availablePresentModes[..i] + [availablePresentModes[i]];
      i := i + 1;
    }
    assert availablePresentModes[..i] == availablePresentModes;
    return PRESENT_MODE_FIFO;
  }

  // ---------------------------------------------------------------- extent

  /** static_cast<uint32_t> of an int: two's-complement reinterpretation. */
  function ToU32(x: int): (r: int)
    ensures IsU32(r)
    ensures 0 <= x <= U32_MAX ==> r == x
    ensures x < 0 && x >= -(U32_MAX + 1) ==> r == x + U32_MAX + 1
  {
    x % (U32_MAX + 1)
  }

  /** std::clamp(v, lo, hi), defined only when lo <= hi. */
  function Clamp(v: int, lo: int, hi: int): (r: int)
    requires lo <= hi
    ensures lo <= r <= hi
    ensures lo <= v <= hi ==> r == v
    ensures v < lo ==> r == lo
    ensures hi < v ==> r == hi
  {
    if v < lo then lo else if hi < v then hi else v
  }

  /** The surface leaves the extent to the application: width UINT32_MAX. */
  predicate ExtentIsFree(caps: SurfaceCapabilities)
  {
    caps.currentExtent.width == U32_MAX
  }

  /** The bounds std::clamp needs when the application picks the extent. */
  predicate ClampBoundsOrdered(caps: SurfaceCapabilities)
  {
    caps.minImageExtent.width <= caps.maxImageExtent.width
    && caps.minImageExtent.height <= caps.maxImageExtent.height
  }

  /** chooseSwapExtent: the surface's current extent when it fixes one; else the
      window size, converted to uint32_t and clamped into the supported range. */
  function ChooseSwapExtent(caps: SurfaceCapabilities, width: int, height: int): (e: Extent2D)
    requires ExtentIsFree(caps) ==> ClampBoundsOrdered(caps)
    ensures !ExtentIsFree(caps) ==> e == caps.currentExtent
    ensures ExtentIsFree(caps) ==>
              caps.minImageExtent.width <= e.width <= caps.maxImageExtent.width
              && caps.minImageExtent.height <= e.height <= caps.maxImageExtent.height
    ensures ExtentIsFree(caps) && caps.minImageExtent.width <= ToU32(width) <= caps.maxImageExtent.width ==> e.width == ToU32(width)
    ensures ExtentIsFree(caps) && caps.minImageExtent.height <= ToU32(height) <= caps.maxImageExtent.height ==> e.height == ToU32(height)
    ensures ExtentIsFree(caps) && ToU32(width) < caps.minImageExtent.width ==> e.width == caps.minImageExtent.width
    ensures ExtentIsFree(caps) && caps.maxImageExtent.width < ToU32(width) ==> e.width == caps.maxImageExtent.width
    ensures ExtentIsFree(caps) && ToU32(height) < caps.minImageExtent.height ==> e.height == caps.minImageExtent.height
    ensures ExtentIsFree(caps) && caps.maxImageExtent.height < ToU32(height) ==> e.height == caps.maxImageExtent.height
  {
    if !ExtentIsFree(caps) then
      caps.currentExtent
    else
      Extent2D(Clamp(ToU32(width), caps.minImageExtent.width, caps.maxImageExtent.width),
               Clamp(ToU32(height), caps.minImageExtent.height, caps.maxImageExtent.height))
  }

  /** A negative window side is reinterpreted as a huge unsigned value, so it
      is clamped to the maximum rather than the minimum. */
  lemma NegativeSideClampsToMaximum(caps: SurfaceCapabilities, width: int, height: int)
    requires CapabilitiesAreU32(caps) && ExtentIsFree(caps) && ClampBoundsOrdered(caps)
    requires -(U32_MAX + 1) <= width < 0
    requires caps.maxImageExtent.width < U32_MAX + 1 + width
    ensures ChooseSwapExtent(caps, width, height).width == caps.maxImageExtent.width
  {
  }

  // ---------------------------------------------------------------- image count

  /** The requested image count: one more than the minimum (uint32_t addition),
      lowered to the maximum when there is one; a maximum of 0 means none. A
      minimum of UINT32_MAX wraps the sum to 0, which no maximum lowers. */
  function RequestedImageCount(caps: SurfaceCapabilities): (n: int)
    requires IsU32(caps.minImageCount) && IsU32(caps.maxImageCount)
    ensures IsU32(n)
    ensures caps.maxImageCount > 0 ==> n <= caps.maxImageCount
    ensures (caps.minImageCount < U32_MAX && (caps.maxImageCount == 0 || caps.minImageCount + 1 <= caps.maxImageCount))
            ==> n == caps.minImageCount + 1
    ensures caps.minImageCount < U32_MAX && 0 < caps.maxImageCount < caps.minImageCount + 1 ==> n == caps.maxImageCount
    ensures caps.minImageCount == U32_MAX ==> n == 0
  {
    var count := Add32(caps.minImageCount, 1);
    if caps.maxImageCount > 0 && count > caps.maxImageCount then caps.maxImageCount else count
  }

  /** For capabilities a driver may report (minimum at most the maximum unless
      there is no maximum) the request never drops below the minimum. */
  lemma RequestedCountWithinLimits(caps: SurfaceCapabilities)
    requires IsU32(caps.minImageCount) && IsU32(caps.maxImageCount) && caps.minImageCount < U32_MAX
    requires caps.maxImageCount == 0 || caps.minImageCount <= caps.maxImageCount
    ensures caps.minImageCount <= RequestedImageCount(caps)
    ensures caps.maxImageCount > 0 ==> RequestedImageCount(caps) <= caps.maxImageCount
    ensures caps.maxImageCount == 0 ==> RequestedImageCount(caps) == caps.minImageCount + 1
  {
  }

  // ---------------------------------------------------------------- create info

  /** VkSwapchainCreateInfoKHR, the fields the code chooses. */
  datatype SwapchainCreateInfo = SwapchainCreateInfo(
    minImageCount: int, imageFormat: int, imageColorSpace: int, imageExtent: Extent2D,
    imageArrayLayers: nat, imageUsage: bv32,
    imageSharingMode: SharingMode, queueFamilyIndices: seq<nat>,
    preTransform: bv32, compositeAlpha: bv32, presentMode: int, clipped: bool)

  /** The sharing mode and family list: concurrent across the graphics and
      present families when they differ, otherwise exclusive with no list. */
  function SharingFor(graphicsFamily: nat, presentFamily: nat): (s: (SharingMode, seq<nat>))
    ensures s.0 == Concurrent <==> graphicsFamily != presentFamily
    ensures s.0 == Concurrent ==> s.1 == [graphicsFamily, presentFamily]
    ensures s.0 == Exclusive ==> s.1 == []
  {
    if graphicsFamily != presentFamily then (Concurrent, [graphicsFamily, presentFamily]) else (Exclusive, [])
  }

  /** Whatever the families, a family list is only passed with concurrent sharing
      and then names two distinct families. */
  lemma ConcurrentListsTwoDistinctFamilies(g: nat, p: nat)
    ensures var s := SharingFor(g, p);
            (s.0 == Concurrent ==> |s.1| == 2 && s.1[0] != s.1[1]) && (s.0 == Exclusive ==> |s.1| == 0)
  {
  }

  // ---------------------------------------------------------------- the swap chain object

  /** A VulkanSwapChain after construction. `createInfo` is what was passed to
      vkCreateSwapchainKHR; `images` are the handles the driver returned. */
  class SwapChain {
    const createInfo: SwapchainCreateInfo
    var minImageCount: int
    var imageCount: nat
    var images: seq<nat>
    var imageFormat: int
    var extent: Extent2D
    var imageViews: array<Image.ImageViewInfo>

    /** The constructor. `support` answers querySwapChainSupport, `indices` are
        the device's family indices and `returnedImages` the images
        vkGetSwapchainImagesKHR reports; a failing swap-chain creation is not
        modelled. */
    constructor (support: SupportDetails, indices: Device.QueueFamilyIndices, width: int, height: int,
                 returnedImages: seq<nat>)
      requires CapabilitiesAreU32(support.capabilities)
      requires ExtentIsFree(support.capabilities) ==> ClampBoundsOrdered(support.capabilities)
      requires indices.graphicsFamily.Some? && indices.presentFamily.Some?
      requires |support.formats| > 0
      ensures minImageCount == support.capabilities.minImageCount
      ensures createInfo.minImageCount == RequestedImageCount(support.capabilities)
      ensures createInfo.imageExtent == ChooseSwapExtent(support.capabilities, width, height)
      ensures FormatChoice(support.formats, Device.SurfaceFormat(createInfo.imageFormat, createInfo.imageColorSpace))
      ensures ModeChoice(support.presentModes, createInfo.presentMode)
      ensures (createInfo.imageSharingMode, createInfo.queueFamilyIndices)
              == SharingFor(indices.graphicsFamily.value, indices.presentFamily.value)
      ensures createInfo.imageArrayLayers == 1 && createInfo.imageUsage == IMAGE_USAGE_COLOR_ATTACHMENT_BIT
      ensures createInfo.preTransform == support.capabilities.currentTransform
      ensures createInfo.compositeAlpha == COMPOSITE_ALPHA_OPAQUE_BIT && createInfo.clipped
      ensures imageCount == |returnedImages| && images == returnedImages
      ensures imageFormat == createInfo.imageFormat && extent == createInfo.imageExtent
      ensures fresh(imageViews) && imageViews.Length == |images|
      ensures forall i :: 0 <= i < imageViews.Length ==>
                imageViews[i] == Image.CreateImageView(images[i], imageFormat, Image.ASPECT_COLOR_BIT, 1, 1)
    {
      var caps := support.capabilities;
      var chosenFormat := ChooseSwapSurfaceFormat(support.formats);
      var chosenMode := ChooseSwapPresentMode(support.presentModes);
      var chosenExtent := ChooseSwapExtent(caps, width, height);
      var sharing := SharingFor(indices.graphicsFamily.value, indices.presentFamily.value);
      createInfo := SwapchainCreateInfo(RequestedImageCount(caps), chosenFormat.format, chosenFormat.colorSpace,
                                        chosenExtent, 1, IMAGE_USAGE_COLOR_ATTACHMENT_BIT, sharing.0, sharing.1,
                                        caps.currentTransform, COMPOSITE_ALPHA_OPAQUE_BIT, chosenMode, true);
      minImageCount := caps.minImageCount;
      imageCount := |returnedImages|;
      images := returnedImages;
      imageFormat := chosenFormat.format;
      extent := chosenExtent;
      var views := new Image.ImageViewInfo[|returnedImages|];
      var i := 0;
      while i < views.Length
        invariant 0 <= i <= views.Length
        invariant forall k :: 0 <= k < i ==>
                    views[k] == Image.CreateImageView(returnedImages[k], chosenFormat.format, Image.ASPECT_COLOR_BIT, 1, 1)
      {
        views[i] := Image.CreateImageView(returnedImages[i], chosenFormat.format, Image.ASPECT_COLOR_BIT, 1, 1);
        i := i + 1;
      }
      imageViews := views;
    }
  }
}
