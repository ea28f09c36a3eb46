// Image helpers (source/vulkan/VulkanImage.cpp): view creation, the image
// type an image is created with, layout-transition barriers, and the
// mip-chain arithmetic and recorded commands of mipmap generation.

module Image {
  import opened Common
  import Device

  // ---------------------------------------------------------------- constants

  const FORMAT_R8G8B8A8_SRGB: int := 43
  const FORMAT_B8G8R8A8_UNORM: int := 44
  const FORMAT_R32G32B32A32_SFLOAT: int := 109
  const FORMAT_D32_SFLOAT: int := 126
  const FORMAT_D24_UNORM_S8_UINT: int := 129
  const FORMAT_D32_SFLOAT_S8_UINT: int := 130

  const ASPECT_COLOR_BIT: bv32 := 0x1
  const ASPECT_DEPTH_BIT: bv32 := 0x2
  const ASPECT_STENCIL_BIT: bv32 := 0x4

  const ACCESS_NONE: bv32 := 0
  const ACCESS_SHADER_READ_BIT: bv32 := 0x20
  const ACCESS_DEPTH_STENCIL_ATTACHMENT_READ_BIT: bv32 := 0x200
  const ACCESS_DEPTH_STENCIL_ATTACHMENT_WRITE_BIT: bv32 := 0x400
  const ACCESS_TRANSFER_READ_BIT: bv32 := 0x800
  const ACCESS_TRANSFER_WRITE_BIT: bv32 := 0x1000

  const STAGE_TOP_OF_PIPE_BIT: bv32 := 0x1
  const STAGE_FRAGMENT_SHADER_BIT: bv32 := 0x80
  const STAGE_EARLY_FRAGMENT_TESTS_BIT: bv32 := 0x100
  const STAGE_TRANSFER_BIT: bv32 := 0x1000
  const STAGE_ALL_COMMANDS_BIT: bv32 := 0x10000

  const FORMAT_FEATURE_SAMPLED_IMAGE_FILTER_LINEAR_BIT: bv32 := 0x1000

  /** VkImageLayout; `Other` stands for every layout the code never names. */
  datatype Layout =
    | Undefined | General | ColorAttachmentOptimal | DepthStencilAttachmentOptimal
    | ShaderReadOnlyOptimal | TransferSrcOptimal | TransferDstOptimal
    | AttachmentOptimal | PresentSrc | Other(value: int)

  datatype ImageType = Image2D | Image3D
  datatype ViewType = View2D | View3D

  // ---------------------------------------------------------------- views and images

  /** VkImageViewCreateInfo as createImageView fills it. */
  datatype ImageViewInfo = ImageViewInfo(
    image: nat, viewType: ViewType, format: int, aspectMask: bv32,
    baseMipLevel: nat, levelCount: nat, baseArrayLayer: nat, layerCount: nat)

  /** createImageView: a 3D view exactly for images deeper than one slice,
      covering every mip level of the single array layer. */
  function CreateImageView(image: nat, format: int, aspectFlags: bv32, mipLevels: nat, depth: nat): (v: ImageViewInfo)
    ensures v.viewType == View3D <==> depth > 1
    ensures v.image == image && v.format == format && v.aspectMask == aspectFlags
    ensures v.baseMipLevel == 0 && v.levelCount == mipLevels
    ensures v.baseArrayLayer == 0 && v.layerCount == 1
  {
    ImageViewInfo(image, if depth > 1 then View3D else View2D, format, aspectFlags, 0, mipLevels, 0, 1)
  }

  /** The image type CreateImage chooses: 2D exactly when the depth is 1. */
  function ImageTypeFor(depth: nat): (t: ImageType)
    ensures t == Image2D <==> depth == 1
  {
    if depth == 1 then Image2D else Image3D
  }

  /** The view created for an image agrees with the image's own type for every
      real depth; only a depth of 0 creates a 3D image behind a 2D view. */
  lemma ViewTypeMatchesImageType(depth: nat)
    ensures depth >= 1 ==> (CreateImageView(0, 0, 0, 1, depth).viewType == View3D <==> ImageTypeFor(depth) == Image3D)
    ensures depth == 0 ==> CreateImageView(0, 0, 0, 1, depth).viewType == View2D && ImageTypeFor(depth) == Image3D
  {
  }

  /** VkImageCreateInfo, the fields the code chooses. */
  datatype ImageCreateInfo = ImageCreateInfo(
    imageType: ImageType, width: nat, height: nat, depth: nat, mipLevels: nat,
    arrayLayers: nat, format: int, tiling: Device.Tiling, usage: bv32,
    samples: bv32, initialLayout: Layout)

  /** A VulkanImage: the image it was created from, its view, and the format
      and mip-level count it records. `handle` names the VkImage. */
  class VulkanImage {
    var format: int
    var mipLevels: nat
    var imageInfo: Option<ImageCreateInfo>
    var memoryTypeIndex: Option<nat>
    var imageView: Option<ImageViewInfo>
    const handle: nat

    /** The object before CreateImage has run: only the VkImage handle is known. */
    constructor (handle: nat)
      ensures this.handle == handle
      ensures imageInfo == None && memoryTypeIndex == None && imageView == None
    {
      this.handle := handle;
      format := 0;
      mipLevels := 0;
      imageInfo := None;
      memoryTypeIndex := None;
      imageView := None;
    }

    /** CreateImage. `memoryTypeBits` is the image's memory requirement and
        `memoryTypes` the device's memory types; the memory-type search may
        throw, after the image itself and the recorded format and level count
        are set, and before the view exists. */
    method CreateImage(width: nat, height: nat, depth: nat, mipLevels: nat, numSamples: bv32, format: int,
                       tiling: Device.Tiling, usage: bv32, properties: bv32, aspectFlags: bv32,
                       memoryTypeBits: bv32, memoryTypes: seq<bv32>)
      returns (r: Outcome)
      requires |memoryTypes| <= Device.MAX_MEMORY_TYPES
      modifies this
      ensures this.format == format && this.mipLevels == mipLevels
      ensures imageInfo == Some(ImageCreateInfo(ImageTypeFor(depth), width, height, depth, mipLevels, 1,
                                                format, tiling, usage, numSamples, Undefined))
      ensures r.Fail? <==> forall i :: 0 <= i < |memoryTypes| ==> !Device.MemoryTypeFits(memoryTypeBits, memoryTypes, properties, i)
      ensures r.Fail? ==> memoryTypeIndex == old(memoryTypeIndex) && imageView == old(imageView)
      ensures r.Pass? ==> memoryTypeIndex.Some? && memoryTypeIndex.value < |memoryTypes|
                          && Device.MemoryTypeFits(memoryTypeBits, memoryTypes, properties, memoryTypeIndex.value)
      ensures r.Pass? ==> forall i :: 0 <= i < memoryTypeIndex.value ==> !Device.MemoryTypeFits(memoryTypeBits, memoryTypes, properties, i)
      ensures r.Pass? ==> imageView == Some(CreateImageView(handle, format, aspectFlags, mipLevels, depth))
    {
      var imageType := ImageTypeFor(depth);
      this.format := format;
      this.mipLevels := mipLevels;
      imageInfo := Some(ImageCreateInfo(imageType, width, height, depth, mipLevels, 1, format, tiling, usage, numSamples, Undefined));
      var typeIndex := Device.FindMemoryType(memoryTypeBits, memoryTypes, properties);
      if typeIndex.Err? {
        return Fail(typeIndex.reason);
      }
      memoryTypeIndex := Some(typeIndex.value);
      imageView := Some(CreateImageView(handle, format, aspectFlags, mipLevels, depth));
      return Pass;
    }
  }

  /** The VulkanImage constructor that creates its own image: the object is
      made around `handle`, the VkImage that vkCreateImage returns, and
      CreateImage runs on it. A throw from CreateImage leaves the caller
      without the object. */
  method NewVulkanImage(handle: nat, width: nat, height: nat, mipLevels: nat, numSamples: bv32, format: int,
                        tiling: Device.Tiling, usage: bv32, properties: bv32, aspectFlags: bv32, depth: nat,
                        memoryTypeBits: bv32, memoryTypes: seq<bv32>)
    returns (img: VulkanImage, r: Outcome)
    requires |memoryTypes| <= Device.MAX_MEMORY_TYPES
    ensures fresh(img) && img.handle == handle
    ensures img.format == format && img.mipLevels == mipLevels
    ensures img.imageInfo == Some(ImageCreateInfo(ImageTypeFor(depth), width, height, depth, mipLevels, 1,
                                                  format, tiling, usage, numSamples, Undefined))
    ensures r.Fail? <==> forall i :: 0 <= i < |memoryTypes| ==> !Device.MemoryTypeFits(memoryTypeBits, memoryTypes, properties, i)
    ensures r.Fail? ==> img.memoryTypeIndex == None && img.imageView == None
    ensures r.Pass? ==> img.memoryTypeIndex.Some? && img.memoryTypeIndex.value < |memoryTypes|
                        && Device.MemoryTypeFits(memoryTypeBits, memoryTypes, properties, img.memoryTypeIndex.value)
                        && forall i :: 0 <= i < img.memoryTypeIndex.value ==> !Device.MemoryTypeFits(memoryTypeBits, memoryTypes, properties, i)
    ensures r.Pass? ==> img.imageView == Some(CreateImageView(handle, format, aspectFlags, mipLevels, depth))
  {
    img := new VulkanImage(handle);
    r := img.CreateImage(width, height, depth, mipLevels, numSamples, format, tiling, usage, properties, aspectFlags,
                         memoryTypeBits, memoryTypes);
  }

  // ---------------------------------------------------------------- layout transitions

  /** Of the depth formats the renderer picks from, only the two with an 8-bit
      stencil part carry a stencil aspect; the pure 32-bit float depth does not. */
  predicate HasStencilComponent(format: int): (b: bool)
    ensures b <==> format in {FORMAT_D32_SFLOAT_S8_UINT, FORMAT_D24_UNORM_S8_UINT}
    ensures b ==> format != FORMAT_D32_SFLOAT
  {
    format == FORMAT_D32_SFLOAT_S8_UINT || format == FORMAT_D24_UNORM_S8_UINT
  }

  /** The aspect of the image a transition to `newLayout` covers. */
  function AspectMask(format: int, newLayout: Layout): (m: bv32)
    ensures Has(m, ASPECT_DEPTH_BIT) <==> newLayout == DepthStencilAttachmentOptimal
    ensures Has(m, ASPECT_STENCIL_BIT) <==> newLayout == DepthStencilAttachmentOptimal && HasStencilComponent(format)
    ensures Has(m, ASPECT_COLOR_BIT) <==> newLayout != DepthStencilAttachmentOptimal
    ensures m & !(ASPECT_COLOR_BIT | ASPECT_DEPTH_BIT | ASPECT_STENCIL_BIT) == 0
  {
    if newLayout == DepthStencilAttachmentOptimal then
      var depth := ASPECT_DEPTH_BIT;
      if HasStencilComponent(format) then depth | ASPECT_STENCIL_BIT else depth
    else
      ASPECT_COLOR_BIT
  }

  /** VkImageMemoryBarrier with the two pipeline stages of vkCmdPipelineBarrier. */
  datatype ImageBarrier = ImageBarrier(
    oldLayout: Layout, newLayout: Layout, aspectMask: bv32,
    baseMipLevel: nat, levelCount: nat, baseArrayLayer: nat, layerCount: nat,
    srcAccessMask: bv32, dstAccessMask: bv32, srcStage: bv32, dstStage: bv32)

  /** The only layout changes TransitionImageLayout supports. */
  predicate SupportedTransition(oldLayout: Layout, newLayout: Layout)
  {
    (oldLayout == Undefined && newLayout == TransferDstOptimal)
    || (oldLayout == TransferDstOptimal && newLayout == ShaderReadOnlyOptimal)
    || (oldLayout == Undefined && newLayout == DepthStencilAttachmentOptimal)
    || (oldLayout == Undefined && newLayout == General)
  }

  /** TransitionImageLayout: the barrier it records for a supported pair, and
      the invalid-argument throw for every other pair. */
  function TransitionImageLayout(format: int, oldLayout: Layout, newLayout: Layout, mipLevels: nat): (r: Result<ImageBarrier>)
    ensures r.Ok? <==> SupportedTransition(oldLayout, newLayout)
    ensures r.Ok? ==> r.value.oldLayout == oldLayout && r.value.newLayout == newLayout
    ensures r.Ok? ==> r.value.aspectMask == AspectMask(format, newLayout)
    ensures r.Ok? ==> r.value.baseMipLevel == 0 && r.value.levelCount == mipLevels
                      && r.value.baseArrayLayer == 0 && r.value.layerCount == 1
    // nothing has to be made visible out of an image whose contents are undefined
    ensures r.Ok? ==> (r.value.srcAccessMask == ACCESS_NONE <==> oldLayout == Undefined)
    ensures r.Ok? && newLayout == TransferDstOptimal ==>
              r.value.dstAccessMask == ACCESS_TRANSFER_WRITE_BIT && r.value.dstStage == STAGE_TRANSFER_BIT
    ensures r.Ok? && newLayout == ShaderReadOnlyOptimal ==>
              r.value.dstAccessMask == ACCESS_SHADER_READ_BIT && r.value.dstStage == STAGE_FRAGMENT_SHADER_BIT
    ensures r.Ok? && newLayout == DepthStencilAttachmentOptimal ==>
              r.value.dstAccessMask == ACCESS_DEPTH_STENCIL_ATTACHMENT_READ_BIT | ACCESS_DEPTH_STENCIL_ATTACHMENT_WRITE_BIT
              && r.value.dstStage == STAGE_EARLY_FRAGMENT_TESTS_BIT
    ensures r.Ok? && newLayout == General ==> r.value.dstAccessMask == ACCESS_NONE && r.value.dstStage == STAGE_ALL_COMMANDS_BIT
    ensures r.Ok? && oldLayout == Undefined ==>
              r.value.srcStage == (if newLayout == General then STAGE_ALL_COMMANDS_BIT else STAGE_TOP_OF_PIPE_BIT)
    ensures r.Ok? && oldLayout == TransferDstOptimal ==>
              r.value.srcAccessMask == ACCESS_TRANSFER_WRITE_BIT && r.value.srcStage == STAGE_TRANSFER_BIT
  {
    var aspect := AspectMask(format, newLayout);
    if oldLayout == Undefined && newLayout == TransferDstOptimal then
      Ok(ImageBarrier(oldLayout, newLayout, aspect, 0, mipLevels, 0, 1,
                      ACCESS_NONE, ACCESS_TRANSFER_WRITE_BIT, STAGE_TOP_OF_PIPE_BIT, STAGE_TRANSFER_BIT))
    else if oldLayout == TransferDstOptimal && newLayout == ShaderReadOnlyOptimal then
      Ok(ImageBarrier(oldLayout, newLayout, aspect, 0, mipLevels, 0, 1,
                      ACCESS_TRANSFER_WRITE_BIT, ACCESS_SHADER_READ_BIT, STAGE_TRANSFER_BIT, STAGE_FRAGMENT_SHADER_BIT))
    else if oldLayout == Undefined && newLayout == DepthStencilAttachmentOptimal then
      Ok(ImageBarrier(oldLayout, newLayout, aspect, 0, mipLevels, 0, 1,
                      ACCESS_NONE, ACCESS_DEPTH_STENCIL_ATTACHMENT_READ_BIT | ACCESS_DEPTH_STENCIL_ATTACHMENT_WRITE_BIT,
                      STAGE_TOP_OF_PIPE_BIT, STAGE_EARLY_FRAGMENT_TESTS_BIT))
    else if oldLayout == Undefined && newLayout == General then
      Ok(ImageBarrier(oldLayout, newLayout, aspect, 0, mipLevels, 0, 1,
                      ACCESS_NONE, ACCESS_NONE, STAGE_ALL_COMMANDS_BIT, STAGE_ALL_COMMANDS_BIT))
    else
      Err("unsupported layout transition")
  }

  /** The texture upload path: UNDEFINED into TRANSFER_DST, copy, then into
      SHADER_READ_ONLY. Both steps are supported, and the second barrier waits
      for exactly the access and stage the first one opened for the copy. */
  lemma UploadTransitionsChain(format: int, mipLevels: nat)
    ensures TransitionImageLayout(format, Undefined, TransferDstOptimal, mipLevels).Ok?
    ensures TransitionImageLayout(format, TransferDstOptimal, ShaderReadOnlyOptimal, mipLevels).Ok?
    ensures var first := TransitionImageLayout(format, Undefined, TransferDstOptimal, mipLevels).value;
            var second := TransitionImageLayout(format, TransferDstOptimal, ShaderReadOnlyOptimal, mipLevels).value;
            second.oldLayout == first.newLayout
            && second.srcAccessMask == first.dstAccessMask && second.srcStage == first.dstStage
  {
  }

  /** A transition never returns to where it came from and never leaves a layout
      other than UNDEFINED or TRANSFER_DST. */
  lemma TransitionSources(format: int, oldLayout: Layout, newLayout: Layout, mipLevels: nat)
    requires TransitionImageLayout(format, oldLayout, newLayout, mipLevels).Ok?
    ensures oldLayout != newLayout
    ensures oldLayout == Undefined || oldLayout == TransferDstOptimal
  {
  }

  // ---------------------------------------------------------------- mip chain

  function Pow2(k: nat): (p: nat)
    ensures p >= 1
  {
    if k == 0 then 1 else 2 * Pow2(k - 1)
  }

  /** The number of binary digits of `n`: floor(log2(n)) + 1 for n >= 1. */
  function BitLength(n: nat): (r: nat)
    ensures n >= 1 ==> r >= 1 && Pow2(r - 1) <= n < Pow2(r)
    ensures n == 0 ==> r == 0
  {
    if n == 0 then 0 else 1 + BitLength(n / 2)
  }

  /** The mip-level count of a loaded texture: 1 for EXR images, otherwise the
      full chain floor(log2(max(w, h))) + 1. The logarithm of 0 has no integer
      value, so a non-EXR texture must have a non-zero side. */
  function MipLevelCount(isEXR: bool, texWidth: nat, texHeight: nat): (levels: nat)
    requires isEXR || texWidth >= 1 || texHeight >= 1
    ensures levels >= 1
    ensures isEXR ==> levels == 1
    ensures !isEXR ==> var m := if texWidth >= texHeight then texWidth else texHeight;
                       Pow2(levels - 1) <= m < Pow2(levels)
  {
    if isEXR then 1 else BitLength(if texWidth >= texHeight then texWidth else texHeight)
  }

  /** `if (x > 1) x /= 2;`, the update of mipWidth / mipHeight. */
  function Halve(x: int): int
  {
    if x > 1 then x / 2 else x
  }

  /** `x > 1 ? x / 2 : 1`, the destination extent of a blit. */
  function BlitTarget(x: int): (t: int)
    ensures t >= 1
    ensures x >= 1 ==> t == Halve(x)
  {
    if x > 1 then x / 2 else 1
  }

  /** The value mipWidth / mipHeight holds at iteration `level`. */
  function MipExtent(x: int, level: nat): int
  {
    if level == 0 then x else Halve(MipExtent(x, level - 1))
  }

  lemma {:induction false} MipExtentPositive(x: int, level: nat)
    requires x >= 1
    ensures MipExtent(x, level) >= 1
  {
    if level > 0 {
      MipExtentPositive(x, level - 1);
    }
  }

  /** A full chain ends at one texel: the side that decided the level count is
      halved to exactly 1 at the last level and is larger than 1 before it. */
  lemma {:induction false} FullChainEndsAtOneTexel(n: nat, level: nat)
    requires n >= 1 && level < BitLength(n)
    ensures MipExtent(n, level) == 1 <==> level == BitLength(n) - 1
  {
    if level == 0 {
      assert MipExtent(n, 0) == n;
      if n == 1 {
      } else {
        assert BitLength(n / 2) >= 1;
      }
    } else {
      HalveThenExtent(n, level);
      FullChainEndsAtOneTexel(n / 2, level - 1);
    }
  }

  datatype MipCommand =
    | Barrier(level: nat, oldLayout: Layout, newLayout: Layout, srcAccessMask: bv32, dstAccessMask: bv32, srcStage: bv32, dstStage: bv32)
    | Blit(srcLevel: nat, srcWidth: int, srcHeight: int, dstLevel: nat, dstWidth: int, dstHeight: int)

  /** The three commands iteration `i` records while the current level sizes are `w` x `h`. */
  function MipIteration(i: nat, w: int, h: int): seq<MipCommand>
    requires i >= 1
  {
    [ Barrier(i - 1, TransferDstOptimal, TransferSrcOptimal, ACCESS_TRANSFER_WRITE_BIT, ACCESS_TRANSFER_READ_BIT, STAGE_TRANSFER_BIT, STAGE_TRANSFER_BIT),
      Blit(i - 1, w, h, i, BlitTarget(w), BlitTarget(h)),
      Barrier(i - 1, TransferSrcOptimal, ShaderReadOnlyOptimal, ACCESS_TRANSFER_READ_BIT, ACCESS_SHADER_READ_BIT, STAGE_TRANSFER_BIT, STAGE_FRAGMENT_SHADER_BIT) ]
  }

  /** Iterations `i` up to `mipLevels - 1`, starting from sizes `w` x `h`. */
  function MipIterations(i: nat, mipLevels: nat, w: int, h: int): seq<MipCommand>
    requires i >= 1
    decreases mipLevels - i
  {
    if i >= mipLevels then [] else MipIteration(i, w, h) + MipIterations(i + 1, mipLevels, Halve(w), Halve(h))
  }

  /** Everything GenerateMipmaps records for a texture of `w` x `h` with `mipLevels` levels. */
  function MipmapCommands(w: int, h: int, mipLevels: nat): seq<MipCommand>
    requires mipLevels >= 1
  {
    MipIterations(1, mipLevels, w, h)
    + [Barrier(mipLevels - 1, TransferDstOptimal, ShaderReadOnlyOptimal, ACCESS_TRANSFER_WRITE_BIT, ACCESS_SHADER_READ_BIT, STAGE_TRANSFER_BIT, STAGE_FRAGMENT_SHADER_BIT)]
  }

  /** GenerateMipmaps: throws unless the format supports linear filtering with
      optimal tiling; otherwise records the blit chain. A level count of 0 is
      never passed (the count is at least 1 by construction). */
  method GenerateMipmaps(formatProperties: Device.FormatProperties, texWidth: int, texHeight: int, mipLevels: nat)
    returns (r: Result<seq<MipCommand>>)
    requires mipLevels >= 1
    ensures r.Err? <==> !Has(formatProperties.optimalTilingFeatures, FORMAT_FEATURE_SAMPLED_IMAGE_FILTER_LINEAR_BIT)
    ensures r.Ok? ==> r.value == MipmapCommands(texWidth, texHeight, mipLevels)
  {
    if !Has(formatProperties.optimalTilingFeatures, FORMAT_FEATURE_SAMPLED_IMAGE_FILTER_LINEAR_BIT) {
      return Err("texture image format does not support linear blitting");
    }
    var commands: seq<MipCommand> := [];
    var mipWidth := texWidth;
    var mipHeight := texHeight;
    var i := 1;
    while i < mipLevels
      invariant 1 <= i <= mipLevels
      invariant commands + MipIterations(i, mipLevels, mipWidth, mipHeight) == MipIterations(1, mipLevels, texWidth, texHeight)
    {
      commands := commands + [Barrier(i - 1, TransferDstOptimal, TransferSrcOptimal, ACCESS_TRANSFER_WRITE_BIT, ACCESS_TRANSFER_READ_BIT, STAGE_TRANSFER_BIT, STAGE_TRANSFER_BIT)];
      commands := commands + [Blit(i - 1, mipWidth, mipHeight, i, if mipWidth > 1 then mipWidth / 2 else 1, if mipHeight > 1 then mipHeight / 2 else 1)];
      commands := commands + [Barrier(i - 1, TransferSrcOptimal, ShaderReadOnlyOptimal, ACCESS_TRANSFER_READ_BIT, ACCESS_SHADER_READ_BIT, STAGE_TRANSFER_BIT, STAGE_FRAGMENT_SHADER_BIT)];
      if mipWidth > 1 { mipWidth := mipWidth / 2; }
      if mipHeight > 1 { mipHeight := mipHeight / 2; }
      i := i + 1;
    }
    commands := commands + [Barrier(mipLevels - 1, TransferDstOptimal, ShaderReadOnlyOptimal, ACCESS_TRANSFER_WRITE_BIT, ACCESS_SHADER_READ_BIT, STAGE_TRANSFER_BIT, STAGE_FRAGMENT_SHADER_BIT)];
    return Ok(commands);
  }

  /** The levels, in recording order, that a barrier moves into SHADER_READ_ONLY. */
  function ShaderReadLevels(cmds: seq<MipCommand>): seq<nat>
  {
    if cmds == [] then []
    else (if cmds[0].Barrier? && cmds[0].newLayout == ShaderReadOnlyOptimal then [cmds[0].level] else [])
         + ShaderReadLevels(cmds[1..])
  }

  lemma {:induction false} ShaderReadLevelsAppend(a: seq<MipCommand>, b: seq<MipCommand>)
    ensures ShaderReadLevels(a + b) == ShaderReadLevels(a) + ShaderReadLevels(b)
  {
    if a == [] {
      assert a + b == b;
    } else {
      assert (a + b)[0] == a[0];
      assert (a + b)[1..] == a[1..] + b;
      ShaderReadLevelsAppend(a[1..], b);
    }
  }

  /** The levels i - 1, i, ..., n - 1 in order. */
  function LevelRange(lo: nat, hi: nat): (r: seq<nat>)
    ensures |r| == if lo <= hi then hi - lo else 0
    ensures forall k :: 0 <= k < |r| ==> r[k] == lo + k
    decreases hi - lo
  {
    if lo >= hi then [] else [lo] + LevelRange(lo + 1, hi)
  }

  lemma {:induction false} IterationsReachShaderRead(i: nat, mipLevels: nat, w: int, h: int)
    requires 1 <= i && 1 <= mipLevels
    ensures ShaderReadLevels(MipIterations(i, mipLevels, w, h)) == LevelRange(i - 1, mipLevels - 1)
    decreases mipLevels - i
  {
    if i < mipLevels {
      var head := MipIteration(i, w, h);
      ShaderReadLevelsAppend(head, MipIterations(i + 1, mipLevels, Halve(w), Halve(h)));
      assert ShaderReadLevels(head) == [i - 1] by {
        assert head[1..][1..][1..] == [];
        assert ShaderReadLevels(head[1..][1..]) == [i - 1];
        assert ShaderReadLevels(head[1..]) == [i - 1];
      }
      IterationsReachShaderRead(i + 1, mipLevels, Halve(w), Halve(h));
    }
  }

  /** Every one of the `mipLevels` levels is moved into SHADER_READ_ONLY
      exactly once, in ascending order. */
  lemma EveryLevelReachesShaderReadOnce(w: int, h: int, mipLevels: nat)
    requires mipLevels >= 1
    ensures ShaderReadLevels(MipmapCommands(w, h, mipLevels)) == LevelRange(0, mipLevels)
  {
    var final := [Barrier(mipLevels - 1, TransferDstOptimal, ShaderReadOnlyOptimal, ACCESS_TRANSFER_WRITE_BIT, ACCESS_SHADER_READ_BIT, STAGE_TRANSFER_BIT, STAGE_FRAGMENT_SHADER_BIT)];
    ShaderReadLevelsAppend(MipIterations(1, mipLevels, w, h), final);
    IterationsReachShaderRead(1, mipLevels, w, h);
    assert ShaderReadLevels(final) == [mipLevels - 1] by {
      assert final[1..] == [];
    }
  }

  /** Blit `k` of a chain reads level k at the size blit k - 1 wrote, and
      writes level k + 1 at that size halved but never below 1. */
  lemma {:induction false} BlitExtents(w: int, h: int, mipLevels: nat, k: nat)
    requires w >= 1 && h >= 1 && k + 1 < mipLevels
    ensures 3 * k + 1 < |MipmapCommands(w, h, mipLevels)|
    ensures MipmapCommands(w, h, mipLevels)[3 * k + 1]
            == Blit(k, MipExtent(w, k), MipExtent(h, k), k + 1, BlitTarget(MipExtent(w, k)), BlitTarget(MipExtent(h, k)))
    ensures MipExtent(w, k + 1) == BlitTarget(MipExtent(w, k)) && MipExtent(h, k + 1) == BlitTarget(MipExtent(h, k))
  {
    IterationAt(1, mipLevels, w, h, k);
    MipExtentPositive(w, k);
    MipExtentPositive(h, k);
  }

  lemma {:induction false} IterationAt(i: nat, mipLevels: nat, w: int, h: int, k: nat)
    requires 1 <= i && i + k < mipLevels
    ensures |MipIterations(i, mipLevels, w, h)| == 3 * (mipLevels - i)
    ensures MipIterations(i, mipLevels, w, h)[3 * k + 1]
            == Blit(i + k - 1, MipExtent(w, k), MipExtent(h, k), i + k, BlitTarget(MipExtent(w, k)), BlitTarget(MipExtent(h, k)))
    decreases k
  {
    IterationsLength(i, mipLevels, w, h);
    if k > 0 {
      IterationAt(i + 1, mipLevels, Halve(w), Halve(h), k - 1);
      HalveThenExtent(w, k);
      HalveThenExtent(h, k);
    }
  }

  lemma {:induction false} IterationsLength(i: nat, mipLevels: nat, w: int, h: int)
    requires 1 <= i
    ensures |MipIterations(i, mipLevels, w, h)| == if i < mipLevels then 3 * (mipLevels - i) else 0
    decreases mipLevels - i
  {
    if i < mipLevels {
      IterationsLength(i + 1, mipLevels, Halve(w), Halve(h));
    }
  }

  /** Halving first and then `k - 1` times is halving `k` times. */
  lemma {:induction false} HalveThenExtent(x: int, k: nat)
    requires k >= 1
    ensures MipExtent(Halve(x), k - 1) == MipExtent(x, k)
  {
    if k > 1 {
      HalveThenExtent(x, k - 1);
    }
  }
}
