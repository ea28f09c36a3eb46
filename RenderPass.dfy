// The off-screen HDR render pass built by Renderer::createRenderPass
// (source/vulkan/renderer.cpp): three attachments, four subpasses and five
// dependencies, and the subpass each graphics pipeline is created for.

module RenderPass {
  import opened Common
  import Image

  /** Attachment indices of the HDR back-buffer pass. */
  const HDR_COLOR: nat := 0
  const DEPTH_ONE: nat := 1
  const DEPTH_TWO: nat := 2

  const SUBPASS_COUNT: nat := 4

  datatype LoadOp = Clear | LoadDontCare
  datatype StoreOp = Store | StoreDontCare

  /** VkAttachmentDescription (single-sampled, stencil ignored). */
  datatype Attachment = Attachment(loadOp: LoadOp, storeOp: StoreOp, initialLayout: Image.Layout, finalLayout: Image.Layout)

  /** VkAttachmentReference */
  datatype Reference = Reference(attachment: nat, layout: Image.Layout)

  /** VkSubpassDescription: colour, input and depth/stencil references. */
  datatype Subpass = Subpass(colors: seq<Reference>, inputs: seq<Reference>, depthStencil: Option<Reference>)

  datatype SubpassRef = External | Sub(index: nat)

  /** VkSubpassDependency (every one of them is by-region). */
  datatype Dependency = Dependency(src: SubpassRef, dst: SubpassRef, srcStage: bv32, dstStage: bv32,
                                   srcAccess: bv32, dstAccess: bv32, byRegion: bool)

  const STAGE_FRAGMENT_SHADER: bv32 := 0x80
  const STAGE_EARLY_FRAGMENT_TESTS: bv32 := 0x100
  const STAGE_LATE_FRAGMENT_TESTS: bv32 := 0x200
  const STAGE_COLOR_ATTACHMENT_OUTPUT: bv32 := 0x400
  const STAGE_BOTTOM_OF_PIPE: bv32 := 0x2000

  const ACCESS_INPUT_ATTACHMENT_READ: bv32 := 0x10
  const ACCESS_COLOR_ATTACHMENT_READ: bv32 := 0x80
  const ACCESS_COLOR_ATTACHMENT_WRITE: bv32 := 0x100
  const ACCESS_DEPTH_STENCIL_ATTACHMENT_WRITE: bv32 := 0x400
  const ACCESS_MEMORY_READ: bv32 := 0x8000

  const Attachments: seq<Attachment> := [
    Attachment(Clear, Store, Image.Undefined, Image.ShaderReadOnlyOptimal),
    Attachment(Clear, StoreDontCare, Image.Undefined, Image.DepthStencilAttachmentOptimal),
    Attachment(Clear, StoreDontCare, Image.Undefined, Image.DepthStencilAttachmentOptimal)]

  const ColorRef: Reference := Reference(HDR_COLOR, Image.ColorAttachmentOptimal)
  const DepthOneWrite: Reference := Reference(DEPTH_ONE, Image.AttachmentOptimal)
  const DepthTwoWrite: Reference := Reference(DEPTH_TWO, Image.AttachmentOptimal)
  const DepthOneRead: Reference := Reference(DEPTH_ONE, Image.ShaderReadOnlyOptimal)
  const DepthTwoRead: Reference := Reference(DEPTH_TWO, Image.ShaderReadOnlyOptimal)

  /** Terrain writes depth one; the far sky reads it; the clouds read depth one
      and write depth two; aerial perspective reads depth two. */
  const Subpasses: seq<Subpass> := [
    Subpass([ColorRef], [], Some(DepthOneWrite)),
    Subpass([ColorRef], [DepthOneRead], None),
    Subpass([ColorRef], [DepthOneRead], Some(DepthTwoWrite)),
    Subpass([ColorRef], [DepthTwoRead], None)]

  const Dependencies: seq<Dependency> := [
    Dependency(External, Sub(0), STAGE_COLOR_ATTACHMENT_OUTPUT, STAGE_COLOR_ATTACHMENT_OUTPUT,
               ACCESS_COLOR_ATTACHMENT_READ | ACCESS_COLOR_ATTACHMENT_WRITE,
               ACCESS_COLOR_ATTACHMENT_READ | ACCESS_COLOR_ATTACHMENT_WRITE, true),
    Dependency(Sub(0), Sub(1), STAGE_EARLY_FRAGMENT_TESTS | STAGE_LATE_FRAGMENT_TESTS | STAGE_COLOR_ATTACHMENT_OUTPUT,
               STAGE_FRAGMENT_SHADER | STAGE_COLOR_ATTACHMENT_OUTPUT,
               ACCESS_DEPTH_STENCIL_ATTACHMENT_WRITE | ACCESS_COLOR_ATTACHMENT_WRITE,
               ACCESS_INPUT_ATTACHMENT_READ | ACCESS_COLOR_ATTACHMENT_WRITE, true),
    Dependency(Sub(1), Sub(2), STAGE_COLOR_ATTACHMENT_OUTPUT, STAGE_COLOR_ATTACHMENT_OUTPUT,
               ACCESS_COLOR_ATTACHMENT_WRITE, ACCESS_COLOR_ATTACHMENT_WRITE, true),
    Dependency(Sub(2), Sub(3), STAGE_EARLY_FRAGMENT_TESTS | STAGE_LATE_FRAGMENT_TESTS | STAGE_COLOR_ATTACHMENT_OUTPUT,
               STAGE_FRAGMENT_SHADER | STAGE_COLOR_ATTACHMENT_OUTPUT,
               ACCESS_DEPTH_STENCIL_ATTACHMENT_WRITE | ACCESS_COLOR_ATTACHMENT_WRITE,
               ACCESS_INPUT_ATTACHMENT_READ | ACCESS_COLOR_ATTACHMENT_WRITE, true),
    Dependency(Sub(3), External, STAGE_COLOR_ATTACHMENT_OUTPUT, STAGE_BOTTOM_OF_PIPE,
               ACCESS_COLOR_ATTACHMENT_READ | ACCESS_COLOR_ATTACHMENT_WRITE, ACCESS_MEMORY_READ, true)]

  // ---------------------------------------------------------------- graph queries

  /** Subpass `s` reads attachment `a` as an input attachment. */
  predicate ReadsInput(subpasses: seq<Subpass>, s: nat, a: nat)
  {
    s < |subpasses| && exists r :: r in subpasses[s].inputs && r.attachment == a
  }

  /** Subpass `s` writes attachment `a` as its depth/stencil attachment. */
  predicate WritesDepth(subpasses: seq<Subpass>, s: nat, a: nat)
  {
    s < |subpasses| && subpasses[s].depthStencil.Some? && subpasses[s].depthStencil.value.attachment == a
  }

  /** A dependency edge from subpass `w` to subpass `s`. */
  predicate Edge(deps: seq<Dependency>, w: nat, s: nat)
  {
    exists k :: 0 <= k < |deps| && deps[k].src == Sub(w) && deps[k].dst == Sub(s)
  }

  /** `path` is a chain of dependency edges. */
  predicate Chain(deps: seq<Dependency>, path: seq<nat>)
  {
    |path| >= 1 && forall k :: 0 <= k < |path| - 1 ==> Edge(deps, path[k], path[k + 1])
  }

  /** Subpass `s` is ordered after subpass `w` by a chain of dependencies. */
  ghost predicate OrderedAfter(deps: seq<Dependency>, w: nat, s: nat)
  {
    exists path :: Chain(deps, path) && |path| >= 2 && path[0] == w && path[|path| - 1] == s
  }

  /** The subpass that last writes attachment `a` as depth before subpass `s`. */
  function LastDepthWriter(subpasses: seq<Subpass>, s: nat, a: nat): (r: Option<nat>)
    requires s <= |subpasses|
    ensures r.Some? ==> r.value < s && WritesDepth(subpasses, r.value, a)
    ensures r.Some? ==> forall w :: r.value < w < s ==> !WritesDepth(subpasses, w, a)
    ensures r.None? ==> forall w :: 0 <= w < s ==> !WritesDepth(subpasses, w, a)
  {
    if s == 0 then None
    else if WritesDepth(subpasses, s - 1, a) then Some(s - 1)
    else LastDepthWriter(subpasses, s - 1, a)
  }

  lemma EdgeAt(deps: seq<Dependency>, k: nat, w: nat, s: nat)
    requires k < |deps| && deps[k].src == Sub(w) && deps[k].dst == Sub(s)
    ensures Edge(deps, w, s)
  {
  }

  /** Every depth attachment a subpass reads as input was last written by an
      earlier subpass, and a chain of dependency edges links that writer to
      the reader (the edges only, not their stage masks): depth one is written by 0 and read by 1 and 2, depth two is
      written by 2 and read by 3. */
  lemma {:induction false} DepthInputsAreWrittenEarlier(s: nat, a: nat)
    requires ReadsInput(Subpasses, s, a) && a != HDR_COLOR
    ensures LastDepthWriter(Subpasses, s, a).Some?
    ensures OrderedAfter(Dependencies, LastDepthWriter(Subpasses, s, a).value, s)
  {
    EdgeAt(Dependencies, 1, 0, 1);
    EdgeAt(Dependencies, 2, 1, 2);
    EdgeAt(Dependencies, 3, 2, 3);
    var r :| r in Subpasses[s].inputs && r.attachment == a;
    if s == 1 {
      assert r == DepthOneRead;
      assert WritesDepth(Subpasses, 0, DEPTH_ONE);
      assert Chain(Dependencies, [0, 1]);
    } else if s == 2 {
      assert r == DepthOneRead;
      assert !WritesDepth(Subpasses, 1, DEPTH_ONE);
      assert WritesDepth(Subpasses, 0, DEPTH_ONE);
      assert Chain(Dependencies, [0, 1, 2]);
    } else {
      assert s == 3 && r == DepthTwoRead;
      assert WritesDepth(Subpasses, 2, DEPTH_TWO);
      assert Chain(Dependencies, [2, 3]);
    }
  }

  /** No subpass reads the depth attachment it writes (a feedback loop). */
  lemma NoSubpassReadsItsOwnDepth(s: nat, a: nat)
    requires WritesDepth(Subpasses, s, a)
    ensures !ReadsInput(Subpasses, s, a)
  {
    if s == 2 {
      assert Subpasses[2].inputs == [DepthOneRead];
    }
  }

  /** Every internal dependency goes from a subpass to a later one, so the
      subpasses run in index order. */
  lemma DependenciesPointForward()
    ensures forall k :: 0 <= k < |Dependencies| && Dependencies[k].src.Sub? && Dependencies[k].dst.Sub? ==>
              Dependencies[k].src.index < Dependencies[k].dst.index < SUBPASS_COUNT
    ensures Edge(Dependencies, 0, 1) && Edge(Dependencies, 1, 2) && Edge(Dependencies, 2, 3)
  {
    EdgeAt(Dependencies, 1, 0, 1);
    EdgeAt(Dependencies, 2, 1, 2);
    EdgeAt(Dependencies, 3, 2, 3);
  }

  /** A read of a depth attachment uses the shader-read layout, a write the
      attachment layout; every subpass writes the HDR colour attachment. */
  lemma ReferenceLayouts()
    ensures forall s, r :: 0 <= s < |Subpasses| && r in Subpasses[s].inputs ==> r.layout == Image.ShaderReadOnlyOptimal
    ensures forall s :: 0 <= s < |Subpasses| && Subpasses[s].depthStencil.Some? ==>
              Subpasses[s].depthStencil.value.layout == Image.AttachmentOptimal
    ensures forall s :: 0 <= s < |Subpasses| ==> Subpasses[s].colors == [ColorRef]
  {
  }

  // ---------------------------------------------------------------- pipelines

  /** The graphics pipelines created against the HDR back-buffer pass. */
  datatype GraphicsPipeline = TerrainPass | FarSkyPass | CloudsPass | AEPerspectivePass

  /** The subpass index each pipeline is created with. */
  function PipelineSubpass(p: GraphicsPipeline): (s: nat)
    ensures s < SUBPASS_COUNT
  {
    match p
    case TerrainPass => 0
    case FarSkyPass => 1
    case CloudsPass => 2
    case AEPerspectivePass => 3
  }

  /** What a subpass does with depth, as its pipeline needs it: the terrain
      writes depth one, the far sky reads it, the clouds read depth one and
      write depth two, aerial perspective reads depth two. */
  lemma PipelineSubpassRoles()
    ensures WritesDepth(Subpasses, PipelineSubpass(TerrainPass), DEPTH_ONE)
    ensures ReadsInput(Subpasses, PipelineSubpass(FarSkyPass), DEPTH_ONE)
    ensures ReadsInput(Subpasses, PipelineSubpass(CloudsPass), DEPTH_ONE)
    ensures WritesDepth(Subpasses, PipelineSubpass(CloudsPass), DEPTH_TWO)
    ensures ReadsInput(Subpasses, PipelineSubpass(AEPerspectivePass), DEPTH_TWO)
  {
    assert DepthOneRead in Subpasses[1].inputs;
    assert DepthOneRead in Subpasses[2].inputs;
    assert DepthTwoRead in Subpasses[3].inputs;
  }

  /** The pipeline recorded in subpass `s`. */
  function SubpassPipeline(s: nat): (p: GraphicsPipeline)
    requires s < SUBPASS_COUNT
  {
    if s == 0 then TerrainPass else if s == 1 then FarSkyPass else if s == 2 then CloudsPass else AEPerspectivePass
  }

  /** Distinct pipelines run in distinct subpasses, and every subpass has one:
      the two maps are inverse to each other. */
  lemma PipelineSubpassIsBijective()
    ensures forall p :: SubpassPipeline(PipelineSubpass(p)) == p
    ensures forall s :: 0 <= s < SUBPASS_COUNT ==> PipelineSubpass(SubpassPipeline(s)) == s
  {
  }
}
