// The per-image command buffers recorded by Renderer::createCommandBuffers
// (source/vulkan/renderer.cpp): the look-up-table dispatches, the four
// subpasses of the HDR back-buffer render pass and the post-process
// dispatches, with the barriers and timestamp writes between them, and the
// read-back of the timestamp query pool in the frame loop.
//
// A command buffer is the log of vkCmd* calls recorded into it. The
// functions below give, for any recorded log, what a later command sees:
// the bound pipeline, the current render pass and subpass, the barrier
// recorded since the last dispatch or draw, and the query-pool operations.

module Recording {
  import opened Common
  import RenderPass
  import Terrain

  /** queryCount of each image's timestamp pool (createQuerryPool). */
  const QUERY_COUNT: nat := 30
  /** FrameData::timestamps: 60 64-bit words. */
  const TIMESTAMP_WORDS: nat := 60

  const STAGE_VERTEX_SHADER: bv32 := 0x8
  const STAGE_COMPUTE_SHADER: bv32 := 0x800
  const STAGE_BOTTOM_OF_PIPE: bv32 := 0x2000
  const ACCESS_SHADER_READ: bv32 := 0x20
  const ACCESS_SHADER_WRITE: bv32 := 0x40

  datatype Pipeline =
    | TransmittanceLUT | MultiscatteringLUT | SkyViewLUT | AEPerspectiveLUT
    | Graphics(pass: RenderPass.GraphicsPipeline)
    | Histogram | SumHistogram | FinalPass

  datatype PassId = HdrBackbufferPass | FinalRenderPass

  datatype Command =
    | BindPipeline(pipeline: Pipeline)
    | BindSets(count: nat)
    | ResetQueryPool(firstQuery: nat, queryCount: nat)
    | WriteTimestamp(stage: bv32, query: nat)
    | Dispatch(x: nat, y: nat, z: nat)
    | Barrier(srcStage: bv32, dstStage: bv32, srcAccess: bv32, dstAccess: bv32)
    | BeginRenderPass(renderPass: PassId)
    | NextSubpass
    | BindVertexBuffer
    | BindIndexBuffer
    | Draw(vertexCount: nat)
    | DrawIndexed(indexCount: nat)
    | EndRenderPass

  /** The shader-write to shader-read memory barrier between compute dispatches. */
  const ComputeBarrier: Command :=
    Barrier(STAGE_COMPUTE_SHADER, STAGE_COMPUTE_SHADER, ACCESS_SHADER_WRITE, ACCESS_SHADER_READ)

  /** The barrier that makes the summed histogram visible to the final pass. */
  const ComputeToVertexBarrier: Command :=
    Barrier(STAGE_COMPUTE_SHADER, STAGE_VERTEX_SHADER, ACCESS_SHADER_WRITE, ACCESS_SHADER_READ)

  predicate IsWork(c: Command)
  {
    c.Dispatch? || c.Draw? || c.DrawIndexed?
  }

  // ---------------------------------------------------------------- recorded state

  /** A log in recording order: `Then(before, last)` is `before` followed by `last`. */
  datatype Log<T> = Empty | Then(before: Log<T>, last: T)

  function Length<T>(l: Log<T>): nat
  {
    if l.Empty? then 0 else Length(l.before) + 1
  }

  /** `a` followed by `b`. */
  function Concat<T>(a: Log<T>, b: Log<T>): (r: Log<T>)
    ensures Length(r) == Length(a) + Length(b)
  {
    if b.Empty? then a else Then(Concat(a, b.before), b.last)
  }

  /** An operation on the query pool. */
  datatype QueryOp = Reset(first: nat, count: nat) | Write(query: nat)

  /** One dispatch or draw and the state it was recorded under. */
  datatype WorkItem = WorkItem(
    command: Command,
    pipeline: Option<Pipeline>,
    renderPass: Option<PassId>,
    subpass: nat,
    barrierBefore: Option<Command>,
    timedBy: Option<nat>)

  /** What recording has established so far: the query-pool operations in
      order, the pipeline bound last, the render pass open and its current
      subpass, the barrier recorded after the last dispatch or draw, the
      query of a timestamp written by the command just before, and every
      dispatch and draw in order. */
  datatype Tracked = Tracked(
    queryOps: Log<QueryOp>,
    bound: Option<Pipeline>,
    openPass: Option<PassId>,
    subpass: nat,
    pendingBarrier: Option<Command>,
    timedBy: Option<nat>,
    work: Log<WorkItem>)

  /** The state of a freshly begun command buffer. */
  const Begun: Tracked := Tracked(Empty, None, None, 0, None, None, Empty)

  /** The effect of one command. */
  function Step(t: Tracked, c: Command): Tracked
  {
    Tracked(
      match c
      case ResetQueryPool(f, n) => Then(t.queryOps, Reset(f, n))
      case WriteTimestamp(_, q) => Then(t.queryOps, Write(q))
      case _ => t.queryOps,
      if c.BindPipeline? then Some(c.pipeline) else t.bound,
      if c.BeginRenderPass? then Some(c.renderPass) else if c.EndRenderPass? then None else t.openPass,
      if c.BeginRenderPass? then 0 else if c.NextSubpass? then t.subpass + 1 else t.subpass,
      if c.Barrier? then Some(c) else if IsWork(c) then None else t.pendingBarrier,
      if c.WriteTimestamp? then Some(c.query) else None,
      if IsWork(c) then Then(t.work, WorkItem(c, t.bound, t.openPass, t.subpass, t.pendingBarrier, t.timedBy)) else t.work)
  }

  /** The state after recording `cmds` into a freshly begun buffer. */
  function Track(cmds: Log<Command>): Tracked
  {
    match cmds
    case Empty => Begun
    case Then(before, c) => Step(Track(before), c)
  }

  /** One vkCmd* call: appending `c` changes what recording has established
      by the effect of `c` alone. */
  function Record(cmds: Log<Command>, c: Command): (r: Log<Command>)
    ensures r.Then? && r.before == cmds && r.last == c
    ensures Track(r) == Step(Track(cmds), c)
  {
    Then(cmds, c)
  }

  /** A dispatch or draw between the timestamps `query` and `query + 1`: it
      is recorded under the bound pipeline and the open subpass, timed by
      `query`, and clears the pending barrier. */
  function Timed(cmds: Log<Command>, stage: bv32, query: nat, work: Command): (r: Log<Command>)
    requires IsWork(work)
    ensures var t := Track(cmds);
      Track(r) == Tracked(
        Then(Then(t.queryOps, Write(query)), Write(query + 1)),
        t.bound, t.openPass, t.subpass, None, Some(query + 1),
        Then(t.work, WorkItem(work, t.bound, t.openPass, t.subpass, t.pendingBarrier, Some(query))))
  {
    Record(Record(Record(cmds, WriteTimestamp(stage, query)), work), WriteTimestamp(stage, query + 1))
  }

  /** One later subpass of the HDR back-buffer pass: advance to it, bind its
      pipeline and `setCount` descriptor sets, then draw the full-screen
      triangle between the timestamps `query` and `query + 1`. */
  function SubpassDraw(cmds: Log<Command>, pipeline: Pipeline, setCount: nat, query: nat): (r: Log<Command>)
    ensures var t := Track(cmds);
      Track(r) == Tracked(
        Then(Then(t.queryOps, Write(query)), Write(query + 1)),
        Some(pipeline), t.openPass, t.subpass + 1, None, Some(query + 1),
        Then(t.work, WorkItem(Draw(3), Some(pipeline), t.openPass, t.subpass + 1, t.pendingBarrier, Some(query))))
  {
    Timed(Record(Record(Record(cmds, NextSubpass), BindPipeline(pipeline)), BindSets(setCount)), STAGE_BOTTOM_OF_PIPE, query, Draw(3))
  }

  /** The query operations of two buffers submitted one after the other are
      those of the first followed by those of the second. */
  lemma {:induction false} QueryOpsAppend(a: Log<Command>, b: Log<Command>)
    ensures Track(Concat(a, b)).queryOps == Concat(Track(a).queryOps, Track(b).queryOps)
  {
    if b.Then? {
      QueryOpsAppend(a, b.before);
    }
  }

  // ---------------------------------------------------------------- query validity

  /** The queries lo, lo + 1, ..., hi - 1. */
  function RangeSet(lo: nat, hi: nat): (r: set<nat>)
    ensures forall q :: q in r <==> lo <= q < hi
    decreases hi
  {
    if hi <= lo then {} else RangeSet(lo, hi - 1) + {hi - 1}
  }

  /** The queries that were reset and not written since. */
  function Available(ops: Log<QueryOp>): set<nat>
  {
    match ops
    case Empty => {}
    case Then(before, Reset(f, n)) => Available(before) + RangeSet(f, f + n)
    case Then(before, Write(q)) => Available(before) - {q}
  }

  /** Every timestamp write targets a query that was reset and not written
      since (the Vulkan rule that a query is reset before it is used again). */
  predicate QueriesValid(ops: Log<QueryOp>)
  {
    match ops
    case Empty => true
    case Then(before, op) => QueriesValid(before) && (op.Write? ==> op.query in Available(before))
  }

  /** `ops` followed by writes of the queries lo, lo + 1, ..., hi - 1. */
  function WritesFrom(ops: Log<QueryOp>, lo: nat, hi: nat): (r: Log<QueryOp>)
    decreases hi
  {
    if hi <= lo then ops else Then(WritesFrom(ops, lo, hi - 1), Write(hi - 1))
  }

  /** Writing queries 0 .. n - 1 onto a buffer with no query operations. */
  lemma {:induction false} WritesFromEmpty(ops: Log<QueryOp>, lo: nat, hi: nat)
    requires lo <= hi
    ensures Concat(ops, WritesFrom(Empty, lo, hi)) == WritesFrom(ops, lo, hi)
    decreases hi
  {
    if lo < hi {
      WritesFromEmpty(ops, lo, hi - 1);
    }
  }

  lemma {:induction false} WritesFromSplit(ops: Log<QueryOp>, lo: nat, mid: nat, hi: nat)
    requires lo <= mid <= hi
    ensures WritesFrom(WritesFrom(ops, lo, mid), mid, hi) == WritesFrom(ops, lo, hi)
    decreases hi
  {
    if mid < hi {
      WritesFromSplit(ops, lo, mid, hi - 1);
    }
  }

  /** Writing each query of an available range once, in order, is valid and
      uses up exactly that range. */
  lemma {:induction false} WritesOfAvailableRange(ops: Log<QueryOp>, lo: nat, hi: nat)
    requires QueriesValid(ops) && lo <= hi && RangeSet(lo, hi) <= Available(ops)
    ensures QueriesValid(WritesFrom(ops, lo, hi))
    ensures Available(WritesFrom(ops, lo, hi)) == Available(ops) - RangeSet(lo, hi)
    decreases hi
  {
    if lo < hi {
      WritesOfAvailableRange(ops, lo, hi - 1);
    }
  }

  // ---------------------------------------------------------------- the three buffers

  /** What the "ComputeLUTs" buffer records: the pool reset, then the
      transmittance, multiscattering, sky-view and aerial-perspective
      dispatches, each with its own pipeline and bracketed by the timestamps
      2k and 2k + 1; a compute barrier before the multiscattering and sky-view
      dispatches (none before aerial perspective) and one at the end. */
  predicate LUTsRecorded(cmds: Log<Command>)
  {
    var t := Track(cmds);
    t.queryOps == WritesFrom(Then(Empty, Reset(0, QUERY_COUNT)), 0, 8)
    && t.work == Then(Then(Then(Then(Empty,
         WorkItem(Dispatch(32, 16, 1), Some(TransmittanceLUT), None, 0, None, Some(0))),
         WorkItem(Dispatch(32, 32, 1), Some(MultiscatteringLUT), None, 0, Some(ComputeBarrier), Some(2))),
         WorkItem(Dispatch(12, 8, 1), Some(SkyViewLUT), None, 0, Some(ComputeBarrier), Some(4))),
         WorkItem(Dispatch(1, 32, 32), Some(AEPerspectiveLUT), None, 0, None, Some(6)))
    && t.pendingBarrier == Some(ComputeBarrier)
    && t.openPass == None
  }

  method RecordComputeLUTs() returns (cmds: Log<Command>)
    ensures LUTsRecorded(cmds)
  {
    cmds := Empty;
    cmds := Record(cmds, BindPipeline(TransmittanceLUT));
    cmds := Record(cmds, BindSets(3));
    cmds := Record(cmds, ResetQueryPool(0, 30));
    ghost var reset := Then(Empty, Reset(0, QUERY_COUNT));
    cmds := Timed(cmds, STAGE_COMPUTE_SHADER, 0, Dispatch(256 / 8, 64 / 4, 1));
    assert Track(cmds).queryOps == WritesFrom(reset, 0, 2);
    cmds := Record(cmds, ComputeBarrier);
    cmds := Record(cmds, BindPipeline(MultiscatteringLUT));
    cmds := Timed(cmds, STAGE_COMPUTE_SHADER, 2, Dispatch(32, 32, 1));
    assert Track(cmds).queryOps == WritesFrom(reset, 0, 4);
    cmds := Record(cmds, ComputeBarrier);
    cmds := Record(cmds, BindPipeline(SkyViewLUT));
    cmds := Timed(cmds, STAGE_COMPUTE_SHADER, 4, Dispatch(192 / 16, 128 / 16, 1));
    assert Track(cmds).queryOps == WritesFrom(reset, 0, 6);
    cmds := Record(cmds, BindPipeline(AEPerspectiveLUT));
    cmds := Timed(cmds, STAGE_COMPUTE_SHADER, 6, Dispatch(1, 32, 32));
    cmds := Record(cmds, ComputeBarrier);
  }

  /** The indexed draw count written into the terrain subpass. */
  const TERRAIN_DRAW_COUNT: nat := 2999 * 2999 * 6

  /** What the "RenderSky" buffer records: one draw per subpass of the HDR
      back-buffer pass, bracketed by the timestamps 8 + 2k and 9 + 2k, and
      the pass closed at the end. */
  predicate SkyRecorded(cmds: Log<Command>)
  {
    var t := Track(cmds);
    t.queryOps == WritesFrom(Empty, 8, 16)
    && t.work == Then(Then(Then(Then(Empty,
         WorkItem(DrawIndexed(TERRAIN_DRAW_COUNT), Some(Graphics(RenderPass.TerrainPass)), Some(HdrBackbufferPass), 0, None, Some(8))),
         WorkItem(Draw(3), Some(Graphics(RenderPass.FarSkyPass)), Some(HdrBackbufferPass), 1, None, Some(10))),
         WorkItem(Draw(3), Some(Graphics(RenderPass.CloudsPass)), Some(HdrBackbufferPass), 2, None, Some(12))),
         WorkItem(Draw(3), Some(Graphics(RenderPass.AEPerspectivePass)), Some(HdrBackbufferPass), 3, None, Some(14)))
    && t.openPass == None
    && t.subpass == RenderPass.SUBPASS_COUNT - 1
  }

  /** The first subpass of the HDR back-buffer pass: begin the pass, bind the
      terrain pipeline, its four descriptor sets and the grid's vertex and
      index buffers, then draw the grid between the timestamps 8 and 9. */
  function TerrainSubpass(cmds: Log<Command>): (r: Log<Command>)
    ensures var t := Track(cmds);
      Track(r) == Tracked(
        Then(Then(t.queryOps, Write(8)), Write(9)),
        Some(Graphics(RenderPass.TerrainPass)), Some(HdrBackbufferPass), 0, None, Some(9),
        Then(t.work, WorkItem(DrawIndexed(TERRAIN_DRAW_COUNT), Some(Graphics(RenderPass.TerrainPass)),
                              Some(HdrBackbufferPass), 0, t.pendingBarrier, Some(8))))
  {
    Timed(TerrainBindings(cmds), STAGE_BOTTOM_OF_PIPE, 8, DrawIndexed(2999 * 2999 * 6))
  }

  /** The pass begin and the terrain bindings: they open subpass 0 under the
      terrain pipeline and add neither a query operation nor work. */
  function TerrainBindings(cmds: Log<Command>): (r: Log<Command>)
    ensures var t := Track(cmds); var u := Track(r);
      u.queryOps == t.queryOps && u.work == t.work && u.pendingBarrier == t.pendingBarrier
      && u.bound == Some(Graphics(RenderPass.TerrainPass)) && u.openPass == Some(HdrBackbufferPass) && u.subpass == 0
  {
    Record(Record(Record(Record(Record(cmds,
      BeginRenderPass(HdrBackbufferPass)), BindPipeline(Graphics(RenderPass.TerrainPass))),
      BindSets(4)), BindVertexBuffer), BindIndexBuffer)
  }

  /** The three later subpasses of the HDR back-buffer pass: far sky, clouds
      and aerial perspective, timed by 10 .. 15. */
  function SkySubpasses(cmds: Log<Command>): (r: Log<Command>)
    ensures var t := Track(cmds); var u := Track(r);
      u.queryOps == WritesFrom(t.queryOps, 10, 16)
      && u.work == Then(Then(Then(t.work,
           WorkItem(Draw(3), Some(Graphics(RenderPass.FarSkyPass)), t.openPass, t.subpass + 1, t.pendingBarrier, Some(10))),
           WorkItem(Draw(3), Some(Graphics(RenderPass.CloudsPass)), t.openPass, t.subpass + 2, None, Some(12))),
           WorkItem(Draw(3), Some(Graphics(RenderPass.AEPerspectivePass)), t.openPass, t.subpass + 3, None, Some(14)))
      && u.openPass == t.openPass && u.subpass == t.subpass + 3
  {
    var far := SubpassDraw(cmds, Graphics(RenderPass.FarSkyPass), 4, 10);
    var clouds := SubpassDraw(far, Graphics(RenderPass.CloudsPass), 6, 12);
    assert Track(clouds).queryOps == WritesFrom(Track(cmds).queryOps, 10, 14);
    SubpassDraw(clouds, Graphics(RenderPass.AEPerspectivePass), 4, 14)
  }

  method RecordRenderSky() returns (cmds: Log<Command>)
    ensures SkyRecorded(cmds)
  {
    cmds := TerrainSubpass(Empty);
    assert Track(cmds).queryOps == WritesFrom(Empty, 8, 10);
    cmds := SkySubpasses(cmds);
    WritesFromSplit(Empty, 8, 10, 16);
    cmds := Record(cmds, EndRenderPass);
  }

  /** What the "PostProcess" buffer records: the histogram dispatch over
      16 x 16 tiles of the extent, a compute barrier, the histogram sum, a
      compute-to-vertex barrier, then the final pass; timed by 16 .. 21. */
  predicate PostRecorded(cmds: Log<Command>, width: nat, height: nat)
  {
    var t := Track(cmds);
    t.queryOps == WritesFrom(Empty, 16, 22)
    && t.work == Then(Then(Then(Empty,
         WorkItem(Dispatch(width / 16, height / 16, 1), Some(Histogram), None, 0, None, Some(16))),
         WorkItem(Dispatch(1, 1, 1), Some(SumHistogram), None, 0, Some(ComputeBarrier), Some(18))),
         WorkItem(Draw(3), Some(FinalPass), Some(FinalRenderPass), 0, Some(ComputeToVertexBarrier), Some(20)))
    && t.openPass == None
  }

  method RecordPostProcess(width: nat, height: nat) returns (cmds: Log<Command>)
    ensures PostRecorded(cmds, width, height)
  {
    cmds := Empty;
    cmds := Record(cmds, BindPipeline(Histogram));
    cmds := Record(cmds, BindSets(3));
    cmds := Timed(cmds, STAGE_BOTTOM_OF_PIPE, 16, Dispatch(width / 16, height / 16, 1));
    assert Track(cmds).queryOps == WritesFrom(Empty, 16, 18);
    cmds := Record(cmds, ComputeBarrier);
    cmds := Record(cmds, BindPipeline(SumHistogram));
    cmds := Record(cmds, BindSets(3));
    cmds := Timed(cmds, STAGE_BOTTOM_OF_PIPE, 18, Dispatch(1, 1, 1));
    assert Track(cmds).queryOps == WritesFrom(Empty, 16, 20);
    cmds := Record(cmds, ComputeToVertexBarrier);
    cmds := Record(cmds, BeginRenderPass(FinalRenderPass));
    cmds := Record(cmds, BindPipeline(FinalPass));
    cmds := Record(cmds, BindSets(3));
    cmds := Timed(cmds, STAGE_BOTTOM_OF_PIPE, 20, Draw(3));
    cmds := Record(cmds, EndRenderPass);
  }

  /** The three buffers of one swapchain image, keyed as the renderer keys them. */
  const BUFFER_NAMES: set<string> := {"ComputeLUTs", "RenderSky", "PostProcess"}

  predicate ImageBuffersRecorded(m: map<string, Log<Command>>, width: nat, height: nat)
  {
    m.Keys == BUFFER_NAMES
    && LUTsRecorded(m["ComputeLUTs"]) && SkyRecorded(m["RenderSky"]) && PostRecorded(m["PostProcess"], width, height)
  }

  /** createCommandBuffers: the three command buffers for every swapchain image. */
  method CreateCommandBuffers(imageCount: nat, width: nat, height: nat) returns (perImage: seq<map<string, Log<Command>>>)
    ensures |perImage| == imageCount
    ensures forall i :: 0 <= i < imageCount ==> ImageBuffersRecorded(perImage[i], width, height)
    ensures forall i :: 0 <= i < imageCount ==> perImage[i].Keys == BUFFER_NAMES
  {
    perImage := [];
    var i := 0;
    while i < imageCount
      invariant 0 <= i <= imageCount
      invariant |perImage| == i
      invariant forall k :: 0 <= k < i ==> ImageBuffersRecorded(perImage[k], width, height)
      invariant forall k :: 0 <= k < i ==> perImage[k].Keys == BUFFER_NAMES
    {
      var lut := RecordComputeLUTs();
      var sky := RecordRenderSky();
      var post := RecordPostProcess(width, height);
      var buffers := map["ComputeLUTs" := lut, "RenderSky" := sky, "PostProcess" := post];
      perImage := perImage + [buffers];
      i := i + 1;
    }
  }

  // ---------------------------------------------------------------- properties

  /** Submitted in order, the three buffers reset the whole pool once and then
      write the timestamps 0, 1, ..., 21 once each: every write targets a
      query that was reset and not yet written, and the queries 22 .. 29 are
      left unwritten. */
  lemma FrameQueriesValid(lut: Log<Command>, sky: Log<Command>, post: Log<Command>, width: nat, height: nat)
    requires LUTsRecorded(lut) && SkyRecorded(sky) && PostRecorded(post, width, height)
    ensures Track(Concat(Concat(lut, sky), post)).queryOps == WritesFrom(Then(Empty, Reset(0, QUERY_COUNT)), 0, 22)
    ensures QueriesValid(Track(Concat(Concat(lut, sky), post)).queryOps)
    ensures Available(Track(Concat(Concat(lut, sky), post)).queryOps) == RangeSet(22, QUERY_COUNT)
  {
    var reset := Then(Empty, Reset(0, QUERY_COUNT));
    QueryOpsAppend(lut, sky);
    QueryOpsAppend(Concat(lut, sky), post);
    WritesFromEmpty(WritesFrom(reset, 0, 8), 8, 16);
    WritesFromSplit(reset, 0, 8, 16);
    WritesFromEmpty(WritesFrom(reset, 0, 16), 16, 22);
    WritesFromSplit(reset, 0, 16, 22);
    assert Available(reset) == RangeSet(0, QUERY_COUNT);
    WritesOfAvailableRange(reset, 0, 22);
  }

  /** The k-th dispatch or draw of a log written timestamp first + 2k just before it. */
  predicate TimedInOrder(work: Log<WorkItem>, first: nat)
  {
    match work
    case Empty => true
    case Then(before, item) => TimedInOrder(before, first) && item.timedBy == Some(first + 2 * Length(before))
  }

  /** The k-th draw of a log is in subpass k of the HDR back-buffer pass and
      uses the pipeline created for that subpass. */
  predicate DrawsInOwnSubpass(work: Log<WorkItem>)
  {
    match work
    case Empty => true
    case Then(before, item) =>
      DrawsInOwnSubpass(before)
      && item.renderPass == Some(HdrBackbufferPass)
      && item.subpass == Length(before) < RenderPass.SUBPASS_COUNT
      && item.pipeline == Some(Graphics(RenderPass.SubpassPipeline(item.subpass)))
  }

  /** Each dispatch and draw of a frame sits between the two timestamps of
      its own pair: the LUTs use 0 .. 7, the sky pass 8 .. 15 and the post
      process 16 .. 21. */
  lemma FrameWorkIsTimed(lut: Log<Command>, sky: Log<Command>, post: Log<Command>, width: nat, height: nat)
    requires LUTsRecorded(lut) && SkyRecorded(sky) && PostRecorded(post, width, height)
    ensures TimedInOrder(Track(lut).work, 0) && Length(Track(lut).work) == 4
    ensures TimedInOrder(Track(sky).work, 8) && Length(Track(sky).work) == 4
    ensures TimedInOrder(Track(post).work, 16) && Length(Track(post).work) == 3
  {
    var w := Track(post).work;
    assert Length(w.before.before.before) == 0 && TimedInOrder(w.before.before.before, 16);
    assert Length(w.before.before) == 1 && TimedInOrder(w.before.before, 16);
    assert Length(w.before) == 2 && TimedInOrder(w.before, 16);
  }

  /** Inside the HDR back-buffer pass, the k-th draw is in subpass k and uses
      the pipeline created for that subpass, all four subpasses are drawn, and
      the pass is closed at the end of the buffer. */
  lemma SkyDrawsMatchSubpasses(cmds: Log<Command>)
    requires SkyRecorded(cmds)
    ensures DrawsInOwnSubpass(Track(cmds).work)
    ensures Length(Track(cmds).work) == RenderPass.SUBPASS_COUNT
    ensures Track(cmds).openPass == None
  {
  }

  /** The terrain draw covers exactly the indices generated for the terrain grid. */
  lemma TerrainDrawCoversGrid(cmds: Log<Command>, res: nat, rows: nat, indices: seq<nat>)
    requires SkyRecorded(cmds)
    requires res == Terrain.TERRAIN_RES && rows == res - 1 && indices == Terrain.GridIndices(res, rows)
    ensures Track(cmds).work.before.before.before.last.command == DrawIndexed(|indices|)
  {
    Terrain.DrawCountMatchesGrid(res, rows, indices);
  }

  /** The histogram dispatch covers the largest multiple of 16 pixels not
      beyond each side of the extent, so up to 15 columns and 15 rows are
      left out when a side is not a multiple of 16. */
  lemma HistogramTilesWithinExtent(cmds: Log<Command>, width: nat, height: nat)
    requires PostRecorded(cmds, width, height)
    ensures var d := Track(cmds).work.before.before.last.command;
      d.Dispatch? && d.x * 16 <= width < d.x * 16 + 16 && d.y * 16 <= height < d.y * 16 + 16
  {
  }

  // ---------------------------------------------------------------- readback

  /** vkGetQueryPoolResults with the 64-bit and availability flags: query q
      of the range writes two 64-bit words (value, availability) at byte
      q * stride of the destination. */
  datatype QueryReadback = QueryReadback(firstQuery: nat, queryCount: nat, dataSize: nat, stride: nat)

  /** Bytes written per query: a 64-bit value and a 64-bit availability word. */
  const RESULT_BYTES: nat := 16

  /** The call as written in the frame loop: 22 queries, 22 * 8 bytes, stride 0. */
  const ReadbackAsWritten: QueryReadback := QueryReadback(0, 22, 22 * 8, 0)

  /** The call with the stride of one (value, availability) pair per query. */
  const ReadbackCorrected: QueryReadback := QueryReadback(0, 22, 22 * RESULT_BYTES, RESULT_BYTES)

  /** Byte offset of query `q`'s record in the destination. */
  function RecordOffset(r: QueryReadback, q: nat): nat
  {
    q * r.stride
  }

  /** The valid-usage rules of vkGetQueryPoolResults that this call meets or
      breaks: a non-zero stride when more than one query is read, a stride
      that is a multiple of 8 for 64-bit results, records that fit dataSize,
      a destination of 60 words large enough, and queries inside the pool. */
  predicate ReadbackValid(r: QueryReadback)
  {
    (r.queryCount > 1 ==> r.stride != 0)
    && r.stride % 8 == 0
    && (r.queryCount > 0 ==> (r.queryCount - 1) * r.stride + RESULT_BYTES <= r.dataSize)
    && r.dataSize <= TIMESTAMP_WORDS * 8
    && r.firstQuery + r.queryCount <= QUERY_COUNT
  }

  /** As written, the records of queries 0 and 1 land on the same bytes and
      the call is not valid usage. */
  lemma ReadbackAsWrittenOverlaps()
    ensures RecordOffset(ReadbackAsWritten, 0) == RecordOffset(ReadbackAsWritten, 1)
    ensures !ReadbackValid(ReadbackAsWritten)
  {
  }

  /** With a stride of at least one record, distinct queries write disjoint
      records. */
  lemma {:induction false} RecordsDisjoint(r: QueryReadback, q: nat, q': nat)
    requires r.stride >= RESULT_BYTES && q < q'
    ensures RecordOffset(r, q) + RESULT_BYTES <= RecordOffset(r, q')
  {
    assert (q + 1) * r.stride == q * r.stride + r.stride;
    MulLe(q + 1, q', r.stride);
  }

  /** The corrected call is valid, reads exactly the queries a frame writes,
      puts query q's value in timestamp word 2q and its availability in word
      2q + 1, and keeps the 22 records apart. */
  lemma ReadbackCorrectedSeparatesQueries()
    ensures ReadbackValid(ReadbackCorrected)
    ensures RangeSet(ReadbackCorrected.firstQuery, ReadbackCorrected.firstQuery + ReadbackCorrected.queryCount)
            == RangeSet(0, QUERY_COUNT) - RangeSet(22, QUERY_COUNT)
    ensures forall q :: 0 <= q < 22 ==> RecordOffset(ReadbackCorrected, q) / 8 == 2 * q
    ensures forall q, q' :: 0 <= q < q' < 22 ==> RecordOffset(ReadbackCorrected, q) + RESULT_BYTES <= RecordOffset(ReadbackCorrected, q')
  {
    forall q, q' | 0 <= q < q' < 22
      ensures RecordOffset(ReadbackCorrected, q) + RESULT_BYTES <= RecordOffset(ReadbackCorrected, q')
    {
      RecordsDisjoint(ReadbackCorrected, q, q');
    }
  }
}
