// The CPU side of the 3D Worley-noise generator (source/noise/worley_noise.cpp):
// the feature-point buffer layout, the point-buffer capacity, the descriptor
// set layouts and writes, the recorded compute commands and the submission.
// Random offsets, cell sizes and what the shaders compute are left out: a
// feature point is represented by the cell it was generated for.

module Worley {
  import opened Common

  /** MAX_DIV_CNT: the largest number of cells per axis a point buffer holds. */
  const MAX_DIV_CNT: nat := 50
  /** CHANNEL_CNT */
  const CHANNEL_CNT: nat := 4
  /** sizeof(glm::vec3) */
  const VEC3_SIZE: nat := 12

  // ---------------------------------------------------------------- cell index

  function Cube(n: nat): nat { n * n * n }

  /** `x + n * (y + z * n)`: the slot of cell (x, y, z) in a buffer of n^3 points. */
  function CellIndex(n: nat, x: nat, y: nat, z: nat): nat
  {
    x + n * (y + z * n)
  }

  /** The cell stored in slot `i`. */
  function CellOf(n: nat, i: nat): (c: (nat, nat, nat))
    requires n > 0
  {
    (i % n, (i / n) % n, (i / n) / n)
  }

  /** The quotient and remainder of Euclidean division are unique. */
  lemma {:induction false} DivModUnique(a: int, n: int, q: int, r: int)
    requires n > 0 && 0 <= r < n && a == q * n + r
    ensures a / n == q && a % n == r
  {
    var q', r' := a / n, a % n;
    assert a == q' * n + r';
    if q' > q {
      assert (q + 1) * n == q * n + n;
      MulLe(q + 1, q', n);
      assert false;
    }
    if q' < q {
      assert (q' + 1) * n == q' * n + n;
      MulLe(q' + 1, q, n);
      assert false;
    }
  }

  /** Euclidean division recovers the quotient and remainder it was built from. */
  lemma DivModOf(n: nat, q: nat, r: nat)
    requires 0 <= r < n
    ensures (r + n * q) / n == q && (r + n * q) % n == r
  {
    DivModUnique(r + n * q, n, q, r);
  }

  /** A value below m * n has a quotient by n below m. */
  lemma {:induction false} DivBelow(i: nat, n: nat, m: nat)
    requires n > 0 && i < m * n
    ensures i / n < m
  {
    var q := i / n;
    assert i == q * n + i % n;
    if q >= m {
      MulLe(m, q, n);
      assert false;
    }
  }

  /** Every cell of [0, n)^3 has a slot inside the buffer of n^3 points. */
  lemma {:induction false} CellIndexInRange(n: nat, x: nat, y: nat, z: nat)
    requires x < n && y < n && z < n
    ensures CellIndex(n, x, y, z) < Cube(n)
  {
    MulLe(z, n - 1, n);
    assert (n - 1) * n == n * n - n;
    assert y + z * n <= n * n - 1;
    MulLe(y + z * n, n * n - 1, n);
    assert (n * n - 1) * n == n * n * n - n;
    assert n * (y + z * n) == (y + z * n) * n;
  }

  /** Decoding the slot of a cell gives the cell back. */
  lemma {:induction false} CellOfIndex(n: nat, x: nat, y: nat, z: nat)
    requires x < n && y < n && z < n
    ensures CellOf(n, CellIndex(n, x, y, z)) == (x, y, z)
  {
    DivModOf(n, y + z * n, x);
    assert y + z * n == y + n * z;
    DivModOf(n, z, y);
  }

  /** Every slot of the buffer is the slot of the cell it decodes to. */
  lemma {:induction false} IndexOfCell(n: nat, i: nat)
    requires n > 0 && i < Cube(n)
    ensures CellOf(n, i).0 < n && CellOf(n, i).1 < n && CellOf(n, i).2 < n
    ensures CellIndex(n, CellOf(n, i).0, CellOf(n, i).1, CellOf(n, i).2) == i
  {
    var q := i / n;
    assert i == q * n + i % n;
    assert Cube(n) == (n * n) * n;
    DivBelow(i, n, n * n);
    DivBelow(q, n, n);
    var x, y, z := i % n, q % n, q / n;
    assert q == z * n + y;
    assert n * (y + z * n) == q * n;
  }

  /** Distinct cells get distinct slots, so filling every cell writes every
      slot exactly once. */
  lemma CellIndexInjective(n: nat, x: nat, y: nat, z: nat, x': nat, y': nat, z': nat)
    requires x < n && y < n && z < n && x' < n && y' < n && z' < n
    requires CellIndex(n, x, y, z) == CellIndex(n, x', y', z')
    ensures x == x' && y == y' && z == z'
  {
    CellOfIndex(n, x, y, z);
    CellOfIndex(n, x', y', z');
  }

  // ---------------------------------------------------------------- the point buffer

  /** The feature point generated for a cell (its corner plus a random offset,
      which is not modelled). */
  datatype CellPoint = CellPoint(x: nat, y: nat, z: nat)

  /** The cell (x, y, z) has been visited by the x-outer, z-inner loop nest once
      the loop has reached (cx, cy, cz). */
  predicate Visited(x: nat, y: nat, z: nat, cx: nat, cy: nat, cz: nat)
  {
    x < cx || (x == cx && y < cy) || (x == cx && y == cy && z < cz)
  }

  /** generateWorleyPointsBuffer: resizes the buffer to n^3 points and stores
      the point of cell (x, y, z) at slot x + n * (y + z * n). */
  method GenerateWorleyPointsBuffer(numDivisions: nat) returns (buffer: seq<CellPoint>)
    ensures |buffer| == Cube(numDivisions)
    ensures forall x, y, z :: 0 <= x < numDivisions && 0 <= y < numDivisions && 0 <= z < numDivisions ==>
              CellIndex(numDivisions, x, y, z) < |buffer| && buffer[CellIndex(numDivisions, x, y, z)] == CellPoint(x, y, z)
  {
    var n := numDivisions;
    var points := new CellPoint[n * n * n];
    var x := 0;
    while x < n
      invariant 0 <= x <= n
      invariant forall x', y', z' :: 0 <= x' < n && 0 <= y' < n && 0 <= z' < n && Visited(x', y', z', x, 0, 0) ==>
                  CellIndex(n, x', y', z') < points.Length && points[CellIndex(n, x', y', z')] == CellPoint(x', y', z')
    {
      var y := 0;
      while y < n
        invariant 0 <= y <= n
        invariant forall x', y', z' :: 0 <= x' < n && 0 <= y' < n && 0 <= z' < n && Visited(x', y', z', x, y, 0) ==>
                    CellIndex(n, x', y', z') < points.Length && points[CellIndex(n, x', y', z')] == CellPoint(x', y', z')
      {
        var z := 0;
        while z < n
          invariant 0 <= z <= n
          invariant forall x', y', z' :: 0 <= x' < n && 0 <= y' < n && 0 <= z' < n && Visited(x', y', z', x, y, z) ==>
                      CellIndex(n, x', y', z') < points.Length && points[CellIndex(n, x', y', z')] == CellPoint(x', y', z')
        {
          var index := CellIndex(n, x, y, z);
          CellIndexInRange(n, x, y, z);
          ghost var before := points[..];
          points[index] := CellPoint(x, y, z);
          forall x', y', z' | 0 <= x' < n && 0 <= y' < n && 0 <= z' < n && Visited(x', y', z', x, y, z + 1)
            ensures CellIndex(n, x', y', z') < points.Length && points[CellIndex(n, x', y', z')] == CellPoint(x', y', z')
          {
            if (x', y', z') != (x, y, z) {
              if CellIndex(n, x', y', z') == index {
                CellIndexInjective(n, x, y, z, x', y', z');
              }
              assert Visited(x', y', z', x, y, z);
              assert points[CellIndex(n, x', y', z')] == before[CellIndex(n, x', y', z')];
            }
          }
          z := z + 1;
        }
        y := y + 1;
      }
      x := x + 1;
    }
    buffer := points[..];
    assert forall x', y', z' :: 0 <= x' < n && 0 <= y' < n && 0 <= z' < n ==> Visited(x', y', z', n, 0, 0);
  }

  // ---------------------------------------------------------------- buffer capacity

  /** maxBufferSize: every point buffer holds MAX_DIV_CNT^3 points. */
  const MaxBufferSize: nat := MAX_DIV_CNT * MAX_DIV_CNT * MAX_DIV_CNT * VEC3_SIZE

  /** The number of bytes uploaded for `n` divisions: n^3 points. */
  function UploadSize(n: nat): nat { Cube(n) * VEC3_SIZE }

  lemma CubeMonotone(a: nat, b: nat)
    requires a <= b
    ensures Cube(a) <= Cube(b)
  {
    MulLe(a, b, a);
    MulLe(a, b, b);
    MulLe(a * a, a * b, a);
    MulLe(a * b, b * b, b);
    MulLe(a, b, a * b);
    assert a * a * a <= a * b * a;
    assert a * b * a == a * a * b;
    MulLe(a * a, b * b, b);
  }

  /** An upload fits into its point buffer exactly when the division count is
      at most MAX_DIV_CNT. */
  lemma UploadFitsIffWithinMaxDivisions(n: nat)
    ensures UploadSize(n) <= MaxBufferSize <==> n <= MAX_DIV_CNT
  {
    if n <= MAX_DIV_CNT {
      CubeMonotone(n, MAX_DIV_CNT);
    } else {
      CubeMonotone(MAX_DIV_CNT + 1, n);
      assert Cube(MAX_DIV_CNT + 1) == 132651;
    }
  }

  // ---------------------------------------------------------------- per-channel data

  /** Division counts per axis, one point buffer each (A along x, B along y, C along z). */
  datatype Divisions = Divisions(x: nat, y: nat, z: nat)

  datatype Dimensions = Dimensions(x: nat, y: nat, z: nat)

  /** WorleyNoiseCreateParams: divisions and persistence per colour channel R, G, B, A. */
  datatype CreateParams = CreateParams(divisions: seq<Divisions>, persistence: seq<real>)

  predicate ParamsWellFormed(p: CreateParams)
  {
    |p.divisions| == CHANNEL_CNT && |p.persistence| == CHANNEL_CNT
  }

  /** WorleyParamsBufferObject */
  datatype WorleyParams = WorleyParams(numDivisions: Divisions, texDimensions: Dimensions,
                                       targetChannels: seq<real>, persistence: real)

  /** MinMaxParamsBufferObject */
  datatype MinMax = MinMax(minVal: int, maxVal: int)

  /** The initial contents of every channel's min/max buffer. */
  const InitialMinMax: MinMax := MinMax(10000000, 0)

  /** What the constructor fills in for one channel. */
  datatype ChannelData = ChannelData(
    pointsA: seq<CellPoint>, pointsB: seq<CellPoint>, pointsC: seq<CellPoint>,
    uploadSizes: (nat, nat, nat), minMax: MinMax, params: WorleyParams)

  /** A point buffer of `n` divisions as generateWorleyPointsBuffer leaves it:
      slot CellIndex(n, x, y, z) holds the point of cell (x, y, z). */
  predicate HoldsCellPoints(buffer: seq<CellPoint>, n: nat)
  {
    forall x, y, z :: 0 <= x < n && 0 <= y < n && 0 <= z < n ==>
      CellIndex(n, x, y, z) < |buffer| && buffer[CellIndex(n, x, y, z)] == CellPoint(x, y, z)
  }

  /** The per-channel part of the constructor: three point buffers, the
      min/max seed, and the parameter block of channel `ch`. */
  method FillChannel(texDimensions: Dimensions, p: CreateParams, ch: nat) returns (data: ChannelData)
    requires ParamsWellFormed(p) && ch < CHANNEL_CNT
    ensures |data.pointsA| == Cube(p.divisions[ch].x) && |data.pointsB| == Cube(p.divisions[ch].y)
            && |data.pointsC| == Cube(p.divisions[ch].z)
    ensures HoldsCellPoints(data.pointsA, p.divisions[ch].x)
    ensures HoldsCellPoints(data.pointsB, p.divisions[ch].y)
    ensures HoldsCellPoints(data.pointsC, p.divisions[ch].z)
    ensures data.uploadSizes == (UploadSize(p.divisions[ch].x), UploadSize(p.divisions[ch].y), UploadSize(p.divisions[ch].z))
    ensures data.minMax == InitialMinMax
    ensures data.params == WorleyParams(p.divisions[ch], texDimensions, [1.0, 0.0, 0.0, 0.0], p.persistence[ch])
  {
    var d := p.divisions[ch];
    var a := GenerateWorleyPointsBuffer(d.x);
    var b := GenerateWorleyPointsBuffer(d.y);
    var c := GenerateWorleyPointsBuffer(d.z);
    assert HoldsCellPoints(a, d.x) && HoldsCellPoints(b, d.y) && HoldsCellPoints(c, d.z);
    data := ChannelData(a, b, c, (UploadSize(d.x), UploadSize(d.y), UploadSize(d.z)), InitialMinMax,
                        WorleyParams(d, texDimensions, [1.0, 0.0, 0.0, 0.0], p.persistence[ch]));
  }

  // ---------------------------------------------------------------- descriptor sets

  datatype DescriptorType = StorageBuffer | UniformBuffer | StorageImage

  /** VkDescriptorSetLayoutBinding (all of them are compute-stage bindings). */
  datatype LayoutBinding = LayoutBinding(binding: nat, descriptorType: DescriptorType, descriptorCount: nat)

  /** What a descriptor write points at. */
  datatype Resource =
    | PointsA(channel: nat) | PointsB(channel: nat) | PointsC(channel: nat)
    | MinMaxBuffer(channel: nat) | ParamsUBO(channel: nat)
    | ChannelImage(channel: nat) | NoiseImage

  /** VkWriteDescriptorSet; `Unset` is a value-initialised entry nobody filled. */
  datatype DescriptorWrite =
    | Unset
    | Write(dstBinding: nat, dstArrayElement: nat, descriptorType: DescriptorType, descriptorCount: nat, resource: Resource)

  /** The layout of each per-channel set, in the order the bindings are listed. */
  const ChannelLayout: seq<LayoutBinding> := [
    LayoutBinding(0, StorageBuffer, 1), LayoutBinding(1, StorageBuffer, 1), LayoutBinding(2, StorageBuffer, 1),
    LayoutBinding(4, UniformBuffer, 1), LayoutBinding(5, StorageImage, 1), LayoutBinding(3, StorageBuffer, 1)]

  /** The layout of the normalize set. */
  const NormalizeLayout: seq<LayoutBinding> := [
    LayoutBinding(0, StorageBuffer, CHANNEL_CNT), LayoutBinding(1, StorageImage, CHANNEL_CNT), LayoutBinding(2, StorageImage, 1)]

  /** The six writes that fill channel `ch`'s set. */
  function ChannelWrites(ch: nat): (w: seq<DescriptorWrite>)
    ensures |w| == 6
    ensures forall k :: 0 <= k < 6 ==> w[k].Write? && w[k].dstBinding == k && w[k].dstArrayElement == 0
  {
    [ Write(0, 0, StorageBuffer, 1, PointsA(ch)), Write(1, 0, StorageBuffer, 1, PointsB(ch)),
      Write(2, 0, StorageBuffer, 1, PointsC(ch)), Write(3, 0, StorageBuffer, 1, MinMaxBuffer(ch)),
      Write(4, 0, UniformBuffer, 1, ParamsUBO(ch)), Write(5, 0, StorageImage, 1, ChannelImage(ch)) ]
  }

  /** The write targets an element of a binding of the layout, with that binding's type. */
  predicate TargetsLayout(layout: seq<LayoutBinding>, w: DescriptorWrite)
  {
    w.Write? && w.descriptorCount == 1
    && exists b :: 0 <= b < |layout| && layout[b].binding == w.dstBinding
                   && layout[b].descriptorType == w.descriptorType && w.dstArrayElement < layout[b].descriptorCount
  }

  /** Some write fills element `e` of binding `layout[b]`. */
  predicate Covered(layout: seq<LayoutBinding>, writes: seq<DescriptorWrite>, b: nat, e: nat)
    requires b < |layout|
  {
    exists k :: 0 <= k < |writes| && writes[k].Write?
                && writes[k].dstBinding == layout[b].binding && writes[k].dstArrayElement == e
  }

  /** The writes fill every descriptor of the layout exactly once, each with the
      type its binding declares. */
  predicate FillsLayoutExactlyOnce(layout: seq<LayoutBinding>, writes: seq<DescriptorWrite>)
  {
    (forall k :: 0 <= k < |writes| ==> TargetsLayout(layout, writes[k]))
    && (forall k, l :: 0 <= k < l < |writes| ==>
          (writes[k].dstBinding, writes[k].dstArrayElement) != (writes[l].dstBinding, writes[l].dstArrayElement))
    && (forall b, e :: 0 <= b < |layout| && 0 <= e < layout[b].descriptorCount ==> Covered(layout, writes, b, e))
  }

  lemma ChannelWritesFillChannelLayout(ch: nat)
    ensures FillsLayoutExactlyOnce(ChannelLayout, ChannelWrites(ch))
  {
    var w := ChannelWrites(ch);
    assert TargetsLayout(ChannelLayout, w[0]) by { assert ChannelLayout[0].binding == 0; }
    assert TargetsLayout(ChannelLayout, w[1]) by { assert ChannelLayout[1].binding == 1; }
    assert TargetsLayout(ChannelLayout, w[2]) by { assert ChannelLayout[2].binding == 2; }
    assert TargetsLayout(ChannelLayout, w[3]) by { assert ChannelLayout[5].binding == 3; }
    assert TargetsLayout(ChannelLayout, w[4]) by { assert ChannelLayout[3].binding == 4; }
    assert TargetsLayout(ChannelLayout, w[5]) by { assert ChannelLayout[4].binding == 5; }
    forall b, e | 0 <= b < |ChannelLayout| && 0 <= e < ChannelLayout[b].descriptorCount
      ensures Covered(ChannelLayout, w, b, e)
    {
      var k := ChannelLayout[b].binding;
      assert w[k].dstBinding == k && w[k].dstArrayElement == e;
    }
  }

  /** The nine writes that fill the normalize set: the value-initialised array
      of nine entries, entries i and i + 4 filled in iteration i, then entry 8. */
  method NormalizeWrites() returns (writes: seq<DescriptorWrite>)
    ensures NormalizeWritesAre(writes)
    ensures forall k :: 0 <= k < |writes| ==> writes[k] != Unset
  {
    var a := new DescriptorWrite[2 * CHANNEL_CNT + 1](_ => Unset);
    var i := 0;
    while i < CHANNEL_CNT
      invariant 0 <= i <= CHANNEL_CNT
      invariant forall k :: 0 <= k < i ==> a[k] == Write(0, k, StorageBuffer, 1, MinMaxBuffer(k))
      invariant forall k :: CHANNEL_CNT <= k < CHANNEL_CNT + i ==> a[k] == Write(1, k - CHANNEL_CNT, StorageImage, 1, ChannelImage(k - CHANNEL_CNT))
    {
      a[i] := Write(0, i, StorageBuffer, 1, MinMaxBuffer(i));
      a[i + CHANNEL_CNT] := Write(1, i, StorageImage, 1, ChannelImage(i));
      i := i + 1;
    }
    a[2 * CHANNEL_CNT] := Write(2, 0, StorageImage, 1, NoiseImage);
    writes := a[..];
  }

  /** The contents of the normalize write array, entry by entry. */
  predicate NormalizeWritesAre(writes: seq<DescriptorWrite>)
  {
    |writes| == 2 * CHANNEL_CNT + 1
    && (forall i :: 0 <= i < CHANNEL_CNT ==> writes[i] == Write(0, i, StorageBuffer, 1, MinMaxBuffer(i)))
    && (forall i :: CHANNEL_CNT <= i < 2 * CHANNEL_CNT ==>
          writes[i] == Write(1, i - CHANNEL_CNT, StorageImage, 1, ChannelImage(i - CHANNEL_CNT)))
    && writes[2 * CHANNEL_CNT] == Write(2, 0, StorageImage, 1, NoiseImage)
  }

  /** The normalize writes fill each of the four min/max buffers, the four
      channel images and the combined image exactly once. */
  lemma NormalizeWritesFillNormalizeLayout(writes: seq<DescriptorWrite>)
    requires NormalizeWritesAre(writes)
    ensures FillsLayoutExactlyOnce(NormalizeLayout, writes)
  {
    forall k | 0 <= k < |writes| ensures TargetsLayout(NormalizeLayout, writes[k]) {
      if k < CHANNEL_CNT {
        assert NormalizeLayout[0].binding == 0;
      } else if k < 2 * CHANNEL_CNT {
        assert NormalizeLayout[1].binding == 1;
      } else {
        assert NormalizeLayout[2].binding == 2;
      }
    }
    forall b, e | 0 <= b < |NormalizeLayout| && 0 <= e < NormalizeLayout[b].descriptorCount
      ensures Covered(NormalizeLayout, writes, b, e)
    {
      if b == 0 {
        assert writes[e].dstBinding == 0 && writes[e].dstArrayElement == e;
      } else if b == 1 {
        assert writes[e + CHANNEL_CNT].dstBinding == 1 && writes[e + CHANNEL_CNT].dstArrayElement == e;
      } else {
        assert writes[2 * CHANNEL_CNT].dstBinding == 2;
      }
    }
  }

  // ---------------------------------------------------------------- recorded commands

  datatype Pipeline = WorleyPipeline | NormalizePipeline
  datatype DescriptorSet = ChannelSet(channel: nat) | NormalizeSet

  const ACCESS_SHADER_READ_BIT: bv32 := 0x20
  const ACCESS_SHADER_WRITE_BIT: bv32 := 0x40
  const STAGE_COMPUTE_SHADER_BIT: bv32 := 0x800

  datatype ComputeCommand =
    | BindPipeline(pipeline: Pipeline)
    | BindSet(descriptorSet: DescriptorSet)
    | Dispatch(groupsX: nat, groupsY: nat, groupsZ: nat)
    | MemoryBarrier(srcStage: bv32, dstStage: bv32, srcAccess: bv32, dstAccess: bv32)

  /** `texDimensions / 4` per axis: one work group per 4 texels. */
  function Groups(d: Dimensions): Dispatch3 { Dispatch3(d.x / 4, d.y / 4, d.z / 4) }
  datatype Dispatch3 = Dispatch3(x: nat, y: nat, z: nat)

  function DispatchFor(d: Dimensions): ComputeCommand
  {
    Dispatch(Groups(d).x, Groups(d).y, Groups(d).z)
  }

  /** The noise command buffer, command by command. */
  predicate NoiseCommandsAre(d: Dimensions, cmds: seq<ComputeCommand>)
  {
    |cmds| == 2 * CHANNEL_CNT + 5
    && cmds[0] == BindPipeline(WorleyPipeline)
    && (forall i :: 0 <= i < CHANNEL_CNT ==>
          cmds[1 + 2 * i] == BindSet(ChannelSet(i)) && cmds[2 + 2 * i] == DispatchFor(d))
    && cmds[2 * CHANNEL_CNT + 1] == MemoryBarrier(STAGE_COMPUTE_SHADER_BIT, STAGE_COMPUTE_SHADER_BIT, ACCESS_SHADER_WRITE_BIT, ACCESS_SHADER_READ_BIT)
    && cmds[2 * CHANNEL_CNT + 2..] == [BindPipeline(NormalizePipeline), BindSet(NormalizeSet), DispatchFor(d)]
  }

  /** The recording in the constructor: the Worley pipeline, one set and one
      dispatch per channel, one compute-to-compute barrier, then the normalize
      pipeline, its set and one dispatch. */
  method RecordNoiseCommands(texDimensions: Dimensions) returns (cmds: seq<ComputeCommand>)
    ensures NoiseCommandsAre(texDimensions, cmds)
  {
    cmds := [BindPipeline(WorleyPipeline)];
    var i := 0;
    while i < CHANNEL_CNT
      invariant 0 <= i <= CHANNEL_CNT
      invariant |cmds| == 1 + 2 * i
      invariant cmds[0] == BindPipeline(WorleyPipeline)
      invariant forall k :: 0 <= k < i ==> cmds[1 + 2 * k] == BindSet(ChannelSet(k)) && cmds[2 + 2 * k] == DispatchFor(texDimensions)
    {
      cmds := cmds + [BindSet(ChannelSet(i)), Dispatch(texDimensions.x / 4, texDimensions.y / 4, texDimensions.z / 4)];
      i := i + 1;
    }
    cmds := cmds + [MemoryBarrier(STAGE_COMPUTE_SHADER_BIT, STAGE_COMPUTE_SHADER_BIT, ACCESS_SHADER_WRITE_BIT, ACCESS_SHADER_READ_BIT)];
    cmds := cmds + [BindPipeline(NormalizePipeline), BindSet(NormalizeSet), Dispatch(texDimensions.x / 4, texDimensions.y / 4, texDimensions.z / 4)];
  }

  /** The pipeline bound when command `k` runs, if any. */
  function PipelineAt(cmds: seq<ComputeCommand>, k: nat): Option<Pipeline>
    requires k <= |cmds|
  {
    if k == 0 then None
    else if cmds[k - 1].BindPipeline? then Some(cmds[k - 1].pipeline)
    else PipelineAt(cmds, k - 1)
  }

  /** The descriptor set bound when command `k` runs, if any. */
  function SetAt(cmds: seq<ComputeCommand>, k: nat): Option<DescriptorSet>
    requires k <= |cmds|
  {
    if k == 0 then None
    else if cmds[k - 1].BindSet? then Some(cmds[k - 1].descriptorSet)
    else SetAt(cmds, k - 1)
  }

  /** The set a pipeline's layout was created from: channel 0's layout for the
      Worley pipeline (all channel layouts are identical), the normalize layout
      for the normalize pipeline. */
  predicate SetMatchesPipeline(s: DescriptorSet, p: Pipeline)
  {
    (p == WorleyPipeline && s.ChannelSet? && s.channel < CHANNEL_CNT) || (p == NormalizePipeline && s == NormalizeSet)
  }

  /** The barrier lies between command `k` and command `j`. */
  predicate BarrierBetween(cmds: seq<ComputeCommand>, k: nat, j: nat)
  {
    exists b :: k < b < j && b < |cmds| && cmds[b].MemoryBarrier?
  }

  /** In the recorded noise commands every dispatch runs with a pipeline and a
      set bound that belong together; channel `i` is dispatched with its own
      set; and the normalize dispatch comes after a barrier that follows every
      channel dispatch. */
  lemma {:induction false} NoiseCommandsWellOrdered(d: Dimensions, cmds: seq<ComputeCommand>)
    requires NoiseCommandsAre(d, cmds)
    ensures forall k :: 0 <= k < |cmds| && cmds[k].Dispatch? ==>
              PipelineAt(cmds, k).Some? && SetAt(cmds, k).Some? && SetMatchesPipeline(SetAt(cmds, k).value, PipelineAt(cmds, k).value)
    ensures forall i :: 0 <= i < CHANNEL_CNT ==> SetAt(cmds, 2 + 2 * i) == Some(ChannelSet(i))
    ensures PipelineAt(cmds, |cmds| - 1) == Some(NormalizePipeline)
    ensures forall i :: 0 <= i < CHANNEL_CNT ==> BarrierBetween(cmds, 2 + 2 * i, |cmds| - 1)
  {
    var last := |cmds| - 1;
    assert cmds[last - 2] == BindPipeline(NormalizePipeline) && cmds[last - 1] == BindSet(NormalizeSet);
    assert cmds[last] == DispatchFor(d);
    forall i | 0 <= i < CHANNEL_CNT
      ensures PipelineAt(cmds, 2 + 2 * i) == Some(WorleyPipeline)
    {
      WorleyPipelineThroughChannels(d, cmds, 2 + 2 * i);
    }
    forall k | 0 <= k < |cmds|
      ensures cmds[k].Dispatch? ==>
                PipelineAt(cmds, k).Some? && SetAt(cmds, k).Some? && SetMatchesPipeline(SetAt(cmds, k).value, PipelineAt(cmds, k).value)
    {
      if 1 <= k < 2 * CHANNEL_CNT + 1 {
        var i := (k - 1) / 2;
        if k % 2 == 1 {
          assert cmds[1 + 2 * i].BindSet?;
        } else {
          assert k == 2 + 2 * i;
        }
      } else if k == last {
      }
    }
    forall i | 0 <= i < CHANNEL_CNT ensures BarrierBetween(cmds, 2 + 2 * i, |cmds| - 1) {
      assert cmds[2 * CHANNEL_CNT + 1].MemoryBarrier?;
    }
  }

  /** Up to the barrier only the Worley pipeline is bound. */
  lemma {:induction false} WorleyPipelineThroughChannels(d: Dimensions, cmds: seq<ComputeCommand>, k: nat)
    requires NoiseCommandsAre(d, cmds)
    requires 1 <= k <= 2 * CHANNEL_CNT + 1
    ensures PipelineAt(cmds, k) == Some(WorleyPipeline)
  {
    if k > 1 {
      var i := (k - 2) / 2;
      if (k - 1) % 2 == 1 {
        assert cmds[k - 1] == BindSet(ChannelSet(i));
      } else {
        assert cmds[k - 1] == DispatchFor(d);
      }
      WorleyPipelineThroughChannels(d, cmds, k - 1);
    }
  }

  // ---------------------------------------------------------------- submission

  datatype Queue = GraphicsQueue | ComputeQueue | PresentQueue

  /** A vkQueueSubmit call: the queue, the command buffers, the semaphores
      waited on and signalled, and whether a fence is attached. */
  datatype Submission = Submission(queue: Queue, commandBuffers: nat, waitSemaphores: nat, signalSemaphores: nat, fence: bool)

  /** generateNoise: one command buffer to the compute queue with nothing to
      wait on, nothing to signal and no fence; a failed submit throws.
      `submitSucceeds` is the result of vkQueueSubmit. */
  function GenerateNoise(submitSucceeds: bool): (r: Result<Submission>)
    ensures r.Ok? <==> submitSucceeds
    ensures r.Ok? ==> r.value.queue == ComputeQueue && r.value.commandBuffers == 1
                      && r.value.waitSemaphores == 0 && r.value.signalSemaphores == 0 && !r.value.fence
  {
    var submission := Submission(ComputeQueue, 1, 0, 0, false);
    if submitSucceeds then Ok(submission) else Err("failed to submit draw command buffer")
  }
}
