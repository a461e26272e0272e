/**
  The application class of main.cpp (`HelloTriangleApplication`): the result
  check used for ImGui calls, model loading with vertex deduplication, the
  texture's mip chain and its layout transitions, the per-frame descriptor
  resources, and the frame loop with its rebuild rules.

  The subsystems the application drives (swap chain, instance, physical
  device, pipeline) appear through the flags they expose and the steps the
  application asks of them; what the driver or a loader returns is a
  parameter.
 */
module Application {
  import opened Vk
  import opened VertexDedup
  import W = Window

  // ---------------------------------------------------------------------
  // CheckVulkanResult

  /** Decimal digits of `n`, as `operator<<` prints a number. */
  function NatToString(n: nat): (s: string)
    ensures |s| > 0
    ensures forall i :: 0 <= i < |s| ==> '0' <= s[i] <= '9'
  {
    var digit := [(('0' as int) + n % 10) as char];
    if n < 10 then digit else NatToString(n / 10) + digit
  }

  function IntToString(n: int): string {
    if n < 0 then "-" + NatToString(-n) else NatToString(n)
  }

  const IMGUI_ERROR_PREFIX := "vulkan error during some imgui operation: "

  /** What a call reports: how it ends, and the lines it writes to stderr. */
  datatype Reported = Reported(outcome: Outcome, stderr: seq<string>)

  /** The check ImGui runs on every Vulkan result it gets back. */
  function CheckVulkanResult(res: VkResult): (r: Reported)
    ensures r.stderr == [] <==> res == VK_SUCCESS
    ensures r.stderr != [] ==> r.stderr == [IMGUI_ERROR_PREFIX + IntToString(res) + "\n"]
    ensures r.outcome.Fail? <==> res < 0
    ensures r.outcome.Fail? ==> r.outcome.error == ""
  {
    if res == 0 then Reported(Pass, [])
    else Reported(if res < 0 then Fail("") else Pass, [IMGUI_ERROR_PREFIX + IntToString(res) + "\n"])
  }

  // ---------------------------------------------------------------------
  // loadModel

  /** The vertex format of main.cpp; equality compares all three fields. */
  datatype Vertex = Vertex(pos: (real, real, real), color: (real, real, real), texCoord: (real, real))

  /** One corner of a face in the OBJ file: where its position and its
      texture coordinate are stored. */
  datatype ObjIndex = ObjIndex(vertexIndex: int, texcoordIndex: int)

  /** The flat attribute arrays of the OBJ file: three floats per position,
      two per texture coordinate. */
  datatype Attrib = Attrib(vertices: seq<real>, texcoords: seq<real>)

  predicate Resolves(attrib: Attrib, index: ObjIndex) {
    && 0 <= index.vertexIndex && 3 * index.vertexIndex + 2 < |attrib.vertices|
    && 0 <= index.texcoordIndex && 2 * index.texcoordIndex + 1 < |attrib.texcoords|
  }

  /** Every corner of every shape refers into the attribute arrays. The OBJ
      loader does not promise this: a face written without texture
      coordinates gives the index -1, which `loadModel` reads as it is. The
      model covers only files whose corners all resolve. */
  predicate ShapesResolve(attrib: Attrib, shapes: seq<seq<ObjIndex>>) {
    forall s, k :: 0 <= s < |shapes| && 0 <= k < |shapes[s]| ==> Resolves(attrib, shapes[s][k])
  }

  /** The vertex built for one corner: white, with the texture's v axis flipped. */
  function VertexOf(attrib: Attrib, index: ObjIndex): Vertex
    requires Resolves(attrib, index)
  {
    var v, t := 3 * index.vertexIndex, 2 * index.texcoordIndex;
    Vertex((attrib.vertices[v], attrib.vertices[v + 1], attrib.vertices[v + 2]),
           (1.0, 1.0, 1.0),
           (attrib.texcoords[t], 1.0 - attrib.texcoords[t + 1]))
  }

  function ShapeVertices(attrib: Attrib, corners: seq<ObjIndex>): seq<Vertex>
    requires forall k :: 0 <= k < |corners| ==> Resolves(attrib, corners[k])
  {
    seq(|corners|, k requires 0 <= k < |corners| => VertexOf(attrib, corners[k]))
  }

  /** Reading one more corner of a shape appends its vertex. */
  lemma ReadOneMore(read: seq<Vertex>, attrib: Attrib, shape: seq<ObjIndex>, k: nat)
    requires k < |shape| && forall j :: 0 <= j < |shape| ==> Resolves(attrib, shape[j])
    ensures read + ShapeVertices(attrib, shape[..k + 1])
         == (read + ShapeVertices(attrib, shape[..k])) + [VertexOf(attrib, shape[k])]
  {
    assert ShapeVertices(attrib, shape[..k + 1]) == ShapeVertices(attrib, shape[..k]) + [VertexOf(attrib, shape[k])];
    AppendAssoc(read, ShapeVertices(attrib, shape[..k]), [VertexOf(attrib, shape[k])]);
  }

  /** Every vertex read, shape after shape. */
  function ModelVertices(attrib: Attrib, shapes: seq<seq<ObjIndex>>): seq<Vertex>
    requires ShapesResolve(attrib, shapes)
  {
    if shapes == [] then []
    else ModelVertices(attrib, shapes[..|shapes| - 1]) + ShapeVertices(attrib, shapes[|shapes| - 1])
  }

  /** The number of face corners over all shapes. */
  function TotalIndices(shapes: seq<seq<ObjIndex>>): nat {
    if shapes == [] then 0 else TotalIndices(shapes[..|shapes| - 1]) + |shapes[|shapes| - 1]|
  }

  lemma {:induction false} ModelVerticesLength(attrib: Attrib, shapes: seq<seq<ObjIndex>>)
    requires ShapesResolve(attrib, shapes)
    ensures |ModelVertices(attrib, shapes)| == TotalIndices(shapes)
  {
    if shapes != [] {
      ModelVerticesLength(attrib, shapes[..|shapes| - 1]);
    }
  }

  /** What a fresh load leaves behind: an index per corner in file order, each
      naming an equal vertex, and a duplicate-free vertex list in order of
      first appearance. */
  lemma LoadedModelDescribesFile(attrib: Attrib, shapes: seq<seq<ObjIndex>>)
    requires ShapesResolve(attrib, shapes)
    ensures var stream := ModelVertices(attrib, shapes);
      var b := Dedup(stream);
      && Describes(b, stream)
      && |b.indices| == TotalIndices(shapes)
      && forall i, j :: 0 <= i < j < |b.vertices| ==> IndexOf(stream, b.vertices[i]) < IndexOf(stream, b.vertices[j])
  {
    var stream := ModelVertices(attrib, shapes);
    DedupDescribes(stream);
    DedupFirstOccurrenceOrder(stream);
    ModelVerticesLength(attrib, shapes);
  }

  lemma DedupSnoc<V>(stream: seq<V>, v: V)
    ensures Dedup(stream + [v]) == Step(Dedup(stream), v)
  {
    assert (stream + [v])[..|stream|] == stream;
  }

  // ---------------------------------------------------------------------
  // Mip levels and generateMipmaps

  function Max(a: int, b: int): int {
    if a < b then b else a
  }

  function Pow2(k: nat): (p: nat)
    ensures p >= 1
  {
    if k == 0 then 1 else 2 * Pow2(k - 1)
  }

  lemma {:induction false} Pow2Grows(k: nat)
    ensures k < Pow2(k)
  {
    if k > 0 {
      Pow2Grows(k - 1);
    }
  }

  /** ⌊log2 n⌋ on positive integers. */
  function Log2Floor(n: nat): nat
    requires n >= 1
  {
    if n == 1 then 0 else 1 + Log2Floor(n / 2)
  }

  lemma {:induction false} Log2FloorBounds(n: nat)
    requires n >= 1
    ensures Pow2(Log2Floor(n)) <= n < Pow2(Log2Floor(n) + 1)
  {
    if n > 1 {
      Log2FloorBounds(n / 2);
    }
  }

  /** The number of mip levels `createTextureImage` gives a texture of the
      size the image loader reported. */
  function MipLevels(texWidth: int, texHeight: int): nat
    requires 1 <= texWidth && 1 <= texHeight
  {
    Log2Floor(Max(texWidth, texHeight)) + 1
  }

  /** The level count is the one for which the larger side lies in
      [2^(levels-1), 2^levels). */
  lemma MipLevelsBounds(texWidth: int, texHeight: int)
    requires 1 <= texWidth && 1 <= texHeight
    ensures MipLevels(texWidth, texHeight) >= 1
    ensures Pow2(MipLevels(texWidth, texHeight) - 1) <= Max(texWidth, texHeight) < Pow2(MipLevels(texWidth, texHeight))
  {
    Log2FloorBounds(Max(texWidth, texHeight));
  }

  /** The size a blit writes for the level below one of size `d`. */
  function BlitSize(d: int): (r: int)
    ensures r >= 1
    ensures d >= 2 ==> 2 * r <= d < 2 * r + 2
  {
    if d > 1 then d / 2 else 1
  }

  /** The update `generateMipmaps` applies to its running size after each level. */
  function Shrink(d: int): int {
    if d > 1 then d / 2 else d
  }

  /** The running size after `level` updates. */
  function MipSize(d: int, level: nat): int {
    if level == 0 then d else Shrink(MipSize(d, level - 1))
  }

  lemma MulMono(b: int, x: int, y: int)
    requires b >= 0 && x <= y
    ensures b * x <= b * y
  {
    var d := y - x;
    assert b * y == b * x + b * d;
  }

  lemma DivUnique(a: int, b: int, q: int, r: int)
    requires b > 0 && a == b * q + r && 0 <= r < b
    ensures a / b == q
  {
    var q', r' := a / b, a % b;
    assert a == b * q' + r';
    if q < q' {
      MulMono(b, q + 1, q');
    } else if q' < q {
      MulMono(b, q' + 1, q);
    }
  }

  lemma DivTwice(d: nat, p: nat)
    requires p >= 1
    ensures d / (2 * p) == (d / p) / 2
  {
    var q, r := d / p, d % p;
    assert d == p * q + r;
    var q2, r2 := q / 2, q % 2;
    assert p * q == (2 * p) * q2 + p * r2;
    assert 0 <= p * r2 <= p;
    DivUnique(d, 2 * p, q2, p * r2 + r);
  }

  /** From a positive size, the level-`level` size is the size divided by
      2^level, but never below 1. */
  lemma {:induction false} MipSizeIsQuotient(d: int, level: nat)
    requires d >= 1
    ensures MipSize(d, level) == Max(d / Pow2(level), 1)
  {
    if level > 0 {
      MipSizeIsQuotient(d, level - 1);
      DivTwice(d, Pow2(level - 1));
    }
  }

  /** A positive size stays positive, and from it the blit target is the
      next level's size. */
  lemma MipSizePositive(d: int, level: nat)
    requires d >= 1
    ensures MipSize(d, level) >= 1
    ensures BlitSize(MipSize(d, level)) == MipSize(d, level + 1)
  {
    MipSizeIsQuotient(d, level);
  }

  /** The last level of the chain is 1×1, and (with at least two levels) the
      level before it still has a side of at least 2, so no level is wasted. */
  lemma MipChainEndsAtOne(texWidth: int, texHeight: int)
    requires 1 <= texWidth && 1 <= texHeight
    ensures var levels := MipLevels(texWidth, texHeight);
      && MipSize(texWidth, levels - 1) == 1 && MipSize(texHeight, levels - 1) == 1
      && (levels >= 2 ==> MipSize(Max(texWidth, texHeight), levels - 2) >= 2)
  {
    var levels := MipLevels(texWidth, texHeight);
    MipLevelsBounds(texWidth, texHeight);
    LastLevelIsOne(texWidth, levels);
    LastLevelIsOne(texHeight, levels);
    if levels >= 2 {
      LevelBeforeLast(Max(texWidth, texHeight), levels);
    }
  }

  lemma LastLevelIsOne(d: int, levels: nat)
    requires levels >= 1 && 1 <= d < Pow2(levels)
    ensures MipSize(d, levels - 1) == 1
  {
    SmallQuotient(d, Pow2(levels - 1));
    MipSizeIsQuotient(d, levels - 1);
  }

  lemma LevelBeforeLast(d: int, levels: nat)
    requires levels >= 2 && Pow2(levels - 1) <= d
    ensures MipSize(d, levels - 2) >= 2
  {
    MipSizeIsQuotient(d, levels - 2);
    LargeQuotient(d, Pow2(levels - 2));
  }

  lemma SmallQuotient(d: int, p: nat)
    requires 1 <= d < 2 * p
    ensures d / p <= 1
  {
    if d < p {
      DivUnique(d, p, 0, d);
    } else {
      DivUnique(d, p, 1, d - p);
    }
  }

  lemma LargeQuotient(d: int, p: nat)
    requires p >= 1 && 2 * p <= d
    ensures d / p >= 2
  {
    var q, r := d / p, d % p;
    assert d == p * q + r;
    if q < 2 {
      MulMono(p, q, 1);
    }
  }

  // Image layouts, access masks and pipeline stages, with their Vulkan values.
  const LAYOUT_UNDEFINED: nat := 0
  const LAYOUT_SHADER_READ_ONLY: nat := 5
  const LAYOUT_TRANSFER_SRC: nat := 6
  const LAYOUT_TRANSFER_DST: nat := 7
  const ACCESS_NONE: nat := 0
  const ACCESS_SHADER_READ: nat := 0x20
  const ACCESS_TRANSFER_READ: nat := 0x800
  const ACCESS_TRANSFER_WRITE: nat := 0x1000
  const STAGE_TOP_OF_PIPE: nat := 0x1
  const STAGE_FRAGMENT_SHADER: nat := 0x80
  const STAGE_TRANSFER: nat := 0x1000

  const NO_LINEAR_BLIT := "texture image format does not support linear blitting!"
  const UNSUPPORTED_TRANSITION := "unsupported layout transition!"

  /** The commands recorded into a one-shot command buffer. */
  datatype ImageCall =
    | BeginCommands
    | EndCommands
    | Barrier(baseMipLevel: nat, levelCount: nat, oldLayout: nat, newLayout: nat,
              srcAccess: nat, dstAccess: nat, srcStage: nat, dstStage: nat)
    | Blit(srcLevel: nat, srcWidth: int, srcHeight: int, dstLevel: nat, dstWidth: int, dstHeight: int)

  /** The three commands of loop iteration `i`, made from the running sizes
      at that point. */
  function LevelCalls(mipWidth: int, mipHeight: int, i: nat): seq<ImageCall>
    requires i >= 1
  {
    [ Barrier(i - 1, 1, LAYOUT_TRANSFER_DST, LAYOUT_TRANSFER_SRC, ACCESS_TRANSFER_WRITE, ACCESS_TRANSFER_READ,
              STAGE_TRANSFER, STAGE_TRANSFER),
      Blit(i - 1, mipWidth, mipHeight, i, BlitSize(mipWidth), BlitSize(mipHeight)),
      Barrier(i - 1, 1, LAYOUT_TRANSFER_SRC, LAYOUT_SHADER_READ_ONLY, ACCESS_TRANSFER_READ, ACCESS_SHADER_READ,
              STAGE_TRANSFER, STAGE_FRAGMENT_SHADER) ]
  }

  /** The commands of iteration `i + 1`, from the running sizes after `i` updates. */
  function IterationCalls(texWidth: int, texHeight: int, i: nat): seq<ImageCall> {
    LevelCalls(MipSize(texWidth, i), MipSize(texHeight, i), i + 1)
  }

  /** The commands of the first `n` loop iterations. */
  function MipLoopCalls(texWidth: int, texHeight: int, n: nat): (r: seq<ImageCall>)
    ensures |r| == 3 * n
  {
    if n == 0 then []
    else MipLoopCalls(texWidth, texHeight, n - 1) + IterationCalls(texWidth, texHeight, n - 1)
  }

  /** Iteration `i` occupies positions 3i, 3i+1 and 3i+2. */
  lemma {:induction false} MipLoopCallsAt(texWidth: int, texHeight: int, n: nat)
    ensures forall i {:trigger IterationCalls(texWidth, texHeight, i)} :: 0 <= i < n ==>
      && MipLoopCalls(texWidth, texHeight, n)[3 * i] == IterationCalls(texWidth, texHeight, i)[0]
      && MipLoopCalls(texWidth, texHeight, n)[3 * i + 1] == IterationCalls(texWidth, texHeight, i)[1]
      && MipLoopCalls(texWidth, texHeight, n)[3 * i + 2] == IterationCalls(texWidth, texHeight, i)[2]
  {
    if n > 0 {
      MipLoopCallsAt(texWidth, texHeight, n - 1);
    }
  }

  /** Everything `generateMipmaps` records once the format check has passed. */
  function MipmapCalls(texWidth: int, texHeight: int, mipLevels: nat): seq<ImageCall> {
    [BeginCommands]
    + MipLoopCalls(texWidth, texHeight, if mipLevels == 0 then 0 else mipLevels - 1)
    + [ Barrier(U32(mipLevels - 1), 1, LAYOUT_TRANSFER_DST, LAYOUT_SHADER_READ_ONLY, ACCESS_TRANSFER_WRITE,
                ACCESS_SHADER_READ, STAGE_TRANSFER, STAGE_FRAGMENT_SHADER),
        EndCommands ]
  }

  /** Fills the mip chain of a texture: level i is blitted from level i-1 at
      the running size, which is halved (never below 1) after each level. */
  method GenerateMipmaps(texWidth: int, texHeight: int, mipLevels: nat, linearFiltering: bool)
    returns (o: Outcome, calls: seq<ImageCall>)
    ensures !linearFiltering ==> o == Fail(NO_LINEAR_BLIT) && calls == []
    ensures linearFiltering ==> o == Pass && calls == MipmapCalls(texWidth, texHeight, mipLevels)
  {
    if !linearFiltering {
      return Fail(NO_LINEAR_BLIT), [];
    }
    calls := [BeginCommands];
    var mipWidth, mipHeight := texWidth, texHeight;
    var i: nat := 1;
    while i < mipLevels
      invariant 1 <= i && (i <= mipLevels || i == 1)
      invariant mipWidth == MipSize(texWidth, i - 1) && mipHeight == MipSize(texHeight, i - 1)
      invariant calls == [BeginCommands] + MipLoopCalls(texWidth, texHeight, i - 1)
    {
      calls := calls + LevelCalls(mipWidth, mipHeight, i);
      if mipWidth > 1 {
        mipWidth := mipWidth / 2;
      }
      if mipHeight > 1 {
        mipHeight := mipHeight / 2;
      }
      i := i + 1;
    }
    calls := calls + [ Barrier(U32(mipLevels - 1), 1, LAYOUT_TRANSFER_DST, LAYOUT_SHADER_READ_ONLY, ACCESS_TRANSFER_WRITE,
                               ACCESS_SHADER_READ, STAGE_TRANSFER, STAGE_FRAGMENT_SHADER),
                       EndCommands ];
    o := Pass;
  }

  /** A mip chain from a positive texture size has one blit per level after
      the first, each writing a size of at least 1 that equals the next
      level's running size, and ends with a barrier on the last level. */
  lemma MipmapCallsShape(texWidth: int, texHeight: int, mipLevels: nat)
    requires 1 <= texWidth && 1 <= texHeight && 1 <= mipLevels < U32_MODULUS
    ensures var calls := MipmapCalls(texWidth, texHeight, mipLevels);
      && |calls| == 3 * (mipLevels - 1) + 3
      && calls[0] == BeginCommands && calls[|calls| - 1] == EndCommands
      && calls[|calls| - 2].Barrier? && calls[|calls| - 2].baseMipLevel == mipLevels - 1
      && forall i :: 1 <= i < mipLevels ==>
           && calls[3 * i - 1].Blit?
           && calls[3 * i - 1].srcLevel == i - 1 && calls[3 * i - 1].dstLevel == i
           && calls[3 * i - 1].dstWidth >= 1 && calls[3 * i - 1].dstHeight >= 1
           && calls[3 * i - 1].dstWidth == MipSize(texWidth, i)
           && calls[3 * i - 1].dstHeight == MipSize(texHeight, i)
  {
    var calls := MipmapCalls(texWidth, texHeight, mipLevels);
    var body := MipLoopCalls(texWidth, texHeight, mipLevels - 1);
    MipLoopCallsAt(texWidth, texHeight, mipLevels - 1);
    forall i | 1 <= i < mipLevels
      ensures && calls[3 * i - 1].Blit?
              && calls[3 * i - 1].srcLevel == i - 1 && calls[3 * i - 1].dstLevel == i
              && calls[3 * i - 1].dstWidth >= 1 && calls[3 * i - 1].dstHeight >= 1
              && calls[3 * i - 1].dstWidth == MipSize(texWidth, i)
              && calls[3 * i - 1].dstHeight == MipSize(texHeight, i)
    {
      assert calls[3 * i - 1] == body[3 * (i - 1) + 1] == IterationCalls(texWidth, texHeight, i - 1)[1];
      MipSizePositive(texWidth, i - 1);
      MipSizePositive(texHeight, i - 1);
    }
  }

  // ---------------------------------------------------------------------
  // Layout tracking over the recorded commands

  /** The effect of one command on the layouts of the image's levels; None
      when the command expects a level in a layout it is not in. */
  function ApplyCall(call: ImageCall, layouts: seq<nat>): Option<seq<nat>> {
    match call
    case BeginCommands => Some(layouts)
    case EndCommands => Some(layouts)
    case Barrier(base, count, oldLayout, newLayout, _, _, _, _) =>
      if base + count <= |layouts| && forall l :: base <= l < base + count ==> layouts[l] == oldLayout then
        Some(seq(|layouts|, l requires 0 <= l < |layouts| =>
          if base <= l < base + count then newLayout else layouts[l]))
      else None
    case Blit(src, _, _, dst, _, _) =>
      if src < |layouts| && dst < |layouts| && layouts[src] == LAYOUT_TRANSFER_SRC && layouts[dst] == LAYOUT_TRANSFER_DST
      then Some(layouts) else None
  }

  lemma BarrierApplies(base: nat, count: nat, oldLayout: nat, newLayout: nat, srcAccess: nat, dstAccess: nat,
                       srcStage: nat, dstStage: nat, layouts: seq<nat>, expected: seq<nat>)
    requires base + count <= |layouts| && forall l :: base <= l < base + count ==> layouts[l] == oldLayout
    requires |expected| == |layouts|
    requires forall l :: 0 <= l < |layouts| ==> expected[l] == if base <= l < base + count then newLayout else layouts[l]
    ensures ApplyCall(Barrier(base, count, oldLayout, newLayout, srcAccess, dstAccess, srcStage, dstStage), layouts)
      == Some(expected)
  {
    var after := seq(|layouts|, l requires 0 <= l < |layouts| =>
      if base <= l < base + count then newLayout else layouts[l]);
    assert after == expected;
  }

  /** The layouts after replaying `calls` in order. */
  function Replay(calls: seq<ImageCall>, layouts: seq<nat>): Option<seq<nat>> {
    if calls == [] then Some(layouts)
    else match Replay(calls[..|calls| - 1], layouts)
      case None => None
      case Some(before) => ApplyCall(calls[|calls| - 1], before)
  }

  lemma ReplayAppend(calls: seq<ImageCall>, call: ImageCall, layouts: seq<nat>)
    ensures Replay(calls + [call], layouts) ==
      match Replay(calls, layouts) case None => None case Some(before) => ApplyCall(call, before)
  {
    assert (calls + [call])[..|calls|] == calls;
  }

  lemma {:induction false} ReplayConcat(a: seq<ImageCall>, b: seq<ImageCall>, layouts: seq<nat>)
    ensures Replay(a + b, layouts) ==
      match Replay(a, layouts) case None => None case Some(mid) => Replay(b, mid)
  {
    if b == [] {
      assert a + b == a;
    } else {
      var front := b[..|b| - 1];
      assert a + b == (a + front) + [b[|b| - 1]];
      assert b == front + [b[|b| - 1]];
      ReplayConcat(a, front, layouts);
      ReplayAppend(a + front, b[|b| - 1], layouts);
      match Replay(a, layouts)
      case None =>
      case Some(mid) => ReplayAppend(front, b[|b| - 1], mid);
    }
  }

  /** Levels below `done` are ready for sampling, the rest await their blit. */
  function MidChain(levels: nat, done: nat): seq<nat> {
    seq(levels, l => if l < done then LAYOUT_SHADER_READ_ONLY else LAYOUT_TRANSFER_DST)
  }

  function Uniform(levels: nat, layout: nat): seq<nat> {
    seq(levels, _ => layout)
  }

  /** One loop iteration hands level n-1 from TRANSFER_DST through
      TRANSFER_SRC to SHADER_READ_ONLY while it fills level n. */
  lemma LevelCallsAdvance(mipWidth: int, mipHeight: int, levels: nat, n: nat)
    requires 1 <= n < levels
    ensures Replay(LevelCalls(mipWidth, mipHeight, n), MidChain(levels, n - 1)) == Some(MidChain(levels, n))
  {
    var c := LevelCalls(mipWidth, mipHeight, n);
    var srcReady := MidChain(levels, n - 1)[n - 1 := LAYOUT_TRANSFER_SRC];
    SourceBarrierStep(levels, n);
    assert ApplyCall(c[1], srcReady) == Some(srcReady);
    ReadBarrierStep(levels, n);
    ReplayThree(c[0], c[1], c[2], MidChain(levels, n - 1), srcReady, srcReady, MidChain(levels, n));
  }

  lemma SourceBarrierStep(levels: nat, n: nat)
    requires 1 <= n < levels
    ensures ApplyCall(Barrier(n - 1, 1, LAYOUT_TRANSFER_DST, LAYOUT_TRANSFER_SRC, ACCESS_TRANSFER_WRITE, ACCESS_TRANSFER_READ,
                              STAGE_TRANSFER, STAGE_TRANSFER), MidChain(levels, n - 1))
      == Some(MidChain(levels, n - 1)[n - 1 := LAYOUT_TRANSFER_SRC])
  {
    BarrierApplies(n - 1, 1, LAYOUT_TRANSFER_DST, LAYOUT_TRANSFER_SRC, ACCESS_TRANSFER_WRITE, ACCESS_TRANSFER_READ,
                   STAGE_TRANSFER, STAGE_TRANSFER, MidChain(levels, n - 1), MidChain(levels, n - 1)[n - 1 := LAYOUT_TRANSFER_SRC]);
  }

  lemma ReadBarrierStep(levels: nat, n: nat)
    requires 1 <= n < levels
    ensures ApplyCall(Barrier(n - 1, 1, LAYOUT_TRANSFER_SRC, LAYOUT_SHADER_READ_ONLY, ACCESS_TRANSFER_READ, ACCESS_SHADER_READ,
                              STAGE_TRANSFER, STAGE_FRAGMENT_SHADER), MidChain(levels, n - 1)[n - 1 := LAYOUT_TRANSFER_SRC])
      == Some(MidChain(levels, n))
  {
    BarrierApplies(n - 1, 1, LAYOUT_TRANSFER_SRC, LAYOUT_SHADER_READ_ONLY, ACCESS_TRANSFER_READ, ACCESS_SHADER_READ,
                   STAGE_TRANSFER, STAGE_FRAGMENT_SHADER, MidChain(levels, n - 1)[n - 1 := LAYOUT_TRANSFER_SRC],
                   MidChain(levels, n));
  }

  lemma ReplayThree(a: ImageCall, b: ImageCall, c: ImageCall, layouts: seq<nat>, first: seq<nat>, second: seq<nat>,
                    third: seq<nat>)
    requires ApplyCall(a, layouts) == Some(first) && ApplyCall(b, first) == Some(second)
    requires ApplyCall(c, second) == Some(third)
    ensures Replay([a, b, c], layouts) == Some(third)
  {
    assert [a, b, c] == (([] + [a]) + [b]) + [c];
    ReplayAppend([], a, layouts);
    ReplayAppend([a], b, layouts);
    ReplayAppend([a] + [b], c, layouts);
  }

  lemma {:induction false} MipLoopKeepsLayoutsValid(texWidth: int, texHeight: int, levels: nat, n: nat)
    requires n < levels
    ensures Replay(MipLoopCalls(texWidth, texHeight, n), MidChain(levels, 0)) == Some(MidChain(levels, n))
  {
    if n == 0 {
      assert MipLoopCalls(texWidth, texHeight, n) == [];
    } else {
      MipLoopKeepsLayoutsValid(texWidth, texHeight, levels, n - 1);
      var c := LevelCalls(MipSize(texWidth, n - 1), MipSize(texHeight, n - 1), n);
      LevelCallsAdvance(MipSize(texWidth, n - 1), MipSize(texHeight, n - 1), levels, n);
      ReplayConcat(MipLoopCalls(texWidth, texHeight, n - 1), c, MidChain(levels, 0));
    }
  }

  /** The barrier after the loop moves the last level, the only one still in
      TRANSFER_DST, to SHADER_READ_ONLY. */
  lemma LastLevelBarrier(levels: nat)
    requires levels >= 1
    ensures ApplyCall(Barrier(levels - 1, 1, LAYOUT_TRANSFER_DST, LAYOUT_SHADER_READ_ONLY, ACCESS_TRANSFER_WRITE,
                              ACCESS_SHADER_READ, STAGE_TRANSFER, STAGE_FRAGMENT_SHADER), MidChain(levels, levels - 1))
      == Some(Uniform(levels, LAYOUT_SHADER_READ_ONLY))
  {
    BarrierApplies(levels - 1, 1, LAYOUT_TRANSFER_DST, LAYOUT_SHADER_READ_ONLY, ACCESS_TRANSFER_WRITE,
                   ACCESS_SHADER_READ, STAGE_TRANSFER, STAGE_FRAGMENT_SHADER, MidChain(levels, levels - 1),
                   Uniform(levels, LAYOUT_SHADER_READ_ONLY));
  }

  /** The mip chain, started with every level in TRANSFER_DST, leaves every
      level ready for sampling. */
  lemma MipmapsLeaveLevelsReadable(texWidth: int, texHeight: int, levels: nat)
    requires 1 <= levels < U32_MODULUS
    ensures Replay(MipmapCalls(texWidth, texHeight, levels), MidChain(levels, 0)) == Some(Uniform(levels, LAYOUT_SHADER_READ_ONLY))
  {
    var body := MipLoopCalls(texWidth, texHeight, levels - 1);
    var last := Barrier(levels - 1, 1, LAYOUT_TRANSFER_DST, LAYOUT_SHADER_READ_ONLY, ACCESS_TRANSFER_WRITE,
                        ACCESS_SHADER_READ, STAGE_TRANSFER, STAGE_FRAGMENT_SHADER);
    var start := MidChain(levels, 0);
    var begun := [BeginCommands];
    var blitted := begun + body;
    var finished := blitted + [last];
    assert MipmapCalls(texWidth, texHeight, levels) == finished + [EndCommands];
    ReplayAppend([], BeginCommands, start);
    MipLoopKeepsLayoutsValid(texWidth, texHeight, levels, levels - 1);
    ReplayConcat(begun, body, start);
    assert Replay(blitted, start) == Some(MidChain(levels, levels - 1));
    LastLevelBarrier(levels);
    ReplayAppend(blitted, last, start);
    ReplayAppend(finished, EndCommands, start);
  }

  /** The texture path of `createTextureImage`: every level moves from
      UNDEFINED to TRANSFER_DST, and the mip chain then leaves every level
      ready for sampling, with each barrier and blit finding its levels in
      the layout it expects. */
  lemma TextureLevelsEndReadable(texWidth: int, texHeight: int)
    requires 1 <= texWidth < 0x8000_0000 && 1 <= texHeight < 0x8000_0000
    ensures var levels := MipLevels(texWidth, texHeight);
      var calls := TransitionCalls(LAYOUT_UNDEFINED, LAYOUT_TRANSFER_DST, levels) + MipmapCalls(texWidth, texHeight, levels);
      Replay(calls, Uniform(levels, LAYOUT_UNDEFINED)) == Some(Uniform(levels, LAYOUT_SHADER_READ_ONLY))
  {
    var levels := MipLevels(texWidth, texHeight);
    MipLevelsBounds(texWidth, texHeight);
    assert levels < U32_MODULUS by {
      Pow2Grows(levels - 1);
    }
    TransitionMovesAllLevels(LAYOUT_UNDEFINED, LAYOUT_TRANSFER_DST, levels);
    assert Uniform(levels, LAYOUT_TRANSFER_DST) == MidChain(levels, 0);
    MipmapsLeaveLevelsReadable(texWidth, texHeight, levels);
    ReplayConcat(TransitionCalls(LAYOUT_UNDEFINED, LAYOUT_TRANSFER_DST, levels), MipmapCalls(texWidth, texHeight, levels),
                 Uniform(levels, LAYOUT_UNDEFINED));
  }

  // ---------------------------------------------------------------------
  // transitionImageLayout

  /** Access masks and stages of a layout-transition barrier. */
  datatype Masks = Masks(srcAccess: nat, dstAccess: nat, srcStage: nat, dstStage: nat)

  /** The two transitions the engine knows. */
  function TransitionMasks(oldLayout: nat, newLayout: nat): (r: Option<Masks>)
    ensures r.Some? <==>
      || (oldLayout == LAYOUT_UNDEFINED && newLayout == LAYOUT_TRANSFER_DST)
      || (oldLayout == LAYOUT_TRANSFER_DST && newLayout == LAYOUT_SHADER_READ_ONLY)
  {
    if oldLayout == LAYOUT_UNDEFINED && newLayout == LAYOUT_TRANSFER_DST then
      Some(Masks(ACCESS_NONE, ACCESS_TRANSFER_WRITE, STAGE_TOP_OF_PIPE, STAGE_TRANSFER))
    else if oldLayout == LAYOUT_TRANSFER_DST && newLayout == LAYOUT_SHADER_READ_ONLY then
      Some(Masks(ACCESS_TRANSFER_WRITE, ACCESS_SHADER_READ, STAGE_TRANSFER, STAGE_FRAGMENT_SHADER))
    else None
  }

  /** What `transitionImageLayout` records: the command buffer is begun
      before the table is consulted, so a rejected pair leaves it begun. */
  function TransitionCalls(oldLayout: nat, newLayout: nat, mipLevels: nat): seq<ImageCall> {
    match TransitionMasks(oldLayout, newLayout)
    case None => [BeginCommands]
    case Some(m) =>
      [BeginCommands,
       Barrier(0, mipLevels, oldLayout, newLayout, m.srcAccess, m.dstAccess, m.srcStage, m.dstStage),
       EndCommands]
  }

  method TransitionImageLayout(oldLayout: nat, newLayout: nat, mipLevels: nat) returns (o: Outcome, calls: seq<ImageCall>)
    ensures o == Pass <==> TransitionMasks(oldLayout, newLayout).Some?
    ensures o != Pass ==> o == Fail(UNSUPPORTED_TRANSITION)
    ensures calls == TransitionCalls(oldLayout, newLayout, mipLevels)
  {
    calls := [BeginCommands];
    var masks := TransitionMasks(oldLayout, newLayout);
    if masks.None? {
      return Fail(UNSUPPORTED_TRANSITION), calls;
    }
    var m := masks.value;
    calls := calls + [Barrier(0, mipLevels, oldLayout, newLayout, m.srcAccess, m.dstAccess, m.srcStage, m.dstStage)];
    calls := calls + [EndCommands];
    o := Pass;
  }

  /** An accepted transition moves every level from the old layout to the
      new one; a rejected one records no barrier and no end. */
  lemma TransitionMovesAllLevels(oldLayout: nat, newLayout: nat, mipLevels: nat)
    ensures TransitionMasks(oldLayout, newLayout).Some? ==>
      Replay(TransitionCalls(oldLayout, newLayout, mipLevels), Uniform(mipLevels, oldLayout)) == Some(Uniform(mipLevels, newLayout))
    ensures TransitionMasks(oldLayout, newLayout).None? ==>
      EndCommands !in TransitionCalls(oldLayout, newLayout, mipLevels)
  {
    var calls := TransitionCalls(oldLayout, newLayout, mipLevels);
    if TransitionMasks(oldLayout, newLayout).Some? {
      var start := Uniform(mipLevels, oldLayout);
      var m := TransitionMasks(oldLayout, newLayout).value;
      assert calls == [BeginCommands] + [calls[1]] + [EndCommands];
      BarrierApplies(0, mipLevels, oldLayout, newLayout, m.srcAccess, m.dstAccess, m.srcStage, m.dstStage,
                     start, Uniform(mipLevels, newLayout));
      ReplayAppend([], BeginCommands, start);
      ReplayAppend([BeginCommands], calls[1], start);
      ReplayAppend([BeginCommands] + [calls[1]], EndCommands, start);
    }
  }

  // ---------------------------------------------------------------------
  // Per-frame descriptor resources

  const POOL_FAILED := "failed to create descriptor pool!"
  const SETS_FAILED := "failed to allocate descriptor sets!"

  /** The pool `createDescriptorPool` asks for, with the swap chain's frame
      count as a `uint32_t`: one uniform descriptor per frame, one image
      sampler more than frames, and room for twice as many sets as frames. */
  function FramePoolInfo(numFrames: nat): (info: DescriptorPoolInfo)
    requires numFrames < U32_MODULUS
    ensures info.freeDescriptorSet
    ensures numFrames < 0x8000_0000 ==>
      && info.uniformBufferCount == numFrames
      && info.imageSamplerCount == numFrames + 1
      && info.maxSets == 2 * numFrames
  {
    DescriptorPoolInfo(U32(numFrames), U32(numFrames + 1), U32(2 * numFrames), true)
  }

  /** The pool holds the sets `createDescriptorSets` takes from it, one per
      frame, each with one uniform descriptor and one image sampler, exactly
      while the uint32 set count does not wrap. */
  lemma FramePoolHoldsFrameSets(numFrames: nat)
    requires numFrames < U32_MODULUS
    ensures var info := FramePoolInfo(numFrames);
      (numFrames <= info.maxSets && numFrames <= info.uniformBufferCount && numFrames <= info.imageSamplerCount)
      <==> numFrames < 0x8000_0000
  {
    FramePoolWraps(numFrames);
  }

  /** The three uint32 counts over every frame count: the uniform count never
      wraps, the sampler count wraps to 0 only at 2^32-1 frames, and the set
      count loses 2^32 from 2^31 frames on. */
  lemma FramePoolWraps(numFrames: nat)
    requires numFrames < U32_MODULUS
    ensures FramePoolInfo(numFrames).uniformBufferCount == numFrames
    ensures FramePoolInfo(numFrames).imageSamplerCount == if numFrames == U32_MODULUS - 1 then 0 else numFrames + 1
    ensures FramePoolInfo(numFrames).maxSets ==
      if numFrames < 0x8000_0000 then 2 * numFrames else 2 * numFrames - U32_MODULUS
  {
    if numFrames >= 0x8000_0000 {
      assert 2 * numFrames == U32_MODULUS + (2 * numFrames - U32_MODULUS);
    }
  }

  /** A descriptor write issued by `createDescriptorSets`. */
  datatype DescriptorWrite =
    | UniformBufferWrite(dstSet: Handle, binding: nat, buffer: Handle)
    | ImageSamplerWrite(dstSet: Handle, binding: nat, imageView: Handle, sampler: Handle, imageLayout: nat)

  /** The two writes for one frame's set. */
  function SetWrites(dstSet: Handle, uniform: BufferResource, imageView: Handle, sampler: Handle): seq<DescriptorWrite> {
    [UniformBufferWrite(dstSet, 0, uniform.buffer), ImageSamplerWrite(dstSet, 1, imageView, sampler, LAYOUT_SHADER_READ_ONLY)]
  }

  /** The writes for the first `n` frames: set i gets frame i's uniform
      buffer at binding 0 and the texture at binding 1. */
  function FrameWrites(sets: seq<Handle>, uniforms: seq<BufferResource>, imageView: Handle, sampler: Handle, n: nat)
    : (r: seq<DescriptorWrite>)
    requires n <= |sets| && n <= |uniforms|
    ensures |r| == 2 * n
    ensures forall i :: 0 <= i < n ==>
      && r[2 * i] == UniformBufferWrite(sets[i], 0, uniforms[i].buffer)
      && r[2 * i + 1] == ImageSamplerWrite(sets[i], 1, imageView, sampler, LAYOUT_SHADER_READ_ONLY)
  {
    if n == 0 then []
    else FrameWrites(sets, uniforms, imageView, sampler, n - 1) + SetWrites(sets[n - 1], uniforms[n - 1], imageView, sampler)
  }

  /** `std::vector::resize`: keeps the first `n` elements and pads with `fill`. */
  function Resize<T>(s: seq<T>, n: nat, fill: T): (r: seq<T>)
    ensures |r| == n
    ensures forall i :: 0 <= i < n ==> r[i] == if i < |s| then s[i] else fill
  {
    if n <= |s| then s[..n] else s + seq(n - |s|, _ => fill)
  }

  // ---------------------------------------------------------------------
  // The frame loop

  /** The steps of the frame loop that its rebuild rules are about. */
  datatype FrameStep =
    | WindowUpdate | CameraUpdate | ImguiFrame | Acquire(image: nat)
    | UpdateUniformBuffer(image: nat) | RecordCommandBuffer(image: nat) | SubmitAndPresent(image: nat)
    | WaitEvents | UpdateFramebufferSize | DeviceWaitIdle | CleanupSwapChain | SurfaceUpdate | CreateSwapChain
    | CreateGraphicsPipeline | CreateUniformBuffers | CreateDescriptorPool | CreateDescriptorSets | InitImgui
    | CreateUniformProjection | CleanupVulkan | InitVulkan

  /** What `recreateSwapChain` does once the window has a size. */
  const SWAPCHAIN_REBUILD: seq<FrameStep> :=
    [DeviceWaitIdle, CleanupSwapChain, SurfaceUpdate, CreateSwapChain, CreateGraphicsPipeline,
     CreateUniformBuffers, CreateDescriptorPool, CreateDescriptorSets, InitImgui, CreateUniformProjection]

  /** What `mainLoop` does when a global object is dirty. */
  const FULL_REBUILD: seq<FrameStep> := [DeviceWaitIdle, CleanupVulkan, InitVulkan]

  /** The flags the ImGui panels raise during one frame. */
  datatype UiRequests = UiRequests(window: bool, instance: bool, physicalDevice: bool, swapChain: bool, pipeline: bool)

  /** What the outside world hands one iteration of the main loop. */
  datatype FrameInput = FrameInput(
    now: int, cursor: (real, real), events: seq<W.Event>,
    ui: UiRequests, image: nat, acquireOutOfDate: bool, presentOutOfDate: bool,
    waits: seq<seq<W.Event>>, framebuffer: (int, int))

  /** `dirtyFrameResources`. */
  function FrameDirty(swapChainDirty: bool, framebufferResized: bool, pipelineDirty: bool): bool {
    swapChainDirty || framebufferResized || pipelineDirty
  }

  function Repeat(step: FrameStep, n: nat): seq<FrameStep> {
    seq(n, _ => step)
  }

  /** The event batches, one after the other. */
  function Joined(batches: seq<seq<W.Event>>): seq<W.Event> {
    if batches == [] then [] else Joined(batches[..|batches| - 1]) + batches[|batches| - 1]
  }

  /** Dispatching one more batch continues from where the earlier batches left the input. */
  lemma AfterBatch(start: W.InputState, waits: seq<seq<W.Event>>, k: nat)
    requires k < |waits|
    ensures W.AfterEvents(start, Joined(waits[..k + 1])) == W.AfterEvents(W.AfterEvents(start, Joined(waits[..k])), waits[k])
  {
    assert waits[..k + 1][..k] == waits[..k];
    W.AfterEventsAppend(start, Joined(waits[..k]), waits[k]);
  }

  lemma RepeatSnoc(step: FrameStep, n: nat)
    ensures Repeat(step, n + 1) == Repeat(step, n) + [step]
  {
  }

  /** The steps of the frames recorded, one frame after the other. */
  function AllSteps(records: seq<FrameRecord>): seq<FrameStep> {
    if records == [] then [] else AllSteps(records[..|records| - 1]) + records[|records| - 1].steps
  }

  /** The steps of `recreateSwapChain` after `waited` waits. */
  function RecreateSteps(waited: nat, rebuilt: bool): seq<FrameStep> {
    Repeat(WaitEvents, waited) + if rebuilt then [UpdateFramebufferSize] + SWAPCHAIN_REBUILD else []
  }

  /** The wait of `recreateSwapChain`: one wait per batch while the window
      stays minimized, and a rebuild exactly when the window has a size
      again. (GLFW would block for further events once the batches run out;
      there the model stops without a rebuild.) */
  ghost predicate WaitedWhileMinimized(start: W.InputState, waits: seq<seq<W.Event>>, waited: nat, rebuilt: bool) {
    && waited <= |waits|
    && (forall j :: 0 <= j < waited ==> W.Minimized(W.AfterEvents(start, Joined(waits[..j]))))
    && (rebuilt <==> !W.Minimized(W.AfterEvents(start, Joined(waits[..waited]))))
    && (!rebuilt ==> waited == |waits|)
  }

  /** The window's input state after `recreateSwapChain`: the waited-for
      events, and on a rebuild the framebuffer size read back with the resize
      acknowledged. */
  function InputAfterRecreate(start: W.InputState, waits: seq<seq<W.Event>>, waited: nat, rebuilt: bool,
                              framebuffer: (int, int)): W.InputState
    requires waited <= |waits|
  {
    var s := W.AfterEvents(start, Joined(waits[..waited]));
    if rebuilt then s.(width := framebuffer.0, height := framebuffer.1, framebufferResized := false) else s
  }

  /** The rebuild rules of one frame: a full rebuild, after a device
      wait-idle, exactly when the panels marked the window, the instance or
      the physical device dirty; the frame always starts with the window and
      camera update, the ImGui frame and the acquire. */
  predicate FrameFollowsRules(f: FrameInput, rebuild: bool, frame: seq<FrameStep>) {
    && (rebuild <==> f.ui.window || f.ui.instance || f.ui.physicalDevice)
    && |frame| >= 4
    && frame[..4] == [WindowUpdate, CameraUpdate, ImguiFrame, Acquire(f.image)]
    && (rebuild <==> CleanupVulkan in frame)
    && (rebuild ==> frame[|frame| - 3..] == FULL_REBUILD)
  }

  lemma RecreateStepsKeepGlobals(waited: nat, rebuilt: bool)
    ensures CleanupVulkan !in RecreateSteps(waited, rebuilt)
  {
    assert forall i :: 0 <= i < waited ==> Repeat(WaitEvents, waited)[i] == WaitEvents;
  }

  /** The steps of one `drawFrame`: the ImGui frame and the acquire; the
      uniform update, recording, submit and present unless a resource was
      already dirty; and the swap chain recreation when one is dirty at the end. */
  function DrawSteps(image: nat, firstDirty: bool, recreated: bool, waited: nat, rebuilt: bool): seq<FrameStep> {
    [ImguiFrame, Acquire(image)] + EndSteps(image, firstDirty, recreated, waited, rebuilt)
  }

  /** The steps of `drawFrame` after the acquire. */
  function EndSteps(image: nat, firstDirty: bool, recreated: bool, waited: nat, rebuilt: bool): seq<FrameStep> {
    (if firstDirty then [] else [UpdateUniformBuffer(image), RecordCommandBuffer(image), SubmitAndPresent(image)])
    + (if recreated then RecreateSteps(waited, rebuilt) else [])
  }

  /** Drawing a frame never tears down the instance or device. */
  lemma DrawStepsKeepGlobals(image: nat, firstDirty: bool, recreated: bool, waited: nat, rebuilt: bool)
    ensures CleanupVulkan !in DrawSteps(image, firstDirty, recreated, waited, rebuilt)
  {
    RecreateStepsKeepGlobals(waited, rebuilt);
  }

  /** The steps of one iteration of `mainLoop`: the window and camera
      update, the draw and, when asked for, the full rebuild. */
  function FrameSteps(image: nat, rebuild: bool, firstDirty: bool, recreated: bool, waited: nat, rebuilt: bool)
    : seq<FrameStep>
  {
    [WindowUpdate, CameraUpdate] + DrawSteps(image, firstDirty, recreated, waited, rebuilt)
    + (if rebuild then FULL_REBUILD else [])
  }

  /** Appending the update, the draw and the rebuild one after the other
      appends the frame's steps. */
  lemma AppendFrameSteps(log: seq<FrameStep>, image: nat, rebuild: bool, firstDirty: bool, recreated: bool,
                         waited: nat, rebuilt: bool)
    ensures log + [WindowUpdate, CameraUpdate] + DrawSteps(image, firstDirty, recreated, waited, rebuilt)
            + (if rebuild then FULL_REBUILD else [])
            == log + FrameSteps(image, rebuild, firstDirty, recreated, waited, rebuilt)
  {
    var draw := DrawSteps(image, firstDirty, recreated, waited, rebuilt);
    var tail: seq<FrameStep> := if rebuild then FULL_REBUILD else [];
    calc {
      log + [WindowUpdate, CameraUpdate] + draw + tail;
      { AppendAssoc(log, [WindowUpdate, CameraUpdate], draw); }
      log + ([WindowUpdate, CameraUpdate] + draw) + tail;
      { AppendAssoc(log, [WindowUpdate, CameraUpdate] + draw, tail); }
      log + ([WindowUpdate, CameraUpdate] + draw + tail);
    }
  }

  /** A frame made of the window and camera update, a draw and, when asked
      for, the full rebuild, follows the rules of the main loop. */
  lemma FrameOfDraw(f: FrameInput, rebuild: bool, firstDirty: bool, recreated: bool, waited: nat, rebuilt: bool)
    requires rebuild <==> f.ui.window || f.ui.instance || f.ui.physicalDevice
    ensures FrameFollowsRules(f, rebuild, FrameSteps(f.image, rebuild, firstDirty, recreated, waited, rebuilt))
  {
    var drawn := DrawSteps(f.image, firstDirty, recreated, waited, rebuilt);
    var frame := [WindowUpdate, CameraUpdate] + drawn + (if rebuild then FULL_REBUILD else []);
    DrawStepsKeepGlobals(f.image, firstDirty, recreated, waited, rebuilt);
    assert frame[..4] == [WindowUpdate, CameraUpdate] + drawn[..2];
    if rebuild {
      assert frame[|frame| - 2] == CleanupVulkan;
      assert frame[|frame| - 3..] == FULL_REBUILD;
    } else {
      assert CleanupVulkan !in [WindowUpdate, CameraUpdate];
      assert frame == [WindowUpdate, CameraUpdate] + drawn;
    }
  }

  /** What one frame hands to the next: the swap chain's and the pipeline's
      dirty flags and the window's input. */
  datatype FrameState = FrameState(swapChainDirty: bool, pipelineDirty: bool, input: W.InputState)

  /** What one iteration of `mainLoop` did: whether it rebuilt everything,
      whether a frame resource was already dirty after the acquire, whether
      `drawFrame` recreated the swap chain, how many waits that took and
      whether it rebuilt it, and the steps taken. */
  datatype FrameRecord = FrameRecord(rebuild: bool, firstDirty: bool, recreated: bool, waited: nat, rebuilt: bool,
                                     steps: seq<FrameStep>)

  /** The rules of one window update and `drawFrame` from `before`: the
      update resets the scroll delta and runs this frame's callbacks; a frame
      resource is dirty after the acquire when the swap chain or the pipeline
      was or was just marked dirty, or the framebuffer was resized; the swap
      chain is recreated when one was dirty or the present reported it out of
      date, waiting while the window stays minimized. */
  ghost predicate DrawRules(before: FrameState, f: FrameInput, firstDirty: bool, recreated: bool, waited: nat, rebuilt: bool) {
    var updated := W.AfterEvents(before.input.(deltaScroll := 0.0), f.events);
    && firstDirty == FrameDirty(before.swapChainDirty || f.ui.swapChain || f.acquireOutOfDate,
                                updated.framebufferResized, before.pipelineDirty || f.ui.pipeline)
    && recreated == (firstDirty || f.presentOutOfDate)
    && (recreated ==> WaitedWhileMinimized(updated, f.waits, waited, rebuilt))
    && (!recreated ==> waited == 0 && !rebuilt)
  }

  /** What the window update and `drawFrame` leave to the rest of the frame:
      both flags cleared by a swap chain rebuild, and otherwise kept, with
      the swap chain marked dirty by the acquire or, when nothing was dirty
      before, by the present; the input after the waited-for events. */
  function Drawn(before: FrameState, f: FrameInput, firstDirty: bool, recreated: bool, waited: nat, rebuilt: bool)
    : FrameState
    requires recreated ==> waited <= |f.waits|
  {
    var updated := W.AfterEvents(before.input.(deltaScroll := 0.0), f.events);
    FrameState(!rebuilt && (before.swapChainDirty || f.ui.swapChain || f.acquireOutOfDate
                            || (!firstDirty && f.presentOutOfDate)),
               !rebuilt && (before.pipelineDirty || f.ui.pipeline),
               if recreated then InputAfterRecreate(updated, f.waits, waited, rebuilt, f.framebuffer) else updated)
  }

  /** One iteration of `mainLoop` from `before` to `after`: the window update
      and the draw with its recreation rules, and a full rebuild, which clears
      both flags and the pending resize, exactly when a panel asked for one. */
  ghost predicate FrameTransition(before: FrameState, f: FrameInput, r: FrameRecord, after: FrameState) {
    && r.rebuild == (f.ui.window || f.ui.instance || f.ui.physicalDevice)
    && DrawRules(before, f, r.firstDirty, r.recreated, r.waited, r.rebuilt)
    && r.steps == FrameSteps(f.image, r.rebuild, r.firstDirty, r.recreated, r.waited, r.rebuilt)
    && after == (var drawn := Drawn(before, f, r.firstDirty, r.recreated, r.waited, r.rebuilt);
                 if r.rebuild then FrameState(false, false, drawn.input.(framebufferResized := false)) else drawn)
  }

  /** Every transition follows the rebuild rules of the main loop. */
  lemma TransitionFollowsRules(before: FrameState, f: FrameInput, r: FrameRecord, after: FrameState)
    requires FrameTransition(before, f, r, after)
    ensures FrameFollowsRules(f, r.rebuild, r.steps)
  {
    FrameOfDraw(f, r.rebuild, r.firstDirty, r.recreated, r.waited, r.rebuilt);
  }

  /** The application: the resources main.cpp keeps as members, and the
      dirty flags of the objects it drives. */
  class HelloTriangleApplication {
    const window: W.Window
    var vertices: seq<Vertex>
    var indices: seq<nat>
    var uniformBuffers: seq<BufferResource>
    var descriptorPool: Handle
    var descriptorSets: seq<Handle>
    var textureImageView: Handle
    var textureSampler: Handle
    /** The descriptor writes issued so far. */
    var descriptorWrites: seq<DescriptorWrite>
    /** `SwapChain::IsDirty()`. */
    var swapChainDirty: bool
    /** `unlitPipeline.dirty`. */
    var pipelineDirty: bool
    /** `Instance::IsDirty()`. */
    var instanceDirty: bool
    /** `PhysicalDevice::IsDirty()`. */
    var physicalDeviceDirty: bool
    /** The frame-loop steps taken so far. */
    var steps: seq<FrameStep>

    constructor (window: W.Window)
      ensures this.window == window
      ensures vertices == [] && indices == [] && uniformBuffers == [] && descriptorSets == []
      ensures descriptorPool == NULL_HANDLE && textureImageView == NULL_HANDLE && textureSampler == NULL_HANDLE
      ensures descriptorWrites == [] && steps == []
      ensures !swapChainDirty && !pipelineDirty && !instanceDirty && !physicalDeviceDirty
    {
      this.window := window;
      vertices, indices := [], [];
      uniformBuffers, descriptorSets := [], [];
      descriptorPool, textureImageView, textureSampler := NULL_HANDLE, NULL_HANDLE, NULL_HANDLE;
      descriptorWrites, steps := [], [];
      swapChainDirty, pipelineDirty, instanceDirty, physicalDeviceDirty := false, false, false, false;
    }

    /** `loadModel`, given what the OBJ loader returned: whether it parsed the
        file, its warning and error text, the attribute arrays and each
        shape's face corners. */
    method LoadModel(parsed: bool, warn: string, err: string, attrib: Attrib, shapes: seq<seq<ObjIndex>>)
      returns (o: Outcome)
      requires parsed ==> ShapesResolve(attrib, shapes)
      modifies this`vertices, this`indices
      ensures old(vertices != [] || indices != []) ==> o == Pass && vertices == old(vertices) && indices == old(indices)
      ensures old(vertices == [] && indices == []) && !parsed ==> o == Fail(warn + err) && vertices == [] && indices == []
      ensures old(vertices == [] && indices == []) && parsed ==>
        o == Pass && Buffers(vertices, indices) == Dedup(ModelVertices(attrib, shapes))
    {
      if |vertices| > 0 || |indices| > 0 {
        return Pass;
      }
      if !parsed {
        return Fail(warn + err);
      }
      var uniqueVertices: map<Vertex, nat> := map[];
      var s := 0;
      while s < |shapes|
        invariant 0 <= s <= |shapes|
        invariant Buffers(vertices, indices) == Dedup(ModelVertices(attrib, shapes[..s]))
        invariant Distinct(vertices) && LookupMatches(uniqueVertices, vertices)
      {
        assert shapes[..s + 1][..s] == shapes[..s];
        uniqueVertices := ReadShape(uniqueVertices, attrib, shapes[s], ModelVertices(attrib, shapes[..s]));
        s := s + 1;
      }
      assert shapes[..s] == shapes;
      o := Pass;
    }

    /** The inner loop of `loadModel`: every corner of one shape is turned
        into a vertex and deduplicated against what was read before. */
    method ReadShape(uniqueVertices: map<Vertex, nat>, attrib: Attrib, shape: seq<ObjIndex>, ghost read: seq<Vertex>)
      returns (lookup: map<Vertex, nat>)
      requires forall k :: 0 <= k < |shape| ==> Resolves(attrib, shape[k])
      requires Buffers(vertices, indices) == Dedup(read)
      requires Distinct(vertices) && LookupMatches(uniqueVertices, vertices)
      modifies this`vertices, this`indices
      ensures Buffers(vertices, indices) == Dedup(read + ShapeVertices(attrib, shape))
      ensures Distinct(vertices) && LookupMatches(lookup, vertices)
    {
      lookup := uniqueVertices;
      var k := 0;
      assert read + ShapeVertices(attrib, shape[..0]) == read;
      while k < |shape|
        invariant 0 <= k <= |shape|
        invariant Buffers(vertices, indices) == Dedup(read + ShapeVertices(attrib, shape[..k]))
        invariant Distinct(vertices) && LookupMatches(lookup, vertices)
      {
        var vertex := VertexOf(attrib, shape[k]);
        var b;
        lookup, b := AddVertex(lookup, Buffers(vertices, indices), vertex);
        vertices, indices := b.vertices, b.indices;
        DedupSnoc(read + ShapeVertices(attrib, shape[..k]), vertex);
        ReadOneMore(read, attrib, shape, k);
        k := k + 1;
      }
      assert shape[..k] == shape;
    }

    /** `createUniformBuffers`: one buffer per frame, the i-th made by the
        i-th buffer creation. */
    method CreateUniformBuffers(numFrames: nat, made: seq<BufferResource>)
      requires |made| == numFrames
      modifies this`uniformBuffers
      ensures uniformBuffers == made
    {
      uniformBuffers := Resize(uniformBuffers, numFrames, NO_BUFFER);
      var i := 0;
      while i < numFrames
        invariant 0 <= i <= numFrames && |uniformBuffers| == numFrames
        invariant uniformBuffers[..i] == made[..i]
      {
        uniformBuffers := uniformBuffers[i := made[i]];
        i := i + 1;
      }
      assert uniformBuffers == uniformBuffers[..i];
    }

    /** `createDescriptorPool`, given the driver's result and the pool it made. */
    method CreateDescriptorPool(numFrames: nat, result: VkResult, pool: Handle) returns (o: Outcome, info: DescriptorPoolInfo)
      requires numFrames < U32_MODULUS
      modifies this`descriptorPool
      ensures info == FramePoolInfo(numFrames)
      ensures o == if result == VK_SUCCESS then Pass else Fail(POOL_FAILED)
      ensures descriptorPool == if result == VK_SUCCESS then pool else old(descriptorPool)
    {
      info := FramePoolInfo(numFrames);
      if result != VK_SUCCESS {
        return Fail(POOL_FAILED), info;
      }
      descriptorPool := pool;
      o := Pass;
    }

    /** `createDescriptorSets`, given the driver's result and the sets it
        made: set i is pointed at frame i's uniform buffer and at the
        texture. */
    method CreateDescriptorSets(numFrames: nat, result: VkResult, newSets: seq<Handle>) returns (o: Outcome)
      requires result == VK_SUCCESS ==> |newSets| == numFrames && numFrames <= |uniformBuffers|
      modifies this`descriptorSets, this`descriptorWrites
      ensures result != VK_SUCCESS ==>
        && o == Fail(SETS_FAILED)
        && descriptorSets == Resize(old(descriptorSets), numFrames, NULL_HANDLE)
        && descriptorWrites == old(descriptorWrites)
      ensures result == VK_SUCCESS ==>
        && o == Pass
        && descriptorSets == newSets
        && descriptorWrites == old(descriptorWrites) + FrameWrites(newSets, uniformBuffers, textureImageView, textureSampler, numFrames)
    {
      descriptorSets := Resize(descriptorSets, numFrames, NULL_HANDLE);
      if result != VK_SUCCESS {
        return Fail(SETS_FAILED);
      }
      descriptorSets := newSets;
      var i := 0;
      while i < numFrames
        invariant 0 <= i <= numFrames
        invariant descriptorSets == newSets
        invariant descriptorWrites == old(descriptorWrites) + FrameWrites(newSets, uniformBuffers, textureImageView, textureSampler, i)
      {
        var writes := SetWrites(newSets[i], uniformBuffers[i], textureImageView, textureSampler);
        AppendAssoc(old(descriptorWrites), FrameWrites(newSets, uniformBuffers, textureImageView, textureSampler, i), writes);
        descriptorWrites := descriptorWrites + writes;
        i := i + 1;
      }
      o := Pass;
    }

    predicate DirtyFrameResources()
      reads this`swapChainDirty, this`pipelineDirty, window`framebufferResized
    {
      FrameDirty(swapChainDirty, window.framebufferResized, pipelineDirty)
    }

    /** `recreateSwapChain`, given the event batches successive waits deliver
        and the framebuffer size read back afterwards. */
    method RecreateSwapChain(waits: seq<seq<W.Event>>, framebuffer: (int, int)) returns (waited: nat, rebuilt: bool)
      modifies this`steps, this`swapChainDirty, this`pipelineDirty
      modifies window`width, window`height, window`framebufferResized, window`scroll, window`deltaScroll, window`maximized
      ensures WaitedWhileMinimized(old(window.Input()), waits, waited, rebuilt)
      ensures window.Input() == InputAfterRecreate(old(window.Input()), waits, waited, rebuilt, framebuffer)
      ensures steps == old(steps) + RecreateSteps(waited, rebuilt)
      ensures swapChainDirty == (old(swapChainDirty) && !rebuilt) && pipelineDirty == (old(pipelineDirty) && !rebuilt)
    {
      ghost var start := window.Input();
      waited := WaitWhileMinimized(waits);
      rebuilt := window.GetWidth() != 0 && window.GetHeight() != 0;
      if rebuilt {
        window.UpdateFramebufferSize(framebuffer.0, framebuffer.1);
        steps := steps + [UpdateFramebufferSize] + SWAPCHAIN_REBUILD;
        // SwapChain::Create and the pipeline's creation clear their flags.
        swapChainDirty := false;
        pipelineDirty := false;
        AppendAssoc(old(steps), Repeat(WaitEvents, waited), [UpdateFramebufferSize] + SWAPCHAIN_REBUILD);
      }
    }

    /** The busy wait of `recreateSwapChain`: one wait for events per batch
        while the window's width or height reads as zero. */
    method WaitWhileMinimized(waits: seq<seq<W.Event>>) returns (waited: nat)
      modifies this`steps
      modifies window`width, window`height, window`framebufferResized, window`scroll, window`deltaScroll, window`maximized
      ensures waited <= |waits|
      ensures window.Input() == W.AfterEvents(old(window.Input()), Joined(waits[..waited]))
      ensures forall j :: 0 <= j < waited ==> W.Minimized(W.AfterEvents(old(window.Input()), Joined(waits[..j])))
      ensures waited < |waits| ==> !W.Minimized(window.Input())
      ensures steps == old(steps) + Repeat(WaitEvents, waited)
    {
      ghost var start := window.Input();
      waited := 0;
      assert waits[..0] == [];
      while (window.GetWidth() == 0 || window.GetHeight() == 0) && waited < |waits|
        invariant waited <= |waits|
        invariant window.Input() == W.AfterEvents(start, Joined(waits[..waited]))
        invariant forall j :: 0 <= j < waited ==> W.Minimized(W.AfterEvents(start, Joined(waits[..j])))
        invariant steps == old(steps) + Repeat(WaitEvents, waited)
      {
        window.WaitEvents(waits[waited]);
        AfterBatch(start, waits, waited);
        steps := steps + [WaitEvents];
        RepeatSnoc(WaitEvents, waited);
        AppendAssoc(old(steps), Repeat(WaitEvents, waited), [WaitEvents]);
        waited := waited + 1;
      }
    }

    /** `drawFrame`, given what the ImGui panels request, the image and
        out-of-date reports of acquire and present, and what a rebuild would
        be handed. */
    method DrawFrame(ui: UiRequests, image: nat, acquireOutOfDate: bool, presentOutOfDate: bool,
                     waits: seq<seq<W.Event>>, framebuffer: (int, int))
      returns (recreated: bool, waited: nat, rebuilt: bool)
      modifies this`steps, this`swapChainDirty, this`pipelineDirty, this`instanceDirty, this`physicalDeviceDirty
      modifies window`width, window`height, window`framebufferResized, window`scroll, window`deltaScroll,
               window`maximized, window`dirty
      ensures var firstDirty := FrameDirty(old(swapChainDirty) || ui.swapChain || acquireOutOfDate,
                                           old(window.framebufferResized), old(pipelineDirty) || ui.pipeline);
        && recreated == (firstDirty || presentOutOfDate)
        && steps == old(steps) + DrawSteps(image, firstDirty, recreated, waited, rebuilt)
        && swapChainDirty ==
             (!rebuilt && (old(swapChainDirty) || ui.swapChain || acquireOutOfDate || (!firstDirty && presentOutOfDate)))
        && pipelineDirty == (!rebuilt && (old(pipelineDirty) || ui.pipeline))
      ensures recreated ==> WaitedWhileMinimized(old(window.Input()), waits, waited, rebuilt)
      ensures !recreated ==> waited == 0 && !rebuilt
      ensures window.Input() ==
        if recreated then InputAfterRecreate(old(window.Input()), waits, waited, rebuilt, framebuffer) else old(window.Input())
      ensures instanceDirty == (old(instanceDirty) || ui.instance)
      ensures physicalDeviceDirty == (old(physicalDeviceDirty) || ui.physicalDevice)
      ensures window.dirty == (old(window.dirty) || ui.window)
    {
      BeginFrame(ui, image, acquireOutOfDate);
      ghost var firstDirty := DirtyFrameResources();
      recreated, waited, rebuilt := EndFrame(image, presentOutOfDate, waits, framebuffer);
      AppendAssoc(old(steps), [ImguiFrame, Acquire(image)], EndSteps(image, firstDirty, recreated, waited, rebuilt));
    }

    /** The rest of `drawFrame` after the acquire: a swap chain recreation
        instead of drawing when a frame resource is already dirty, otherwise
        the draw and present, and a recreation when that made one dirty. */
    method EndFrame(image: nat, presentOutOfDate: bool, waits: seq<seq<W.Event>>, framebuffer: (int, int))
      returns (recreated: bool, waited: nat, rebuilt: bool)
      modifies this`steps, this`swapChainDirty, this`pipelineDirty
      modifies window`width, window`height, window`framebufferResized, window`scroll, window`deltaScroll, window`maximized
      ensures var firstDirty := old(DirtyFrameResources());
        && recreated == (firstDirty || presentOutOfDate)
        && steps == old(steps) + EndSteps(image, firstDirty, recreated, waited, rebuilt)
        && swapChainDirty == (!rebuilt && (old(swapChainDirty) || (!firstDirty && presentOutOfDate)))
        && pipelineDirty == (!rebuilt && old(pipelineDirty))
      ensures recreated ==> WaitedWhileMinimized(old(window.Input()), waits, waited, rebuilt)
      ensures !recreated ==> waited == 0 && !rebuilt
      ensures window.Input() ==
        if recreated then InputAfterRecreate(old(window.Input()), waits, waited, rebuilt, framebuffer) else old(window.Input())
    {
      if DirtyFrameResources() {
        recreated := true;
        waited, rebuilt := RecreateSwapChain(waits, framebuffer);
        return;
      }
      Present(image, presentOutOfDate);
      recreated := DirtyFrameResources();
      waited, rebuilt := 0, false;
      if recreated {
        waited, rebuilt := RecreateSwapChain(waits, framebuffer);
        AppendAssoc(old(steps), [UpdateUniformBuffer(image), RecordCommandBuffer(image), SubmitAndPresent(image)],
                    RecreateSteps(waited, rebuilt));
      }
    }

    /** The start of `drawFrame`: the ImGui frame, whose panels only ever
        raise flags, and the acquire of the next image. */
    method BeginFrame(ui: UiRequests, image: nat, acquireOutOfDate: bool)
      modifies this`steps, this`swapChainDirty, this`pipelineDirty, this`instanceDirty, this`physicalDeviceDirty
      modifies window`dirty
      ensures steps == old(steps) + [ImguiFrame, Acquire(image)]
      ensures swapChainDirty == (old(swapChainDirty) || ui.swapChain || acquireOutOfDate)
      ensures pipelineDirty == (old(pipelineDirty) || ui.pipeline)
      ensures instanceDirty == (old(instanceDirty) || ui.instance)
      ensures physicalDeviceDirty == (old(physicalDeviceDirty) || ui.physicalDevice)
      ensures window.dirty == (old(window.dirty) || ui.window)
      ensures window.Input() == old(window.Input())
    {
      steps := steps + [ImguiFrame, Acquire(image)];
      if ui.window { window.dirty := true; }
      if ui.instance { instanceDirty := true; }
      if ui.physicalDevice { physicalDeviceDirty := true; }
      if ui.pipeline { pipelineDirty := true; }
      if ui.swapChain || acquireOutOfDate { swapChainDirty := true; }
    }

    /** The middle of `drawFrame`: uniforms, command buffer, submit and present. */
    method Present(image: nat, presentOutOfDate: bool)
      modifies this`steps, this`swapChainDirty
      ensures steps == old(steps) + [UpdateUniformBuffer(image), RecordCommandBuffer(image), SubmitAndPresent(image)]
      ensures swapChainDirty == (old(swapChainDirty) || presentOutOfDate)
    {
      steps := steps + [UpdateUniformBuffer(image), RecordCommandBuffer(image), SubmitAndPresent(image)];
      swapChainDirty := swapChainDirty || presentOutOfDate;
    }

    /** `cleanupVulkan` followed by `initVulkan`: every object is made anew,
        which clears all dirty flags and the pending resize. */
    method RebuildAll()
      modifies this`steps, this`swapChainDirty, this`pipelineDirty, this`instanceDirty, this`physicalDeviceDirty
      modifies window`framebufferResized, window`dirty
      ensures steps == old(steps) + FULL_REBUILD
      ensures !swapChainDirty && !pipelineDirty && !instanceDirty && !physicalDeviceDirty
      ensures !window.framebufferResized && !window.dirty
      ensures window.Input() == old(window.Input()).(framebufferResized := false)
    {
      steps := steps + FULL_REBUILD;
      swapChainDirty, pipelineDirty, instanceDirty, physicalDeviceDirty := false, false, false, false;
      window.framebufferResized, window.dirty := false, false;
    }

    /** The state the next frame starts from. */
    function State(): FrameState
      reads this`swapChainDirty, this`pipelineDirty
      reads window`width, window`height, window`framebufferResized, window`scroll, window`deltaScroll, window`maximized
    {
      FrameState(swapChainDirty, pipelineDirty, window.Input())
    }

    /** The window update, the camera update and `drawFrame` of one frame. */
    method UpdateAndDraw(f: FrameInput) returns (firstDirty: bool, recreated: bool, waited: nat, rebuilt: bool)
      modifies this`steps, this`swapChainDirty, this`pipelineDirty, this`instanceDirty, this`physicalDeviceDirty
      modifies window`width, window`height, window`framebufferResized, window`scroll, window`deltaScroll,
               window`maximized, window`dirty, window`deltaTime, window`lastTime, window`mousePos, window`deltaMousePos
      ensures DrawRules(old(State()), f, firstDirty, recreated, waited, rebuilt)
      ensures State() == Drawn(old(State()), f, firstDirty, recreated, waited, rebuilt)
      ensures steps == old(steps) + [WindowUpdate, CameraUpdate] + DrawSteps(f.image, firstDirty, recreated, waited, rebuilt)
      ensures instanceDirty == (old(instanceDirty) || f.ui.instance)
      ensures physicalDeviceDirty == (old(physicalDeviceDirty) || f.ui.physicalDevice)
      ensures window.dirty == (old(window.dirty) || f.ui.window)
    {
      window.Update(f.now, f.cursor, f.events);
      steps := steps + [WindowUpdate, CameraUpdate];
      firstDirty := FrameDirty(swapChainDirty || f.ui.swapChain || f.acquireOutOfDate,
                               window.framebufferResized, pipelineDirty || f.ui.pipeline);
      recreated, waited, rebuilt := DrawFrame(f.ui, f.image, f.acquireOutOfDate, f.presentOutOfDate, f.waits, f.framebuffer);
    }

    /** One iteration of `mainLoop`. */
    method RunFrame(f: FrameInput) returns (record: FrameRecord)
      requires !instanceDirty && !physicalDeviceDirty && !window.dirty
      modifies this`steps, this`swapChainDirty, this`pipelineDirty, this`instanceDirty, this`physicalDeviceDirty
      modifies window`width, window`height, window`framebufferResized, window`scroll, window`deltaScroll,
               window`maximized, window`dirty, window`deltaTime, window`lastTime, window`mousePos, window`deltaMousePos
      ensures FrameTransition(old(State()), f, record, State())
      ensures FrameFollowsRules(f, record.rebuild, record.steps)
      ensures steps == old(steps) + record.steps
      ensures !instanceDirty && !physicalDeviceDirty && !window.dirty
    {
      ghost var before := State();
      var firstDirty, recreated, waited, rebuilt := UpdateAndDraw(f);
      ghost var drawnSteps := steps;
      var rebuild := instanceDirty || physicalDeviceDirty || window.dirty;
      if rebuild {
        RebuildAll();
      }
      assert steps == drawnSteps + (if rebuild then FULL_REBUILD else []);
      AppendFrameSteps(old(steps), f.image, rebuild, firstDirty, recreated, waited, rebuilt);
      record := FrameRecord(rebuild, firstDirty, recreated, waited, rebuilt,
                            FrameSteps(f.image, rebuild, firstDirty, recreated, waited, rebuilt));
      TransitionFollowsRules(before, f, record, State());
    }

    /** `mainLoop` over the frames drawn until the window asks to close:
        `states[k]` is what frame `k` starts from and `states[k + 1]` what it
        leaves to the next one. */
    method MainLoop(frames: seq<FrameInput>) returns (records: seq<FrameRecord>, states: seq<FrameState>)
      requires !instanceDirty && !physicalDeviceDirty && !window.dirty
      modifies this`steps, this`swapChainDirty, this`pipelineDirty, this`instanceDirty, this`physicalDeviceDirty
      modifies window`width, window`height, window`framebufferResized, window`scroll, window`deltaScroll,
               window`maximized, window`dirty, window`deltaTime, window`lastTime, window`mousePos, window`deltaMousePos
      ensures |records| == |frames| && |states| == |frames| + 1
      ensures states[0] == old(State()) && states[|frames|] == State()
      ensures forall k :: 0 <= k < |frames| ==> FrameTransition(states[k], frames[k], records[k], states[k + 1])
      ensures forall k :: 0 <= k < |frames| ==> FrameFollowsRules(frames[k], records[k].rebuild, records[k].steps)
      ensures steps == old(steps) + AllSteps(records) + [DeviceWaitIdle]
      ensures !instanceDirty && !physicalDeviceDirty && !window.dirty
    {
      records, states := [], [State()];
      var k := 0;
      while k < |frames|
        invariant 0 <= k <= |frames| && |records| == k && |states| == k + 1
        invariant states[0] == old(State()) && states[k] == State()
        invariant !instanceDirty && !physicalDeviceDirty && !window.dirty
        invariant steps == old(steps) + AllSteps(records)
        invariant forall j :: 0 <= j < k ==> FrameTransition(states[j], frames[j], records[j], states[j + 1])
        invariant forall j :: 0 <= j < k ==> FrameFollowsRules(frames[j], records[j].rebuild, records[j].steps)
      {
        ghost var done, reached := records, states;
        var record := RunFrame(frames[k]);
        records, states := records + [record], states + [State()];
        assert records[..k] == done;
        assert AllSteps(records) == AllSteps(done) + record.steps;
        AppendAssoc(old(steps), AllSteps(done), record.steps);
        forall j | 0 <= j < k + 1
          ensures FrameTransition(states[j], frames[j], records[j], states[j + 1])
          ensures FrameFollowsRules(frames[j], records[j].rebuild, records[j].steps)
        {
          if j < k {
            assert states[j] == reached[j] && states[j + 1] == reached[j + 1] && records[j] == done[j];
          }
        }
        k := k + 1;
      }
      steps := steps + [DeviceWaitIdle];
    }
  }
}
