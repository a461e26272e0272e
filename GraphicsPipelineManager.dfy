/**
  The pipeline manager (GraphicsPipelineManager.cpp): the shared descriptor
  pool, the creation of a graphics pipeline with its shader modules, three
  descriptor-set layouts and pipeline layout, its destruction, and the
  inspector panel that edits the rasterization and multisampling settings and
  marks the pipeline dirty.

  Driver calls are recorded in `log` in the order they are made, each with
  the handle the driver hands back; what the driver answers is a parameter.
  The inspector's widgets are replaced by what the user did with them this
  frame.
 */
module GraphicsPipelineManager {
  import opened Vk
  import opened PhysicalDevice

  const POOL_FAILED: string := "Failed to create descriptor pool!"
  const SHADER_FAILED: string := "failed to create shader module!"
  const SCENE_LAYOUT_FAILED: string := "Failed to create scene descriptor set layout!"
  const MODEL_LAYOUT_FAILED: string := "Failed to create model descriptor set layout!"
  const TEXTURE_LAYOUT_FAILED: string := "failed to create descriptor set layout!"
  const PIPELINE_LAYOUT_FAILED: string := "failed to create pipeline layout!"
  const PIPELINE_FAILED: string := "failed to create graphics pipeline!"

  /** `VK_POLYGON_MODE_LINE`. */
  const POLYGON_MODE_LINE: int := 1

  /** The descriptor pool shared by every pipeline: 500 uniform-buffer and 500
      image-sampler descriptors and 1000 sets per frame in flight, in uint32
      arithmetic, with individually freeable sets. */
  function PoolInfo(numFrames: nat): (info: DescriptorPoolInfo)
    requires numFrames < U32_MODULUS
    ensures info.freeDescriptorSet
    ensures info.uniformBufferCount == info.imageSamplerCount == U32(500 * numFrames)
    ensures info.maxSets == U32(1000 * numFrames)
    ensures 1000 * numFrames < U32_MODULUS ==> info.maxSets == info.uniformBufferCount + info.imageSamplerCount
  {
    DescriptorPoolInfo(U32(500 * numFrames), U32(500 * numFrames), U32(1000 * numFrames), true)
  }

  /** In uint32 arithmetic the set count stays the sum of the two descriptor
      counts exactly while the wrapped per-kind count is below 2^31; from
      4294968 frames on the products wrap and this can fail. */
  lemma PoolInfoWraps(numFrames: nat)
    requires numFrames < U32_MODULUS
    ensures PoolInfo(numFrames).maxSets == PoolInfo(numFrames).uniformBufferCount + PoolInfo(numFrames).imageSamplerCount
            <==> (500 * numFrames) % U32_MODULUS < 0x8000_0000
  {
    var u := (500 * numFrames) % U32_MODULUS;
    var q := (500 * numFrames) / U32_MODULUS;
    assert 1000 * numFrames == 2 * q * U32_MODULUS + 2 * u;
    if u < 0x8000_0000 {
      ModOfMultiplePlus(1000 * numFrames, 2 * q, 2 * u);
    } else {
      ModOfMultiplePlus(1000 * numFrames, 2 * q + 1, 2 * u - U32_MODULUS);
    }
  }

  /** `x mod 2^32` of a multiple of 2^32 plus a remainder in range. */
  lemma ModOfMultiplePlus(x: int, k: int, r: int)
    requires x == k * U32_MODULUS + r && 0 <= r < U32_MODULUS
    ensures x % U32_MODULUS == r
  {
  }

  datatype ShaderDescriptor = ShaderDescriptor(shaderBytes: seq<bv8>, stageBit: bv32)

  datatype LayoutBinding = LayoutBinding(binding: nat, descriptorType: nat, descriptorCount: nat, stageFlags: bv32)

  datatype Rasterizer = Rasterizer(polygonMode: int, lineWidth: real, cullMode: int, depthClampEnable: bool)

  datatype Multisampling = Multisampling(sampleShadingEnable: bool, minSampleShading: real)

  /** A driver call, with the handle it hands back where it creates one. */
  datatype PipelineCall =
    | CreateDescriptorPool(info: DescriptorPoolInfo, pool: Handle)
    | DestroyDescriptorPool(pool: Handle)
    | CreateShaderModule(shader: ShaderDescriptor, shaderModule: Handle)
    | DestroyShaderModule(shaderModule: Handle)
    | CreateSetLayout(binding: LayoutBinding, setLayout: Handle)
    | CreatePipelineLayout(setLayouts: seq<Handle>, layout: Handle)
    | CreateGraphicsPipeline(stages: seq<Handle>, layout: Handle, pipeline: Handle)
    | DestroyPipeline(pipeline: Handle)
    | DestroyPipelineLayout(layout: Handle)
    | DestroySetLayout(setLayout: Handle)

  /** What the driver answers to one creation call. */
  datatype Answer = Answer(result: VkResult, handle: Handle)

  /** What the driver answers during `CreatePipeline`, one answer per shader
      stage and one per later creation call. */
  datatype PipelineAnswers = PipelineAnswers(
    shaders: seq<Answer>,
    scene: Answer,
    model: Answer,
    texture: Answer,
    layout: Answer,
    pipeline: Answer)

  /** The first answer that is not a success, or `|answers|`. */
  function FirstFailure(answers: seq<Answer>): (k: nat)
    ensures k <= |answers|
    ensures forall i :: 0 <= i < k ==> answers[i].result == VK_SUCCESS
    ensures k < |answers| ==> answers[k].result != VK_SUCCESS
  {
    if answers == [] then 0
    else if answers[0].result != VK_SUCCESS then 0
    else 1 + FirstFailure(answers[1..])
  }

  /** The shader modules handed back by the driver, in stage order. */
  function Modules(shaders: seq<Answer>): (modules: seq<Handle>)
    ensures |modules| == |shaders|
    ensures forall i :: 0 <= i < |shaders| ==> modules[i] == shaders[i].handle
  {
    seq(|shaders|, i requires 0 <= i < |shaders| => shaders[i].handle)
  }

  /** The creation calls for the first `n` shader stages. */
  function ShaderCreateCalls(stages: seq<ShaderDescriptor>, shaders: seq<Answer>, n: nat): seq<PipelineCall>
    requires |shaders| == |stages| && n <= |stages|
  {
    seq(n, i requires 0 <= i < n => CreateShaderModule(stages[i], shaders[i].handle))
  }

  /** The destruction calls for the given shader modules, in order. */
  function ShaderDestroyCalls(modules: seq<Handle>): seq<PipelineCall> {
    seq(|modules|, i requires 0 <= i < |modules| => DestroyShaderModule(modules[i]))
  }

  /** The calls after the shader modules exist: the scene, model and texture
      set layouts from bindings 0, 1 and 2, the pipeline layout over the three
      in that order, and the pipeline over the first two shader stages; the
      chain stops at the first call that fails. */
  function LayoutCalls(bindings: seq<LayoutBinding>, modules: seq<Handle>, a: PipelineAnswers): seq<PipelineCall>
    requires |bindings| >= 3 && |modules| >= 2
  {
    [CreateSetLayout(bindings[0], a.scene.handle)] +
    if a.scene.result != VK_SUCCESS then [] else
    [CreateSetLayout(bindings[1], a.model.handle)] +
    if a.model.result != VK_SUCCESS then [] else
    [CreateSetLayout(bindings[2], a.texture.handle)] +
    if a.texture.result != VK_SUCCESS then [] else
    [CreatePipelineLayout([a.scene.handle, a.model.handle, a.texture.handle], a.layout.handle)] +
    if a.layout.result != VK_SUCCESS then [] else
    [CreateGraphicsPipeline(modules[..2], a.layout.handle, a.pipeline.handle)]
  }

  predicate LayoutsSucceed(a: PipelineAnswers) {
    && a.scene.result == VK_SUCCESS && a.model.result == VK_SUCCESS && a.texture.result == VK_SUCCESS
    && a.layout.result == VK_SUCCESS && a.pipeline.result == VK_SUCCESS
  }

  /** Every driver call `CreatePipeline` makes, up to the one that fails, and
      the destruction of every shader module when none fails. */
  function PipelineCalls(stages: seq<ShaderDescriptor>, bindings: seq<LayoutBinding>, a: PipelineAnswers): seq<PipelineCall>
    requires |a.shaders| == |stages| >= 2 && |bindings| >= 3
  {
    var k := FirstFailure(a.shaders);
    if k < |stages| then ShaderCreateCalls(stages, a.shaders, k + 1)
    else
      ShaderCreateCalls(stages, a.shaders, |stages|) + LayoutCalls(bindings, Modules(a.shaders), a) +
      if LayoutsSucceed(a) then ShaderDestroyCalls(Modules(a.shaders)) else []
  }

  /** How the creation chain after the shader modules ends: it throws at the
      first call that fails, with that call's message. */
  function LayoutOutcome(a: PipelineAnswers): (o: Outcome)
    ensures o.Pass? <==> LayoutsSucceed(a)
    ensures a.scene.result != VK_SUCCESS ==> o == Fail(SCENE_LAYOUT_FAILED)
    ensures a.scene.result == VK_SUCCESS && a.model.result != VK_SUCCESS ==> o == Fail(MODEL_LAYOUT_FAILED)
    ensures o.Fail? ==> o.error in {SCENE_LAYOUT_FAILED, MODEL_LAYOUT_FAILED, TEXTURE_LAYOUT_FAILED,
                                    PIPELINE_LAYOUT_FAILED, PIPELINE_FAILED}
  {
    if a.scene.result != VK_SUCCESS then Fail(SCENE_LAYOUT_FAILED)
    else if a.model.result != VK_SUCCESS then Fail(MODEL_LAYOUT_FAILED)
    else if a.texture.result != VK_SUCCESS then Fail(TEXTURE_LAYOUT_FAILED)
    else if a.layout.result != VK_SUCCESS then Fail(PIPELINE_LAYOUT_FAILED)
    else if a.pipeline.result != VK_SUCCESS then Fail(PIPELINE_FAILED)
    else Pass
  }

  /** How `CreatePipeline` ends: it throws when a shader module cannot be
      created, then at the first later creation call that fails, and returns
      normally when none fails. */
  function PipelineOutcome(a: PipelineAnswers): (o: Outcome)
    ensures o.Pass? <==> (forall i :: 0 <= i < |a.shaders| ==> a.shaders[i].result == VK_SUCCESS) && LayoutsSucceed(a)
    ensures (exists i :: 0 <= i < |a.shaders| && a.shaders[i].result != VK_SUCCESS) <==> o == Fail(SHADER_FAILED)
  {
    if FirstFailure(a.shaders) < |a.shaders| then Fail(SHADER_FAILED)
    else LayoutOutcome(a)
  }

  /** The calls `DestroyPipeline` makes: the pipeline, its layout, then the
      scene, model and texture set layouts. */
  function DestroyCalls(pipeline: Handle, layout: Handle, scene: Handle, model: Handle, texture: Handle): seq<PipelineCall> {
    [DestroyPipeline(pipeline), DestroyPipelineLayout(layout),
     DestroySetLayout(scene), DestroySetLayout(model), DestroySetLayout(texture)]
  }

  // ---------------------------------------------------------------------------
  // Accounting over call logs

  /** The handles that `f` picks out of each call, in call order. */
  function Collect(calls: seq<PipelineCall>, f: PipelineCall -> seq<Handle>): seq<Handle> {
    if calls == [] then [] else f(calls[0]) + Collect(calls[1..], f)
  }

  function ModuleCreated(c: PipelineCall): seq<Handle> {
    if c.CreateShaderModule? then [c.shaderModule] else []
  }

  function ModuleDestroyed(c: PipelineCall): seq<Handle> {
    if c.DestroyShaderModule? then [c.shaderModule] else []
  }

  /** The pipeline object (set layout, pipeline layout or pipeline) a call creates. */
  function ObjectCreated(c: PipelineCall): seq<Handle> {
    match c
    case CreateSetLayout(_, h) => [h]
    case CreatePipelineLayout(_, h) => [h]
    case CreateGraphicsPipeline(_, _, h) => [h]
    case _ => []
  }

  /** The pipeline object a call destroys. */
  function ObjectDestroyed(c: PipelineCall): seq<Handle> {
    match c
    case DestroySetLayout(h) => [h]
    case DestroyPipelineLayout(h) => [h]
    case DestroyPipeline(h) => [h]
    case _ => []
  }

  lemma {:induction false} CollectAppend(calls: seq<PipelineCall>, more: seq<PipelineCall>, f: PipelineCall -> seq<Handle>)
    ensures Collect(calls + more, f) == Collect(calls, f) + Collect(more, f)
  {
    if calls == [] {
      assert calls + more == more;
    } else {
      assert (calls + more)[1..] == calls[1..] + more;
      CollectAppend(calls[1..], more, f);
    }
  }

  /** When `f` picks exactly `hs[i]` out of the `i`-th call, it picks `hs`. */
  lemma {:induction false} CollectEach(calls: seq<PipelineCall>, f: PipelineCall -> seq<Handle>, hs: seq<Handle>)
    requires |calls| == |hs|
    requires forall i :: 0 <= i < |calls| ==> f(calls[i]) == [hs[i]]
    ensures Collect(calls, f) == hs
  {
    if calls != [] {
      assert forall i :: 0 <= i < |calls| - 1 ==> calls[1..][i] == calls[i + 1] && hs[1..][i] == hs[i + 1];
      CollectEach(calls[1..], f, hs[1..]);
    }
  }

  /** When `f` picks nothing out of any call, it picks nothing. */
  lemma {:induction false} CollectNone(calls: seq<PipelineCall>, f: PipelineCall -> seq<Handle>)
    requires forall i :: 0 <= i < |calls| ==> f(calls[i]) == []
    ensures Collect(calls, f) == []
  {
    if calls != [] {
      assert forall i :: 0 <= i < |calls| - 1 ==> calls[1..][i] == calls[i + 1];
      CollectNone(calls[1..], f);
    }
  }

  /** When `CreatePipeline` returns normally, it destroys every shader module
      it created, once each and in creation order, after creating the
      pipeline. */
  lemma ShaderModulesBalanced(stages: seq<ShaderDescriptor>, bindings: seq<LayoutBinding>, a: PipelineAnswers)
    requires |a.shaders| == |stages| >= 2 && |bindings| >= 3
    requires PipelineOutcome(a).Pass?
    ensures var calls := PipelineCalls(stages, bindings, a);
      Collect(calls, ModuleCreated) == Collect(calls, ModuleDestroyed) == Modules(a.shaders)
  {
    var modules := Modules(a.shaders);
    var shaderCalls := ShaderCreateCalls(stages, a.shaders, |stages|);
    var layoutCalls := LayoutCalls(bindings, modules, a);
    var destroyCalls := ShaderDestroyCalls(modules);
    PassedCalls(stages, bindings, a);
    ShaderCallsCreateModules(stages, a.shaders);
    LayoutCallsTouchNoModule(bindings, modules, a);
    DestroyCallsDestroyModules(modules);
    CollectThree(shaderCalls, layoutCalls, destroyCalls, ModuleCreated, modules, [], []);
    CollectThree(shaderCalls, layoutCalls, destroyCalls, ModuleDestroyed, [], [], modules);
    assert modules + [] + [] == [] + [] + modules == modules;
  }

  lemma ShaderCallsCreateModules(stages: seq<ShaderDescriptor>, shaders: seq<Answer>)
    requires |shaders| == |stages|
    ensures Collect(ShaderCreateCalls(stages, shaders, |stages|), ModuleCreated) == Modules(shaders)
    ensures Collect(ShaderCreateCalls(stages, shaders, |stages|), ModuleDestroyed) == []
  {
    CollectEach(ShaderCreateCalls(stages, shaders, |stages|), ModuleCreated, Modules(shaders));
    CollectNone(ShaderCreateCalls(stages, shaders, |stages|), ModuleDestroyed);
  }

  lemma LayoutCallsTouchNoModule(bindings: seq<LayoutBinding>, modules: seq<Handle>, a: PipelineAnswers)
    requires |bindings| >= 3 && |modules| >= 2
    ensures Collect(LayoutCalls(bindings, modules, a), ModuleCreated) == []
    ensures Collect(LayoutCalls(bindings, modules, a), ModuleDestroyed) == []
  {
    CollectNone(LayoutCalls(bindings, modules, a), ModuleCreated);
    CollectNone(LayoutCalls(bindings, modules, a), ModuleDestroyed);
  }

  lemma DestroyCallsDestroyModules(modules: seq<Handle>)
    ensures Collect(ShaderDestroyCalls(modules), ModuleCreated) == []
    ensures Collect(ShaderDestroyCalls(modules), ModuleDestroyed) == modules
  {
    CollectNone(ShaderDestroyCalls(modules), ModuleCreated);
    CollectEach(ShaderDestroyCalls(modules), ModuleDestroyed, modules);
  }

  /** A successful `CreatePipeline` makes every shader-module call, every
      later creation call and then the shader-module destructions. */
  lemma PassedCalls(stages: seq<ShaderDescriptor>, bindings: seq<LayoutBinding>, a: PipelineAnswers)
    requires |a.shaders| == |stages| >= 2 && |bindings| >= 3
    requires PipelineOutcome(a).Pass?
    ensures PipelineCalls(stages, bindings, a) ==
      ShaderCreateCalls(stages, a.shaders, |stages|) + LayoutCalls(bindings, Modules(a.shaders), a) +
      ShaderDestroyCalls(Modules(a.shaders))
  {
  }

  /** What `f` picks out of three runs of calls, one after the other. */
  lemma CollectThree(x: seq<PipelineCall>, y: seq<PipelineCall>, z: seq<PipelineCall>, f: PipelineCall -> seq<Handle>,
                     hx: seq<Handle>, hy: seq<Handle>, hz: seq<Handle>)
    requires Collect(x, f) == hx && Collect(y, f) == hy && Collect(z, f) == hz
    ensures Collect(x + y + z, f) == hx + hy + hz
  {
    CollectAppend(x, y, f);
    CollectAppend(x + y, z, f);
  }

  /** When `CreatePipeline` throws, it destroys no shader module: those it
      created are leaked. */
  lemma FailureLeaksShaderModules(stages: seq<ShaderDescriptor>, bindings: seq<LayoutBinding>, a: PipelineAnswers)
    requires |a.shaders| == |stages| >= 2 && |bindings| >= 3
    requires PipelineOutcome(a).Fail?
    ensures Collect(PipelineCalls(stages, bindings, a), ModuleDestroyed) == []
  {
    var n := |stages|;
    var k := FirstFailure(a.shaders);
    if k < n {
      CollectNone(ShaderCreateCalls(stages, a.shaders, k + 1), ModuleDestroyed);
    } else {
      var shaderCalls := ShaderCreateCalls(stages, a.shaders, n);
      var layoutCalls := LayoutCalls(bindings, Modules(a.shaders), a);
      assert PipelineCalls(stages, bindings, a) == shaderCalls + layoutCalls + [];
      CollectNone(shaderCalls, ModuleDestroyed);
      CollectNone(layoutCalls, ModuleDestroyed);
      CollectAppend(shaderCalls, layoutCalls, ModuleDestroyed);
      assert shaderCalls + layoutCalls + [] == shaderCalls + layoutCalls;
    }
  }

  /** A successful `CreatePipeline` creates the scene, model and texture set
      layouts, the pipeline layout and the pipeline, in that order. */
  lemma CreationOrder(stages: seq<ShaderDescriptor>, bindings: seq<LayoutBinding>, a: PipelineAnswers)
    requires |a.shaders| == |stages| >= 2 && |bindings| >= 3
    requires PipelineOutcome(a).Pass?
    ensures Collect(PipelineCalls(stages, bindings, a), ObjectCreated) ==
      [a.scene.handle, a.model.handle, a.texture.handle, a.layout.handle, a.pipeline.handle]
  {
    var modules := Modules(a.shaders);
    var shaderCalls := ShaderCreateCalls(stages, a.shaders, |stages|);
    var layoutCalls := LayoutCalls(bindings, modules, a);
    var destroyCalls := ShaderDestroyCalls(modules);
    assert PipelineCalls(stages, bindings, a) == shaderCalls + layoutCalls + destroyCalls;
    CollectNone(shaderCalls, ObjectCreated);
    CollectEach(layoutCalls, ObjectCreated, [a.scene.handle, a.model.handle, a.texture.handle, a.layout.handle, a.pipeline.handle]);
    CollectNone(destroyCalls, ObjectCreated);
    CollectAppend(shaderCalls, layoutCalls, ObjectCreated);
    CollectAppend(shaderCalls + layoutCalls, destroyCalls, ObjectCreated);
  }

  /** The pipeline layout is built on the scene, model and texture set layouts,
      made from bindings 0, 1 and 2, in that order; the pipeline is built on
      the first two shader modules and that pipeline layout. */
  lemma SetLayoutOrder(stages: seq<ShaderDescriptor>, bindings: seq<LayoutBinding>, a: PipelineAnswers)
    requires |a.shaders| == |stages| >= 2 && |bindings| >= 3
    requires PipelineOutcome(a).Pass?
    ensures var calls := PipelineCalls(stages, bindings, a);
      && calls[|stages|..|stages| + 3] ==
         [CreateSetLayout(bindings[0], a.scene.handle), CreateSetLayout(bindings[1], a.model.handle),
          CreateSetLayout(bindings[2], a.texture.handle)]
      && calls[|stages| + 3] == CreatePipelineLayout([a.scene.handle, a.model.handle, a.texture.handle], a.layout.handle)
      && calls[|stages| + 4] == CreateGraphicsPipeline([a.shaders[0].handle, a.shaders[1].handle], a.layout.handle, a.pipeline.handle)
  {
    var modules := Modules(a.shaders);
    var shaderCalls := ShaderCreateCalls(stages, a.shaders, |stages|);
    var layoutCalls := LayoutCalls(bindings, modules, a);
    var calls := PipelineCalls(stages, bindings, a);
    assert calls == shaderCalls + layoutCalls + ShaderDestroyCalls(modules);
    assert |layoutCalls| == 5;
    assert modules[..2] == [a.shaders[0].handle, a.shaders[1].handle];
    assert calls[|stages|..|stages| + 3] == layoutCalls[..3];
  }

  /** The handles a creation call builds on: a pipeline layout on its set
      layouts, a pipeline on its pipeline layout. */
  function Uses(c: PipelineCall): set<Handle> {
    if c.CreatePipelineLayout? then set h | h in c.setLayouts
    else if c.CreateGraphicsPipeline? then {c.layout}
    else {}
  }

  /** In the destruction order `destroyed`, every object a call of `calls`
      created goes before each object that call built it on. */
  ghost predicate DependentsDestroyedFirst(calls: seq<PipelineCall>, destroyed: seq<Handle>) {
    forall j, u, h :: 0 <= j < |calls| && u in Uses(calls[j]) && h in ObjectCreated(calls[j]) ==>
      IndexOf(destroyed, h) < IndexOf(destroyed, u)
  }

  /** The driver handed out five different handles for the five objects. */
  predicate DistinctObjects(a: PipelineAnswers) {
    var hs := [a.scene.handle, a.model.handle, a.texture.handle, a.layout.handle, a.pipeline.handle];
    forall i, j :: 0 <= i < j < 5 ==> hs[i] != hs[j]
  }

  /** The handles `DestroyPipeline` destroys, in order. */
  function DestroyOrder(a: PipelineAnswers): seq<Handle> {
    [a.pipeline.handle, a.layout.handle, a.scene.handle, a.model.handle, a.texture.handle]
  }

  lemma DestroyOrderPositions(a: PipelineAnswers)
    requires DistinctObjects(a)
    ensures IndexOf(DestroyOrder(a), a.pipeline.handle) == 0 && IndexOf(DestroyOrder(a), a.layout.handle) == 1
    ensures IndexOf(DestroyOrder(a), a.scene.handle) == 2 && IndexOf(DestroyOrder(a), a.model.handle) == 3
    ensures IndexOf(DestroyOrder(a), a.texture.handle) == 4
  {
    var d := DestroyOrder(a);
    var hs := [a.scene.handle, a.model.handle, a.texture.handle, a.layout.handle, a.pipeline.handle];
    assert hs[0] != hs[3] && hs[0] != hs[4] && hs[1] != hs[3] && hs[1] != hs[4] && hs[2] != hs[3] && hs[2] != hs[4];
    assert hs[0] != hs[1] && hs[0] != hs[2] && hs[1] != hs[2] && hs[3] != hs[4];
    IndexOfIs(d, a.pipeline.handle, 0);
    IndexOfIs(d, a.layout.handle, 1);
    IndexOfIs(d, a.scene.handle, 2);
    IndexOfIs(d, a.model.handle, 3);
    IndexOfIs(d, a.texture.handle, 4);
  }

  /** The creation calls after the shader modules respect the destruction order. */
  lemma LayoutCallsDestroyedFirst(bindings: seq<LayoutBinding>, modules: seq<Handle>, a: PipelineAnswers)
    requires |bindings| >= 3 && |modules| >= 2
    requires LayoutsSucceed(a) && DistinctObjects(a)
    ensures DependentsDestroyedFirst(LayoutCalls(bindings, modules, a), DestroyOrder(a))
  {
    DestroyOrderPositions(a);
    SucceededLayoutCalls(bindings, modules, a);
    ChainDestroyedFirst(bindings[0], bindings[1], bindings[2], modules[..2], a.scene.handle, a.model.handle,
                        a.texture.handle, a.layout.handle, a.pipeline.handle, DestroyOrder(a));
  }

  /** When every creation call succeeds, the chain makes all five. */
  lemma SucceededLayoutCalls(bindings: seq<LayoutBinding>, modules: seq<Handle>, a: PipelineAnswers)
    requires |bindings| >= 3 && |modules| >= 2 && LayoutsSucceed(a)
    ensures LayoutCalls(bindings, modules, a) ==
      [CreateSetLayout(bindings[0], a.scene.handle), CreateSetLayout(bindings[1], a.model.handle),
       CreateSetLayout(bindings[2], a.texture.handle),
       CreatePipelineLayout([a.scene.handle, a.model.handle, a.texture.handle], a.layout.handle),
       CreateGraphicsPipeline(modules[..2], a.layout.handle, a.pipeline.handle)]
  {
  }

  /** The five creation calls respect a destruction order that destroys the
      pipeline before its layout and the layout before each set layout. */
  lemma ChainDestroyedFirst(b0: LayoutBinding, b1: LayoutBinding, b2: LayoutBinding, shaders: seq<Handle>,
                            scene: Handle, model: Handle, texture: Handle, layout: Handle, pipeline: Handle, d: seq<Handle>)
    requires IndexOf(d, pipeline) < IndexOf(d, layout)
    requires IndexOf(d, layout) < IndexOf(d, scene) && IndexOf(d, layout) < IndexOf(d, model)
    requires IndexOf(d, layout) < IndexOf(d, texture)
    ensures DependentsDestroyedFirst(
      [CreateSetLayout(b0, scene), CreateSetLayout(b1, model), CreateSetLayout(b2, texture),
       CreatePipelineLayout([scene, model, texture], layout), CreateGraphicsPipeline(shaders, layout, pipeline)], d)
  {
    var calls := [CreateSetLayout(b0, scene), CreateSetLayout(b1, model), CreateSetLayout(b2, texture),
                  CreatePipelineLayout([scene, model, texture], layout), CreateGraphicsPipeline(shaders, layout, pipeline)];
    forall j, u, h | 0 <= j < |calls| && u in Uses(calls[j]) && h in ObjectCreated(calls[j])
      ensures IndexOf(d, h) < IndexOf(d, u)
    {
      if j == 3 {
        assert h == layout && u in [scene, model, texture];
      } else {
        assert j == 4 && h == pipeline && u == layout;
      }
    }
  }

  /** Calls that build nothing on anything respect every destruction order. */
  lemma {:induction false} NoUsesDestroyedFirst(calls: seq<PipelineCall>, more: seq<PipelineCall>, destroyed: seq<Handle>)
    requires forall j :: 0 <= j < |calls| ==> Uses(calls[j]) == {}
    requires forall j :: 0 <= j < |more| ==> Uses(more[j]) == {}
    ensures forall mid :: DependentsDestroyedFirst(mid, destroyed) ==>
      DependentsDestroyedFirst(calls + mid + more, destroyed)
  {
    forall mid | DependentsDestroyedFirst(mid, destroyed)
      ensures DependentsDestroyedFirst(calls + mid + more, destroyed)
    {
      var all := calls + mid + more;
      forall j | 0 <= j < |all|
        ensures forall u, h :: u in Uses(all[j]) && h in ObjectCreated(all[j]) ==> IndexOf(destroyed, h) < IndexOf(destroyed, u)
      {
        if j < |calls| {
          assert all[j] == calls[j];
        } else if j < |calls| + |mid| {
          assert all[j] == mid[j - |calls|];
        } else {
          assert all[j] == more[j - |calls| - |mid|];
        }
      }
    }
  }

  /** `DestroyPipeline` after a successful `CreatePipeline` destroys as many
      objects as it created, and exactly the objects it created. */
  lemma DestroyMatchesCreation(stages: seq<ShaderDescriptor>, bindings: seq<LayoutBinding>, a: PipelineAnswers)
    requires |a.shaders| == |stages| >= 2 && |bindings| >= 3
    requires PipelineOutcome(a).Pass?
    ensures var destroys := DestroyCalls(a.pipeline.handle, a.layout.handle, a.scene.handle, a.model.handle, a.texture.handle);
      var destroyed := Collect(destroys, ObjectDestroyed);
      var created := Collect(PipelineCalls(stages, bindings, a), ObjectCreated);
      |destroyed| == |created| && forall h :: h in destroyed <==> h in created
  {
    CreationOrder(stages, bindings, a);
    CollectEach(DestroyCalls(a.pipeline.handle, a.layout.handle, a.scene.handle, a.model.handle, a.texture.handle),
      ObjectDestroyed, DestroyOrder(a));
  }

  /** `DestroyPipeline` after a successful `CreatePipeline` never destroys an
      object while one built on it is still alive (given distinct handles from
      the driver). */
  lemma DestroyRespectsDependencies(stages: seq<ShaderDescriptor>, bindings: seq<LayoutBinding>, a: PipelineAnswers)
    requires |a.shaders| == |stages| >= 2 && |bindings| >= 3
    requires PipelineOutcome(a).Pass? && DistinctObjects(a)
    ensures var destroys := DestroyCalls(a.pipeline.handle, a.layout.handle, a.scene.handle, a.model.handle, a.texture.handle);
      DependentsDestroyedFirst(PipelineCalls(stages, bindings, a), Collect(destroys, ObjectDestroyed))
  {
    CollectEach(DestroyCalls(a.pipeline.handle, a.layout.handle, a.scene.handle, a.model.handle, a.texture.handle),
      ObjectDestroyed, DestroyOrder(a));
    var modules := Modules(a.shaders);
    var shaderCalls := ShaderCreateCalls(stages, a.shaders, |stages|);
    var layoutCalls := LayoutCalls(bindings, modules, a);
    var destroyCalls := ShaderDestroyCalls(modules);
    assert PipelineCalls(stages, bindings, a) == shaderCalls + layoutCalls + destroyCalls;
    assert forall j :: 0 <= j < |shaderCalls| ==> Uses(shaderCalls[j]) == {};
    assert forall j :: 0 <= j < |destroyCalls| ==> Uses(destroyCalls[j]) == {};
    LayoutCallsDestroyedFirst(bindings, modules, a);
    NoUsesDestroyedFirst(shaderCalls, destroyCalls, DestroyOrder(a));
  }

  // ---------------------------------------------------------------------------
  // The inspector panel

  /** What the user did with the inspector's widgets this frame: whether the
      panel is open, the mode picked in each combo, the value a slider was
      dragged to, and whether a checkbox was clicked. */
  datatype InspectorInput = InspectorInput(
    headerOpen: bool,
    polygonPick: Option<int>,
    lineWidthDrag: Option<real>,
    cullPick: Option<int>,
    sampleShadingClick: bool,
    minSampleShadingDrag: Option<real>,
    depthClampClick: bool)

  /** The rasterization settings after the inspector: a picked polygon mode
      (only with `fillModeNonSolid`), then the line width (only with
      `wideLines` and in line mode), the picked cull mode, and the depth-clamp
      checkbox (only with `depthClamp`). */
  function InspectRasterizer(r: Rasterizer, f: Features, input: InspectorInput): (r': Rasterizer)
    ensures !input.headerOpen ==> r' == r
    ensures input.headerOpen && f.fillModeNonSolid && input.polygonPick.Some? ==>
      r'.polygonMode == input.polygonPick.value
    ensures r'.polygonMode != r.polygonMode ==> f.fillModeNonSolid && input.polygonPick == Some(r'.polygonMode)
    ensures r'.lineWidth != r.lineWidth ==>
      f.wideLines && r'.polygonMode == POLYGON_MODE_LINE && input.lineWidthDrag == Some(r'.lineWidth)
    ensures input.headerOpen && input.cullPick.Some? ==> r'.cullMode == input.cullPick.value
    ensures r'.cullMode != r.cullMode ==> input.cullPick == Some(r'.cullMode)
    ensures r'.depthClampEnable != r.depthClampEnable <==> input.headerOpen && f.depthClamp && input.depthClampClick
  {
    if !input.headerOpen then r
    else
      var polygonMode := if f.fillModeNonSolid && input.polygonPick.Some? then input.polygonPick.value else r.polygonMode;
      var lineWidth :=
        if f.wideLines && polygonMode == POLYGON_MODE_LINE && input.lineWidthDrag.Some? then input.lineWidthDrag.value
        else r.lineWidth;
      var cullMode := if input.cullPick.Some? then input.cullPick.value else r.cullMode;
      var depthClamp := if f.depthClamp && input.depthClampClick then !r.depthClampEnable else r.depthClampEnable;
      Rasterizer(polygonMode, lineWidth, cullMode, depthClamp)
  }

  /** The multisampling settings after the inspector: the sample-shading
      checkbox (only with `sampleRateShading`), then the minimum sample shading
      (only while sample shading is on). */
  function InspectMultisampling(m: Multisampling, f: Features, input: InspectorInput): (m': Multisampling)
    ensures m'.sampleShadingEnable != m.sampleShadingEnable <==>
      input.headerOpen && f.sampleRateShading && input.sampleShadingClick
    ensures m'.minSampleShading != m.minSampleShading ==>
      input.headerOpen && f.sampleRateShading && m'.sampleShadingEnable && input.minSampleShadingDrag == Some(m'.minSampleShading)
  {
    if !input.headerOpen || !f.sampleRateShading then m
    else
      var enable := if input.sampleShadingClick then !m.sampleShadingEnable else m.sampleShadingEnable;
      var minShading := if enable && input.minSampleShadingDrag.Some? then input.minSampleShadingDrag.value else m.minSampleShading;
      Multisampling(enable, minShading)
  }

  /** The pipeline objects one pipeline owns, and whether they must be rebuilt. */
  class PipelineResource {
    var pipeline: Handle
    var layout: Handle
    var sceneDescriptorSetLayout: Handle
    var modelDescriptorSetLayout: Handle
    var textureDescriptorSetLayout: Handle
    var dirty: bool

    constructor ()
      ensures pipeline == NULL_HANDLE && layout == NULL_HANDLE
      ensures sceneDescriptorSetLayout == NULL_HANDLE && modelDescriptorSetLayout == NULL_HANDLE
      ensures textureDescriptorSetLayout == NULL_HANDLE && !dirty
    {
      pipeline, layout := NULL_HANDLE, NULL_HANDLE;
      sceneDescriptorSetLayout, modelDescriptorSetLayout, textureDescriptorSetLayout := NULL_HANDLE, NULL_HANDLE, NULL_HANDLE;
      dirty := false;
    }
  }

  /** What a pipeline is built from; the inspector edits its rasterization and
      multisampling settings. */
  class PipelineDescriptor {
    var name: string
    var shaderStages: seq<ShaderDescriptor>
    var bindings: seq<LayoutBinding>
    var rasterizer: Rasterizer
    var multisampling: Multisampling

    constructor (shaderStages: seq<ShaderDescriptor>, bindings: seq<LayoutBinding>,
                 rasterizer: Rasterizer, multisampling: Multisampling)
      ensures name == "Default" && this.shaderStages == shaderStages && this.bindings == bindings
      ensures this.rasterizer == rasterizer && this.multisampling == multisampling
    {
      name := "Default";
      this.shaderStages := shaderStages;
      this.bindings := bindings;
      this.rasterizer := rasterizer;
      this.multisampling := multisampling;
    }
  }

  /** The manager's shared descriptor pool and the driver calls it has made. */
  class PipelineManager {
    var descriptorPool: Handle
    var log: seq<PipelineCall>

    constructor ()
      ensures descriptorPool == NULL_HANDLE && log == []
    {
      descriptorPool := NULL_HANDLE;
      log := [];
    }

    /** Creates the shared descriptor pool; the driver writes the handle even
        when it reports failure. */
    method Create(numFrames: nat, answer: Answer) returns (o: Outcome)
      requires numFrames < U32_MODULUS
      modifies this
      ensures log == old(log) + [CreateDescriptorPool(PoolInfo(numFrames), answer.handle)]
      ensures descriptorPool == answer.handle
      ensures o == if answer.result == VK_SUCCESS then Pass else Fail(POOL_FAILED)
    {
      log := log + [CreateDescriptorPool(PoolInfo(numFrames), answer.handle)];
      descriptorPool := answer.handle;
      if answer.result != VK_SUCCESS {
        return Fail(POOL_FAILED);
      }
      o := Pass;
    }

    method Destroy()
      modifies this`log
      ensures log == old(log) + [DestroyDescriptorPool(descriptorPool)]
    {
      log := log + [DestroyDescriptorPool(descriptorPool)];
    }

    /** Creates one shader module per stage, stopping at the first failure. */
    method CreateShaderModules(stages: seq<ShaderDescriptor>, shaders: seq<Answer>) returns (o: Outcome, modules: seq<Handle>)
      requires |shaders| == |stages|
      modifies this`log
      ensures var k := FirstFailure(shaders);
        && (k < |stages| ==> o == Fail(SHADER_FAILED) && log == old(log) + ShaderCreateCalls(stages, shaders, k + 1))
        && (k == |stages| ==> o == Pass && log == old(log) + ShaderCreateCalls(stages, shaders, |stages|))
      ensures o.Pass? ==> modules == Modules(shaders)
    {
      modules := [];
      ghost var start := log;
      for i := 0 to |stages|
        invariant log == start + ShaderCreateCalls(stages, shaders, i)
        invariant modules == Modules(shaders)[..i]
        invariant forall t :: 0 <= t < i ==> shaders[t].result == VK_SUCCESS
      {
        assert ShaderCreateCalls(stages, shaders, i + 1) ==
          ShaderCreateCalls(stages, shaders, i) + [CreateShaderModule(stages[i], shaders[i].handle)];
        log := log + [CreateShaderModule(stages[i], shaders[i].handle)];
        if shaders[i].result != VK_SUCCESS {
          return Fail(SHADER_FAILED), modules;
        }
        modules := modules + [shaders[i].handle];
      }
      o := Pass;
    }

    /** `CreatePipeline`: the shader modules, the three set layouts, the
        pipeline layout and the pipeline, each throwing when the driver
        reports failure, then the destruction of the shader modules. The
        driver writes each handle into the resource even when it reports
        failure; `dirty` is cleared only at the successful end. */
    method CreatePipeline(desc: PipelineDescriptor, resource: PipelineResource, a: PipelineAnswers) returns (o: Outcome)
      requires |desc.bindings| >= 3 && |desc.shaderStages| >= 2 && |a.shaders| == |desc.shaderStages|
      modifies this`log, resource
      ensures log == old(log) + PipelineCalls(desc.shaderStages, desc.bindings, a)
      ensures o == PipelineOutcome(a)
      ensures o.Pass? ==> !resource.dirty && resource.pipeline == a.pipeline.handle && resource.layout == a.layout.handle
      ensures o.Pass? ==> resource.sceneDescriptorSetLayout == a.scene.handle
      ensures o.Pass? ==> resource.modelDescriptorSetLayout == a.model.handle
      ensures o.Pass? ==> resource.textureDescriptorSetLayout == a.texture.handle
      ensures o.Fail? ==> resource.dirty == old(resource.dirty)
    {
      var modules;
      o, modules := CreateShaderModules(desc.shaderStages, a.shaders);
      if o.Fail? {
        return;
      }
      o := CreateLayouts(desc.bindings, modules, resource, a);
      if o.Fail? {
        return;
      }
      DestroyShaderModules(modules);
      resource.dirty := false;
    }

    /** Destroys the shader modules, in order. */
    method DestroyShaderModules(modules: seq<Handle>)
      modifies this`log
      ensures log == old(log) + ShaderDestroyCalls(modules)
    {
      for i := 0 to |modules|
        invariant log == old(log) + ShaderDestroyCalls(modules[..i])
      {
        assert ShaderDestroyCalls(modules[..i + 1]) == ShaderDestroyCalls(modules[..i]) + [DestroyShaderModule(modules[i])];
        log := log + [DestroyShaderModule(modules[i])];
      }
      assert modules[..|modules|] == modules;
    }

    /** The set layouts, pipeline layout and pipeline of `CreatePipeline`. */
    method CreateLayouts(bindings: seq<LayoutBinding>, modules: seq<Handle>, resource: PipelineResource, a: PipelineAnswers)
      returns (o: Outcome)
      requires |bindings| >= 3 && |modules| >= 2
      modifies this`log, resource`sceneDescriptorSetLayout, resource`modelDescriptorSetLayout,
        resource`textureDescriptorSetLayout, resource`layout, resource`pipeline
      ensures log == old(log) + LayoutCalls(bindings, modules, a)
      ensures o == LayoutOutcome(a)
      ensures o.Pass? ==> resource.pipeline == a.pipeline.handle && resource.layout == a.layout.handle
      ensures o.Pass? ==> resource.sceneDescriptorSetLayout == a.scene.handle
      ensures o.Pass? ==> resource.modelDescriptorSetLayout == a.model.handle
      ensures o.Pass? ==> resource.textureDescriptorSetLayout == a.texture.handle
    {
      log := log + [CreateSetLayout(bindings[0], a.scene.handle)];
      resource.sceneDescriptorSetLayout := a.scene.handle;
      if a.scene.result != VK_SUCCESS {
        return Fail(SCENE_LAYOUT_FAILED);
      }
      log := log + [CreateSetLayout(bindings[1], a.model.handle)];
      resource.modelDescriptorSetLayout := a.model.handle;
      if a.model.result != VK_SUCCESS {
        return Fail(MODEL_LAYOUT_FAILED);
      }
      log := log + [CreateSetLayout(bindings[2], a.texture.handle)];
      resource.textureDescriptorSetLayout := a.texture.handle;
      if a.texture.result != VK_SUCCESS {
        return Fail(TEXTURE_LAYOUT_FAILED);
      }
      var setLayouts := [resource.sceneDescriptorSetLayout, resource.modelDescriptorSetLayout, resource.textureDescriptorSetLayout];
      log := log + [CreatePipelineLayout(setLayouts, a.layout.handle)];
      resource.layout := a.layout.handle;
      if a.layout.result != VK_SUCCESS {
        return Fail(PIPELINE_LAYOUT_FAILED);
      }
      log := log + [CreateGraphicsPipeline(modules[..2], resource.layout, a.pipeline.handle)];
      resource.pipeline := a.pipeline.handle;
      if a.pipeline.result != VK_SUCCESS {
        return Fail(PIPELINE_FAILED);
      }
      o := Pass;
    }

    /** Destroys the pipeline, its layout, then the scene, model and texture
        set layouts; the resource keeps its (now dangling) handles. */
    method DestroyPipeline(resource: PipelineResource)
      modifies this`log
      ensures log == old(log) + DestroyCalls(resource.pipeline, resource.layout, resource.sceneDescriptorSetLayout,
                                             resource.modelDescriptorSetLayout, resource.textureDescriptorSetLayout)
    {
      log := log + [PipelineCall.DestroyPipeline(resource.pipeline)];
      log := log + [DestroyPipelineLayout(resource.layout)];
      log := log + [DestroySetLayout(resource.sceneDescriptorSetLayout)];
      log := log + [DestroySetLayout(resource.modelDescriptorSetLayout)];
      log := log + [DestroySetLayout(resource.textureDescriptorSetLayout)];
    }

    /** The inspector panel for one pipeline: each widget writes its setting
        and sets `dirty` when it reports a change; nothing clears `dirty`. */
    method OnImgui(desc: PipelineDescriptor, resource: PipelineResource, f: Features, input: InspectorInput)
      modifies desc`rasterizer, desc`multisampling, resource`dirty
      ensures desc.rasterizer == InspectRasterizer(old(desc.rasterizer), f, input)
      ensures desc.multisampling == InspectMultisampling(old(desc.multisampling), f, input)
      ensures resource.dirty ==
        (old(resource.dirty) || desc.rasterizer != old(desc.rasterizer) || desc.multisampling != old(desc.multisampling))
    {
      if !input.headerOpen {
        return;
      }
      var r, m, dirty := desc.rasterizer, desc.multisampling, resource.dirty;
      if f.fillModeNonSolid && input.polygonPick.Some? && input.polygonPick.value != r.polygonMode {
        r := r.(polygonMode := input.polygonPick.value);
        dirty := true;
      }
      if f.wideLines && r.polygonMode == POLYGON_MODE_LINE && input.lineWidthDrag.Some? &&
         input.lineWidthDrag.value != r.lineWidth {
        r := r.(lineWidth := input.lineWidthDrag.value);
        dirty := true;
      }
      if input.cullPick.Some? && input.cullPick.value != r.cullMode {
        r := r.(cullMode := input.cullPick.value);
        dirty := true;
      }
      if f.sampleRateShading {
        if input.sampleShadingClick {
          m := m.(sampleShadingEnable := !m.sampleShadingEnable);
          dirty := true;
        }
        if m.sampleShadingEnable && input.minSampleShadingDrag.Some? &&
           input.minSampleShadingDrag.value != m.minSampleShading {
          m := m.(minSampleShading := input.minSampleShadingDrag.value);
          dirty := true;
        }
      }
      if f.depthClamp && input.depthClampClick {
        r := r.(depthClampEnable := !r.depthClampEnable);
        dirty := true;
      }
      desc.rasterizer, desc.multisampling, resource.dirty := r, m, dirty;
    }
  }
}
