/**
  Device session setup (LogicalDevice.cpp): the queue-create records, the
  feature request, the report of missing required extensions, the
  VkDeviceCreateInfo, and the lifetime of the device, its queues, its command
  pool and the one-shot command buffers.

  Driver calls are recorded in `log` in the order they are made; what the
  driver answers (result codes and handles) is a parameter.
 */
module LogicalDevice {
  import opened Vk
  import opened PhysicalDevice

  const QUEUE_PRIORITY: real := 1.0

  datatype QueueCreateInfo = QueueCreateInfo(queueFamilyIndex: nat, queueCount: nat, priority: real)

  /** `std::set<uint32_t>{present, graphics}`, listed in its (ascending)
      iteration order. */
  function UniqueFamilies(presentFamily: nat, graphicsFamily: nat): (r: seq<nat>)
    ensures forall f :: f in r <==> f == presentFamily || f == graphicsFamily
    ensures forall i, j :: 0 <= i < j < |r| ==> r[i] < r[j]
  {
    if presentFamily == graphicsFamily then [presentFamily]
    else if presentFamily < graphicsFamily then [presentFamily, graphicsFamily]
    else [graphicsFamily, presentFamily]
  }

  /** One queue-create record, with one queue of priority 1, per distinct family. */
  function QueueCreateInfos(presentFamily: nat, graphicsFamily: nat): seq<QueueCreateInfo> {
    var families := UniqueFamilies(presentFamily, graphicsFamily);
    seq(|families|, i requires 0 <= i < |families| => QueueCreateInfo(families[i], 1, QUEUE_PRIORITY))
  }

  /** The loop of `LogicalDevice::Create` that fills in the queue-create records. */
  method BuildQueueCreateInfos(presentFamily: nat, graphicsFamily: nat) returns (infos: seq<QueueCreateInfo>)
    ensures infos == QueueCreateInfos(presentFamily, graphicsFamily)
    ensures |infos| == if presentFamily == graphicsFamily then 1 else 2
    ensures forall i :: 0 <= i < |infos| ==> infos[i].queueCount == 1 && infos[i].priority == QUEUE_PRIORITY
    ensures (set i | 0 <= i < |infos| :: infos[i].queueFamilyIndex) == {presentFamily, graphicsFamily}
    ensures forall i, j :: 0 <= i < j < |infos| ==> infos[i].queueFamilyIndex != infos[j].queueFamilyIndex
  {
    var uniqueFamilies := UniqueFamilies(presentFamily, graphicsFamily);
    infos := [];
    for k := 0 to |uniqueFamilies|
      invariant |infos| == k
      invariant forall i :: 0 <= i < k ==> infos[i] == QueueCreateInfo(uniqueFamilies[i], 1, QUEUE_PRIORITY)
    {
      infos := infos + [QueueCreateInfo(uniqueFamilies[k], 1, QUEUE_PRIORITY)];
    }
    assert forall i :: 0 <= i < |infos| ==> infos[i].queueFamilyIndex == uniqueFamilies[i];
    assert presentFamily in uniqueFamilies && graphicsFamily in uniqueFamilies;
  }

  /** Every feature `request` asks for is in `supported`. */
  predicate FeaturesWithin(request: Features, supported: Features) {
    && (request.logicOp ==> supported.logicOp)
    && (request.samplerAnisotropy ==> supported.samplerAnisotropy)
    && (request.sampleRateShading ==> supported.sampleRateShading)
    && (request.fillModeNonSolid ==> supported.fillModeNonSolid)
    && (request.wideLines ==> supported.wideLines)
    && (request.depthClamp ==> supported.depthClamp)
    && request.others <= supported.others
  }

  /** The features requested from the device: the six named ones that are
      supported, nothing else. */
  function EnabledFeatures(supported: Features): (enabled: Features)
    ensures FeaturesWithin(enabled, supported)
    ensures enabled.others == {}
  {
    Features(
      logicOp := supported.logicOp,
      samplerAnisotropy := supported.samplerAnisotropy,
      sampleRateShading := supported.sampleRateShading,
      fillModeNonSolid := supported.fillModeNonSolid,
      wideLines := supported.wideLines,
      depthClamp := supported.depthClamp,
      others := {})
  }

  /** No request made only of supported named features asks for more than
      `EnabledFeatures`: it is the largest such request. */
  lemma EnabledFeaturesLargest(supported: Features, request: Features)
    requires FeaturesWithin(request, supported) && request.others == {}
    ensures FeaturesWithin(request, EnabledFeatures(supported))
  {
  }

  function MissingExtensionWarning(name: string): string {
    "Required extension " + name + " not available!"
  }

  /** The required extensions that `available` lacks, in the order of `required`. */
  function MissingInOrder(required: seq<string>, available: seq<string>): seq<string> {
    if required == [] then []
    else
      var last := required[|required| - 1];
      MissingInOrder(required[..|required| - 1], available) + (if last in available then [] else [last])
  }

  lemma {:induction false} MissingInOrderExactly(required: seq<string>, available: seq<string>)
    ensures forall e :: e in MissingInOrder(required, available) <==> e in required && e !in available
  {
    if required != [] {
      var front := required[..|required| - 1];
      MissingInOrderExactly(front, available);
      assert required == front + [required[|required| - 1]];
    }
  }

  /** The availability check of `LogicalDevice::Create`: one line on stderr per
      missing required extension; nothing else happens. */
  method ReportMissingExtensions(required: seq<string>, available: seq<string>) returns (warnings: seq<string>)
    ensures |warnings| == |MissingInOrder(required, available)|
    ensures forall i :: 0 <= i < |warnings| ==>
      warnings[i] == MissingExtensionWarning(MissingInOrder(required, available)[i])
  {
    warnings := [];
    var k := 0;
    while k < |required|
      invariant 0 <= k <= |required|
      invariant |warnings| == |MissingInOrder(required[..k], available)|
      invariant forall i :: 0 <= i < |warnings| ==>
        warnings[i] == MissingExtensionWarning(MissingInOrder(required[..k], available)[i])
    {
      var req := required[k];
      var isAvailable := false;
      var i := 0;
      while i < |available|
        invariant 0 <= i <= |available|
        invariant forall j :: 0 <= j < i ==> available[j] != req
      {
        if available[i] == req {
          isAvailable := true;
          break;
        }
        i := i + 1;
      }
      assert isAvailable <==> req in available;
      assert required[..k + 1][..k] == required[..k];
      if !isAvailable {
        warnings := warnings + [MissingExtensionWarning(req)];
      }
      k := k + 1;
    }
    assert required[..k] == required;
  }

  /** The fields of VkDeviceCreateInfo the engine fills in. */
  datatype DeviceCreateInfo = DeviceCreateInfo(
    queueCreateInfos: seq<QueueCreateInfo>,
    enabledExtensionNames: seq<string>,
    enabledFeatures: Features,
    enabledLayerNames: seq<string>)

  /** The driver calls the model records. */
  datatype DeviceCall =
    | CreateDevice(info: DeviceCreateInfo)
    | GetDeviceQueue(family: nat)
    | CreateCommandPool(family: nat)
    | DestroyCommandPool(pool: Handle)
    | DestroyDevice(device: Handle)
    | AllocateCommandBuffer(pool: Handle, buffer: Handle)
    | BeginCommandBuffer(buffer: Handle, oneTimeSubmit: bool)
    | EndCommandBuffer(buffer: Handle)
    | QueueSubmit(queue: Handle, buffer: Handle)
    | QueueWaitIdle(queue: Handle)
    | FreeCommandBuffer(pool: Handle, buffer: Handle)

  /** What the driver answers during `LogicalDevice::Create`. */
  datatype DeviceAnswers = DeviceAnswers(
    createDevice: VkResult,
    device: Handle,
    graphicsQueue: Handle,
    presentQueue: Handle,
    createCommandPool: VkResult,
    commandPool: Handle)

  function BufferAllocated(c: DeviceCall): multiset<Handle> {
    if c.AllocateCommandBuffer? then multiset{c.buffer} else multiset{}
  }

  function BufferFreed(c: DeviceCall): multiset<Handle> {
    if c.FreeCommandBuffer? then multiset{c.buffer} else multiset{}
  }

  /** The command buffers allocated by the first `n` calls of `log`, with
      multiplicity. */
  function AllocationsIn(log: seq<DeviceCall>, n: nat): multiset<Handle>
    requires n <= |log|
  {
    if n == 0 then multiset{} else AllocationsIn(log, n - 1) + BufferAllocated(log[n - 1])
  }

  /** The command buffers freed by the first `n` calls of `log`, with
      multiplicity. */
  function FreesIn(log: seq<DeviceCall>, n: nat): multiset<Handle>
    requires n <= |log|
  {
    if n == 0 then multiset{} else FreesIn(log, n - 1) + BufferFreed(log[n - 1])
  }

  function Allocations(log: seq<DeviceCall>): multiset<Handle> {
    AllocationsIn(log, |log|)
  }

  function Frees(log: seq<DeviceCall>): multiset<Handle> {
    FreesIn(log, |log|)
  }

  /** Appending calls does not change what a prefix allocated or freed. */
  lemma {:induction false} PrefixUnchanged(log: seq<DeviceCall>, more: seq<DeviceCall>, n: nat)
    requires n <= |log|
    ensures AllocationsIn(log + more, n) == AllocationsIn(log, n)
    ensures FreesIn(log + more, n) == FreesIn(log, n)
  {
    if n > 0 {
      PrefixUnchanged(log, more, n - 1);
      assert (log + more)[n - 1] == log[n - 1];
    }
  }

  lemma AllocationsSnoc(log: seq<DeviceCall>, c: DeviceCall)
    ensures Allocations(log + [c]) == Allocations(log) + BufferAllocated(c)
    ensures Frees(log + [c]) == Frees(log) + BufferFreed(c)
  {
    PrefixUnchanged(log, [c], |log|);
  }

  /** A call that neither allocates nor frees a command buffer. */
  predicate TouchesNoBuffer(c: DeviceCall) {
    !c.AllocateCommandBuffer? && !c.FreeCommandBuffer?
  }

  /** Calls that touch no command buffer leave the allocations and frees of a
      log as they were. */
  lemma {:induction false} NoBufferCallsKeepAccounts(log: seq<DeviceCall>, calls: seq<DeviceCall>)
    requires forall i :: 0 <= i < |calls| ==> TouchesNoBuffer(calls[i])
    ensures Allocations(log + calls) == Allocations(log)
    ensures Frees(log + calls) == Frees(log)
  {
    if calls != [] {
      var front, last := calls[..|calls| - 1], calls[|calls| - 1];
      assert forall i :: 0 <= i < |front| ==> front[i] == calls[i];
      NoBufferCallsKeepAccounts(log, front);
      assert log + calls == (log + front) + [last];
      AllocationsSnoc(log + front, last);
      assert BufferAllocated(last) == multiset{} && BufferFreed(last) == multiset{};
    } else {
      assert log + calls == log;
    }
  }

  /** Every command buffer allocated in `log` is either freed in it or in
      `outstanding`. */
  ghost predicate Balanced(log: seq<DeviceCall>, outstanding: multiset<Handle>) {
    Allocations(log) == Frees(log) + outstanding
  }

  /** The warning lines for the required extensions `available` lacks. */
  function MissingWarnings(required: seq<string>, available: seq<string>): (r: seq<string>)
    ensures |r| == |MissingInOrder(required, available)|
    ensures forall i :: 0 <= i < |r| ==> r[i] == MissingExtensionWarning(MissingInOrder(required, available)[i])
  {
    var missing := MissingInOrder(required, available);
    seq(|missing|, i requires 0 <= i < |missing| => MissingExtensionWarning(missing[i]))
  }

  /** The VkDeviceCreateInfo `LogicalDevice::Create` hands to the driver. */
  function DeviceInfo(adapter: Adapter, requiredExtensions: seq<string>, validationEnabled: bool,
                      instanceLayers: seq<string>): DeviceCreateInfo
  {
    var p, g := U32(adapter.presentFamily), U32(adapter.graphicsFamily);
    DeviceCreateInfo(
      QueueCreateInfos(p, g),
      requiredExtensions,
      EnabledFeatures(adapter.features),
      if validationEnabled then instanceLayers else [])
  }

  /** What the device-creation request is made of: one queue-create record
      per distinct family, the supported named features, the required
      extensions and, when validation is on, the instance's layers. */
  lemma DeviceInfoContents(adapter: Adapter, requiredExtensions: seq<string>, validationEnabled: bool,
                           instanceLayers: seq<string>)
    ensures var info := DeviceInfo(adapter, requiredExtensions, validationEnabled, instanceLayers);
      var p, g := U32(adapter.presentFamily), U32(adapter.graphicsFamily);
      && |info.queueCreateInfos| == (if p == g then 1 else 2)
      && (forall i :: 0 <= i < |info.queueCreateInfos| ==>
            info.queueCreateInfos[i].queueCount == 1 && info.queueCreateInfos[i].priority == QUEUE_PRIORITY)
      && (set i | 0 <= i < |info.queueCreateInfos| :: info.queueCreateInfos[i].queueFamilyIndex) == {p, g}
      && FeaturesWithin(info.enabledFeatures, adapter.features)
      && info.enabledExtensionNames == requiredExtensions
      && info.enabledLayerNames == (if validationEnabled then instanceLayers else [])
  {
    var p, g := U32(adapter.presentFamily), U32(adapter.graphicsFamily);
    var infos := DeviceInfo(adapter, requiredExtensions, validationEnabled, instanceLayers).queueCreateInfos;
    assert p in UniqueFamilies(p, g) && g in UniqueFamilies(p, g);
    assert forall i :: 0 <= i < |infos| ==> infos[i].queueFamilyIndex == UniqueFamilies(p, g)[i];
  }

  /** The part of `LogicalDevice::Create` before the driver is called: the
      queue-create records, the features, the availability check and the
      create-info. */
  method PrepareDevice(adapter: Adapter, requiredExtensions: seq<string>, validationEnabled: bool,
                       instanceLayers: seq<string>)
    returns (info: DeviceCreateInfo, warnings: seq<string>)
    ensures info == DeviceInfo(adapter, requiredExtensions, validationEnabled, instanceLayers)
    ensures warnings == MissingWarnings(requiredExtensions, adapter.extensions)
  {
    var graphicsFamily := U32(adapter.graphicsFamily);
    var presentFamily := U32(adapter.presentFamily);
    var queueCreateInfos := BuildQueueCreateInfos(presentFamily, graphicsFamily);
    var features := EnabledFeatures(adapter.features);
    warnings := ReportMissingExtensions(requiredExtensions, adapter.extensions);
    info := DeviceCreateInfo(queueCreateInfos, requiredExtensions, features,
                             if validationEnabled then instanceLayers else []);
  }

  /** The driver calls `LogicalDevice::Create` makes, in order: it stops
      after vkCreateDevice when that fails. */
  function CreateCalls(info: DeviceCreateInfo, graphicsFamily: nat, presentFamily: nat,
                       answers: DeviceAnswers): seq<DeviceCall>
  {
    [CreateDevice(info)] +
    if answers.createDevice != VK_SUCCESS then []
    else [GetDeviceQueue(graphicsFamily), GetDeviceQueue(presentFamily), CreateCommandPool(graphicsFamily)]
  }

  /** The calls `BeginSingleTimeCommands` makes for `buffer`. */
  function BeginCalls(pool: Handle, buffer: Handle): seq<DeviceCall> {
    [AllocateCommandBuffer(pool, buffer), BeginCommandBuffer(buffer, true)]
  }

  /** The calls `EndSingleTimeCommands` makes for `buffer`. */
  function EndCalls(pool: Handle, queue: Handle, buffer: Handle): seq<DeviceCall> {
    [EndCommandBuffer(buffer), QueueSubmit(queue, buffer), QueueWaitIdle(queue), FreeCommandBuffer(pool, buffer)]
  }

  /** Beginning a one-shot buffer makes it outstanding. */
  lemma BeginKeepsBalance(log: seq<DeviceCall>, outstanding: multiset<Handle>, pool: Handle, buffer: Handle)
    requires Balanced(log, outstanding)
    ensures Balanced(log + BeginCalls(pool, buffer), outstanding + multiset{buffer})
  {
    var calls := BeginCalls(pool, buffer);
    AllocationsSnoc(log, calls[0]);
    NoBufferCallsKeepAccounts(log + [calls[0]], [calls[1]]);
    assert log + calls == log + [calls[0]] + [calls[1]];
  }

  /** Ending an outstanding one-shot buffer frees it. */
  lemma EndKeepsBalance(log: seq<DeviceCall>, outstanding: multiset<Handle>, pool: Handle, queue: Handle,
                        buffer: Handle)
    requires Balanced(log, outstanding) && buffer in outstanding
    ensures Balanced(log + EndCalls(pool, queue, buffer), outstanding - multiset{buffer})
  {
    var calls := [EndCommandBuffer(buffer), QueueSubmit(queue, buffer), QueueWaitIdle(queue)];
    var after := log + EndCalls(pool, queue, buffer);
    assert after == log + calls + [FreeCommandBuffer(pool, buffer)];
    NoBufferCallsKeepAccounts(log, calls);
    AllocationsSnoc(log + calls, FreeCommandBuffer(pool, buffer));
    MoveToFreed(Allocations(log), Frees(log), outstanding, buffer);
  }

  /** Moving one outstanding buffer to the freed ones keeps the accounts. */
  lemma MoveToFreed(allocations: multiset<Handle>, frees: multiset<Handle>, outstanding: multiset<Handle>,
                    buffer: Handle)
    requires allocations == frees + outstanding && buffer in outstanding
    ensures allocations == (frees + multiset{buffer}) + (outstanding - multiset{buffer})
  {
    assert outstanding == (outstanding - multiset{buffer}) + multiset{buffer};
  }

  /** The static members of the source class `LogicalDevice`, with the
      command pool the source keeps beside them. */
  class LogicalDevice {
    var device: Handle
    var presentQueue: Handle
    var graphicsQueue: Handle
    var commandPool: Handle
    var dirty: bool
    /** Lines written to stderr. */
    var warnings: seq<string>
    var log: seq<DeviceCall>
    /** One-shot command buffers begun and not yet ended. */
    ghost var outstanding: multiset<Handle>

    /** Every command buffer allocated so far is either freed or outstanding. */
    ghost predicate Valid()
      reads this`log, this`outstanding
    {
      Balanced(log, outstanding)
    }

    constructor ()
      ensures Valid()
      ensures device == NULL_HANDLE && presentQueue == NULL_HANDLE && graphicsQueue == NULL_HANDLE
      ensures commandPool == NULL_HANDLE && dirty
      ensures warnings == [] && log == [] && outstanding == multiset{}
    {
      device, presentQueue, graphicsQueue, commandPool := NULL_HANDLE, NULL_HANDLE, NULL_HANDLE, NULL_HANDLE;
      dirty := true;
      warnings := [];
      log := [];
      outstanding := multiset{};
    }

    /** `LogicalDevice::Create` for the selected adapter. `instanceLayers` are
        the instance's active validation layer names. */
    method Create(adapter: Adapter, requiredExtensions: seq<string>, validationEnabled: bool,
                  instanceLayers: seq<string>, answers: DeviceAnswers)
      returns (o: Outcome, info: DeviceCreateInfo)
      requires Valid()
      modifies this`log, this`warnings, this`device, this`graphicsQueue, this`presentQueue, this`commandPool, this`dirty
      ensures Valid()
      ensures info == DeviceInfo(adapter, requiredExtensions, validationEnabled, instanceLayers)
      ensures warnings == old(warnings) + MissingWarnings(requiredExtensions, adapter.extensions)
      ensures log == old(log) + CreateCalls(info, U32(adapter.graphicsFamily), U32(adapter.presentFamily), answers)
      ensures answers.createDevice != VK_SUCCESS ==> o == Fail("failed to create logical device!")
      ensures answers.createDevice == VK_SUCCESS && answers.createCommandPool != VK_SUCCESS ==>
        o == Fail("Failed to create command pool!")
      ensures o.Pass? <==> answers.createDevice == VK_SUCCESS && answers.createCommandPool == VK_SUCCESS
      ensures o.Pass? ==> !dirty && device == answers.device && commandPool == answers.commandPool
      ensures o.Pass? ==> graphicsQueue == answers.graphicsQueue && presentQueue == answers.presentQueue
      ensures o.Fail? ==> dirty == old(dirty)
    {
      var missing;
      info, missing := PrepareDevice(adapter, requiredExtensions, validationEnabled, instanceLayers);
      warnings := warnings + missing;
      o := Open(info, U32(adapter.graphicsFamily), U32(adapter.presentFamily), answers);
    }

    /** The calls of `LogicalDevice::Create` once the create info is built:
        the device, its two queues, then the command pool, stopping at the
        first failure; `dirty` is cleared only when both succeed. */
    method Open(info: DeviceCreateInfo, graphicsFamily: nat, presentFamily: nat, answers: DeviceAnswers)
      returns (o: Outcome)
      requires Valid()
      modifies this`log, this`device, this`graphicsQueue, this`presentQueue, this`commandPool, this`dirty
      ensures Valid()
      ensures log == old(log) + CreateCalls(info, graphicsFamily, presentFamily, answers)
      ensures answers.createDevice != VK_SUCCESS ==> o == Fail("failed to create logical device!")
      ensures answers.createDevice == VK_SUCCESS && answers.createCommandPool != VK_SUCCESS ==>
        o == Fail("Failed to create command pool!")
      ensures o.Pass? <==> answers.createDevice == VK_SUCCESS && answers.createCommandPool == VK_SUCCESS
      ensures o.Pass? ==> !dirty && device == answers.device && commandPool == answers.commandPool
      ensures o.Pass? ==> graphicsQueue == answers.graphicsQueue && presentQueue == answers.presentQueue
      ensures o.Fail? ==> dirty == old(dirty)
    {
      ghost var before := log;
      ghost var after := log + CreateCalls(info, graphicsFamily, presentFamily, answers);
      CreateKeepsBalance(log, outstanding, info, graphicsFamily, presentFamily, answers, after);
      log := log + [CreateDevice(info)];
      if answers.createDevice != VK_SUCCESS {
        assert log == after;
        return Fail("failed to create logical device!");
      }
      device := answers.device;
      graphicsQueue := answers.graphicsQueue;
      presentQueue := answers.presentQueue;
      var queueCalls := [GetDeviceQueue(graphicsFamily), GetDeviceQueue(presentFamily), CreateCommandPool(graphicsFamily)];
      AppendAssoc(before, [CreateDevice(info)], queueCalls);
      log := log + queueCalls;
      assert log == after;
      if answers.createCommandPool != VK_SUCCESS {
        return Fail("Failed to create command pool!");
      }
      commandPool := answers.commandPool;
      dirty := false;
      o := Pass;
    }

    /** Destroys the command pool, then the device, and resets every handle. */
    method Destroy()
      requires Valid()
      modifies this`log, this`device, this`presentQueue, this`graphicsQueue, this`commandPool
      ensures Valid()
      ensures log == old(log) + [DestroyCommandPool(old(commandPool)), DestroyDevice(old(device))]
      ensures device == NULL_HANDLE && presentQueue == NULL_HANDLE
      ensures graphicsQueue == NULL_HANDLE && commandPool == NULL_HANDLE
    {
      ghost var before := log;
      var pool, dev := commandPool, device;
      log, device, presentQueue, graphicsQueue, commandPool :=
        log + [DestroyCommandPool(pool), DestroyDevice(dev)], NULL_HANDLE, NULL_HANDLE, NULL_HANDLE, NULL_HANDLE;
      ValidAfterDestroyCalls(before, pool, dev);
    }

    /** The log stays balanced when the two destroy calls are appended to a
        balanced one. */
    lemma ValidAfterDestroyCalls(before: seq<DeviceCall>, pool: Handle, dev: Handle)
      requires Balanced(before, outstanding)
      requires log == before + [DestroyCommandPool(pool), DestroyDevice(dev)]
      ensures Valid()
    {
      DestroyKeepsBalance(before, outstanding, pool, dev, log);
    }

    /** Allocates one primary command buffer from the pool (the driver hands
        out `newBuffer`) and begins it for one-time submission. */
    method BeginSingleTimeCommands(newBuffer: Handle) returns (commandBuffer: Handle)
      requires Valid()
      modifies this`log, this`outstanding
      ensures Valid()
      ensures commandBuffer == newBuffer
      ensures outstanding == old(outstanding) + multiset{commandBuffer}
      ensures log == old(log) + BeginCalls(commandPool, commandBuffer)
    {
      commandBuffer := newBuffer;
      BeginKeepsBalance(log, outstanding, commandPool, commandBuffer);
      log := log + BeginCalls(commandPool, commandBuffer);
      outstanding := outstanding + multiset{commandBuffer};
    }

    /** Ends the buffer, submits it to the graphics queue, waits for the queue
        to go idle and frees that same buffer. */
    method EndSingleTimeCommands(commandBuffer: Handle)
      requires Valid()
      requires commandBuffer in outstanding
      modifies this`log, this`outstanding
      ensures Valid()
      ensures outstanding == old(outstanding) - multiset{commandBuffer}
      ensures log == old(log) + EndCalls(commandPool, graphicsQueue, commandBuffer)
    {
      EndKeepsBalance(log, outstanding, commandPool, graphicsQueue, commandBuffer);
      log := log + EndCalls(commandPool, graphicsQueue, commandBuffer);
      outstanding := outstanding - multiset{commandBuffer};
    }
  }

  /** Creating the device touches no command buffer, so it keeps the
      command-buffer accounts of the log balanced. */
  lemma CreateKeepsBalance(log: seq<DeviceCall>, outstanding: multiset<Handle>, info: DeviceCreateInfo,
                           graphicsFamily: nat, presentFamily: nat, answers: DeviceAnswers, after: seq<DeviceCall>)
    requires Balanced(log, outstanding)
    requires after == log + CreateCalls(info, graphicsFamily, presentFamily, answers)
    ensures Balanced(after, outstanding)
  {
    NoBufferCallsKeepAccounts(log, CreateCalls(info, graphicsFamily, presentFamily, answers));
  }

  /** Destroying the pool and the device touches no command buffer either. */
  lemma DestroyKeepsBalance(log: seq<DeviceCall>, outstanding: multiset<Handle>, pool: Handle, device: Handle,
                            after: seq<DeviceCall>)
    requires Balanced(log, outstanding)
    requires after == log + [DestroyCommandPool(pool), DestroyDevice(device)]
    ensures Balanced(after, outstanding)
  {
    NoBufferCallsKeepAccounts(log, [DestroyCommandPool(pool), DestroyDevice(device)]);
  }

  /** A whole create-then-destroy lifecycle keeps the accounts balanced. */
  lemma LifecycleKeepsBalance(log: seq<DeviceCall>, outstanding: multiset<Handle>, info: DeviceCreateInfo,
                              graphicsFamily: nat, presentFamily: nat, answers: DeviceAnswers,
                              pool: Handle, device: Handle)
    requires Balanced(log, outstanding)
    ensures Balanced(log + CreateCalls(info, graphicsFamily, presentFamily, answers)
                     + [DestroyCommandPool(pool), DestroyDevice(device)], outstanding)
  {
    CreateKeepsBalance(log, outstanding, info, graphicsFamily, presentFamily, answers,
                       log + CreateCalls(info, graphicsFamily, presentFamily, answers));
    DestroyKeepsBalance(log + CreateCalls(info, graphicsFamily, presentFamily, answers), outstanding, pool, device,
                        log + CreateCalls(info, graphicsFamily, presentFamily, answers)
                        + [DestroyCommandPool(pool), DestroyDevice(device)]);
  }

  /** A one-shot buffer begun and then ended leaves a log with no
      outstanding buffers balanced again. */
  lemma OneShotBalanced(log: seq<DeviceCall>, pool: Handle, queue: Handle, buffer: Handle)
    requires Balanced(log, multiset{})
    ensures Balanced(log + BeginCalls(pool, buffer) + EndCalls(pool, queue, buffer), multiset{})
  {
    BeginKeepsBalance(log, multiset{}, pool, buffer);
    EndKeepsBalance(log + BeginCalls(pool, buffer), multiset{buffer}, pool, queue, buffer);
    assert multiset{buffer} - multiset{buffer} == multiset{};
  }
}
