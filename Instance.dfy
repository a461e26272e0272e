/**
  Instance set-up (Instance.cpp): which validation layer and which instance
  extensions are switched on, the name lists handed to vkCreateInstance, the
  creation of the instance, debug messenger and window surface, their
  teardown, and the `dirty` flag.

  What the loader and GLFW report (the layer and extension lists, the
  platform's required extensions, result codes and handles) is a parameter;
  the driver calls are recorded in `log` in the order they are made.
 */
module Instance {
  import opened Vk

  const KHRONOS_VALIDATION: string := "VK_LAYER_KHRONOS_validation"
  const VK_EXT_DEBUG_UTILS_EXTENSION_NAME: string := "VK_EXT_debug_utils"
  const NO_DEFAULT_LAYER: string := "Default validation layer not available!"

  /** `std::vector<bool>::resize`: entries that remain keep their value, new
      entries are false. */
  function Resized(flags: seq<bool>, n: nat): (r: seq<bool>)
    ensures |r| == n
    ensures forall i :: 0 <= i < n ==> r[i] == (i < |flags| && flags[i])
  {
    if n <= |flags| then flags[..n] else flags + seq(n - |flags|, _ => false)
  }

  /** The flags after the layer scan: every entry up to the first
      `VK_LAYER_KHRONOS_validation` is cleared, that one is set, and the
      entries after it are left alone. */
  function KhronosMarked(active: seq<bool>, layers: seq<string>): (r: seq<bool>)
    requires |active| == |layers|
    ensures |r| == |active|
  {
    var k := IndexOf(layers, KHRONOS_VALIDATION);
    seq(|active|, i requires 0 <= i < |active| => if i < k then false else if i == k then true else active[i])
  }

  /** On flags that start out cleared, the scan switches on exactly the first
      layer named `VK_LAYER_KHRONOS_validation`, and none when there is none. */
  lemma KhronosMarkedFirstOnly(active: seq<bool>, layers: seq<string>)
    requires |active| == |layers|
    requires forall i :: 0 <= i < |active| ==> !active[i]
    ensures forall i :: 0 <= i < |layers| ==>
      (KhronosMarked(active, layers)[i] <==> layers[i] == KHRONOS_VALIDATION && KHRONOS_VALIDATION !in layers[..i])
  {
    var k := IndexOf(layers, KHRONOS_VALIDATION);
    forall i | 0 <= i < |layers|
      ensures KhronosMarked(active, layers)[i] <==> layers[i] == KHRONOS_VALIDATION && KHRONOS_VALIDATION !in layers[..i]
    {
      if i > k {
        assert layers[..i][k] == KHRONOS_VALIDATION;
      } else if i < k {
        assert layers[i] in layers[..k];
      }
    }
  }

  /** The Khronos layer scan of `Instance::Create`: a loop that stops at the
      first match. */
  method ScanLayers(active: seq<bool>, layers: seq<string>) returns (marked: seq<bool>, found: bool)
    requires |active| == |layers|
    ensures marked == KhronosMarked(active, layers)
    ensures found <==> KHRONOS_VALIDATION in layers
  {
    marked := active;
    found := false;
    var i := 0;
    while i < |layers|
      invariant 0 <= i <= |layers| && |marked| == |active|
      invariant KHRONOS_VALIDATION !in layers[..i]
      invariant forall t :: 0 <= t < i ==> !marked[t]
      invariant forall t :: i <= t < |marked| ==> marked[t] == active[t]
    {
      marked := marked[i := false];
      if layers[i] == KHRONOS_VALIDATION {
        marked := marked[i := true];
        found := true;
        break;
      }
      i := i + 1;
    }
    if found {
      IndexOfIs(layers, KHRONOS_VALIDATION, i);
    } else {
      assert layers[..i] == layers;
    }
  }

  /** The names among the first `n` whose flag is set, in enumeration order. */
  function SelectedUpTo(names: seq<string>, flags: seq<bool>, n: nat): seq<string>
    requires |names| == |flags| && n <= |names|
  {
    if n == 0 then []
    else SelectedUpTo(names, flags, n - 1) + (if flags[n - 1] then [names[n - 1]] else [])
  }

  /** The names whose flag is set, in enumeration order. */
  function Selected(names: seq<string>, flags: seq<bool>): seq<string>
    requires |names| == |flags|
  {
    SelectedUpTo(names, flags, |names|)
  }

  lemma {:induction false} SelectedUpToExactly(names: seq<string>, flags: seq<bool>, n: nat)
    requires |names| == |flags| && n <= |names|
    ensures forall x :: x in SelectedUpTo(names, flags, n) <==> exists i :: 0 <= i < n && flags[i] && names[i] == x
  {
    if n > 0 {
      SelectedUpToExactly(names, flags, n - 1);
    }
  }

  lemma SelectedExactly(names: seq<string>, flags: seq<bool>)
    requires |names| == |flags|
    ensures forall x :: x in Selected(names, flags) <==> exists i :: 0 <= i < |names| && flags[i] && names[i] == x
  {
    SelectedUpToExactly(names, flags, |names|);
  }

  /** A loop that collects the names whose flag is set. */
  method CollectActive(names: seq<string>, flags: seq<bool>) returns (selected: seq<string>)
    requires |names| == |flags|
    ensures selected == Selected(names, flags)
  {
    selected := [];
    for i := 0 to |names|
      invariant selected == SelectedUpTo(names, flags, i)
    {
      if flags[i] {
        selected := selected + [names[i]];
      }
    }
  }

  /** `getRequiredExtensions`: the platform's required extensions, followed by
      the debug-utils extension when validation is on. */
  function RequiredExtensions(platform: seq<string>, validationEnabled: bool): (r: seq<string>)
    ensures |r| == |platform| + (if validationEnabled then 1 else 0)
    ensures r[..|platform|] == platform
    ensures forall e :: e in r <==> e in platform || (validationEnabled && e == VK_EXT_DEBUG_UTILS_EXTENSION_NAME)
  {
    platform + if validationEnabled then [VK_EXT_DEBUG_UTILS_EXTENSION_NAME] else []
  }

  /** The extension flags after the marking loop: an entry is set when it was
      already set, or when it is the first available extension with the name
      of a required one. */
  function MarkRequired(active: seq<bool>, extensions: seq<string>, required: seq<string>): (r: seq<bool>)
    requires |active| == |extensions|
    ensures |r| == |active|
  {
    seq(|active|, j requires 0 <= j < |active| =>
      active[j] || (extensions[j] in required && IndexOf(extensions, extensions[j]) == j))
  }

  /** Each required extension that is available switches on its first match
      and nothing else is switched on. */
  lemma MarkRequiredFirstMatch(active: seq<bool>, extensions: seq<string>, required: seq<string>)
    requires |active| == |extensions|
    ensures forall r :: r in required && r in extensions ==> MarkRequired(active, extensions, required)[IndexOf(extensions, r)]
    ensures forall j :: 0 <= j < |active| && MarkRequired(active, extensions, required)[j] && !active[j] ==>
      extensions[j] in required && extensions[j] !in extensions[..j]
  {
    forall j | 0 <= j < |active| && MarkRequired(active, extensions, required)[j] && !active[j]
      ensures extensions[j] in required && extensions[j] !in extensions[..j]
    {
      assert IndexOf(extensions, extensions[j]) == j;
    }
  }

  /** The marking loop of `Instance::Create`: for each required extension, the
      first available extension of that name is switched on. */
  method MarkRequiredExtensions(active: seq<bool>, extensions: seq<string>, required: seq<string>)
    returns (marked: seq<bool>)
    requires |active| == |extensions|
    ensures marked == MarkRequired(active, extensions, required)
  {
    marked := active;
    for i := 0 to |required|
      invariant marked == MarkRequired(active, extensions, required[..i])
    {
      var j := 0;
      while j < |extensions|
        invariant 0 <= j <= |extensions|
        invariant required[i] !in extensions[..j]
      {
        if required[i] == extensions[j] {
          break;
        }
        j := j + 1;
      }
      var before := required[..i];
      var after := required[..i + 1];
      assert after == before + [required[i]];
      if j < |extensions| {
        IndexOfIs(extensions, required[i], j);
        marked := marked[j := true];
      } else {
        assert extensions[..j] == extensions;
      }
      assert marked == MarkRequired(active, extensions, after) by {
        forall t | 0 <= t < |marked|
          ensures marked[t] == MarkRequired(active, extensions, after)[t]
        {
          assert extensions[t] in after <==> extensions[t] in before || extensions[t] == required[i];
        }
      }
    }
    assert required[..|required|] == required;
  }

  /** The fields of VkInstanceCreateInfo the engine fills in. `debugNext`
      tells whether a debug-messenger create-info is chained through pNext. */
  datatype InstanceCreateInfo = InstanceCreateInfo(
    enabledExtensionNames: seq<string>,
    enabledLayerNames: seq<string>,
    debugNext: bool)

  datatype InstanceCall =
    | CreateInstance(info: InstanceCreateInfo)
    | CreateDebugMessenger(instance: Handle)
    | CreateSurface(instance: Handle)
    | DestroyDebugMessenger(instance: Handle, messenger: Handle)
    | DestroySurface(instance: Handle, surface: Handle)
    | DestroyInstance(instance: Handle)

  /** What the loader, the driver and GLFW report during `Instance::Create`. */
  datatype InstanceAnswers = InstanceAnswers(
    layers: seq<string>,
    extensions: seq<string>,
    platformExtensions: seq<string>,
    createInstance: VkResult,
    instance: Handle,
    createMessenger: VkResult,
    messenger: Handle,
    createSurface: VkResult,
    surface: Handle)

  /** The create-info handed to vkCreateInstance: the active extensions, and
      the active layers with a chained debug create-info only when validation
      is on. */
  function CreateInfo(extensionNames: seq<string>, layerNames: seq<string>, validationEnabled: bool): (info: InstanceCreateInfo)
    ensures !validationEnabled ==> info.enabledLayerNames == [] && !info.debugNext
    ensures info.enabledExtensionNames == extensionNames
  {
    if validationEnabled then InstanceCreateInfo(extensionNames, layerNames, true)
    else InstanceCreateInfo(extensionNames, [], false)
  }

  /** The driver calls `Instance::Create` makes once its create-info is
      ready: it stops at the first failure, and sets up a debug messenger
      only when validation is on. */
  function CreateCalls(info: InstanceCreateInfo, validationEnabled: bool, answers: InstanceAnswers): seq<InstanceCall> {
    [CreateInstance(info)] +
    if answers.createInstance != VK_SUCCESS then []
    else if !validationEnabled then [CreateSurface(answers.instance)]
    else if answers.createMessenger != VK_SUCCESS then [CreateDebugMessenger(answers.instance)]
    else [CreateDebugMessenger(answers.instance), CreateSurface(answers.instance)]
  }

  /** How `Instance::Create` ends: the first of instance creation, debug
      messenger set-up (only when validation is on) and surface creation that
      fails decides the exception; otherwise it returns normally. */
  function CreateOutcome(answers: InstanceAnswers, validationEnabled: bool): (o: Outcome)
    ensures answers.createInstance != VK_SUCCESS ==> o == Fail("failed to create instance!")
    ensures answers.createInstance == VK_SUCCESS && validationEnabled && answers.createMessenger != VK_SUCCESS ==>
      o == Fail("failed to set up debug messenger!")
    ensures o.Pass? <==> answers.createInstance == VK_SUCCESS && answers.createSurface == VK_SUCCESS &&
                         (validationEnabled ==> answers.createMessenger == VK_SUCCESS)
    ensures o == Fail("failed to create window surface!") <==>
      (answers.createInstance == VK_SUCCESS && (validationEnabled ==> answers.createMessenger == VK_SUCCESS) &&
       answers.createSurface != VK_SUCCESS)
  {
    if answers.createInstance != VK_SUCCESS then Fail("failed to create instance!")
    else if validationEnabled && answers.createMessenger != VK_SUCCESS then Fail("failed to set up debug messenger!")
    else if answers.createSurface != VK_SUCCESS then Fail("failed to create window surface!")
    else Pass
  }

  /** The driver calls `Instance::Destory` makes. */
  function DestroyCalls(instance: Handle, surface: Handle, messenger: Handle): seq<InstanceCall> {
    (if messenger != NULL_HANDLE then [DestroyDebugMessenger(instance, messenger)] else []) +
    [DestroySurface(instance, surface), DestroyInstance(instance)]
  }

  /** The messenger is destroyed exactly when it is set and before anything
      else; the surface goes before the instance, which goes last. */
  lemma DestroyOrder(instance: Handle, surface: Handle, messenger: Handle)
    ensures var calls := DestroyCalls(instance, surface, messenger);
      && calls[|calls| - 1] == DestroyInstance(instance)
      && calls[|calls| - 2] == DestroySurface(instance, surface)
      && ((exists i :: 0 <= i < |calls| && calls[i].DestroyDebugMessenger?) <==> messenger != NULL_HANDLE)
      && (messenger != NULL_HANDLE ==> calls[0] == DestroyDebugMessenger(instance, messenger))
  {
    var calls := DestroyCalls(instance, surface, messenger);
    if messenger != NULL_HANDLE {
      assert calls[0].DestroyDebugMessenger?;
    }
  }

  /** The layer and extension selection at the start of `Instance::Create`,
      from the flags and active layer names left by earlier runs. */
  method SelectLayersAndExtensions(oldLayerFlags: seq<bool>, oldExtensionFlags: seq<bool>, oldLayerNames: seq<string>,
                                   answers: InstanceAnswers, validationEnabled: bool)
    returns (layerFlags: seq<bool>, layerNames: seq<string>, extensionFlags: seq<bool>, extensionNames: seq<string>,
             warnings: seq<string>)
    ensures layerFlags == KhronosMarked(Resized(oldLayerFlags, |answers.layers|), answers.layers)
    ensures warnings == if validationEnabled && KHRONOS_VALIDATION !in answers.layers then [NO_DEFAULT_LAYER] else []
    ensures layerNames == oldLayerNames + if validationEnabled then Selected(answers.layers, layerFlags) else []
    ensures extensionFlags == MarkRequired(Resized(oldExtensionFlags, |answers.extensions|), answers.extensions,
                                           RequiredExtensions(answers.platformExtensions, validationEnabled))
    ensures extensionNames == Selected(answers.extensions, extensionFlags)
  {
    var khronosAvailable;
    layerFlags, khronosAvailable := ScanLayers(Resized(oldLayerFlags, |answers.layers|), answers.layers);
    warnings := [];
    if validationEnabled && !khronosAvailable {
      warnings := [NO_DEFAULT_LAYER];
    }
    layerNames := oldLayerNames;
    if validationEnabled {
      var names := CollectActive(answers.layers, layerFlags);
      layerNames := layerNames + names;
    }
    var requiredExtensions := RequiredExtensions(answers.platformExtensions, validationEnabled);
    extensionFlags := MarkRequiredExtensions(Resized(oldExtensionFlags, |answers.extensions|), answers.extensions,
                                             requiredExtensions);
    extensionNames := CollectActive(answers.extensions, extensionFlags);
  }

  /** The static members of the source class `Instance`. */
  class Instance {
    var instance: Handle
    var surface: Handle
    var debugMessenger: Handle
    var enableValidationLayers: bool
    var dirty: bool
    /** Names of the layers the loader offers, and which of them are on. */
    var validationLayers: seq<string>
    var activeValidationLayers: seq<bool>
    var activeValidationLayersNames: seq<string>
    /** Names of the instance extensions the loader offers, and which are on. */
    var extensions: seq<string>
    var activeExtensions: seq<bool>
    var activeExtensionsNames: seq<string>
    /** Lines written to stderr. */
    var warnings: seq<string>
    var log: seq<InstanceCall>

    /** Each flag list is as long as the list it flags. */
    predicate Valid()
      reads this`activeValidationLayers, this`validationLayers, this`activeExtensions, this`extensions
    {
      |activeValidationLayers| == |validationLayers| && |activeExtensions| == |extensions|
    }

    constructor ()
      ensures Valid()
      ensures instance == NULL_HANDLE && surface == NULL_HANDLE && debugMessenger == NULL_HANDLE
      ensures enableValidationLayers && dirty
      ensures validationLayers == [] && activeValidationLayersNames == [] && extensions == [] && activeExtensionsNames == []
      ensures warnings == [] && log == []
    {
      instance, surface, debugMessenger := NULL_HANDLE, NULL_HANDLE, NULL_HANDLE;
      enableValidationLayers := true;
      dirty := true;
      validationLayers, activeValidationLayers, activeValidationLayersNames := [], [], [];
      extensions, activeExtensions, activeExtensionsNames := [], [], [];
      warnings := [];
      log := [];
    }

    /** `Instance::Create`. The flag lists are resized, not cleared, so flags
        of a previous run that remain in range are kept; the active layer
        names are appended to, not rebuilt. */
    method Create(answers: InstanceAnswers) returns (o: Outcome, info: InstanceCreateInfo)
      modifies this`validationLayers, this`activeValidationLayers, this`activeValidationLayersNames
      modifies this`extensions, this`activeExtensions, this`activeExtensionsNames
      modifies this`warnings, this`log, this`instance, this`debugMessenger, this`surface, this`dirty
      ensures Valid()
      ensures validationLayers == answers.layers && extensions == answers.extensions
      ensures activeValidationLayers == KhronosMarked(Resized(old(activeValidationLayers), |answers.layers|), answers.layers)
      ensures warnings == old(warnings) +
        if enableValidationLayers && KHRONOS_VALIDATION !in answers.layers then [NO_DEFAULT_LAYER] else []
      ensures activeValidationLayersNames == old(activeValidationLayersNames) +
        if enableValidationLayers then Selected(answers.layers, activeValidationLayers) else []
      ensures activeExtensions == MarkRequired(Resized(old(activeExtensions), |answers.extensions|), answers.extensions,
                                               RequiredExtensions(answers.platformExtensions, enableValidationLayers))
      ensures activeExtensionsNames == Selected(answers.extensions, activeExtensions)
      ensures info == CreateInfo(activeExtensionsNames, activeValidationLayersNames, enableValidationLayers)
      ensures log == old(log) + CreateCalls(info, enableValidationLayers, answers)
      ensures o == CreateOutcome(answers, enableValidationLayers)
      ensures o.Pass? ==> !dirty && instance == answers.instance && surface == answers.surface
      ensures o.Pass? && enableValidationLayers ==> debugMessenger == answers.messenger
      ensures o.Fail? ==> dirty == old(dirty)
    {
      info := Configure(answers);
      o := Launch(answers, info);
    }

    /** The first part of `Instance::Create`: the layer and extension lists,
        their flags and active names, and the create-info. */
    method Configure(answers: InstanceAnswers) returns (info: InstanceCreateInfo)
      modifies this`validationLayers, this`activeValidationLayers, this`activeValidationLayersNames
      modifies this`extensions, this`activeExtensions, this`activeExtensionsNames, this`warnings
      ensures Valid()
      ensures validationLayers == answers.layers && extensions == answers.extensions
      ensures activeValidationLayers == KhronosMarked(Resized(old(activeValidationLayers), |answers.layers|), answers.layers)
      ensures warnings == old(warnings) +
        if enableValidationLayers && KHRONOS_VALIDATION !in answers.layers then [NO_DEFAULT_LAYER] else []
      ensures activeValidationLayersNames == old(activeValidationLayersNames) +
        if enableValidationLayers then Selected(answers.layers, activeValidationLayers) else []
      ensures activeExtensions == MarkRequired(Resized(old(activeExtensions), |answers.extensions|), answers.extensions,
                                               RequiredExtensions(answers.platformExtensions, enableValidationLayers))
      ensures activeExtensionsNames == Selected(answers.extensions, activeExtensions)
      ensures info == CreateInfo(activeExtensionsNames, activeValidationLayersNames, enableValidationLayers)
    {
      var missing;
      activeValidationLayers, activeValidationLayersNames, activeExtensions, activeExtensionsNames, missing :=
        SelectLayersAndExtensions(activeValidationLayers, activeExtensions, activeValidationLayersNames,
                                  answers, enableValidationLayers);
      validationLayers := answers.layers;
      extensions := answers.extensions;
      warnings := warnings + missing;
      info := CreateInfo(activeExtensionsNames, activeValidationLayersNames, enableValidationLayers);
    }

    /** The second part of `Instance::Create`: the instance, the debug
        messenger when validation is on, and the surface, stopping at the
        first failure; `dirty` is cleared only at the end. */
    method Launch(answers: InstanceAnswers, info: InstanceCreateInfo) returns (o: Outcome)
      modifies this`log, this`instance, this`debugMessenger, this`surface, this`dirty
      ensures log == old(log) + CreateCalls(info, enableValidationLayers, answers)
      ensures o == CreateOutcome(answers, enableValidationLayers)
      ensures o.Pass? ==> !dirty && instance == answers.instance && surface == answers.surface
      ensures o.Pass? && enableValidationLayers ==> debugMessenger == answers.messenger
      ensures o.Fail? ==> dirty == old(dirty)
    {
      log := log + [CreateInstance(info)];
      if answers.createInstance != VK_SUCCESS {
        return Fail("failed to create instance!");
      }
      instance := answers.instance;

      // setupDebugMessenger
      if enableValidationLayers {
        log := log + [CreateDebugMessenger(instance)];
        if answers.createMessenger != VK_SUCCESS {
          return Fail("failed to set up debug messenger!");
        }
        debugMessenger := answers.messenger;
      }

      // createSurface
      log := log + [CreateSurface(instance)];
      if answers.createSurface != VK_SUCCESS {
        return Fail("failed to create window surface!");
      }
      surface := answers.surface;
      dirty := false;
      o := Pass;
    }

    /** `Instance::Destory`: both name lists are cleared, the messenger is
        destroyed and reset only when it is set, then the surface and the
        instance are destroyed. The instance and surface handles keep their
        values. */
    method Destroy()
      modifies this`activeValidationLayersNames, this`activeExtensionsNames, this`log, this`debugMessenger
      ensures activeValidationLayersNames == [] && activeExtensionsNames == []
      ensures debugMessenger == NULL_HANDLE
      ensures log == old(log) + DestroyCalls(instance, surface, old(debugMessenger))
    {
      activeValidationLayersNames := [];
      activeExtensionsNames := [];
      if debugMessenger != NULL_HANDLE {
        log := log + [DestroyDebugMessenger(instance, debugMessenger)];
        debugMessenger := NULL_HANDLE;
      }
      log := log + [DestroySurface(instance, surface), DestroyInstance(instance)];
    }
  }

  /** On the first `Create` (no flags yet), the layer scan switches on exactly
      the first Khronos validation layer, so at most one layer name is
      enabled: that one, when it is offered. */
  lemma FirstCreateEnablesKhronosOnly(layers: seq<string>)
    ensures forall x :: x in Selected(layers, KhronosMarked(Resized([], |layers|), layers)) <==>
      x == KHRONOS_VALIDATION && x in layers
  {
    ClearedScanSelectsKhronos(Resized([], |layers|), layers);
  }

  lemma ClearedScanSelectsKhronos(active: seq<bool>, layers: seq<string>)
    requires |active| == |layers|
    requires forall i :: 0 <= i < |active| ==> !active[i]
    ensures forall x :: x in Selected(layers, KhronosMarked(active, layers)) <==> x == KHRONOS_VALIDATION && x in layers
  {
    var marked := KhronosMarked(active, layers);
    var k := IndexOf(layers, KHRONOS_VALIDATION);
    SelectedExactly(layers, marked);
    forall x | x in Selected(layers, marked)
      ensures x == KHRONOS_VALIDATION
    {
      var i :| 0 <= i < |layers| && marked[i] && layers[i] == x;
      assert i == k;
    }
    if k < |layers| {
      assert marked[k] && layers[k] == KHRONOS_VALIDATION;
    }
  }
}
