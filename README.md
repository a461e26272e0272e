# VulkanEngine core, modelled in Dafny

This project models the logic layer of VulkanEngine, a small Vulkan renderer
written in C++. Underneath its calls into Vulkan, GLFW, ImGui, stb_image and
tinyobjloader the engine has selection, deduplication and dirty-flag logic.
The model states that logic over plain data.

Every Vulkan or GLFW query becomes an input value: a result code, a handle,
a sequence of records or a bitmask. Every call the engine makes into those
libraries is appended to a call log of the class that makes it. The
properties are then stated about the log and the fields.

One Dafny module per source file:

| module | source | what it covers |
|---|---|---|
| `Vk` | shared | result codes, handles, `Outcome`/`Result`, 32-bit wrap-around (`U32`), `IndexOf` |
| `VertexDedup` | `main.cpp`, `AssetManager.cpp` | the vertex deduplication both loaders use, specified once (`Dedup`) |
| `PhysicalDevice` | `PhysicalDevice.cpp` | queue-family scan, maximum MSAA count, suitability, active-device choice, `FindMemoryType`, `SupportFormat` (class `AdapterRegistry` holds the static `allDevices`/`index`/`dirty`) |
| `LogicalDevice` | `LogicalDevice.cpp` | unique queue families, enabled features, missing-extension report, create/destroy order, one-shot command buffers |
| `Instance` | `Instance.cpp` | Khronos layer marking, required extensions, active name lists, create outcome, destroy order |
| `GraphicsPipelineManager` | `GraphicsPipelineManager.cpp` | descriptor pool sizing, pipeline creation and destruction, the inspector's dirty rules |
| `AssetManager` | `AssetManager.cpp` | `.obj` dispatch, texture loading, per-shape deduplication and splitting at material changes |
| `MeshManager` | `MeshManager.cpp` | the parallel `meshes`/`descs` lists |
| `Window` | `Window.cpp` | defaults, creation calls per display mode, the update and the three callbacks |
| `VulkanUtils` | `VulkanUtils.h` | the four enum-to-name tables |
| `Application` | `main.cpp` | `CheckVulkanResult`, `loadModel`, mip chain, layout transitions, per-frame descriptor sizing, `drawFrame`/`recreateSwapChain`/`mainLoop` |

A method that changes state is specified by a function of the inputs and the
old state. The properties the source promises are then proved about that
function in lemmas. For example, `GenerateMipmaps` returns
`MipmapCalls(...)`, and `MipmapsLeaveLevelsReadable` replays those commands
over the levels' layouts.

## Model

| member | source | states |
|---|---|---|
| Vk.U32 | VulkanEngine/GraphicsPipelineManager.cpp:12-19 | a `(uint32_t)` cast: the result is below 2^32, equal to the input when it fits, and the input plus 2^32 for a small negative input |
| Vk.IndexOf | VulkanEngine/Instance.cpp:123-127 | the first position holding the value; it is `|s|` exactly when the value is absent, and no earlier position holds it |
| Vk.IndexOfIs | VulkanEngine/Instance.cpp:123-127 | a position that holds the value with no earlier occurrence is the first-match position |
| VertexDedup.DedupDescribes | VulkanEngine/main.cpp:1196-1201 | after deduplicating any vertex stream: one index per vertex read; each index points to an equal vertex; no vertex is listed twice; exactly the vertices read are listed |
| VertexDedup.DedupFirstOccurrenceOrder | VulkanEngine/main.cpp:1196-1199 | the vertex list is in order of first occurrence in the stream |
| VertexDedup.IndexOfAppend | VulkanEngine/main.cpp:1196-1199 | appending to a list does not move the first occurrence of a value already in it |
| VertexDedup.AddVertex | VulkanEngine/AssetManager.cpp:89-95 | one lookup step: the buffers become `Step(b, v)`; the map still sends each listed vertex to its position and nothing else; the list stays duplicate-free |
| PhysicalDevice.First | VulkanEngine/PhysicalDevice.cpp:35-55 | the first family with a capability, or the family count when none has it |
| PhysicalDevice.LastBefore | VulkanEngine/PhysicalDevice.cpp:35-55 | the last family below `n` with a capability, or -1; no later family below `n` has it |
| PhysicalDevice.LastBeforeFirst | VulkanEngine/PhysicalDevice.cpp:35-55 | no capable family below `n` exactly when the first capable family is at or past `n` |
| PhysicalDevice.ChosenFamiliesValid | VulkanEngine/PhysicalDevice.cpp:35-55 | each chosen family is -1 or a valid index with its capability; -1 exactly when no family has it; when both are found the scan stopped at the later of the two |
| PhysicalDevice.ScanFamilies | VulkanEngine/PhysicalDevice.cpp:35-55 | the family loop, which breaks once both kinds are found, picks `ChosenFamilies` |
| PhysicalDevice.ScanGoesOn | VulkanEngine/PhysicalDevice.cpp:35-55 | the scan continues past `i` while the two families are not both found |
| PhysicalDevice.ScanStops | VulkanEngine/PhysicalDevice.cpp:35-55 | the scan ends at the end of the list or at the first index where both are found |
| PhysicalDevice.HighestSampleBitUpTo | VulkanEngine/PhysicalDevice.cpp:61-70 | the chosen bit number is at most the bound |
| PhysicalDevice.HighestSampleBitUpToIsHighest | VulkanEngine/PhysicalDevice.cpp:61-70 | the chosen sample bit is set in the counts (or is 1) and no higher bit up to the bound is set |
| PhysicalDevice.MaxSampleCountIsHighest | VulkanEngine/PhysicalDevice.cpp:61-70 | `maxSamples` is the highest of 2..64 set in colour AND depth counts, else 1 |
| PhysicalDevice.ComputeMaxSamples | VulkanEngine/PhysicalDevice.cpp:61-70 | the if-chain from 64 down to 2 yields `MaxSampleCount(colour & depth)` |
| PhysicalDevice.MissingExtensions | VulkanEngine/PhysicalDevice.cpp:72-75 | the erase loop leaves exactly the required extensions the device lacks |
| PhysicalDevice.AdapterOfSuitable | VulkanEngine/PhysicalDevice.cpp:76-88 | a device is suitable after `Create` iff it has every required extension, a graphics family and a present family |
| PhysicalDevice.BuildAdapter | VulkanEngine/PhysicalDevice.cpp:12-89 | the per-device body of `Create` builds `AdapterOf(query, required)` |
| PhysicalDevice.SurfaceUpdateNarrows | VulkanEngine/PhysicalDevice.cpp:108-135 | a surface update never makes a device suitable; a suitable device stays suitable iff it reports a format and a mode; the lists are replaced only for non-zero counts |
| PhysicalDevice.LastSuitable | VulkanEngine/PhysicalDevice.cpp:146-155 | the last suitable index, or -1; nothing after it is suitable |
| PhysicalDevice.Reselect | VulkanEngine/PhysicalDevice.cpp:144-162 | the selection is suitable iff some device is; a suitable current index is kept; any change is to the last suitable index, made only when the current one was unsuitable |
| PhysicalDevice.FindMemoryType | VulkanEngine/PhysicalDevice.cpp:164-178 | the smallest memory type whose bit is set in the filter and whose flags include the requested ones; otherwise the error "failed to find suitable memory type" and no type fits |
| PhysicalDevice.SupportFormat | VulkanEngine/PhysicalDevice.cpp:180-195 | true iff the feature set of the requested tiling includes the requested features; false for any other tiling |
| PhysicalDevice.SupportFormatMonotone | VulkanEngine/PhysicalDevice.cpp:180-195 | a format that supports a feature set supports every subset of it |
| PhysicalDevice.IncludesTransitive | VulkanEngine/PhysicalDevice.cpp:180-195 | flag inclusion is transitive |
| PhysicalDevice.AdapterRegistry.constructor | VulkanEngine/PhysicalDevice.h:35-39 | no devices, index -1, dirty, the swap-chain extension required |
| PhysicalDevice.AdapterRegistry.UpdateDevice | VulkanEngine/PhysicalDevice.cpp:144-162 | keeps a suitable current index, else takes the last suitable one (`Reselect`); passes iff some device is suitable, and then the index is suitable; otherwise fails with "can't find suitable device" |
| PhysicalDevice.AdapterRegistry.OnSurfaceUpdate | VulkanEngine/PhysicalDevice.cpp:104-142 | every device gets its surface query applied; the index becomes `Reselect` of the old one over the updated devices, so a current device that stays suitable is kept; passes iff some device is suitable, else fails with "can't find suitable device" |
| PhysicalDevice.AdapterRegistry.Create | VulkanEngine/PhysicalDevice.cpp:3-96 | fails with "failed to find GPUs with Vulkan support!" on zero devices, changing nothing; otherwise one adapter per device is appended and surface-updated, and the selected index is `Reselect` applied before and after the surface update; on success that index is suitable and `dirty` is cleared; a failure on some devices is "can't find suitable device" and leaves `dirty` |
| PhysicalDevice.AdapterRegistry.AppendAdapters | VulkanEngine/PhysicalDevice.cpp:12-90 | appends `AdapterOf` of every queried device, in order |
| PhysicalDevice.AdapterRegistry.Destroy | VulkanEngine/PhysicalDevice.cpp:98-102 | clears the device list and the current device; index and dirty stay |
| LogicalDevice.UniqueFamilies | VulkanEngine/LogicalDevice.cpp:7-13 | exactly the present and graphics families, strictly increasing, so each appears once |
| LogicalDevice.BuildQueueCreateInfos | VulkanEngine/LogicalDevice.cpp:7-24 | one queue-create record per distinct family (1 when they coincide, 2 otherwise), each with one queue at priority 1 |
| LogicalDevice.EnabledFeatures | VulkanEngine/LogicalDevice.cpp:29-35 | the requested features are within the supported ones, and no other feature is requested |
| LogicalDevice.EnabledFeaturesLargest | VulkanEngine/LogicalDevice.cpp:29-35 | any supported request of the six named features is within the enabled set, so each supported one is enabled |
| LogicalDevice.MissingInOrderExactly | VulkanEngine/LogicalDevice.cpp:37-54 | the reported extensions are exactly the required ones that are unavailable |
| LogicalDevice.ReportMissingExtensions | VulkanEngine/LogicalDevice.cpp:37-54 | one warning per missing required extension, in order, and nothing else |
| LogicalDevice.MissingWarnings | VulkanEngine/LogicalDevice.cpp:37-54 | the warning lines name the missing extensions in order |
| LogicalDevice.DeviceInfoContents | VulkanEngine/LogicalDevice.cpp:56-74 | the create info has one queue record per distinct family, supported features only, ALL required extensions (missing ones are only logged), and the instance's layers iff validation is on |
| LogicalDevice.PrepareDevice | VulkanEngine/LogicalDevice.cpp:7-74 | builds `DeviceInfo` and the missing-extension warnings |
| LogicalDevice.PrefixUnchanged | VulkanEngine/LogicalDevice.cpp:127-160 | appending calls does not change what a prefix of the log allocated or freed |
| LogicalDevice.AllocationsSnoc | VulkanEngine/LogicalDevice.cpp:127-160 | one more call adds exactly its own allocation and free |
| LogicalDevice.NoBufferCallsKeepAccounts | VulkanEngine/LogicalDevice.cpp:76-110 | calls that touch no command buffer leave allocations and frees unchanged |
| LogicalDevice.BeginKeepsBalance | VulkanEngine/LogicalDevice.cpp:127-145 | beginning a one-shot buffer keeps the log balanced with that buffer outstanding |
| LogicalDevice.EndKeepsBalance | VulkanEngine/LogicalDevice.cpp:147-160 | ending an outstanding buffer keeps the log balanced with it no longer outstanding |
| LogicalDevice.LifecycleKeepsBalance | VulkanEngine/LogicalDevice.cpp:76-110 | device creation followed by destruction allocates and frees no command buffer |
| LogicalDevice.CreateKeepsBalance | VulkanEngine/LogicalDevice.cpp:76-100 | the calls of device creation keep the log balanced with the same buffers outstanding |
| LogicalDevice.DestroyKeepsBalance | VulkanEngine/LogicalDevice.cpp:102-110 | destroying the pool and the device keeps the log balanced with the same buffers outstanding |
| LogicalDevice.OneShotBalanced | VulkanEngine/LogicalDevice.cpp:127-160 | a Begin followed by End on the same buffer leaves allocations equal to frees |
| LogicalDevice.LogicalDevice.constructor | VulkanEngine/LogicalDevice.h:20-23 | null handles, dirty, nothing logged or outstanding |
| LogicalDevice.LogicalDevice.Create | VulkanEngine/LogicalDevice.cpp:3-100 | keeps `Valid`; logs the calls and warnings; fails with "failed to create logical device!" or "Failed to create command pool!" at the first failing step; passes iff both succeed, and only then stores the handles and clears `dirty` |
| LogicalDevice.LogicalDevice.Open | VulkanEngine/LogicalDevice.cpp:76-100 | keeps `Valid`; creates the device, and only if that succeeds fetches both queues and creates the pool; logs exactly those calls; the outcome and handles as for `Create` |
| LogicalDevice.LogicalDevice.Destroy | VulkanEngine/LogicalDevice.cpp:102-110 | keeps `Valid`; destroys the pool, then the device, and resets device, both queues and the pool to null |
| LogicalDevice.LogicalDevice.BeginSingleTimeCommands | VulkanEngine/LogicalDevice.cpp:127-145 | allocates one buffer from the pool, begins it one-time, and counts it outstanding |
| LogicalDevice.LogicalDevice.EndSingleTimeCommands | VulkanEngine/LogicalDevice.cpp:147-160 | ends, submits, waits for the queue, and frees that same buffer, which is no longer outstanding |
| Instance.Resized | VulkanEngine/Instance.cpp:62-70 | `vector::resize`: old flags kept up to the new length, new entries false |
| Instance.KhronosMarked | VulkanEngine/Instance.cpp:77-87 | the marked flags have the layer list's length |
| Instance.KhronosMarkedFirstOnly | VulkanEngine/Instance.cpp:77-87 | starting from cleared flags, only the first layer named `VK_LAYER_KHRONOS_validation` is marked |
| Instance.ScanLayers | VulkanEngine/Instance.cpp:77-91 | the loop produces `KhronosMarked`, and reports the layer found iff it is in the list |
| Instance.SelectedUpToExactly | VulkanEngine/Instance.cpp:96-105 | the names collected from the first `n` entries are exactly the names of active entries among them |
| Instance.SelectedExactly | VulkanEngine/Instance.cpp:131-137 | the collected names are exactly the names of the active entries |
| Instance.CollectActive | VulkanEngine/Instance.cpp:133-137 | the collecting loop produces `Selected(names, flags)` |
| Instance.RequiredExtensions | VulkanEngine/Instance.cpp:219-233 | the platform extensions, in order, plus the debug-utils extension iff validation is on |
| Instance.MarkRequired | VulkanEngine/Instance.cpp:122-129 | the marked flags have the extension list's length |
| Instance.MarkRequiredFirstMatch | VulkanEngine/Instance.cpp:122-129 | every required extension that is available marks its first match; a newly marked entry is required and is the first of its name |
| Instance.MarkRequiredExtensions | VulkanEngine/Instance.cpp:122-129 | the nested loop with `break` produces `MarkRequired` |
| Instance.CreateInfo | VulkanEngine/Instance.cpp:140-157 | the active extension names are enabled; with validation off no layers are enabled and no debug info is chained |
| Instance.CreateOutcome | VulkanEngine/Instance.cpp:159-170 | fails with the message of the first failing step among instance, debug messenger (only with validation) and surface creation; passes iff all of them succeed |
| Instance.DestroyOrder | VulkanEngine/Instance.cpp:173-187 | the messenger is destroyed first and only when set; then the surface; the instance last |
| Instance.SelectLayersAndExtensions | VulkanEngine/Instance.cpp:59-137 | the layer flags, the missing-layer warning, the appended layer names (only with validation), the extension flags and the rebuilt extension names |
| Instance.FirstCreateEnablesKhronosOnly | VulkanEngine/Instance.cpp:77-105 | on a first `Create` the enabled layers are exactly the Khronos validation layer, when it is present |
| Instance.ClearedScanSelectsKhronos | VulkanEngine/Instance.cpp:77-105 | from cleared flags the selected layer names are exactly the Khronos validation layer, when present |
| Instance.Instance.constructor | VulkanEngine/Instance.cpp:43-53 | null handles, validation enabled, `dirty` true |
| Instance.Instance.Create | VulkanEngine/Instance.cpp:55-171 | the lists and flags as `SelectLayersAndExtensions`; the create info; the calls logged; the outcome is `CreateOutcome`; `dirty` cleared only on success |
| Instance.Instance.Configure | VulkanEngine/Instance.cpp:59-157 | the layer and extension selection of `Create`, up to the create info |
| Instance.Instance.Launch | VulkanEngine/Instance.cpp:159-170 | the creation calls and their outcome; handles stored and `dirty` cleared only on success |
| Instance.Instance.Destroy | VulkanEngine/Instance.cpp:173-187 | clears both name lists and the messenger, and logs `DestroyCalls` |
| GraphicsPipelineManager.PoolInfo | VulkanEngine/GraphicsPipelineManager.cpp:10-21 | 500·numFrames uniform and sampler descriptors and 1000·numFrames sets, each cut to 32 bits; when no wrap occurs the sets equal the sum of the descriptors |
| GraphicsPipelineManager.PoolInfoWraps | VulkanEngine/GraphicsPipelineManager.cpp:12-19 | for every uint32 numFrames, the wrapped `maxSets` equals the sum of the wrapped counts iff 500·numFrames wraps to less than 2^31 |
| GraphicsPipelineManager.FirstFailure | VulkanEngine/GraphicsPipelineManager.cpp:43-47 | the first failing shader stage, or the stage count |
| GraphicsPipelineManager.Modules | VulkanEngine/GraphicsPipelineManager.cpp:40-47 | one module handle per stage, in order |
| GraphicsPipelineManager.LayoutOutcome | VulkanEngine/GraphicsPipelineManager.cpp:88-151 | passes iff all five creations succeed; otherwise fails with the message of the first failing step |
| GraphicsPipelineManager.PipelineOutcome | VulkanEngine/GraphicsPipelineManager.cpp:40-158 | passes iff every shader module and all five objects are created; a failing shader gives the shader error |
| GraphicsPipelineManager.CollectAppend | VulkanEngine/GraphicsPipelineManager.cpp:40-158 | the handles collected from a concatenated log are those of each part, in order |
| GraphicsPipelineManager.CollectEach | VulkanEngine/GraphicsPipelineManager.cpp:40-158 | a log whose calls each yield one handle collects those handles in order |
| GraphicsPipelineManager.CollectNone | VulkanEngine/GraphicsPipelineManager.cpp:40-158 | a log whose calls yield no handle collects none |
| GraphicsPipelineManager.ShaderModulesBalanced | VulkanEngine/GraphicsPipelineManager.cpp:40-156 | on success the modules created and the modules destroyed are both exactly the stages' modules, in order |
| GraphicsPipelineManager.ShaderCallsCreateModules | VulkanEngine/GraphicsPipelineManager.cpp:43-47 | the creation loop creates one module per stage and destroys none |
| GraphicsPipelineManager.LayoutCallsTouchNoModule | VulkanEngine/GraphicsPipelineManager.cpp:83-151 | building layouts and the pipeline creates and destroys no shader module |
| GraphicsPipelineManager.DestroyCallsDestroyModules | VulkanEngine/GraphicsPipelineManager.cpp:153-156 | the destroy loop destroys every module, in order, and creates none |
| GraphicsPipelineManager.FailureLeaksShaderModules | VulkanEngine/GraphicsPipelineManager.cpp:88-151 | when any step throws, no shader module is destroyed |
| GraphicsPipelineManager.CreationOrder | VulkanEngine/GraphicsPipelineManager.cpp:83-151 | on success the objects are created in the order scene, model, texture, pipeline layout, pipeline |
| GraphicsPipelineManager.SetLayoutOrder | VulkanEngine/GraphicsPipelineManager.cpp:83-147 | the set layouts come from `bindings[0..2]`; the pipeline layout combines them in that order; the pipeline uses the first two modules and that layout |
| GraphicsPipelineManager.DestroyOrderPositions | VulkanEngine/GraphicsPipelineManager.cpp:161-168 | with distinct handles, the destroy order is pipeline, layout, scene, model, texture |
| GraphicsPipelineManager.LayoutCallsDestroyedFirst | VulkanEngine/GraphicsPipelineManager.cpp:83-168 | every object is destroyed before each object it was created from |
| GraphicsPipelineManager.ChainDestroyedFirst | VulkanEngine/GraphicsPipelineManager.cpp:113-168 | for the five-object chain, pipeline-before-layout-before-set-layouts suffices for dependents to go first |
| GraphicsPipelineManager.DestroyMatchesCreation | VulkanEngine/GraphicsPipelineManager.cpp:161-168 | `DestroyPipeline` destroys exactly the five objects a successful creation made |
| GraphicsPipelineManager.DestroyRespectsDependencies | VulkanEngine/GraphicsPipelineManager.cpp:161-168 | `DestroyPipeline` destroys every object before the objects it depends on |
| GraphicsPipelineManager.InspectRasterizer | VulkanEngine/GraphicsPipelineManager.cpp:178-247 | nothing changes with the header closed; a field changes only through its feature-gated control (line width only with wide lines and LINE mode); a pick of the current mode changes nothing |
| GraphicsPipelineManager.InspectMultisampling | VulkanEngine/GraphicsPipelineManager.cpp:248-273 | sample shading toggles iff the feature is on and the box is clicked; the minimum changes only with shading enabled |
| GraphicsPipelineManager.PipelineResource.constructor | VulkanEngine/GraphicsPipelineManager.h:27-35 | null handles and `dirty` false |
| GraphicsPipelineManager.PipelineDescriptor.constructor | VulkanEngine/GraphicsPipelineManager.h:13-25 | the name "Default" and the given stages, bindings and states |
| GraphicsPipelineManager.PipelineManager.constructor | VulkanEngine/GraphicsPipelineManager.h:49 | a null descriptor pool |
| GraphicsPipelineManager.PipelineManager.Create | VulkanEngine/GraphicsPipelineManager.cpp:3-28 | creates the pool from `PoolInfo`; fails with the pool error iff creation fails |
| GraphicsPipelineManager.PipelineManager.Destroy | VulkanEngine/GraphicsPipelineManager.cpp:30-33 | destroys the pool |
| GraphicsPipelineManager.PipelineManager.CreateShaderModules | VulkanEngine/GraphicsPipelineManager.cpp:40-47 | creates modules until the first failure, which fails the call; on success one module per stage |
| GraphicsPipelineManager.PipelineManager.CreatePipeline | VulkanEngine/GraphicsPipelineManager.cpp:35-159 | logs `PipelineCalls`; the outcome is `PipelineOutcome`; on success the five handles are stored and `dirty` cleared; on failure `dirty` is unchanged |
| GraphicsPipelineManager.PipelineManager.DestroyShaderModules | VulkanEngine/GraphicsPipelineManager.cpp:153-156 | destroys every module in order |
| GraphicsPipelineManager.PipelineManager.CreateLayouts | VulkanEngine/GraphicsPipelineManager.cpp:83-151 | the five creations up to the first failure, with handles stored on success |
| GraphicsPipelineManager.PipelineManager.DestroyPipeline | VulkanEngine/GraphicsPipelineManager.cpp:161-168 | destroys pipeline, layout, then the scene, model and texture set layouts |
| GraphicsPipelineManager.PipelineManager.OnImgui | VulkanEngine/GraphicsPipelineManager.cpp:170-289 | the states become the inspected ones; `dirty` is set iff it was set or a field changed, so it is never cleared |
| AssetManager.LastIndexOf | VulkanEngine/AssetManager.cpp:27 | the last position of a character, or none when absent |
| AssetManager.FileName | VulkanEngine/AssetManager.cpp:27 | the final path component: a suffix of the path with no '/' |
| AssetManager.ParentPath | VulkanEngine/AssetManager.cpp:42 | the directory part: empty when there is no '/', else the path is that directory, a '/' and the file name (or the root "/" and the name) |
| AssetManager.JoinPath | VulkanEngine/AssetManager.cpp:54-55 | `path::append`: an absolute name replaces the directory; a '/' is inserted only when the directory is non-empty and does not end in one |
| AssetManager.JoinParentFileName | VulkanEngine/AssetManager.cpp:42-55 | joining a path's parent and file name gives the path back |
| AssetManager.ObjExtensionExactly | VulkanEngine/AssetManager.cpp:25-35 | a path goes to the OBJ loader iff its file name ends in ".obj" with something before the dot |
| AssetManager.ObjExtensionIsSuffix | VulkanEngine/AssetManager.cpp:27 | an ".obj" extension is the file name's last four characters |
| AssetManager.ObjSuffixIsExtension | VulkanEngine/AssetManager.cpp:27 | a file name longer than ".obj" that ends in it has that extension |
| AssetManager.IsLastIndex | VulkanEngine/AssetManager.cpp:27 | a position with the character and none after it is the last index |
| AssetManager.LoadImageFile | VulkanEngine/AssetManager.cpp:135-155 | null iff decoding fails, otherwise the created texture |
| AssetManager.DiffuseTextures | VulkanEngine/AssetManager.cpp:50-58 | material i gets a texture iff its texture name is non-empty and its image decodes |
| AssetManager.RequestedTextures | VulkanEngine/AssetManager.cpp:50-58 | the image files requested are exactly the non-empty texture names, each appended to the model's parent directory; no more than one per material |
| AssetManager.LoadDiffuseTextures | VulkanEngine/AssetManager.cpp:50-58 | the loop yields `DiffuseTextures` and requests `RequestedTextures` of the parent directory |
| AssetManager.LastCut | VulkanEngine/AssetManager.cpp:98-101 | the last model boundary at or before `j`, with no boundary after it |
| AssetManager.CutsUpTo | VulkanEngine/AssetManager.cpp:98-101 | the boundaries up to `j`, increasing, ending at `LastCut` |
| AssetManager.CutsUpToMembers | VulkanEngine/AssetManager.cpp:98-101 | the boundaries listed are exactly the indices where a model is emitted |
| AssetManager.CutPositionsGrow | VulkanEngine/AssetManager.cpp:96-101 | a boundary list stays valid when the index counter grows |
| AssetManager.AppendModelAtCut | VulkanEngine/AssetManager.cpp:98-121 | emitting a model at a boundary keeps models and boundaries in step |
| AssetManager.ShapeModelsAtCuts | VulkanEngine/AssetManager.cpp:66-124 | the k-th model of a shape is built from the vertices between boundaries k-1 and k |
| AssetManager.ModelMeshesDescribeSegments | VulkanEngine/AssetManager.cpp:89-121 | one model per boundary, and each model's mesh deduplicates exactly its own segment, so meshes share nothing |
| AssetManager.SegmentHasOneMaterial | VulkanEngine/AssetManager.cpp:98-118 | every face of a segment has the material of the model emitted for it |
| AssetManager.SameMaterialUpTo | VulkanEngine/AssetManager.cpp:98-118 | faces between two boundaries share one material |
| AssetManager.CutChangesMaterial | VulkanEngine/AssetManager.cpp:101 | inside the face list a boundary is a change of material |
| AssetManager.WellFormedShapeIsCovered | VulkanEngine/AssetManager.cpp:101 | a shape with three indices per face ends with a model at its last index |
| AssetManager.MaterialStep | VulkanEngine/AssetManager.cpp:98-118 | the loader's test against `lastMaterialId` is the boundary test, and `lastMaterialId` advances to the next face's material |
| AssetManager.EmitStep | VulkanEngine/AssetManager.cpp:98-114 | one index step appends a model with the held material's texture exactly at a boundary |
| AssetManager.DedupSliceStep | VulkanEngine/AssetManager.cpp:89-95 | reading one more vertex extends the current segment's deduplication by one step |
| AssetManager.LoadShape | VulkanEngine/AssetManager.cpp:68-124 | the index loop of one shape yields `ShapeModels` |
| AssetManager.CloseFace | VulkanEngine/AssetManager.cpp:74-122 | one index step keeps models, current mesh, map and held material equal to their specifications |
| AssetManager.LoadObjFile | VulkanEngine/AssetManager.cpp:37-133 | the models of every shape in order; the checker, then each diffuse image under the OBJ file's parent directory, is requested; a warning is logged iff parsing failed or tinyobj warned |
| AssetManager.Load | VulkanEngine/AssetManager.cpp:25-35 | loads iff the extension is ".obj"; otherwise only the "not supported" warning |
| MeshManager.MeshResource.constructor | VulkanEngine/MeshManager.cpp:41 | a mesh with no buffers and no indices |
| MeshManager.SetupCalls | VulkanEngine/MeshManager.cpp:48-53 | one vertex buffer sized stride·|vertices| then one index buffer sized 4·|indices| |
| MeshManager.SetupCallsUpTo | VulkanEngine/MeshManager.cpp:11-14 | mesh i's two buffer creations sit at positions 2i and 2i+1 |
| MeshManager.BuffersOf | VulkanEngine/MeshManager.cpp:19-23 | the buffer pair of each mesh, in order |
| MeshManager.DestroyCalls | VulkanEngine/MeshManager.cpp:17-24 | mesh i's vertex then index buffer are released at 2i and 2i+1 |
| MeshManager.DestroyReleasesExactly | VulkanEngine/MeshManager.cpp:17-24 | `Destroy` only releases buffers, and releases exactly the buffers of the listed meshes |
| MeshManager.DestroyCallAt | VulkanEngine/MeshManager.cpp:17-24 | the call at position k releases buffer k mod 2 of mesh k/2 |
| MeshManager.CreateCheck | VulkanEngine/MeshManager.cpp:7-10 | passes iff the two lists have equal length, else the count-mismatch error |
| MeshManager.MeshManager.constructor | VulkanEngine/MeshManager.cpp:5-15 | both lists empty |
| MeshManager.MeshManager.SetupMesh | VulkanEngine/MeshManager.cpp:48-53 | `indexCount` = |indices|, both buffers stored, both creations logged |
| MeshManager.MeshManager.CreateMesh | VulkanEngine/MeshManager.cpp:39-46 | appends exactly one fresh mesh and one descriptor, keeps the lists paired, and returns the set-up mesh |
| MeshManager.MeshManager.Create | VulkanEngine/MeshManager.cpp:5-15 | fails on a count mismatch without logging; otherwise sets up mesh i from descriptor i for every i, in order |
| MeshManager.MeshManager.SetupAll | VulkanEngine/MeshManager.cpp:11-14 | the setup loop of `Create` |
| MeshManager.MeshManager.Destroy | VulkanEngine/MeshManager.cpp:17-24 | releases every mesh's buffers and leaves both lists as they were |
| MeshManager.MeshManager.Finish | VulkanEngine/MeshManager.cpp:26-37 | as written: `meshes` is emptied but `descs` kept, so the lists stay paired only if `descs` was empty |
| MeshManager.MeshManager.FinishAll | VulkanEngine/MeshManager.cpp:26-37 | corrected: both lists emptied, so they stay paired |
| MeshManager.ReuseAfterFinish | VulkanEngine/MeshManager.cpp:5-37 | create one mesh, `Finish`, create another: the next `Create` fails with the count mismatch |
| MeshManager.ReuseAfterFinishAll | VulkanEngine/MeshManager.cpp:5-37 | the same sequence with the corrected finish: `Create` passes |
| Window.CreateCallsMakeOneWindow | VulkanEngine/Window.cpp:40-68 | every display mode creates exactly one window, sized and placed per mode; attributes are set only when windowed; the window is maximized iff windowed and asked for |
| Window.LastResizeIsLast | VulkanEngine/Window.cpp:178-185 | the size kept is that of the last resize event, and there is none iff no event is a resize |
| Window.LastMaximizeIsLast | VulkanEngine/Window.cpp:187-192 | the maximized flag kept is that of the last maximize event |
| Window.ScrollTotalAppend | VulkanEngine/Window.cpp:170-176 | scroll offsets of two batches add up |
| Window.LastResizeAppend | VulkanEngine/Window.cpp:178-185 | a later batch's resize overrides an earlier one's |
| Window.LastMaximizeAppend | VulkanEngine/Window.cpp:187-192 | a later batch's maximize overrides an earlier one's |
| Window.AfterEventsAppend | VulkanEngine/Window.cpp:170-192 | handling two batches in turn is handling them joined |
| Window.Window.constructor | VulkanEngine/Window.cpp:3-28 | 800×600 at (100, 100), windowed, resizable, decorated, not maximized, `dirty` true, `framebufferResized` false, zero deltas |
| Window.Window.Create | VulkanEngine/Window.cpp:30-78 | logs init, the mode's calls and the callback registration; stores the window; clears `framebufferResized` and `dirty` |
| Window.Window.ModeCalls | VulkanEngine/Window.cpp:40-68 | the calls of the current display mode |
| Window.Window.OnFramebufferResize | VulkanEngine/Window.cpp:178-185 | stores the new size and sets `framebufferResized` |
| Window.Window.OnScroll | VulkanEngine/Window.cpp:170-176 | adds the y offset to `scroll` and `deltaScroll` |
| Window.Window.OnMaximize | VulkanEngine/Window.cpp:187-192 | records the maximized flag as reported |
| Window.Window.Dispatch | VulkanEngine/Window.cpp:170-192 | a batch of callbacks: scroll summed, last resize and last maximize kept |
| Window.Window.Update | VulkanEngine/Window.cpp:80-95 | `deltaScroll` is reset before polling, so it ends as this frame's scroll; the input state is the events applied to the reset state; time and mouse deltas from the previous values |
| Window.Window.WaitEvents | VulkanEngine/Window.cpp:120-123 | the window input becomes `AfterEvents` of the batch |
| Window.Window.UpdateFramebufferSize | VulkanEngine/Window.cpp:104-108 | stores the framebuffer size and clears `framebufferResized`, nothing else |
| Window.Window.Destroy | VulkanEngine/Window.cpp:97-102 | saves the position, destroys the window and terminates GLFW |
| Window.Window.GetWidth | VulkanEngine/Window.cpp:125-128 | the width as `uint32_t` |
| Window.Window.GetHeight | VulkanEngine/Window.cpp:130-133 | the height as `uint32_t` |
| VulkanUtils.Decimal | VulkanEngine/VulkanUtils.h:10-22 | a non-empty string of decimal digits |
| VulkanUtils.VkSampleCountFlagBitsStr | VulkanEngine/VulkanUtils.h:6-28 | "Unspecified" iff the value is not one of the seven sample bits; bit n is named "VK_SAMPLE_COUNT_n_BIT" |
| VulkanUtils.VkPresentModeKHRStr | VulkanEngine/VulkanUtils.h:30-46 | "Unspecified" iff outside the four modes; each known name is "VK_PRESENT_MODE_…_KHR" |
| VulkanUtils.VkFormatStr | VulkanEngine/VulkanUtils.h:48-64 | "Unspecified" iff outside the four formats; each known name starts "VK_FORMAT_" |
| VulkanUtils.VkColorSpaceKHRStr | VulkanEngine/VulkanUtils.h:66-80 | "Unspecified" iff outside the three spaces; the legacy alias is named "VK_COLOR_SPACE_SRGB_NONLINEAR_KHR" |
| VulkanUtils.SampleCountNamesDistinct | VulkanEngine/VulkanUtils.h:6-23 | distinct sample bits get distinct names |
| VulkanUtils.SampleCountDigits | VulkanEngine/VulkanUtils.h:10-22 | the digits inside a sample-count name spell the count |
| VulkanUtils.PresentModeNamesDistinct | VulkanEngine/VulkanUtils.h:30-41 | distinct present modes get distinct names |
| VulkanUtils.FormatNamesDistinct | VulkanEngine/VulkanUtils.h:48-59 | distinct formats get distinct names |
| VulkanUtils.ColorSpaceNamesDistinct | VulkanEngine/VulkanUtils.h:66-75 | distinct colour spaces get distinct names |
| VulkanUtils.DecimalInjective | VulkanEngine/VulkanUtils.h:10-22 | distinct numbers have distinct decimal spellings |
| Application.NatToString | VulkanEngine/main.cpp:116 | the decimal digits of a count |
| Application.CheckVulkanResult | VulkanEngine/main.cpp:110-121 | silent on 0; otherwise one error line with the code; throws (with an empty message) iff the code is negative |
| Application.ReadOneMore | VulkanEngine/main.cpp:1179-1202 | reading one more index of a shape appends its vertex to the stream |
| Application.ModelVerticesLength | VulkanEngine/main.cpp:1177-1203 | the stream read has one vertex per index of every shape |
| Application.LoadedModelDescribesFile | VulkanEngine/main.cpp:1170-1202 | after `loadModel`: no duplicate vertices, in first-occurrence order; every index is in range and points to the vertex read; one index per mesh index |
| Application.DedupSnoc | VulkanEngine/main.cpp:1196-1201 | deduplicating one more vertex is one more step |
| Application.Pow2 | VulkanEngine/main.cpp:985 | powers of two are positive |
| Application.Pow2Grows | VulkanEngine/main.cpp:985 | k < 2^k |
| Application.Log2FloorBounds | VulkanEngine/main.cpp:985 | 2^⌊log2 n⌋ ≤ n < 2^(⌊log2 n⌋+1) |
| Application.MipLevelsBounds | VulkanEngine/main.cpp:985 | the level count is at least 1 and 2^(levels-1) ≤ max(w, h) < 2^levels |
| Application.BlitSize | VulkanEngine/main.cpp:935 | a destination dimension is at least 1, and half (rounded down) of a dimension ≥ 2 |
| Application.MulMono | VulkanEngine/main.cpp:950-957 | multiplication by a non-negative number is monotone |
| Application.DivUnique | VulkanEngine/main.cpp:950-957 | a quotient with remainder in range is the integer quotient |
| Application.DivTwice | VulkanEngine/main.cpp:950-957 | halving a quotient is dividing by twice the divisor |
| Application.MipSizeIsQuotient | VulkanEngine/main.cpp:950-957 | after `level` halvings a dimension is max(d / 2^level, 1) |
| Application.MipSizePositive | VulkanEngine/main.cpp:935-957 | the running size stays ≥ 1, and the blit's destination size is the next running size |
| Application.MipChainEndsAtOne | VulkanEngine/main.cpp:917-985 | with the computed level count, both dimensions reach 1 exactly at the last level |
| Application.LastLevelIsOne | VulkanEngine/main.cpp:950-957 | a dimension below 2^levels is 1 at level levels-1 |
| Application.LevelBeforeLast | VulkanEngine/main.cpp:950-957 | a dimension of at least 2^(levels-1) is still ≥ 2 one level earlier |
| Application.SmallQuotient | VulkanEngine/main.cpp:952 | d < 2p gives d / p ≤ 1 |
| Application.LargeQuotient | VulkanEngine/main.cpp:952 | 2p ≤ d gives d / p ≥ 2 |
| Application.MipLoopCalls | VulkanEngine/main.cpp:917-958 | three commands per loop iteration |
| Application.MipLoopCallsAt | VulkanEngine/main.cpp:917-958 | iteration i's three commands sit at 3i, 3i+1, 3i+2 |
| Application.GenerateMipmaps | VulkanEngine/main.cpp:890-969 | throws without linear filtering and records nothing; otherwise records `MipmapCalls` |
| Application.MipmapCallsShape | VulkanEngine/main.cpp:902-968 | mipLevels-1 blits, blit i from level i-1 to level i at the halved size (never below 1), then a barrier on level mipLevels-1 |
| Application.BarrierApplies | VulkanEngine/main.cpp:919-925 | a barrier whose levels are all in its old layout moves exactly those levels to its new layout |
| Application.ReplayAppend | VulkanEngine/main.cpp:902-968 | replaying one more command continues from the earlier replay |
| Application.ReplayConcat | VulkanEngine/main.cpp:902-968 | replaying two command lists is replaying the second from where the first ends |
| Application.LevelCallsAdvance | VulkanEngine/main.cpp:919-948 | one iteration moves level n-1 from TRANSFER_DST through TRANSFER_SRC to SHADER_READ_ONLY, with each command valid for the layouts it finds |
| Application.SourceBarrierStep | VulkanEngine/main.cpp:919-925 | the first barrier moves level n-1 to TRANSFER_SRC |
| Application.ReadBarrierStep | VulkanEngine/main.cpp:943-948 | the second barrier moves level n-1 to SHADER_READ_ONLY |
| Application.ReplayThree | VulkanEngine/main.cpp:917-948 | three commands that apply in turn replay to the last layouts |
| Application.MipLoopKeepsLayoutsValid | VulkanEngine/main.cpp:917-958 | after n iterations, levels below n are SHADER_READ_ONLY and the rest TRANSFER_DST |
| Application.LastLevelBarrier | VulkanEngine/main.cpp:960-966 | the final barrier moves the last level to SHADER_READ_ONLY |
| Application.MipmapsLeaveLevelsReadable | VulkanEngine/main.cpp:890-969 | every command is valid and every level ends in SHADER_READ_ONLY |
| Application.TextureLevelsEndReadable | VulkanEngine/main.cpp:985-1007 | the UNDEFINED→TRANSFER_DST transition then the mipmaps leave every level readable |
| Application.TransitionMasks | VulkanEngine/main.cpp:1035-1051 | exactly the two pairs UNDEFINED→TRANSFER_DST and TRANSFER_DST→SHADER_READ_ONLY are supported |
| Application.TransitionImageLayout | VulkanEngine/main.cpp:1014-1056 | passes iff the pair is supported, else throws "unsupported layout transition" after beginning the command buffer |
| Application.TransitionMovesAllLevels | VulkanEngine/main.cpp:1014-1056 | a supported transition moves all levels from the old to the new layout; an unsupported one never ends its command buffer |
| Application.FramePoolInfo | VulkanEngine/main.cpp:763-772 | numFrames uniform descriptors, numFrames+1 sampler descriptors, 2·numFrames sets, when nothing wraps |
| Application.FramePoolHoldsFrameSets | VulkanEngine/main.cpp:763-798 | for every uint32 numFrames, the pool has room for the numFrames sets and descriptors the frames allocate exactly while the set count does not wrap (numFrames < 2^31) |
| Application.FramePoolWraps | VulkanEngine/main.cpp:763-772 | for every uint32 numFrames: numFrames uniform descriptors; numFrames+1 samplers, wrapping to 0 at 2^32-1; 2·numFrames sets, less 2^32 from 2^31 on |
| Application.FrameWrites | VulkanEngine/main.cpp:800-831 | set i gets frame i's uniform buffer at binding 0 and the texture at binding 1 |
| Application.Resize | VulkanEngine/main.cpp:794 | `vector::resize`: the old entries kept, new ones filled |
| Application.AfterBatch | VulkanEngine/main.cpp:687-690 | waiting once more continues the input from where the earlier waits left it |
| Application.RepeatSnoc | VulkanEngine/main.cpp:687-690 | one more wait adds one `WaitEvents` step |
| Application.RecreateStepsKeepGlobals | VulkanEngine/main.cpp:682-708 | recreating the swap chain never tears down the instance or device |
| Application.DrawStepsKeepGlobals | VulkanEngine/main.cpp:647-675 | drawing a frame never tears down the instance or device |
| Application.FrameOfDraw | VulkanEngine/main.cpp:388-402 | a frame is update, camera, ImGui, acquire, the draw, then a full rebuild iff a global object is dirty |
| Application.TransitionFollowsRules | VulkanEngine/main.cpp:391-401 | every frame transition follows the rebuild rules of the main loop |
| Application.AppendFrameSteps | VulkanEngine/main.cpp:391-401 | appending the update, the draw and the rebuild one after another appends the frame's steps |
| Application.HelloTriangleApplication.constructor | VulkanEngine/main.cpp:243-266 | empty model, buffers and sets, null pool and texture, no flags set |
| Application.HelloTriangleApplication.LoadModel | VulkanEngine/main.cpp:1159-1204 | a no-op when either list is non-empty; a parse failure throws `warn + err`; otherwise the lists are `Dedup` of the model's vertex stream |
| Application.HelloTriangleApplication.ReadShape | VulkanEngine/main.cpp:1179-1202 | reading one shape's indices extends the deduplication by that shape's vertices |
| Application.HelloTriangleApplication.CreateUniformBuffers | VulkanEngine/main.cpp:710-728 | exactly numFrames uniform buffers, the ones made in order |
| Application.HelloTriangleApplication.CreateDescriptorPool | VulkanEngine/main.cpp:756-780 | the pool info is `FramePoolInfo`; throws iff creation fails |
| Application.HelloTriangleApplication.CreateDescriptorSets | VulkanEngine/main.cpp:782-833 | on failure the list is resized and the call throws; on success numFrames sets, with set i written from uniform buffer i |
| Application.HelloTriangleApplication.RecreateSwapChain | VulkanEngine/main.cpp:682-708 | waits while minimized; rebuilds (resize acknowledged, then teardown and rebuild) only once the window has a size; the rebuild clears the swap-chain and pipeline flags |
| Application.HelloTriangleApplication.WaitWhileMinimized | VulkanEngine/main.cpp:687-690 | waits once per batch while width or height is 0, and stops at the first batch after which the window has a size |
| Application.HelloTriangleApplication.DrawFrame | VulkanEngine/main.cpp:647-680 | if a frame resource is dirty after the acquire the chain is recreated and nothing is submitted; otherwise update, record, submit, present, then a recreate when dirty again |
| Application.HelloTriangleApplication.EndFrame | VulkanEngine/main.cpp:658-675 | the part of `drawFrame` after the acquire |
| Application.HelloTriangleApplication.BeginFrame | VulkanEngine/main.cpp:656-658 | the ImGui frame raises only the flags its panels ask for; then the acquire |
| Application.HelloTriangleApplication.Present | VulkanEngine/main.cpp:665-668 | update, record, then submit and present the image |
| Application.HelloTriangleApplication.RebuildAll | VulkanEngine/main.cpp:396-401 | device wait-idle, full cleanup and init, after which no object is dirty and the pending resize is cleared; the rest of the window input is unchanged |
| Application.HelloTriangleApplication.RunFrame | VulkanEngine/main.cpp:391-401 | one loop iteration is a `FrameTransition` from the flags and window input it starts with to those it leaves; it follows the frame rules and leaves no global object dirty |
| Application.HelloTriangleApplication.UpdateAndDraw | VulkanEngine/main.cpp:393-395 | the window update and draw follow `DrawRules`, leave the state `Drawn`, log the update, camera and draw steps, and raise the global flags the panels asked for |
| Application.HelloTriangleApplication.MainLoop | VulkanEngine/main.cpp:388-404 | a chain of states, one per frame boundary, from the initial state to the final one; frame k is a `FrameTransition` from state k to state k+1 and follows the frame rules; the log is the frames' steps in order and then a device wait-idle |

## Left out

- The calls into Vulkan, GLFW, ImGui, stb_image and tinyobjloader are not modelled. What they return is a parameter, and each call made is an entry in a log.
- `SwapChain.cpp` and `GraphicsPipeline.cpp` are not part of this model. `SwapChain::Acquire`, `SubmitAndPresent`, `Create` and `Destroy` appear only as steps of the frame loop. Whether the swap chain went out of date is an input flag. No fence or semaphore behaviour is modelled.
- `initVulkan`, `cleanupVulkan`, `cleanupSwapChain`, `createGraphicsPipeline`, `initImgui` and `createUniformProjection` are single steps in the frame log. Their bodies call code that is not part of this model.
- Each ImGui panel is modelled only by the flags it raises (`UiRequests`) and, for the pipeline inspector, by the value a control returns.
- Floating point is not modelled. The mip level count uses an integer log2 in place of `std::floor(std::log2(...))`. Scroll offsets, time, line width and sample shading are `real` values, with no rounding.
- Application.HelloTriangleApplication.WaitWhileMinimized: GLFW blocks until more events arrive. The model waits once per supplied batch and stops without rebuilding when the batches run out.
- Application.HelloTriangleApplication.LoadModel: the `uint32_t` cast of a vertex's position is not modelled. A model with 2^32 or more vertices is not covered.
- Application.HelloTriangleApplication.LoadModel: requires every corner to resolve (`ShapesResolve`). tinyobjloader gives `texcoord_index` -1 for a face written without texture coordinates, and `loadModel` then reads `attrib.texcoords` out of range (main.cpp:1188-1191). Such files are not covered.
- Application.HelloTriangleApplication.RecreateSwapChain: `PhysicalDevice::OnSurfaceUpdate` (which throws "can't find suitable device", PhysicalDevice.cpp:137-141 and 158-161), `createUniformBuffers`, `createDescriptorPool` (which throws, main.cpp:778) and `createDescriptorSets` (which throws, main.cpp:797) are steps in the log that always succeed. The exception that would end `mainLoop` is not modelled. `SwapChain::Create` and `createGraphicsPipeline` are assumed to clear the swap chain and pipeline flags.
- Application.HelloTriangleApplication.RebuildAll: `cleanupVulkan` and `initVulkan` are steps that always succeed and clear every dirty flag. Their exceptions are not modelled.
- Progress messages written to stdout and stderr are not modelled. Examples are PhysicalDevice.cpp:139, "Creating Instance", "Created Instance" and "Created surface" (Instance.cpp:57, 163, 168), and the "Finish ..." lines of main.cpp. Warnings that the source also returns or records, such as missing device extensions, are modelled as values.
- AssetManager.ParentPath and AssetManager.JoinPath: only '/' separates path components. Repeated separators are not collapsed, and root names and Windows paths are not modelled. `JoinParentFileName` requires a path without doubled separators.
- PhysicalDevice.AdapterRegistry.UpdateDevice: the source reads `allDevices[index]` before it checks the index (PhysicalDevice.cpp:156). The model checks the range first and treats an out-of-range index as unsuitable.
- `Window.h` declares static defaults of 1280×720. The constructor in `Window.cpp` sets 800×600, and the model follows the constructor.
- Timing in `Window::Update` is modelled with the clock as a parameter. The monitor, video mode and cursor position are parameters too.
- `hasStencilComponent` (main.cpp:1154) is not used by any modelled operation.
- Camera, `Transform::getMatrix`, `updateUniformBuffer` matrices, `updateCommandBuffer` recording, `copyBufferToImage`, `TextureManager`, `BufferManager`, `Buffers`, `Image` and `FileManager` are left out. They are floating-point maths or thin wrappers over foreign calls.
- Debug-messenger callback plumbing in `Instance.cpp` is left out. Only whether the messenger is created, and with what result, is modelled.
- Pixel data and shader bytes are not modelled. Vertices are opaque values compared with `==`.

## Findings

| source | as written | input that shows it | evidently intended | confidence | as-written member | corrected member |
|---|---|---|---|---|---|---|
| VulkanEngine/MeshManager.cpp:26-37 | `Finish` deletes every descriptor but clears only `meshes`; `descs` keeps its (now dangling) entries | `CreateMesh`, `Finish`, `CreateMesh`, then `Create`: 1 mesh against 2 descriptors, so `Create` throws "Number of mesh descs is different than number of meshes!" | `Finish` clears both lists, so the manager can be reused after it | not executed | MeshManager.MeshManager.Finish, MeshManager.ReuseAfterFinish | MeshManager.MeshManager.FinishAll, MeshManager.ReuseAfterFinishAll |
