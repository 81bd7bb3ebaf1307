# OpenXR conformance-suite helpers, modelled in Dafny

This project models six pieces of the OpenXR Conformance Test Suite. Each is stated in Dafny, and the properties its code promises are proved.

- **Swapchain image lifecycle** (`swapchain.dfy`, module `Swapchain`).
  - The conformance layer intercepts `xrCreateSwapchain`, `xrEnumerateSwapchainImages`, `xrAcquireSwapchainImage`, `xrWaitSwapchainImage` and `xrReleaseSwapchainImage`.
  - Each hook forwards the call to the runtime first. It then checks the acquire/wait/release rules of section 10.1 (Swapchains) of the OpenXR 1.0 specification.
  - Per swapchain, the layer tracks a vector of image states, a FIFO of acquired indices and a static flag.
  - `Chain` is a pure step function per hook. Class `SwapchainState` holds the tracked state; its hook methods are proved against those functions.
  - A non-conformance report is an entry in the ghost log `reported`. A report never changes the result a hook returns.
- **glTF mesh flattening** (`gltf_loader.dfy`, module `GltfLoader`). `Gltf::ModelBuilder` walks the node tree of the default scene.
  - It adds one PBR node per glTF node.
  - It groups primitives by material index in a `std::map` of primitive builders. Vertices are stamped with the node index. Indices are offset by the builder's vertex count and given reversed winding.
  - `Build` turns each builder into a primitive with its material.
- **Localized action listing** (`action_utils.dfy`, module `ActionUtils`).
  - The two-call enumeration idioms (section 2.11 of the OpenXR 1.0 specification).
  - `ListActionsLocalized`: bound sources grouped by localized user path and profile, in first-seen order, joined with delimiters.
  - The de-duplication in `DisplayMessage`.
  - The locatability test of `WaitForLocatability`.
- **Direct3D common helpers** (`d3d_common.dfy`, module `D3DCommon`).
  - The LUID comparison with a `uint64_t`.
  - The DXGI swapchain-format table as data, with its three lookups.
  - The default depth format.
- **D3D12 PBR resources** (`d3d12_resources.dfy`, module `D3D12Resources`).
  - The glTF sampler conversion (section 3.8.4 of the glTF 2.0 specification, Samplers) into D3D12 filter components and address modes.
  - The supported-format filter.
  - The image and sampler caches of `LoadTexture`.
  - The guards of `GetSupportedFormats` and `SetEnvironmentMap`.
- **Vulkan PBR material** (`vk_material.dfy`, module `VkMaterial`).
  - The five-slot texture/sampler table.
  - The dirty-flag constant-buffer upload. A material is valid when both slot tables have one entry per slot and parameters not marked as changed are the ones last uploaded; every method keeps this.
  - `CreateFlat`, `GetTextureDescriptors` and `Clone`.

`wrappers.dfy` holds the `Option` and `Result` types the modules share.

Runtime answers are inputs of the model. So are device answers and the results of parsing. These include:
- the `XrResult` of the forwarded call, the count and index the runtime writes, and the measured wait time;
- the bound sources and localized names;
- the `CheckFeatureSupport` answer;
- the tinygltf model.

Exceptions are the `Err` case of a `Result`, or an `Option` error out-parameter.

## Model

| member | source | states |
|---|---|---|
| Swapchain.ToStr | src/conformance/conformance_layer/Swapchain.cpp:27-41 | a tracked state's name is never the fallback "unknown" |
| Swapchain.ToStrInjective | src/conformance/conformance_layer/Swapchain.cpp:27-41 | two states have the same name exactly when they are the same state |
| Swapchain.QueueNeedsImages | src/conformance/conformance_layer/Swapchain.cpp:163-165 | with the in-bounds invariant, a non-empty acquired queue implies sized image states, so the queue front can be subscripted |
| Swapchain.EnumerateSizing | src/conformance/conformance_layer/Swapchain.cpp:90-102 | first enumerate sizes the states to the count, all Created; a sized vector is never resized; a zero count, a non-1 count on a static swapchain and a changed count are each reported; an empty vector with count 0 stays empty; the report list is empty exactly when none of these holds |
| Swapchain.EnumerateCount | src/conformance/conformance_layer/Swapchain.cpp:90-102 | a successful enumerate with a count output: the empty states are sized to the count, all Created, and the zero, static-non-1 and changed counts are reported in that order (proved in EnumerateSizing) |
| Swapchain.Enumerate | src/conformance/conformance_layer/Swapchain.cpp:80-114 | the enumerate hook validates only a successful call with a non-null count output, and otherwise leaves the state alone with no report |
| Swapchain.EnumerateIdempotent | src/conformance/conformance_layer/Swapchain.cpp:85-102 | an enumerate repeating the established count changes nothing and reports nothing |
| Swapchain.Acquire | src/conformance/conformance_layer/Swapchain.cpp:119-143 | the acquire hook keeps every queued index in bounds and never changes the size of a sized vector |
| Swapchain.Probe | src/conformance/conformance_layer/Swapchain.cpp:124-129 | the enumerate acquire runs itself, with capacity 0 and no image array; a failed enumerate is reported |
| Swapchain.SizedForAcquire | src/conformance/conformance_layer/Swapchain.cpp:124-133 | acquire probes exactly when the image states are still empty (AcquireProbes) |
| Swapchain.TargetReports | src/conformance/conformance_layer/Swapchain.cpp:137-139 | the reports for acquiring an image: Waited, Acquired, and Released on a static swapchain, in that order (AcquireEffect, AcquireClean) |
| Swapchain.AcquireAsWritten | src/conformance/conformance_layer/Swapchain.cpp:116-145 | the acquire hook as written: undefined (`None`) where `imageStates[*index]` is out of range, otherwise the corrected hook (AcquireAsWrittenAgrees, AcquireAsWrittenUndefined) |
| Swapchain.AcquireAsWrittenUndefined | src/conformance/conformance_layer/Swapchain.cpp:131-135 | two concrete inputs (index 3 of three images, and an acquire whose probe reports 0 images) for which the code as written subscripts out of range, while the corrected hook reports |
| Swapchain.AcquireAsWrittenAgrees | src/conformance/conformance_layer/Swapchain.cpp:124-142 | the code as written is defined exactly when the index is in range after the probe, and then agrees with the corrected hook |
| Swapchain.AcquireEffect | src/conformance/conformance_layer/Swapchain.cpp:135-142 | an in-range acquire sets the image Acquired and appends its index to the queue, even after a report; Waited, Acquired and static Released targets are each reported; otherwise nothing is reported |
| Swapchain.AcquireClean | src/conformance/conformance_layer/Swapchain.cpp:124-142 | an acquire that reports nothing ran a clean probe (if any), hit an in-range image that was Created or Released, and acquired it |
| Swapchain.AcquireOutOfBounds | src/conformance/conformance_layer/Swapchain.cpp:131-133 | an out-of-range index on a sized swapchain is reported and changes nothing |
| Swapchain.AcquireProbes | src/conformance/conformance_layer/Swapchain.cpp:124-130 | on an unsized swapchain, acquire first runs the enumerate with a null image array; a failed probe is reported and leaves the states empty |
| Swapchain.Wait | src/conformance/conformance_layer/Swapchain.cpp:152-177 | the wait hook keeps the in-bounds invariant and the number of images |
| Swapchain.WaitEffect | src/conformance/conformance_layer/Swapchain.cpp:154-176 | a timeout changes nothing, and is reported exactly when it came early; success sets the queue front Waited, reporting it unless it was Acquired, and leaves the queue as it was; success with an empty queue is reported; other results do nothing |
| Swapchain.Release | src/conformance/conformance_layer/Swapchain.cpp:183-200 | the release hook keeps the in-bounds invariant and the number of images |
| Swapchain.ReleaseEffect | src/conformance/conformance_layer/Swapchain.cpp:188-198 | success with an empty queue is reported and changes nothing; otherwise it pops exactly the front, sets exactly that image Released, leaves every other image alone, and reports exactly when the front was not Waited |
| Swapchain.Next | src/conformance/conformance_layer/Swapchain.cpp:80-201 | one intercepted call keeps the in-bounds invariant |
| Swapchain.Run | src/conformance/conformance_layer/Swapchain.cpp:80-201 | any sequence of intercepted calls keeps the in-bounds invariant |
| Swapchain.RunImageCountFixed | src/conformance/conformance_layer/Swapchain.cpp:95-98 | once the image states are non-empty, no sequence of calls changes their number |
| Swapchain.CleanStepFollowsLifecycle | src/conformance/conformance_layer/Swapchain.cpp:137-195 | a call that reports nothing moves each image along a lifecycle edge (Created→Acquired→Waited→Released→Acquired, the last only when not static) and changes at most one image |
| Swapchain.AcquireTargetConsistent | src/conformance/conformance_layer/Swapchain.cpp:141-142 | acquiring a Created or Released image keeps queued indices distinct and in bounds, every queued image Acquired or a Waited front, and every Acquired or Waited image queued |
| Swapchain.SizedConsistent | src/conformance/conformance_layer/Swapchain.cpp:124-130 | the probe, when it reports nothing, keeps that consistency |
| Swapchain.CleanAcquireConsistent | src/conformance/conformance_layer/Swapchain.cpp:119-143 | an acquire that reports nothing keeps the swapchain consistent |
| Swapchain.CleanWaitConsistent | src/conformance/conformance_layer/Swapchain.cpp:154-176 | a wait that reports nothing keeps the swapchain consistent |
| Swapchain.CleanReleaseConsistent | src/conformance/conformance_layer/Swapchain.cpp:184-199 | a release that reports nothing keeps the swapchain consistent |
| Swapchain.CleanStepConsistent | src/conformance/conformance_layer/Swapchain.cpp:80-201 | any call that reports nothing keeps the swapchain consistent |
| Swapchain.CleanRunConsistent | src/conformance/conformance_layer/Swapchain.cpp:80-201 | while nothing is reported, queued indices stay distinct and in bounds, each queued image is Acquired except a Waited front, every Acquired or Waited image is queued, and a static swapchain has at most one image |
| Swapchain.ThreeImageCycle | src/conformance/conformance_layer/Swapchain.cpp:116-201 | a three-image swapchain acquired before enumerating: acquire, wait and release of image 0 report nothing and leave it Released; a second release is reported |
| Swapchain.FirstAcquireOfThree | src/conformance/conformance_layer/Swapchain.cpp:124-142 | an acquire before any enumerate sizes the vector from the probe and acquires the image |
| Swapchain.StaticReacquireReported | src/conformance/conformance_layer/Swapchain.cpp:139-142 | re-acquiring the released image of a static swapchain is reported, and the image is still set Acquired and queued |
| Swapchain.SwapchainState.constructor | src/conformance/conformance_layer/Swapchain.cpp:74-75 | a new tracked state has no image states, an empty queue and no reports |
| Swapchain.SwapchainState.EnumerateSwapchainImages | src/conformance/conformance_layer/Swapchain.cpp:80-114 | returns the runtime's result unchanged; the new state and reports are the enumerate step's |
| Swapchain.SwapchainState.AcquireSwapchainImage | src/conformance/conformance_layer/Swapchain.cpp:116-145 | returns the runtime's result unchanged; the new state and reports are the acquire step's, probe included |
| Swapchain.SwapchainState.SizeForAcquire | src/conformance/conformance_layer/Swapchain.cpp:124-130 | the state and reports become those of the probe step: an enumerate with a null image array when no image states exist yet, and a report when it fails |
| Swapchain.SwapchainState.AcquireTarget | src/conformance/conformance_layer/Swapchain.cpp:135-142 | the target image becomes Acquired and its index joins the back of the queue; the reports added are those for its former state |
| Swapchain.SwapchainState.WaitSwapchainImage | src/conformance/conformance_layer/Swapchain.cpp:147-178 | returns the runtime's result unchanged; the new state and reports are the wait step's |
| Swapchain.SwapchainState.ReleaseSwapchainImage | src/conformance/conformance_layer/Swapchain.cpp:180-201 | returns the runtime's result unchanged; the new state and reports are the release step's |
| Swapchain.CreateSwapchain | src/conformance/conformance_layer/Swapchain.cpp:67-78 | returns the runtime's result; a state is attached exactly on success, fresh and empty, static exactly when the static-image flag is set |
| Swapchain.ThreeImageSession | src/conformance/conformance_layer/Swapchain.cpp:116-201 | the three-image scenario driven through the class ends with image 0 Released and one release report |
| ActionUtils.Overwrite | src/conformance/framework/action_utils.cpp:34-36 | the runtime's writes land in the caller's buffer, which keeps its size, and hold their own elements up to its capacity |
| ActionUtils.TwoCall | src/conformance/framework/action_utils.cpp:28-39 | fails exactly when the size query fails, or the count is non-zero and the fill call fails; on success the result has the first count's length, filled from the runtime's writes |
| ActionUtils.EnumerateBoundSources | src/conformance/framework/action_utils.cpp:28-39 | the bound sources: the two-call idiom over a buffer of the first count filled with XR_NULL_PATH (EnumerateNoSources, EnumerateFilled) |
| ActionUtils.EnumerateNoSources | src/conformance/framework/action_utils.cpp:33-38 | a zero count skips the second call and yields no sources |
| ActionUtils.EnumerateFilled | src/conformance/framework/action_utils.cpp:33-38 | a runtime that fills the whole buffer yields exactly what it wrote |
| ActionUtils.UpToNul | src/conformance/framework/action_utils.cpp:48 | the string built from a buffer holding a NUL is its prefix before the first NUL, and contains no NUL |
| ActionUtils.UpToNulTerminated | src/conformance/framework/action_utils.cpp:48 | a NUL-terminated text reads back as itself |
| ActionUtils.UpToNulWritten | src/conformance/framework/action_utils.cpp:45-48 | the name read from a NUL-filled buffer is a prefix of what the runtime wrote |
| ActionUtils.GetInputSourceLocalizedName | src/conformance/framework/action_utils.cpp:40-51 | undefined (`None`) exactly when both calls succeed with a non-zero count and the filled buffer holds no NUL; otherwise fails exactly when either call fails, gives "" for a zero count, and else a NUL-free prefix of the runtime's writes shorter than the count |
| ActionUtils.LocalizedNameDefined | src/conformance/framework/action_utils.cpp:45-48 | the read stays inside the buffer exactly when the runtime writes fewer characters than the count or a NUL among them |
| ActionUtils.LocalizedNameUnterminated | src/conformance/framework/action_utils.cpp:45-48 | a count of 3 filled with "abc" makes the read undefined |
| ActionUtils.LocalizedNameRoundTrip | src/conformance/framework/action_utils.cpp:42-48 | a runtime that reports length+1 and writes a NUL-terminated name yields that name |
| ActionUtils.FirstSeen | src/conformance/framework/action_utils.cpp:209-212 | the group list holds exactly the names seen |
| ActionUtils.FirstSeenOrder | src/conformance/framework/action_utils.cpp:209-212 | each group appears once, and the groups come in the order their names are first seen |
| ActionUtils.Names | src/conformance/framework/action_utils.cpp:207 | one localized user-path-and-profile name per bound source |
| ActionUtils.PathsIn | src/conformance/framework/action_utils.cpp:209-213 | the paths collected under one name, in encounter order, duplicates kept (PathsInAbsent, AllGroupsSnoc, PartitionOfPaths) |
| ActionUtils.Join | src/conformance/framework/action_utils.cpp:219-224 | the `first`-flag output loop: parts with a delimiter between neighbours (JoinContents, JoinLength) |
| ActionUtils.Group | src/conformance/framework/action_utils.cpp:226-244 | one group as written: the name, the suffix, then the components joined by the action delimiter |
| ActionUtils.Listing | src/conformance/framework/action_utils.cpp:187-247 | the reference listing: the groups of the first-seen names joined by the path delimiter, which ListActionsLocalized is proved to return |
| ActionUtils.Groups | src/conformance/framework/action_utils.cpp:220-245 | one rendered group per name |
| ActionUtils.PathsInAbsent | src/conformance/framework/action_utils.cpp:209-213 | a name no source has gets no paths |
| ActionUtils.AllGroupsSnoc | src/conformance/framework/action_utils.cpp:209-213 | one more source joins only the group of its own name |
| ActionUtils.PartitionOfPaths | src/conformance/framework/action_utils.cpp:209-213 | together the groups hold every source path exactly as often as it was enumerated: none lost and none added, duplicates kept |
| ActionUtils.JoinLength | src/conformance/framework/action_utils.cpp:219-224 | the joined text is as long as the parts plus one delimiter per pair of neighbours, and "" for no parts |
| ActionUtils.JoinContents | src/conformance/framework/action_utils.cpp:219-224 | the joined text equals the front-to-back reading: the first part, then each later part with one delimiter before it; it starts with the first part and ends with the last |
| ActionUtils.NoSourcesListNothing | src/conformance/framework/action_utils.cpp:217-246 | actions without bound sources are listed as the empty string |
| ActionUtils.JoinSnoc | src/conformance/framework/action_utils.cpp:221-226 | the `first` flag: a delimiter goes before every part but the first |
| ActionUtils.Components | src/conformance/framework/action_utils.cpp:237-243 | one localized component name per path of a group |
| ActionUtils.GroupStep | src/conformance/framework/action_utils.cpp:209-213 | one more source adds its name at the end when new, and appends the path to its own group only |
| ActionUtils.AddSource | src/conformance/framework/action_utils.cpp:207-213 | the `operator[]` step keeps the name order and the map equal to the first-seen grouping |
| ActionUtils.AddSources | src/conformance/framework/action_utils.cpp:201-214 | the loop over one action's bound sources keeps the name order and the map equal to the first-seen grouping of all paths seen |
| ActionUtils.GroupSources | src/conformance/framework/action_utils.cpp:193-215 | the collecting loops end with the first-seen names and each name's paths in encounter order |
| ActionUtils.RenderGroup | src/conformance/framework/action_utils.cpp:226-244 | a group is written as its name, the suffix, then its component names joined by the action delimiter |
| ActionUtils.ListActionsLocalized | src/conformance/framework/action_utils.cpp:187-247 | the output is exactly the groups, in first-seen order, joined by the path delimiter |
| ActionUtils.MessageImageFor | src/conformance/framework/action_utils.cpp:175-181 | the image is 768 by 240 pixels, with text exactly when the message is non-empty, and that text is the message |
| ActionUtils.DisplayIdempotent | src/conformance/framework/action_utils.cpp:160-162 | displaying the same message twice is displaying it once; afterwards it is the last message |
| ActionUtils.Display | src/conformance/framework/action_utils.cpp:158-185 | DisplayMessage on values: an unchanged message changes nothing; another one gets a new image, is reported unless empty, and becomes the last message (DisplayIdempotent, DisplayEffect) |
| ActionUtils.DisplayEffect | src/conformance/framework/action_utils.cpp:164-184 | a changed message gets a new image, drawn with text exactly when non-empty, and is reported exactly when non-empty |
| ActionUtils.ActionLayerManager.constructor | src/conformance/framework/action_utils.cpp:64-70 | a new manager has no last message, no image and no reports |
| ActionUtils.ActionLayerManager.DisplayMessage | src/conformance/framework/action_utils.cpp:158-185 | the new state is the display step applied to the old one |
| ActionUtils.IsExpected | src/conformance/framework/action_utils.cpp:118-121 | true exactly when "both the orientation and the position bits are set" equals the expectation |
| GltfLoader.Resize | src/conformance/framework/pbr/GltfLoader.cpp:64 | `resize` keeps the prefix and fills new positions with the default element |
| GltfLoader.ReversedWinding | src/conformance/framework/pbr/GltfLoader.cpp:78-84 | the rewritten index list has the length of the source list |
| GltfLoader.ReversedWindingTriangles | src/conformance/framework/pbr/GltfLoader.cpp:80-84 | each source triangle (a, b, c) becomes (start+a, start+c, start+b), in uint32 arithmetic |
| GltfLoader.ReversedWindingInvolution | src/conformance/framework/pbr/GltfLoader.cpp:80-84 | reversing the winding twice restores the list |
| GltfLoader.AppendedContents | src/conformance/framework/pbr/GltfLoader.cpp:60-86 | appending keeps earlier vertices and indices; new vertices copy the attributes and carry the node index; new indices are offset and rewound; the node is added to the builder's node set |
| GltfLoader.Appended | src/conformance/framework/pbr/GltfLoader.cpp:56-86 | one glTF primitive appended to its builder at the uint32-truncated offsets (AppendedContents, AppendedIndicesInBounds, AppendedWellFormed, AppendedTagged) |
| GltfLoader.AppendedIndicesInBounds | src/conformance/framework/pbr/GltfLoader.cpp:58-84 | when a primitive's indices address its own vertices, every appended index addresses the builder's new vertices |
| GltfLoader.AppendedWellFormed | src/conformance/framework/pbr/GltfLoader.cpp:58-86 | appending a well-formed primitive keeps a builder made of whole triangles whose indices address its vertices |
| GltfLoader.AppendedTagged | src/conformance/framework/pbr/GltfLoader.cpp:73-86 | every vertex stays stamped with a node that its builder lists |
| GltfLoader.BuilderFor | src/conformance/framework/pbr/GltfLoader.cpp:56 | `operator[]` read: the key's builder when present, else a default-constructed one |
| GltfLoader.Put | src/conformance/framework/pbr/GltfLoader.cpp:56 | `operator[]` write: adds the key, and every entry is the new one or an old one |
| GltfLoader.PutLookup | src/conformance/framework/pbr/GltfLoader.cpp:56 | a write is seen by the next read of its key and by no other key |
| GltfLoader.PutOrdered | src/conformance/framework/pbr/GltfLoader.cpp:56 | the map stays in strictly increasing key order |
| GltfLoader.AppendMeshKeys | src/conformance/framework/pbr/GltfLoader.cpp:50-56 | the mesh loop adds exactly the mesh's material indices to the map's keys |
| GltfLoader.AppendMesh | src/conformance/framework/pbr/GltfLoader.cpp:46-88 | a mesh's primitives appended in order, each into its material's builder (AppendMeshKeys, AppendMeshOthers, AppendMeshNodes, AppendMeshTagged) |
| GltfLoader.AppendMeshOthers | src/conformance/framework/pbr/GltfLoader.cpp:50-87 | the builder of a material the mesh does not use is left alone |
| GltfLoader.AppendMeshNodes | src/conformance/framework/pbr/GltfLoader.cpp:54-86 | primitives sharing a material accumulate into its builder, which then lists the node |
| GltfLoader.AppendMeshTagged | src/conformance/framework/pbr/GltfLoader.cpp:50-87 | the mesh loop keeps every builder tagged with existing nodes |
| GltfLoader.Preorder | src/conformance/framework/pbr/GltfLoader.cpp:91-93 | the reference visiting order of a subtree contains only valid node ids |
| GltfLoader.PreorderList | src/conformance/framework/pbr/GltfLoader.cpp:91-93 | the same for a list of sibling subtrees |
| GltfLoader.LoadNodeAppendsNodes | src/conformance/framework/pbr/GltfLoader.cpp:37-94 | a successful walk appends exactly one PBR node per visited glTF node, in preorder, made from that node's transform and name, keeping earlier nodes; the first is parented to the caller's index; every later one is parented to a node added before it by the same walk |
| GltfLoader.LoadNodeSpec | src/conformance/framework/pbr/GltfLoader.cpp:37-94 | LoadNode: `nodes.at` and `meshes.at` throw for invalid ids; otherwise the node and its mesh, then its children under it (LoadNodeAppendsNodes, LoadNodeTagged, LoadNodeSameTree) |
| GltfLoader.WithNode | src/conformance/framework/pbr/GltfLoader.cpp:40-88 | the state after a node and its mesh: the new PBR node last, parented to the caller, and its primitives appended for it |
| GltfLoader.LoadNodesSpec | src/conformance/framework/pbr/GltfLoader.cpp:91-93 | the children loaded in order, the first exception ending the walk (LoadNodesAppendsNodes) |
| GltfLoader.LoadNodesAppendsNodes | src/conformance/framework/pbr/GltfLoader.cpp:91-93 | the same for a list of siblings: preorder of each in turn, each new node parented to the given index or to a node added before it |
| GltfLoader.LoadLeafNode | src/conformance/framework/pbr/GltfLoader.cpp:44-46 | a node without mesh and children adds its PBR node and no primitive data |
| GltfLoader.LoadNodeTagged | src/conformance/framework/pbr/GltfLoader.cpp:37-94 | the walk keeps builders tagged with nodes of the model |
| GltfLoader.LoadNodesTagged | src/conformance/framework/pbr/GltfLoader.cpp:91-93 | the same for a list of siblings |
| GltfLoader.DefaultSceneIsFirst | src/conformance/framework/pbr/GltfLoader.cpp:105 | a model with defaultScene -1 loads exactly like the same model naming scene 0 |
| GltfLoader.LoadNodeSameTree | src/conformance/framework/pbr/GltfLoader.cpp:37-94 | the walk depends only on the model's nodes and meshes |
| GltfLoader.LoadNodesSameTree | src/conformance/framework/pbr/GltfLoader.cpp:109-111 | the same for a list of root nodes |
| GltfLoader.SharedInitTree | src/conformance/framework/pbr/GltfLoader.cpp:99-112 | the loaded PBR nodes form a tree rooted at node 0 whose parents precede their children, with builders tagged with its nodes |
| GltfLoader.SharedInitSpec | src/conformance/framework/pbr/GltfLoader.cpp:99-112 | SharedInit: the default scene (0 for -1) looked up with `scenes.at`, then its roots loaded under the PBR root (SharedInitTree, DefaultSceneIsFirst) |
| GltfLoader.MaterialForSlots | src/conformance/framework/pbr/GltfLoader.cpp:150-185 | each created material stands for its own index; it is a flat material exactly for index -1; a glTF material requests each of the five texture slots exactly once, in sRGB exactly for base colour and emissive, with the flat normal as fallback for the normal map only and white for the rest |
| GltfLoader.MaterialFor | src/conformance/framework/pbr/GltfLoader.cpp:146-185 | the material Build creates for a key: flat grey for -1, otherwise the glTF material's textures, sidedness, blend state and parameters (MaterialForSlots, MaterialForParameters) |
| GltfLoader.MaterialForParameters | src/conformance/framework/pbr/GltfLoader.cpp:161-185 | a glTF material keeps its name and sidedness, is alpha blended exactly in the Blend mode, and has its six factors copied into the parameters; its alpha cutoff is kept exactly in the Mask mode and is the lowest float otherwise |
| GltfLoader.MaskDiffersFromOpaque | src/conformance/framework/pbr/GltfLoader.cpp:174-185 | Mask and Opaque are both unblended, and a Mask material with a cutoff above the lowest float is created differently from the same material marked Opaque |
| GltfLoader.CreateMaterials | src/conformance/framework/pbr/GltfLoader.cpp:142-190 | one material per builder key, each the material for its index; fails exactly when some index has no glTF material, naming the first such index |
| GltfLoader.MakePrimitives | src/conformance/framework/pbr/GltfLoader.cpp:193-198 | one primitive per builder, in map order, with its key's material |
| GltfLoader.BuiltInKeyOrder | src/conformance/framework/pbr/GltfLoader.cpp:193-198 | the primitives come in increasing material order and cover exactly the map's keys |
| GltfLoader.AppendVertices | src/conformance/framework/pbr/GltfLoader.cpp:64-76 | the vertex loop yields the old vertices up to `startVertex` followed by the converted new ones |
| GltfLoader.AppendIndices | src/conformance/framework/pbr/GltfLoader.cpp:79-84 | the index loop yields the old indices up to `startIndex` followed by the rewound, offset new ones |
| GltfLoader.ModelBuilder.constructor | src/conformance/framework/pbr/GltfLoader.cpp:114-117 | the builder holds the glTF model, no PBR model yet, and an empty builder map |
| GltfLoader.ModelBuilder.AddNode | src/conformance/framework/pbr/GltfLoader.cpp:44 | the node goes at the end of the PBR model, and its position is returned |
| GltfLoader.ModelBuilder.AppendPrimitive | src/conformance/framework/pbr/GltfLoader.cpp:52-86 | the material's builder becomes the appended builder, the map keeps its order, and nothing else changes |
| GltfLoader.ModelBuilder.AppendMeshPrimitives | src/conformance/framework/pbr/GltfLoader.cpp:50-87 | the primitive loop leaves the builder map equal to the mesh appended primitive by primitive, still in key order, and changes nothing else |
| GltfLoader.ModelBuilder.LoadNode | src/conformance/framework/pbr/GltfLoader.cpp:37-94 | the node walk ends in the specified state or throws the specified exception |
| GltfLoader.ModelBuilder.LoadNodes | src/conformance/framework/pbr/GltfLoader.cpp:91-93 | the child loop ends in the specified state or throws the specified exception |
| GltfLoader.ModelBuilder.SharedInit | src/conformance/framework/pbr/GltfLoader.cpp:99-112 | a fresh PBR model, then the default scene's root nodes loaded under the root |
| GltfLoader.ModelBuilder.Build | src/conformance/framework/pbr/GltfLoader.cpp:135-206 | a second call throws and changes nothing; a missing material throws and changes nothing; otherwise the result keeps the nodes, adds one primitive per builder in key order with its material, and the builder is emptied |
| GltfLoader.FromModel | src/conformance/framework/pbr/GltfLoader.cpp:114-117 | the model-taking constructor yields the SharedInit state or its exception |
| GltfLoader.FromGlb | src/conformance/framework/pbr/GltfLoader.cpp:118-133 | a parse failure throws the runtime error; otherwise it is the model-taking constructor |
| D3DCommon.LuidEqualsHalves | src/conformance/utilities/d3d_common.cpp:60-63 | a LUID equals an id exactly when the id's upper 32 bits are the high part's 32-bit pattern and its lower 32 bits are the low part; the sign extension is shifted out |
| D3DCommon.LuidEquals | src/conformance/utilities/d3d_common.cpp:60-63 | `operator==(LUID, uint64_t)` with the casts written out: sign extension mod 2^64 and a shift that drops the high bits (LuidEqualsHalves, LuidEqualsInjective) |
| D3DCommon.LuidEqualsInjective | src/conformance/utilities/d3d_common.cpp:60-63 | at most one LUID equals a given id |
| D3DCommon.GetDxgiImageFormatName | src/conformance/utilities/d3d_common.cpp:275-285 | the table's name for a known format, "unknown" otherwise |
| D3DCommon.FormatTable | src/conformance/utilities/d3d_common.cpp:91-242 | GetDxgiSwapchainTestMap: the DXGI format codes of the table with their names and traits (ExpectedFormatsAreTypeless, TypelessFormatsExpectNothing) |
| D3DCommon.IsDxgiImageFormatKnown | src/conformance/utilities/d3d_common.cpp:287-293 | a format is known exactly when it is a key of the table (NameIsUnknownIffUnknown) |
| D3DCommon.NameIsUnknownIffUnknown | src/conformance/utilities/d3d_common.cpp:275-293 | the name is "unknown" exactly when the format is not a key of the table |
| D3DCommon.GetDxgiSwapchainCreateTestParameters | src/conformance/utilities/d3d_common.cpp:258-272 | throws exactly for an unknown format; throws with the entry's name exactly for a typeless entry; otherwise yields the table entry |
| D3DCommon.ExpectedFormatsAreTypeless | src/conformance/utilities/d3d_common.cpp:97-238 | every expected format the table names is itself a typeless entry of the table |
| D3DCommon.TypelessFormatsExpectNothing | src/conformance/utilities/d3d_common.cpp:97-238 | typeless entries and not-mutable entries name no expected format, and not-mutable entries are not typeless |
| D3DCommon.AcceptedFormatsExpectRejected | src/conformance/utilities/d3d_common.cpp:245-273 | the expected format of an accepted format is itself rejected as typeless |
| D3DCommon.GetDepthStencilFormatOrDefault | src/conformance/utilities/d3d_common.cpp:295-301 | the requested format, or kDefaultDepthFormat without create info |
| D3DCommon.DefaultDepthFormatIsDepth | src/conformance/utilities/d3d_common.cpp:295-301 | the default is a depth format of the table, accepted for swapchain creation |
| D3D12Resources.ConvertFilter | src/conformance/framework/pbr/D3D12/D3D12Resources.cpp:296-318 | a known minification filter gives its texel filter and its mipmap filter (point when not mipmapping); unknown ones give point; the magnification filter is its own meaning or point |
| D3D12Resources.LinearMipOnlyForMipmapLinear | src/conformance/framework/pbr/D3D12/D3D12Resources.cpp:305-311 | the mip component is linear exactly for the two *_MIPMAP_LINEAR filters |
| D3D12Resources.ConvertWrap | src/conformance/framework/pbr/D3D12/D3D12Resources.cpp:326-331 | the address mode is the one the glTF wrap mode names, or WRAP for any other value |
| D3D12Resources.WrapRoundTrip | src/conformance/framework/pbr/D3D12/D3D12Resources.cpp:326-331 | address mode and glTF wrap mode convert back and forth unchanged |
| D3D12Resources.CreateGltfSampler | src/conformance/framework/pbr/D3D12/D3D12Resources.cpp:320-339 | U follows wrapS, V follows wrapT, W always wraps, anisotropy 1, comparison ALWAYS, and the converted filter |
| D3D12Resources.GltfSamplerFollowsGltf | src/conformance/framework/pbr/D3D12/D3D12Resources.cpp:296-339 | the description samples as the glTF sampler asks: the three glTF wrap modes come back from U and V, other values wrap, and known filters keep their texel and mipmap meaning |
| D3D12Resources.UsableIffAllBits | src/conformance/framework/pbr/D3D12/D3D12Resources.cpp:79-85 | a format is kept exactly when the query returned S_OK and its TEXTURE2D, SHADER_SAMPLE and MIP bits are all set |
| D3D12Resources.SupportedFormatsMembers | src/conformance/framework/pbr/D3D12/D3D12Resources.cpp:73-89 | a format is listed exactly when some pair of the map names it and is usable |
| D3D12Resources.SupportedFormats | src/conformance/framework/pbr/D3D12/D3D12Resources.cpp:73-89 | the reference list: the usable formats of the map, in its order (SupportedFormatsMembers, SupportedFormatsBound, MakeSupportedFormatsList) |
| D3D12Resources.SupportedFormatsBound | src/conformance/framework/pbr/D3D12/D3D12Resources.cpp:73-89 | the list is never longer than the map |
| D3D12Resources.MakeSupportedFormatsList | src/conformance/framework/pbr/D3D12/D3D12Resources.cpp:73-89 | the loop yields exactly the usable formats, in the map's order |
| D3D12Resources.LoadTextureBindsWhatIsNamed | src/conformance/framework/pbr/D3D12/D3D12Resources.cpp:340-374 | the caches stay well formed; the load fails exactly for a wrong material or an image that needs a decode without supported formats; it binds the image's texture (or the solid colour) and the sampler's description to the given slot |
| D3D12Resources.FindOrLoadImageSpec | src/conformance/framework/pbr/D3D12/D3D12Resources.cpp:349-362 | a null image gets an uncached solid colour; a cached one is reused; otherwise it is decoded and cached, or the null entry `operator[]` inserted stays (LoadTextureImageCache) |
| D3D12Resources.FindOrCreateSamplerSpec | src/conformance/framework/pbr/D3D12/D3D12Resources.cpp:364-371 | a cached sampler description is reused; otherwise it is created and cached (LoadTextureSamplerCache) |
| D3D12Resources.LoadTextureSpec | src/conformance/framework/pbr/D3D12/D3D12Resources.cpp:340-374 | LoadTexture on the caches: a wrong material type throws first; then the image, then the sampler, then the binding (LoadTextureBindsWhatIsNamed, SecondLoadIsCached) |
| D3D12Resources.LoadTextureImageCache | src/conformance/framework/pbr/D3D12/D3D12Resources.cpp:349-362 | an image is decoded only when its key holds no texture, and afterwards it does; a null image never reaches the cache |
| D3D12Resources.LoadTextureSamplerCache | src/conformance/framework/pbr/D3D12/D3D12Resources.cpp:364-371 | a sampler description is created only for a key the cache lacks; the key is cached after a successful load |
| D3D12Resources.SecondLoadIsCached | src/conformance/framework/pbr/D3D12/D3D12Resources.cpp:349-371 | repeating a load decodes nothing, creates no sampler, and changes neither caches nor result |
| D3D12Resources.D3D12ResourcesState.constructor | src/conformance/framework/pbr/D3D12/D3D12Resources.cpp:211 | the supported formats are the filtered list, the caches start empty, and the specular mip count is the scene buffer's default of 1 |
| D3D12Resources.D3D12ResourcesState.GetSupportedFormats | src/conformance/framework/pbr/D3D12/D3D12Resources.cpp:480-486 | throws exactly when the list is empty, otherwise returns it |
| D3D12Resources.D3D12ResourcesState.FindOrLoadImage | src/conformance/framework/pbr/D3D12/D3D12Resources.cpp:349-362 | the image cache follows its specification, the decode log records each new key once, and nothing else changes |
| D3D12Resources.D3D12ResourcesState.FindOrCreateSampler | src/conformance/framework/pbr/D3D12/D3D12Resources.cpp:364-371 | the sampler cache follows its specification, the creation log records each new key once, and nothing else changes |
| D3D12Resources.D3D12ResourcesState.LoadTexture | src/conformance/framework/pbr/D3D12/D3D12Resources.cpp:340-374 | the caches, the result and the logs follow the load specification; each key is decoded or created at most once until the next drop |
| D3D12Resources.D3D12ResourcesState.DropLoaderCaches | src/conformance/framework/pbr/D3D12/D3D12Resources.cpp:376-379 | both caches are emptied, and nothing else changes |
| D3D12Resources.D3D12ResourcesState.SetEnvironmentMap | src/conformance/framework/pbr/D3D12/D3D12Resources.cpp:452-471 | a non-cube diffuse view throws, then a non-cube specular view; either throw leaves all state unchanged; otherwise it takes the specular mip count and both resources |
| VkMaterial.SetTextureChangesOneSlot | src/conformance/framework/pbr/Vulkan/VkMaterial.cpp:79-87 | the slot's texture is replaced; its sampler is replaced only by a non-null one; no other slot changes |
| VkMaterial.SetTextureSpec | src/conformance/framework/pbr/Vulkan/VkMaterial.cpp:79-87 | SetTexture on the slot table: the texture always replaces the slot's; a sampler only when non-null (SetTextureChangesOneSlot, SetTextureIdempotent, SetTextureCommutes) |
| VkMaterial.SetTextureIdempotent | src/conformance/framework/pbr/Vulkan/VkMaterial.cpp:79-87 | setting the same texture twice is setting it once |
| VkMaterial.SetTextureCommutes | src/conformance/framework/pbr/Vulkan/VkMaterial.cpp:79-87 | settings of different slots commute |
| VkMaterial.UpdateBufferEffect | src/conformance/framework/pbr/Vulkan/VkMaterial.cpp:107-114 | the parameters are uploaded exactly when they changed, the flag ends cleared, and a second call changes nothing |
| VkMaterial.UpdateBufferSpec | src/conformance/framework/pbr/Vulkan/VkMaterial.cpp:107-114 | UpdateBuffer on the buffer state: an upload and a cleared flag exactly when the parameters changed (UpdateBufferEffect, UpdateBufferUploadsCurrent) |
| VkMaterial.BufferCurrent | src/conformance/framework/pbr/Vulkan/VkMaterial.cpp:107-114 | the promise of the changed flag: unmarked parameters are the ones last uploaded |
| VkMaterial.UpdateBufferUploadsCurrent | src/conformance/framework/pbr/Vulkan/VkMaterial.cpp:107-114 | when the flag keeps its promise, after UpdateBuffer the last upload is the current parameters, and the promise still holds |
| VkMaterial.ChangedParametersCurrent | src/conformance/framework/pbr/Vulkan/VkMaterial.cpp:56-60 | new parameters marked as changed keep the promise whatever was uploaded; left unmarked, they break it exactly when they differ from the last upload |
| VkMaterial.FlatBlendState | src/conformance/framework/pbr/Vulkan/VkMaterial.cpp:52-54 | alpha blended exactly when the base colour's alpha is below one |
| VkMaterial.FlatSlotColors | src/conformance/framework/pbr/Vulkan/VkMaterial.cpp:68-74 | every flat slot is white except the normal map, which is the flat normal; only base colour and emissive are sRGB |
| VkMaterial.VulkanMaterial.constructor | src/conformance/framework/pbr/Vulkan/VkMaterial.cpp:27-34 | a new material has default parameters pending upload, is opaque, and has empty slots |
| VkMaterial.VulkanMaterial.SetParameters | src/conformance/framework/pbr/Vulkan/VkMaterial.cpp:56-60 | writing the parameters marks them changed, keeps the material valid, and touches nothing else |
| VkMaterial.VulkanMaterial.SetAlphaBlended | src/conformance/framework/pbr/Vulkan/VkMaterial.cpp:52-54 | sets the blend state only |
| VkMaterial.VulkanMaterial.SetTexture | src/conformance/framework/pbr/Vulkan/VkMaterial.cpp:79-87 | the slot arrays become the slot-table update of their old contents |
| VkMaterial.VulkanMaterial.UpdateBuffer | src/conformance/framework/pbr/Vulkan/VkMaterial.cpp:107-114 | the buffer state becomes the upload step of the old one; afterwards the last upload is the current parameters, and the material stays valid |
| VkMaterial.VulkanMaterial.GetTextureDescriptors | src/conformance/framework/pbr/Vulkan/VkMaterial.cpp:94-105 | exactly TextureCount descriptors; entry i has slot i's sampler and view, in the shader-read-only layout |
| VkMaterial.VulkanMaterial.Clone | src/conformance/framework/pbr/Vulkan/VkMaterial.cpp:36-43 | a fresh material with the same parameters (marked changed), blend state, textures and samplers |
| VkMaterial.CreateFlat | src/conformance/framework/pbr/Vulkan/VkMaterial.cpp:46-77 | the given factors; alpha blended exactly for a translucent base colour; all five slots get the slot's solid colour and share the one default sampler |

## Left out

- GltfLoader.Appended: a primitive's index count must be a multiple of 3 (the `Triangulated` part of the walk's requirement). For any other count, the loop at GltfLoader.cpp:80-84 reads `primitive.Indices[i + 1]` and `[i + 2]` past the end and writes past the resized index buffer. That is undefined, and the model does not cover such meshes.
- D3DCommon.GetDepthStencilFormatOrDefault: the `(DXGI_FORMAT)` cast of the 64-bit `createInfo->format` (d3d_common.cpp:298) is not modelled. The model returns the requested value unchanged, so a format outside the range of `DXGI_FORMAT` is not narrowed.
- ActionUtils.GetInputSourceLocalizedName: a runtime that fills all `countOutput` characters without a NUL makes `std::string(localizedStringBuf.data())` read past the buffer. The model yields `None` there and promises nothing about the name. ListActionsLocalized takes each localized name as an input, so it covers only runtimes whose names are NUL-terminated.
- GltfLoader.MaterialFor: the texture slots, sidedness, blend state and the parameter copies are modelled. How `GltfHelper::ReadMaterial` fills in defaults for missing glTF fields is not part of this model.
- Mutexes: the per-swapchain `std::recursive_mutex` of the hooks and the mutex of `ActionLayerManager`. Each hook is one atomic step. The enumerate that acquire runs is a plain call.
- Clocks: the wait hook's measured duration is a parameter. The 20-second `WaitUntilPredicateWithTimeout` loop of `WaitWithMessage` is not modelled. Neither are `WaitForSessionFocusWithMessage`, `SyncActionsUntilFocusWithMessage`, `EndFrame` and `IterateFrame`, which only drive that loop and the render loop.
- ListActionsLocalized: the `SyncActionsUntilFocusWithMessage` call before each enumeration is left out, because it only waits. A failing runtime call throws in the source; the model's listing assumes the runtime answers through total functions.
- The runtime itself: `ConformanceHooksBase`, `xrEnumerateBoundSourcesForAction`, `xrGetInputSourceLocalizedName` and `xrLocateSpace` are inputs.
- The handle registry of the layer: `GetHandleState`, `SetCustomState` and the `dynamic_cast` of the custom state.
- The graphics validator: `CreateGraphicsValidator` and its `Validate*` calls on the image array.
- Swapchain.CreateSwapchain: the custom state's copy of the create info and graphics binding is not modelled. The static flag is assumed to come from the create flags (XR_SWAPCHAIN_CREATE_STATIC_IMAGE_BIT, 0x2), because the header of `CustomSwapchainState` is not part of this model.
- The text of the layer's reports (`ToStr` in the messages, the printf formatting) is left out. Each report is a constructor of `Violation`.
- tinygltf parsing and GltfHelper (`ReadNodeLocalTransform`, `ReadPrimitive`, `ReadMaterial`, `DecodeImage`): their results are inputs.
- GltfLoader: the PBR model and builder headers are not part of this model. A fresh `Pbr::Model` is assumed to hold root node 0, and `AddNode` is assumed to return the previous node count.
- GltfLoader: `Pbr::NodeIndex_t` is an unbounded index. Its 16-bit width is not modelled.
- GltfLoader: the walk requires an acyclic node graph, witnessed by a rank (it is a strict tree in glTF 2.0). On a cyclic graph the source recurses without end, and the model does not cover that.
- GltfLoader: `IGltfBuilder` calls (`CreateFlatMaterial`, `CreateMaterial`, `LoadTexture`, `MakePrimitive`, `DropLoaderCaches`) are recorded as values, not executed.
- Device plumbing: root signatures, descriptor heaps, `CreateShaderResourceView`, pipeline states, `Bind*`, constant-buffer allocation, `CompileShader`, `SetBrdfLut`, `CreateDeviceDependentResources`, `ReleaseDeviceDependentResources` and the solid-colour texture cache.
- `GetDXGIAdapter`, a COM enumeration loop.
- D3D12Resources.ConvertFilter: yields the three filter components, not the bit encoding of the `D3D12_ENCODE_BASIC_FILTER` macro.
- D3D12Resources.CreateGltfSampler: drops the floating-point LOD bounds (0 and `D3D12_FLOAT32_MAX`).
- `D3D12Texture::DefaultSamplerDesc` is a symbolic value.
- D3D12Resources.D3D12ResourcesState.FindOrLoadImage: the only decode failure modelled is an empty supported-format list. Other failures of `DecodeImage` and `CreateTexture` are not.
- D3D12Resources.D3D12ResourcesState.constructor: the only default of the scene constant buffer that is modelled is its specular mip count of 1 (D3D12Resources.cpp:48). The light and view fields are floating point and are left out.
- Floating point: colours, factors and transforms are reals. `LoadXrPose`, `SetViewProjection`, `SetLight`, and the message quad's aspect ratio are left out. The glTF material factors are copied into the material's parameters as reals; `GltfHelper::ReadMaterial`, which reads them from the file, is not part of this model.
- The message image is drawn with `DrawRect`, `DrawRectBorder` and `PutText`. The model keeps only its size and its text.
- DXGI codes: the table uses the numeric DXGI_FORMAT codes. `swapchain_format_data.h` is not part of this model. `Typeless()` is read as marking the entry `mutableFormat`, and `NotMutable()` as excluding mutable-format creation. kDefaultDepthFormat is DXGI_FORMAT_D32_FLOAT (40), because `d3d_common.h` is not part of this model.
- D3DCommon.LuidEquals: the LUID is modelled on integers. The `uint64_t` casts are explicit: `ToUint64` is sign extension modulo 2^64, and `ShiftLeft32` drops the bits shifted out.
- VkMaterial: `PbrMaterial.h` is not part of this model. The following are assumptions:
  - the initial parameters (`DefaultParameters`);
  - the initial blend state (opaque);
  - a changed-flag that starts set;
  - `CopyFrom` copying the parameters and blend state and marking them changed;
  - the slot numbering of `ShaderSlots::PSMaterial`.
- `VulkanTexture::CreateSampler` and `CreateTypedSolidColorTexture` are inputs of CreateFlat.
- VkMaterial.VulkanMaterial.GetTextureDescriptors: requires every slot to be filled, because the source dereferences both pointers of each slot.
- Swapchain.Wait and Swapchain.Release require every queued index to be in range. The source subscripts the queue front without checking it. The corrected acquire makes this an invariant of every hook.
- Swapchain.StaticReacquireReported: the OpenXR 1.0 specification (section 10.1, swapchain image management) allows a static swapchain's image to be acquired only once. The layer reports a second acquire, and still sets the image Acquired and queues it (Swapchain.cpp:139-142). The model follows the code.

## Findings

| source | as written | input that shows it | evidently intended | confidence | as-written member | corrected member |
|---|---|---|---|---|---|---|
| src/conformance/conformance_layer/Swapchain.cpp:124-135 | an out-of-range index is reported only when no probe ran (the check sits in the `else` of the probe); in both cases `imageStates[*index]` is then subscripted and assigned | a three-image swapchain whose runtime returns index 3; or an acquire before enumerate whose probe reports 0 images | an out-of-range index, with or without the probe, is reported and leaves the state alone | not executed | Swapchain.AcquireAsWrittenUndefined | Swapchain.AcquireOutOfBounds |
