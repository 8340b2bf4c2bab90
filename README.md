# DLSS plugin for Unity: context registry and feature-handle table

This project models the two state-keeping cores of a native Unity plugin that drives NVIDIA DLSS super
resolution and ray reconstruction through the NGX SDK on Direct3D 12, and proves properties of them.

- **Per-view context registry** (`src/DLSSContext.cpp`).
  - `DLSSContextManager` owns one `DLSSContext` per Unity view id and an `initialized` flag.
  - It creates, destroys, updates and executes contexts, each with its own result codes.
  - A `DLSSContext` holds one nullable NGX feature handle and the parameters it was created with.
  - `NeedsRecreation` decides whether new parameters can reuse a live feature.
  - Pure translations sit beside them: quality and preset conversions with fallback defaults, the
    feature-flag bitmask, result strings, and the NGX-result translator.
- **Integer feature-handle table and render-event dispatcher** (`src/DLSSPluginLite.cpp`).
  - A 32-bit counter and an `int`-to-NGX-handle map are driven by allocate, free, the shutdown loop
    and the three render events (create, evaluate, destroy).

NGX and D3D12 are an oracle, the class `Ngx.Backend`:
- Every call returns a verdict chosen nondeterministically.
- A successful creation hands back a handle never issued before.
- The oracle records which handles are outstanding (issued, not yet released) and the trace of calls made.
- Evaluation and release demand an outstanding handle. Every verified caller therefore never evaluates a
  released feature and never releases one twice.

The registry's invariant is `ContextManager.Valid`:
- Each registered context holds a live handle of its own.
- No two views share a context or a handle.
- Nothing is registered while uninitialized.

The ghost map `views` gives each registered view's handle and parameters. The table's invariant is
`FeatureHandleTable.Valid`: every non-null slot holds a distinct outstanding handle.

Files:
- `wrappers.dfy`: `Option`.
- `ngx.dfy`: the NGX oracle.
- `plugin_types.dfy`: result codes, enumerations, flag bits, parameter records.
- `conversions.dfy`: the pure translations.
- `feature_context.dfy`: `DLSSContext` and the recreation rule.
- `context_manager.dfy`: `DLSSContextManager`.
- `feature_handles.dfy`: the handle table and the render-event dispatcher.

### Behaviour worth knowing

- `UpdateContext` is not atomic.
  - The code erases the view's context first, releasing its feature, and then calls `CreateContext`.
  - So a failed recreation leaves the view with no context. `UpdateContext` states exactly that.
- In the render-event create case, the event's slot is overwritten whether or not it was allocated.
  - An NGX handle already in that slot stays outstanding, but the table no longer reaches it.
  - `DLSS_FreeFeatureHandle` likewise drops a live handle without releasing it.
  - The contracts of `OnRenderEvent` and `Free` state both effects as written.

## Model

| member | source | states |
|---|---|---|
| FeatureContexts.NeedsRecreation | src/DLSSContext.cpp:441-469 | true iff the mode, output size, quality or flags change, or the ray-reconstruction settings change in RR mode, or the input grows in width or height; never for identical parameters |
| FeatureContexts.ReuseWhenInputFits | src/DLSSContext.cpp:441-469 | with the binding unchanged (SR ignores the RR settings), the feature is reused exactly when the new input fits in both dimensions |
| FeatureContexts.RecreationIsAsymmetric | src/DLSSContext.cpp:449-451 | shrinking the input keeps the feature, while growing back to the old size forces recreation |
| FeatureContexts.FeatureContext.Destroy | src/DLSSContext.cpp:394-402 | releases a live handle exactly once and no other call is made; handle becomes null and params default; a null handle makes no call (idempotent) |
| FeatureContexts.FeatureContext.Create | src/DLSSContext.cpp:279-392 | releases an existing handle first; without NGX parameters: NotInitialized; otherwise one create call for the mode's feature, success iff the handle is non-null, params stored only on success, result the translated verdict |
| FeatureContexts.FeatureContext.Execute | src/DLSSContext.cpp:404-439 | null handle gives ContextNotFound and no call; a live handle without NGX parameters gives NotInitialized and no call; otherwise one evaluation of its own handle through the RR helper when the execute mode is ray reconstruction and the SR helper otherwise, result the translated verdict, no handle issued or released |
| Conversions.ToNGXPerfQuality | src/DLSSContext.cpp:145-164 | each quality maps to its own NGX value; anything out of range maps to Balanced |
| Conversions.PerfQualityRoundTrip | src/DLSSContext.cpp:145-164 | every NGX quality value is reached from its own plugin quality (the mapping is a bijection on valid input) |
| Conversions.ToNGXSRPreset | src/DLSSContext.cpp:166-187 | each SR preset maps to its own NGX preset; anything else maps to Default |
| Conversions.SRPresetRoundTrip | src/DLSSContext.cpp:166-187 | every NGX SR preset is reached from its own plugin preset |
| Conversions.ToNGXRRPreset | src/DLSSContext.cpp:189-202 | each RR preset maps to its own NGX preset; anything else maps to Default |
| Conversions.RRPresetRoundTrip | src/DLSSContext.cpp:189-202 | every NGX RR preset is reached from its own plugin preset |
| Conversions.ToNGXFeatureFlags | src/DLSSContext.cpp:204-220 | an NGX flag is set iff its plugin bit is set |
| Conversions.FlagsIgnoreUnknownBits | src/DLSSContext.cpp:204-220 | bits outside the six known plugin bits never affect the NGX flags |
| Conversions.FlagsRoundTrip | src/DLSSContext.cpp:204-220 | every set of NGX flags is requested by the plugin mask built from it, and the translation keeps exactly the known bits of any mask |
| Conversions.GetResultString | src/DLSSContext.cpp:222-249 | the generic "Unknown error" text is returned exactly for values outside the result-code range |
| Conversions.ResultStringsDistinct | src/DLSSContext.cpp:222-249 | distinct result codes have distinct messages |
| Conversions.TranslateFailure | src/DLSSContext.cpp:1113-1229 | no NGX failure code becomes Success; an unlisted code becomes NGXError |
| Conversions.TranslateNGXResult | src/DLSSContext.cpp:1101-1238 | Success iff NGX reported success; OutOfDate gives DriverOutOfDate, OutOfGPUMemory gives OutOfMemory, unlisted codes give NGXError |
| Conversions.TranslationLog | src/DLSSContext.cpp:1101-1238 | nothing is logged iff the translation is Success; otherwise one error line carrying the raw code, then one suggestion line |
| Conversions.TranslateCanonical | src/DLSSContext.cpp:1101-1238 | every plugin result code is the translation of some NGX result |
| ContextManagement.ContextManager.HasContext | src/DLSSContext.cpp:1018-1022 | true iff the view is registered |
| ContextManagement.ContextManager.Initialize | src/DLSSContext.cpp:633-675 | already initialized: Success without any call; null device: InvalidParameter without any call; otherwise one NGX initialization whose translated verdict is returned; initialized afterwards iff it was before or the result is Success; registry and outstanding handles untouched |
| ContextManagement.ContextManager.DestroyContext | src/DLSSContext.cpp:995-1010 | always Success; the view is absent afterwards and every other entry is unchanged; a registered view's handle is released with exactly one call |
| ContextManagement.ContextManager.DestroyAllContexts | src/DLSSContext.cpp:1012-1016 | the registry ends empty and every handle it held is released, no other handle is; the earlier trace is kept and the new calls are releases of the registry's handles, one per context, and each of those handles is among them |
| ContextManagement.ContextManager.Shutdown | src/DLSSContext.cpp:745-778 | a no-op when uninitialized; otherwise uninitialized afterwards, every context destroyed and its handle released; the earlier trace is kept, the new calls are releases of the registry's handles, one per context, each of those handles among them, and the last call is the NGX shutdown; outstanding handles and ids untouched when uninitialized |
| ContextManagement.ContextManager.CreateContext | src/DLSSContext.cpp:917-993 | NotInitialized, then ContextAlreadyExists, then PlatformError with no NGX call; otherwise one create call for the mode's feature and its translated verdict; on success exactly this view is added with the fresh handle and params; on failure the registry and the outstanding handles are unchanged; every context object in the registry was already there or is newly allocated |
| ContextManagement.ContextManager.UpdateContext | src/DLSSContext.cpp:1024-1052 | unknown view: ContextNotFound with nothing changed; no recreation needed: Success, same handle, no call, outstanding handles untouched; otherwise the old handle is released first, then either the command list fails (PlatformError, no NGX call) or exactly one create call for the mode's feature follows and its translated verdict is the result; success registers a different fresh handle with the new params, while failure leaves the view with no context; every context object in the registry was already there or is newly allocated |
| ContextManagement.ContextManager.Execute | src/DLSSContext.cpp:1054-1093 | NotInitialized, then InvalidParameter for a missing command list, then ContextNotFound, each with no call; otherwise one evaluation of the view's own handle, through the helper the execute mode selects, and its translated verdict |
| FeatureHandles.Allocate | src/DLSSPluginLite.cpp:460-474 | fails (-1, table unchanged) iff the slot `counter % 1024` is taken; otherwise returns that slot in 0..1023, maps it to null and increments the counter with 32-bit wrap-around |
| FeatureHandles.Free | src/DLSSPluginLite.cpp:476-487 | -1 with the table unchanged iff the key is absent; otherwise 0 and exactly that key is removed, the other slots and the counter unchanged |
| FeatureHandles.AllocateFreeRoundTrip | src/DLSSPluginLite.cpp:460-487 | freeing the slot just allocated restores the slots and leaves only the counter advanced |
| FeatureHandles.SlotIgnoresWrap | src/DLSSPluginLite.cpp:462-472 | the counter's 32-bit wrap does not disturb the slot it selects, since 1024 divides 2^32 |
| FeatureHandles.NextSlotAdvances | src/DLSSPluginLite.cpp:462-472 | after an allocation the next slot tried is the following one modulo 1024, across the wrap too |
| FeatureHandles.FreshAllocationsSucceed | src/DLSSPluginLite.cpp:460-474 | from an empty table, up to 1024 successive allocations all succeed, returning consecutive slots modulo 1024, all mapped to null |
| FeatureHandles.FullTableRefuses | src/DLSSPluginLite.cpp:463-469 | after 1024 allocations with nothing freed, the next allocation returns -1 |
| FeatureHandles.RefusedUntilFreed | src/DLSSPluginLite.cpp:463-487 | a refused allocation keeps being refused, and freeing another slot does not help; freeing the blocking slot makes it succeed with that slot |
| FeatureHandles.FeatureHandleTable.AllocateFeatureHandle | src/DLSSPluginLite.cpp:460-474 | the new table state and the returned int are those of `Allocate` |
| FeatureHandles.FeatureHandleTable.FreeFeatureHandle | src/DLSSPluginLite.cpp:476-487 | the new table state and the returned int are those of `Free` |
| FeatureHandles.FeatureHandleTable.OnRenderEvent | src/DLSSPluginLite.cpp:493-606 | null data, no D3D12 interface, no command list or an unknown id: nothing changes and no call. Create: one create call, and the slot maps to the fresh handle only on success. Evaluate: a call only for a non-null slot, table unchanged. Destroy: absent key is a no-op; otherwise a non-null handle is released once and the key is erased whatever the verdict |
| FeatureHandles.FeatureHandleTable.ReleaseAll | src/DLSSPluginLite.cpp:236-244 | releases exactly the non-null handles in the table; the earlier trace is kept and the new calls are releases of them, one per handle, and each of them is among those calls |
| FeatureHandles.FeatureHandleTable.Shutdown | src/DLSSPluginLite.cpp:227-252 | without D3D12: PlatformError, nothing changed, no call; otherwise every non-null handle released, table emptied, counter reset to 0; the earlier trace is kept, the new calls are releases of the table's handles, one per handle, each of them among those calls, and the NGX shutdown is the last call, its verdict returned |

## Left out

- Logging is not modelled: `DLSSLogger`, `LogDlssResult`, `NGXLogCallback`, `GetFeatureString` and the log text of every operation. These only format messages for Unity's log sink. The translator's own diagnostic is modelled as data (`TranslationLog`).
- Mutexes and atomics (`m_contextMutex`, the atomic `m_initialized`) are not modelled; every operation is sequential. The same goes for the unlock and relock around the erase in `UpdateContext`.
- `SetupAndExecuteSR` and `SetupAndExecuteRR` are one evaluation call on the context's handle. Their texture-pointer marshalling and the floating-point defaults of the execute parameters are not modelled.
- `ExecuteParams` keeps only `mode`, which selects the SR or RR evaluation helper. The other fields are forwarded to NGX unread.
- `GetCapabilities`, `GetOptimalSettings` and `GetStats` are not modelled. They are thin reads of NGX query results.
- `InitializeNGX` is one oracle call, and so is the capability-parameter query with its shutdown on failure. The application-identifier setup is not modelled, nor are the SR/RR availability flags it reads.
- `m_lastNGXError` and `m_device` are not modelled.
- `NVSDK_NGX_D3D12_DestroyParameters` in `Shutdown` is not modelled.
- The creation of the D3D12 command allocator and command list is one boolean oracle, `CreateCommandList`. What is recorded on the list, and that it is never submitted, are not modelled.
- `SetExecuteParams` is not modelled. It only copies the execute parameters into the manager under its mutex and makes no NGX call.
- `DLSS_Init_with_ProjectID_D3D12` is not modelled. It returns NGX's own `FAIL_InvalidParameter` for a null argument and NGX's `FAIL_PlatformError` when the D3D12 interface or its device is missing, then forwards to NGX's initialization.
- The parameter getters and setters of the lite plugin are not modelled. They are one-line forwards to NGX.
- The parameter marshalling in `DLSSContext::Create` is not modelled. This covers the quality and flag conversions (src/DLSSContext.cpp:312-313 and 355-356), the RR denoise, roughness and depth fields (315-323) and the six preset settings per mode (326-337 and 360-371). `CreateCall` records only the feature id. So the conversions are proved on their own, but nothing ties them to what `Create` hands to NGX.
- The NGX parameter block passed through render events is not modelled, since the table never reads it.
- NGX result codes and feature ids are abstract values. Their numeric values are defined inside the SDK.
- `src/DLSSPlugin.cpp` and `src/DLSSContext.h` are not part of this model: they are commented out in the repository.
- ContextManagement.ContextManager.DestroyAllContexts: states which handles are released, that the new calls are only releases of them and that there is one per context, but not their order in the trace. The order of an unordered map's iteration is unspecified in the source.
- FeatureHandles.FeatureHandleTable.ReleaseAll: states which handles are released, that the new calls are only releases of them and that there is one per non-null handle, but not their order, for the same reason.
