/**
 * One DLSS feature context: a nullable NGX handle and the parameters it was
 * created with, plus the rule that decides whether new parameters can reuse
 * the existing feature or force it to be recreated.
 */
module FeatureContexts {
  import opened Wrappers
  import opened PluginTypes
  import opened Ngx
  import opened Conversions

  // ---------------------------------------------------------------- recreation rule

  /** The input resolution grows in at least one dimension. */
  predicate InputGrows(stored: Dimensions, requested: Dimensions) {
    stored.width < requested.width || stored.height < requested.height
  }

  /**
   * The ray-reconstruction settings a feature is bound to; they matter only
   * when the requested mode is ray reconstruction.
   */
  datatype RRSettings = RRSettings(denoiseMode: int, depthType: int, roughnessMode: int) | NotRR

  /** What a feature is bound to at creation, apart from its input resolution. */
  datatype CreationKey = CreationKey(
    mode: int, outputResolution: Dimensions, quality: int, featureFlags: bv32, rr: RRSettings)

  function KeyOf(p: CreateParams): CreationKey {
    CreationKey(p.mode, p.outputResolution, p.quality, p.featureFlags,
                if p.mode == ModeRayReconstruction then RRSettings(p.denoiseMode, p.depthType, p.roughnessMode)
                else NotRR)
  }

  /**
   * `DLSSContext::NeedsRecreation`: a feature created with `stored` must be
   * recreated for `requested` iff what it is bound to changes or the input
   * resolution grows; a shrinking input is tolerated.
   */
  function NeedsRecreation(stored: CreateParams, requested: CreateParams): (r: bool)
    ensures r <==> KeyOf(stored) != KeyOf(requested) || InputGrows(stored.inputResolution, requested.inputResolution)
    ensures stored == requested ==> !r
    ensures InputGrows(stored.inputResolution, requested.inputResolution) ==> r
    ensures (|| stored.mode != requested.mode
             || stored.outputResolution != requested.outputResolution
             || stored.quality != requested.quality
             || stored.featureFlags != requested.featureFlags) ==> r
    ensures (&& requested.mode == ModeRayReconstruction
             && (|| stored.denoiseMode != requested.denoiseMode
                 || stored.depthType != requested.depthType
                 || stored.roughnessMode != requested.roughnessMode)) ==> r
  {
    if stored.mode != requested.mode then true
    else if stored.outputResolution.width != requested.outputResolution.width
         || stored.outputResolution.height != requested.outputResolution.height then true
    else if stored.inputResolution.width < requested.inputResolution.width
         || stored.inputResolution.height < requested.inputResolution.height then true
    else if stored.quality != requested.quality then true
    else if stored.featureFlags != requested.featureFlags then true
    else if requested.mode == ModeRayReconstruction then
      stored.denoiseMode != requested.denoiseMode
      || stored.depthType != requested.depthType
      || stored.roughnessMode != requested.roughnessMode
    else false
  }

  /** `requested` differs from `stored` at most in settings the rule ignores. */
  predicate SameBinding(stored: CreateParams, requested: CreateParams) {
    && stored.mode == requested.mode
    && stored.outputResolution == requested.outputResolution
    && stored.quality == requested.quality
    && stored.featureFlags == requested.featureFlags
    && (requested.mode == ModeRayReconstruction ==>
          stored.denoiseMode == requested.denoiseMode && stored.depthType == requested.depthType
          && stored.roughnessMode == requested.roughnessMode)
  }

  /**
   * With the binding unchanged, the feature is reused exactly when the input
   * fits in the one it was created for. Presets, subrect output and, in
   * super-resolution mode, the ray-reconstruction settings never force it.
   */
  lemma ReuseWhenInputFits(stored: CreateParams, requested: CreateParams)
    requires SameBinding(stored, requested)
    ensures !NeedsRecreation(stored, requested)
            <==> requested.inputResolution.width <= stored.inputResolution.width
                 && requested.inputResolution.height <= stored.inputResolution.height
  {
  }

  /**
   * The rule is not symmetric: shrinking the input keeps the feature, and
   * growing it back from the smaller size would not.
   */
  lemma RecreationIsAsymmetric(stored: CreateParams, requested: CreateParams)
    requires SameBinding(stored, requested)
    requires requested.inputResolution.width < stored.inputResolution.width
    requires requested.inputResolution.height <= stored.inputResolution.height
    ensures !NeedsRecreation(stored, requested) && NeedsRecreation(requested, stored)
  {
  }

  // ---------------------------------------------------------------- NGX feature kind

  /** Ray reconstruction creates a DLSS-D feature; every other mode a DLSS one. */
  function FeatureFor(mode: int): int {
    if mode == ModeRayReconstruction then RayReconstructionFeature else SuperSamplingFeature
  }

  /** The execution mode picks the ray-reconstruction helper or, for every other mode, the SR one. */
  function EvaluationFor(mode: int): Evaluation {
    if mode == ModeRayReconstruction then EvaluateRR else EvaluateSR
  }

  /** The handle as a set: empty when null. */
  function HandleSet(h: Option<Handle>): set<Handle> {
    if h.Some? then {h.value} else {}
  }

  /** `calls` is exactly one release of `h` when `h` is non-null, and nothing otherwise. */
  ghost predicate ReleasesOnly(calls: seq<Call>, h: Option<Handle>) {
    if h.Some? then |calls| == 1 && calls[0].ReleaseCall? && calls[0].handle == h.value
    else calls == []
  }

  // ---------------------------------------------------------------- the context

  /** `DLSSContext`: the handle is non-null exactly while a feature is live. */
  class FeatureContext {
    var handle: Option<Handle>
    var params: CreateParams

    constructor ()
      ensures handle == None && params == DefaultParams
    {
      handle := None;
      params := DefaultParams;
    }

    /** `DLSSContext::Destroy`: releases a live handle, then resets; idempotent. */
    method Destroy(backend: Backend)
      requires backend.Valid()
      requires handle.Some? ==> handle.value in backend.outstanding
      modifies this, backend
      ensures backend.Valid()
      ensures handle == None && params == DefaultParams
      ensures backend.nextId == old(backend.nextId)
      ensures backend.outstanding == old(backend.outstanding) - HandleSet(old(handle))
      ensures |backend.calls| >= |old(backend.calls)| && backend.calls[..|old(backend.calls)|] == old(backend.calls)
      ensures ReleasesOnly(backend.calls[|old(backend.calls)|..], old(handle))
    {
      if handle.Some? {
        var _ := backend.ReleaseFeature(handle.value);
        handle := None;
      }
      params := DefaultParams;
    }

    /**
     * `DLSSContext::Create`: destroys a live handle first, then asks NGX for
     * a new feature when the NGX parameter block is available. On success the
     * handle and the parameters are stored; on failure the handle is null.
     */
    method Create(backend: Backend, ngxParamsAvailable: bool, p: CreateParams) returns (r: DLSSResult)
      requires backend.Valid()
      requires handle.Some? ==> handle.value in backend.outstanding
      modifies this, backend
      ensures backend.Valid()
      ensures r == Success <==> handle.Some?
      ensures !ngxParamsAvailable ==> r == NotInitialized
      ensures r == Success ==> handle == Some(Handle(old(backend.nextId))) && params == p
                               && backend.outstanding == old(backend.outstanding) - HandleSet(old(handle)) + {handle.value}
      ensures r != Success ==> params == (if old(handle).Some? then DefaultParams else old(params))
                               && backend.outstanding == old(backend.outstanding) - HandleSet(old(handle))
      // the trace: the release of the old handle, then (with parameters) one creation
      ensures var n0 := |old(backend.calls)|;
              var n1 := n0 + |HandleSet(old(handle))|;
              && n1 <= |backend.calls|
              && backend.calls[..n0] == old(backend.calls)
              && ReleasesOnly(backend.calls[n0..n1], old(handle))
              && (!ngxParamsAvailable ==> |backend.calls| == n1)
              && (ngxParamsAvailable ==>
                    && |backend.calls| == n1 + 1
                    && backend.calls[n1].CreateCall?
                    && backend.calls[n1].feature == FeatureFor(p.mode)
                    && r == TranslateNGXResult(backend.calls[n1].result))
    {
      if handle.Some? {
        Destroy(backend);
      }
      if !ngxParamsAvailable {
        return NotInitialized;
      }
      var ngx, h := backend.CreateFeature(FeatureFor(p.mode));
      if Failed(ngx) {
        handle := None;
        return TranslateNGXResult(ngx);
      }
      handle := h;
      params := p;
      r := Success;
    }

    /**
     * `DLSSContext::Execute`: a null handle is ContextNotFound and reaches no
     * backend; otherwise one evaluation whose verdict is translated.
     */
    method Execute(backend: Backend, ngxParamsAvailable: bool, ep: ExecuteParams) returns (r: DLSSResult)
      requires backend.Valid()
      requires handle.Some? ==> handle.value in backend.outstanding
      modifies backend
      ensures backend.Valid()
      ensures backend.nextId == old(backend.nextId) && backend.outstanding == old(backend.outstanding)
      ensures handle.None? ==> r == ContextNotFound && backend.calls == old(backend.calls)
      ensures handle.Some? && !ngxParamsAvailable ==> r == NotInitialized && backend.calls == old(backend.calls)
      ensures handle.Some? && ngxParamsAvailable ==>
                && |backend.calls| == |old(backend.calls)| + 1
                && backend.calls[..|old(backend.calls)|] == old(backend.calls)
                && backend.calls[|old(backend.calls)|] == EvaluateCall(handle.value, EvaluationFor(ep.mode), backend.calls[|old(backend.calls)|].result)
                && r == TranslateNGXResult(backend.calls[|old(backend.calls)|].result)
    {
      if handle.None? {
        return ContextNotFound;
      }
      if !ngxParamsAvailable {
        return NotInitialized;
      }
      var ngx := backend.EvaluateFeature(handle.value, EvaluationFor(ep.mode));
      r := TranslateNGXResult(ngx);
    }
  }
}
