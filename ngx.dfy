/**
 * The NVIDIA NGX runtime and the D3D12 device, seen from the plugin as an
 * oracle. Every entry point may succeed or fail at the backend's discretion
 * (the verdict is chosen nondeterministically); a successful feature creation
 * hands back a handle that was never issued before. The oracle keeps the
 * bookkeeping the plugin's correctness is stated against: which handles are
 * outstanding (issued and not yet released) and the trace of NGX calls made.
 */
module Ngx {
  import opened Wrappers

  /** The NGX failure codes the plugin names, plus every other failure code. */
  datatype NgxFailure =
    | FailFeatureNotSupported
    | FailPlatformError
    | FailFeatureAlreadyExists
    | FailFeatureNotFound
    | FailInvalidParameter
    | FailScratchBufferTooSmall
    | FailNotInitialized
    | FailUnsupportedInputFormat
    | FailRWFlagMissing
    | FailMissingInput
    | FailUnableToInitializeFeature
    | FailOutOfDate
    | FailOutOfGPUMemory
    | FailUnsupportedFormat
    | FailUnableToWriteToAppDataPath
    | FailUnsupportedParameter
    | FailDenied
    | FailNotImplemented
    | FailUnlisted(code: int)

  /** An `NVSDK_NGX_Result`: the success code, or one of the failure codes. */
  datatype NgxResult = NgxSuccess | NgxFail(failure: NgxFailure)

  /**
   * Failure as the plugin tests it (`NVSDK_NGX_FAILED`, `!NVSDK_NGX_SUCCEED`).
   * The model takes it to hold for every code but the success code, the
   * one the translator compares against.
   */
  predicate Failed(r: NgxResult) {
    r.NgxFail?
  }

  /** An opaque `NVSDK_NGX_Handle*` (non-null). */
  datatype Handle = Handle(id: nat)

  /** NGX feature ids passed to the generic create entry point. */
  const SuperSamplingFeature: int := 1
  const RayReconstructionFeature: int := 13

  /**
   * The evaluation entry point used: the super-resolution or the
   * ray-reconstruction evaluation helper, or the generic one.
   */
  datatype Evaluation = EvaluateSR | EvaluateRR | EvaluateGeneric

  /** One call into NGX, with the verdict it returned. */
  datatype Call =
    | InitializeCall(result: NgxResult)
    | CreateCall(feature: int, result: NgxResult)
    | EvaluateCall(handle: Handle, entry: Evaluation, result: NgxResult)
    | ReleaseCall(handle: Handle, result: NgxResult)
    | ShutdownCall(result: NgxResult)

  /** Every call in `calls[lo..hi]` is a release of one of `handles`. */
  ghost predicate ReleasesBetween(calls: seq<Call>, lo: nat, hi: nat, handles: set<Handle>)
    requires lo <= hi <= |calls|
  {
    forall i | lo <= i < hi :: calls[i].ReleaseCall? && calls[i].handle in handles
  }

  /**
   * One release of `h` after `c0`, then releases among `rest`: the whole
   * extension of `c0` releases handles among `held`.
   */
  lemma ReleaseThenReleases(c0: seq<Call>, c1: seq<Call>, c2: seq<Call>, h: Handle, rest: set<Handle>, held: set<Handle>)
    requires |c1| == |c0| + 1 && c1[..|c0|] == c0 && c1[|c0|].ReleaseCall? && c1[|c0|].handle == h
    requires |c2| >= |c1| && c2[..|c1|] == c1 && ReleasesBetween(c2, |c1|, |c2|, rest)
    requires h in held && rest <= held
    ensures c2[..|c0|] == c0 && ReleasesBetween(c2, |c0|, |c2|, held)
  {
    assert c2[|c0|] == c1[|c0|];
    assert c2[..|c0|] == c1[..|c0|];
  }

  /** Adding at most one release of a handle among `more` keeps a stretch of releases among `more`. */
  lemma ReleasesGrow(c: seq<Call>, c2: seq<Call>, lo: nat, held: set<Handle>, more: set<Handle>)
    requires lo <= |c| && ReleasesBetween(c, lo, |c|, held) && held <= more
    requires || c2 == c
             || (|c2| == |c| + 1 && c2[..|c|] == c && c2[|c|].ReleaseCall? && c2[|c|].handle in more)
    ensures |c2| >= |c| && c2[..lo] == c[..lo] && ReleasesBetween(c2, lo, |c2|, more)
  {
    if c2 != c {
      assert forall i | 0 <= i < |c| :: c2[i] == c[i];
    }
  }

  /** Appending a call keeps a prefix and a stretch of releases before the end. */
  lemma AppendKeepsReleases(c: seq<Call>, x: Call, lo: nat, hi: nat, handles: set<Handle>)
    requires lo <= hi <= |c| && ReleasesBetween(c, lo, hi, handles)
    ensures (c + [x])[..lo] == c[..lo] && ReleasesBetween(c + [x], lo, hi, handles)
  {
    assert forall i | 0 <= i < |c| :: (c + [x])[i] == c[i];
  }

  /** Each of `handles` is released by some call in `calls[lo..]`. */
  ghost predicate EachReleased(calls: seq<Call>, lo: nat, handles: set<Handle>)
    requires lo <= |calls|
  {
    forall h | h in handles :: exists i | lo <= i < |calls| :: calls[i].ReleaseCall? && calls[i].handle == h
  }

  /** Releases found in a trace are still found in any extension of it, next to those of the extension. */
  lemma EachReleasedJoin(c: seq<Call>, c2: seq<Call>, lo: nat, held: set<Handle>, added: set<Handle>)
    requires lo <= |c| <= |c2| && c2[..|c|] == c
    requires EachReleased(c, lo, held) && EachReleased(c2, |c|, added)
    ensures EachReleased(c2, lo, held + added)
  {
    forall h | h in held + added
      ensures exists i | lo <= i < |c2| :: c2[i].ReleaseCall? && c2[i].handle == h
    {
      if h !in added {
        var i :| lo <= i < |c| && c[i].ReleaseCall? && c[i].handle == h;
        assert c2[i] == c[i];
      }
    }
  }

  /**
   * One release of `h` after `c0`, then releases of each of `rest`: each of
   * `held` is released in the whole extension of `c0`.
   */
  lemma ReleaseThenEach(c0: seq<Call>, c1: seq<Call>, c2: seq<Call>, h: Handle, rest: set<Handle>, held: set<Handle>)
    requires |c1| == |c0| + 1 && c1[|c0|].ReleaseCall? && c1[|c0|].handle == h
    requires |c2| >= |c1| && c2[..|c1|] == c1 && EachReleased(c2, |c1|, rest)
    requires held == {h} + rest
    ensures EachReleased(c2, |c0|, held)
  {
    assert c2[|c0|] == c1[|c0|];
  }

  /**
   * `c` extends `c0` by releases only, of handles among `handles`, and
   * each of `handles` is released among them.
   */
  ghost predicate ReleasedAfter(c0: seq<Call>, c: seq<Call>, handles: set<Handle>) {
    && |c| >= |c0| && c[..|c0|] == c0
    && ReleasesBetween(c, |c0|, |c|, handles)
    && EachReleased(c, |c0|, handles)
  }

  /** Releasing one more handle `h` extends `ReleasedAfter` by it. */
  lemma ReleasedAfterRelease(c0: seq<Call>, c: seq<Call>, held: set<Handle>, h: Handle, r: NgxResult)
    requires ReleasedAfter(c0, c, held)
    ensures ReleasedAfter(c0, c + [ReleaseCall(h, r)], held + {h})
  {
    var c2 := c + [ReleaseCall(h, r)];
    ReleasesGrow(c, c2, |c0|, held, held + {h});
    EachReleasedJoin(c, c2, |c0|, held, {h});
  }

  class Backend {
    /** Id of the next handle a successful creation returns. */
    var nextId: nat
    /** Handles issued by a creation and not yet passed to a release. */
    var outstanding: set<Handle>
    /** Every NGX call made so far, oldest first. */
    var calls: seq<Call>

    ghost predicate Valid()
      reads this
    {
      forall h | h in outstanding :: h.id < nextId
    }

    constructor ()
      ensures Valid() && outstanding == {} && calls == []
    {
      nextId := 0;
      outstanding := {};
      calls := [];
    }

    /** `NVSDK_NGX_D3D12_Init_with_ProjectID` plus the capability query. */
    method Initialize() returns (r: NgxResult)
      requires Valid()
      modifies this
      ensures Valid()
      ensures nextId == old(nextId) && outstanding == old(outstanding)
      ensures calls == old(calls) + [InitializeCall(r)]
    {
      r :| true;
      calls := calls + [InitializeCall(r)];
    }

    /** `NVSDK_NGX_D3D12_Shutdown1`. */
    method Shutdown() returns (r: NgxResult)
      requires Valid()
      modifies this
      ensures Valid()
      ensures nextId == old(nextId) && outstanding == old(outstanding)
      ensures calls == old(calls) + [ShutdownCall(r)]
    {
      r :| true;
      calls := calls + [ShutdownCall(r)];
    }

    /** Creates a feature; on success the handle is fresh. */
    method CreateFeature(feature: int) returns (r: NgxResult, h: Option<Handle>)
      requires Valid()
      modifies this
      ensures Valid()
      ensures calls == old(calls) + [CreateCall(feature, r)]
      ensures !Failed(r) ==> h == Some(Handle(old(nextId))) && h.value !in old(outstanding)
                             && nextId == old(nextId) + 1 && outstanding == old(outstanding) + {h.value}
      ensures Failed(r) ==> h == None && nextId == old(nextId) && outstanding == old(outstanding)
    {
      r :| true;
      calls := calls + [CreateCall(feature, r)];
      if Failed(r) {
        h := None;
      } else {
        h := Some(Handle(nextId));
        outstanding := outstanding + {h.value};
        nextId := nextId + 1;
      }
    }

    /** Evaluates a live feature; only outstanding handles may be evaluated. */
    method EvaluateFeature(h: Handle, entry: Evaluation) returns (r: NgxResult)
      requires Valid() && h in outstanding
      modifies this
      ensures Valid()
      ensures nextId == old(nextId) && outstanding == old(outstanding)
      ensures calls == old(calls) + [EvaluateCall(h, entry, r)]
    {
      r :| true;
      calls := calls + [EvaluateCall(h, entry, r)];
    }

    /** `NVSDK_NGX_D3D12_ReleaseFeature`; a handle is released at most once. */
    method ReleaseFeature(h: Handle) returns (r: NgxResult)
      requires Valid() && h in outstanding
      modifies this
      ensures Valid()
      ensures nextId == old(nextId) && outstanding == old(outstanding) - {h}
      ensures calls == old(calls) + [ReleaseCall(h, r)]
    {
      r :| true;
      calls := calls + [ReleaseCall(h, r)];
      outstanding := outstanding - {h};
    }

    /** The D3D12 command allocator and command list creation; not an NGX call. */
    method CreateCommandList() returns (ok: bool)
    {
      ok :| true;
    }
  }
}
