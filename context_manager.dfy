/**
 * `DLSSContextManager`: the registry that owns one feature context per view.
 * Every registered context holds a live NGX feature of its own: its handle is
 * outstanding and no two views share a context or a handle. Operations are
 * sequential; the registry mutex is not modelled.
 */
module ContextManagement {
  import opened Wrappers
  import opened PluginTypes
  import opened Ngx
  import opened Conversions
  import opened FeatureContexts

  /** What the registry holds for one view: the context's handle and parameters. */
  datatype Entry = Entry(handle: Option<Handle>, params: CreateParams)

  /** The handles held by the entries of `views`. */
  ghost function HandlesOf(views: map<uint32, Entry>): set<Handle> {
    set v | v in views && views[v].handle.Some? :: views[v].handle.value
  }

  /** No two entries hold the same handle. */
  ghost predicate DistinctHandles(views: map<uint32, Entry>) {
    forall v, w | v in views && w in views && v != w :: views[v].handle != views[w].handle
  }

  /** Removing one entry removes exactly its handle from the held handles. */
  lemma HandlesOfRemove(views: map<uint32, Entry>, v: uint32)
    requires v in views && views[v].handle.Some? && DistinctHandles(views)
    ensures HandlesOf(views - {v}) == HandlesOf(views) - {views[v].handle.value}
    ensures DistinctHandles(views - {v})
    ensures HandlesOf(views) == {views[v].handle.value} + HandlesOf(views - {v})
  {
    var h := views[v].handle.value;
    forall g | g in HandlesOf(views) - {h}
      ensures g in HandlesOf(views - {v})
    {
      var w :| w in views && views[w].handle.Some? && views[w].handle.value == g;
      assert w != v && w in views - {v} && (views - {v})[w] == views[w];
    }
  }

  /** Releasing `h` and then the rest of `held` releases all of `held`. */
  lemma ReleaseRest(outstanding: set<Handle>, held: set<Handle>, h: Handle)
    requires h in held
    ensures (outstanding - {h}) - (held - {h}) == outstanding - held
  {
  }

  /** Removing one entry keeps only values the map already had. */
  lemma ValuesShrink<V>(m: map<uint32, V>, v: uint32)
    ensures (m - {v}).Values <= m.Values
  {
    forall x | x in (m - {v}).Values
      ensures x in m.Values
    {
      var k :| k in m - {v} && (m - {v})[k] == x;
      assert m[k] == x;
    }
  }

  /** Removing an entry and then setting it is the same as overwriting it. */
  lemma ReplaceEntry(m: map<uint32, Entry>, k: uint32, e: Entry)
    ensures (m - {k})[k := e] == m[k := e]
  {
  }

  /** Removing a member makes a set smaller. */
  lemma RemovalShrinks(keys: set<uint32>, v: uint32)
    requires v in keys
    ensures |keys - {v}| < |keys|
  {
    assert keys == (keys - {v}) + {v};
  }

  /** Removing a present key drops a map's size by one. */
  lemma MapRemovalCount(views: map<uint32, Entry>, v: uint32)
    requires v in views
    ensures |views - {v}| == |views| - 1
  {
    assert (views - {v}).Keys == views.Keys - {v};
    assert views.Keys == (views.Keys - {v}) + {v};
  }

  class ContextManager {
    /** The NGX runtime and the D3D12 device the registry talks to. */
    const backend: Backend
    /** `m_initialized`; NGX's parameter block is available exactly while it is set. */
    var initialized: bool
    /** `m_contexts` */
    var contexts: map<uint32, FeatureContext>
    /** The registry's content, view by view: each context's handle and parameters. */
    ghost var views: map<uint32, Entry>

    /** `views` is the state of the registered contexts. */
    ghost predicate Mirrors()
      reads this, contexts.Values
    {
      && views.Keys == contexts.Keys
      && forall v | v in contexts :: views[v] == Entry(contexts[v].handle, contexts[v].params)
    }

    /** Every registered context holds a handle NGX has issued and not released. */
    ghost predicate Live()
      reads this, backend
    {
      && backend.Valid()
      && forall v | v in views :: views[v].handle.Some? && views[v].handle.value in backend.outstanding
    }

    /** No two views share a context object or a handle. */
    ghost predicate Unshared()
      reads this
    {
      && DistinctHandles(views)
      && forall v, w | v in contexts && w in contexts && v != w :: contexts[v] != contexts[w]
    }

    /** Every registered context owns a distinct live feature. */
    ghost predicate Owns()
      reads this, backend, contexts.Values
    {
      Mirrors() && Live() && Unshared()
    }

    /** `Owns`, and nothing is registered while uninitialized. */
    ghost predicate Valid()
      reads this, backend, contexts.Values
    {
      Owns() && (!initialized ==> contexts == map[])
    }

    constructor (backend: Backend)
      requires backend.Valid()
      ensures Valid() && this.backend == backend && !initialized && views == map[]
    {
      this.backend := backend;
      initialized := false;
      contexts := map[];
      views := map[];
    }

    /** `HasContext` */
    predicate HasContext(viewId: uint32)
      requires Mirrors()
      reads this, contexts.Values
      ensures HasContext(viewId) <==> viewId in views
    {
      viewId in contexts
    }

    /**
     * `Initialize`: a no-op once initialized; a null device is rejected
     * before NGX is called; otherwise NGX's verdict decides.
     */
    method Initialize(hasDevice: bool) returns (r: DLSSResult)
      requires Valid()
      modifies this, backend
      ensures Valid() && contexts == old(contexts) && views == old(views)
      ensures backend.outstanding == old(backend.outstanding) && backend.nextId == old(backend.nextId)
      ensures initialized <==> old(initialized) || r == Success
      ensures old(initialized) ==> r == Success && backend.calls == old(backend.calls)
      ensures !old(initialized) && !hasDevice ==> r == InvalidParameter && backend.calls == old(backend.calls)
      ensures !old(initialized) && hasDevice ==>
                && |backend.calls| == |old(backend.calls)| + 1
                && backend.calls[..|old(backend.calls)|] == old(backend.calls)
                && backend.calls[|old(backend.calls)|].InitializeCall?
                && r == TranslateNGXResult(backend.calls[|old(backend.calls)|].result)
    {
      if initialized {
        return Success;
      }
      if !hasDevice {
        return InvalidParameter;
      }
      var ngx := backend.Initialize();
      if Failed(ngx) {
        return TranslateNGXResult(ngx);
      }
      initialized := true;
      r := Success;
    }

    /**
     * `DestroyContext`: erasing a view's context runs its destructor, which
     * releases its feature. An unknown view is not an error.
     */
    method DestroyContext(viewId: uint32) returns (r: DLSSResult)
      requires Owns()
      modifies this, backend, if viewId in contexts then {contexts[viewId]} else {}
      ensures Owns() && initialized == old(initialized) && r == Success
      ensures contexts == old(contexts) - {viewId} && contexts.Keys == old(contexts.Keys) - {viewId}
      ensures views == old(views) - {viewId}
      ensures backend.nextId == old(backend.nextId)
      ensures viewId !in old(views) ==> backend.outstanding == old(backend.outstanding) && backend.calls == old(backend.calls)
      ensures viewId in old(views) ==>
                && backend.outstanding == old(backend.outstanding) - {old(views)[viewId].handle.value}
                && |backend.calls| == |old(backend.calls)| + 1
                && backend.calls[..|old(backend.calls)|] == old(backend.calls)
                && backend.calls[|old(backend.calls)|].ReleaseCall?
                && backend.calls[|old(backend.calls)|].handle == old(views)[viewId].handle.value
    {
      if viewId !in contexts {
        return Success;
      }
      var ctx := contexts[viewId];
      ctx.Destroy(backend);
      contexts := contexts - {viewId};
      views := views - {viewId};
      r := Success;
    }

    /**
     * `DestroyAllContexts`: clearing the registry runs every context's
     * destructor, each releasing its own feature.
     */
    method DestroyAllContexts()
      requires Owns()
      modifies this, backend, contexts.Values
      ensures Valid() && contexts == map[] && views == map[] && initialized == old(initialized)
      ensures backend.nextId == old(backend.nextId)
      ensures backend.outstanding == old(backend.outstanding) - HandlesOf(old(views))
      ensures |backend.calls| >= |old(backend.calls)| && backend.calls[..|old(backend.calls)|] == old(backend.calls)
      ensures ReleasesBetween(backend.calls, |old(backend.calls)|, |backend.calls|, HandlesOf(old(views)))
      ensures |backend.calls| == |old(backend.calls)| + |old(views)|
      ensures EachReleased(backend.calls, |old(backend.calls)|, HandlesOf(old(views)))
      decreases |contexts.Keys|
    {
      if contexts == map[] {
        return;
      }
      var v :| v in contexts;
      ghost var held := views;
      ghost var h := views[v].handle.value;
      HandlesOfRemove(views, v);
      ValuesShrink(contexts, v);
      RemovalShrinks(contexts.Keys, v);
      MapRemovalCount(views, v);
      var _ := DestroyContext(v);
      ghost var afterFirst := backend.calls;
      DestroyAllContexts();
      ReleaseRest(old(backend.outstanding), HandlesOf(held), h);
      ReleaseThenReleases(old(backend.calls), afterFirst, backend.calls, h, HandlesOf(held - {v}), HandlesOf(held));
      ReleaseThenEach(old(backend.calls), afterFirst, backend.calls, h, HandlesOf(held - {v}), HandlesOf(held));
    }

    /** `Shutdown`: a no-op unless initialized; destroys every context, then shuts NGX down. */
    method Shutdown()
      requires Valid()
      modifies this, backend, contexts.Values
      ensures Valid() && !initialized
      ensures !old(initialized) ==> && views == old(views) && backend.calls == old(backend.calls)
                                    && backend.outstanding == old(backend.outstanding)
                                    && backend.nextId == old(backend.nextId)
      ensures old(initialized) ==> && views == map[]
                                   && backend.outstanding == old(backend.outstanding) - HandlesOf(old(views))
                                   && |backend.calls| > |old(backend.calls)|
                                   && backend.calls[..|old(backend.calls)|] == old(backend.calls)
                                   && ReleasesBetween(backend.calls, |old(backend.calls)|, |backend.calls| - 1, HandlesOf(old(views)))
                                   && |backend.calls| == |old(backend.calls)| + |old(views)| + 1
                                   && backend.calls[|backend.calls| - 1].ShutdownCall?
                                   && EachReleased(backend.calls, |old(backend.calls)|, HandlesOf(old(views)))
    {
      if !initialized {
        return;
      }
      initialized := false;
      DestroyAllContexts();
      ghost var released := backend.calls;
      var r := backend.Shutdown();
      AppendKeepsReleases(released, ShutdownCall(r), |old(backend.calls)|, |released|, HandlesOf(old(views)));
      EachReleasedJoin(released, backend.calls, |old(backend.calls)|, HandlesOf(old(views)), {});
    }

    /** Moves a freshly created context into the registry under `viewId`. */
    method Register(viewId: uint32, ctx: FeatureContext)
      requires Owns() && viewId !in contexts && ctx !in contexts.Values
      requires ctx.handle.Some? && ctx.handle.value in backend.outstanding
      requires forall v | v in views :: views[v].handle != ctx.handle
      modifies this
      ensures Owns() && initialized == old(initialized)
      ensures views == old(views)[viewId := Entry(ctx.handle, ctx.params)]
      ensures contexts == old(contexts)[viewId := ctx]
    {
      contexts := contexts[viewId := ctx];
      views := views[viewId := Entry(ctx.handle, ctx.params)];
    }

    /**
     * `CreateContext`: needs an initialized manager and a free view; a D3D12
     * command-list failure is a PlatformError before NGX is reached;
     * otherwise a new context is created and registered only on success.
     */
    method CreateContext(viewId: uint32, p: CreateParams) returns (r: DLSSResult)
      requires Valid()
      modifies this, backend
      ensures Valid() && initialized == old(initialized)
      ensures !initialized ==> r == NotInitialized
      ensures initialized && viewId in old(views) ==> r == ContextAlreadyExists
      ensures r == Success ==> && viewId !in old(views)
                               && views == old(views)[viewId := Entry(Some(Handle(old(backend.nextId))), p)]
                               && backend.outstanding == old(backend.outstanding) + {Handle(old(backend.nextId))}
      ensures r != Success ==> views == old(views) && backend.outstanding == old(backend.outstanding)
      ensures || (backend.calls == old(backend.calls) && r != Success)
              || (&& initialized && viewId !in old(views)
                  && |backend.calls| == |old(backend.calls)| + 1
                  && backend.calls[..|old(backend.calls)|] == old(backend.calls)
                  && backend.calls[|old(backend.calls)|].CreateCall?
                  && backend.calls[|old(backend.calls)|].feature == FeatureFor(p.mode)
                  && r == TranslateNGXResult(backend.calls[|old(backend.calls)|].result))
      ensures initialized && viewId !in old(views) && backend.calls == old(backend.calls) ==> r == PlatformError
      ensures forall c | c in contexts.Values :: c in old(contexts.Values) || fresh(c)
    {
      if !initialized {
        return NotInitialized;
      }
      if viewId in contexts {
        return ContextAlreadyExists;
      }
      var listCreated := backend.CreateCommandList();
      if !listCreated {
        return PlatformError;
      }
      var ctx := new FeatureContext();
      r := ctx.Create(backend, true, p);
      if r != Success {
        return;
      }
      Register(viewId, ctx);
    }

    /**
     * `UpdateContext`: an unknown view is ContextNotFound; parameters the
     * existing feature can serve keep it, handle included; otherwise the
     * context is erased (releasing its feature) and created afresh, so a
     * failed recreation leaves the view without a context.
     */
    method UpdateContext(viewId: uint32, p: CreateParams) returns (r: DLSSResult)
      requires Valid()
      modifies this, backend, contexts.Values
      ensures Valid() && initialized == old(initialized)
      ensures viewId !in old(views) ==>
                && r == ContextNotFound && views == old(views) && backend.calls == old(backend.calls)
                && backend.outstanding == old(backend.outstanding) && backend.nextId == old(backend.nextId)
      ensures viewId in old(views) && !NeedsRecreation(old(views)[viewId].params, p) ==>
                && r == Success && views == old(views) && backend.calls == old(backend.calls)
                && backend.outstanding == old(backend.outstanding) && backend.nextId == old(backend.nextId)
      ensures viewId in old(views) && NeedsRecreation(old(views)[viewId].params, p) ==>
                var oldHandle := old(views)[viewId].handle.value;
                var newHandle := Handle(old(backend.nextId));
                var n := |old(backend.calls)|;
                && newHandle != oldHandle
                && |backend.calls| > n && backend.calls[..n] == old(backend.calls)
                && backend.calls[n] == ReleaseCall(oldHandle, backend.calls[n].result)
                // then either the command list fails before NGX, or one creation decides the result
                && (|| (|backend.calls| == n + 1 && r == PlatformError)
                    || (&& |backend.calls| == n + 2
                        && backend.calls[n + 1] == CreateCall(FeatureFor(p.mode), backend.calls[n + 1].result)
                        && r == TranslateNGXResult(backend.calls[n + 1].result)))
                && (r == Success ==> && views == old(views)[viewId := Entry(Some(newHandle), p)]
                                     && backend.outstanding == old(backend.outstanding) - {oldHandle} + {newHandle})
                && (r != Success ==> && views == old(views) - {viewId}
                                     && backend.outstanding == old(backend.outstanding) - {oldHandle})
      ensures forall c | c in contexts.Values :: c in old(contexts.Values) || fresh(c)
    {
      if viewId !in contexts {
        return ContextNotFound;
      }
      if !NeedsRecreation(contexts[viewId].params, p) {
        return Success;
      }
      ghost var oldHandle := views[viewId].handle.value;
      ghost var n := |backend.calls|;
      var _ := DestroyContext(viewId);
      ghost var afterRelease := backend.calls;
      r := CreateContext(viewId, p);
      assert backend.calls[..n + 1] == afterRelease;
      assert backend.calls[n] == afterRelease[n] && backend.calls[..n] == afterRelease[..n];
      ReplaceEntry(old(views), viewId, Entry(Some(Handle(old(backend.nextId))), p));
    }

    /**
     * `Execute`: checks initialization, then the command list, then the view,
     * and evaluates the view's feature. A registered context always holds a
     * feature, so the context's own null-handle branch is never taken.
     */
    method Execute(viewId: uint32, hasCommandList: bool, ep: ExecuteParams) returns (r: DLSSResult)
      requires Valid()
      modifies backend
      ensures Valid()
      ensures backend.nextId == old(backend.nextId) && backend.outstanding == old(backend.outstanding)
      ensures !initialized ==> r == NotInitialized && backend.calls == old(backend.calls)
      ensures initialized && !hasCommandList ==> r == InvalidParameter && backend.calls == old(backend.calls)
      ensures initialized && hasCommandList && viewId !in views ==> r == ContextNotFound && backend.calls == old(backend.calls)
      ensures initialized && hasCommandList && viewId in views ==>
                && |backend.calls| == |old(backend.calls)| + 1
                && backend.calls[..|old(backend.calls)|] == old(backend.calls)
                && backend.calls[|old(backend.calls)|] == EvaluateCall(views[viewId].handle.value, EvaluationFor(ep.mode), backend.calls[|old(backend.calls)|].result)
                && r == TranslateNGXResult(backend.calls[|old(backend.calls)|].result)
    {
      if !initialized {
        return NotInitialized;
      }
      if !hasCommandList {
        return InvalidParameter;
      }
      if viewId !in contexts {
        return ContextNotFound;
      }
      r := contexts[viewId].Execute(backend, initialized, ep);
    }
  }
}
