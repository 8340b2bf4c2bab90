/**
 * The feature-handle table of the lite plugin: a wrapping 32-bit counter that
 * hands out integer slots (counter mod 1024) and a map from slot to a
 * nullable NGX handle, driven by allocation, freeing, the render-event switch
 * and shutdown. The allocation rule is stated on table values; the table
 * itself is a class whose methods follow those functions.
 */
module FeatureHandles {
  import opened Wrappers
  import opened PluginTypes
  import opened Ngx

  /** Slots wrap around at this count. */
  const SlotCount: int := 1024
  /** `DLSS_INVALID_FEATURE_HANDLE` */
  const InvalidFeatureHandle: int32 := -1
  /** The counter is a `uint32_t`; its increment wraps at this modulus. */
  const CounterModulus: int := 0x1_0000_0000

  /** `DLSSRenderEventId` */
  const EventCreateFeature: int := 0
  const EventEvaluateFeature: int := 1
  const EventDestroyFeature: int := 2

  /**
   * The payload of a render event: the slot it targets and, for a creation,
   * the NGX feature id. The NGX parameter block is passed through unread.
   */
  datatype EventData = EventData(handle: int32, feature: int)

  /** The counter and the slot map; a null NGX handle is `None`. */
  datatype Table = Table(counter: uint32, slots: map<int32, Option<Handle>>)

  /** The table at load time and after shutdown. */
  const EmptyTable: Table := Table(0, map[])

  /** The slot the next allocation tries. */
  function NextSlot(counter: uint32): int {
    counter % SlotCount
  }

  // ---------------------------------------------------------------- allocation rule

  /**
   * `DLSS_AllocateFeatureHandle`: the new table and the returned int. The
   * counter's slot is taken if free (mapped to null, counter incremented
   * with 32-bit wrap-around); an occupied slot fails without any change.
   */
  function Allocate(t: Table): (res: (Table, int32))
    ensures res.1 == InvalidFeatureHandle || 0 <= res.1 < SlotCount
    ensures res.1 == InvalidFeatureHandle <==> NextSlot(t.counter) in t.slots
    ensures res.1 == InvalidFeatureHandle ==> res.0 == t
    ensures res.1 != InvalidFeatureHandle ==>
              && res.1 == NextSlot(t.counter)
              && res.1 !in t.slots && res.0.slots == t.slots[res.1 := None]
              && res.0.counter == (t.counter + 1) % CounterModulus
  {
    var slot := t.counter % SlotCount;
    if slot in t.slots then (t, InvalidFeatureHandle)
    else (Table((t.counter + 1) % CounterModulus, t.slots[slot := None]), slot)
  }

  /**
   * `DLSS_FreeFeatureHandle`: removes exactly the given slot and reports 0,
   * or reports -1 and changes nothing when it is absent. A live NGX handle
   * in the slot is dropped without a release.
   */
  function Free(t: Table, handle: int32): (res: (Table, int))
    ensures res.1 == 0 || res.1 == -1
    ensures res.1 == -1 <==> handle !in t.slots
    ensures res.0.counter == t.counter && res.0.slots.Keys == t.slots.Keys - {handle}
    ensures forall k | k in res.0.slots :: res.0.slots[k] == t.slots[k]
  {
    if handle in t.slots then (Table(t.counter, t.slots - {handle}), 0)
    else (t, -1)
  }

  /** Freeing the slot just allocated gives back the slots the table had. */
  lemma AllocateFreeRoundTrip(t: Table)
    requires Allocate(t).1 != InvalidFeatureHandle
    ensures Free(Allocate(t).0, Allocate(t).1) == (Table((t.counter + 1) % CounterModulus, t.slots), 0)
  {
    var (t1, h) := Allocate(t);
    assert t1.slots - {h} == t.slots;
  }

  /** Because 1024 divides 2^32, the wrap of the counter does not disturb the slot sequence. */
  lemma SlotIgnoresWrap(x: nat)
    ensures (x % CounterModulus) % SlotCount == x % SlotCount
  {
    var q := x / CounterModulus;
    assert x == SlotCount * (4194304 * q) + x % CounterModulus;
  }

  /** The slot after an allocation is the next slot modulo 1024, across the counter's wrap too. */
  lemma NextSlotAdvances(c: uint32)
    ensures NextSlot(((c + 1) % CounterModulus) as uint32) == (NextSlot(c) + 1) % SlotCount
  {
    SlotIgnoresWrap(c + 1);
  }

  /** The slot `i` allocations after a counter value `c` (ignoring the wrap). */
  function SlotAt(c: int, i: int): int {
    (c + i) % SlotCount
  }

  /** The slots of the first `n` allocations after `c`. */
  ghost function SlotsUpTo(c: int, n: nat): set<int> {
    set i | 0 <= i < n :: SlotAt(c, i)
  }

  /** The counter's own wrap composes with one more increment. */
  lemma CounterStep(x: nat)
    ensures (x % CounterModulus + 1) % CounterModulus == (x + 1) % CounterModulus
  {
    var q := x / CounterModulus;
    assert x + 1 == CounterModulus * q + (x % CounterModulus + 1);
  }

  /** The slot sequence repeats every 1024 allocations. */
  lemma SlotsRepeat(c: nat)
    ensures SlotAt(c, SlotCount) == SlotAt(c, 0)
  {
    var q := c / SlotCount;
    assert c + SlotCount == SlotCount * (q + 1) + c % SlotCount;
  }

  /** Fewer than 1024 steps apart, two counter values fall on different slots. */
  lemma SlotsApartDiffer(c: nat, i: nat, j: nat)
    requires i < j < i + SlotCount
    ensures SlotAt(c, i) != SlotAt(c, j)
  {
    var a, b := c + i, c + j;
    assert a == SlotCount * (a / SlotCount) + a % SlotCount;
    assert b == SlotCount * (b / SlotCount) + b % SlotCount;
  }

  /** The `n`-th slot after `c` is not among the `n` before it, while `n < 1024`. */
  lemma NextSlotIsFree(c: nat, n: nat)
    requires n < SlotCount
    ensures SlotAt(c, n) !in SlotsUpTo(c, n)
    ensures SlotsUpTo(c, n + 1) == SlotsUpTo(c, n) + {SlotAt(c, n)}
  {
    forall i | 0 <= i < n
      ensures SlotAt(c, i) != SlotAt(c, n)
    {
      SlotsApartDiffer(c, i, n);
    }
  }

  /** `n` allocations in a row, with the ints they returned. */
  function AllocateN(t: Table, n: nat): (res: (Table, seq<int>))
    ensures |res.1| == n
  {
    if n == 0 then (t, [])
    else
      var (t1, hs) := AllocateN(t, n - 1);
      var (t2, h) := Allocate(t1);
      (t2, hs + [h])
  }

  /**
   * `t` and `hs` are what `n` allocations from an empty table with counter
   * `c` give when all succeed: the consecutive slots after `c`, each mapped
   * to null, and the counter advanced by `n` with 32-bit wrap-around.
   */
  ghost predicate FreshRun(c: int, n: nat, t: Table, hs: seq<int>) {
    && |hs| == n
    && (forall i | 0 <= i < n :: hs[i] == SlotAt(c, i))
    && t.slots.Keys == SlotsUpTo(c, n)
    && (forall k | k in t.slots :: t.slots[k] == None)
    && t.counter == (c + n) % CounterModulus
  }

  /** One more allocation after a fresh run of fewer than 1024 takes the next slot. */
  lemma FreshStep(c: uint32, n: nat, t: Table, hs: seq<int>)
    requires n < SlotCount && FreshRun(c, n, t, hs)
    ensures FreshRun(c, n + 1, Allocate(t).0, hs + [Allocate(t).1])
  {
    SlotIgnoresWrap(c + n);
    NextSlotIsFree(c, n);
    CounterStep(c + n);
    assert NextSlot(t.counter) == SlotAt(c, n);
  }

  /**
   * From an empty table, up to 1024 allocations in a row all succeed and
   * hand out the consecutive slots after the counter, wrapping at 1024.
   */
  lemma {:induction false} FreshAllocationsSucceed(c: uint32, n: nat)
    requires n <= SlotCount
    ensures FreshRun(c, n, AllocateN(Table(c, map[]), n).0, AllocateN(Table(c, map[]), n).1)
  {
    if n > 0 {
      FreshAllocationsSucceed(c, n - 1);
      var (t1, hs) := AllocateN(Table(c, map[]), n - 1);
      FreshStep(c, n - 1, t1, hs);
    }
  }

  /** After 1024 allocations with nothing freed, the next allocation fails. */
  lemma FullTableRefuses(c: uint32, n: nat)
    requires n == SlotCount
    ensures Allocate(AllocateN(Table(c, map[]), n).0).1 == InvalidFeatureHandle
  {
    FreshAllocationsSucceed(c, n);
    var t := AllocateN(Table(c, map[]), n).0;
    SlotIgnoresWrap(c + n);
    SlotsRepeat(c);
    assert NextSlot(t.counter) == SlotAt(c, 0);
    assert SlotAt(c, 0) in SlotsUpTo(c, n);
  }

  /**
   * A refused allocation keeps being refused until its slot is freed:
   * freeing any other slot does not help, and freeing that slot does.
   */
  lemma RefusedUntilFreed(t: Table, k: int32)
    requires Allocate(t).1 == InvalidFeatureHandle
    ensures Allocate(Allocate(t).0).1 == InvalidFeatureHandle
    ensures k != NextSlot(t.counter) ==> Allocate(Free(t, k).0).1 == InvalidFeatureHandle
    ensures k == NextSlot(t.counter) ==> Allocate(Free(t, k).0).1 == k
  {
  }

  // ---------------------------------------------------------------- the table

  /** The non-null NGX handles stored under the slots in `keys`. */
  ghost function HandlesIn(slots: map<int32, Option<Handle>>, keys: set<int32>): set<Handle> {
    set k | k in keys && k in slots && slots[k].Some? :: slots[k].value
  }

  /** Releasing the handle of one more slot extends the released handles by it. */
  lemma HandlesInAdd(outstanding: set<Handle>, slots: map<int32, Option<Handle>>, keys: set<int32>, k: int32)
    requires k in slots
    ensures HandlesIn(slots, keys + {k}) == HandlesIn(slots, keys) + (if slots[k].Some? then {slots[k].value} else {})
    ensures slots[k].Some? ==>
              (outstanding - HandlesIn(slots, keys)) - {slots[k].value} == outstanding - HandlesIn(slots, keys + {k})
    ensures slots[k].None? ==> outstanding - HandlesIn(slots, keys) == outstanding - HandlesIn(slots, keys + {k})
  {
  }

  /** Moving a pending slot to the done ones keeps them apart and shrinks the pending set. */
  lemma PendingShrinks(keys: set<int32>, pending: set<int32>, k: int32)
    requires k in pending && pending <= keys
    ensures |pending - {k}| < |pending|
    ensures keys - (pending - {k}) == (keys - pending) + {k}
  {
    assert pending == (pending - {k}) + {k};
  }

  /** No NGX handle sits in two slots. */
  ghost predicate DistinctSlots(slots: map<int32, Option<Handle>>) {
    forall k, j | k in slots && j in slots && k != j && slots[k].Some? :: slots[k] != slots[j]
  }

  /** A slot not yet released holds a handle not yet released, so each release adds one to the count. */
  lemma HandlesInCount(slots: map<int32, Option<Handle>>, keys: set<int32>, k: int32)
    requires DistinctSlots(slots) && k in slots && k !in keys
    ensures |HandlesIn(slots, keys + {k})| == |HandlesIn(slots, keys)| + (if slots[k].Some? then 1 else 0)
  {
    HandlesInAdd({}, slots, keys, k);
    if slots[k].Some? {
      forall j | j in keys && j in slots && slots[j].Some?
        ensures slots[j].value != slots[k].value
      {
        assert j != k;
      }
      assert slots[k].value !in HandlesIn(slots, keys);
    }
  }

  /** Releasing one pending slot's handle leaves the other pending slots' handles outstanding. */
  lemma OthersStillHeld(outstanding: set<Handle>, slots: map<int32, Option<Handle>>, pending: set<int32>, k: int32)
    requires DistinctSlots(slots) && k in pending && pending <= slots.Keys
    requires forall j | j in pending && slots[j].Some? :: slots[j].value in outstanding
    ensures slots[k].Some? ==> slots[k].value in outstanding
    ensures forall j | j in pending - {k} && slots[j].Some? ::
              slots[j].value in outstanding && slots[j] != slots[k]
  {
  }

  /** `g_featureHandleCounter` and `g_featureHandles`. */
  class FeatureHandleTable {
    var counter: uint32
    var slots: map<int32, Option<Handle>>

    /** The table's state as a value. */
    function State(): Table
      reads this
    {
      Table(counter, slots)
    }

    /**
     * Every non-null handle in the table was issued by NGX and not yet
     * released, and no handle sits in two slots.
     */
    ghost predicate Valid(backend: Backend)
      reads this, backend
    {
      && backend.Valid()
      && (forall k | k in slots && slots[k].Some? :: slots[k].value in backend.outstanding)
      && Unshared()
    }

    /** No NGX handle sits in two slots. */
    ghost predicate Unshared()
      reads this
    {
      DistinctSlots(slots)
    }

    constructor ()
      ensures State() == EmptyTable
    {
      counter := 0;
      slots := map[];
    }

    /** `DLSS_AllocateFeatureHandle` */
    method AllocateFeatureHandle() returns (handle: int32)
      modifies this
      ensures (State(), handle) == Allocate(old(State()))
    {
      handle := counter % SlotCount;
      if handle in slots {
        return InvalidFeatureHandle;
      }
      slots := slots[handle := None];
      counter := (counter + 1) % CounterModulus;
    }

    /** `DLSS_FreeFeatureHandle` */
    method FreeFeatureHandle(handle: int32) returns (r: int)
      modifies this
      ensures (State(), r) == Free(old(State()), handle)
    {
      if handle !in slots {
        return -1;
      }
      slots := slots - {handle};
      r := 0;
    }

    /**
     * `OnDLSSRenderEvent`. Without data, a D3D12 interface or a recording
     * command list nothing happens. A creation maps the event's slot to the
     * new feature on success, whether or not the slot was allocated and
     * overwriting (without releasing) whatever it held. An evaluation reaches
     * NGX only for a slot holding a feature. A destruction releases a held
     * feature and erases the slot whatever the release reported. Any other
     * event id changes nothing.
     */
    method OnRenderEvent(backend: Backend, eventId: int, data: Option<EventData>, hasD3D12: bool, hasCommandList: bool)
      requires Valid(backend)
      modifies this, backend
      ensures Valid(backend) && counter == old(counter)
      ensures backend.nextId >= old(backend.nextId)
      ensures (|| data.None? || !hasD3D12 || !hasCommandList
               || eventId !in {EventCreateFeature, EventEvaluateFeature, EventDestroyFeature}) ==>
                slots == old(slots) && backend.calls == old(backend.calls)
                && backend.outstanding == old(backend.outstanding)
      ensures data.Some? && hasD3D12 && hasCommandList && eventId == EventCreateFeature ==>
                var n := |old(backend.calls)|;
                && |backend.calls| == n + 1 && backend.calls[..n] == old(backend.calls)
                && backend.calls[n] == CreateCall(data.value.feature, backend.calls[n].result)
                && (Failed(backend.calls[n].result) ==> slots == old(slots) && backend.outstanding == old(backend.outstanding))
                && (!Failed(backend.calls[n].result) ==>
                      && slots == old(slots)[data.value.handle := Some(Handle(old(backend.nextId)))]
                      && backend.outstanding == old(backend.outstanding) + {Handle(old(backend.nextId))})
      ensures data.Some? && hasD3D12 && hasCommandList && eventId == EventEvaluateFeature ==>
                && slots == old(slots) && backend.outstanding == old(backend.outstanding)
                && var n := |old(backend.calls)|;
                   if data.value.handle in old(slots) && old(slots)[data.value.handle].Some? then
                     && |backend.calls| == n + 1 && backend.calls[..n] == old(backend.calls)
                     && backend.calls[n] == EvaluateCall(old(slots)[data.value.handle].value, EvaluateGeneric, backend.calls[n].result)
                   else backend.calls == old(backend.calls)
      ensures data.Some? && hasD3D12 && hasCommandList && eventId == EventDestroyFeature ==>
                && slots == old(slots) - {data.value.handle}
                && var n := |old(backend.calls)|;
                   if data.value.handle in old(slots) && old(slots)[data.value.handle].Some? then
                     && backend.outstanding == old(backend.outstanding) - {old(slots)[data.value.handle].value}
                     && |backend.calls| == n + 1 && backend.calls[..n] == old(backend.calls)
                     && backend.calls[n] == ReleaseCall(old(slots)[data.value.handle].value, backend.calls[n].result)
                   else backend.calls == old(backend.calls) && backend.outstanding == old(backend.outstanding)
    {
      if data.None? || !hasD3D12 || !hasCommandList {
        return;
      }
      var handle := data.value.handle;
      if eventId == EventCreateFeature {
        var ngx, h := backend.CreateFeature(data.value.feature);
        if !Failed(ngx) {
          slots := slots[handle := h];
        }
      } else if eventId == EventEvaluateFeature {
        if handle !in slots || slots[handle].None? {
          return;
        }
        var _ := backend.EvaluateFeature(slots[handle].value, EvaluateGeneric);
      } else if eventId == EventDestroyFeature {
        if handle !in slots {
          return;
        }
        if slots[handle].Some? {
          var _ := backend.ReleaseFeature(slots[handle].value);
        }
        slots := slots - {handle};
      }
    }

    /** The shutdown loop: every non-null handle in the table is released once. */
    method ReleaseAll(backend: Backend)
      requires Valid(backend)
      modifies backend
      ensures backend.Valid() && backend.nextId == old(backend.nextId)
      ensures backend.outstanding == old(backend.outstanding) - HandlesIn(slots, slots.Keys)
      ensures |backend.calls| >= |old(backend.calls)| && backend.calls[..|old(backend.calls)|] == old(backend.calls)
      ensures ReleasesBetween(backend.calls, |old(backend.calls)|, |backend.calls|, HandlesIn(slots, slots.Keys))
      ensures |backend.calls| == |old(backend.calls)| + |HandlesIn(slots, slots.Keys)|
      ensures EachReleased(backend.calls, |old(backend.calls)|, HandlesIn(slots, slots.Keys))
    {
      var pending := slots.Keys;
      ghost var done: set<int32> := {};
      while pending != {}
        invariant backend.Valid() && backend.nextId == old(backend.nextId) && Unshared()
        invariant pending <= slots.Keys && done == slots.Keys - pending
        invariant backend.outstanding == old(backend.outstanding) - HandlesIn(slots, done)
        invariant forall k | k in pending && slots[k].Some? :: slots[k].value in backend.outstanding
        invariant ReleasedAfter(old(backend.calls), backend.calls, HandlesIn(slots, done))
        invariant |backend.calls| == |old(backend.calls)| + |HandlesIn(slots, done)|
        decreases |pending|
      {
        var k :| k in pending;
        HandlesInAdd(old(backend.outstanding), slots, done, k);
        PendingShrinks(slots.Keys, pending, k);
        HandlesInCount(slots, done, k);
        OthersStillHeld(backend.outstanding, slots, pending, k);
        if slots[k].Some? {
          ghost var before := backend.calls;
          var r := backend.ReleaseFeature(slots[k].value);
          ReleasedAfterRelease(old(backend.calls), before, HandlesIn(slots, done), slots[k].value, r);
        }
        pending := pending - {k};
        done := done + {k};
      }
      assert done == slots.Keys;
    }

    /**
     * The table part of `DLSS_Shutdown_D3D12`: without a D3D12 interface it
     * reports PlatformError and touches nothing; otherwise it releases every
     * non-null handle, empties the table, resets the counter and shuts NGX
     * down, reporting NGX's verdict.
     */
    method Shutdown(backend: Backend, hasD3D12: bool) returns (r: NgxResult)
      requires Valid(backend)
      modifies this, backend
      ensures Valid(backend)
      ensures !hasD3D12 ==> && r == NgxFail(FailPlatformError) && State() == old(State())
                            && backend.calls == old(backend.calls) && backend.outstanding == old(backend.outstanding)
      ensures hasD3D12 ==> && State() == EmptyTable
                           && backend.outstanding == old(backend.outstanding) - HandlesIn(old(slots), old(slots).Keys)
                           && |backend.calls| > |old(backend.calls)|
                           && backend.calls[..|old(backend.calls)|] == old(backend.calls)
                           && ReleasesBetween(backend.calls, |old(backend.calls)|, |backend.calls| - 1,
                                              HandlesIn(old(slots), old(slots).Keys))
                           && |backend.calls| == |old(backend.calls)| + |HandlesIn(old(slots), old(slots).Keys)| + 1
                           && backend.calls[|backend.calls| - 1] == ShutdownCall(r)
                           && EachReleased(backend.calls, |old(backend.calls)|, HandlesIn(old(slots), old(slots).Keys))
    {
      if !hasD3D12 {
        return NgxFail(FailPlatformError);
      }
      ReleaseAll(backend);
      ghost var held := HandlesIn(slots, slots.Keys);
      ghost var released := backend.calls;
      slots := map[];
      counter := 0;
      r := backend.Shutdown();
      AppendKeepsReleases(released, ShutdownCall(r), |old(backend.calls)|, |released|, held);
      EachReleasedJoin(released, backend.calls, |old(backend.calls)|, held, {});
    }
  }
}
