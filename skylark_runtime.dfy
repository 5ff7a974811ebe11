/** The module-level state of `cskylark.py`: the constructor registry `_map_to_ctor`,
    the supported-combination list read from the C library, the context globals
    `_ctxt_obj`, `_rank` and `_size`, and the context lifecycle `initialize`/`finalize`.
    Calls into the C library are not executed; they are recorded, in order, with their
    arguments and the values they hand back, so that contracts can speak about them. */
module SkylarkRuntime {
  import opened Wrappers
  import opened SkylarkValues

  /** An entry of `SUPPORTED_SKETCH_TRANSFORMS`: transform kind, input and output type. */
  datatype Triple = Triple(ttype: string, intype: string, outtype: string)

  /** A context handle as Python holds it in `_ctxt_obj`: the integer 0 before the first
      create, and afterwards the `value` of a `c_void_p`, which is an address, or `None`
      when the C library wrote back NULL. */
  type ContextHandle = Option<int>

  /** The `_ctxt_obj = 0` of line 212, which `initialize` and `finalize` test against. */
  const NoHandle: ContextHandle := Some(0)

  /** A call into `libcskylark`, with the handle it writes back through `byref` where it
      has one. */
  datatype ForeignCall =
    | CreateDefaultContext(seed: int, created: ContextHandle)
    | FreeContext(ctxt: ContextHandle)
    | ContextRank(ctxt: ContextHandle)
    | ContextSize(ctxt: ContextHandle)
    | CreateSketchTransform(ctxt: ContextHandle, ttype: string, n: int, s: int, param: Option<real>, handle: int)
    | WrapRawMatrix(rows: nat, cols: nat, handle: int)
    | FreeRawMatrixWrap(handle: int)
    | ApplySketchTransform(transform: int, aType: string, aPtr: int, saType: string, saPtr: int, dim: int)

  predicate IsContextCall(c: ForeignCall) {
    c.CreateDefaultContext? || c.FreeContext?
  }

  /** Where the C-side context stands after a run of calls: none, one live handle, or the
      protocol was broken (a free of something not live, or a create over a live one). */
  datatype Lifecycle = NoContext | Live(handle: int) | Misused

  /** What a stored handle stands for: a live context for an address, none for 0 or NULL. */
  function Holding(ctxt: ContextHandle): (st: Lifecycle)
    ensures st.Live? <==> ctxt.Some? && ctxt.value != 0
    ensures st.Live? ==> st.handle == ctxt.value
    ensures st != Misused
  {
    if ctxt.Some? && ctxt.value != 0 then Live(ctxt.value) else NoContext
  }

  /** One call's effect. A create that writes back NULL creates nothing, and a free of NULL
      releases nothing. */
  function Step(st: Lifecycle, c: ForeignCall): Lifecycle {
    if st == Misused then Misused
    else match c
      case CreateDefaultContext(_, h) => if st != NoContext then Misused else Holding(h)
      case FreeContext(None) => st
      case FreeContext(Some(h)) => if st == Live(h) then NoContext else Misused
      case _ => st
  }

  /** The lifecycle reached by replaying `calls` from no context. */
  function Replay(calls: seq<ForeignCall>): Lifecycle {
    if calls == [] then NoContext else Step(Replay(calls[..|calls| - 1]), calls[|calls| - 1])
  }

  lemma ReplaySnoc(calls: seq<ForeignCall>, c: ForeignCall)
    ensures Replay(calls + [c]) == Step(Replay(calls), c)
  {
    assert (calls + [c])[..|calls|] == calls;
  }

  lemma ReplayPrefix(calls: seq<ForeignCall>, m: nat)
    requires m < |calls|
    ensures Replay(calls[..m + 1]) == Step(Replay(calls[..m]), calls[m])
  {
    assert calls[..m + 1] == calls[..m] + [calls[m]];
    ReplaySnoc(calls[..m], calls[m]);
  }

  lemma StepNeutral(st: Lifecycle, c: ForeignCall)
    requires !IsContextCall(c)
    ensures Step(st, c) == st
  {
  }

  /** Calls other than creating and freeing a context leave the lifecycle where it was. */
  lemma {:induction false} ReplayNeutral(calls: seq<ForeignCall>, extra: seq<ForeignCall>)
    requires forall k :: 0 <= k < |extra| ==> !IsContextCall(extra[k])
    ensures Replay(calls + extra) == Replay(calls)
  {
    if extra == [] {
      assert calls + extra == calls;
    } else {
      var init := extra[..|extra| - 1];
      ReplayNeutral(calls, init);
      assert extra == init + [extra[|extra| - 1]];
      assert calls + extra == (calls + init) + [extra[|extra| - 1]];
      ReplaySnoc(calls + init, extra[|extra| - 1]);
      StepNeutral(Replay(calls + init), extra[|extra| - 1]);
    }
  }

  lemma {:induction false} PrefixNotMisused(calls: seq<ForeignCall>, m: nat)
    requires Replay(calls) != Misused
    requires m <= |calls|
    ensures Replay(calls[..m]) != Misused
    decreases |calls| - m
  {
    if m == |calls| {
      assert calls[..m] == calls;
    } else {
      PrefixNotMisused(calls, m + 1);
      ReplayPrefix(calls, m);
    }
  }

  lemma {:induction false} NoCreateNoLive(calls: seq<ForeignCall>, a: nat, b: nat, h: int)
    requires a <= b <= |calls|
    requires Replay(calls[..a]) != Live(h)
    requires forall k :: a <= k < b ==> !(calls[k].CreateDefaultContext? && calls[k].created == Some(h))
    ensures Replay(calls[..b]) != Live(h)
    decreases b - a
  {
    if a < b {
      NoCreateNoLive(calls, a, b - 1, h);
      ReplayPrefix(calls, b - 1);
    }
  }

  /** In a history that keeps the protocol, a context handle freed twice was created again
      in between: no handle is ever released twice. */
  lemma NoDoubleFree(calls: seq<ForeignCall>, i: nat, j: nat, h: int)
    requires Replay(calls) != Misused
    requires i < j < |calls|
    requires calls[i] == FreeContext(Some(h)) && calls[j] == FreeContext(Some(h))
    ensures exists k :: i < k < j && calls[k].CreateDefaultContext? && calls[k].created == Some(h)
  {
    PrefixNotMisused(calls, i + 1);
    ReplayPrefix(calls, i);
    PrefixNotMisused(calls, j + 1);
    ReplayPrefix(calls, j);
    assert Replay(calls[..i + 1]) == NoContext;
    assert Replay(calls[..j]) == Live(h);
    if forall k :: i + 1 <= k < j ==> !(calls[k].CreateDefaultContext? && calls[k].created == Some(h)) {
      NoCreateNoLive(calls, i + 1, j, h);
      assert false;
    }
  }

  /** Lines 191-192: a seed of -1 means "use the clock". */
  function EffectiveSeed(seed: int, now: int): (r: int)
    ensures seed == -1 ==> r == now
    ensures seed != -1 ==> r == seed
  {
    if seed == -1 then now else seed
  }

  /** The free that `initialize` and `finalize` issue when `_ctxt_obj != 0`. In Python
      `None != 0` holds, so a NULL handle is handed to `sl_free_context` too. */
  function FreeIfLive(ctxt: ContextHandle): (r: seq<ForeignCall>)
    ensures ctxt == NoHandle <==> r == []
    ensures ctxt != NoHandle ==> r == [FreeContext(ctxt)]
    ensures ctxt.None? ==> r == [FreeContext(None)]
  {
    if ctxt != NoHandle then [FreeContext(ctxt)] else []
  }

  const ElemOutputKeys: set<string> :=
    {"DistMatrix_VR_STAR", "DistMatrix_VC_STAR", "DistMatrix_STAR_VR", "DistMatrix_STAR_VC"}
  const KdtOutputKey: string := "DistSparseMatrix"

  /** `_map_to_ctor` as lines 171-181 leave it: the local matrix type always, the four
      Elemental distributions when that backend is installed, the KDT sparse type when
      that one is. */
  function Registry(elemInstalled: bool, kdtInstalled: bool): (m: map<string, Ctor>)
    ensures m.Keys == {LocalMatrixKey} + (if elemInstalled then ElemOutputKeys else {})
                      + (if kdtInstalled then {KdtOutputKey} else {})
    ensures m[LocalMatrixKey] == NumpyCtor
    ensures forall k :: k in m && k != LocalMatrixKey ==> m[k] == ForeignCtor(k)
  {
    map k | k in {LocalMatrixKey} + (if elemInstalled then ElemOutputKeys else {})
                 + (if kdtInstalled then {KdtOutputKey} else {})
          :: if k == LocalMatrixKey then NumpyCtor else ForeignCtor(k)
  }

  /** Lines 171-181: the registry starts empty and is filled one key at a time. */
  method RegisterConstructors(elemInstalled: bool, kdtInstalled: bool) returns (m: map<string, Ctor>)
    ensures m == Registry(elemInstalled, kdtInstalled)
  {
    m := map[];
    m := m[LocalMatrixKey := NumpyCtor];
    if elemInstalled {
      m := m["DistMatrix_VR_STAR" := ForeignCtor("DistMatrix_VR_STAR")];
      m := m["DistMatrix_VC_STAR" := ForeignCtor("DistMatrix_VC_STAR")];
      m := m["DistMatrix_STAR_VR" := ForeignCtor("DistMatrix_STAR_VR")];
      m := m["DistMatrix_STAR_VC" := ForeignCtor("DistMatrix_STAR_VC")];
    }
    if kdtInstalled {
      m := m[KdtOutputKey := ForeignCtor(KdtOutputKey)];
    }
  }

  /** The globals of `cskylark.py` after it has been imported. */
  class Library {
    /** `_ELEM_INSTALLED` and `_KDT_INSTALLED`, as the C library reports them. */
    const elemInstalled: bool
    const kdtInstalled: bool
    /** `SUPPORTED_SKETCH_TRANSFORMS`, as the C library lists it. */
    const supported: set<Triple>
    var mapToCtor: map<string, Ctor>
    var ctxtObj: ContextHandle
    var rank: int
    var size: int
    /** The calls made into the C library so far, oldest first. */
    var calls: seq<ForeignCall>

    /** The registry always offers the local matrix type, and the context global agrees
        with the replayed history of creates and frees. */
    ghost predicate Valid()
      reads this
    {
      && LocalMatrixKey in mapToCtor && mapToCtor[LocalMatrixKey] == NumpyCtor
      && Replay(calls) == Holding(ctxtObj)
    }

    /** Importing the module: lines 171-181 fill `_map_to_ctor`, line 212 clears the
        context global, line 213 calls `initialize` with the current time. */
    constructor Load(elemInstalled: bool, kdtInstalled: bool, supported: set<Triple>,
                     now: int, handle: ContextHandle, rankOut: int, sizeOut: int)
      ensures Valid()
      ensures this.elemInstalled == elemInstalled && this.kdtInstalled == kdtInstalled
      ensures this.supported == supported
      ensures mapToCtor == Registry(elemInstalled, kdtInstalled)
      ensures ctxtObj == handle && rank == rankOut && size == sizeOut
      ensures calls == [CreateDefaultContext(now, handle), ContextRank(handle), ContextSize(handle)]
    {
      this.elemInstalled := elemInstalled;
      this.kdtInstalled := kdtInstalled;
      this.supported := supported;
      new;
      mapToCtor := RegisterConstructors(elemInstalled, kdtInstalled);
      ctxtObj := NoHandle;
      rank, size := 0, 0;
      calls := [];
      Initialize(now, now, handle, rankOut, sizeOut);
    }

    /** `initialize(seed)`: frees the stored context, creates a new one from the effective seed
        and reads its rank and size. `handle`, `rankOut` and `sizeOut` are what the C
        library writes back. */
    method Initialize(seed: int, now: int, handle: ContextHandle, rankOut: int, sizeOut: int)
      requires Valid()
      modifies this`ctxtObj, this`rank, this`size, this`calls
      ensures Valid()
      ensures ctxtObj == handle && rank == rankOut && size == sizeOut
      ensures calls == old(calls) + FreeIfLive(old(ctxtObj))
                       + [CreateDefaultContext(EffectiveSeed(seed, now), handle),
                          ContextRank(handle), ContextSize(handle)]
    {
      ReplaceContext(EffectiveSeed(seed, now), handle);
      QueryRankAndSize(rankOut, sizeOut);
    }

    /** Lines 193-198: free whatever the global holds unless it is 0, then create a
        context from `seed` and store the handle written back, NULL included. */
    method ReplaceContext(seed: int, handle: ContextHandle)
      requires Valid()
      modifies this`ctxtObj, this`calls
      ensures Valid()
      ensures ctxtObj == handle
      ensures calls == old(calls) + FreeIfLive(old(ctxtObj)) + [CreateDefaultContext(seed, handle)]
    {
      if ctxtObj != NoHandle {
        ReplaySnoc(calls, FreeContext(ctxtObj));
        calls := calls + [FreeContext(ctxtObj)];
      }
      ReplaySnoc(calls, CreateDefaultContext(seed, handle));
      calls := calls + [CreateDefaultContext(seed, handle)];
      ctxtObj := handle;
    }

    /** Lines 200-208: ask the context for its rank, then its size, and store both. */
    method QueryRankAndSize(rankOut: int, sizeOut: int)
      requires Valid()
      modifies this`rank, this`size, this`calls
      ensures Valid()
      ensures rank == rankOut && size == sizeOut
      ensures calls == old(calls) + [ContextRank(ctxtObj), ContextSize(ctxtObj)]
    {
      Record(ContextRank(ctxtObj));
      rank := rankOut;
      Record(ContextSize(ctxtObj));
      size := sizeOut;
    }

    /** `finalize()`: issues a free whenever the global is not 0 (a live address, or NULL
        from a failed create), then sets it to 0, so a second call frees nothing. */
    method Finalize()
      requires Valid()
      modifies this`ctxtObj, this`calls
      ensures Valid()
      ensures ctxtObj == NoHandle
      ensures calls == old(calls) + FreeIfLive(old(ctxtObj))
    {
      if ctxtObj != NoHandle {
        ReplaySnoc(calls, FreeContext(ctxtObj));
        calls := calls + [FreeContext(ctxtObj)];
      }
      ctxtObj := NoHandle;
    }

    /** Records a call into the C library that neither creates nor frees a context. */
    method Record(c: ForeignCall)
      requires Valid()
      requires !IsContextCall(c)
      modifies this`calls
      ensures Valid()
      ensures calls == old(calls) + [c]
    {
      ReplayNeutral(calls, [c]);
      calls := calls + [c];
    }
  }

  /** Calling `finalize` twice releases the context once. */
  method FinalizeTwice(lib: Library)
    requires lib.Valid()
    modifies lib`ctxtObj, lib`calls
    ensures lib.Valid() && lib.ctxtObj == NoHandle
    ensures lib.calls == old(lib.calls) + FreeIfLive(old(lib.ctxtObj))
  {
    lib.Finalize();
    lib.Finalize();
  }
}
