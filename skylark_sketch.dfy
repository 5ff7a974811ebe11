/** `_SketchTransform` of `cskylark.py` and its kinds: construction (`_baseinit` and the
    per-kind constructors), and `apply` with its operator forms `*` and `/`. `ApplySpec`
    states what one `apply` call yields and which calls it makes into the C library;
    the method `SketchTransform.Apply` performs it step by step. */
module SkylarkSketch {
  import opened Wrappers
  import opened SkylarkValues
  import opened SkylarkRuntime

  /** The transform classes whose constructors are modelled. */
  datatype Kind = JLT | CT | FJLT | CWT | WZT | GaussianRFT | LaplacianRFT

  /** The kind strings the modelled classes pass to the C library. */
  const KindNames: set<string> := {"JLT", "CT", "FJLT", "CWT", "WZT", "GaussianRFT", "LaplacianRFT"}

  /** The kinds whose constructors pass one extra number to the C library. */
  const ParameterKinds: set<string> := {"CT", "WZT", "GaussianRFT", "LaplacianRFT"}

  /** The kind string each class passes to `sl_create_sketch_transform`, the class's own
      name; exactly CT, WZT and the two RFTs pass an extra parameter. */
  function KindName(k: Kind): (r: string)
    ensures r in KindNames
    ensures TakesParameter(k) <==> r in ParameterKinds
  {
    match k
    case JLT => "JLT"
    case CT => "CT"
    case FJLT => "FJLT"
    case CWT => "CWT"
    case WZT => "WZT"
    case GaussianRFT => "GaussianRFT"
    case LaplacianRFT => "LaplacianRFT"
  }

  /** CT takes a scale C, WZT an exponent p, the two RFTs a bandwidth sigma; the others
      take nothing beyond n, s and the output type. */
  predicate TakesParameter(k: Kind) {
    k == CT || k == WZT || k == GaussianRFT || k == LaplacianRFT
  }

  /** Different classes hand different kind strings to the C library. */
  lemma KindNameInjective(k1: Kind, k2: Kind)
    ensures KindName(k1) == KindName(k2) ==> k1 == k2
  {
  }

  const FortranOnly: string := "Only FORTRAN style (column-major) NumPy arrays are supported"

  /** The fields `apply` reads from the transform object. */
  datatype TransformFields = TransformFields(ttype: string, n: int, s: int, defouttype: string, obj: int)

  /** The module state `apply` reads: the constructor registry, the supported combinations,
      and whether the Elemental and KDT backends are installed and imported. */
  datatype Dispatch = Dispatch(mapToCtor: map<string, Ctor>, supported: set<Triple>,
                               elemActive: bool, kdtActive: bool)

  /** What a sequence of Python statements returns or raises, with the C calls it made. */
  datatype Run<T> = Run(result: Result<T>, calls: seq<ForeignCall>)

  /** `_NumpyAdapter.ptr`: a non-Fortran array is refused before anything is wrapped;
      otherwise the array is wrapped with its rows and columns and the handle is returned. */
  function PtrSpec(a: NdArray, wrap: int): (r: Run<int>)
    ensures !a.fContiguous ==> r == Run(Err(UnsupportedError(FortranOnly)), [])
    ensures r.result.Ok? <==> a.fContiguous && |a.shape| >= 1
    ensures r.result.Ok? ==> r.result.value == wrap && |r.calls| == 1 &&
                             r.calls[0] == WrapRawMatrix(a.shape[0], if |a.shape| > 1 then a.shape[1] else 1, wrap)
    ensures r.result.Err? ==> r.calls == []
  {
    if !a.fContiguous then Run(Err(UnsupportedError(FortranOnly)), [])
    else match WrapShape(a)
      case Err(e) => Run(Err(e), [])
      case Ok((rows, cols)) => Run(Ok(wrap), [WrapRawMatrix(rows, cols, wrap)])
  }

  /** Lines 292-297 of `apply`, stated on the two arrays: the sketched dimension of A is n, that
      of SA is s, and the other dimensions agree. */
  predicate DimsAgree(a: NdArray, sa: NdArray, dim: DimArg, n: int, s: int) {
    && dim.Int?
    && ShapeAt(a, dim) == Ok(n)
    && ShapeAt(sa, dim) == Ok(s)
    && ShapeAt(a, Int(1 - dim.i)).Ok?
    && ShapeAt(a, Int(1 - dim.i)) == ShapeAt(sa, Int(1 - dim.i))
  }

  /** What lines 273-297 have established when they pass: the normalised axis, the two
      arrays and the object `apply` will return. */
  datatype Staged = Staged(dim: int, a: NdArray, sa: NdArray, out: PyObj)

  /** Lines 281-287 before the second `_adapt`: the caller's SA, or, when it is `None`,
      whatever the registered constructor of the default output type builds. */
  function ResolveOutput(t: TransformFields, d: Dispatch, a: Option<Adapter>, SA: PyObj, dm: DimArg): (r: Result<PyObj>)
    ensures !SA.NoneObj? ==> r == Ok(SA)
    ensures SA.NoneObj? && t.defouttype in d.mapToCtor ==> r == Allocate(d.mapToCtor[t.defouttype], t.s, a, dm)
  {
    if !SA.NoneObj? then Ok(SA)
    else if t.defouttype !in d.mapToCtor then Err(KeyError)
    else Allocate(d.mapToCtor[t.defouttype], t.s, a, dm)
  }

  /** Lines 289-290: both adapters report their type and the triple must be listed. The
      raise names the undefined `reqcomb`, so Python reports a NameError. */
  function CheckCombination(t: TransformFields, d: Dispatch, a: Option<Adapter>, sa: Option<Adapter>): (r: Outcome)
    ensures r.Pass? <==> && a.Some? && a.value.NumpyAdapter? && sa.Some? && sa.value.NumpyAdapter?
                         && Triple(t.ttype, NumpyTypeTag, NumpyTypeTag) in d.supported
    ensures a.Some? && a.value.NumpyAdapter? && sa.Some? && sa.value.NumpyAdapter? && r.Fail? ==>
              r.error == NameError("reqcomb")
  {
    match (CType(a), CType(sa))
    case (Err(e), _) => Fail(e)
    case (_, Err(e)) => Fail(e)
    case (Ok(aType), Ok(saType)) => Need(Triple(t.ttype, aType, saType) in d.supported, NameError("reqcomb"))
  }

  /** Lines 292-297: the input check, then the output check, then the cross check; the
      first that fails raises. */
  function CheckDims(t: TransformFields, a: NdArray, sa: NdArray, dm: DimArg): (r: Outcome)
    ensures r.Pass? <==> DimsAgree(a, sa, dm, t.n, t.s)
    ensures ShapeAt(a, dm).Ok? && ShapeAt(a, dm).value != t.n ==> r == Fail(DimensionMistmatchError(Input))
    ensures ShapeAt(a, dm) == Ok(t.n) && ShapeAt(sa, dm).Ok? && ShapeAt(sa, dm).value != t.s ==>
              r == Fail(DimensionMistmatchError(Output))
  {
    match ShapeAt(a, dm)
    case Err(e) => Fail(e)
    case Ok(aDim) =>
      if aDim != t.n then Fail(DimensionMistmatchError(Input))
      else match ShapeAt(sa, dm)
        case Err(e) => Fail(e)
        case Ok(saDim) =>
          if saDim != t.s then Fail(DimensionMistmatchError(Output))
          else match (ShapeAt(a, Int(1 - dm.i)), ShapeAt(sa, Int(1 - dm.i)))
            case (Err(e), _) => Fail(e)
            case (_, Err(e)) => Fail(e)
            case (Ok(aOther), Ok(saOther)) => Need(aOther == saOther, DimensionMistmatchError(Cross))
  }

  /** Both operands once adapted, with the object `apply` will return as SA. */
  datatype Operands = Operands(a: Option<Adapter>, sa: Option<Adapter>, out: PyObj)

  /** Lines 278-287: adapt A, resolve SA, adapt SA. */
  function Adapted(t: TransformFields, d: Dispatch, A: PyObj, SA: PyObj, dm: DimArg): (r: Result<Operands>)
    ensures r.Ok? && A.Array? ==> r.value.a == Some(NumpyAdapter(A.arr))
    ensures r.Ok? && !SA.NoneObj? ==> r.value.out == SA
    ensures r.Ok? && r.value.out.Array? ==> r.value.sa == Some(NumpyAdapter(r.value.out.arr))
  {
    var a :- Adapt(A, d.elemActive, d.kdtActive);
    var out :- ResolveOutput(t, d, a, SA, dm);
    var sa :- Adapt(out, d.elemActive, d.kdtActive);
    Ok(Operands(a, sa, out))
  }

  /** Lines 273-297 of `apply`, which make no C call: normalise the axis, adapt both
      operands, check the combination, then the three dimensions. */
  function Prepare(t: TransformFields, d: Dispatch, A: PyObj, SA: PyObj, dim: DimArg): (r: Result<Staged>)
    ensures r.Ok? ==> A.Array? && r.value.a == A.arr && r.value.out.Array? && r.value.sa == r.value.out.arr
    ensures r.Ok? ==> !SA.NoneObj? ==> r.value.out == SA
    ensures r.Ok? ==> NormaliseDim(dim) == Int(r.value.dim)
    ensures r.Ok? ==> Triple(t.ttype, NumpyTypeTag, NumpyTypeTag) in d.supported
    ensures r.Ok? ==> DimsAgree(r.value.a, r.value.sa, Int(r.value.dim), t.n, t.s)
  {
    var dm := NormaliseDim(dim);
    var ops :- Adapted(t, d, A, SA, dm);
    var combination := CheckCombination(t, d, ops.a, ops.sa);
    if combination.Fail? then Err(combination.error)
    else
      var dims := CheckDims(t, ops.a.value.a, ops.sa.value.a, dm);
      if dims.Fail? then Err(dims.error)
      else Ok(Staged(dm.i, ops.a.value.a, ops.sa.value.a, ops.out))
  }

  /** Lines 299-310: wrap both arrays, refuse a sentinel handle, run the kernel on axis
      `dim + 1`, free both wraps, return SA. */
  function Launch(obj: int, st: Staged, aWrap: int, saWrap: int): Run<PyObj> {
    var pa := PtrSpec(st.a, aWrap);
    if pa.result.Err? then Run(Err(pa.result.error), pa.calls)
    else
      var ps := PtrSpec(st.sa, saWrap);
      var wraps := pa.calls + ps.calls;
      if ps.result.Err? then Run(Err(ps.result.error), wraps)
      else if aWrap == -1 || saWrap == -1 then Run(Err(InvalidObjectError), wraps)
      else Run(Ok(st.out), wraps + [ApplySketchTransform(obj, NumpyTypeTag, aWrap, NumpyTypeTag, saWrap, st.dim + 1),
                                    FreeRawMatrixWrap(aWrap), FreeRawMatrixWrap(saWrap)])
  }

  /** One call `t.apply(A, SA, dim)`; `aWrap` and `saWrap` are the handles
      `sl_wrap_raw_matrix` writes back for A and SA. */
  function ApplySpec(t: TransformFields, d: Dispatch, A: PyObj, SA: PyObj, dim: DimArg,
                     aWrap: int, saWrap: int): (r: Run<PyObj>)
    ensures r.result.Err? ==> |r.calls| <= 2 && forall k :: 0 <= k < |r.calls| ==> r.calls[k].WrapRawMatrix?
  {
    match Prepare(t, d, A, SA, dim)
    case Err(e) => Run(Err(e), [])
    case Ok(st) => Launch(t.obj, st, aWrap, saWrap)
  }

  /** A successful `apply` passed every check, wrapped A then SA, ran the kernel on axis
      `dim + 1` with both handles, freed both wraps, and returned SA (the caller's object
      when one was given). */
  lemma ApplySuccess(t: TransformFields, d: Dispatch, A: PyObj, SA: PyObj, dim: DimArg, aWrap: int, saWrap: int)
    requires ApplySpec(t, d, A, SA, dim, aWrap, saWrap).result.Ok?
    ensures var r := ApplySpec(t, d, A, SA, dim, aWrap, saWrap);
            && A.Array? && r.result.value.Array?
            && (!SA.NoneObj? ==> r.result.value == SA)
            && Triple(t.ttype, NumpyTypeTag, NumpyTypeTag) in d.supported
            && NormaliseDim(dim).Int?
            && DimsAgree(A.arr, r.result.value.arr, NormaliseDim(dim), t.n, t.s)
            && A.arr.fContiguous && r.result.value.arr.fContiguous
            && aWrap != -1 && saWrap != -1
            && |r.calls| == 5
            && r.calls[0].WrapRawMatrix? && r.calls[0].handle == aWrap
            && r.calls[1].WrapRawMatrix? && r.calls[1].handle == saWrap
            && r.calls[2] == ApplySketchTransform(t.obj, NumpyTypeTag, aWrap, NumpyTypeTag, saWrap,
                                                  NormaliseDim(dim).i + 1)
            && r.calls[3] == FreeRawMatrixWrap(aWrap)
            && r.calls[4] == FreeRawMatrixWrap(saWrap)
  {
  }

  /** Given arrays for A and SA, an unsupported (kind, input, output) combination fails
      before any dimension is looked at and before anything is wrapped. */
  lemma UnsupportedCombinationFirst(t: TransformFields, d: Dispatch, A: NdArray, SA: NdArray, dim: DimArg,
                                    aWrap: int, saWrap: int)
    requires Triple(t.ttype, NumpyTypeTag, NumpyTypeTag) !in d.supported
    ensures ApplySpec(t, d, Array(A), Array(SA), dim, aWrap, saWrap) == Run(Err(NameError("reqcomb")), [])
  {
  }

  /** Given arrays for A and SA and a supported combination, a wrong sketched dimension of
      A fails with the input mismatch, and nothing is wrapped or written. */
  lemma InputMismatch(t: TransformFields, d: Dispatch, A: NdArray, SA: NdArray, dim: DimArg,
                      aWrap: int, saWrap: int)
    requires Triple(t.ttype, NumpyTypeTag, NumpyTypeTag) in d.supported
    requires ShapeAt(A, NormaliseDim(dim)).Ok? && ShapeAt(A, NormaliseDim(dim)).value != t.n
    ensures ApplySpec(t, d, Array(A), Array(SA), dim, aWrap, saWrap) == Run(Err(DimensionMistmatchError(Input)), [])
  {
  }

  /** The output check comes second and the cross check third. */
  lemma OutputThenCrossMismatch(t: TransformFields, d: Dispatch, A: NdArray, SA: NdArray, dim: DimArg,
                                aWrap: int, saWrap: int)
    requires Triple(t.ttype, NumpyTypeTag, NumpyTypeTag) in d.supported
    requires NormaliseDim(dim).Int? && ShapeAt(A, NormaliseDim(dim)) == Ok(t.n)
    requires ShapeAt(SA, NormaliseDim(dim)).Ok?
    ensures ShapeAt(SA, NormaliseDim(dim)).value != t.s ==>
              ApplySpec(t, d, Array(A), Array(SA), dim, aWrap, saWrap) == Run(Err(DimensionMistmatchError(Output)), [])
    ensures var other := Int(1 - NormaliseDim(dim).i);
            ShapeAt(SA, NormaliseDim(dim)).value == t.s &&
            ShapeAt(A, other).Ok? && ShapeAt(SA, other).Ok? && ShapeAt(A, other) != ShapeAt(SA, other) ==>
              ApplySpec(t, d, Array(A), Array(SA), dim, aWrap, saWrap) == Run(Err(DimensionMistmatchError(Cross)), [])
  {
  }

  /** When every check passes, `apply` on a caller's SA succeeds exactly when both arrays
      are in Fortran order and neither handle is the sentinel -1; a sentinel is caught
      after both wraps, which are then not freed. */
  lemma ApplyGivenOutput(t: TransformFields, d: Dispatch, A: NdArray, SA: NdArray, dim: DimArg,
                         aWrap: int, saWrap: int)
    requires Triple(t.ttype, NumpyTypeTag, NumpyTypeTag) in d.supported
    requires DimsAgree(A, SA, NormaliseDim(dim), t.n, t.s)
    requires A.fContiguous && SA.fContiguous
    ensures var r := ApplySpec(t, d, Array(A), Array(SA), dim, aWrap, saWrap);
            && (r.result.Ok? <==> aWrap != -1 && saWrap != -1)
            && (r.result.Ok? ==> r.result.value == Array(SA))
            && (r.result.Err? ==> r.result.error == InvalidObjectError && |r.calls| == 2)
  {
  }

  /** With SA = None and the local matrix constructor, sketching an n x k Fortran array
      columnwise returns a fresh s x k Fortran array and runs the kernel on axis 1. */
  lemma ColumnwiseAllocates(t: TransformFields, d: Dispatch, k: nat, dim: DimArg, aWrap: int, saWrap: int)
    requires NormaliseDim(dim) == Int(0)
    requires t.n >= 0 && t.s >= 0
    requires t.defouttype in d.mapToCtor && d.mapToCtor[t.defouttype] == NumpyCtor
    requires Triple(t.ttype, NumpyTypeTag, NumpyTypeTag) in d.supported
    requires aWrap != -1 && saWrap != -1
    ensures var r := ApplySpec(t, d, Array(NdArray([t.n, k], true)), NoneObj, dim, aWrap, saWrap);
            && r.result == Ok(Array(NdArray([t.s, k], true)))
            && r.calls == [WrapRawMatrix(t.n, k, aWrap), WrapRawMatrix(t.s, k, saWrap),
                           ApplySketchTransform(t.obj, NumpyTypeTag, aWrap, NumpyTypeTag, saWrap, 1),
                           FreeRawMatrixWrap(aWrap), FreeRawMatrixWrap(saWrap)]
  {
  }

  /** With SA = None, sketching a k x n Fortran array rowwise returns a fresh k x s array
      and runs the kernel on axis 2. */
  lemma RowwiseAllocates(t: TransformFields, d: Dispatch, k: nat, dim: DimArg, aWrap: int, saWrap: int)
    requires NormaliseDim(dim) == Int(1)
    requires t.n >= 0 && t.s >= 0
    requires t.defouttype in d.mapToCtor && d.mapToCtor[t.defouttype] == NumpyCtor
    requires Triple(t.ttype, NumpyTypeTag, NumpyTypeTag) in d.supported
    requires aWrap != -1 && saWrap != -1
    ensures var r := ApplySpec(t, d, Array(NdArray([k, t.n], true)), NoneObj, dim, aWrap, saWrap);
            && r.result == Ok(Array(NdArray([k, t.s], true)))
            && r.calls == [WrapRawMatrix(k, t.n, aWrap), WrapRawMatrix(k, t.s, saWrap),
                           ApplySketchTransform(t.obj, NumpyTypeTag, aWrap, NumpyTypeTag, saWrap, 2),
                           FreeRawMatrixWrap(aWrap), FreeRawMatrixWrap(saWrap)]
  {
  }

  /** Lines 273-297 of `apply`, one statement at a time: the axis, A and SA are reassigned
      as the source reassigns them, and each check returns its error on the spot. */
  method Stage(t: TransformFields, d: Dispatch, A: PyObj, SA: PyObj, dim: DimArg) returns (r: Result<Staged>)
    ensures r == Prepare(t, d, A, SA, dim)
  {
    var dm := NormaliseDim(dim);
    var ops := AdaptOperands(t, d, A, SA, dm);
    if ops.Err? {
      return Err(ops.error);
    }
    var a, sa := ops.value.a, ops.value.sa;
    var combination := CheckCombination(t, d, a, sa);
    if combination.Fail? {
      return Err(combination.error);
    }
    var dims := CheckDims(t, a.value.a, sa.value.a, dm);
    if dims.Fail? {
      return Err(dims.error);
    }
    return Ok(Staged(dm.i, a.value.a, sa.value.a, ops.value.out));
  }

  /** Lines 278-287: A and SA are reassigned to their adapters, SA allocated first when
      it is `None`. */
  method AdaptOperands(t: TransformFields, d: Dispatch, A: PyObj, SA: PyObj, dm: DimArg) returns (r: Result<Operands>)
    ensures r == Adapted(t, d, A, SA, dm)
  {
    var a := Adapt(A, d.elemActive, d.kdtActive);
    if a.Err? {
      return Err(a.error);
    }
    var out := SA;
    if out.NoneObj? {
      if t.defouttype !in d.mapToCtor {
        return Err(KeyError);
      }
      var alloc := Allocate(d.mapToCtor[t.defouttype], t.s, a.value, dm);
      if alloc.Err? {
        return Err(alloc.error);
      }
      out := alloc.value;
    }
    var sa := Adapt(out, d.elemActive, d.kdtActive);
    if sa.Err? {
      return Err(sa.error);
    }
    return Ok(Operands(a.value, sa.value, out));
  }

  /** A sketch transform object. `obj` is the handle of its C-side random parameters. */
  class SketchTransform {
    var ttype: string
    var n: int
    var s: int
    var defouttype: string
    var obj: int

    /** The object as Python allocates it, before `__init__` has set anything. */
    constructor Blank()
      ensures ttype == "" && n == 0 && s == 0 && defouttype == "" && obj == 0
    {
      ttype, n, s, defouttype, obj := "", 0, 0, "", 0;
    }

    function Fields(): TransformFields
      reads this
    {
      TransformFields(ttype, n, s, defouttype, obj)
    }

    /** The default output type has a registered constructor. */
    ghost predicate Valid(lib: Library)
      reads this, lib
    {
      defouttype in lib.mapToCtor
    }

    /** `_baseinit`: an output type without a registered constructor is refused (the raise
        itself names the undefined `intype`, so Python reports a NameError); otherwise the
        four fields are stored. */
    method BaseInit(lib: Library, ttype: string, n: int, s: int, defouttype: string) returns (o: Outcome)
      modifies this`ttype, this`n, this`s, this`defouttype
      ensures o == Need(defouttype in lib.mapToCtor, NameError("intype"))
      ensures o.Pass? ==> this.ttype == ttype && this.n == n && this.s == s && this.defouttype == defouttype
      ensures o.Fail? ==> unchanged(this)
    {
      if defouttype !in lib.mapToCtor {
        return Fail(NameError("intype"));
      }
      this.ttype := ttype;
      this.n := n;
      this.s := s;
      this.defouttype := defouttype;
      return Pass;
    }

    /** `apply(A, SA, dim)`, lines 273-310, one step at a time. */
    method Apply(lib: Library, A: PyObj, SA: PyObj, dim: DimArg, elemImported: bool, kdtImported: bool,
                 aWrap: int, saWrap: int) returns (r: Result<PyObj>)
      requires lib.Valid() && Valid(lib)
      modifies lib`calls
      ensures lib.Valid()
      ensures var run := ApplySpec(Fields(), Dispatch(lib.mapToCtor, lib.supported,
                                                      lib.elemInstalled && elemImported,
                                                      lib.kdtInstalled && kdtImported),
                                   A, SA, dim, aWrap, saWrap);
              r == run.result && lib.calls == old(lib.calls) + run.calls
    {
      var elemActive := lib.elemInstalled && elemImported;
      var kdtActive := lib.kdtInstalled && kdtImported;
      r := Dispatched(lib, Fields(), Dispatch(lib.mapToCtor, lib.supported, elemActive, kdtActive),
                      A, SA, dim, aWrap, saWrap);
    }

    /** `transform * A`: columnwise with a freshly allocated output. */
    method Mul(lib: Library, A: PyObj, elemImported: bool, kdtImported: bool, aWrap: int, saWrap: int)
      returns (r: Result<PyObj>)
      requires lib.Valid() && Valid(lib)
      modifies lib`calls
      ensures lib.Valid()
      ensures var run := ApplySpec(Fields(), Dispatch(lib.mapToCtor, lib.supported,
                                                      lib.elemInstalled && elemImported,
                                                      lib.kdtInstalled && kdtImported),
                                   A, NoneObj, Int(0), aWrap, saWrap);
              r == run.result && lib.calls == old(lib.calls) + run.calls
    {
      r := Apply(lib, A, NoneObj, Int(0), elemImported, kdtImported, aWrap, saWrap);
    }

    /** `transform / A`: rowwise with a freshly allocated output. */
    method Div(lib: Library, A: PyObj, elemImported: bool, kdtImported: bool, aWrap: int, saWrap: int)
      returns (r: Result<PyObj>)
      requires lib.Valid() && Valid(lib)
      modifies lib`calls
      ensures lib.Valid()
      ensures var run := ApplySpec(Fields(), Dispatch(lib.mapToCtor, lib.supported,
                                                      lib.elemInstalled && elemImported,
                                                      lib.kdtInstalled && kdtImported),
                                   A, NoneObj, Int(1), aWrap, saWrap);
              r == run.result && lib.calls == old(lib.calls) + run.calls
    {
      r := Apply(lib, A, NoneObj, Int(1), elemImported, kdtImported, aWrap, saWrap);
    }
  }

  /** `apply` on given fields and module state: the checks, then the C calls. */
  method Dispatched(lib: Library, t: TransformFields, d: Dispatch, A: PyObj, SA: PyObj, dim: DimArg,
                    aWrap: int, saWrap: int) returns (r: Result<PyObj>)
    requires lib.Valid()
    modifies lib`calls
    ensures lib.Valid()
    ensures r == ApplySpec(t, d, A, SA, dim, aWrap, saWrap).result
    ensures lib.calls == old(lib.calls) + ApplySpec(t, d, A, SA, dim, aWrap, saWrap).calls
  {
    var staged := Stage(t, d, A, SA, dim);
    if staged.Err? {
      return Err(staged.error);
    }
    r := Execute(lib, t.obj, staged.value, aWrap, saWrap);
  }

  /** Lines 299-310 of `apply`, after every check has passed: wrap A, wrap SA, refuse a
      sentinel handle, run the kernel, then free both wraps. */
  method Execute(lib: Library, obj: int, st: Staged, aWrap: int, saWrap: int) returns (r: Result<PyObj>)
    requires lib.Valid()
    modifies lib`calls
    ensures lib.Valid()
    ensures r == Launch(obj, st, aWrap, saWrap).result
    ensures lib.calls == old(lib.calls) + Launch(obj, st, aWrap, saWrap).calls
  {
    var aObj := Ptr(lib, st.a, aWrap);
    if aObj.Err? {
      return Err(aObj.error);
    }
    var saObj := Ptr(lib, st.sa, saWrap);
    if saObj.Err? {
      return Err(saObj.error);
    }
    if aObj.value == -1 || saObj.value == -1 {
      return Err(InvalidObjectError);
    }
    RunKernel(lib, obj, aObj.value, saObj.value, st.dim + 1);
    return Ok(st.out);
  }

  /** Lines 303-308: the kernel on both wraps, then both wraps freed, A's first. */
  method RunKernel(lib: Library, obj: int, aPtr: int, saPtr: int, dim: int)
    requires lib.Valid()
    modifies lib`calls
    ensures lib.Valid()
    ensures lib.calls == old(lib.calls) + [ApplySketchTransform(obj, NumpyTypeTag, aPtr, NumpyTypeTag, saPtr, dim),
                                           FreeRawMatrixWrap(aPtr), FreeRawMatrixWrap(saPtr)]
  {
    lib.Record(ApplySketchTransform(obj, NumpyTypeTag, aPtr, NumpyTypeTag, saPtr, dim));
    PtrCleaner(lib, aPtr);
    PtrCleaner(lib, saPtr);
  }

  /** `_NumpyAdapter.ptr` on the array `a`; `wrap` is the handle the C library writes back. */
  method Ptr(lib: Library, a: NdArray, wrap: int) returns (r: Result<int>)
    requires lib.Valid()
    modifies lib`calls
    ensures lib.Valid()
    ensures r == PtrSpec(a, wrap).result && lib.calls == old(lib.calls) + PtrSpec(a, wrap).calls
  {
    if !a.fContiguous {
      return Err(UnsupportedError(FortranOnly));
    }
    var shape := WrapShape(a);
    if shape.Err? {
      return Err(shape.error);
    }
    lib.Record(WrapRawMatrix(shape.value.0, shape.value.1, wrap));
    return Ok(wrap);
  }

  /** `_NumpyAdapter.ptrcleaner`: frees the wrap made by `ptr`. */
  method PtrCleaner(lib: Library, handle: int)
    requires lib.Valid()
    modifies lib`calls
    ensures lib.Valid()
    ensures lib.calls == old(lib.calls) + [FreeRawMatrixWrap(handle)]
  {
    lib.Record(FreeRawMatrixWrap(handle));
  }

  /** Constructing `JLT(n, s, outtype)`, `CT(n, s, C, outtype)` and the other kinds:
      `_baseinit` first, then `sl_create_sketch_transform` on the current context with the
      kind's extra parameter when it has one. `handle` is what the C library writes back. */
  method NewTransform(lib: Library, kind: Kind, n: int, s: int, param: Option<real>, outtype: string, handle: int)
    returns (r: Result<SketchTransform>)
    requires lib.Valid()
    requires param.Some? <==> TakesParameter(kind)
    modifies lib`calls
    ensures lib.Valid()
    ensures r.Err? <==> outtype !in lib.mapToCtor
    ensures r.Err? ==> r.error == NameError("intype") && lib.calls == old(lib.calls)
    ensures r.Ok? ==> fresh(r.value) && r.value.Valid(lib)
    ensures r.Ok? ==> r.value.Fields() == TransformFields(KindName(kind), n, s, outtype, handle)
    ensures r.Ok? ==> lib.calls == old(lib.calls) + [CreateSketchTransform(lib.ctxtObj, KindName(kind), n, s, param, handle)]
  {
    var t := new SketchTransform.Blank();
    var o := t.BaseInit(lib, KindName(kind), n, s, outtype);
    if o.Fail? {
      return Err(o.error);
    }
    lib.Record(CreateSketchTransform(lib.ctxtObj, KindName(kind), n, s, param, handle));
    t.obj := handle;
    return Ok(t);
  }
}
