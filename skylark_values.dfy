/** The Python values that reach the sketch-apply dispatcher of `cskylark.py`, the
    errors it raises, and its pure pieces: axis normalisation, the matrix adapters'
    `_adapt`, `getdim`, `ctype` and `ctor`, and the allocation of a missing output. */
module SkylarkValues {
  import opened Wrappers

  /** Which dimension check of `apply` failed. */
  datatype Side = Input | Output | Cross

  /** The exceptions the modelled code raises. `errors.py` is not part of this model, so
      the classes it defines are named as the call sites spell them, including the
      misspelt `DimensionMistmatchError` of lines 293-297. */
  datatype Error =
    | InvalidObjectError
    | UnsupportedError(reason: string)
    | DimensionMistmatchError(side: Side)
      /** A global name that is not defined where it is used (`reqcomb`, `intype`). */
    | NameError(name: string)
      /** A method called on `None`, the value `_adapt` falls through to. */
    | AttributeError
      /** `shape[d]` with `d` out of range. */
    | IndexError
      /** `shape[d]` with a non-integer axis. */
    | TypeError
      /** `numpy.empty` asked for a negative dimension. */
    | ValueError
    | KeyError
      /** An Elemental or KDT matrix or constructor reached a member this model does not
          follow (those adapters are not modelled). */
    | ForeignBackend

  /** The outcome of a Python call: a value, or the exception it raises. */
  datatype Result<+T> = Ok(value: T) | Err(error: Error) {
    predicate IsFailure() { Err? }
    function PropagateFailure<U>(): Result<U> requires Err? { Err(error) }
    function Extract(): T requires Ok? { value }
  }

  /** The outcome of a Python statement that returns nothing of interest. */
  datatype Outcome = Pass | Fail(error: Error) {
    predicate IsFailure() { Fail? }
    function PropagateFailure<U>(): Result<U> requires Fail? { Err(error) }
  }

  function Need(condition: bool, e: Error): (r: Outcome)
    ensures r.Pass? <==> condition
    ensures r.Fail? ==> r.error == e
  {
    if condition then Pass else Fail(e)
  }

  /** The `dim` argument of `apply`: an integer, a string, or any other Python value. */
  datatype DimArg = Int(i: int) | Str(s: string) | Other

  const Columnwise: set<DimArg> := {Int(0), Str("columnwise"), Str("left")}
  const Rowwise: set<DimArg> := {Str("rowwise"), Str("right")}

  /** A NumPy array as the dispatcher sees it: its shape and whether it is stored in
      Fortran (column-major) order. Element values are not modelled. */
  datatype NdArray = NdArray(shape: seq<nat>, fContiguous: bool)

  /** A Python object passed as A or SA (or produced by a constructor). */
  datatype PyObj =
    | Array(arr: NdArray)
      /** An Elemental object; `supportedDist` says whether it is one of the four
          `DistMatrix_d_*` classes `_adapt` accepts. */
    | ElemMatrix(supportedDist: bool)
    | KdtMatrix
    | NoneObj
    | OtherObj

  /** What `_adapt` wraps an object in. */
  datatype Adapter = NumpyAdapter(a: NdArray) | ForeignAdapter(obj: PyObj)

  /** A constructor registered in `_map_to_ctor`. */
  datatype Ctor = NumpyCtor | ForeignCtor(key: string)

  /** The type string `_NumpyAdapter.ctype` reports. */
  const NumpyTypeTag: string := "Matrix"

  /** The key `_map_to_ctor` always holds, and the default output type of every transform. */
  const LocalMatrixKey: string := "LocalMatrix"

  /** Lines 273-276 of `apply`: the three columnwise spellings become 0, the two rowwise
      spellings become 1, and every other value is kept as it is, without complaint. */
  function NormaliseDim(d: DimArg): (r: DimArg)
    ensures d in Columnwise ==> r == Int(0)
    ensures d in Rowwise ==> r == Int(1)
    ensures d !in Columnwise && d !in Rowwise ==> r == d
  {
    if d == Int(0) || d == Str("columnwise") || d == Str("left") then Int(0)
    else if d == Str("rowwise") || d == Str("right") then Int(1)
    else d
  }

  /** `_adapt`: an ndarray gets a NumPy adapter. Otherwise, when the Elemental backend is
      installed and imported, a supported DistMatrix gets an adapter and anything else falls
      through to `None`; when only KDT is active the same holds for `kdt.Mat`; when neither
      is active the object is rejected. */
  function Adapt(obj: PyObj, elemActive: bool, kdtActive: bool): (r: Result<Option<Adapter>>)
    ensures obj.Array? ==> r == Ok(Some(NumpyAdapter(obj.arr)))
    ensures !obj.Array? && !elemActive && !kdtActive ==> r == Err(InvalidObjectError)
    ensures r.Err? ==> r.error == InvalidObjectError
    ensures r.Ok? && r.value.None? ==> !obj.Array? && (elemActive || kdtActive)
    ensures r.Ok? && r.value.Some? && r.value.value.ForeignAdapter? ==>
              r.value.value.obj == obj &&
              ((elemActive && obj.ElemMatrix? && obj.supportedDist) ||
               (!elemActive && kdtActive && obj.KdtMatrix?))
    ensures !obj.Array? && (elemActive || kdtActive) ==> r.Ok?
    ensures !obj.Array? && elemActive ==> (r.value.Some? <==> obj.ElemMatrix? && obj.supportedDist)
    ensures !obj.Array? && !elemActive && kdtActive ==> (r.value.Some? <==> obj.KdtMatrix?)
  {
    if obj.Array? then Ok(Some(NumpyAdapter(obj.arr)))
    else if elemActive then
      if obj.ElemMatrix? && obj.supportedDist then Ok(Some(ForeignAdapter(obj))) else Ok(None)
    else if kdtActive then
      if obj.KdtMatrix? then Ok(Some(ForeignAdapter(obj))) else Ok(None)
    else Err(InvalidObjectError)
  }

  /** `self._A.shape[dim]`, with Python's indexing: a negative index counts from the end,
      an index out of range raises `IndexError`, a non-integer one `TypeError`. */
  function ShapeAt(a: NdArray, d: DimArg): (r: Result<nat>)
    ensures r.Ok? <==> d.Int? && -|a.shape| <= d.i < |a.shape|
    ensures d.Int? && 0 <= d.i < |a.shape| ==> r == Ok(a.shape[d.i])
    ensures d.Int? && -|a.shape| <= d.i < 0 ==> r == Ok(a.shape[|a.shape| + d.i])
    ensures !d.Int? ==> r == Err(TypeError)
    ensures d.Int? && r.Err? ==> r.error == IndexError
  {
    match d
    case Int(i) =>
      if 0 <= i < |a.shape| then Ok(a.shape[i])
      else if -|a.shape| <= i < 0 then Ok(a.shape[|a.shape| + i])
      else Err(IndexError)
    case _ => Err(TypeError)
  }

  /** `X.getdim(d)` on what `_adapt` returned. */
  function GetDim(ad: Option<Adapter>, d: DimArg): (r: Result<nat>)
    ensures ad.None? ==> r == Err(AttributeError)
    ensures ad.Some? && ad.value.NumpyAdapter? ==> r == ShapeAt(ad.value.a, d)
    ensures r.Ok? ==> ad.Some? && ad.value.NumpyAdapter?
  {
    match ad
    case None => Err(AttributeError)
    case Some(NumpyAdapter(a)) => ShapeAt(a, d)
    case Some(ForeignAdapter(_)) => Err(ForeignBackend)
  }

  /** `X.ctype()` on what `_adapt` returned. */
  function CType(ad: Option<Adapter>): (r: Result<string>)
    ensures r.Ok? <==> ad.Some? && ad.value.NumpyAdapter?
    ensures r.Ok? ==> r.value == NumpyTypeTag
    ensures ad.None? ==> r == Err(AttributeError)
  {
    match ad
    case None => Err(AttributeError)
    case Some(NumpyAdapter(_)) => Ok(NumpyTypeTag)
    case Some(ForeignAdapter(_)) => Err(ForeignBackend)
  }

  /** The dimensions `_NumpyAdapter.ptr` hands to `sl_wrap_raw_matrix`: `shape[0]` rows
      and `shape[1]` columns, or one column for a one-dimensional array. */
  function WrapShape(a: NdArray): (r: Result<(nat, nat)>)
    ensures r.Ok? <==> |a.shape| >= 1
    ensures |a.shape| == 1 ==> r == Ok((a.shape[0], 1))
    ensures |a.shape| >= 2 ==> r == Ok((a.shape[0], a.shape[1]))
  {
    if |a.shape| == 0 then Err(IndexError)
    else Ok((a.shape[0], if |a.shape| > 1 then a.shape[1] else 1))
  }

  /** A registered constructor called with `(m, n)`: `numpy.empty((m, n), order='F')` for
      the local matrix type. */
  function Construct(c: Ctor, m: int, n: int): (r: Result<PyObj>)
    ensures c.NumpyCtor? && m >= 0 && n >= 0 ==> r == Ok(Array(NdArray([m, n], true)))
    ensures c.NumpyCtor? && (m < 0 || n < 0) ==> r == Err(ValueError)
    ensures c.ForeignCtor? ==> r == Err(ForeignBackend)
  {
    match c
    case NumpyCtor => if m < 0 || n < 0 then Err(ValueError) else Ok(Array(NdArray([m, n], true)))
    case ForeignCtor(_) => Err(ForeignBackend)
  }

  /** Lines 281-286 of `apply` when SA is `None`: the registered constructor is called with
      `(s, A.getdim(1))` for axis 0 and `(A.getdim(0), s)` for axis 1; for any other axis
      SA stays `None`. */
  function Allocate(c: Ctor, s: int, a: Option<Adapter>, dim: DimArg): (r: Result<PyObj>)
    ensures dim == Int(0) && a.Some? && a.value.NumpyAdapter? && |a.value.a.shape| >= 2 ==>
              r == Construct(c, s, a.value.a.shape[1])
    ensures dim == Int(1) && a.Some? && a.value.NumpyAdapter? && |a.value.a.shape| >= 1 ==>
              r == Construct(c, a.value.a.shape[0], s)
    ensures dim != Int(0) && dim != Int(1) ==> r == Ok(NoneObj)
    ensures dim == Int(0) && GetDim(a, Int(1)).Err? ==> r == Err(GetDim(a, Int(1)).error)
    ensures dim == Int(1) && GetDim(a, Int(0)).Err? ==> r == Err(GetDim(a, Int(0)).error)
  {
    if dim == Int(0) then
      var cols :- GetDim(a, Int(1));
      Construct(c, s, cols)
    else if dim == Int(1) then
      var rows :- GetDim(a, Int(0));
      Construct(c, rows, s)
    else Ok(NoneObj)
  }
}
