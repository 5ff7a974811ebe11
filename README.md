# A verified model of three pieces of libskylark

libskylark is a library of randomised sketching transforms for numerical linear algebra.
This project models three of its parts in Dafny and proves properties of each model.

1. **The Python dispatcher `python-skylark/skylark/cskylark.py`.**
   - The module globals: the constructor registry `_map_to_ctor`, the supported
     (transform, input, output) combinations, and the C-side context with its rank and size.
   - The context lifecycle `initialize`/`finalize`.
   - The NumPy adapter: `ctype`, `ptr`, `ptrcleaner`, `getdim` and `ctor`.
   - `_adapt`, and the transform classes from `_baseinit` through `apply` and its operator
     forms `*` and `/`.

   Calls into the C library `libcskylark` are not executed. From `initialize` on, each
   is recorded, with its arguments and the handle it writes back, in a call history on
   the `Library` object. Contracts state which calls each operation makes and in what
   order. The three calls made while the module is imported, `sl_supported_sketch_transforms`,
   `sl_has_elemental` and `sl_has_combblas` (lines 32-35), are not recorded: their
   results are inputs of `Library.Load`.

2. **The CountSketch hash data `sketch/hash_transform_data.hpp`.** Its `build()` fills
   `row_idx` with N bucket indices in [0, S-1] and `row_value` with N scaling values. The
   random generator is modelled as an abstract function of the context's seed and stream
   position.

3. **The community-detection example `examples/community.cpp`.**
   - `simple_unweighted_graph_t` reads an edge list into an adjacency map.
   - The index-file loop in `main` builds the id→name and name→id maps.
   - The seed loops in `main` collect seed nodes, capping an interactive line at 200 tokens.

   Files are given as sequences of already-tokenised lines.

Files:
- `wrappers.dfy`: `Option` and map lookup.
- `skylark_values.dfy`: the Python values and the pure pieces of the dispatcher.
- `skylark_runtime.dfy`: the module globals and the context lifecycle.
- `skylark_sketch.dfy`: the sketch transform objects and `apply`.
- `hash_transform_data.dfy`: the hash transform data and `build()`.
- `community_graph.dfy`: the graph builder.
- `community_main.dfy`: the index and seed loops of `main`.

Where the code does something other than what its own comments or documentation say, the
model follows the code:
- **Axis values.** `apply` maps the three columnwise spellings to 0 and the two rowwise
  spellings to 1. It keeps any other value unchanged and does not reject it. What happens
  next depends on SA:
  - With SA `None`, nothing is allocated and SA stays `None`. `_adapt(None)` then raises
    `InvalidObjectError`, or, with a backend active, returns `None`, and `SA.ctype()`
    raises `AttributeError`.
  - With SA given, `shape[dim]` raises `IndexError` or `TypeError` for most values. But
    an axis such as 2 on two three-dimensional Fortran arrays whose last dimension is
    n = s passes every check, and the kernel is called with axis 3.
- **Unkeyed output type.** When `_baseinit` meets an output type with no constructor, the
  raise formats the undefined name `intype`. Python therefore raises `NameError`, not the
  intended `UnsupportedError`.
- **Unsupported combination.** The raise for an unsupported combination formats the
  undefined `reqcomb`. This is also a `NameError`.
- **n and s are not checked.** `numpy.empty` raises `ValueError` only when an allocated
  output would have a negative dimension.
- **Cleanup does not always run.** When `ptr()` has wrapped A (or both arrays) and a later
  step raises, the wraps are not freed. The model records exactly the calls made.
- **A NULL context is freed.** `_ctxt_obj` holds `c_void_p.value`, which is `None` when
  the C library writes back NULL. Because `None != 0`, the next `initialize` or
  `finalize` passes `None` to `sl_free_context`. The model keeps the handle as Python
  holds it (`ContextHandle`, with the initial integer 0 as `NoHandle`) and records that free.
- **The -1 test in `apply` cannot fire for NumPy arrays.** `ptr()` returns
  `c_void_p.value`, which is `None` or a non-negative address, never -1. The model's wrap
  handles are unconstrained integers, so it reaches the `InvalidObjectError` branch on
  inputs the program never sees.

## Model

| member | source | states |
|---|---|---|
| SkylarkValues.NormaliseDim | python-skylark/skylark/cskylark.py:273-276 | 0, "columnwise" and "left" become 0; "rowwise" and "right" become 1; every other value is returned unchanged |
| SkylarkValues.Adapt | python-skylark/skylark/cskylark.py:148-166 | an ndarray always gets a NumPy adapter. Otherwise: with Elemental active, only a supported DistMatrix is adapted and anything else yields None; with only KDT active, the same holds for `kdt.Mat`; with neither active, InvalidObjectError is raised |
| SkylarkValues.ShapeAt | python-skylark/skylark/cskylark.py:65-66 | `shape[dim]` with Python indexing: succeeds exactly for integer indices in [-len, len); negative indices count from the end; other integers raise IndexError; non-integers raise TypeError |
| SkylarkValues.GetDim | python-skylark/skylark/cskylark.py:65-66 | on a NumPy adapter it is `shape[dim]`; on None it raises AttributeError; it succeeds only on a NumPy adapter |
| SkylarkValues.CType | python-skylark/skylark/cskylark.py:48-49 | the NumPy adapter reports "Matrix"; None raises AttributeError |
| SkylarkValues.WrapShape | python-skylark/skylark/cskylark.py:56-58 | the wrap is shape[0] × shape[1] for two or more dimensions and shape[0] × 1 for a 1-D array; a 0-D array fails |
| SkylarkValues.Construct | python-skylark/skylark/cskylark.py:71-73 | the local constructor yields a Fortran-ordered m × n array, and ValueError for a negative dimension |
| SkylarkValues.Allocate | python-skylark/skylark/cskylark.py:281-286 | for axis 0 the constructor is called with (s, A.getdim(1)), for axis 1 with (A.getdim(0), s); when that `getdim` raises, its error is raised and no constructor is called; for any other axis SA stays None |
| SkylarkRuntime.Registry | python-skylark/skylark/cskylark.py:171-181 | the registry holds LocalMatrix, mapped to the NumPy constructor; the four Elemental keys exactly when Elemental is installed; the KDT key exactly when KDT is installed |
| SkylarkRuntime.RegisterConstructors | python-skylark/skylark/cskylark.py:171-181 | filling the map one key at a time yields exactly `Registry` |
| SkylarkRuntime.EffectiveSeed | python-skylark/skylark/cskylark.py:191-192 | a seed of -1 is replaced by the clock; any other seed is kept |
| SkylarkRuntime.FreeIfLive | python-skylark/skylark/cskylark.py:193-194 | a free is issued exactly when `_ctxt_obj` is not the integer 0, so a NULL (`None`) handle is freed too |
| SkylarkRuntime.NoDoubleFree | python-skylark/skylark/cskylark.py:184-226 | in any call history that keeps the create/free protocol, a context address freed twice was created again in between; a create that writes back NULL creates nothing |
| SkylarkRuntime.Library.Load | python-skylark/skylark/cskylark.py:211-213 | importing leaves the registry equal to `Registry`, calls `initialize` with the clock as seed, and keeps the lifecycle invariant |
| SkylarkRuntime.Library.Initialize | python-skylark/skylark/cskylark.py:184-208 | frees the stored context unless the handle is 0 (a NULL handle is freed too), then creates one from the effective seed, then queries rank and size, in that order; stores the three results; keeps the lifecycle invariant |
| SkylarkRuntime.Library.ReplaceContext | python-skylark/skylark/cskylark.py:193-198 | a stored handle other than 0 (NULL included) is freed before the new context is created from the given seed; the handle written back, NULL included, is stored; keeps the lifecycle invariant |
| SkylarkRuntime.Library.QueryRankAndSize | python-skylark/skylark/cskylark.py:200-208 | asks the current context for its rank, then its size, and stores what the C library writes back |
| SkylarkRuntime.Library.Finalize | python-skylark/skylark/cskylark.py:216-226 | frees whatever the global holds unless it is 0, NULL included, then sets it to 0; keeps the lifecycle invariant |
| SkylarkRuntime.FinalizeTwice | python-skylark/skylark/cskylark.py:216-226 | two `finalize` calls free the context at most once, and change nothing but the context global and the call history |
| SkylarkSketch.KindName | python-skylark/skylark/cskylark.py:322-407 | each class passes its own name as the kind string, one of JLT, CT, FJLT, CWT, WZT, GaussianRFT and LaplacianRFT; exactly CT, WZT, GaussianRFT and LaplacianRFT also pass a parameter |
| SkylarkSketch.KindNameInjective | python-skylark/skylark/cskylark.py:322-408 | different transform classes pass different kind strings to the C library |
| SkylarkSketch.PtrSpec | python-skylark/skylark/cskylark.py:51-60 | a non-Fortran array is refused with nothing wrapped; `ptr` succeeds exactly for a Fortran array of dimension at least 1, making one wrap call with its rows and columns and returning the handle |
| SkylarkSketch.Ptr | python-skylark/skylark/cskylark.py:51-60 | returns and records exactly what `PtrSpec` says |
| SkylarkSketch.PtrCleaner | python-skylark/skylark/cskylark.py:62-63 | records one free of the wrap handle |
| SkylarkSketch.ResolveOutput | python-skylark/skylark/cskylark.py:281-287 | a given SA is kept; a missing one is allocated by the default output type's registered constructor |
| SkylarkSketch.CheckCombination | python-skylark/skylark/cskylark.py:289-290 | passes exactly when both sides are NumPy arrays and (kind, "Matrix", "Matrix") is supported; for two arrays the failure is the `reqcomb` NameError |
| SkylarkSketch.CheckDims | python-skylark/skylark/cskylark.py:292-297 | passes exactly when the three dimension checks agree; the input check fails first, then the output check |
| SkylarkSketch.Adapted | python-skylark/skylark/cskylark.py:278-287 | when adapting succeeds, an array A gets a NumPy adapter, a given SA is kept as the result object, and an array result gets a NumPy adapter |
| SkylarkSketch.AdaptOperands | python-skylark/skylark/cskylark.py:278-287 | reassigning A and SA statement by statement, allocating SA first when it is `None`, returns exactly `Adapted` |
| SkylarkSketch.Prepare | python-skylark/skylark/cskylark.py:273-297 | when the checks pass, A and SA are arrays, a given SA is returned unchanged, the combination is supported and all dimensions agree |
| SkylarkSketch.Stage | python-skylark/skylark/cskylark.py:273-297 | the statement-by-statement checks return exactly `Prepare` |
| SkylarkSketch.ApplySpec | python-skylark/skylark/cskylark.py:273-310 | a failing `apply` has made at most the two wrap calls and nothing else |
| SkylarkSketch.ApplySuccess | python-skylark/skylark/cskylark.py:299-310 | a successful `apply` makes five calls in order: wrap A, wrap SA, the kernel with both handles and axis dim+1, free A, free SA. It returns SA, which is the caller's object when one was given |
| SkylarkSketch.UnsupportedCombinationFirst | python-skylark/skylark/cskylark.py:289-297 | an unsupported combination fails before any dimension check, with no C call |
| SkylarkSketch.InputMismatch | python-skylark/skylark/cskylark.py:292-293 | a wrong sketched input dimension fails with the input mismatch and no C call |
| SkylarkSketch.OutputThenCrossMismatch | python-skylark/skylark/cskylark.py:294-297 | with the input dimension right, a wrong output dimension fails next, then a differing other dimension |
| SkylarkSketch.ApplyGivenOutput | python-skylark/skylark/cskylark.py:299-310 | with the checks passed and two Fortran arrays, `apply` succeeds exactly when neither handle is -1; on a sentinel it raises InvalidObjectError after both wraps and frees neither |
| SkylarkSketch.ColumnwiseAllocates | python-skylark/skylark/cskylark.py:281-284 | columnwise with no SA, an n × k array gives a new s × k Fortran array and the five calls, with the kernel on axis 1 |
| SkylarkSketch.RowwiseAllocates | python-skylark/skylark/cskylark.py:285-286 | rowwise with no SA, a k × n array gives a new k × s Fortran array, with the kernel on axis 2 |
| SkylarkSketch.SketchTransform.BaseInit | python-skylark/skylark/cskylark.py:248-254 | fails, changing nothing, exactly when the output type has no registered constructor; otherwise stores kind, n, s and output type |
| SkylarkSketch.SketchTransform.Apply | python-skylark/skylark/cskylark.py:259-310 | returns `ApplySpec`'s result and appends exactly its calls to the history |
| SkylarkSketch.Dispatched | python-skylark/skylark/cskylark.py:273-310 | the checks, then the C calls, give `ApplySpec`'s result, and exactly its calls are appended to the history |
| SkylarkSketch.Execute | python-skylark/skylark/cskylark.py:299-310 | after the checks: returns and records exactly `Launch`, which wraps A then SA, refuses a -1 handle, runs the kernel and frees both wraps |
| SkylarkSketch.RunKernel | python-skylark/skylark/cskylark.py:304-308 | records the kernel call on both wraps with the given axis, then frees A's wrap, then SA's |
| SkylarkSketch.SketchTransform.Mul | python-skylark/skylark/cskylark.py:312-313 | `apply(A, None, 0)` |
| SkylarkSketch.SketchTransform.Div | python-skylark/skylark/cskylark.py:315-316 | `apply(A, None, 1)` |
| SkylarkSketch.NewTransform | python-skylark/skylark/cskylark.py:241-246 | construction fails, with no call, exactly when the output type is unregistered; otherwise it makes one create call on the current context with the kind string and parameter, and stores the handle |
| HashTransformData.SampleArray | sketch/hash_transform_data.hpp:59-62 | n samples from the next n stream positions, in order; the counter advances by n |
| HashTransformData.Draws | sketch/hash_transform_data.hpp:53-65 | N indices, then N values from the positions after them; the context returned is past both; with a range-respecting generator and S ≥ 1, every index lies in [0, S-1] |
| HashTransformData.EveryCoordinateOneRow | sketch/hash_transform_data.hpp:56-60 | when all indices lie in [0, S-1], the row loads add up to the number of coordinates |
| HashTransformData.BuildHashesEveryCoordinateOnce | sketch/hash_transform_data.hpp:56-60 | after a build, each of the N coordinates goes to exactly one of the S rows |
| HashTransformData.HashTransformData.constructor | sketch/hash_transform_data.hpp:34-38 | the arguments are stored and nothing is drawn |
| HashTransformData.HashTransformData.FromJson | sketch/hash_transform_data.hpp:44-47 | the serialised fields are stored and nothing is drawn |
| HashTransformData.HashTransformData.Build | sketch/hash_transform_data.hpp:53-65 | `row_idx`, `row_value` and the returned context are exactly `Draws` of the base context |
| HashTransformData.BuildTwice | sketch/hash_transform_data.hpp:53-65 | two objects built from equal contexts hold equal arrays of length N and return equal contexts |
| CommunityGraph.Processed | examples/community.cpp:57-60 | every line ending in a newline is processed; a final line without one is not |
| CommunityGraph.Step | examples/community.cpp:61-78 | a comment, a self-loop or an ordered pair already added changes nothing; any other pair is recorded, adds 2 to the count, appends v to u's list and u to v's, makes both vertices, and leaves every other list unchanged |
| CommunityGraph.Read | examples/community.cpp:57-78 | reading the lines in order; the edge count is always twice the number of accepted ordered pairs |
| CommunityGraph.EdgesEqualSumOfDegrees | examples/community.cpp:74-78 | the edge count equals the sum of all degrees |
| CommunityGraph.NoSelfLoops | examples/community.cpp:68-69 | no accepted pair is a loop and no vertex lists itself |
| CommunityGraph.VerticesAreEndpoints | examples/community.cpp:74-78 | the vertices are exactly the endpoints of the accepted pairs |
| CommunityGraph.AddedExactly | examples/community.cpp:68-74 | (u, v) is accepted exactly when u ≠ v and some line names (u, v) |
| CommunityGraph.CommentsChangeNothing | examples/community.cpp:61-62 | removing comment lines does not change what is read |
| CommunityGraph.ReversedPairCountedTwice | examples/community.cpp:71-74 | (1,2) followed by (2,1) counts 4 edges, and each vertex lists the other twice |
| CommunityGraph.SimpleUnweightedGraph.constructor | examples/community.cpp:47-83 | the map and the count are those of reading the processed lines in order; the count equals the degree sum and there are no self-loops |
| CommunityGraph.SimpleUnweightedGraph.NumEdges | examples/community.cpp:27 | the stored count, which in every constructed graph equals the sum of the degrees |
| CommunityGraph.SimpleUnweightedGraph.NumVertices | examples/community.cpp:26 | the number of vertices with a list |
| CommunityGraph.SimpleUnweightedGraph.Degree | examples/community.cpp:29-31 | the length of the vertex's list, and absent exactly when `at` would throw |
| CommunityGraph.GraphCounts | examples/community.cpp:26-31 | for a whole file: edges = 2 × accepted pairs = the degree sum, and vertices = the number of endpoints |
| CommunityGraph.UnterminatedLastLineIgnored | examples/community.cpp:57-60 | a last line without a newline does not change the graph |
| CommunityMain.LastNameOf | examples/community.cpp:186 | absent exactly when no entry names the node; otherwise the name of an entry for that node with no later entry for it |
| CommunityMain.LastIdOf | examples/community.cpp:187 | absent exactly when no entry has the name; otherwise the node of an entry with that name with no later entry for it |
| CommunityMain.IndexStepSetsEntry | examples/community.cpp:178-187 | a comment changes neither map; an entry maps its node to its name and its name to its node, and every other key keeps its value |
| CommunityMain.IndexStepKeepsIndexes | examples/community.cpp:178-187 | a comment line changes neither map; an entry stored in both maps keeps each map equal to the last entry for every node and every name |
| CommunityMain.ReadIndex | examples/community.cpp:172-188 | for every node and every name, the two maps hold what the last entry for it says |
| CommunityMain.MapsInverseWhenOneToOne | examples/community.cpp:186-187 | when names and nodes correspond one to one, name→id inverts id→name |
| CommunityMain.SharedNameLeadsToLastNode | examples/community.cpp:186-187 | one name on two nodes names both, but leads back only to the later node |
| CommunityMain.CollectSeedIds | examples/community.cpp:214-229 | an interactive line of 200 or more tokens ends the program with -1; otherwise the seeds are exactly the tokens |
| CommunityMain.CollectSeedNames | examples/community.cpp:205-227 | the same cap; otherwise the seeds are the looked-up ids, 0 for an unknown name, and every unknown name is added to the map with id 0 |
| CommunityMain.LookupKeepsKnownIds | examples/community.cpp:209 | a lookup never changes a known name's id, and a known seed name contributes that id |

## Left out

- The Elemental and KDT adapters (`_ElemAdapter`, `_KDTAdapter`) and the constructors they
  register. They are optional foreign backends. Any use of such an adapter's `ctype`,
  `getdim` or `ptr`, or of such a constructor, ends the model with `ForeignBackend`.
  `_adapt` still follows their dispatch, including the fall-through to `None`.
- Loading the C library with ctypes, `_strerror`, and the contents of
  `SUPPORTED_SKETCH_TRANSFORMS`. The list and the installed flags are inputs of
  `Library.Load`.
- Every `sl_*` call. These are foreign code. From `initialize` on, each is recorded with
  its arguments, and the handles and numbers it writes back are parameters. The three
  import-time queries are not recorded; their results are inputs. What `sl_free_context`
  does with a NULL handle is not modelled: the lifecycle counts such a free as releasing
  nothing.
- `MMT`. Its constructor passes an undefined `intype` and cannot run.
- `__del__`, `atexit` and `time.time()`. The clock is the parameter `now`.
- The numerical kernels and all element values. Arrays are modelled by shape and storage
  order only.
- SkylarkValues.NormaliseDim: Python booleans and NumPy integers count as the integers they
  equal. Floats, such as 0.0, which Python's `==` would map to axis 0, are not modelled.
- HashTransformData.HashTransformData.Build requires N ≥ 0. A negative N would be converted
  to a huge vector size in C++.
- HashTransformData.Draws: for S ≤ 0 the index range [0, S-1] is empty, so the model
  promises nothing about the indices drawn.
- `transform_data_t`, its `build()`, `context_t` and the distribution classes. The context
  is a seed and a stream position, and the base build's context is a parameter.
- HashTransformData.HashTransformData.FromJson: parsing the property tree is not modelled;
  its fields arrive already parsed.
- All file and stream I/O, option parsing, timers, printing, MPI and Elemental
  initialisation, `FindLocalCluster` and its floating-point parameters.
- Malformed or blank lines in the graph and index files, and `atoi`. Lines and tokens
  arrive already parsed.
- The iterators `adjanct_begin`/`adjanct_end`. `degree` covers the same `at` lookup.
- The interactive `do … while` around the seed loops, its stop on an empty line, and the
  `id_to_name_map` lookups when printing the cluster.
