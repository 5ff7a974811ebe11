/** The data behind the hashing sketches (CountSketch and its relatives) of
    `sketch/hash_transform_data.hpp`: for each of the N input coordinates a bucket index in
    [0, S-1] and a scaling value, drawn from the transform's random context. */
module HashTransformData {

  /** A random context: its seed and the position of the next draw in its counter-based
      stream. `base::context_t` itself is not part of this model. */
  datatype Context = Context(seed: int, counter: nat)

  /** The random source, abstracted: `index(seed, pos, lo, hi)` is what the index
      distribution on [lo, hi] yields at stream position `pos`, and `value(seed, pos)` what
      the value distribution yields there. */
  datatype Generator<V> = Generator(index: (int, nat, int, int) -> int, value: (int, nat) -> V)

  /** The index distribution keeps to its range whenever that range is not empty, as a
      uniform integer distribution does. */
  ghost predicate HonoursRange<V>(g: Generator<V>)
  {
    forall seed: int, pos: nat, lo: int, hi: int :: lo <= hi ==> lo <= g.index(seed, pos, lo, hi) <= hi
  }

  /** `context_t::generate_random_samples_array(n, dist)`: the next n positions of the
      stream, in order, after which the counter has moved past them. */
  function SampleArray<T>(ctx: Context, n: nat, dist: (int, nat) -> T): (r: (seq<T>, Context))
    ensures |r.0| == n
    ensures forall i :: 0 <= i < n ==> r.0[i] == dist(ctx.seed, ctx.counter + i)
    ensures r.1.seed == ctx.seed && r.1.counter == ctx.counter + n
  {
    (seq(n, i requires 0 <= i < n => dist(ctx.seed, ctx.counter + i)), Context(ctx.seed, ctx.counter + n))
  }

  /** What one `build()` produces from the context the base class's `build()` returned. */
  datatype Drawn<V> = Drawn(rowIdx: seq<int>, rowValue: seq<V>, after: Context)

  /** Lines 53-65: N bucket indices on [0, S-1] first, then N values, both from the same
      context, which is handed back advanced past both. */
  function Draws<V>(g: Generator<V>, base: Context, n: nat, s: int): (r: Drawn<V>)
    ensures |r.rowIdx| == n && |r.rowValue| == n
    ensures forall i :: 0 <= i < n ==> r.rowIdx[i] == g.index(base.seed, base.counter + i, 0, s - 1)
    ensures forall i :: 0 <= i < n ==> r.rowValue[i] == g.value(base.seed, base.counter + n + i)
    ensures r.after == Context(base.seed, base.counter + 2 * n)
    ensures HonoursRange(g) && s >= 1 ==> forall i :: 0 <= i < n ==> 0 <= r.rowIdx[i] < s
  {
    var (idx, mid) := SampleArray(base, n, (seed, pos) => g.index(seed, pos, 0, s - 1));
    var (vals, after) := SampleArray(mid, n, g.value);
    Drawn(idx, vals, after)
  }

  /** The number of input coordinates hashed to output row `b`. */
  function Occurrences(idx: seq<int>, b: int): (r: nat)
    ensures r <= |idx|
  {
    if |idx| == 0 then 0
    else Occurrences(idx[..|idx| - 1], b) + (if idx[|idx| - 1] == b then 1 else 0)
  }

  /** The number of coordinates hashed to rows 0 .. s-1 together. */
  function RowLoad(idx: seq<int>, s: nat): nat
  {
    if s == 0 then 0 else RowLoad(idx, s - 1) + Occurrences(idx, s - 1)
  }

  lemma {:induction false} RowLoadSnoc(idx: seq<int>, x: int, s: nat)
    ensures RowLoad(idx + [x], s) == RowLoad(idx, s) + (if 0 <= x < s then 1 else 0)
  {
    assert (idx + [x])[..|idx + [x]| - 1] == idx;
    if s > 0 {
      RowLoadSnoc(idx, x, s - 1);
    }
  }

  /** When every index lies in [0, s-1], each coordinate is counted in exactly one row:
      the rows' loads add up to the number of coordinates. */
  lemma {:induction false} EveryCoordinateOneRow(idx: seq<int>, s: nat)
    requires forall i :: 0 <= i < |idx| ==> 0 <= idx[i] < s
    ensures RowLoad(idx, s) == |idx|
  {
    if |idx| == 0 {
      RowLoadEmpty(s);
    } else {
      var front := idx[..|idx| - 1];
      EveryCoordinateOneRow(front, s);
      RowLoadSnoc(front, idx[|idx| - 1], s);
      assert front + [idx[|idx| - 1]] == idx;
    }
  }

  lemma {:induction false} RowLoadEmpty(s: nat)
    ensures RowLoad([], s) == 0
  {
    if s > 0 {
      RowLoadEmpty(s - 1);
    }
  }

  /** The CountSketch invariant: after a build with S >= 1, every one of the N input
      coordinates is sent to exactly one of the S output rows. */
  lemma BuildHashesEveryCoordinateOnce<V>(g: Generator<V>, base: Context, n: nat, s: nat)
    requires HonoursRange(g) && s >= 1
    ensures var d := Draws(g, base, n, s);
            && (forall i :: 0 <= i < n ==> 0 <= d.rowIdx[i] < s)
            && RowLoad(d.rowIdx, s) == n
  {
    EveryCoordinateOneRow(Draws(g, base, n, s).rowIdx, s);
  }

  /** The serialised form the JSON constructor reads: `transform_data_t(json)` is not part
      of this model, so its fields are taken as already parsed. */
  datatype SketchJson = SketchJson(n: int, s: int, creationContext: Context, sketchType: string)

  /** `hash_transform_data_t`: the base class's N, S, creation context and type, and the
      two protected vectors `row_idx` and `row_value`. */
  class HashTransformData<V> {
    const N: int
    const S: int
    const creationContext: Context
    const sketchType: string
    var rowIdx: seq<int>
    var rowValue: seq<V>

    /** Lines 34-38: the arguments are forwarded to the base and nothing is drawn. */
    constructor (N: int, S: int, context: Context, sketchType: string)
      ensures this.N == N && this.S == S && creationContext == context && this.sketchType == sketchType
      ensures rowIdx == [] && rowValue == []
    {
      this.N := N;
      this.S := S;
      creationContext := context;
      this.sketchType := sketchType;
      rowIdx := [];
      rowValue := [];
    }

    /** Lines 44-47: the serialised fields are forwarded to the base and nothing is drawn. */
    constructor FromJson(json: SketchJson)
      ensures N == json.n && S == json.s && creationContext == json.creationContext
      ensures sketchType == json.sketchType
      ensures rowIdx == [] && rowValue == []
    {
      N := json.n;
      S := json.s;
      creationContext := json.creationContext;
      sketchType := json.sketchType;
      rowIdx := [];
      rowValue := [];
    }

    /** Lines 53-65. `base` is the context `transform_data_t::build()` returns; it is
        advanced by both draws in turn and returned. */
    method Build(g: Generator<V>, base: Context) returns (tmp: Context)
      requires N >= 0
      modifies this`rowIdx, this`rowValue
      ensures var d := Draws(g, base, N, S);
              rowIdx == d.rowIdx && rowValue == d.rowValue && tmp == d.after
    {
      tmp := base;
      var indices := SampleArray(tmp, N, (seed, pos) => g.index(seed, pos, 0, S - 1));
      rowIdx, tmp := indices.0, indices.1;
      var values := SampleArray(tmp, N, g.value);
      rowValue, tmp := values.0, values.1;
    }
  }

  /** Two objects built from equal base contexts hold the same arrays and hand back the
      same context, which is what lets a transform be rebuilt from its serialised context. */
  method BuildTwice<V>(g: Generator<V>, a: HashTransformData<V>, b: HashTransformData<V>, base: Context)
    returns (ta: Context, tb: Context)
    requires a != b && a.N == b.N && a.S == b.S && a.N >= 0
    modifies a`rowIdx, a`rowValue, b`rowIdx, b`rowValue
    ensures a.rowIdx == b.rowIdx && a.rowValue == b.rowValue && ta == tb
    ensures |a.rowIdx| == a.N && |a.rowValue| == a.N
  {
    ta := a.Build(g, base);
    tb := b.Build(g, base);
  }
}
