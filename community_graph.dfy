/** The edge-list reader of `examples/community.cpp`: `simple_unweighted_graph_t` turns the
    lines of a graph file into an adjacency map, skipping comments, self-loops and repeated
    ordered pairs, and counts every accepted edge twice. */
module CommunityGraph {
  import opened Wrappers

  /** A line of the graph file once tokenised: a comment (first character `#`) or the two
      endpoints `u v`. */
  datatype Line = Comment | Edge(u: int, v: int)

  /** A text file read line by line: its lines, already tokenised, and whether the last
      one ends with a newline. */
  datatype TextFile<L> = TextFile(lines: seq<L>, endsWithNewline: bool)

  /** Lines 57-60 (and 172-175 for the index file): `getline` followed by an `eof` test.
      The read that hits the end of the file stops the loop before its line is looked at,
      so a final line with no newline after it is never processed. */
  function Processed<L>(f: TextFile<L>): (r: seq<L>)
    ensures f.endsWithNewline ==> r == f.lines
    ensures !f.endsWithNewline && |f.lines| > 0 ==> r + [f.lines[|f.lines| - 1]] == f.lines
    ensures |f.lines| == 0 ==> r == []
  {
    if f.endsWithNewline || |f.lines| == 0 then f.lines else f.lines[..|f.lines| - 1]
  }

  /** `_nodemap[x]`: the list stored for x, or the empty list `operator[]` would insert. */
  function Adj(m: map<int, seq<int>>, x: int): (r: seq<int>)
    ensures x in m ==> r == m[x]
    ensures x !in m ==> r == []
  {
    if x in m then m[x] else []
  }

  /** The loop's state: the local set `added`, `_nodemap` and `_num_edges`. */
  datatype Reader = Reader(added: set<(int, int)>, nodemap: map<int, seq<int>>, numEdges: nat)

  const Start: Reader := Reader({}, map[], 0)

  /** Lines 61-78, one line: a comment, a self-loop or an ordered pair already added
      changes nothing; any other pair is recorded, counted twice and appended to both
      endpoints' lists, u's first. */
  function Step(r: Reader, l: Line): (s: Reader)
    ensures l.Comment? || l.u == l.v || (l.u, l.v) in r.added ==> s == r
    ensures l.Edge? && l.u != l.v && (l.u, l.v) !in r.added ==>
              && s.added == r.added + {(l.u, l.v)}
              && s.numEdges == r.numEdges + 2
              && Adj(s.nodemap, l.u) == Adj(r.nodemap, l.u) + [l.v]
              && Adj(s.nodemap, l.v) == Adj(r.nodemap, l.v) + [l.u]
              && s.nodemap.Keys == r.nodemap.Keys + {l.u, l.v}
              && forall x :: x != l.u && x != l.v ==> Adj(s.nodemap, x) == Adj(r.nodemap, x)
  {
    match l
    case Comment => r
    case Edge(u, v) =>
      if u == v || (u, v) in r.added then r
      else
        var m := r.nodemap[u := Adj(r.nodemap, u) + [v]];
        Reader(r.added + {(u, v)}, m[v := Adj(m, v) + [u]], r.numEdges + 2)
  }

  /** The state after the given lines, read in order. Lines 74-75: every accepted pair
      adds exactly 2 to the count. */
  function Read(lines: seq<Line>): (r: Reader)
    ensures r.numEdges == 2 * |r.added|
  {
    if |lines| == 0 then Start else Step(Read(lines[..|lines| - 1]), lines[|lines| - 1])
  }

  /** The vertices named by a set of pairs. */
  function Endpoints(pairs: set<(int, int)>): set<int>
  {
    (set p | p in pairs :: p.0) + (set p | p in pairs :: p.1)
  }

  lemma NonEmptyHasKey(m: map<int, seq<int>>)
    requires |m| > 0
    ensures exists k :: k in m
  {
    if forall k :: k !in m {
      assert false;
    }
  }

  /** An element of a non-empty map's keys, chosen once and for all. */
  ghost function PickKey(m: map<int, seq<int>>): (k: int)
    requires |m| > 0
    ensures k in m
  {
    NonEmptyHasKey(m);
    var k :| k in m; k
  }

  /** The sum of the lengths of all adjacency lists: the sum of all degrees. */
  ghost function SumDegrees(m: map<int, seq<int>>): nat
    decreases |m|
  {
    if |m| == 0 then 0
    else
      var k := PickKey(m);
      assert k in m;
      |m[k]| + SumDegrees(m - {k})
  }

  lemma {:induction false} SumDegreesRemove(m: map<int, seq<int>>, k: int)
    requires k in m
    ensures SumDegrees(m) == |m[k]| + SumDegrees(m - {k})
    decreases |m|
  {
    var j := PickKey(m);
    if j != k {
      var mj := m - {j};
      var mk := m - {k};
      assert |mj| < |m|;
      SumDegreesRemove(mj, k);
      assert mj - {k} == mk - {j};
      assert |mk| < |m|;
      SumDegreesRemove(mk, j);
    }
  }

  /** Appending one neighbour to one list raises the sum of degrees by one. */
  lemma SumDegreesAppend(m: map<int, seq<int>>, x: int, y: int)
    ensures SumDegrees(m[x := Adj(m, x) + [y]]) == SumDegrees(m) + 1
  {
    var m' := m[x := Adj(m, x) + [y]];
    SumDegreesRemove(m', x);
    if x in m {
      SumDegreesRemove(m, x);
      assert m' - {x} == m - {x};
    } else {
      assert m' - {x} == m;
    }
  }

  /** The count of edges equals the sum of the degrees. */
  lemma {:induction false} EdgesEqualSumOfDegrees(lines: seq<Line>)
    ensures Read(lines).numEdges == SumDegrees(Read(lines).nodemap)
  {
    if |lines| > 0 {
      var before := Read(lines[..|lines| - 1]);
      EdgesEqualSumOfDegrees(lines[..|lines| - 1]);
      match lines[|lines| - 1]
      case Comment =>
      case Edge(u, v) =>
        if u != v && (u, v) !in before.added {
          var m := before.nodemap[u := Adj(before.nodemap, u) + [v]];
          SumDegreesAppend(before.nodemap, u, v);
          SumDegreesAppend(m, v, u);
        }
    }
  }

  /** Line 68: no vertex is ever its own neighbour, and no recorded pair is a loop. */
  lemma {:induction false} NoSelfLoops(lines: seq<Line>)
    ensures forall p :: p in Read(lines).added ==> p.0 != p.1
    ensures forall x, i :: x in Read(lines).nodemap && 0 <= i < |Read(lines).nodemap[x]| ==>
              Read(lines).nodemap[x][i] != x
  {
    if |lines| > 0 {
      NoSelfLoops(lines[..|lines| - 1]);
    }
  }

  /** The vertices of the map are exactly the endpoints of the accepted pairs. */
  lemma {:induction false} VerticesAreEndpoints(lines: seq<Line>)
    ensures Read(lines).nodemap.Keys == Endpoints(Read(lines).added)
  {
    if |lines| > 0 {
      VerticesAreEndpoints(lines[..|lines| - 1]);
    }
  }

  /** Lines 68-74: an ordered pair is recorded exactly when it is no loop and some line of
      the file names it, in that order. */
  lemma {:induction false} AddedExactly(lines: seq<Line>, u: int, v: int)
    ensures (u, v) in Read(lines).added <==> u != v && Edge(u, v) in lines
  {
    if |lines| > 0 {
      var front := lines[..|lines| - 1];
      AddedExactly(front, u, v);
      assert lines == front + [lines[|lines| - 1]];
    }
  }

  /** Lines 61-62: comments can be removed from a file without changing what is read. */
  function WithoutComments(lines: seq<Line>): (r: seq<Line>)
    ensures forall i :: 0 <= i < |r| ==> r[i].Edge?
    ensures |r| <= |lines|
  {
    if |lines| == 0 then []
    else
      var front := WithoutComments(lines[..|lines| - 1]);
      if lines[|lines| - 1].Comment? then front else front + [lines[|lines| - 1]]
  }

  lemma {:induction false} CommentsChangeNothing(lines: seq<Line>)
    ensures Read(WithoutComments(lines)) == Read(lines)
  {
    if |lines| > 0 {
      var front := lines[..|lines| - 1];
      CommentsChangeNothing(front);
      var w := WithoutComments(front) + [lines[|lines| - 1]];
      assert w[..|w| - 1] == WithoutComments(front);
    }
  }

  /** Lines 71-74: only the ordered pair is remembered, so a pair and its reverse are two
      edges: each endpoint lists the other twice and the count reaches 4. */
  lemma ReversedPairCountedTwice()
    ensures Read([Edge(1, 2), Edge(2, 1)]).numEdges == 4
    ensures Read([Edge(1, 2), Edge(2, 1)]).nodemap == map[1 := [2, 2], 2 := [1, 1]]
  {
    var lines := [Edge(1, 2), Edge(2, 1)];
    // After the first line: one pair, each endpoint listing the other once.
    assert [Edge(1, 2)][..0] == [];
    var one := Read([Edge(1, 2)]);
    assert one == Step(Start, Edge(1, 2));
    assert Adj(map[], 1) + [2] == [2];
    assert Adj(map[1 := [2]], 2) + [1] == [1];
    assert one.nodemap == map[1 := [2], 2 := [1]];
    // The reversed pair is not in `added`, so both lists grow again.
    assert lines[..1] == [Edge(1, 2)];
    assert Read(lines) == Step(one, Edge(2, 1));
    assert Adj(one.nodemap, 2) + [1] == [1, 1];
    assert Adj(one.nodemap[2 := [1, 1]], 1) + [2] == [2, 2];
  }

  /** `simple_unweighted_graph_t`. */
  class SimpleUnweightedGraph {
    var nodemap: map<int, seq<int>>
    var numEdges: nat

    /** What holds of every graph this constructor builds: the edge count is the sum of
        the degrees and no vertex is its own neighbour. */
    ghost predicate Valid()
      reads this
    {
      && numEdges == SumDegrees(nodemap)
      && forall x, i :: x in nodemap && 0 <= i < |nodemap[x]| ==> nodemap[x][i] != x
    }

    /** Lines 47-83, with the file given as its tokenised lines. */
    constructor (f: TextFile<Line>)
      ensures nodemap == Read(Processed(f)).nodemap && numEdges == Read(Processed(f)).numEdges
      ensures Valid()
    {
      nodemap := map[];
      numEdges := 0;
      new;
      var added: set<(int, int)> := {};
      var i := 0;
      while true
        invariant 0 <= i <= |Processed(f)|
        invariant Read(Processed(f)[..i]) == Reader(added, nodemap, numEdges)
        decreases |f.lines| - i
      {
        if i == |f.lines| || (i == |f.lines| - 1 && !f.endsWithNewline) {
          break;
        }
        var line := f.lines[i];
        assert Processed(f)[..i + 1][..i] == Processed(f)[..i];
        assert Processed(f)[i] == line;
        i := i + 1;
        if line.Comment? {
          continue;
        }
        var u, v := line.u, line.v;
        if u == v {
          continue;
        }
        if (u, v) in added {
          continue;
        }
        added := added + {(u, v)};
        numEdges := numEdges + 2;
        nodemap := nodemap[u := Adj(nodemap, u) + [v]];
        nodemap := nodemap[v := Adj(nodemap, v) + [u]];
      }
      assert Processed(f)[..i] == Processed(f);
      EdgesEqualSumOfDegrees(Processed(f));
      NoSelfLoops(Processed(f));
    }

    /** `num_vertices`: the number of vertices with a list. */
    function NumVertices(): (r: nat)
      reads this
      ensures r == |nodemap.Keys|
    {
      |nodemap|
    }

    /** `num_edges`: the stored count, which in every graph the constructor builds is the
        sum of the degrees. */
    function NumEdges(): (r: nat)
      reads this
      ensures r == numEdges
      ensures Valid() ==> r == SumDegrees(nodemap)
    {
      numEdges
    }

    /** `degree(vertex)`: the length of its list; `_nodemap.at` throws for a vertex with
        no list, which is `None` here. */
    function Degree(vertex: int): (r: Option<nat>)
      reads this
      ensures r.Some? <==> vertex in nodemap
      ensures r.Some? ==> r.value == |nodemap[vertex]|
    {
      if vertex in nodemap then Some(|nodemap[vertex]|) else None
    }
  }

  /** The counts of a graph read from a file: twice as many edges as accepted ordered
      pairs, as many as the degrees add up to, and exactly the endpoints as vertices. */
  lemma GraphCounts(f: TextFile<Line>)
    ensures var r := Read(Processed(f));
            && r.numEdges == 2 * |r.added|
            && r.numEdges == SumDegrees(r.nodemap)
            && |r.nodemap| == |Endpoints(r.added)|
  {
    EdgesEqualSumOfDegrees(Processed(f));
    VerticesAreEndpoints(Processed(f));
  }

  /** A final line with no newline after it is ignored. */
  lemma UnterminatedLastLineIgnored(lines: seq<Line>, last: Line)
    ensures Read(Processed(TextFile(lines + [last], false))) == Read(lines)
  {
    assert Processed(TextFile(lines + [last], false)) == lines;
  }
}
