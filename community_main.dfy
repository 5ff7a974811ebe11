/** The input handling of `main` in `examples/community.cpp`: the index file that maps
    node ids to names and back, and the loops that turn seed tokens into the seed set. */
module CommunityMain {
  import opened Wrappers
  import opened CommunityGraph

  /** A line of the index file once tokenised: a comment, or a name followed by a node id. */
  datatype IndexLine = IndexComment | Entry(name: string, node: int)

  /** The position of the last element of `s` that satisfies `p`, or -1 when none does. */
  function LastIndex<T>(s: seq<T>, p: T -> bool): (k: int)
    ensures -1 <= k < |s|
    ensures k >= 0 ==> p(s[k])
    ensures forall j :: k < j < |s| ==> !p(s[j])
  {
    if |s| == 0 then -1
    else if p(s[|s| - 1]) then |s| - 1
    else LastIndex(s[..|s| - 1], p)
  }

  /** Whether an index line is an entry for `node`. */
  predicate EntryForNode(node: int, l: IndexLine)
  {
    l.Entry? && l.node == node
  }

  /** Whether an index line is an entry named `name`. */
  predicate EntryNamed(name: string, l: IndexLine)
  {
    l.Entry? && l.name == name
  }

  /** The name the last entry for `node` gives it, if any entry names that node. */
  function LastNameOf(lines: seq<IndexLine>, node: int): (r: Option<string>)
    ensures r.None? <==> forall i :: 0 <= i < |lines| ==> !EntryForNode(node, lines[i])
    ensures r.Some? ==> exists i :: && 0 <= i < |lines| && lines[i] == Entry(r.value, node)
                                    && forall j :: i < j < |lines| ==> !EntryForNode(node, lines[j])
  {
    var k := LastIndex(lines, l => EntryForNode(node, l));
    if k < 0 then None else Some(lines[k].name)
  }

  /** The node the last entry for `name` gives it, if any entry has that name. */
  function LastIdOf(lines: seq<IndexLine>, name: string): (r: Option<int>)
    ensures r.None? <==> forall i :: 0 <= i < |lines| ==> !EntryNamed(name, lines[i])
    ensures r.Some? ==> exists i :: && 0 <= i < |lines| && lines[i] == Entry(name, r.value)
                                    && forall j :: i < j < |lines| ==> !EntryNamed(name, lines[j])
  {
    var k := LastIndex(lines, l => EntryNamed(name, l));
    if k < 0 then None else Some(lines[k].node)
  }

  /** One more line: an entry for the node decides its name, any other line leaves it. */
  lemma LastNameOfSnoc(lines: seq<IndexLine>, l: IndexLine, node: int)
    ensures LastNameOf(lines + [l], node) == if EntryForNode(node, l) then Some(l.name) else LastNameOf(lines, node)
  {
    assert (lines + [l])[..|lines|] == lines;
  }

  /** One more line: an entry with the name decides its node, any other line leaves it. */
  lemma LastIdOfSnoc(lines: seq<IndexLine>, l: IndexLine, name: string)
    ensures LastIdOf(lines + [l], name) == if EntryNamed(name, l) then Some(l.node) else LastIdOf(lines, name)
  {
    assert (lines + [l])[..|lines|] == lines;
  }

  /** The two maps hold, for every node and every name, what the last entry for it says. */
  ghost predicate Indexes(lines: seq<IndexLine>, idToName: map<int, string>, nameToId: map<string, int>)
  {
    && (forall node :: Get(idToName, node) == LastNameOf(lines, node))
    && (forall name :: Get(nameToId, name) == LastIdOf(lines, name))
  }

  /** Lines 178-187, one line: what one pass of the loop body does to the two maps. */
  function IndexStep(idToName: map<int, string>, nameToId: map<string, int>, line: IndexLine)
    : (r: (map<int, string>, map<string, int>))
  {
    match line
    case IndexComment => (idToName, nameToId)
    case Entry(name, node) => (idToName[node := name], nameToId[name := node])
  }

  /** A comment changes neither map; an entry sets the name of its node and the node of its
      name, and every other key keeps what it had. */
  lemma IndexStepSetsEntry(idToName: map<int, string>, nameToId: map<string, int>, line: IndexLine)
    ensures var r := IndexStep(idToName, nameToId, line);
            && (line.IndexComment? ==> r == (idToName, nameToId))
            && (line.Entry? ==> Get(r.0, line.node) == Some(line.name) && Get(r.1, line.name) == Some(line.node))
            && (line.Entry? ==> forall node :: node != line.node ==> Get(r.0, node) == Get(idToName, node))
            && (line.Entry? ==> forall name :: name != line.name ==> Get(r.1, name) == Get(nameToId, name))
  {
  }

  lemma IndexStepKeepsIndexes(lines: seq<IndexLine>, idToName: map<int, string>, nameToId: map<string, int>,
                              line: IndexLine)
    requires Indexes(lines, idToName, nameToId)
    ensures var (i2n, n2i) := IndexStep(idToName, nameToId, line); Indexes(lines + [line], i2n, n2i)
  {
    forall node {
      LastNameOfSnoc(lines, line, node);
    }
    forall name {
      LastIdOfSnoc(lines, line, name);
    }
  }

  /** Lines 172-188: every entry sets `id_to_name_map[node] = name` and
      `name_to_id_map[name] = node`, so for each node and each name the last entry wins. */
  method ReadIndex(f: TextFile<IndexLine>) returns (idToName: map<int, string>, nameToId: map<string, int>)
    ensures forall node :: Get(idToName, node) == LastNameOf(Processed(f), node)
    ensures forall name :: Get(nameToId, name) == LastIdOf(Processed(f), name)
  {
    idToName, nameToId := map[], map[];
    ghost var lines := Processed(f);
    var i := 0;
    while true
      invariant 0 <= i <= |lines|
      invariant Indexes(lines[..i], idToName, nameToId)
      decreases |f.lines| - i
    {
      if i == |f.lines| || (i == |f.lines| - 1 && !f.endsWithNewline) {
        break;
      }
      var line := f.lines[i];
      assert lines[..i + 1] == lines[..i] + [line];
      IndexStepKeepsIndexes(lines[..i], idToName, nameToId, line);
      var next := IndexStep(idToName, nameToId, line);
      idToName, nameToId := next.0, next.1;
      i := i + 1;
    }
    assert lines[..i] == lines;
  }

  /** No two entries share a name or a node. */
  ghost predicate OneToOne(lines: seq<IndexLine>)
  {
    forall i, j ::
      && 0 <= i < |lines| && 0 <= j < |lines| && lines[i].Entry? && lines[j].Entry?
      && (lines[i].name == lines[j].name || lines[i].node == lines[j].node)
      ==> i == j
  }

  /** When names and nodes correspond one to one, the two maps are inverse to each other. */
  lemma MapsInverseWhenOneToOne(lines: seq<IndexLine>, node: int)
    requires OneToOne(lines)
    ensures LastNameOf(lines, node).Some? ==> LastIdOf(lines, LastNameOf(lines, node).value) == Some(node)
  {
    if LastNameOf(lines, node).Some? {
      var name := LastNameOf(lines, node).value;
      var i :| 0 <= i < |lines| && lines[i] == Entry(name, node);
      assert !(forall k :: 0 <= k < |lines| ==> !EntryNamed(name, lines[k])) by {
        assert EntryNamed(name, lines[i]);
      }
      var id := LastIdOf(lines, name).value;
      var j :| 0 <= j < |lines| && lines[j] == Entry(name, id);
      assert i == j;
    }
  }

  /** Later lines overwrite earlier ones, so one name given to two nodes names both, while
      the name leads back only to the later node. */
  lemma SharedNameLeadsToLastNode()
    ensures var lines := [Entry("a", 1), Entry("a", 2)];
            && LastNameOf(lines, 1) == Some("a") && LastNameOf(lines, 2) == Some("a")
            && LastIdOf(lines, "a") == Some(2)
  {
    var lines := [Entry("a", 1), Entry("a", 2)];
    assert lines[..1] == [Entry("a", 1)];
  }

  /** The program exits as soon as this many seed tokens have been read from one line. */
  const SeedCap: nat := 200

  /** The seeds of one round, or the program's exit with the given code. */
  datatype SeedOutcome = Seeds(seeds: set<int>) | Exit(code: int)

  /** The elements of a sequence of tokens. */
  function Elements<T(!new)>(tokens: seq<T>): (r: set<T>)
    ensures forall x :: x in r <==> exists i :: 0 <= i < |tokens| && tokens[i] == x
  {
    set i | 0 <= i < |tokens| :: tokens[i]
  }

  /** Seed ids read as integers: lines 214-222 from an interactive line (`capped`), where
      the 200th token ends the program with -1, or lines 225-229 without an index file from
      the command line, with no limit. */
  method CollectSeedIds(tokens: seq<int>, capped: bool) returns (r: SeedOutcome)
    ensures capped && |tokens| >= SeedCap ==> r == Exit(-1)
    ensures !(capped && |tokens| >= SeedCap) ==> r == Seeds(Elements(tokens))
  {
    var seeds: set<int> := {};
    var c := 0;
    var i := 0;
    while i < |tokens|
      invariant 0 <= i <= |tokens|
      invariant c == i
      invariant capped ==> c < SeedCap
      invariant seeds == Elements(tokens[..i])
    {
      assert tokens[..i + 1] == tokens[..i] + [tokens[i]];
      seeds := seeds + {tokens[i]};
      c := c + 1;
      i := i + 1;
      if capped && c == SeedCap {
        return Exit(-1);
      }
    }
    assert tokens[..i] == tokens;
    return Seeds(seeds);
  }

  /** `name_to_id_map[name]`: the stored id, or the 0 that `operator[]` inserts. */
  function IdOf(nameToId: map<string, int>, name: string): (r: int)
    ensures name in nameToId ==> r == nameToId[name]
    ensures name !in nameToId ==> r == 0
  {
    if name in nameToId then nameToId[name] else 0
  }

  /** The map after `operator[]` has been applied to each token: unknown names are added
      with id 0 and known ones keep theirs. */
  function WithDefaults(nameToId: map<string, int>, tokens: seq<string>): (r: map<string, int>)
    ensures r.Keys == nameToId.Keys + Elements(tokens)
    ensures forall name :: name in r ==> r[name] == IdOf(nameToId, name)
  {
    map name | name in nameToId.Keys + Elements(tokens) :: IdOf(nameToId, name)
  }

  /** The ids of a sequence of seed names, with 0 for an unknown name. */
  function SeedIds(nameToId: map<string, int>, tokens: seq<string>): (r: set<int>)
    ensures forall x :: x in r <==> exists i :: 0 <= i < |tokens| && IdOf(nameToId, tokens[i]) == x
  {
    set i | 0 <= i < |tokens| :: IdOf(nameToId, tokens[i])
  }

  lemma WithDefaultsSnoc(nameToId: map<string, int>, tokens: seq<string>, name: string)
    ensures var m := WithDefaults(nameToId, tokens);
            && IdOf(m, name) == IdOf(nameToId, name)
            && WithDefaults(nameToId, tokens + [name]) == if name in m then m else m[name := 0]
    ensures SeedIds(nameToId, tokens + [name]) == SeedIds(nameToId, tokens) + {IdOf(nameToId, name)}
  {
    assert Elements(tokens + [name]) == Elements(tokens) + {name} by {
      assert forall i :: 0 <= i < |tokens| ==> (tokens + [name])[i] == tokens[i];
      assert (tokens + [name])[|tokens|] == name;
    }
    assert forall i :: 0 <= i < |tokens| ==> (tokens + [name])[i] == tokens[i];
    assert (tokens + [name])[|tokens|] == name;
  }

  /** Seed names looked up in `name_to_id_map`: lines 205-213 from an interactive line
      (`capped`), or lines 225-227 from the command line. Each lookup goes through
      `operator[]`, which adds an unknown name with id 0, so the map changes too. */
  method CollectSeedNames(tokens: seq<string>, nameToId: map<string, int>, capped: bool)
    returns (r: SeedOutcome, after: map<string, int>)
    ensures capped && |tokens| >= SeedCap ==> r == Exit(-1) && after == WithDefaults(nameToId, tokens[..SeedCap])
    ensures !(capped && |tokens| >= SeedCap) ==>
              r == Seeds(SeedIds(nameToId, tokens)) && after == WithDefaults(nameToId, tokens)
  {
    var seeds: set<int> := {};
    after := nameToId;
    var c := 0;
    var i := 0;
    while i < |tokens|
      invariant 0 <= i <= |tokens|
      invariant c == i
      invariant capped ==> c < SeedCap
      invariant seeds == SeedIds(nameToId, tokens[..i])
      invariant after == WithDefaults(nameToId, tokens[..i])
    {
      var seed := tokens[i];
      assert tokens[..i + 1] == tokens[..i] + [seed];
      WithDefaultsSnoc(nameToId, tokens[..i], seed);
      if seed !in after {
        after := after[seed := 0];
      }
      seeds := seeds + {after[seed]};
      c := c + 1;
      i := i + 1;
      if capped && c == SeedCap {
        return Exit(-1), after;
      }
    }
    assert tokens[..i] == tokens;
    return Seeds(seeds), after;
  }

  /** Looking names up never changes the id of a name the index file gave, and a known
      name's seed is its id. */
  lemma LookupKeepsKnownIds(nameToId: map<string, int>, tokens: seq<string>, name: string)
    requires name in nameToId
    ensures WithDefaults(nameToId, tokens)[name] == nameToId[name]
    ensures name in Elements(tokens) ==> nameToId[name] in SeedIds(nameToId, tokens)
  {
    if name in Elements(tokens) {
      var i :| 0 <= i < |tokens| && tokens[i] == name;
      assert IdOf(nameToId, tokens[i]) == nameToId[name];
    }
  }
}
