/**
 * The memory graph as an abstract store.  A node is identified by its index
 * in `nodes`; nodes are only ever appended, or have a property set, so an
 * index stays valid.  MATCH finds every node a pattern fits, MERGE of a node
 * is "the nodes that fit, or else one new node", CREATE always inserts, and
 * MERGE of an edge between two bound node lists adds every missing pair.
 * The Cypher driver, the labels used only for display and the node
 * properties nothing reads back are not modelled.
 */
module GraphStore {

  import opened Wrappers

  /** The per-word properties the perceptual stage adds to a Word node. */
  datatype WordTags = WordTags(pos: string, posLong: string, namedEntity: string)

  /** Timestamps are instants: the source's ISO strings of one format order as they do. */
  datatype Node =
    | TextNode(fullText: string, timestamp: nat, ip: string)
    | SentenceNode(sentenceText: string)
    | WordNode(wordText: string, tags: Option<WordTags>)
    | UserNode(email: string)
    | AgentNode(name: string)
    | EpisodeNode(sessionId: string, startTime: nat, endTime: Option<nat>)
    | InteractionNode(interactionId: string, timestamp: nat, userEmail: string)

  datatype Rel =
    | HasASentence | NextSentence | HasAWord | NextWord
    | HasEpisode | NextEpisode | HasInteraction | NextInteraction
    | HasUserResponse | HasBotResponse | Generated

  datatype Edge = Edge(src: nat, rel: Rel, dst: nat)

  datatype Graph = Graph(nodes: seq<Node>, edges: set<Edge>)

  /** The node patterns the memory code matches or merges on. */
  datatype Pattern =
    | TextKey(fullText: string, timestamp: nat, ip: string)
    | TextOf(fullText: string)
    | TextAt(fullText: string, timestamp: nat)
    | SentenceOf(sentenceText: string)
    | WordOf(wordText: string)
    | TaggedWordKey(wordText: string, tags: WordTags)
    | UserOf(email: string)
    | AgentOf(name: string)
    | EpisodeOf(sessionId: string)
    | InteractionOf(interactionId: string)

  /** A node fits a pattern when it has the pattern's label and property values;
      properties the pattern does not name may be anything. */
  predicate Matches(n: Node, p: Pattern) {
    match p
    case TextKey(t, ts, ip) => n == TextNode(t, ts, ip)
    case TextOf(t) => n.TextNode? && n.fullText == t
    case TextAt(t, ts) => n.TextNode? && n.fullText == t && n.timestamp == ts
    case SentenceOf(s) => n == SentenceNode(s)
    case WordOf(w) => n.WordNode? && n.wordText == w
    case TaggedWordKey(w, tags) => n == WordNode(w, Some(tags))
    case UserOf(e) => n == UserNode(e)
    case AgentOf(a) => n == AgentNode(a)
    case EpisodeOf(sid) => n.EpisodeNode? && n.sessionId == sid
    case InteractionOf(id) => n.InteractionNode? && n.interactionId == id
  }

  /** MATCH: the indices of every node the pattern fits, in increasing order. */
  function Matching(nodes: seq<Node>, p: Pattern): (ids: seq<nat>)
    ensures forall i: nat :: i in ids <==> i < |nodes| && Matches(nodes[i], p)
    ensures forall j, k :: 0 <= j < k < |ids| ==> ids[j] < ids[k]
    decreases |nodes|
  {
    if nodes == [] then []
    else
      var init := nodes[..|nodes| - 1];
      var m := Matching(init, p);
      assert forall k :: 0 <= k < |m| ==> m[k] < |nodes| - 1 by {
        forall k | 0 <= k < |m| ensures m[k] < |nodes| - 1 {
          assert m[k] in m;
        }
      }
      m + (if Matches(nodes[|nodes| - 1], p) then [|nodes| - 1] else [])
  }

  /** A node MATCH binds is stored and fits. */
  lemma InMatching(nodes: seq<Node>, p: Pattern, i: nat)
    requires i in Matching(nodes, p)
    ensures i < |nodes| && Matches(nodes[i], p)
  {
  }

  /** When exactly one node fits, MATCH binds exactly that node. */
  lemma MatchingSingleton(nodes: seq<Node>, p: Pattern, i: nat)
    requires i < |nodes| && Matches(nodes[i], p)
    requires forall j: nat :: j < |nodes| && Matches(nodes[j], p) ==> j == i
    ensures Matching(nodes, p) == [i]
  {
    var ids := Matching(nodes, p);
    assert i in ids;
    assert ids[0] in ids && ids[|ids| - 1] in ids;
    assert ids[0] == i && ids[|ids| - 1] == i;
  }

  /** Appending one node adds its index to a MATCH exactly when it fits. */
  lemma MatchingSnoc(nodes: seq<Node>, n: Node, p: Pattern)
    ensures Matching(nodes + [n], p) == Matching(nodes, p) + (if Matches(n, p) then [|nodes|] else [])
  {
    var s := nodes + [n];
    assert s[..|s| - 1] == nodes && s[|s| - 1] == n;
  }

  lemma MatchingSnocMiss(nodes: seq<Node>, n: Node, p: Pattern)
    requires !Matches(n, p)
    ensures Matching(nodes + [n], p) == Matching(nodes, p)
  {
    MatchingSnoc(nodes, n, p);
  }

  lemma MatchingSnocHit(nodes: seq<Node>, n: Node, p: Pattern)
    requires Matches(n, p)
    ensures Matching(nodes + [n], p) == Matching(nodes, p) + [|nodes|]
  {
    MatchingSnoc(nodes, n, p);
  }

  /** Appending nodes a pattern does not fit leaves its MATCH unchanged. */
  lemma {:induction false} MatchingAppendNone(nodes: seq<Node>, more: seq<Node>, p: Pattern)
    requires forall i :: 0 <= i < |more| ==> !Matches(more[i], p)
    ensures Matching(nodes + more, p) == Matching(nodes, p)
    decreases |more|
  {
    if more == [] {
      assert nodes + more == nodes;
    } else {
      var init := more[..|more| - 1];
      assert nodes + more == (nodes + init) + [more[|more| - 1]];
      MatchingSnocMiss(nodes + init, more[|more| - 1], p);
      MatchingAppendNone(nodes, init, p);
    }
  }

  /** MERGE of a node: bind every node that fits, or create `n` when none does.
      Afterwards the bound nodes are exactly the ones that fit, and there is one. */
  function MergeNode(g: Graph, p: Pattern, n: Node): (r: (Graph, seq<nat>))
    requires Matches(n, p)
    ensures r.1 == Matching(r.0.nodes, p) && r.1 != []
    ensures Matching(g.nodes, p) != [] ==> r.0 == g
    ensures Matching(g.nodes, p) == [] ==> r.0 == Graph(g.nodes + [n], g.edges)
  {
    var m := Matching(g.nodes, p);
    if m != [] then (g, m)
    else
      var nodes := g.nodes + [n];
      assert nodes[..|nodes| - 1] == g.nodes;
      (Graph(nodes, g.edges), [|g.nodes|])
  }

  /** MERGE of an edge between two bound lists of nodes: every pair is linked. */
  function MergeEdges(g: Graph, srcs: seq<nat>, rel: Rel, dsts: seq<nat>): (r: Graph)
    ensures r.nodes == g.nodes
    ensures forall e :: e in r.edges <==> e in g.edges || (e.rel == rel && e.src in srcs && e.dst in dsts)
  {
    Graph(g.nodes, g.edges + PairEdges(srcs, rel, dsts))
  }

  /** Every `rel` edge from one of `srcs` to one of `dsts`. */
  function PairEdges(srcs: seq<nat>, rel: Rel, dsts: seq<nat>): set<Edge> {
    set a, b | a in srcs && b in dsts :: Edge(a, rel, b)
  }

  /** MATCH ... CREATE ... MERGE (row)-[rel]->(new): one new node per bound row,
      each linked from its row. */
  function CreateLinked(g: Graph, rows: seq<nat>, rel: Rel, n: Node): (r: Graph)
    ensures |r.nodes| == |g.nodes| + |rows|
    ensures forall i :: 0 <= i < |g.nodes| ==> r.nodes[i] == g.nodes[i]
    ensures forall i :: |g.nodes| <= i < |r.nodes| ==> r.nodes[i] == n
    ensures forall e :: e in r.edges <==>
      e in g.edges || (e.rel == rel && |g.nodes| <= e.dst < |r.nodes| && e.src == rows[e.dst - |g.nodes|])
    decreases |rows|
  {
    if rows == [] then g
    else
      var g1 := CreateLinked(g, rows[..|rows| - 1], rel, n);
      Graph(g1.nodes + [n], g1.edges + {Edge(rows[|rows| - 1], rel, |g1.nodes|)})
  }

  /** CREATE under a single bound row adds one node and one edge. */
  lemma CreateLinkedOne(g: Graph, row: nat, rel: Rel, n: Node)
    ensures CreateLinked(g, [row], rel, n) == Graph(g.nodes + [n], g.edges + {Edge(row, rel, |g.nodes|)})
  {
    assert [row][..0] == [];
  }

  /** MATCH (e:Episode {session_id}) SET e.end_time: every episode of that id gets it. */
  function SetEndTime(g: Graph, sid: string, t: nat): (r: Graph)
    ensures |r.nodes| == |g.nodes| && r.edges == g.edges
    ensures forall i :: 0 <= i < |g.nodes| ==>
      r.nodes[i] == if Matches(g.nodes[i], EpisodeOf(sid)) then g.nodes[i].(endTime := Some(t)) else g.nodes[i]
  {
    Graph(seq(|g.nodes|, i requires 0 <= i < |g.nodes| =>
      if Matches(g.nodes[i], EpisodeOf(sid)) then g.nodes[i].(endTime := Some(t)) else g.nodes[i]), g.edges)
  }

  // ---------------------------------------------------------------------------
  // How one store relates to a later one
  // ---------------------------------------------------------------------------

  /** `h` keeps every node of `g` at its index and every edge of `g`. */
  predicate Extends(g: Graph, h: Graph) {
    |g.nodes| <= |h.nodes|
    && (forall i :: 0 <= i < |g.nodes| ==> h.nodes[i] == g.nodes[i])
    && g.edges <= h.edges
  }

  lemma ExtendsTrans(g: Graph, h: Graph, k: Graph)
    requires Extends(g, h) && Extends(h, k)
    ensures Extends(g, k)
  {
  }

  /** A node that fits a pattern still fits it in any extension. */
  lemma MatchingExtends(g: Graph, h: Graph, p: Pattern)
    requires Extends(g, h)
    ensures forall i :: i in Matching(g.nodes, p) ==> i in Matching(h.nodes, p)
    ensures Matching(g.nodes, p) != [] ==> Matching(h.nodes, p) != []
  {
    if Matching(g.nodes, p) != [] {
      var i := Matching(g.nodes, p)[0];
      assert i in Matching(g.nodes, p);
      assert i in Matching(h.nodes, p);
    }
  }

  lemma MergeNodeExtends(g: Graph, p: Pattern, n: Node)
    requires Matches(n, p)
    ensures Extends(g, MergeNode(g, p, n).0)
  {
    var h := MergeNode(g, p, n).0;
    if Matching(g.nodes, p) == [] {
      assert h.nodes == g.nodes + [n] && h.edges == g.edges;
      forall i | 0 <= i < |g.nodes| ensures h.nodes[i] == g.nodes[i] {
      }
    } else {
      assert h == g;
    }
  }

  /** The only node a MERGE can add is the one it was given. */
  lemma MergeNodeAdds(g: Graph, p: Pattern, n: Node)
    requires Matches(n, p)
    ensures forall i :: |g.nodes| <= i < |MergeNode(g, p, n).0.nodes| ==> MergeNode(g, p, n).0.nodes[i] == n
  {
    if Matching(g.nodes, p) == [] {
      assert MergeNode(g, p, n).0.nodes == g.nodes + [n];
    } else {
      assert MergeNode(g, p, n).0 == g;
    }
  }

  /** A CREATE under at least one row after a step that added only `m` nodes:
      the store grows, ends with `n`, and holds nothing new but `m` and `n`. */
  lemma CreateLinkedAfter(g: Graph, h: Graph, rows: seq<nat>, rel: Rel, n: Node, m: Node)
    requires Extends(g, h) && rows != []
    requires forall i :: |g.nodes| <= i < |h.nodes| ==> h.nodes[i] == m
    ensures Extends(g, CreateLinked(h, rows, rel, n))
    ensures |CreateLinked(h, rows, rel, n).nodes| > |g.nodes|
    ensures CreateLinked(h, rows, rel, n).nodes[|CreateLinked(h, rows, rel, n).nodes| - 1] == n
    ensures forall i :: |g.nodes| <= i < |CreateLinked(h, rows, rel, n).nodes| ==>
      CreateLinked(h, rows, rel, n).nodes[i] == m || CreateLinked(h, rows, rel, n).nodes[i] == n
  {
    var r := CreateLinked(h, rows, rel, n);
    assert Extends(h, r);
    ExtendsTrans(g, h, r);
    forall i | |g.nodes| <= i < |r.nodes| ensures r.nodes[i] == m || r.nodes[i] == n {
      if i < |h.nodes| {
        assert r.nodes[i] == h.nodes[i];
      }
    }
  }

  /** Some edge labelled `rel` runs from a node fitting `p` to one fitting `q`. */
  predicate Linked(g: Graph, p: Pattern, rel: Rel, q: Pattern) {
    exists e :: e in g.edges && e.rel == rel && e.src < |g.nodes| && e.dst < |g.nodes|
      && Matches(g.nodes[e.src], p) && Matches(g.nodes[e.dst], q)
  }

  lemma LinkedExtends(g: Graph, h: Graph, p: Pattern, rel: Rel, q: Pattern)
    requires Extends(g, h) && Linked(g, p, rel, q)
    ensures Linked(h, p, rel, q)
  {
    var e :| e in g.edges && e.rel == rel && e.src < |g.nodes| && e.dst < |g.nodes|
      && Matches(g.nodes[e.src], p) && Matches(g.nodes[e.dst], q);
    assert e in h.edges;
  }

  /** Merging edges between two non-empty bindings links the two patterns. */
  lemma MergeEdgesLinks(g: Graph, p: Pattern, rel: Rel, q: Pattern)
    requires Matching(g.nodes, p) != [] && Matching(g.nodes, q) != []
    ensures Linked(MergeEdges(g, Matching(g.nodes, p), rel, Matching(g.nodes, q)), p, rel, q)
  {
    var srcs, dsts := Matching(g.nodes, p), Matching(g.nodes, q);
    var a, b := srcs[0], dsts[0];
    assert a in srcs && b in dsts;
    var r := MergeEdges(g, srcs, rel, dsts);
    var e := Edge(a, rel, b);
    assert e in r.edges;
    assert e.src < |r.nodes| && Matches(r.nodes[e.src], p);
    assert e.dst < |r.nodes| && Matches(r.nodes[e.dst], q);
  }

  /** Every edge joins two stored nodes. */
  predicate Closed(g: Graph) {
    forall e :: e in g.edges ==> e.src < |g.nodes| && e.dst < |g.nodes|
  }

  lemma MergeNodeClosed(g: Graph, p: Pattern, n: Node)
    requires Matches(n, p) && Closed(g)
    ensures Closed(MergeNode(g, p, n).0)
  {
  }

  /** Merging edges between two MATCH results keeps the store closed. */
  lemma MergeEdgesClosed(g: Graph, p: Pattern, rel: Rel, q: Pattern)
    requires Closed(g)
    ensures Closed(MergeEdges(g, Matching(g.nodes, p), rel, Matching(g.nodes, q)))
  {
  }

  lemma CreateLinkedClosed(g: Graph, rows: seq<nat>, rel: Rel, n: Node)
    requires Closed(g) && forall k :: 0 <= k < |rows| ==> rows[k] < |g.nodes|
    ensures Closed(CreateLinked(g, rows, rel, n))
  {
  }

  // ---------------------------------------------------------------------------
  // The store as an object the memory code updates in place
  // ---------------------------------------------------------------------------

  class MemoryStore {
    var nodes: seq<Node>
    var edges: set<Edge>

    function State(): Graph
      reads this
    {
      Graph(nodes, edges)
    }

    constructor ()
      ensures State() == Graph([], {})
    {
      nodes := [];
      edges := {};
    }

    method Merge(p: Pattern, n: Node) returns (rows: seq<nat>)
      requires Matches(n, p)
      modifies this
      ensures (State(), rows) == MergeNode(old(State()), p, n)
    {
      rows := Matching(nodes, p);
      if rows == [] {
        rows := [|nodes|];
        nodes := nodes + [n];
      }
    }

    method Link(srcs: seq<nat>, rel: Rel, dsts: seq<nat>)
      modifies this
      ensures State() == MergeEdges(old(State()), srcs, rel, dsts)
    {
      edges := edges + set a, b | a in srcs && b in dsts :: Edge(a, rel, b);
    }

    /** One CREATE per bound row, in row order. */
    method CreateFor(rows: seq<nat>, rel: Rel, n: Node)
      modifies this
      ensures State() == CreateLinked(old(State()), rows, rel, n)
    {
      ghost var g0 := State();
      for k := 0 to |rows|
        invariant State() == CreateLinked(g0, rows[..k], rel, n)
      {
        assert rows[..k + 1][..k] == rows[..k];
        assert rows[..k + 1][k] == rows[k];
        edges := edges + {Edge(rows[k], rel, |nodes|)};
        nodes := nodes + [n];
      }
      assert rows[..|rows|] == rows;
    }

    method SetEnd(sid: string, t: nat)
      modifies this
      ensures State() == SetEndTime(old(State()), sid, t)
    {
      nodes := SetEndTime(State(), sid, t).nodes;
    }
  }
}
