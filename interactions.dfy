/**
 * The NEXT_INTERACTION chain of one episode.  Every `create_interaction` looks
 * up the episode's interaction that has no successor yet, creates the new
 * interaction under the episode and links the two.  When the session's
 * episode id names exactly one Episode node and every new interaction id is
 * fresh, the interactions of the episode form one path, in call order, and
 * no interaction has two successors or two predecessors.
 */
module InteractionChain {

  import opened Wrappers
  import opened GraphStore
  import opened SensoryMemory
  import opened EpisodicMemory

  // ---------------------------------------------------------------------------
  // The chain invariant
  // ---------------------------------------------------------------------------

  /** Interaction edges only join stored nodes. */
  predicate InteractionEdgesClosed(g: Graph) {
    forall e :: e in g.edges && (e.rel == HasInteraction || e.rel == NextInteraction) ==>
      e.src < |g.nodes| && e.dst < |g.nodes|
  }

  predicate Increasing(ids: seq<nat>) {
    forall j, k :: 0 <= j < k < |ids| ==> ids[j] < ids[k]
  }

  /** The HAS_INTERACTION edges from `ep` lead to exactly the nodes `ids`. */
  predicate UnderEpisode(g: Graph, ep: nat, ids: seq<nat>) {
    (forall e :: e in g.edges && e.rel == HasInteraction && e.src == ep ==> e.dst in ids)
    && (forall k :: 0 <= k < |ids| ==> Edge(ep, HasInteraction, ids[k]) in g.edges)
  }

  /** NEXT_INTERACTION runs from each of `ids` to the next one. */
  predicate Consecutive(g: Graph, ids: seq<nat>) {
    forall k :: 0 <= k < |ids| - 1 ==> Edge(ids[k], NextInteraction, ids[k + 1]) in g.edges
  }

  /** Every NEXT_INTERACTION edge touching `ids` is one of those. */
  predicate NoBranching(g: Graph, ids: seq<nat>) {
    (forall e, k :: e in g.edges && e.rel == NextInteraction && 0 <= k < |ids| && e.src == ids[k] ==>
       k + 1 < |ids| && e.dst == ids[k + 1])
    && (forall e, k :: e in g.edges && e.rel == NextInteraction && 0 <= k < |ids| && e.dst == ids[k] ==>
       0 < k && e.src == ids[k - 1])
  }

  /** Episode `sid` is the single Episode node `ep`; its interactions are the
      nodes `ids`, stored in that order, each the only Interaction node with the
      matching id of `iids`, and NEXT_INTERACTION links them into one path. */
  predicate IsChain(g: Graph, sid: string, ep: nat, iids: seq<string>, ids: seq<nat>) {
    Matching(g.nodes, EpisodeOf(sid)) == [ep]
    && |ids| == |iids|
    && (forall k :: 0 <= k < |iids| ==> Matching(g.nodes, InteractionOf(iids[k])) == [ids[k]])
    && InteractionEdgesClosed(g)
    && Increasing(ids) && UnderEpisode(g, ep, ids) && Consecutive(g, ids) && NoBranching(g, ids)
  }

  /** The only episode of `sid` is the last node. */
  predicate EpisodeIsLast(h: Graph, sid: string) {
    h.nodes != [] && Matching(h.nodes, EpisodeOf(sid)) == [|h.nodes| - 1]
  }

  /** Every interaction edge of `h` is already in `g`. */
  predicate AddsNoInteractionEdge(g: Graph, h: Graph) {
    forall e :: e in h.edges && (e.rel == HasInteraction || e.rel == NextInteraction) ==> e in g.edges
  }

  /** No Interaction node has id `iid`. */
  predicate Fresh(g: Graph, iid: string) {
    Matching(g.nodes, InteractionOf(iid)) == []
  }

  // ---------------------------------------------------------------------------
  // Writes that leave the chain alone
  // ---------------------------------------------------------------------------

  /** `h` adds no Episode or Interaction node and no interaction edge to `g`. */
  predicate ChainFrame(g: Graph, h: Graph) {
    Extends(g, h)
    && (forall i :: |g.nodes| <= i < |h.nodes| ==> !h.nodes[i].EpisodeNode? && !h.nodes[i].InteractionNode?)
    && (forall e :: e in h.edges && e !in g.edges ==> e.rel != HasInteraction && e.rel != NextInteraction)
  }

  lemma ChainFrameTrans(g: Graph, h: Graph, k: Graph)
    requires ChainFrame(g, h) && ChainFrame(h, k)
    ensures ChainFrame(g, k)
  {
  }

  lemma SensoryChainFrame(g: Graph, h: Graph)
    requires SensoryGrowth(g, h)
    ensures ChainFrame(g, h)
  {
  }

  /** A frame write leaves every episode and interaction MATCH as it was. */
  lemma FrameMatching(g: Graph, h: Graph, p: Pattern)
    requires ChainFrame(g, h) && (p.EpisodeOf? || p.InteractionOf?)
    ensures Matching(h.nodes, p) == Matching(g.nodes, p)
  {
    var more := h.nodes[|g.nodes|..];
    assert h.nodes == g.nodes + more;
    MatchingAppendNone(g.nodes, more, p);
  }

  /** A frame write keeps the chain. */
  lemma FrameKeepsChain(g: Graph, h: Graph, sid: string, ep: nat, iids: seq<string>, ids: seq<nat>)
    requires IsChain(g, sid, ep, iids, ids) && ChainFrame(g, h)
    ensures IsChain(h, sid, ep, iids, ids)
  {
    FrameMatching(g, h, EpisodeOf(sid));
    forall k | 0 <= k < |iids| ensures Matching(h.nodes, InteractionOf(iids[k])) == [ids[k]] {
      FrameMatching(g, h, InteractionOf(iids[k]));
    }
  }

  lemma FrameKeepsFresh(g: Graph, h: Graph, iid: string)
    requires Fresh(g, iid) && ChainFrame(g, h)
    ensures Fresh(h, iid)
  {
    FrameMatching(g, h, InteractionOf(iid));
  }

  // ---------------------------------------------------------------------------
  // The lookup of the open interaction
  // ---------------------------------------------------------------------------

  /** An open interaction of the episode is the last one of the chain. */
  lemma OpenIsLast(g: Graph, sid: string, ep: nat, ids: seq<nat>, i: nat)
    requires Matching(g.nodes, EpisodeOf(sid)) == [ep] && UnderEpisode(g, ep, ids) && Consecutive(g, ids)
    requires Candidate(g, OpenInteractionsOf(sid), i)
    ensures ids != [] && i == ids[|ids| - 1]
  {
    var e :| e in g.edges && e.rel == HasInteraction && e.dst == i && e.src < |g.nodes|
      && Matches(g.nodes[e.src], EpisodeOf(sid));
    assert e.src in Matching(g.nodes, EpisodeOf(sid));
    assert i in ids;
    forall j | 0 <= j < |ids| - 1 ensures ids[j] != i {
      assert Edge(ids[j], NextInteraction, ids[j + 1]) in g.edges;
    }
    var k :| 0 <= k < |ids| && ids[k] == i;
  }

  /** The last interaction of the chain is open. */
  lemma LastIsOpen(g: Graph, sid: string, ep: nat, ids: seq<nat>)
    requires Matching(g.nodes, EpisodeOf(sid)) == [ep] && UnderEpisode(g, ep, ids) && NoBranching(g, ids)
    requires ids != [] && ids[|ids| - 1] < |g.nodes| && g.nodes[ids[|ids| - 1]].InteractionNode?
    ensures Candidate(g, OpenInteractionsOf(sid), ids[|ids| - 1])
  {
    assert ep in Matching(g.nodes, EpisodeOf(sid));
    assert Edge(ep, HasInteraction, ids[|ids| - 1]) in g.edges;
  }

  /** So the lookup `create_interaction` makes finds the chain's last interaction. */
  lemma ChainLatest(g: Graph, sid: string, ep: nat, iids: seq<string>, ids: seq<nat>)
    requires IsChain(g, sid, ep, iids, ids)
    ensures Latest(g, OpenInteractionsOf(sid)) == if ids == [] then None else Some(ids[|ids| - 1])
  {
    var q := OpenInteractionsOf(sid);
    LatestExact(g, q);
    var r := Latest(g, q);
    if ids != [] {
      var last := |ids| - 1;
      assert ids[last] in Matching(g.nodes, InteractionOf(iids[last]));
      LastIsOpen(g, sid, ep, ids);
      assert r.Some?;
    }
    if r.Some? {
      OpenIsLast(g, sid, ep, ids, r.value);
    }
  }

  /** The id the lookup returns is the chain's last id. */
  lemma ChainOpenId(g: Graph, sid: string, ep: nat, iids: seq<string>, ids: seq<nat>)
    requires IsChain(g, sid, ep, iids, ids)
    ensures OpenInteractionId(g, sid) == if iids == [] then None else Some(iids[|iids| - 1])
  {
    ChainLatest(g, sid, ep, iids, ids);
    if ids != [] {
      var last := |ids| - 1;
      assert ids[last] in Matching(g.nodes, InteractionOf(iids[last]));
      InMatching(g.nodes, InteractionOf(iids[last]), ids[last]);
    }
  }

  // ---------------------------------------------------------------------------
  // One new interaction
  // ---------------------------------------------------------------------------

  /** Appending the Interaction node `n` of a fresh id leaves the single match
      of any other id where it was. */
  lemma SnocKeepsId(nodes: seq<Node>, n: Node, x: string, i: nat)
    requires n.InteractionNode? && Matching(nodes, InteractionOf(n.interactionId)) == []
    requires Matching(nodes, InteractionOf(x)) == [i]
    ensures Matching(nodes + [n], InteractionOf(x)) == [i]
  {
    assert Matching(nodes, InteractionOf(x)) != Matching(nodes, InteractionOf(n.interactionId));
    MatchingSnocMiss(nodes, n, InteractionOf(x));
  }

  /** The edges of `h` are those of `g`, the HAS_INTERACTION edge from `ep` to
      the new node `n`, and the NEXT_INTERACTION edge to it from the last of `ids`. */
  ghost predicate AddsLink(g: Graph, h: Graph, ep: nat, ids: seq<nat>, n: nat) {
    forall e :: e in h.edges <==>
      e in g.edges
      || (e.rel == HasInteraction && e.src == ep && e.dst == n)
      || (ids != [] && e.rel == NextInteraction && e.src == ids[|ids| - 1] && e.dst == n)
  }

  /** The store after a new interaction node `n` joins the chain `ids` under `ep`. */
  function ChainStep(g: Graph, ep: nat, ids: seq<nat>, n: Node): Graph {
    var g1 := Graph(g.nodes + [n], g.edges + {Edge(ep, HasInteraction, |g.nodes|)});
    if ids == [] then g1 else MergeEdges(g1, [ids[|ids| - 1]], NextInteraction, [|g.nodes|])
  }

  lemma ChainStepLinks(g: Graph, ep: nat, ids: seq<nat>, n: Node)
    ensures AddsLink(g, ChainStep(g, ep, ids, n), ep, ids, |g.nodes|)
  {
    var h := ChainStep(g, ep, ids, n);
    forall e: Edge
      ensures e in h.edges <==> (e in g.edges
        || (e.rel == HasInteraction && e.src == ep && e.dst == |g.nodes|)
        || (ids != [] && e.rel == NextInteraction && e.src == ids[|ids| - 1] && e.dst == |g.nodes|))
    {
      assert e == Edge(e.src, e.rel, e.dst);
    }
  }

  /** What `AddInteraction` writes on a chain: the new node, its HAS_INTERACTION
      edge from the episode and, when the chain is not empty, the NEXT_INTERACTION
      edge from the chain's last interaction. */
  lemma AddInteractionShape(g: Graph, sid: string, ep: nat, ids: seq<nat>, lastId: string,
                            iid: string, time: nat, email: string)
    requires Matching(g.nodes, EpisodeOf(sid)) == [ep] && Fresh(g, iid)
    requires OpenInteractionId(g, sid) == if ids == [] then None else Some(lastId)
    requires ids != [] ==> Matching(g.nodes, InteractionOf(lastId)) == [ids[|ids| - 1]]
    ensures AddInteraction(g, sid, iid, time, email) == ChainStep(g, ep, ids, InteractionNode(iid, time, email))
  {
    var n := InteractionNode(iid, time, email);
    CreateLinkedOne(g, ep, HasInteraction, n);
    var g1 := CreateLinked(g, Matching(g.nodes, EpisodeOf(sid)), HasInteraction, n);
    assert g1 == Graph(g.nodes + [n], g.edges + {Edge(ep, HasInteraction, |g.nodes|)});
    if ids != [] {
      MatchingSnocHit(g.nodes, n, InteractionOf(iid));
      SnocKeepsId(g.nodes, n, lastId, ids[|ids| - 1]);
      assert AddInteraction(g, sid, iid, time, email)
          == MergeEdges(g1, [ids[|ids| - 1]], NextInteraction, [|g.nodes|]);
    } else {
      assert AddInteraction(g, sid, iid, time, email) == g1;
    }
  }

  lemma UnderEpisodeSnoc(g: Graph, h: Graph, ep: nat, ids: seq<nat>)
    requires UnderEpisode(g, ep, ids) && AddsLink(g, h, ep, ids, |g.nodes|)
    ensures UnderEpisode(h, ep, ids + [|g.nodes|])
  {
    var all := ids + [|g.nodes|];
    forall e | e in h.edges && e.rel == HasInteraction && e.src == ep ensures e.dst in all {
      if e in g.edges {
        assert e.dst in ids;
      }
    }
  }

  lemma ConsecutiveSnoc(g: Graph, h: Graph, ep: nat, ids: seq<nat>)
    requires Consecutive(g, ids) && AddsLink(g, h, ep, ids, |g.nodes|)
    ensures Consecutive(h, ids + [|g.nodes|])
  {
    var all := ids + [|g.nodes|];
    forall k | 0 <= k < |all| - 1 ensures Edge(all[k], NextInteraction, all[k + 1]) in h.edges {
      if k < |ids| - 1 {
        assert Edge(ids[k], NextInteraction, ids[k + 1]) in g.edges;
      }
    }
  }

  lemma NoBranchingSnoc(g: Graph, h: Graph, ep: nat, ids: seq<nat>)
    requires NoBranching(g, ids) && InteractionEdgesClosed(g) && AddsLink(g, h, ep, ids, |g.nodes|)
    requires Increasing(ids) && forall k :: 0 <= k < |ids| ==> ids[k] < |g.nodes|
    ensures NoBranching(h, ids + [|g.nodes|])
  {
    var all := ids + [|g.nodes|];
    forall e, k | e in h.edges && e.rel == NextInteraction && 0 <= k < |all| && e.src == all[k]
      ensures k + 1 < |all| && e.dst == all[k + 1]
    {
      if e in g.edges {
        assert k < |ids|;
        assert all[k] == ids[k];
      } else {
        assert e.src == ids[|ids| - 1];
        assert k == |ids| - 1;
      }
    }
    forall e, k | e in h.edges && e.rel == NextInteraction && 0 <= k < |all| && e.dst == all[k]
      ensures 0 < k && e.src == all[k - 1]
    {
      if e in g.edges {
        assert k < |ids|;
        assert all[k] == ids[k];
      }
    }
  }

  /** The node part of the step: the episode and every chained id keep their
      single match, and the fresh id gets the new node. */
  lemma ChainNodesSnoc(g: Graph, sid: string, ep: nat, iids: seq<string>, ids: seq<nat>, n: Node)
    requires IsChain(g, sid, ep, iids, ids) && n.InteractionNode? && Fresh(g, n.interactionId)
    ensures Matching(g.nodes + [n], EpisodeOf(sid)) == [ep]
    ensures forall k :: 0 <= k < |iids| + 1 ==>
      Matching(g.nodes + [n], InteractionOf((iids + [n.interactionId])[k])) == [(ids + [|g.nodes|])[k]]
    ensures forall k :: 0 <= k < |ids| ==> ids[k] < |g.nodes|
  {
    MatchingSnocMiss(g.nodes, n, EpisodeOf(sid));
    MatchingSnocHit(g.nodes, n, InteractionOf(n.interactionId));
    forall k | 0 <= k < |iids| + 1
      ensures Matching(g.nodes + [n], InteractionOf((iids + [n.interactionId])[k])) == [(ids + [|g.nodes|])[k]]
    {
      if k < |iids| {
        SnocKeepsId(g.nodes, n, iids[k], ids[k]);
      }
    }
    forall k | 0 <= k < |ids| ensures ids[k] < |g.nodes| {
      assert ids[k] in Matching(g.nodes, InteractionOf(iids[k]));
    }
  }

  lemma ClosedSnoc(g: Graph, h: Graph, ep: nat, ids: seq<nat>)
    requires InteractionEdgesClosed(g) && AddsLink(g, h, ep, ids, |g.nodes|) && |h.nodes| == |g.nodes| + 1
    requires ep < |g.nodes| && forall k :: 0 <= k < |ids| ==> ids[k] < |g.nodes|
    ensures InteractionEdgesClosed(h)
  {
    forall e | e in h.edges && (e.rel == HasInteraction || e.rel == NextInteraction)
      ensures e.src < |h.nodes| && e.dst < |h.nodes|
    {
      if e !in g.edges && e.rel == NextInteraction {
        assert e.src == ids[|ids| - 1];
      }
    }
  }

  /** Adding a fresh interaction node with its two edges extends the chain. */
  lemma ChainStepIsChain(g: Graph, sid: string, ep: nat, iids: seq<string>, ids: seq<nat>, n: Node)
    requires IsChain(g, sid, ep, iids, ids) && n.InteractionNode? && Fresh(g, n.interactionId)
    ensures IsChain(ChainStep(g, ep, ids, n), sid, ep, iids + [n.interactionId], ids + [|g.nodes|])
  {
    var h := ChainStep(g, ep, ids, n);
    ChainStepLinks(g, ep, ids, n);
    assert h.nodes == g.nodes + [n];
    ChainNodesSnoc(g, sid, ep, iids, ids, n);
    InMatching(g.nodes, EpisodeOf(sid), ep);
    LinksSnoc(g, h, ep, ids);
  }

  /** The edge part of the step: the longer chain is still ordered, under the
      episode, linked in order and without branches. */
  lemma LinksSnoc(g: Graph, h: Graph, ep: nat, ids: seq<nat>)
    requires AddsLink(g, h, ep, ids, |g.nodes|) && |h.nodes| == |g.nodes| + 1
    requires InteractionEdgesClosed(g) && Increasing(ids)
    requires UnderEpisode(g, ep, ids) && Consecutive(g, ids) && NoBranching(g, ids)
    requires ep < |g.nodes| && forall k :: 0 <= k < |ids| ==> ids[k] < |g.nodes|
    ensures InteractionEdgesClosed(h) && Increasing(ids + [|g.nodes|])
    ensures UnderEpisode(h, ep, ids + [|g.nodes|]) && Consecutive(h, ids + [|g.nodes|])
    ensures NoBranching(h, ids + [|g.nodes|])
  {
    var all := ids + [|g.nodes|];
    forall j, k | 0 <= j < k < |all| ensures all[j] < all[k] {
      if k < |ids| {
        assert all[j] == ids[j] && all[k] == ids[k];
      }
    }
    UnderEpisodeSnoc(g, h, ep, ids);
    ConsecutiveSnoc(g, h, ep, ids);
    NoBranchingSnoc(g, h, ep, ids);
    ClosedSnoc(g, h, ep, ids);
  }

  /** One `AddInteraction` on a chain with a fresh id appends that id, stored
      at the new node, to the chain. */
  lemma ChainGrows(g: Graph, sid: string, ep: nat, iids: seq<string>, ids: seq<nat>,
                   iid: string, time: nat, email: string)
    requires IsChain(g, sid, ep, iids, ids) && Fresh(g, iid)
    ensures IsChain(AddInteraction(g, sid, iid, time, email), sid, ep, iids + [iid], ids + [|g.nodes|])
  {
    var n := InteractionNode(iid, time, email);
    ChainOpenId(g, sid, ep, iids, ids);
    var lastId := if iids == [] then "" else iids[|iids| - 1];
    AddInteractionShape(g, sid, ep, ids, lastId, iid, time, email);
    ChainStepIsChain(g, sid, ep, iids, ids, n);
  }

  // ---------------------------------------------------------------------------
  // A new episode starts an empty chain
  // ---------------------------------------------------------------------------

  /** With at most one User node for the email, `AddEpisode` stores exactly one
      episode of an id not yet used: the last node. */
  lemma AddEpisodeMatching(g: Graph, email: string, sid: string, start: nat)
    requires Matching(g.nodes, EpisodeOf(sid)) == [] && |Matching(g.nodes, UserOf(email))| <= 1
    ensures Matching(AddEpisode(g, email, sid, start).nodes, EpisodeOf(sid)) == [|AddEpisode(g, email, sid, start).nodes| - 1]
  {
    var ep := EpisodeNode(sid, start, None);
    var (g1, users) := MergeNode(g, UserOf(email), UserNode(email));
    assert |users| == 1;
    CreateLinkedOne(g1, users[0], HasEpisode, ep);
    assert users == [users[0]];
    if Matching(g.nodes, UserOf(email)) == [] {
      MatchingSnocMiss(g.nodes, UserNode(email), EpisodeOf(sid));
    }
    MatchingSnocHit(g1.nodes, ep, EpisodeOf(sid));
  }

  /** The same holds of the whole `create_episode` write. */
  lemma CreateEpisodeMatching(g: Graph, email: string, sid: string, start: nat)
    requires Matching(g.nodes, EpisodeOf(sid)) == [] && |Matching(g.nodes, UserOf(email))| <= 1
    ensures EpisodeIsLast(CreateEpisodeGraph(g, email, sid, start), sid)
  {
    CreateEpisodeNodes(g, email, sid, start);
    AddEpisodeMatching(g, email, sid, start);
  }

  /** `create_episode` for an unused id starts that episode with no interaction. */
  lemma NewEpisodeStartsChain(g: Graph, email: string, sid: string, start: nat)
    requires Matching(g.nodes, EpisodeOf(sid)) == [] && |Matching(g.nodes, UserOf(email))| <= 1
    requires InteractionEdgesClosed(g)
    ensures IsChain(CreateEpisodeGraph(g, email, sid, start), sid, |CreateEpisodeGraph(g, email, sid, start).nodes| - 1, [], [])
  {
    CreateEpisodeMatching(g, email, sid, start);
    NoNewInteractionEdges(g, email, sid, start);
    EmptyChain(g, CreateEpisodeGraph(g, email, sid, start), sid);
  }

  lemma NoNewInteractionEdges(g: Graph, email: string, sid: string, start: nat)
    ensures AddsNoInteractionEdge(g, CreateEpisodeGraph(g, email, sid, start))
  {
    forall e | e in CreateEpisodeGraph(g, email, sid, start).edges && (e.rel == HasInteraction || e.rel == NextInteraction)
      ensures e in g.edges
    {
      OldInteractionEdge(g, email, sid, start, e);
    }
  }

  lemma OldInteractionEdge(g: Graph, email: string, sid: string, start: nat, e: Edge)
    requires e in CreateEpisodeGraph(g, email, sid, start).edges
    requires e.rel == HasInteraction || e.rel == NextInteraction
    ensures e in g.edges
  {
    CreateEpisodeFrame(g, email, sid, start);
    AddEpisodeEdges(g, email, sid, start, e);
  }

  /** A store whose only episode of `sid` is its last node, and which adds no
      interaction edge, holds the empty chain under that episode. */
  lemma EmptyChain(g: Graph, h: Graph, sid: string)
    requires EpisodeIsLast(h, sid)
    requires |g.nodes| < |h.nodes|
    requires InteractionEdgesClosed(g)
    requires AddsNoInteractionEdge(g, h)
    ensures IsChain(h, sid, |h.nodes| - 1, [], [])
  {
    var ep := |h.nodes| - 1;
    OldEdgesClosed(g, h);
    OldEdgesNoChild(g, h, ep);
  }

  /** Interaction edges copied from a closed store stay within a larger one. */
  lemma OldEdgesClosed(g: Graph, h: Graph)
    requires |g.nodes| <= |h.nodes| && InteractionEdgesClosed(g)
    requires AddsNoInteractionEdge(g, h)
    ensures InteractionEdgesClosed(h)
  {
  }

  /** A node beyond a closed store has no interaction child in a store that
      adds no interaction edge. */
  lemma OldEdgesNoChild(g: Graph, h: Graph, ep: nat)
    requires |g.nodes| <= ep && InteractionEdgesClosed(g)
    requires AddsNoInteractionEdge(g, h)
    ensures UnderEpisode(h, ep, [])
  {
  }

  // ---------------------------------------------------------------------------
  // One whole create_interaction call
  // ---------------------------------------------------------------------------

  lemma MergeNodeFrame(g: Graph, p: Pattern, n: Node)
    requires Matches(n, p) && !n.EpisodeNode? && !n.InteractionNode?
    ensures ChainFrame(g, MergeNode(g, p, n).0)
  {
    if Matching(g.nodes, p) == [] {
      AppendFrame(g, n);
    } else {
      assert MergeNode(g, p, n).0 == g;
    }
  }

  lemma AppendFrame(g: Graph, n: Node)
    requires !n.EpisodeNode? && !n.InteractionNode?
    ensures ChainFrame(g, Graph(g.nodes + [n], g.edges))
  {
    var h := Graph(g.nodes + [n], g.edges);
    forall i | 0 <= i < |g.nodes| ensures h.nodes[i] == g.nodes[i] {
    }
    forall i | |g.nodes| <= i < |h.nodes| ensures !h.nodes[i].EpisodeNode? && !h.nodes[i].InteractionNode? {
      assert i == |g.nodes|;
    }
  }

  lemma MergeEdgesFrame(g: Graph, srcs: seq<nat>, rel: Rel, dsts: seq<nat>)
    requires rel != HasInteraction && rel != NextInteraction
    ensures ChainFrame(g, MergeEdges(g, srcs, rel, dsts))
  {
  }

  lemma BotResponseFrame(g: Graph, iid: string, bot: Utterance)
    ensures ChainFrame(g, BotResponse(g, iid, bot))
  {
    var acts := Matching(g.nodes, InteractionOf(iid));
    var ts := Matching(g.nodes, TextAt(bot.text, bot.time));
    var agents := Matching(g.nodes, AgentOf(AgentName));
    if acts != [] && ts != [] && agents != [] {
      var g1 := MergeEdges(g, acts, HasBotResponse, ts);
      MergeEdgesFrame(g, acts, HasBotResponse, ts);
      MergeEdgesFrame(g1, agents, Generated, ts);
      ChainFrameTrans(g, g1, MergeEdges(g1, agents, Generated, ts));
    }
  }

  /** `AddInteraction` stores no Interaction node other than `iid`'s. */
  lemma AddInteractionKeepsFresh(g: Graph, sid: string, iid: string, time: nat, email: string, x: string)
    requires Fresh(g, x) && x != iid
    ensures Fresh(AddInteraction(g, sid, iid, time, email), x)
  {
    var g1 := CreateLinked(g, Matching(g.nodes, EpisodeOf(sid)), HasInteraction, InteractionNode(iid, time, email));
    var more := g1.nodes[|g.nodes|..];
    assert g1.nodes == g.nodes + more;
    MatchingAppendNone(g.nodes, more, InteractionOf(x));
  }

  /** The writes of one turn around the new interaction are frame writes, and
      the ones before it keep `iid` fresh. */
  lemma SensoryStepsFrame(g: Graph, user: Utterance, bot: Utterance)
    ensures ChainFrame(g, SaveSensory(SaveSensory(g, user.text, user.time, user.ip, user.sentences),
                                      bot.text, bot.time, bot.ip, bot.sentences))
  {
    var g1 := SaveSensory(g, user.text, user.time, user.ip, user.sentences);
    SaveSensoryGrowth(g, user.text, user.time, user.ip, user.sentences);
    SaveSensoryGrowth(g1, bot.text, bot.time, bot.ip, bot.sentences);
    SensoryChainFrame(g, g1);
    SensoryChainFrame(g1, SaveSensory(g1, bot.text, bot.time, bot.ip, bot.sentences));
    ChainFrameTrans(g, g1, SaveSensory(g1, bot.text, bot.time, bot.ip, bot.sentences));
  }

  /** The store `LinkInteraction` hands to `AddInteraction`. */
  function BeforeAdd(g: Graph, email: string, sid: string): (r: Graph)
    ensures ChainFrame(g, r)
  {
    MergeNodeFrame(g, AgentOf(AgentName), AgentNode(AgentName));
    var g1 := MergeNode(g, AgentOf(AgentName), AgentNode(AgentName)).0;
    MergeEdgesFrame(g1, Matching(g1.nodes, UserOf(email)), HasEpisode, Matching(g1.nodes, EpisodeOf(sid)));
    var r := MergeEdges(g1, Matching(g1.nodes, UserOf(email)), HasEpisode, Matching(g1.nodes, EpisodeOf(sid)));
    ChainFrameTrans(g, g1, r);
    r
  }

  lemma AfterAddFrame(g3: Graph, iid: string, user: Utterance, bot: Utterance)
    ensures ChainFrame(g3, BotResponse(MergeEdges(g3, Matching(g3.nodes, InteractionOf(iid)), HasUserResponse,
                                                  Matching(g3.nodes, TextAt(user.text, user.time))), iid, bot))
  {
    var g4 := MergeEdges(g3, Matching(g3.nodes, InteractionOf(iid)), HasUserResponse,
                         Matching(g3.nodes, TextAt(user.text, user.time)));
    MergeEdgesFrame(g3, Matching(g3.nodes, InteractionOf(iid)), HasUserResponse,
                    Matching(g3.nodes, TextAt(user.text, user.time)));
    BotResponseFrame(g4, iid, bot);
    ChainFrameTrans(g3, g4, BotResponse(g4, iid, bot));
  }

  /** One `create_interaction` on an episode's chain with a fresh id appends a
      new Interaction node holding that id to the chain, after all the stored
      ones, and keeps every other unused id unused. */
  lemma InteractionExtendsChain(g: Graph, email: string, session: map<string, string>, iid: string,
                                user: Utterance, bot: Utterance, ep: nat, iids: seq<string>, ids: seq<nat>)
    requires InteractionEpisode(session) != ""
    requires IsChain(g, InteractionEpisode(session), ep, iids, ids) && Fresh(g, iid)
    ensures exists i :: (|g.nodes| <= i &&
      IsChain(CreateInteractionGraph(g, email, session, iid, user, bot), InteractionEpisode(session), ep, iids + [iid], ids + [i]))
  {
    var sid := InteractionEpisode(session);
    var g1 := SaveSensory(g, user.text, user.time, user.ip, user.sentences);
    var g2 := SaveSensory(g1, bot.text, bot.time, bot.ip, bot.sentences);
    SensoryStepsFrame(g, user, bot);
    var g2b := BeforeAdd(g2, email, sid);
    ChainFrameTrans(g, g2, g2b);
    FrameKeepsChain(g, g2b, sid, ep, iids, ids);
    FrameKeepsFresh(g, g2b, iid);
    var g3 := AddInteraction(g2b, sid, iid, user.time, email);
    ChainGrows(g2b, sid, ep, iids, ids, iid, user.time, email);
    AfterAddFrame(g3, iid, user, bot);
    var h := CreateInteractionGraph(g, email, session, iid, user, bot);
    assert h == BotResponse(MergeEdges(g3, Matching(g3.nodes, InteractionOf(iid)), HasUserResponse,
                                       Matching(g3.nodes, TextAt(user.text, user.time))), iid, bot);
    FrameKeepsChain(g3, h, sid, ep, iids + [iid], ids + [|g2b.nodes|]);
  }

  /** One `create_interaction` call stores no Interaction node other than its own. */
  lemma InteractionKeepsFresh(g: Graph, email: string, session: map<string, string>, iid: string,
                              user: Utterance, bot: Utterance, x: string)
    requires Fresh(g, x) && x != iid
    ensures Fresh(CreateInteractionGraph(g, email, session, iid, user, bot), x)
  {
    var sid := InteractionEpisode(session);
    if sid != "" {
      var g1 := SaveSensory(g, user.text, user.time, user.ip, user.sentences);
      var g2 := SaveSensory(g1, bot.text, bot.time, bot.ip, bot.sentences);
      SensoryStepsFrame(g, user, bot);
      var g2b := BeforeAdd(g2, email, sid);
      ChainFrameTrans(g, g2, g2b);
      var g3 := AddInteraction(g2b, sid, iid, user.time, email);
      AfterAddFrame(g3, iid, user, bot);
      var h := CreateInteractionGraph(g, email, session, iid, user, bot);
      assert h == BotResponse(MergeEdges(g3, Matching(g3.nodes, InteractionOf(iid)), HasUserResponse,
                                         Matching(g3.nodes, TextAt(user.text, user.time))), iid, bot);
      FrameKeepsFresh(g, g2b, x);
      AddInteractionKeepsFresh(g2b, sid, iid, user.time, email, x);
      FrameKeepsFresh(g3, h, x);
    }
  }

  /** With no Episode node of the id, `AddInteraction` creates nothing and, the
      new id being unused, links nothing. */
  lemma AddInteractionNoEpisode(g: Graph, sid: string, iid: string, time: nat, email: string)
    requires Matching(g.nodes, EpisodeOf(sid)) == [] && Fresh(g, iid)
    ensures AddInteraction(g, sid, iid, time, email) == g
  {
    var g1 := CreateLinked(g, [], HasInteraction, InteractionNode(iid, time, email));
    assert g1 == g;
    var prev := OpenInteractionId(g, sid);
    if prev.Some? {
      var h := MergeEdges(g, Matching(g.nodes, InteractionOf(prev.value)), NextInteraction, []);
      assert h.edges == g.edges;
    }
  }

  /** A turn in a session with no current episode is filed under "esp"; when no
      Episode node has that id, the turn stores no Interaction node and no
      interaction edge, so its id stays unused. */
  lemma MissingEpisodeDropsInteraction(g: Graph, email: string, session: map<string, string>, iid: string,
                                       user: Utterance, bot: Utterance)
    requires CurrentEpisodeKey !in session
    requires Matching(g.nodes, EpisodeOf(FallbackEpisode)) == [] && Fresh(g, iid)
    ensures ChainFrame(g, CreateInteractionGraph(g, email, session, iid, user, bot))
    ensures Fresh(CreateInteractionGraph(g, email, session, iid, user, bot), iid)
  {
    var sid := InteractionEpisode(session);
    assert sid == FallbackEpisode;
    var g1 := SaveSensory(g, user.text, user.time, user.ip, user.sentences);
    var g2 := SaveSensory(g1, bot.text, bot.time, bot.ip, bot.sentences);
    SensoryStepsFrame(g, user, bot);
    var g2b := BeforeAdd(g2, email, sid);
    ChainFrameTrans(g, g2, g2b);
    FrameMatching(g, g2b, EpisodeOf(sid));
    FrameKeepsFresh(g, g2b, iid);
    AddInteractionNoEpisode(g2b, sid, iid, user.time, email);
    var g3 := AddInteraction(g2b, sid, iid, user.time, email);
    AfterAddFrame(g3, iid, user, bot);
    var h := CreateInteractionGraph(g, email, session, iid, user, bot);
    assert h == BotResponse(MergeEdges(g3, Matching(g3.nodes, InteractionOf(iid)), HasUserResponse,
                                       Matching(g3.nodes, TextAt(user.text, user.time))), iid, bot);
    ChainFrameTrans(g, g3, h);
    FrameKeepsFresh(g, h, iid);
  }

  // ---------------------------------------------------------------------------
  // A conversation: create_interaction called once per turn
  // ---------------------------------------------------------------------------

  datatype Turn = Turn(iid: string, user: Utterance, bot: Utterance)

  function TurnIds(turns: seq<Turn>): (r: seq<string>)
    ensures |r| == |turns| && forall k :: 0 <= k < |turns| ==> r[k] == turns[k].iid
    decreases |turns|
  {
    if turns == [] then [] else [turns[0].iid] + TurnIds(turns[1..])
  }

  lemma TurnIdsCons(iids: seq<string>, turns: seq<Turn>)
    requires turns != []
    ensures iids + TurnIds(turns) == iids + [turns[0].iid] + TurnIds(turns[1..])
  {
  }

  /** The store after `create_interaction` has run for each turn in order. */
  function Converse(g: Graph, email: string, session: map<string, string>, turns: seq<Turn>): Graph
    decreases |turns|
  {
    if turns == [] then g
    else Converse(CreateInteractionGraph(g, email, session, turns[0].iid, turns[0].user, turns[0].bot),
                  email, session, turns[1..])
  }

  /** A conversation can run on `g`: the session's episode id names the chain
      `ids`, and the turns' ids are distinct and unused. */
  predicate Ready(g: Graph, session: map<string, string>, turns: seq<Turn>, ep: nat, iids: seq<string>, ids: seq<nat>) {
    InteractionEpisode(session) != ""
    && IsChain(g, InteractionEpisode(session), ep, iids, ids)
    && (forall k :: 0 <= k < |turns| ==> Fresh(g, turns[k].iid))
    && (forall j, k :: 0 <= j < k < |turns| ==> turns[j].iid != turns[k].iid)
  }

  /** The first turn of a conversation joins the chain and leaves the rest of
      the conversation ready to run. */
  lemma FirstTurn(g: Graph, email: string, session: map<string, string>,
                  turns: seq<Turn>, ep: nat, iids: seq<string>, ids: seq<nat>)
    requires Ready(g, session, turns, ep, iids, ids) && turns != []
    ensures exists i :: Ready(CreateInteractionGraph(g, email, session, turns[0].iid, turns[0].user, turns[0].bot),
                              session, turns[1..], ep, iids + [turns[0].iid], ids + [i])
  {
    var t := turns[0];
    var g1 := CreateInteractionGraph(g, email, session, t.iid, t.user, t.bot);
    InteractionExtendsChain(g, email, session, t.iid, t.user, t.bot, ep, iids, ids);
    var i :| IsChain(g1, InteractionEpisode(session), ep, iids + [t.iid], ids + [i]);
    var rest := turns[1..];
    forall k | 0 <= k < |rest| ensures Fresh(g1, rest[k].iid) {
      assert rest[k] == turns[k + 1];
      InteractionKeepsFresh(g, email, session, t.iid, t.user, t.bot, rest[k].iid);
    }
    forall j, k | 0 <= j < k < |rest| ensures rest[j].iid != rest[k].iid {
      assert rest[j] == turns[j + 1] && rest[k] == turns[k + 1];
    }
    assert Ready(g1, session, rest, ep, iids + [t.iid], ids + [i]);
  }

  /** Turns with distinct, unused ids, all in a session whose episode id names
      one Episode node, extend that episode's chain by their ids in call order:
      a single path with no branch. */
  lemma {:induction false} ConversationFormsOneChain(g: Graph, email: string, session: map<string, string>,
                                                     turns: seq<Turn>, ep: nat, iids: seq<string>, ids: seq<nat>)
    requires Ready(g, session, turns, ep, iids, ids)
    ensures exists all :: IsChain(Converse(g, email, session, turns), InteractionEpisode(session), ep,
                                  iids + TurnIds(turns), all)
    decreases |turns|
  {
    if turns == [] {
      assert iids + TurnIds(turns) == iids;
      assert IsChain(Converse(g, email, session, turns), InteractionEpisode(session), ep, iids + TurnIds(turns), ids);
    } else {
      var t := turns[0];
      var g1 := CreateInteractionGraph(g, email, session, t.iid, t.user, t.bot);
      FirstTurn(g, email, session, turns, ep, iids, ids);
      var i :| Ready(g1, session, turns[1..], ep, iids + [t.iid], ids + [i]);
      TurnIdsCons(iids, turns);
      ConversationFormsOneChain(g1, email, session, turns[1..], ep, iids + [t.iid], ids + [i]);
      var h := Converse(g1, email, session, turns[1..]);
      assert Converse(g, email, session, turns) == h;
      var all :| IsChain(h, InteractionEpisode(session), ep, iids + [t.iid] + TurnIds(turns[1..]), all);
      assert IsChain(h, InteractionEpisode(session), ep, iids + TurnIds(turns), all);
    }
  }
}
