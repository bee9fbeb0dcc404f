/**
 * Episodic memory: the session's episode keys, the Episode nodes a user's
 * sessions become, and the Interaction nodes of each turn, chained by
 * NEXT_EPISODE and NEXT_INTERACTION.  The session dictionary is a map from
 * key to value; new ids, the clock and the address lookup are parameters.
 */
module EpisodicMemory {

  import opened Wrappers
  import opened GraphStore
  import opened SensoryMemory

  const SessionIdKey: string := "session_id"
  const CurrentEpisodeKey: string := "current_episode_id"
  /** The episode id an interaction falls back to when the session has none. */
  const FallbackEpisode: string := "esp"
  const AgentName: string := "Freak"

  // ---------------------------------------------------------------------------
  // get_session_id
  // ---------------------------------------------------------------------------

  /** The session's id, made from `uuid` and stored only when there is none yet. */
  function SessionId(session: map<string, string>, uuid: string): (r: (string, map<string, string>))
    ensures SessionIdKey in r.1 && r.1[SessionIdKey] == r.0
    ensures SessionIdKey in session ==> r == (session[SessionIdKey], session)
    ensures SessionIdKey !in session ==> r.0 == uuid && r.1 == session[SessionIdKey := uuid]
  {
    if SessionIdKey in session then (session[SessionIdKey], session)
    else (uuid, session[SessionIdKey := uuid])
  }

  /** Once a session has an id, asking again returns it and changes nothing,
      whatever new id is offered. */
  lemma SessionIdReused(session: map<string, string>, uuid1: string, uuid2: string)
    ensures SessionId(SessionId(session, uuid1).1, uuid2) == SessionId(session, uuid1)
  {
  }

  /** The server-side session dictionary, updated in place. */
  class Session {
    var data: map<string, string>

    constructor (initial: map<string, string>)
      ensures data == initial
    {
      data := initial;
    }
  }

  method GetSessionId(session: Session, uuid: string) returns (sid: string)
    modifies session
    ensures (sid, session.data) == SessionId(old(session.data), uuid)
  {
    if SessionIdKey !in session.data {
      session.data := session.data[SessionIdKey := uuid];
    }
    sid := session.data[SessionIdKey];
  }

  // ---------------------------------------------------------------------------
  // The two "latest" lookups
  // ---------------------------------------------------------------------------

  /** A user's episodes, or an episode's interactions with no NEXT_INTERACTION yet. */
  datatype Lookup = EpisodesOf(email: string) | OpenInteractionsOf(sessionId: string)

  predicate Candidate(g: Graph, q: Lookup, i: nat) {
    i < |g.nodes| &&
    match q
    case EpisodesOf(email) =>
      g.nodes[i].EpisodeNode?
      && exists e :: e in g.edges && e.rel == HasEpisode && e.dst == i && e.src < |g.nodes| && g.nodes[e.src] == UserNode(email)
    case OpenInteractionsOf(sid) =>
      g.nodes[i].InteractionNode?
      && (exists e :: e in g.edges && e.rel == HasInteraction && e.dst == i && e.src < |g.nodes|
            && Matches(g.nodes[e.src], EpisodeOf(sid)))
      && !(exists e :: e in g.edges && e.rel == NextInteraction && e.src == i)
  }

  /** The id property of an episode or interaction node. */
  function NodeId(n: Node): string {
    match n
    case EpisodeNode(sid, _, _) => sid
    case InteractionNode(iid, _, _) => iid
    case _ => ""
  }

  /** What the lookups order by: an episode's start time, an interaction's timestamp. */
  function SortKey(n: Node): nat {
    match n
    case EpisodeNode(_, start, _) => start
    case InteractionNode(_, t, _) => t
    case _ => 0
  }

  /** The candidates below `k`, in store order. */
  function CandidatesBelow(g: Graph, q: Lookup, k: nat): (ids: seq<nat>)
    requires k <= |g.nodes|
    ensures forall j :: 0 <= j < |ids| ==> ids[j] < k
    ensures forall j, l :: 0 <= j < l < |ids| ==> ids[j] < ids[l]
    decreases k
  {
    if k == 0 then []
    else CandidatesBelow(g, q, k - 1) + (if Candidate(g, q, k - 1) then [k - 1] else [])
  }

  lemma {:induction false} CandidatesBelowExact(g: Graph, q: Lookup, k: nat)
    requires k <= |g.nodes|
    ensures forall i: nat :: i in CandidatesBelow(g, q, k) <==> i < k && Candidate(g, q, i)
    decreases k
  {
    if k > 0 {
      CandidatesBelowExact(g, q, k - 1);
    }
  }

  /** Every candidate, in store order. */
  function Candidates(g: Graph, q: Lookup): (ids: seq<nat>)
    ensures forall j :: 0 <= j < |ids| ==> ids[j] < |g.nodes|
    ensures forall j, l :: 0 <= j < l < |ids| ==> ids[j] < ids[l]
  {
    CandidatesBelow(g, q, |g.nodes|)
  }

  lemma CandidatesExact(g: Graph, q: Lookup)
    ensures forall i: nat :: i in Candidates(g, q) <==> Candidate(g, q, i)
  {
    CandidatesBelowExact(g, q, |g.nodes|);
  }

  /** ORDER BY key DESC LIMIT 1 over `ids`: the position of the greatest key,
      the later one of several equal keys. */
  function LatestPos(nodes: seq<Node>, ids: seq<nat>): (r: Option<nat>)
    requires forall k :: 0 <= k < |ids| ==> ids[k] < |nodes|
    ensures r.None? <==> ids == []
    ensures r.Some? ==> r.value < |ids|
    ensures r.Some? ==> forall k :: 0 <= k < |ids| ==> SortKey(nodes[ids[k]]) <= SortKey(nodes[ids[r.value]])
    ensures r.Some? ==> forall k :: r.value < k < |ids| ==> SortKey(nodes[ids[k]]) < SortKey(nodes[ids[r.value]])
    decreases |ids|
  {
    if ids == [] then None
    else
      var last := |ids| - 1;
      var r := LatestPos(nodes, ids[..last]);
      if r.None? || SortKey(nodes[ids[r.value]]) <= SortKey(nodes[ids[last]]) then Some(last)
      else r
  }

  /** The latest candidate: the greatest key, and of several with that key the
      one stored last (the source leaves that tie unordered). */
  function Latest(g: Graph, q: Lookup): (r: Option<nat>)
    ensures r.None? <==> Candidates(g, q) == []
    ensures r.Some? ==> r.value in Candidates(g, q) && r.value < |g.nodes|
    ensures r.Some? ==> forall k :: 0 <= k < |Candidates(g, q)| ==>
      SortKey(g.nodes[Candidates(g, q)[k]]) <= SortKey(g.nodes[r.value])
    ensures r.Some? ==> forall k :: 0 <= k < |Candidates(g, q)| && r.value < Candidates(g, q)[k] ==>
      SortKey(g.nodes[Candidates(g, q)[k]]) < SortKey(g.nodes[r.value])
  {
    var ids := Candidates(g, q);
    var p := LatestPos(g.nodes, ids);
    if p.None? then None
    else
      assert forall k :: 0 <= k < |ids| && ids[p.value] < ids[k] ==> p.value < k;
      Some(ids[p.value])
  }

  /** The lookup in terms of the candidates themselves. */
  lemma LatestExact(g: Graph, q: Lookup)
    ensures Latest(g, q).None? <==> forall i: nat :: !Candidate(g, q, i)
    ensures Latest(g, q).Some? ==> Candidate(g, q, Latest(g, q).value)
    ensures Latest(g, q).Some? ==> forall i: nat :: Candidate(g, q, i) ==> SortKey(g.nodes[i]) <= SortKey(g.nodes[Latest(g, q).value])
    ensures Latest(g, q).Some? ==> forall i: nat :: Latest(g, q).value < i && Candidate(g, q, i) ==>
      SortKey(g.nodes[i]) < SortKey(g.nodes[Latest(g, q).value])
  {
    var ids := Candidates(g, q);
    CandidatesExact(g, q);
    var r := Latest(g, q);
    if r.Some? {
      forall i: nat | Candidate(g, q, i) ensures SortKey(g.nodes[i]) <= SortKey(g.nodes[r.value]) {
        assert i in ids;
      }
    } else {
      forall i: nat ensures !Candidate(g, q, i) {
        assert i !in ids;
      }
    }
  }

  /** The latest episode is an Episode node, the latest open interaction an
      Interaction node. */
  lemma LatestKind(g: Graph, q: Lookup)
    ensures Latest(g, q).Some? && q.EpisodesOf? ==> g.nodes[Latest(g, q).value].EpisodeNode?
    ensures Latest(g, q).Some? && q.OpenInteractionsOf? ==> g.nodes[Latest(g, q).value].InteractionNode?
  {
    if Latest(g, q).Some? {
      CandidatesExact(g, q);
      assert Candidate(g, q, Latest(g, q).value);
    }
  }

  // ---------------------------------------------------------------------------
  // create_episode and end_episode
  // ---------------------------------------------------------------------------

  /** The user merged and a new episode created under each bound user node:
      the store only grows, and everything new is the user or the episode. */
  function AddEpisode(g: Graph, email: string, sid: string, start: nat): (r: Graph)
    ensures Extends(g, r) && |r.nodes| > |g.nodes|
    ensures r.nodes[|r.nodes| - 1] == EpisodeNode(sid, start, None)
    ensures forall i :: |g.nodes| <= i < |r.nodes| ==>
      r.nodes[i] == UserNode(email) || r.nodes[i] == EpisodeNode(sid, start, None)
  {
    var (g1, users) := MergeNode(g, UserOf(email), UserNode(email));
    MergeNodeExtends(g, UserOf(email), UserNode(email));
    MergeNodeAdds(g, UserOf(email), UserNode(email));
    CreateLinkedAfter(g, g1, users, HasEpisode, EpisodeNode(sid, start, None), UserNode(email));
    CreateLinked(g1, users, HasEpisode, EpisodeNode(sid, start, None))
  }

  /** NEXT_EPISODE from every episode of `prevId` to every episode of `sid`. */
  function ChainEpisodes(g: Graph, prevId: string, sid: string): Graph {
    MergeEdges(g, Matching(g.nodes, EpisodeOf(prevId)), NextEpisode, Matching(g.nodes, EpisodeOf(sid)))
  }

  /** The store after `create_episode`: the user's latest episode is looked up
      first, then the user is merged, a new episode created under it, and the
      earlier episode linked to the new one. */
  function CreateEpisodeGraph(g: Graph, email: string, sid: string, start: nat): (r: Graph)
    ensures Extends(g, r) && |r.nodes| > |g.nodes|
    ensures r.nodes[|r.nodes| - 1] == EpisodeNode(sid, start, None)
  {
    var prev := Latest(g, EpisodesOf(email));
    var g2 := AddEpisode(g, email, sid, start);
    if prev.Some? then ChainEpisodes(g2, NodeId(g.nodes[prev.value]), sid) else g2
  }

  /** The session after `create_episode`: its id, and that id as the current episode. */
  function CreateEpisodeSession(session: map<string, string>, uuid: string): map<string, string> {
    var (sid, s1) := SessionId(session, uuid);
    s1[CurrentEpisodeKey := sid]
  }

  method AddEpisodeTo(store: MemoryStore, email: string, sid: string, start: nat)
    modifies store
    ensures store.State() == AddEpisode(old(store.State()), email, sid, start)
  {
    var users := store.Merge(UserOf(email), UserNode(email));
    store.CreateFor(users, HasEpisode, EpisodeNode(sid, start, None));
  }

  method CreateEpisode(store: MemoryStore, session: Session, email: string, uuid: string, now: nat)
    modifies store, session
    ensures store.State() == CreateEpisodeGraph(old(store.State()), email, SessionId(old(session.data), uuid).0, now)
    ensures session.data == CreateEpisodeSession(old(session.data), uuid)
  {
    var sid := GetSessionId(session, uuid);
    StoreEpisode(store, email, sid, now);
    session.data := session.data[CurrentEpisodeKey := sid];
  }

  /** The graph writes of `create_episode`: the latest episode looked up, the
      new one created, and the NEXT_EPISODE link between them. */
  method StoreEpisode(store: MemoryStore, email: string, sid: string, now: nat)
    modifies store
    ensures store.State() == CreateEpisodeGraph(old(store.State()), email, sid, now)
  {
    var prev := Latest(store.State(), EpisodesOf(email));
    var prevId := if prev.Some? then NodeId(store.nodes[prev.value]) else "";
    AddEpisodeTo(store, email, sid, now);
    if prev.Some? {
      store.Link(Matching(store.nodes, EpisodeOf(prevId)), NextEpisode, Matching(store.nodes, EpisodeOf(sid)));
    }
  }

  /** The store and session after `end_episode`: nothing happens unless the
      session names a current episode; otherwise every episode of that id gets
      the end time and both keys leave the session. */
  function EndEpisodeEffect(g: Graph, session: map<string, string>, now: nat): (r: (Graph, map<string, string>))
    ensures CurrentEpisodeKey !in session || session[CurrentEpisodeKey] == "" ==> r == (g, session)
    ensures CurrentEpisodeKey in session && session[CurrentEpisodeKey] != "" ==>
      CurrentEpisodeKey !in r.1 && SessionIdKey !in r.1
      && (forall k :: k in session && k != CurrentEpisodeKey && k != SessionIdKey ==> k in r.1 && r.1[k] == session[k])
      && r.0 == SetEndTime(g, session[CurrentEpisodeKey], now)
  {
    if CurrentEpisodeKey !in session || session[CurrentEpisodeKey] == "" then (g, session)
    else (SetEndTime(g, session[CurrentEpisodeKey], now), session - {CurrentEpisodeKey, SessionIdKey})
  }

  method EndEpisode(store: MemoryStore, session: Session, now: nat)
    modifies store, session
    ensures (store.State(), session.data) == EndEpisodeEffect(old(store.State()), old(session.data), now)
  {
    if CurrentEpisodeKey !in session.data || session.data[CurrentEpisodeKey] == "" {
      return;
    }
    store.SetEnd(session.data[CurrentEpisodeKey], now);
    session.data := session.data - {CurrentEpisodeKey, SessionIdKey};
  }

  // ---------------------------------------------------------------------------
  // Properties of the episode lifecycle
  // ---------------------------------------------------------------------------

  /** `create_episode` chains NEXT_EPISODE from the user's latest episode found
      before the new one was created, and from nothing when the user had none. */
  lemma CreateEpisodeChains(g: Graph, email: string, sid: string, start: nat)
    ensures var prev := Latest(g, EpisodesOf(email));
      prev.Some? ==> Linked(CreateEpisodeGraph(g, email, sid, start), EpisodeOf(NodeId(g.nodes[prev.value])), NextEpisode, EpisodeOf(sid))
    ensures Latest(g, EpisodesOf(email)).None? ==>
      forall e :: e in CreateEpisodeGraph(g, email, sid, start).edges && e.rel == NextEpisode ==> e in g.edges
  {
    var prev := Latest(g, EpisodesOf(email));
    var g2 := AddEpisode(g, email, sid, start);
    if prev.Some? {
      LatestKind(g, EpisodesOf(email));
      var prevId := NodeId(g.nodes[prev.value]);
      assert Matches(g.nodes[prev.value], EpisodeOf(prevId));
      assert prev.value in Matching(g.nodes, EpisodeOf(prevId));
      ChainFromEarlier(g, g2, prevId, sid, start);
    } else {
      forall e | e in g2.edges && e.rel == NextEpisode ensures e in g.edges {
        AddEpisodeEdges(g, email, sid, start, e);
      }
    }
  }

  /** NEXT_EPISODE from an episode already stored to the new last one. */
  lemma ChainFromEarlier(g: Graph, g2: Graph, prevId: string, sid: string, start: nat)
    requires Extends(g, g2) && |g2.nodes| > 0 && g2.nodes[|g2.nodes| - 1] == EpisodeNode(sid, start, None)
    requires Matching(g.nodes, EpisodeOf(prevId)) != []
    ensures Linked(ChainEpisodes(g2, prevId, sid), EpisodeOf(prevId), NextEpisode, EpisodeOf(sid))
  {
    MatchingExtends(g, g2, EpisodeOf(prevId));
    assert Matches(g2.nodes[|g2.nodes| - 1], EpisodeOf(sid));
    assert |g2.nodes| - 1 in Matching(g2.nodes, EpisodeOf(sid));
    MergeEdgesLinks(g2, EpisodeOf(prevId), NextEpisode, EpisodeOf(sid));
  }

  /** The only edges `AddEpisode` adds are HAS_EPISODE edges. */
  lemma AddEpisodeEdges(g: Graph, email: string, sid: string, start: nat, e: Edge)
    requires e in AddEpisode(g, email, sid, start).edges && e.rel != HasEpisode
    ensures e in g.edges
  {
    var (g1, users) := MergeNode(g, UserOf(email), UserNode(email));
    assert g1.edges == g.edges;
  }

  /** Which episodes are a user's depends on the nodes and the HAS_EPISODE edges only. */
  lemma EpisodeCandidatesFrame(g: Graph, h: Graph, email: string)
    requires g.nodes == h.nodes
    requires forall e: Edge :: e.rel == HasEpisode ==> (e in g.edges <==> e in h.edges)
    ensures forall i: nat :: Candidate(g, EpisodesOf(email), i) <==> Candidate(h, EpisodesOf(email), i)
  {
    forall i: nat ensures Candidate(g, EpisodesOf(email), i) ==> Candidate(h, EpisodesOf(email), i) {
      if Candidate(g, EpisodesOf(email), i) {
        var e :| e in g.edges && e.rel == HasEpisode && e.dst == i && e.src < |g.nodes| && g.nodes[e.src] == UserNode(email);
        assert e in h.edges;
      }
    }
    forall i: nat ensures Candidate(h, EpisodesOf(email), i) ==> Candidate(g, EpisodesOf(email), i) {
      if Candidate(h, EpisodesOf(email), i) {
        var e :| e in h.edges && e.rel == HasEpisode && e.dst == i && e.src < |h.nodes| && h.nodes[e.src] == UserNode(email);
        assert e in g.edges;
      }
    }
  }

  /** After `AddEpisode` the new episode is the user's, and an episode is the
      user's only if it is new or was the user's before. */
  lemma AddEpisodeCandidates(g: Graph, email: string, sid: string, start: nat)
    requires Closed(g)
    ensures var h := AddEpisode(g, email, sid, start);
      Candidate(h, EpisodesOf(email), |h.nodes| - 1)
      && forall i: nat :: i < |g.nodes| && Candidate(h, EpisodesOf(email), i) ==> Candidate(g, EpisodesOf(email), i)
  {
    AddEpisodeNewCandidate(g, email, sid, start);
    forall i: nat | i < |g.nodes| && Candidate(AddEpisode(g, email, sid, start), EpisodesOf(email), i)
      ensures Candidate(g, EpisodesOf(email), i)
    {
      AddEpisodeOldCandidate(g, email, sid, start, i);
    }
  }

  lemma AddEpisodeNewCandidate(g: Graph, email: string, sid: string, start: nat)
    ensures Candidate(AddEpisode(g, email, sid, start), EpisodesOf(email), |AddEpisode(g, email, sid, start).nodes| - 1)
  {
    var (g1, users) := MergeNode(g, UserOf(email), UserNode(email));
    var h := AddEpisode(g, email, sid, start);
    assert h == CreateLinked(g1, users, HasEpisode, EpisodeNode(sid, start, None));
    var last := |h.nodes| - 1;
    assert last - |g1.nodes| == |users| - 1;
    var u := users[|users| - 1];
    assert u in Matching(g1.nodes, UserOf(email));
    assert Edge(u, HasEpisode, last) in h.edges;
  }

  lemma AddEpisodeOldCandidate(g: Graph, email: string, sid: string, start: nat, i: nat)
    requires Closed(g) && i < |g.nodes| && Candidate(AddEpisode(g, email, sid, start), EpisodesOf(email), i)
    ensures Candidate(g, EpisodesOf(email), i)
  {
    var (g1, users) := MergeNode(g, UserOf(email), UserNode(email));
    var h := AddEpisode(g, email, sid, start);
    assert h == CreateLinked(g1, users, HasEpisode, EpisodeNode(sid, start, None));
    MergeNodeExtends(g, UserOf(email), UserNode(email));
    var e :| e in h.edges && e.rel == HasEpisode && e.dst == i && e.src < |h.nodes| && h.nodes[e.src] == UserNode(email);
    assert e in g1.edges && g1.edges == g.edges;
    assert e.src < |g.nodes|;
    assert g.nodes[e.src] == g1.nodes[e.src] == h.nodes[e.src];
  }

  /** A candidate stored last whose key no candidate exceeds is the latest. */
  lemma LastIsLatest(g: Graph, q: Lookup)
    requires |g.nodes| > 0 && Candidate(g, q, |g.nodes| - 1)
    requires forall i: nat :: Candidate(g, q, i) ==> SortKey(g.nodes[i]) <= SortKey(g.nodes[|g.nodes| - 1])
    ensures Latest(g, q) == Some(|g.nodes| - 1)
  {
    LatestExact(g, q);
  }

  /** Every episode of the user after `create_episode` starts no later than the
      new one, when the earlier ones did. */
  lemma CreateEpisodeKeysBounded(g: Graph, email: string, sid: string, start: nat)
    requires Closed(g)
    requires forall i: nat :: Candidate(g, EpisodesOf(email), i) ==> SortKey(g.nodes[i]) <= start
    ensures var h := CreateEpisodeGraph(g, email, sid, start);
      Candidate(h, EpisodesOf(email), |h.nodes| - 1)
      && forall i: nat :: Candidate(h, EpisodesOf(email), i) ==> SortKey(h.nodes[i]) <= start
  {
    var g2 := AddEpisode(g, email, sid, start);
    var h := CreateEpisodeGraph(g, email, sid, start);
    assert forall i: nat :: Candidate(g2, EpisodesOf(email), i) <==> Candidate(h, EpisodesOf(email), i) by {
      CreateEpisodeFrame(g, email, sid, start);
      EpisodeCandidatesFrame(g2, h, email);
    }
    AddEpisodeNewCandidate(g, email, sid, start);
    forall i: nat | Candidate(h, EpisodesOf(email), i) ensures SortKey(h.nodes[i]) <= start {
      KeyBoundedAt(g, email, sid, start, i);
    }
  }

  lemma CreateEpisodeNodes(g: Graph, email: string, sid: string, start: nat)
    ensures CreateEpisodeGraph(g, email, sid, start).nodes == AddEpisode(g, email, sid, start).nodes
  {
  }

  /** `create_episode` changes no node and no HAS_EPISODE edge after `AddEpisode`. */
  lemma CreateEpisodeFrame(g: Graph, email: string, sid: string, start: nat)
    ensures CreateEpisodeGraph(g, email, sid, start).nodes == AddEpisode(g, email, sid, start).nodes
    ensures forall e: Edge :: e.rel == HasEpisode ==>
      (e in AddEpisode(g, email, sid, start).edges <==> e in CreateEpisodeGraph(g, email, sid, start).edges)
    ensures forall e: Edge :: e in CreateEpisodeGraph(g, email, sid, start).edges && e.rel != NextEpisode ==>
      e in AddEpisode(g, email, sid, start).edges
  {
  }

  lemma KeyBoundedAt(g: Graph, email: string, sid: string, start: nat, i: nat)
    requires Closed(g)
    requires forall i: nat :: Candidate(g, EpisodesOf(email), i) ==> SortKey(g.nodes[i]) <= start
    requires Candidate(AddEpisode(g, email, sid, start), EpisodesOf(email), i)
    ensures SortKey(AddEpisode(g, email, sid, start).nodes[i]) <= start
  {
    var g2 := AddEpisode(g, email, sid, start);
    if i < |g.nodes| {
      AddEpisodeOldCandidate(g, email, sid, start, i);
      assert g2.nodes[i] == g.nodes[i];
    } else {
      assert g2.nodes[i] == UserNode(email) || g2.nodes[i] == EpisodeNode(sid, start, None);
    }
  }

  /** When the new start time is not before any of the user's episodes (the
      clock does not run backwards), the new episode is the one the next
      `create_episode` chains from. */
  lemma CreateEpisodeBecomesLatest(g: Graph, email: string, sid: string, start: nat)
    requires Closed(g)
    requires forall i: nat :: Candidate(g, EpisodesOf(email), i) ==> SortKey(g.nodes[i]) <= start
    ensures var h := CreateEpisodeGraph(g, email, sid, start);
      Latest(h, EpisodesOf(email)) == Some(|h.nodes| - 1)
  {
    CreateEpisodeKeysBounded(g, email, sid, start);
    LastIsLatest(CreateEpisodeGraph(g, email, sid, start), EpisodesOf(email));
  }

  /** The session through one episode: `create_episode` reuses the session's id
      (or stores the new one) and makes it current; `end_episode` then stamps
      the episode's end and removes both keys, so the next episode gets a fresh
      id.  With an empty id there is no current episode and `end_episode` does
      nothing. */
  lemma EpisodeLifecycle(g: Graph, session: map<string, string>, email: string, uuid1: string, uuid2: string, t1: nat, t2: nat)
    ensures var sid := SessionId(session, uuid1).0;
      var s1 := CreateEpisodeSession(session, uuid1);
      var g1 := CreateEpisodeGraph(g, email, sid, t1);
      var (g2, s2) := EndEpisodeEffect(g1, s1, t2);
      (SessionIdKey in session ==> sid == session[SessionIdKey])
      && s1[CurrentEpisodeKey] == sid && s1[SessionIdKey] == sid
      && (sid != "" ==>
            CurrentEpisodeKey !in s2 && SessionIdKey !in s2 && SessionId(s2, uuid2).0 == uuid2
            && |g2.nodes| > 0 && g2.nodes[|g2.nodes| - 1] == EpisodeNode(sid, t1, Some(t2)))
      && (sid == "" ==> s2 == s1 && g2 == g1)
  {
  }

  // ---------------------------------------------------------------------------
  // create_interaction
  // ---------------------------------------------------------------------------

  /** One side of a turn: its text, when it was said, the address it came from
      and how the tokenizer split it. */
  datatype Utterance = Utterance(text: string, time: nat, ip: string, sentences: seq<Sentence>)

  /** The episode a turn is filed under: the current one, or "esp" when the
      session names none. */
  function InteractionEpisode(session: map<string, string>): string {
    if CurrentEpisodeKey in session then session[CurrentEpisodeKey] else FallbackEpisode
  }

  /** The bot's reply linked to the interaction and to the agent, when all three
      are found. */
  function BotResponse(g: Graph, iid: string, bot: Utterance): Graph {
    var acts := Matching(g.nodes, InteractionOf(iid));
    var ts := Matching(g.nodes, TextAt(bot.text, bot.time));
    var agents := Matching(g.nodes, AgentOf(AgentName));
    if acts == [] || ts == [] || agents == [] then g
    else MergeEdges(MergeEdges(g, acts, HasBotResponse, ts), agents, Generated, ts)
  }

  /** The episode's open interaction looked up before the new one is created,
      the new interaction created under each episode of the id, and the
      NEXT_INTERACTION link from the one found to the new one. */
  function AddInteraction(g: Graph, sid: string, iid: string, time: nat, email: string): Graph {
    var prev := OpenInteractionId(g, sid);
    var g1 := CreateLinked(g, Matching(g.nodes, EpisodeOf(sid)), HasInteraction, InteractionNode(iid, time, email));
    if prev.Some? then
      MergeEdges(g1, Matching(g1.nodes, InteractionOf(prev.value)), NextInteraction, Matching(g1.nodes, InteractionOf(iid)))
    else g1
  }

  /** The id of the episode's interaction that has no NEXT_INTERACTION yet, the
      latest of several. */
  function OpenInteractionId(g: Graph, sid: string): Option<string> {
    var prev := Latest(g, OpenInteractionsOf(sid));
    if prev.Some? then Some(NodeId(g.nodes[prev.value])) else None
  }

  /** The graph writes of `create_interaction` after both texts are saved: the
      agent, the user's link to the episode, the new interaction in the
      episode's chain, and the two replies. */
  function LinkInteraction(g: Graph, email: string, sid: string, iid: string, user: Utterance, bot: Utterance): Graph {
    var (g1, _) := MergeNode(g, AgentOf(AgentName), AgentNode(AgentName));
    var g2 := MergeEdges(g1, Matching(g1.nodes, UserOf(email)), HasEpisode, Matching(g1.nodes, EpisodeOf(sid)));
    var g3 := AddInteraction(g2, sid, iid, user.time, email);
    var g4 := MergeEdges(g3, Matching(g3.nodes, InteractionOf(iid)), HasUserResponse,
                         Matching(g3.nodes, TextAt(user.text, user.time)));
    BotResponse(g4, iid, bot)
  }

  /** Everything `create_interaction` writes for one turn. */
  function CreateInteractionGraph(g: Graph, email: string, session: map<string, string>, iid: string,
                                  user: Utterance, bot: Utterance): Graph {
    var sid := InteractionEpisode(session);
    if sid == "" then g
    else
      var g1 := SaveSensory(g, user.text, user.time, user.ip, user.sentences);
      var g2 := SaveSensory(g1, bot.text, bot.time, bot.ip, bot.sentences);
      LinkInteraction(g2, email, sid, iid, user, bot)
  }

  method AddInteractionTo(store: MemoryStore, sid: string, iid: string, time: nat, email: string)
    modifies store
    ensures store.State() == AddInteraction(old(store.State()), sid, iid, time, email)
  {
    var prev := OpenInteractionId(store.State(), sid);
    store.CreateFor(Matching(store.nodes, EpisodeOf(sid)), HasInteraction, InteractionNode(iid, time, email));
    if prev.Some? {
      store.Link(Matching(store.nodes, InteractionOf(prev.value)), NextInteraction, Matching(store.nodes, InteractionOf(iid)));
    }
  }

  method CreateInteraction(store: MemoryStore, email: string, session: map<string, string>, iid: string,
                           user: Utterance, bot: Utterance)
    modifies store
    ensures store.State() == CreateInteractionGraph(old(store.State()), email, session, iid, user, bot)
  {
    var sid := if CurrentEpisodeKey in session then session[CurrentEpisodeKey] else FallbackEpisode;
    if sid == "" {
      return;
    }
    SaveSensoryMemory(store, user.text, user.time, user.ip, user.sentences);
    SaveSensoryMemory(store, bot.text, bot.time, bot.ip, bot.sentences);
    var _ := store.Merge(AgentOf(AgentName), AgentNode(AgentName));
    store.Link(Matching(store.nodes, UserOf(email)), HasEpisode, Matching(store.nodes, EpisodeOf(sid)));
    AddInteractionTo(store, sid, iid, user.time, email);
    store.Link(Matching(store.nodes, InteractionOf(iid)), HasUserResponse, Matching(store.nodes, TextAt(user.text, user.time)));
    var acts := Matching(store.nodes, InteractionOf(iid));
    var ts := Matching(store.nodes, TextAt(bot.text, bot.time));
    var agents := Matching(store.nodes, AgentOf(AgentName));
    if acts != [] && ts != [] && agents != [] {
      store.Link(acts, HasBotResponse, ts);
      store.Link(agents, Generated, ts);
    }
  }
}
