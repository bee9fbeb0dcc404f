/**
 * Sensory memory: what `save_sensory_memory` writes for one text.  The text
 * node is merged on (full text, timestamp, ip address); then, for each
 * sentence in order, the sentence node is merged by its text, linked from the
 * text node and from the previous sentence; then, for each word of it in order,
 * the word node is merged by its text, linked from the sentence and from the
 * previous word.  The tokenizer's output is an input here.  Also the one
 * merge of the perceptual stage that touches the same Word nodes.
 */
module SensoryMemory {

  import opened Wrappers
  import opened GraphStore

  /** A sentence as the tokenizer split it: its text and its words. */
  datatype Sentence = Sentence(text: string, words: seq<string>)

  /** The loop's `prev` variable after the given items: the last one, or ""
      (which, like None, is false) before the first. */
  function LastOr(items: seq<string>): string {
    if items == [] then "" else items[|items| - 1]
  }

  function PrevSentence(sentences: seq<Sentence>): string {
    if sentences == [] then "" else sentences[|sentences| - 1].text
  }

  /** One pass of the word loop: merge the word under the sentence, then link
      it from the previous word when there is one. */
  function WordStep(g: Graph, sentence: string, word: string, prev: string): Graph {
    var rows := Matching(g.nodes, SentenceOf(sentence));
    var g2 :=
      if rows == [] then g
      else
        var (g1, ws) := MergeNode(g, WordOf(word), WordNode(word, None));
        MergeEdges(g1, rows, HasAWord, ws);
    if prev != "" then
      MergeEdges(g2, Matching(g2.nodes, WordOf(prev)), NextWord, Matching(g2.nodes, WordOf(word)))
    else g2
  }

  /** The word loop over a prefix of a sentence's words. */
  function IngestWords(g: Graph, sentence: string, words: seq<string>): Graph
    decreases |words|
  {
    if words == [] then g
    else
      var init := words[..|words| - 1];
      WordStep(IngestWords(g, sentence, init), sentence, words[|words| - 1], LastOr(init))
  }

  /** The sentence's own writes: merged under the text, linked from the previous one. */
  function SentenceHead(g: Graph, text: string, sentence: string, prev: string): Graph {
    var texts := Matching(g.nodes, TextOf(text));
    var g2 :=
      if texts == [] then g
      else
        var (g1, ss) := MergeNode(g, SentenceOf(sentence), SentenceNode(sentence));
        MergeEdges(g1, texts, HasASentence, ss);
    if prev != "" then
      MergeEdges(g2, Matching(g2.nodes, SentenceOf(prev)), NextSentence, Matching(g2.nodes, SentenceOf(sentence)))
    else g2
  }

  /** One pass of the sentence loop. */
  function SentenceStep(g: Graph, text: string, s: Sentence, prev: string): Graph {
    IngestWords(SentenceHead(g, text, s.text, prev), s.text, s.words)
  }

  /** The sentence loop over a prefix of the sentences. */
  function IngestSentences(g: Graph, text: string, sentences: seq<Sentence>): Graph
    decreases |sentences|
  {
    if sentences == [] then g
    else
      var init := sentences[..|sentences| - 1];
      SentenceStep(IngestSentences(g, text, init), text, sentences[|sentences| - 1], PrevSentence(init))
  }

  /** Everything `save_sensory_memory` writes. */
  function SaveSensory(g: Graph, text: string, timestamp: nat, ip: string, sentences: seq<Sentence>): Graph {
    var (g1, _) := MergeNode(g, TextKey(text, timestamp, ip), TextNode(text, timestamp, ip));
    IngestSentences(g1, text, sentences)
  }

  /** The body of the word loop. */
  method WordPass(store: MemoryStore, sentence: string, word: string, prev: string)
    modifies store
    ensures store.State() == WordStep(old(store.State()), sentence, word, prev)
  {
    var rows := Matching(store.nodes, SentenceOf(sentence));
    if rows != [] {
      var ws := store.Merge(WordOf(word), WordNode(word, None));
      store.Link(rows, HasAWord, ws);
    }
    if prev != "" {
      store.Link(Matching(store.nodes, WordOf(prev)), NextWord, Matching(store.nodes, WordOf(word)));
    }
  }

  /** The body of the sentence loop before its word loop. */
  method SentencePass(store: MemoryStore, text: string, sentence: string, prev: string)
    modifies store
    ensures store.State() == SentenceHead(old(store.State()), text, sentence, prev)
  {
    var texts := Matching(store.nodes, TextOf(text));
    if texts != [] {
      var ss := store.Merge(SentenceOf(sentence), SentenceNode(sentence));
      store.Link(texts, HasASentence, ss);
    }
    if prev != "" {
      store.Link(Matching(store.nodes, SentenceOf(prev)), NextSentence, Matching(store.nodes, SentenceOf(sentence)));
    }
  }

  /** The word loop of one sentence. */
  method SaveWords(store: MemoryStore, sentence: string, words: seq<string>)
    modifies store
    ensures store.State() == IngestWords(old(store.State()), sentence, words)
  {
    ghost var g0 := store.State();
    var prevWord := "";
    for j := 0 to |words|
      invariant store.State() == IngestWords(g0, sentence, words[..j])
      invariant prevWord == LastOr(words[..j])
    {
      assert words[..j + 1][..j] == words[..j];
      assert words[..j + 1][j] == words[j];
      WordPass(store, sentence, words[j], prevWord);
      prevWord := words[j];
    }
    assert words[..|words|] == words;
  }

  /** One pass of the sentence loop: the sentence's own writes, then its words. */
  method SentenceAndWords(store: MemoryStore, text: string, s: Sentence, prev: string)
    modifies store
    ensures store.State() == SentenceStep(old(store.State()), text, s, prev)
  {
    SentencePass(store, text, s.text, prev);
    SaveWords(store, s.text, s.words);
  }

  lemma IngestSentencesSnoc(g: Graph, text: string, sentences: seq<Sentence>, i: nat)
    requires i < |sentences|
    ensures IngestSentences(g, text, sentences[..i + 1])
         == SentenceStep(IngestSentences(g, text, sentences[..i]), text, sentences[i], PrevSentence(sentences[..i]))
    ensures PrevSentence(sentences[..i + 1]) == sentences[i].text
  {
    assert sentences[..i + 1][..i] == sentences[..i];
    assert sentences[..i + 1][i] == sentences[i];
  }

  /** `save_sensory_memory` with its two nested loops. */
  method SaveSensoryMemory(store: MemoryStore, text: string, timestamp: nat, ip: string, sentences: seq<Sentence>)
    modifies store
    ensures store.State() == SaveSensory(old(store.State()), text, timestamp, ip, sentences)
  {
    var _ := store.Merge(TextKey(text, timestamp, ip), TextNode(text, timestamp, ip));
    ghost var g1 := store.State();
    var prevSentence := "";
    for i := 0 to |sentences|
      invariant store.State() == IngestSentences(g1, text, sentences[..i])
      invariant prevSentence == PrevSentence(sentences[..i])
    {
      IngestSentencesSnoc(g1, text, sentences, i);
      SentenceAndWords(store, text, sentences[i], prevSentence);
      prevSentence := sentences[i].text;
    }
    assert sentences[..|sentences|] == sentences;
  }

  // ---------------------------------------------------------------------------
  // Ingestion only adds memory nodes and memory edges
  // ---------------------------------------------------------------------------

  predicate IsSensoryNode(n: Node) {
    n.TextNode? || n.SentenceNode? || n.WordNode?
  }

  predicate IsSensoryRel(r: Rel) {
    r == HasASentence || r == NextSentence || r == HasAWord || r == NextWord
  }

  /** `h` extends `g` with text, sentence and word nodes and their edges only. */
  predicate SensoryGrowth(g: Graph, h: Graph) {
    Extends(g, h)
    && (forall i :: |g.nodes| <= i < |h.nodes| ==> IsSensoryNode(h.nodes[i]))
    && (forall e :: e in h.edges && e !in g.edges ==> IsSensoryRel(e.rel))
  }

  lemma SensoryGrowthTrans(g: Graph, h: Graph, k: Graph)
    requires SensoryGrowth(g, h) && SensoryGrowth(h, k)
    ensures SensoryGrowth(g, k)
  {
  }

  lemma MergeSensoryNode(g: Graph, p: Pattern, n: Node)
    requires Matches(n, p) && IsSensoryNode(n)
    ensures SensoryGrowth(g, MergeNode(g, p, n).0)
  {
    MergeNodeExtends(g, p, n);
    var h := MergeNode(g, p, n).0;
    assert h.edges == g.edges;
    forall i | |g.nodes| <= i < |h.nodes| ensures IsSensoryNode(h.nodes[i]) {
      assert h.nodes == g.nodes + [n];
    }
  }

  lemma LinkSensory(g: Graph, srcs: seq<nat>, rel: Rel, dsts: seq<nat>)
    requires IsSensoryRel(rel)
    ensures SensoryGrowth(g, MergeEdges(g, srcs, rel, dsts))
  {
  }

  lemma WordStepGrowth(g: Graph, sentence: string, word: string, prev: string)
    ensures SensoryGrowth(g, WordStep(g, sentence, word, prev))
  {
    var rows := Matching(g.nodes, SentenceOf(sentence));
    var g2 := g;
    if rows != [] {
      var (g1, ws) := MergeNode(g, WordOf(word), WordNode(word, None));
      MergeSensoryNode(g, WordOf(word), WordNode(word, None));
      g2 := MergeEdges(g1, rows, HasAWord, ws);
      LinkSensory(g1, rows, HasAWord, ws);
      SensoryGrowthTrans(g, g1, g2);
    }
    if prev != "" {
      LinkSensory(g2, Matching(g2.nodes, WordOf(prev)), NextWord, Matching(g2.nodes, WordOf(word)));
      SensoryGrowthTrans(g, g2, WordStep(g, sentence, word, prev));
    }
  }

  lemma SentenceHeadGrowth(g: Graph, text: string, sentence: string, prev: string)
    ensures SensoryGrowth(g, SentenceHead(g, text, sentence, prev))
  {
    var texts := Matching(g.nodes, TextOf(text));
    var g2 := g;
    if texts != [] {
      var (g1, ss) := MergeNode(g, SentenceOf(sentence), SentenceNode(sentence));
      MergeSensoryNode(g, SentenceOf(sentence), SentenceNode(sentence));
      g2 := MergeEdges(g1, texts, HasASentence, ss);
      LinkSensory(g1, texts, HasASentence, ss);
      SensoryGrowthTrans(g, g1, g2);
    }
    if prev != "" {
      LinkSensory(g2, Matching(g2.nodes, SentenceOf(prev)), NextSentence, Matching(g2.nodes, SentenceOf(sentence)));
      SensoryGrowthTrans(g, g2, SentenceHead(g, text, sentence, prev));
    }
  }

  lemma {:induction false} IngestWordsGrowth(g: Graph, sentence: string, words: seq<string>)
    ensures SensoryGrowth(g, IngestWords(g, sentence, words))
    decreases |words|
  {
    if words != [] {
      var init := words[..|words| - 1];
      IngestWordsGrowth(g, sentence, init);
      var h := IngestWords(g, sentence, init);
      WordStepGrowth(h, sentence, words[|words| - 1], LastOr(init));
      SensoryGrowthTrans(g, h, IngestWords(g, sentence, words));
    }
  }

  lemma SentenceStepGrowth(g: Graph, text: string, s: Sentence, prev: string)
    ensures SensoryGrowth(g, SentenceStep(g, text, s, prev))
  {
    var h := SentenceHead(g, text, s.text, prev);
    SentenceHeadGrowth(g, text, s.text, prev);
    IngestWordsGrowth(h, s.text, s.words);
    SensoryGrowthTrans(g, h, SentenceStep(g, text, s, prev));
  }

  lemma {:induction false} IngestSentencesGrowth(g: Graph, text: string, sentences: seq<Sentence>)
    ensures SensoryGrowth(g, IngestSentences(g, text, sentences))
    decreases |sentences|
  {
    if sentences != [] {
      var init := sentences[..|sentences| - 1];
      IngestSentencesGrowth(g, text, init);
      var h := IngestSentences(g, text, init);
      SentenceStepGrowth(h, text, sentences[|sentences| - 1], PrevSentence(init));
      SensoryGrowthTrans(g, h, IngestSentences(g, text, sentences));
    }
  }

  /** Saving a text keeps every node and edge already stored, and adds only text,
      sentence and word nodes and the four kinds of edges between them. */
  lemma SaveSensoryGrowth(g: Graph, text: string, timestamp: nat, ip: string, sentences: seq<Sentence>)
    ensures SensoryGrowth(g, SaveSensory(g, text, timestamp, ip, sentences))
  {
    var g1 := MergeNode(g, TextKey(text, timestamp, ip), TextNode(text, timestamp, ip)).0;
    MergeSensoryNode(g, TextKey(text, timestamp, ip), TextNode(text, timestamp, ip));
    IngestSentencesGrowth(g1, text, sentences);
    assert SaveSensory(g, text, timestamp, ip, sentences) == IngestSentences(g1, text, sentences);
    SensoryGrowthTrans(g, g1, IngestSentences(g1, text, sentences));
  }

  // ---------------------------------------------------------------------------
  // After saving, every sentence and every word has a node
  // ---------------------------------------------------------------------------

  predicate Present(g: Graph, p: Pattern) {
    Matching(g.nodes, p) != []
  }

  lemma {:induction false} IngestWordsPresent(g: Graph, sentence: string, words: seq<string>)
    requires Present(g, SentenceOf(sentence))
    ensures forall w :: w in words ==> Present(IngestWords(g, sentence, words), WordOf(w))
    decreases |words|
  {
    if words != [] {
      var init := words[..|words| - 1];
      var last := words[|words| - 1];
      IngestWordsPresent(g, sentence, init);
      var h := IngestWords(g, sentence, init);
      var k := IngestWords(g, sentence, words);
      IngestWordsGrowth(g, sentence, init);
      MatchingExtends(g, h, SentenceOf(sentence));
      WordStepGrowth(h, sentence, last, LastOr(init));
      forall w | w in words ensures Present(k, WordOf(w)) {
        if w in init {
          MatchingExtends(h, k, WordOf(w));
        } else {
          assert w == last;
        }
      }
    }
  }

  lemma SentenceStepPresent(g: Graph, text: string, s: Sentence, prev: string)
    requires Present(g, TextOf(text))
    ensures Present(SentenceStep(g, text, s, prev), SentenceOf(s.text))
    ensures forall w :: w in s.words ==> Present(SentenceStep(g, text, s, prev), WordOf(w))
  {
    var h := SentenceHead(g, text, s.text, prev);
    assert Present(h, SentenceOf(s.text));
    IngestWordsPresent(h, s.text, s.words);
    IngestWordsGrowth(h, s.text, s.words);
    MatchingExtends(h, SentenceStep(g, text, s, prev), SentenceOf(s.text));
  }

  /** Every sentence of the text, and every word of every sentence, has a node. */
  predicate AllPresent(g: Graph, sentences: seq<Sentence>) {
    forall s :: s in sentences ==>
      Present(g, SentenceOf(s.text)) && forall w :: w in s.words ==> Present(g, WordOf(w))
  }

  lemma AllPresentExtends(g: Graph, h: Graph, sentences: seq<Sentence>)
    requires Extends(g, h) && AllPresent(g, sentences)
    ensures AllPresent(h, sentences)
  {
    forall s | s in sentences
      ensures Present(h, SentenceOf(s.text)) && forall w :: w in s.words ==> Present(h, WordOf(w))
    {
      MatchingExtends(g, h, SentenceOf(s.text));
      forall w | w in s.words ensures Present(h, WordOf(w)) {
        MatchingExtends(g, h, WordOf(w));
      }
    }
  }

  lemma {:induction false} IngestSentencesPresent(g: Graph, text: string, sentences: seq<Sentence>)
    requires Present(g, TextOf(text))
    ensures AllPresent(IngestSentences(g, text, sentences), sentences)
    decreases |sentences|
  {
    if sentences != [] {
      var init := sentences[..|sentences| - 1];
      var last := sentences[|sentences| - 1];
      IngestSentencesPresent(g, text, init);
      var h := IngestSentences(g, text, init);
      var k := SentenceStep(h, text, last, PrevSentence(init));
      IngestSentencesGrowth(g, text, init);
      MatchingExtends(g, h, TextOf(text));
      SentenceStepPresent(h, text, last, PrevSentence(init));
      SentenceStepGrowth(h, text, last, PrevSentence(init));
      AllPresentExtends(h, k, init);
      forall s | s in sentences
        ensures Present(k, SentenceOf(s.text)) && forall w :: w in s.words ==> Present(k, WordOf(w))
      {
        if s != last {
          assert s in init;
        }
      }
    }
  }

  /** After saving, the text's node with this timestamp and address exists, and
      so does a node for each of its sentences and words. */
  lemma SaveSensoryPresent(g: Graph, text: string, timestamp: nat, ip: string, sentences: seq<Sentence>)
    ensures Present(SaveSensory(g, text, timestamp, ip, sentences), TextKey(text, timestamp, ip))
    ensures AllPresent(SaveSensory(g, text, timestamp, ip, sentences), sentences)
  {
    var g1 := MergeNode(g, TextKey(text, timestamp, ip), TextNode(text, timestamp, ip)).0;
    var t := Matching(g1.nodes, TextKey(text, timestamp, ip))[0];
    assert t in Matching(g1.nodes, TextKey(text, timestamp, ip));
    assert t in Matching(g1.nodes, TextOf(text));
    IngestSentencesPresent(g1, text, sentences);
    IngestSentencesGrowth(g1, text, sentences);
    MatchingExtends(g1, SaveSensory(g, text, timestamp, ip, sentences), TextKey(text, timestamp, ip));
  }

  // ---------------------------------------------------------------------------
  // Re-ingesting adds no sentence and no word node
  // ---------------------------------------------------------------------------

  lemma {:induction false} IngestWordsKeepsNodes(g: Graph, sentence: string, words: seq<string>)
    requires forall w :: w in words ==> Present(g, WordOf(w))
    ensures IngestWords(g, sentence, words).nodes == g.nodes
    decreases |words|
  {
    if words != [] {
      var init := words[..|words| - 1];
      IngestWordsKeepsNodes(g, sentence, init);
      assert words[|words| - 1] in words;
    }
  }

  lemma SentenceStepKeepsNodes(g: Graph, text: string, s: Sentence, prev: string)
    requires Present(g, SentenceOf(s.text))
    requires forall w :: w in s.words ==> Present(g, WordOf(w))
    ensures SentenceStep(g, text, s, prev).nodes == g.nodes
  {
    IngestWordsKeepsNodes(SentenceHead(g, text, s.text, prev), s.text, s.words);
  }

  lemma {:induction false} IngestSentencesKeepsNodes(g: Graph, text: string, sentences: seq<Sentence>)
    requires AllPresent(g, sentences)
    ensures IngestSentences(g, text, sentences).nodes == g.nodes
    decreases |sentences|
  {
    if sentences != [] {
      var init := sentences[..|sentences| - 1];
      var last := sentences[|sentences| - 1];
      assert last in sentences;
      IngestSentencesKeepsNodes(g, text, init);
      SentenceStepKeepsNodes(IngestSentences(g, text, init), text, last, PrevSentence(init));
    }
  }

  /** When every sentence and word already has a node, saving the text adds at
      most its text node, and only when that (text, timestamp, address) is new. */
  lemma SaveSensoryKnownText(g: Graph, text: string, timestamp: nat, ip: string, sentences: seq<Sentence>)
    requires AllPresent(g, sentences)
    ensures SaveSensory(g, text, timestamp, ip, sentences).nodes
      == g.nodes + (if Present(g, TextKey(text, timestamp, ip)) then [] else [TextNode(text, timestamp, ip)])
  {
    var g1 := MergeNode(g, TextKey(text, timestamp, ip), TextNode(text, timestamp, ip)).0;
    MergeNodeExtends(g, TextKey(text, timestamp, ip), TextNode(text, timestamp, ip));
    AllPresentExtends(g, g1, sentences);
    IngestSentencesKeepsNodes(g1, text, sentences);
    assert g1.nodes == g.nodes + (if Present(g, TextKey(text, timestamp, ip)) then [] else [TextNode(text, timestamp, ip)]);
  }

  /** Saving the same text again creates no sentence and no word node; the text
      node is new only when the timestamp or address differs from every earlier
      save, and saving it with the same timestamp and address changes nothing. */
  lemma ReingestAddsNoSentenceOrWord(g: Graph, text: string, t1: nat, ip1: string, t2: nat, ip2: string,
                                     sentences: seq<Sentence>)
    ensures var g1 := SaveSensory(g, text, t1, ip1, sentences);
      SaveSensory(g1, text, t2, ip2, sentences).nodes
        == g1.nodes + (if Present(g1, TextKey(text, t2, ip2)) then [] else [TextNode(text, t2, ip2)])
    ensures var g1 := SaveSensory(g, text, t1, ip1, sentences);
      SaveSensory(g1, text, t1, ip1, sentences).nodes == g1.nodes
    ensures var g1 := SaveSensory(g, text, t1, ip1, sentences);
      SaveSensory(g1, text, t1, ip1, sentences).edges == g1.edges
  {
    var g1 := SaveSensory(g, text, t1, ip1, sentences);
    SaveSensoryPresent(g, text, t1, ip1, sentences);
    SaveSensoryKnownText(g1, text, t2, ip2, sentences);
    SaveSensoryKnownText(g1, text, t1, ip1, sentences);
    SaveSensoryEdges(g, text, t1, ip1, sentences);
    SaveSensoryEdges(g1, text, t1, ip1, sentences);
  }

  // ---------------------------------------------------------------------------
  // The edges written
  // ---------------------------------------------------------------------------

  /** Consecutive words of a sentence, the first one non-empty, are linked by
      NEXT_WORD, and the sentence has each of its words. */
  predicate WordsLinked(g: Graph, sentence: string, words: seq<string>) {
    (forall w :: w in words ==> Linked(g, SentenceOf(sentence), HasAWord, WordOf(w)))
    && forall j :: 0 <= j < |words| - 1 && words[j] != "" ==> Linked(g, WordOf(words[j]), NextWord, WordOf(words[j + 1]))
  }

  lemma WordsLinkedExtends(g: Graph, h: Graph, sentence: string, words: seq<string>)
    requires Extends(g, h) && WordsLinked(g, sentence, words)
    ensures WordsLinked(h, sentence, words)
  {
    forall w | w in words ensures Linked(h, SentenceOf(sentence), HasAWord, WordOf(w)) {
      LinkedExtends(g, h, SentenceOf(sentence), HasAWord, WordOf(w));
    }
    forall j | 0 <= j < |words| - 1 && words[j] != ""
      ensures Linked(h, WordOf(words[j]), NextWord, WordOf(words[j + 1]))
    {
      LinkedExtends(g, h, WordOf(words[j]), NextWord, WordOf(words[j + 1]));
    }
  }

  /** The word step links the sentence to the word and the previous word to it. */
  lemma WordStepLinks(g: Graph, sentence: string, word: string, prev: string)
    requires Present(g, SentenceOf(sentence))
    requires prev != "" ==> Present(g, WordOf(prev))
    ensures Linked(WordStep(g, sentence, word, prev), SentenceOf(sentence), HasAWord, WordOf(word))
    ensures prev != "" ==> Linked(WordStep(g, sentence, word, prev), WordOf(prev), NextWord, WordOf(word))
  {
    var rows := Matching(g.nodes, SentenceOf(sentence));
    var (g1, ws) := MergeNode(g, WordOf(word), WordNode(word, None));
    MergeNodeExtends(g, WordOf(word), WordNode(word, None));
    MatchingExtends(g, g1, SentenceOf(sentence));
    assert rows == Matching(g1.nodes, SentenceOf(sentence));
    MergeEdgesLinks(g1, SentenceOf(sentence), HasAWord, WordOf(word));
    var g2 := MergeEdges(g1, rows, HasAWord, ws);
    if prev != "" {
      MatchingExtends(g, g2, WordOf(prev));
      MergeEdgesLinks(g2, WordOf(prev), NextWord, WordOf(word));
      LinkedExtends(g2, WordStep(g, sentence, word, prev), SentenceOf(sentence), HasAWord, WordOf(word));
    }
  }

  lemma WordsLinkedSnoc(g: Graph, sentence: string, init: seq<string>, last: string)
    requires WordsLinked(g, sentence, init)
    requires Linked(g, SentenceOf(sentence), HasAWord, WordOf(last))
    requires LastOr(init) != "" ==> Linked(g, WordOf(LastOr(init)), NextWord, WordOf(last))
    ensures WordsLinked(g, sentence, init + [last])
  {
    var words := init + [last];
    forall w | w in words ensures Linked(g, SentenceOf(sentence), HasAWord, WordOf(w)) {
      if w != last {
        assert w in init;
      }
    }
    forall j | 0 <= j < |words| - 1 && words[j] != ""
      ensures Linked(g, WordOf(words[j]), NextWord, WordOf(words[j + 1]))
    {
      if j < |init| - 1 {
        assert words[j] == init[j] && words[j + 1] == init[j + 1];
      } else {
        assert words[j] == LastOr(init) && words[j + 1] == last;
      }
    }
  }

  lemma {:induction false} IngestWordsLinks(g: Graph, sentence: string, words: seq<string>)
    requires Present(g, SentenceOf(sentence))
    ensures WordsLinked(IngestWords(g, sentence, words), sentence, words)
    decreases |words|
  {
    if words != [] {
      var init := words[..|words| - 1];
      var last := words[|words| - 1];
      assert words == init + [last];
      var h := IngestWords(g, sentence, init);
      var k := WordStep(h, sentence, last, LastOr(init));
      IngestWordsLinks(g, sentence, init);
      IngestWordsGrowth(g, sentence, init);
      MatchingExtends(g, h, SentenceOf(sentence));
      if init != [] {
        IngestWordsPresent(g, sentence, init);
        assert LastOr(init) in init;
      }
      WordStepLinks(h, sentence, last, LastOr(init));
      WordStepGrowth(h, sentence, last, LastOr(init));
      WordsLinkedExtends(h, k, sentence, init);
      WordsLinkedSnoc(k, sentence, init, last);
    }
  }

  /** Consecutive sentences, the first one non-empty, are linked by NEXT_SENTENCE,
      a text node with this full text has each sentence, and each sentence's
      words are linked as above. */
  predicate SentencesLinked(g: Graph, text: string, sentences: seq<Sentence>) {
    (forall s :: s in sentences ==>
      Linked(g, TextOf(text), HasASentence, SentenceOf(s.text)) && WordsLinked(g, s.text, s.words))
    && forall k :: 0 <= k < |sentences| - 1 && sentences[k].text != "" ==>
      Linked(g, SentenceOf(sentences[k].text), NextSentence, SentenceOf(sentences[k + 1].text))
  }

  lemma SentencesLinkedExtends(g: Graph, h: Graph, text: string, sentences: seq<Sentence>)
    requires Extends(g, h) && SentencesLinked(g, text, sentences)
    ensures SentencesLinked(h, text, sentences)
  {
    forall s | s in sentences
      ensures Linked(h, TextOf(text), HasASentence, SentenceOf(s.text)) && WordsLinked(h, s.text, s.words)
    {
      LinkedExtends(g, h, TextOf(text), HasASentence, SentenceOf(s.text));
      WordsLinkedExtends(g, h, s.text, s.words);
    }
    forall k | 0 <= k < |sentences| - 1 && sentences[k].text != ""
      ensures Linked(h, SentenceOf(sentences[k].text), NextSentence, SentenceOf(sentences[k + 1].text))
    {
      LinkedExtends(g, h, SentenceOf(sentences[k].text), NextSentence, SentenceOf(sentences[k + 1].text));
    }
  }

  lemma SentenceHeadLinks(g: Graph, text: string, sentence: string, prev: string)
    requires Present(g, TextOf(text))
    requires prev != "" ==> Present(g, SentenceOf(prev))
    ensures Present(SentenceHead(g, text, sentence, prev), SentenceOf(sentence))
    ensures Linked(SentenceHead(g, text, sentence, prev), TextOf(text), HasASentence, SentenceOf(sentence))
    ensures prev != "" ==> Linked(SentenceHead(g, text, sentence, prev), SentenceOf(prev), NextSentence, SentenceOf(sentence))
  {
    var texts := Matching(g.nodes, TextOf(text));
    var (g1, ss) := MergeNode(g, SentenceOf(sentence), SentenceNode(sentence));
    MergeNodeExtends(g, SentenceOf(sentence), SentenceNode(sentence));
    MatchingExtends(g, g1, TextOf(text));
    assert texts == Matching(g1.nodes, TextOf(text));
    MergeEdgesLinks(g1, TextOf(text), HasASentence, SentenceOf(sentence));
    var g2 := MergeEdges(g1, texts, HasASentence, ss);
    if prev != "" {
      MatchingExtends(g, g2, SentenceOf(prev));
      MergeEdgesLinks(g2, SentenceOf(prev), NextSentence, SentenceOf(sentence));
      LinkedExtends(g2, SentenceHead(g, text, sentence, prev), TextOf(text), HasASentence, SentenceOf(sentence));
    }
  }

  lemma SentenceStepLinks(g: Graph, text: string, s: Sentence, prev: string)
    requires Present(g, TextOf(text))
    requires prev != "" ==> Present(g, SentenceOf(prev))
    ensures Linked(SentenceStep(g, text, s, prev), TextOf(text), HasASentence, SentenceOf(s.text))
    ensures WordsLinked(SentenceStep(g, text, s, prev), s.text, s.words)
    ensures prev != "" ==> Linked(SentenceStep(g, text, s, prev), SentenceOf(prev), NextSentence, SentenceOf(s.text))
  {
    var h := SentenceHead(g, text, s.text, prev);
    var k := SentenceStep(g, text, s, prev);
    SentenceHeadLinks(g, text, s.text, prev);
    IngestWordsLinks(h, s.text, s.words);
    IngestWordsGrowth(h, s.text, s.words);
    LinkedExtends(h, k, TextOf(text), HasASentence, SentenceOf(s.text));
    if prev != "" {
      LinkedExtends(h, k, SentenceOf(prev), NextSentence, SentenceOf(s.text));
    }
  }

  lemma SentencesLinkedSnoc(g: Graph, text: string, init: seq<Sentence>, last: Sentence)
    requires SentencesLinked(g, text, init)
    requires Linked(g, TextOf(text), HasASentence, SentenceOf(last.text)) && WordsLinked(g, last.text, last.words)
    requires PrevSentence(init) != "" ==> Linked(g, SentenceOf(PrevSentence(init)), NextSentence, SentenceOf(last.text))
    ensures SentencesLinked(g, text, init + [last])
  {
    var sentences := init + [last];
    forall s | s in sentences
      ensures Linked(g, TextOf(text), HasASentence, SentenceOf(s.text)) && WordsLinked(g, s.text, s.words)
    {
      if s != last {
        assert s in init;
      }
    }
    forall j | 0 <= j < |sentences| - 1 && sentences[j].text != ""
      ensures Linked(g, SentenceOf(sentences[j].text), NextSentence, SentenceOf(sentences[j + 1].text))
    {
      if j < |init| - 1 {
        assert sentences[j] == init[j] && sentences[j + 1] == init[j + 1];
      } else {
        assert sentences[j].text == PrevSentence(init) && sentences[j + 1] == last;
      }
    }
  }

  lemma {:induction false} IngestSentencesLinks(g: Graph, text: string, sentences: seq<Sentence>)
    requires Present(g, TextOf(text))
    ensures SentencesLinked(IngestSentences(g, text, sentences), text, sentences)
    decreases |sentences|
  {
    if sentences != [] {
      var init := sentences[..|sentences| - 1];
      var last := sentences[|sentences| - 1];
      assert sentences == init + [last];
      var h := IngestSentences(g, text, init);
      var k := SentenceStep(h, text, last, PrevSentence(init));
      IngestSentencesLinks(g, text, init);
      IngestSentencesGrowth(g, text, init);
      MatchingExtends(g, h, TextOf(text));
      if init != [] {
        IngestSentencesPresent(g, text, init);
        assert init[|init| - 1] in init;
      }
      SentenceStepLinks(h, text, last, PrevSentence(init));
      SentenceStepGrowth(h, text, last, PrevSentence(init));
      SentencesLinkedExtends(h, k, text, init);
      SentencesLinkedSnoc(k, text, init, last);
    }
  }

  /** Saving a text links consecutive sentences by NEXT_SENTENCE and consecutive
      words of each sentence by NEXT_WORD (whenever the earlier one is non-empty,
      the source's truth test), and links each sentence to the text and each
      word to its sentence. */
  lemma SaveSensoryLinks(g: Graph, text: string, timestamp: nat, ip: string, sentences: seq<Sentence>)
    ensures SentencesLinked(SaveSensory(g, text, timestamp, ip, sentences), text, sentences)
  {
    var g1 := MergeNode(g, TextKey(text, timestamp, ip), TextNode(text, timestamp, ip)).0;
    var t := Matching(g1.nodes, TextKey(text, timestamp, ip))[0];
    assert t in Matching(g1.nodes, TextKey(text, timestamp, ip));
    assert t in Matching(g1.nodes, TextOf(text));
    IngestSentencesLinks(g1, text, sentences);
  }

  // ---------------------------------------------------------------------------
  // Exactly which edges a save adds
  // ---------------------------------------------------------------------------

  /** The patterns a save looks nodes up by. */
  predicate SensoryKey(q: Pattern) {
    q.TextOf? || q.SentenceOf? || q.WordOf?
  }

  /** What one pass of the word loop links, every MATCH taken over `nodes`. */
  function WordStepEdges(nodes: seq<Node>, sentence: string, word: string, prev: string): set<Edge> {
    PairEdges(Matching(nodes, SentenceOf(sentence)), HasAWord, Matching(nodes, WordOf(word)))
    + (if prev != "" then PairEdges(Matching(nodes, WordOf(prev)), NextWord, Matching(nodes, WordOf(word))) else {})
  }

  function WordEdges(nodes: seq<Node>, sentence: string, words: seq<string>): set<Edge>
    decreases |words|
  {
    if words == [] then {}
    else
      var init := words[..|words| - 1];
      WordEdges(nodes, sentence, init) + WordStepEdges(nodes, sentence, words[|words| - 1], LastOr(init))
  }

  /** What a sentence's own writes link, every MATCH taken over `nodes`. */
  function HeadEdges(nodes: seq<Node>, text: string, sentence: string, prev: string): set<Edge> {
    PairEdges(Matching(nodes, TextOf(text)), HasASentence, Matching(nodes, SentenceOf(sentence)))
    + (if prev != "" then PairEdges(Matching(nodes, SentenceOf(prev)), NextSentence, Matching(nodes, SentenceOf(sentence))) else {})
  }

  function SentenceEdges(nodes: seq<Node>, text: string, sentences: seq<Sentence>): set<Edge>
    decreases |sentences|
  {
    if sentences == [] then {}
    else
      var init := sentences[..|sentences| - 1];
      var last := sentences[|sentences| - 1];
      SentenceEdges(nodes, text, init) + (HeadEdges(nodes, text, last.text, PrevSentence(init))
      + WordEdges(nodes, last.text, last.words))
  }

  /** A merge whose key already has a node, or whose new node only its own key
      fits, leaves the MATCH of every other key that has a node unchanged. */
  lemma MergeKeepsMatching(g: Graph, p: Pattern, n: Node, q: Pattern)
    requires Matches(n, p) && Present(g, q)
    requires Matches(n, q) ==> q == p
    ensures Matching(MergeNode(g, p, n).0.nodes, q) == Matching(g.nodes, q)
  {
    if Matching(g.nodes, p) == [] {
      MatchingSnocMiss(g.nodes, n, q);
    }
  }

  lemma WordStepStable(g: Graph, sentence: string, word: string, prev: string, q: Pattern)
    requires SensoryKey(q) && Present(g, q)
    ensures Matching(WordStep(g, sentence, word, prev).nodes, q) == Matching(g.nodes, q)
  {
    var k := WordStep(g, sentence, word, prev);
    if Matching(g.nodes, SentenceOf(sentence)) != [] {
      MergeKeepsMatching(g, WordOf(word), WordNode(word, None), q);
      assert k.nodes == MergeNode(g, WordOf(word), WordNode(word, None)).0.nodes;
    } else {
      assert k.nodes == g.nodes;
    }
  }

  lemma {:induction false} IngestWordsStable(g: Graph, sentence: string, words: seq<string>, q: Pattern)
    requires SensoryKey(q) && Present(g, q)
    ensures Matching(IngestWords(g, sentence, words).nodes, q) == Matching(g.nodes, q)
    decreases |words|
  {
    if words != [] {
      var init := words[..|words| - 1];
      IngestWordsStable(g, sentence, init, q);
      WordStepStable(IngestWords(g, sentence, init), sentence, words[|words| - 1], LastOr(init), q);
    }
  }

  lemma SentenceStepStable(g: Graph, text: string, s: Sentence, prev: string, q: Pattern)
    requires SensoryKey(q) && Present(g, q)
    ensures Matching(SentenceStep(g, text, s, prev).nodes, q) == Matching(g.nodes, q)
  {
    SentenceHeadStable(g, text, s.text, prev, q);
    IngestWordsStable(SentenceHead(g, text, s.text, prev), s.text, s.words, q);
  }

  lemma SentenceHeadStable(g: Graph, text: string, sentence: string, prev: string, q: Pattern)
    requires SensoryKey(q) && Present(g, q)
    ensures Matching(SentenceHead(g, text, sentence, prev).nodes, q) == Matching(g.nodes, q)
  {
    var m := SentenceHead(g, text, sentence, prev);
    if Matching(g.nodes, TextOf(text)) != [] {
      MergeKeepsMatching(g, SentenceOf(sentence), SentenceNode(sentence), q);
      assert m.nodes == MergeNode(g, SentenceOf(sentence), SentenceNode(sentence)).0.nodes;
    } else {
      assert m.nodes == g.nodes;
    }
  }

  lemma WordStepEdgesAgree(n1: seq<Node>, n2: seq<Node>, sentence: string, word: string, prev: string)
    requires Matching(n1, SentenceOf(sentence)) == Matching(n2, SentenceOf(sentence))
    requires Matching(n1, WordOf(word)) == Matching(n2, WordOf(word))
    requires prev != "" ==> Matching(n1, WordOf(prev)) == Matching(n2, WordOf(prev))
    ensures WordStepEdges(n1, sentence, word, prev) == WordStepEdges(n2, sentence, word, prev)
  {
  }

  lemma HeadEdgesAgree(n1: seq<Node>, n2: seq<Node>, text: string, sentence: string, prev: string)
    requires Matching(n1, TextOf(text)) == Matching(n2, TextOf(text))
    requires Matching(n1, SentenceOf(sentence)) == Matching(n2, SentenceOf(sentence))
    requires prev != "" ==> Matching(n1, SentenceOf(prev)) == Matching(n2, SentenceOf(prev))
    ensures HeadEdges(n1, text, sentence, prev) == HeadEdges(n2, text, sentence, prev)
  {
  }

  /** The word edges depend on the nodes only through the MATCH of the
      sentence and of each word. */
  lemma {:induction false} WordEdgesAgree(n1: seq<Node>, n2: seq<Node>, sentence: string, words: seq<string>)
    requires Matching(n1, SentenceOf(sentence)) == Matching(n2, SentenceOf(sentence))
    requires forall i :: 0 <= i < |words| ==> Matching(n1, WordOf(words[i])) == Matching(n2, WordOf(words[i]))
    ensures WordEdges(n1, sentence, words) == WordEdges(n2, sentence, words)
    decreases |words|
  {
    if words != [] {
      var init := words[..|words| - 1];
      WordEdgesAgree(n1, n2, sentence, init);
      WordStepEdgesAgree(n1, n2, sentence, words[|words| - 1], LastOr(init));
    }
  }

  lemma {:induction false} SentenceEdgesAgree(n1: seq<Node>, n2: seq<Node>, text: string, sentences: seq<Sentence>)
    requires Matching(n1, TextOf(text)) == Matching(n2, TextOf(text))
    requires forall i :: 0 <= i < |sentences| ==>
      Matching(n1, SentenceOf(sentences[i].text)) == Matching(n2, SentenceOf(sentences[i].text))
    requires forall i, j :: 0 <= i < |sentences| && 0 <= j < |sentences[i].words| ==>
      Matching(n1, WordOf(sentences[i].words[j])) == Matching(n2, WordOf(sentences[i].words[j]))
    ensures SentenceEdges(n1, text, sentences) == SentenceEdges(n2, text, sentences)
    decreases |sentences|
  {
    if sentences != [] {
      var init := sentences[..|sentences| - 1];
      var last := sentences[|sentences| - 1];
      SentenceEdgesAgree(n1, n2, text, init);
      WordEdgesAgree(n1, n2, last.text, last.words);
      HeadEdgesAgree(n1, n2, text, last.text, PrevSentence(init));
    }
  }

  lemma WordStepAdds(g: Graph, sentence: string, word: string, prev: string)
    requires Present(g, SentenceOf(sentence))
    ensures var k := WordStep(g, sentence, word, prev);
      k.edges == g.edges + WordStepEdges(k.nodes, sentence, word, prev)
  {
    var rows := Matching(g.nodes, SentenceOf(sentence));
    var (g1, ws) := MergeNode(g, WordOf(word), WordNode(word, None));
    MergeKeepsMatching(g, WordOf(word), WordNode(word, None), SentenceOf(sentence));
    var g2 := MergeEdges(g1, rows, HasAWord, ws);
    var k := WordStep(g, sentence, word, prev);
    var linked := PairEdges(rows, HasAWord, ws);
    var chained := if prev != "" then PairEdges(Matching(g2.nodes, WordOf(prev)), NextWord, ws) else {};
    assert k.nodes == g1.nodes && g2.edges == g.edges + linked && k.edges == g2.edges + chained;
    WordStepEdgesOf(k.nodes, sentence, word, prev, rows, ws, Matching(g2.nodes, WordOf(prev)));
    Regroup(g.edges, g2.edges, k.edges, linked, chained, WordStepEdges(k.nodes, sentence, word, prev));
  }

  /** `WordStepEdges` over the MATCH results already at hand. */
  lemma WordStepEdgesOf(nodes: seq<Node>, sentence: string, word: string, prev: string,
                        rows: seq<nat>, ws: seq<nat>, prevs: seq<nat>)
    requires rows == Matching(nodes, SentenceOf(sentence)) && ws == Matching(nodes, WordOf(word))
    requires prevs == Matching(nodes, WordOf(prev))
    ensures WordStepEdges(nodes, sentence, word, prev)
         == PairEdges(rows, HasAWord, ws) + (if prev != "" then PairEdges(prevs, NextWord, ws) else {})
  {
  }

  /** `HeadEdges` over the MATCH results already at hand. */
  lemma HeadEdgesOf(nodes: seq<Node>, text: string, sentence: string, prev: string,
                    texts: seq<nat>, ss: seq<nat>, prevs: seq<nat>)
    requires texts == Matching(nodes, TextOf(text)) && ss == Matching(nodes, SentenceOf(sentence))
    requires prevs == Matching(nodes, SentenceOf(prev))
    ensures HeadEdges(nodes, text, sentence, prev)
         == PairEdges(texts, HasASentence, ss) + (if prev != "" then PairEdges(prevs, NextSentence, ss) else {})
  {
  }

  /** Set union regrouped, kept apart so that larger proofs need not reason
      about set equality. */
  lemma Regroup(base: set<Edge>, mid: set<Edge>, top: set<Edge>, a: set<Edge>, b: set<Edge>, c: set<Edge>)
    requires mid == base + a && top == mid + b && c == a + b
    ensures top == base + c
  {
  }

  lemma SentenceHeadAdds(g: Graph, text: string, sentence: string, prev: string)
    requires Present(g, TextOf(text))
    ensures var m := SentenceHead(g, text, sentence, prev);
      m.edges == g.edges + HeadEdges(m.nodes, text, sentence, prev)
  {
    var texts := Matching(g.nodes, TextOf(text));
    var (g1, ss) := MergeNode(g, SentenceOf(sentence), SentenceNode(sentence));
    MergeKeepsMatching(g, SentenceOf(sentence), SentenceNode(sentence), TextOf(text));
    var g2 := MergeEdges(g1, texts, HasASentence, ss);
    var m := SentenceHead(g, text, sentence, prev);
    var linked := PairEdges(texts, HasASentence, ss);
    var chained := if prev != "" then PairEdges(Matching(g2.nodes, SentenceOf(prev)), NextSentence, ss) else {};
    assert m.nodes == g1.nodes && g2.edges == g.edges + linked && m.edges == g2.edges + chained;
    HeadEdgesOf(m.nodes, text, sentence, prev, texts, ss, Matching(g2.nodes, SentenceOf(prev)));
    Regroup(g.edges, g2.edges, m.edges, linked, chained, HeadEdges(m.nodes, text, sentence, prev));
  }

  /** The word loop adds exactly the word edges over the nodes it ends with. */
  lemma {:induction false} IngestWordsAdds(g: Graph, sentence: string, words: seq<string>)
    requires Present(g, SentenceOf(sentence))
    ensures var k := IngestWords(g, sentence, words);
      k.edges == g.edges + WordEdges(k.nodes, sentence, words)
    decreases |words|
  {
    if words != [] {
      var init := words[..|words| - 1];
      var last := words[|words| - 1];
      var h := IngestWords(g, sentence, init);
      var k := IngestWords(g, sentence, words);
      IngestWordsAdds(g, sentence, init);
      IngestWordsStable(g, sentence, init, SentenceOf(sentence));
      IngestWordsPresent(g, sentence, init);
      if init != [] {
        assert LastOr(init) in init;
      }
      WordStepAdds(h, sentence, last, LastOr(init));
      WordStepKeepsEarlierEdges(h, sentence, init, last);
      Regroup(g.edges, h.edges, k.edges, WordEdges(k.nodes, sentence, init),
              WordStepEdges(k.nodes, sentence, last, LastOr(init)), WordEdges(k.nodes, sentence, words));
    }
  }

  /** A later word leaves the MATCH of everything the earlier ones look up,
      and so the edges they stand for. */
  lemma WordStepKeepsEarlierEdges(h: Graph, sentence: string, init: seq<string>, last: string)
    requires Present(h, SentenceOf(sentence))
    requires forall w :: w in init ==> Present(h, WordOf(w))
    ensures var k := WordStep(h, sentence, last, LastOr(init));
      WordEdges(h.nodes, sentence, init) == WordEdges(k.nodes, sentence, init)
  {
    var k := WordStep(h, sentence, last, LastOr(init));
    WordStepStable(h, sentence, last, LastOr(init), SentenceOf(sentence));
    forall i | 0 <= i < |init| ensures Matching(h.nodes, WordOf(init[i])) == Matching(k.nodes, WordOf(init[i])) {
      assert init[i] in init;
      WordStepStable(h, sentence, last, LastOr(init), WordOf(init[i]));
    }
    WordEdgesAgree(h.nodes, k.nodes, sentence, init);
  }

  lemma SentenceStepAdds(g: Graph, text: string, s: Sentence, prev: string)
    requires Present(g, TextOf(text))
    requires prev != "" ==> Present(g, SentenceOf(prev))
    ensures var k := SentenceStep(g, text, s, prev);
      k.edges == g.edges + (HeadEdges(k.nodes, text, s.text, prev) + WordEdges(k.nodes, s.text, s.words))
  {
    var m := SentenceHead(g, text, s.text, prev);
    var k := SentenceStep(g, text, s, prev);
    SentenceHeadAdds(g, text, s.text, prev);
    MergeKeepsMatching(g, SentenceOf(s.text), SentenceNode(s.text), TextOf(text));
    if prev != "" {
      MergeKeepsMatching(g, SentenceOf(s.text), SentenceNode(s.text), SentenceOf(prev));
    }
    IngestWordsAdds(m, s.text, s.words);
    IngestWordsStable(m, s.text, s.words, TextOf(text));
    IngestWordsStable(m, s.text, s.words, SentenceOf(s.text));
    if prev != "" {
      IngestWordsStable(m, s.text, s.words, SentenceOf(prev));
    }
    HeadEdgesAgree(m.nodes, k.nodes, text, s.text, prev);
    Regroup(g.edges, m.edges, k.edges, HeadEdges(k.nodes, text, s.text, prev), WordEdges(k.nodes, s.text, s.words),
            HeadEdges(k.nodes, text, s.text, prev) + WordEdges(k.nodes, s.text, s.words));
  }

  /** The sentence loop adds exactly the sentence and word edges over the nodes
      it ends with. */
  lemma {:induction false} IngestSentencesAdds(g: Graph, text: string, sentences: seq<Sentence>)
    requires Present(g, TextOf(text))
    ensures var k := IngestSentences(g, text, sentences);
      k.edges == g.edges + SentenceEdges(k.nodes, text, sentences)
    decreases |sentences|
  {
    if sentences != [] {
      var init := sentences[..|sentences| - 1];
      var last := sentences[|sentences| - 1];
      var h := IngestSentences(g, text, init);
      var k := IngestSentences(g, text, sentences);
      var prev := PrevSentence(init);
      IngestSentencesAdds(g, text, init);
      IngestSentencesPresent(g, text, init);
      IngestSentencesGrowth(g, text, init);
      MatchingExtends(g, h, TextOf(text));
      if init != [] {
        assert init[|init| - 1] in init;
      }
      SentenceStepAdds(h, text, last, prev);
      SentenceStepKeepsEarlierEdges(h, text, init, last);
      Regroup(g.edges, h.edges, k.edges, SentenceEdges(k.nodes, text, init),
              HeadEdges(k.nodes, text, last.text, prev) + WordEdges(k.nodes, last.text, last.words),
              SentenceEdges(k.nodes, text, sentences));
    }
  }

  /** A later sentence leaves the MATCH of everything the earlier ones look up,
      and so the edges they stand for. */
  lemma SentenceStepKeepsEarlierEdges(h: Graph, text: string, init: seq<Sentence>, last: Sentence)
    requires Present(h, TextOf(text)) && AllPresent(h, init)
    ensures var k := SentenceStep(h, text, last, PrevSentence(init));
      SentenceEdges(h.nodes, text, init) == SentenceEdges(k.nodes, text, init)
  {
    var prev := PrevSentence(init);
    var k := SentenceStep(h, text, last, prev);
    SentenceStepStable(h, text, last, prev, TextOf(text));
    forall i | 0 <= i < |init|
      ensures Matching(h.nodes, SentenceOf(init[i].text)) == Matching(k.nodes, SentenceOf(init[i].text))
    {
      assert init[i] in init;
      SentenceStepStable(h, text, last, prev, SentenceOf(init[i].text));
    }
    forall i, j | 0 <= i < |init| && 0 <= j < |init[i].words|
      ensures Matching(h.nodes, WordOf(init[i].words[j])) == Matching(k.nodes, WordOf(init[i].words[j]))
    {
      assert init[i] in init && init[i].words[j] in init[i].words;
      SentenceStepStable(h, text, last, prev, WordOf(init[i].words[j]));
    }
    SentenceEdgesAgree(h.nodes, k.nodes, text, init);
  }

  /** Saving a text adds exactly the edges of its sentence and word loops, each
      MATCH taken over the nodes the save ends with: every edge already there
      stays, and nothing else is linked. */
  lemma SaveSensoryEdges(g: Graph, text: string, timestamp: nat, ip: string, sentences: seq<Sentence>)
    ensures var h := SaveSensory(g, text, timestamp, ip, sentences);
      h.edges == g.edges + SentenceEdges(h.nodes, text, sentences)
  {
    var g1 := MergeNode(g, TextKey(text, timestamp, ip), TextNode(text, timestamp, ip)).0;
    var t := Matching(g1.nodes, TextKey(text, timestamp, ip))[0];
    assert t in Matching(g1.nodes, TextKey(text, timestamp, ip));
    assert t in Matching(g1.nodes, TextOf(text));
    IngestSentencesAdds(g1, text, sentences);
  }

  // ---------------------------------------------------------------------------
  // The perceptual stage's word merge
  // ---------------------------------------------------------------------------

  /** The four-property key of a perceptual Word: the tag, its long name or
      "Unknown", and the word's entity type or "None" when it has none (or an
      empty one). */
  function PamTags(word: string, pos: string, longNames: map<string, string>, entities: map<string, string>): (t: WordTags)
    ensures t.pos == pos
    ensures t.posLong == "Unknown" <== pos !in longNames
    ensures pos in longNames ==> t.posLong == longNames[pos]
    ensures word in entities && entities[word] != "" ==> t.namedEntity == entities[word]
    ensures t.namedEntity != ""
    ensures t.namedEntity == "None" <==> word !in entities || entities[word] == "" || entities[word] == "None"
  {
    WordTags(pos, if pos in longNames then longNames[pos] else "Unknown",
      if word in entities && entities[word] != "" then entities[word] else "None")
  }

  /** The perceptual stage's per-word merge: a Word keyed on all four
      properties, linked from the sentence. */
  function PamWordStep(g: Graph, sentence: string, word: string, tags: WordTags): Graph {
    var (g1, ws) := MergeNode(g, TaggedWordKey(word, tags), WordNode(word, Some(tags)));
    MergeEdges(g1, Matching(g1.nodes, SentenceOf(sentence)), HasAWord, ws)
  }

  /** The perceptual stage merges on four properties, so a word the sensory
      stage stored by text alone gains a second Word node with the same text;
      the sensory merge, keyed on the text alone, would have reused it. */
  lemma PamDuplicatesSensoryWord(g: Graph, sentence: string, word: string, tags: WordTags)
    requires Present(g, WordOf(word))
    requires !Present(g, TaggedWordKey(word, tags))
    ensures |Matching(PamWordStep(g, sentence, word, tags).nodes, WordOf(word))| == |Matching(g.nodes, WordOf(word))| + 1
    ensures |Matching(PamWordStep(g, sentence, word, tags).nodes, WordOf(word))| >= 2
    ensures WordStep(g, sentence, word, "").nodes == g.nodes
  {
    var nodes := g.nodes + [WordNode(word, Some(tags))];
    assert nodes[..|nodes| - 1] == g.nodes;
  }
}
