/**
 * The small classifiers the chatbot applies to what it hears: the sentence-type
 * rule, the mood rule over sentiment scores, the Treebank-to-WordNet part of
 * speech map, name matching against the session's username, and the label and
 * direction of the social edge a stated relation becomes.  The outputs of the
 * tokenizer, the tagger and the sentiment scorer are inputs here.
 */
module Perception {

  import opened Wrappers
  import opened PyStr

  // ---------------------------------------------------------------------------
  // classify_sentence_type
  // ---------------------------------------------------------------------------

  const WhWords: set<string> := {"what", "when", "where", "who", "why", "how", "which", "whom", "whose"}

  const AuxModals: set<string> := {"is", "are", "was", "were", "do", "does", "did", "can", "could",
    "will", "would", "should", "shall", "may", "might", "have", "has", "had"}

  const SubjectTags: set<string> := {"PRP", "NN", "NNP"}

  /** The tag of the first word, or "" when the tagger gave none. */
  function FirstTag(tags: seq<string>): string {
    if tags == [] then "" else tags[0]
  }

  /** No subject tag among the first two tags. */
  predicate NoLeadingSubject(tags: seq<string>) {
    forall i :: 0 <= i < |tags| && i < 2 ==> tags[i] !in SubjectTags
  }

  /** The second word's tag is one of `options`. */
  predicate SecondTagIn(tags: seq<string>, options: set<string>) {
    |tags| > 1 && tags[1] in options
  }

  /** `classify_sentence_type`, given the sentence's tokens and their tags. */
  function ClassifySentenceType(words: seq<string>, tags: seq<string>): (r: string)
    ensures r == "unknown" <==> words == []
    ensures r == "interrogative" <==> words != [] && (Lower(words[0]) in WhWords || Lower(words[0]) in AuxModals)
    ensures r == "imperative" ==> FirstTag(tags) == "VB" && NoLeadingSubject(tags)
    ensures r in {"unknown", "interrogative", "imperative", "exclamatory", "declarative"}
  {
    if words == [] then "unknown"
    else
      var first := Lower(words[0]);
      var firstTag := FirstTag(tags);
      if first in WhWords || first in AuxModals then "interrogative"
      else if firstTag == "VB" && NoLeadingSubject(tags) then "imperative"
      else if firstTag == "UH" || (first in {"what", "how"} && SecondTagIn(tags, {"JJ", "RB"})) then "exclamatory"
      else "declarative"
  }

  /** "what" and "how" are wh-words, so the adjective/adverb exclamatory test never
      fires: a sentence is exclamatory only when its first tag is UH. */
  lemma ExclamatoryOnlyByInterjection(words: seq<string>, tags: seq<string>)
    ensures ClassifySentenceType(words, tags) == "exclamatory" ==> FirstTag(tags) == "UH"
  {
    if words != [] {
      var first := Lower(words[0]);
      if first in {"what", "how"} {
        assert first in WhWords;
      }
    }
  }

  // ---------------------------------------------------------------------------
  // The mood rule
  // ---------------------------------------------------------------------------

  datatype Mood = Positive | Negative | Neutral {
    function Name(): string {
      match this
      case Positive => "positive"
      case Negative => "negative"
      case Neutral => "neutral"
    }
  }

  /** The dominant-sentiment rule: positive or negative only when that score is
      strictly above the other two, neutral otherwise. */
  function MoodOf(pos: real, neg: real, neu: real): (m: Mood)
    ensures m == Positive <==> pos > neg && pos > neu
    ensures m == Negative <==> neg > pos && neg > neu
  {
    if pos > neg && pos > neu then Positive
    else if neg > pos && neg > neu then Negative
    else Neutral
  }

  /** Ties go to neutral: when positive and negative scores are equal, or when
      either of them only shares the top score with the neutral one. */
  lemma MoodTiesAreNeutral(pos: real, neg: real, neu: real)
    requires pos == neg || (pos == neu && neg <= pos) || (neg == neu && pos <= neg)
    ensures MoodOf(pos, neg, neu) == Neutral
  {
  }

  /** Swapping the positive and negative scores swaps the mood. */
  lemma MoodSymmetric(pos: real, neg: real, neu: real)
    ensures MoodOf(pos, neg, neu) == Positive <==> MoodOf(neg, pos, neu) == Negative
    ensures MoodOf(pos, neg, neu) == Neutral <==> MoodOf(neg, pos, neu) == Neutral
  {
  }

  // ---------------------------------------------------------------------------
  // get_wordnet_pos
  // ---------------------------------------------------------------------------

  /** WordNet's parts of speech. */
  datatype WordnetPos = Adj | Verb | Noun | Adv {
    /** WordNet's one-letter code. */
    function Code(): char {
      match this
      case Adj => 'a'
      case Verb => 'v'
      case Noun => 'n'
      case Adv => 'r'
    }
  }

  /** `get_wordnet_pos`: the part of speech a Treebank tag's first letter names. */
  function WordnetPosOf(tag: string): (r: Option<WordnetPos>)
    ensures r == Some(Adj) <==> StartsWith(tag, "J")
    ensures r == Some(Verb) <==> StartsWith(tag, "V")
    ensures r == Some(Noun) <==> StartsWith(tag, "N")
    ensures r == Some(Adv) <==> StartsWith(tag, "R")
    ensures r.None? <==> tag == [] || tag[0] !in {'J', 'V', 'N', 'R'}
  {
    if StartsWith(tag, "J") then Some(Adj)
    else if StartsWith(tag, "V") then Some(Verb)
    else if StartsWith(tag, "N") then Some(Noun)
    else if StartsWith(tag, "R") then Some(Adv)
    else None
  }

  // ---------------------------------------------------------------------------
  // check_name
  // ---------------------------------------------------------------------------

  /** The loop over the parts of the session name: some part equals the argument
      or starts with it. */
  function AnyPartMatches(parts: seq<string>, arg: string): bool
  {
    if parts == [] then false
    else parts[0] == arg || StartsWith(parts[0], arg) || AnyPartMatches(parts[1..], arg)
  }

  /** `check_name` as written: empty inputs fail; otherwise the per-part tests,
      then the substring test. */
  function CheckName(argumentName: string, sessionUsername: string): bool
  {
    if argumentName == "" || sessionUsername == "" then false
    else
      var a := Strip(Lower(argumentName));
      var s := Strip(Lower(sessionUsername));
      AnyPartMatches(SplitWs(s), a) || Contains(s, a)
  }

  lemma {:induction false} PartMatchIsSubstring(parts: seq<string>, s: string, arg: string)
    requires forall p :: p in parts ==> Contains(s, p)
    ensures AnyPartMatches(parts, arg) ==> Contains(s, arg)
    decreases |parts|
  {
    if parts != [] {
      if parts[0] == arg || StartsWith(parts[0], arg) {
        assert StartsWith(parts[0], arg);
        ContainsPrefix(s, parts[0], arg);
      } else {
        PartMatchIsSubstring(parts[1..], s, arg);
      }
    }
  }

  /** The per-part tests add nothing: `check_name` holds exactly when both inputs
      are non-empty and the stripped, lower-cased argument occurs in the stripped,
      lower-cased session name. */
  lemma CheckNameIsSubstring(argumentName: string, sessionUsername: string)
    ensures CheckName(argumentName, sessionUsername)
      <==> argumentName != "" && sessionUsername != ""
           && Contains(Strip(Lower(sessionUsername)), Strip(Lower(argumentName)))
  {
    if argumentName != "" && sessionUsername != "" {
      var s := Strip(Lower(sessionUsername));
      SplitWsParts(s);
      PartMatchIsSubstring(SplitWs(s), s, Strip(Lower(argumentName)));
    }
  }

  // ---------------------------------------------------------------------------
  // save_social_memory: the edge a stated relation becomes
  // ---------------------------------------------------------------------------

  const SpouseWords: set<string> := {"MARRIED", "SPOUSE", "WIFE", "HUSBAND", "PARTNER"}

  /** The relation upper-cased with spaces turned into underscores. */
  function RelationKey(relation: string): (r: string)
    ensures |r| == |relation|
    ensures forall i :: 0 <= i < |r| ==> r[i] == (if relation[i] == ' ' then '_' else UpperChar(relation[i]))
    ensures forall i :: 0 <= i < |r| ==> r[i] != ' '
  {
    ReplaceChar(Upper(relation), ' ', '_')
  }

  predicate IsSpouseRelation(relation: string) {
    RelationKey(relation) in SpouseWords
  }

  /** The edge label: IS_MARRIED_TO for the spouse words, IS_<REL>_OF otherwise. */
  function SocialLabel(relation: string): string {
    if IsSpouseRelation(relation) then "IS_MARRIED_TO" else "IS_" + RelationKey(relation) + "_OF"
  }

  /** A spouse word, in any case ("wife", "Wife", "WIFE"), gives the two-way
      marriage label. */
  lemma SpouseInAnyCase(r: string)
    requires Upper(r) in SpouseWords
    ensures IsSpouseRelation(r) && SocialLabel(r) == "IS_MARRIED_TO"
  {
    forall i | 0 <= i < |r| ensures r[i] != ' ' {
      SpouseWordsUnspaced(Upper(r), i);
    }
    assert RelationKey(r) == Upper(r);
  }

  /** No spouse word holds a space. */
  lemma SpouseWordsUnspaced(w: string, i: int)
    requires w in SpouseWords && 0 <= i < |w|
    ensures w[i] != ' '
  {
  }

  /** A spaced relation gives its words joined by an underscore. */
  lemma BestFriendLabel()
    ensures SocialLabel("best friend") == "IS_BEST_FRIEND_OF"
  {
    var r := RelationKey("best friend");
    assert r[0] == 'B' && r[1] == 'E' && r[2] == 'S' && r[3] == 'T' && r[4] == '_';
    assert r[5] == 'F' && r[6] == 'R' && r[7] == 'I' && r[8] == 'E' && r[9] == 'N' && r[10] == 'D';
    assert r == "BEST_FRIEND";
    assert r !in SpouseWords;
  }

  /** An end of a social edge: the person node merged by name, or the user's node. */
  datatype Endpoint = PersonNode(name: string) | UserNode(email: string)

  datatype SocialEdge = SocialEdge(src: Endpoint, edgeLabel: string, dst: Endpoint)

  /** The edges merged for a stated relation: both directions for a spouse, one
      edge from the person to the user otherwise. */
  function SocialEdges(person1: string, email: string, relation: string): (edges: seq<SocialEdge>)
    ensures |edges| == (if IsSpouseRelation(relation) then 2 else 1)
    ensures edges[0] == SocialEdge(PersonNode(Capitalize(Strip(person1))), SocialLabel(relation), UserNode(email))
    ensures IsSpouseRelation(relation) ==>
      edges[1] == SocialEdge(UserNode(email), "IS_MARRIED_TO", PersonNode(Capitalize(Strip(person1))))
  {
    var p := PersonNode(Capitalize(Strip(person1)));
    var u := UserNode(email);
    var l := SocialLabel(relation);
    if IsSpouseRelation(relation) then [SocialEdge(p, l, u), SocialEdge(u, l, p)]
    else [SocialEdge(p, l, u)]
  }

  /** The middle of `IS_<key>_OF` gives the key back. */
  lemma WrappedKeyInjective(a: string, b: string)
    ensures "IS_" + a + "_OF" == "IS_" + b + "_OF" ==> a == b
  {
    var sa, sb := "IS_" + a + "_OF", "IS_" + b + "_OF";
    assert sa[3..|sa| - 3] == a;
    assert sb[3..|sb| - 3] == b;
  }

  /** Only the spouse words give the marriage label, and any other relation's
      label gives its key back: different keys, different labels. */
  lemma SocialLabelsDistinct(r1: string, r2: string)
    ensures SocialLabel(r1) == "IS_MARRIED_TO" <==> IsSpouseRelation(r1)
    ensures !IsSpouseRelation(r1) && !IsSpouseRelation(r2) && SocialLabel(r1) == SocialLabel(r2)
      ==> RelationKey(r1) == RelationKey(r2)
  {
    if !IsSpouseRelation(r1) {
      var l := SocialLabel(r1);
      assert l[|l| - 1] == 'F';
    }
    WrappedKeyInjective(RelationKey(r1), RelationKey(r2));
  }
}
