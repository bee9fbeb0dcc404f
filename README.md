# Freak-AI core, modelled in Dafny

Freak-AI is a companion chatbot. An AIML bot answers the user. Around it sit a
Prolog-style fact file per user (date of birth, gender, relations), a Neo4j
memory graph, and a temperature and humidity sensor. The sensor is read either
from a serial DHT11 board (`app.py`) or from an ESP32 over HTTP
(`conversation.py`). This project models the deterministic logic inside that
glue. Every library call (tokeniser, POS tagger, sentiment scores, date parser,
clock, uuid, network) is treated as an input.

Modules (one file each):

- `Wrappers` (`wrappers.dfy`): the `Option` type.
- `PyStr` (`pystr.dfy`): the Python string operations the core relies on.
  These are `lower`/`upper`/`capitalize` (ASCII), `strip` with Python's
  whitespace set, `split`/`join`, substring tests, and `str(int)`/`int(str)`.
- `FactStore` (`facts.dfy`): the fact-file writers, what their lines mean once
  loaded, and the first-match lookups `find_dob`, `find_age`, `find_gender`,
  `find_person` and `check_relation`.
- `Perception` (`perception.dfy`): sentence-type classification, the mood rule,
  the WordNet tag map, `check_name`, and the social-memory edge label.
- `GraphStore` (`graph.dfy`): the memory graph as an abstract store.
  - The value `Graph` holds a node sequence (the index is the node's identity)
    and an edge set.
  - MATCH binds every node that fits, MERGE inserts only when nothing fits, and
    CREATE always inserts.
  - The class `MemoryStore` applies these in place.
- `SensoryMemory` (`sensory.dfy`): `save_sensory_memory`'s nested loops, and
  the word write of `save_pam_from_sensory_memory`.
- `EpisodicMemory` (`episodic.dfy`): the session dictionary (class `Session`),
  `get_session_id`, `create_episode`, `end_episode` and `create_interaction`.
- `InteractionChain` (`interactions.dfy`): the proof that the interactions of
  one episode form a single NEXT_INTERACTION chain in call order.
- `Dispatch` (`dispatch.dfy`): the bot's predicate table (class `Bot`).
  - It covers which `prompt_check` handlers fire and the per-turn clearing
    lists.
  - It also covers the three entry points: `get_bot_response`,
    `get_bot_response_with_sensor`, and the web route's `get_bot_response`.
- `Sensors` (`sensors.dfy`): both sensor managers as classes over their
  snapshot dictionaries. This includes validation, the one-reading update,
  context gating, the comfort score and the recommendations.
- `Presentation` (`presentation.dfy`): episode-duration text, chat-history
  grouping, and graph-statistics accumulation.

The model follows what the code does in places where it is easy to misread:

- `check_name`'s per-part tests are subsumed by its substring test.
- The exclamatory branch of `classify_sentence_type` that tests "what/how" is
  unreachable.
- A negative episode duration prints as minutes and seconds because of floor
  division.
- The graph statistics overwrite per-label counts instead of adding them.

## Model

| member | source | states |
|---|---|---|
| FactStore.ParseRender | app.py:705-764 | every well-formed clause a writer renders as a line parses back to the same clause |
| FactStore.ParseArgsRender | app.py:732 | the argument list of a clause, including `date(Y,M,D)` terms, parses back to itself |
| FactStore.ParseDateRender | app.py:732 | a rendered `Y,M,D` date parses back to the same three integers |
| FactStore.LoadAppend | app.py:713-714 | loading a fact file after an appended line gives the earlier clauses followed by the new one |
| FactStore.AppendLine | app.py:710-717 | with a fact file in the session, the file gains exactly the rendered line at its end; without one, nothing is written |
| FactStore.FirstMatch | app.py:460 | the answer is the first clause that matches the query; None exactly when no clause matches |
| FactStore.FirstMatchAppend | app.py:460 | an appended clause answers a query only when no earlier clause does |
| FactStore.ResolvePerson | app.py:456 | `USER` resolves to the lower-cased session username and fails without one; any other name is lower-cased |
| FactStore.MonthName | app.py:473 | months 1..12 give their English name, 0 gives "", and -13..12 is exactly the range that does not raise |
| FactStore.AgeCountsAnniversaries | app.py:503-504 | the age is the number of birthdays reached by today: the k-th anniversary is not after today iff k <= age |
| FactStore.AgeExamples | app.py:503-504 | a birth date of 2000-03-15 gives 24 on 2025-03-10, 25 on 2025-03-20, and 25 on the birthday itself |
| FactStore.DobFound | app.py:721-745 | after a first DOB fact for a user, the DOB query answers with that clause and its date term |
| FactStore.DobRoundTrip | app.py:455-482 | `find_dob("USER")` after recording a date sets `person` to the capitalised name, `dob` to "day month-name year", and `dob_person` to "" |
| FactStore.AgeRoundTrip | app.py:485-511 | `find_age("USER")` after recording a date sets `age` to the age computed on the given day |
| FactStore.MaleRoundTrip | app.py:517-551 | after `male(user)` is appended, `find_gender` answers "male" |
| FactStore.FemaleRoundTrip | app.py:517-551 | after `female(user)` is appended with no male fact present, `find_gender` answers "female" |
| FactStore.RelationRoundTrip | app.py:674-687 | `find_person(user, rel)` returns the person `append_relation_fact` recorded, unless an earlier clause already answers |
| FactStore.SpouseRoundTrip | app.py:690-703 | asking for a wife or husband of `USER` is looked up as `married`, and `person2` is the capitalised recorded spouse |
| FactStore.NoRelationGivesUnknown | app.py:690-703 | with no matching clause, `person2` is set to "Unknown" |
| PyStr.StripEmptyIffAllSpace | app.py:1745-1746 | `strip()` gives "" exactly when every character is whitespace |
| PyStr.JoinSplit | conversation.py:120 | joining the `split("; ")` pieces with the same separator gives back the text |
| PyStr.IntToStringRoundTrip | app.py:499-505 | `str` of any integer, negatives included, reads back through `int` to the same integer |
| PyStr.PyIntExtendsParseInt | app.py:499-501 | `int()` reads every optionally negative digit string to the number it denotes, whitespace stripped |
| PyStr.PyIntSignAndUnderscores | conversation.py:578 | for any digits grouped by single underscores, `int()` reads them with or without a leading `+` to the same number, and with a leading `-` to its negation |
| PyStr.PyIntDoubleUnderscore | conversation.py:578 | `int()` rejects any text whose stripped form has two underscores in a row |
| PyStr.LowerIdempotent | app.py:456 | lower-casing twice is lower-casing once |
| Perception.ClassifySentenceType | app.py:952-978 | "unknown" iff there are no words; "interrogative" iff the lower-cased first word is a wh-word or an auxiliary/modal; "imperative" only with a leading VB and no PRP/NN/NNP in the first two tags |
| Perception.ExclamatoryOnlyByInterjection | app.py:966-976 | "exclamatory" happens only when the first tag is UH, so the what/how branch never fires |
| Perception.MoodOf | app.py:1031-1037 | positive iff pos beats both others strictly, negative iff neg does, neutral otherwise |
| Perception.MoodTiesAreNeutral | app.py:1031-1037 | any tie at the top score gives neutral |
| Perception.MoodSymmetric | app.py:1031-1037 | swapping the positive and negative scores swaps the positive and negative moods |
| Perception.WordnetPosOf | app.py:877-887 | adjective, verb, noun or adverb iff the tag starts with J, V, N or R; None otherwise |
| Perception.CheckNameIsSubstring | app.py:554-578 | `check_name` holds iff both names are non-empty and the stripped lower-case argument is a substring of the stripped lower-case session name |
| Perception.PartMatchIsSubstring | app.py:566-576 | an equal or prefix part match implies the substring match |
| Perception.RelationKey | app.py:772 | each character is upper-cased, and each space becomes "_"; the length is kept and no space is left |
| Perception.SpouseInAnyCase | app.py:772-775 | a relation whose upper case is one of MARRIED, SPOUSE, WIFE, HUSBAND and PARTNER ("wife", "Wife" and "WIFE" alike) is a spouse relation and labels the edge IS_MARRIED_TO |
| Perception.BestFriendLabel | app.py:772-777 | "best friend" labels the edge IS_BEST_FRIEND_OF |
| Perception.SocialEdges | app.py:772-821 | a spouse relation gives IS_MARRIED_TO in both directions; any other relation gives one edge, from the person to the user |
| Perception.SocialLabelsDistinct | app.py:772-778 | the label is IS_MARRIED_TO iff the relation is a spouse word, and distinct non-spouse relation keys give distinct labels |
| GraphStore.Matching | app.py:848 | MATCH binds exactly the stored nodes that fit the pattern, in increasing order |
| GraphStore.MergeNode | app.py:841-843 | MERGE binds exactly the fitting nodes and at least one; the store is unchanged when one fits, and gains exactly the given node otherwise |
| GraphStore.MergeEdges | app.py:850 | MERGE of a relationship adds an edge for every pair of bound nodes and nothing else |
| GraphStore.CreateLinked | app.py:1179-1187 | CREATE adds one new node per bound row, linked from that row, and keeps every old node |
| GraphStore.SetEndTime | app.py:1126-1129 | SET gives the end time to every episode of the session id and changes nothing else |
| GraphStore.MatchingExtends | app.py:841-871 | a node bound by a MATCH is still bound after the store grows |
| GraphStore.MergeEdgesLinks | app.py:850 | after MERGE between two non-empty bindings, the two patterns are linked by the relationship |
| GraphStore.MemoryStore.Merge | app.py:841-843 | the store in place becomes the MERGE result, and the bound rows are returned |
| GraphStore.MemoryStore.Link | app.py:850 | the store in place becomes the edge-MERGE result |
| GraphStore.MemoryStore.CreateFor | app.py:1179-1187 | the loop over rows leaves the CREATE result |
| GraphStore.MemoryStore.SetEnd | app.py:1126-1129 | the store in place becomes the SET result |
| SensoryMemory.WordPass | app.py:861-870 | one word pass: merge the word by text, link it from its sentence, and link it from the previous word |
| SensoryMemory.SentencePass | app.py:847-856 | one sentence pass: merge the sentence, link it from its text, and link it from the previous sentence |
| SensoryMemory.SaveWords | app.py:859-871 | the inner loop leaves the store equal to ingesting the words in order |
| SensoryMemory.SaveSensoryMemory | app.py:833-873 | the whole call leaves the store equal to merging the text, then ingesting its sentences in order |
| SensoryMemory.SaveSensoryGrowth | app.py:833-873 | saving keeps every node and edge and adds only Text, Sentence and Word nodes and sensory edges |
| SensoryMemory.SaveSensoryPresent | app.py:841-865 | afterwards the Text node with (text, timestamp, ip) exists, and so does a node for every sentence and every word |
| SensoryMemory.SaveSensoryKnownText | app.py:841-865 | when every sentence and word is known, the only node added is the Text node, and only if that triple is new |
| SensoryMemory.ReingestAddsNoSentenceOrWord | app.py:841-871 | saving the same text again adds no Sentence or Word node; with the same timestamp and ip it adds no node and no edge |
| SensoryMemory.SaveSensoryEdges | app.py:846-871 | a save keeps every stored edge and adds exactly the HAS_A_SENTENCE, NEXT_SENTENCE, HAS_A_WORD and NEXT_WORD edges of its loops, each MATCH taken over the nodes the save ends with |
| SensoryMemory.SaveSensoryLinks | app.py:846-871 | every sentence hangs off the text, consecutive sentences are NEXT_SENTENCE-linked, and consecutive words NEXT_WORD-linked |
| SensoryMemory.IngestSentencesLinks | app.py:846-857 | the sentence loop links every sentence and its words, whatever the store held before |
| SensoryMemory.IngestWordsLinks | app.py:860-871 | the word loop links every word from its sentence and from the word before it |
| SensoryMemory.IngestWordsKeepsNodes | app.py:860-865 | re-ingesting words already present adds no node |
| SensoryMemory.PamTags | app.py:1069-1070 | the PAM key keeps the POS tag; the long name is the tag's entry, or "Unknown" without one; the entity is the word's non-empty entity, and "None" exactly when it has none |
| SensoryMemory.PamDuplicatesSensoryWord | app.py:1068-1080 | a word the sensory stage merged by text alone gets a second Word node when the perceptual stage merges it under its four-property key |
| EpisodicMemory.SessionId | app.py:1087-1090 | an existing `session_id` is returned and kept; otherwise the new uuid is stored and returned |
| EpisodicMemory.SessionIdReused | app.py:1087-1090 | a second call returns the first call's id and leaves the session as it was |
| EpisodicMemory.GetSessionId | app.py:1087-1090 | the session object is updated in place as `SessionId` says |
| EpisodicMemory.Latest | app.py:1098-1101 | ORDER BY ... DESC LIMIT 1: None iff there is no candidate; otherwise a candidate with the greatest key, and the highest-index one among ties |
| EpisodicMemory.LatestExact | app.py:1171-1176 | the same, stated directly over the candidate predicate |
| EpisodicMemory.AddEpisode | app.py:1103-1107 | the new episode is the last node and the store keeps everything it had; the only nodes added are the user and the episode |
| EpisodicMemory.CreateEpisodeChains | app.py:1098-1114 | the user's latest episode found before creation is NEXT_EPISODE-linked to the new one; with none, no NEXT_EPISODE edge is added |
| EpisodicMemory.CreateEpisodeBecomesLatest | app.py:1092-1117 | when no episode of the user starts later, the new episode becomes the user's latest |
| EpisodicMemory.CreateEpisode | app.py:1092-1117 | store and session are updated in place as `CreateEpisodeGraph` and the session update say, with `current_episode_id` set to the session id |
| EpisodicMemory.EndEpisodeEffect | app.py:1119-1133 | a no-op without a current episode; otherwise the episode gets its end time and both session keys are removed, with the other keys kept |
| EpisodicMemory.EndEpisode | app.py:1119-1133 | store and session are updated in place as `EndEpisodeEffect` says |
| EpisodicMemory.EpisodeLifecycle | app.py:1087-1133 | create then end: the id is reused when present, ending closes the episode and forgets both keys, and the next `get_session_id` issues a fresh id |
| EpisodicMemory.AddInteractionTo | app.py:1171-1195 | the store becomes the result of looking up the open interaction, creating the new one, and linking the two |
| EpisodicMemory.CreateInteraction | app.py:1136-1214 | the whole call updates the store in place as `CreateInteractionGraph` says |
| InteractionChain.ChainLatest | app.py:1171-1176 | in a well-formed chain, the lookup finds the chain's last interaction, or nothing for an empty chain |
| InteractionChain.ChainOpenId | app.py:1171-1176 | the id the lookup returns is the id of the chain's last interaction |
| InteractionChain.AddInteractionShape | app.py:1179-1195 | with one episode and a fresh id, the writes are exactly one new node plus HAS_INTERACTION and NEXT_INTERACTION edges from the previous last |
| InteractionChain.ChainGrows | app.py:1171-1195 | one interaction extends a chain by exactly the new node |
| InteractionChain.InteractionExtendsChain | app.py:1136-1214 | a whole `create_interaction` extends the episode's chain by one node carrying the new id |
| InteractionChain.InteractionKeepsFresh | app.py:1136-1214 | an interaction id not yet used stays unused after a call with another id |
| InteractionChain.ConversationFormsOneChain | app.py:1136-1214 | N calls in one episode leave a single non-branching chain holding the N ids in call order |
| InteractionChain.NewEpisodeStartsChain | app.py:1092-1117 | a freshly created episode starts with an empty, well-formed chain |
| InteractionChain.MissingEpisodeDropsInteraction | app.py:1139 | without `current_episode_id`, the fallback id 'esp' matches no episode, so no interaction is created and the chains are untouched |
| InteractionChain.AddInteractionNoEpisode | app.py:1179-1195 | when no episode has the id, CREATE runs for no row and the store is unchanged |
| InteractionChain.SensoryStepsFrame | app.py:1148-1154 | saving the two texts touches no episode, interaction or chain edge |
| InteractionChain.BotResponseFrame | app.py:1205-1211 | the bot-response writes touch no episode, interaction or chain edge |
| Dispatch.ClearedSlots | app.py:1760-1767 | every listed key becomes "" and every other predicate keeps its value |
| Dispatch.Bot.Clear | conversation.py:522-531 | the clearing loop leaves the predicates as `ClearedSlots` says |
| Dispatch.Bot.SetPredicate | conversation.py:572 | one predicate is set and the others are kept |
| Dispatch.PlanIsRequested | app.py:597-670 | in app.py's own program, without a raise, a handler is in the plan iff its slot asks for it; every handler in the plan was asked for and returned; a `KeyError` is in the plan iff `prompt_check` raises, and then it is the key raised |
| Dispatch.PlanStops | app.py:597-670 | without a raise the plan is every requested handler in `prompt_check`'s order; with one, it ends at the `KeyError`, and no handler after it runs |
| Dispatch.PlanMissing | app.py:617-637 | `KeyError: 'email'` comes from `delete` without an email; `KeyError: 'username'` comes from a lookup of "USER" without a user name, and only when `delete` did not raise first |
| Dispatch.UserLookupStopsWrites | app.py:625-645 | a lookup of "USER" without a user name raises before any gender, date-of-birth or relation append runs |
| Dispatch.UserDobWithoutNameRaises | app.py:455-456 | a date-of-birth lookup of "USER" with no user name raises `KeyError: 'username'`, and the gender in the same message is never written |
| Dispatch.PromptWritesKeepValues | app.py:597-670 | what `prompt_check` writes (`name_check` and the latest readings) is not among the slots it reads |
| Dispatch.LookupMembers | app.py:619-637 | a lookup handler fires iff its slot is non-empty |
| Dispatch.AppendMembers | app.py:638-651 | an append handler fires iff its value slots are set |
| Dispatch.SensorMembers | app.py:653-663 | a sensor handler fires iff its request slot is set |
| Dispatch.BlankSlotsAreQuiet | app.py:597-670 | with every slot blank, the only call is registering the session's email with the sensor |
| Dispatch.BotClearSilences | conversation.py:522-531 | after the standalone clearing, `prompt_check` fires nothing but the email registration |
| Dispatch.BotTurnSilences | conversation.py:481-531 | a turn of `get_bot_response` that did not raise, whatever the second `respond` sets, leaves predicates on which the next `prompt_check` (loaded by conversation.py) fires nothing |
| Dispatch.SensorRequestOutlivesTurn | app.py:1760-1767 | a DHT11 temperature request survives both the web route's and the sensor entry point's clearing, so it fires again next turn; loaded by conversation.py, that next `prompt_check` raises |
| Dispatch.RaisedRequestRepeats | app.py:1751-1767 | when `prompt_check` raises, the second `respond`, the sentiment and the clearing never run, so the request that raised is still set and the next `prompt_check` raises the same `KeyError` |
| Dispatch.NameCheckWrite | app.py:615-616 | with a name slot, `name_check` becomes "true" iff `check_name` holds and "false" otherwise; nothing else changes |
| Dispatch.LatestWrite | app.py:665-670 | asked and with memory, the latest readings are written; otherwise nothing changes |
| Dispatch.SetSentimentSlots | app.py:422-428 | the sentiment is stored only when none is stored yet |
| Dispatch.Bot.PromptCheck | app.py:597-670 | with `dht11_sensor` bound (app.py's own program) returns `PromptPlan` and whether a `KeyError` was raised, and writes as `PromptWrites` says; with it unbound (loaded by conversation.py) returns `ImportedPlan`, raises as `ImportedRaises` says and writes as `ImportedWrites` says |
| Dispatch.Bot.CheckAndClear | conversation.py:482-531 | `prompt_check`, with `dht11_sensor` bound or not; unless it raised, then the second `respond`'s writes, the sentiment and the clearing |
| Dispatch.BlankQueryIsAllSpace | conversation.py:446-451 | the empty-query guard fires iff there is no query or it is all whitespace |
| Dispatch.RouteGuardWeaker | app.py:1745-1746 | the web route's `not query` guard lets a one-space query through, while the standalone guard stops it |
| Dispatch.Bot.BotTurn | conversation.py:442-548 | a blank query returns the error reply and touches nothing; otherwise app.py's `prompt_check` runs with `dht11_sensor` unbound, then the second answer and the clearing; a raise gives the error reply carrying its text, so a session with an e-mail always gets "name 'dht11_sensor' is not defined" with the slots left as the first pass set them |
| Dispatch.Bot.SensorTurn | conversation.py:551-639 | same as `BotTurn`, with the sensor predicates set first and the longer clearing list; a comfort score `int()` rejects gives the error reply with Python's message (the quoted text, or the type of None or a list); a session with an e-mail always gets the `NameError` reply |
| Dispatch.IntErrorOfNone | conversation.py:578 | a None comfort score gives `int()`'s `TypeError` message |
| Dispatch.IntErrorOfText | conversation.py:578 | the comfort score "abc" gives `int()`'s `ValueError` message, quoting the text |
| Dispatch.ImportedPlanAgrees | app.py:597-663 | loaded by conversation.py, a session with an e-mail makes `prompt_check` raise `NameError` where app.py's own program registers the user; without one it runs app.py's plan, unless that plan reaches a DHT11 read, where it stops with the `NameError` after every earlier requested handler |
| Dispatch.ImportedNeverReadsSensor | app.py:1547-1583 | with `dht11_sensor` unbound, no call that reads it (the registration, the temperature, humidity and status reports, the analysis) is ever in the plan |
| Dispatch.ImportedWritesAgree | app.py:597-670 | loaded by conversation.py, `prompt_check` writes nothing when the session has an e-mail, writes as in app.py's program when no DHT11 read is asked for, and never writes a slot it reads |
| Dispatch.ImportedRaiseRepeats | conversation.py:540-548 | a turn whose `prompt_check` raised skips the clearing, so the next `prompt_check` raises again with the same text |
| Dispatch.Bot.RouteTurn | app.py:1731-1773 | no email gives 401, no message gives 400; otherwise the bot answers and the app's clearing list runs, and a raise in `prompt_check` gives the 500 reply |
| Dispatch.SensorSetup | conversation.py:574-587 | a valid snapshot writes its temperature and humidity texts; otherwise both are "unavailable" with status "error"; only sensor predicates change |
| Dispatch.ErrorWritten | conversation.py:584-587 | the error branch writes exactly the two "unavailable" values and status "error" |
| Dispatch.ScoreWritten | conversation.py:578-583 | the score text, the recommendations, status "valid", the type and the units are written, and the readings are kept |
| Dispatch.SensorSetupCleared | conversation.py:614-624 | whatever the setup wrote is wiped by the sensor clearing list |
| Dispatch.IntOf | conversation.py:578 | `int()` of a number lies within one of it on the side of zero; a string is read as `int()` reads it; None and lists are rejected |
| Sensors.ComfortScore | conversation.py:260-264 | the score lies in [0, 100] and is 100 exactly at 23 degrees and 50 % |
| Sensors.Clamp100 | conversation.py:262-263 | the clamp lands in [0, 100] and fixes values already inside |
| Sensors.Recommendations | conversation.py:266-283 | one or two entries; exactly the optimal message iff 20 <= t <= 26 and 40 <= h <= 60; each warning present iff its bound is crossed |
| Sensors.CheckRanges | conversation.py:144-165 | accepts iff each of temperature and humidity is None or inside its range; raises only on a non-numeric value |
| Sensors.ValidateEsp32 | conversation.py:144-165 | accepts iff the reading is a dict with both keys, each None or within [-40, 80] and [0, 100] |
| Sensors.Esp32StepKeeps | conversation.py:105-142 | a rejected reading leaves the snapshot unchanged; an accepted one overwrites temperature and humidity, defaults status to "valid", and fixes the sensor and memory types |
| Sensors.DeviceRecommendations | conversation.py:120 | a text becomes its "; " split; an absent or empty value becomes []; another truthy value is rejected |
| Sensors.Esp32RecommendationsRoundTrip | conversation.py:105-142 | a device's recommendations text comes back unchanged when the context list is joined with "; " |
| Sensors.Esp32ContextOf | conversation.py:234-258 | a context exists iff the status is "valid" or "connected" and both readings are non-None |
| Sensors.Esp32Manager.Connect | conversation.py:53-74 | status "connected" on the first 200 answer; "error" when the third attempt raised; unchanged otherwise; success iff some attempt answered 200 |
| Sensors.Esp32Manager.ReadFailed | conversation.py:95-98 | a failed HTTP read sets the status to "disconnected" |
| Sensors.Esp32Manager.Process | conversation.py:105-142 | the snapshot in place becomes the one-reading update |
| Sensors.Esp32Manager.Context | conversation.py:234-258 | a context exists iff the snapshot's status is "valid" or "connected" and both readings are non-None; it carries the snapshot's readings and its comfort score (0 if absent) |
| Sensors.ValidateDht11 | app.py:139-156 | accepts iff the reading is a dict whose temperature and humidity are None or within [0, 50] and [20, 80] |
| Sensors.Dht11StepKeeps | app.py:114-137 | a rejected reading leaves the snapshot unchanged; an accepted one copies every field of the reading |
| Sensors.Dht11ContextOf | app.py:216-242 | a context exists iff the status is "valid" and both readings are numbers; it carries the comfort score and the recommendations |
| Sensors.Dht11ValidReadingGivesContext | app.py:114-242 | a valid in-range reading yields a context with exactly its temperature and humidity |
| Sensors.Dht11Manager.Connect | app.py:58-83 | status "connected" iff some port opened, else "error" |
| Sensors.Dht11Manager.Process | app.py:114-137 | the snapshot in place becomes the one-reading update |
| Sensors.Dht11Manager.Context | app.py:216-242 | a context exists iff the snapshot's status is "valid" and both readings are numbers; it carries those readings and their comfort score |
| Presentation.DurationParts | app.py:1380-1394 | hours, minutes and seconds recombine to the duration, and minutes and seconds lie in [0, 60) |
| Presentation.FormatDurationRoundTrip | app.py:1380-1394 | reading the duration text back gives the number of seconds |
| Presentation.FormatDurationUnits | app.py:1380-1394 | hours appear only from 3600 s, and minutes only from 60 s |
| Presentation.NegativeDurationWraps | app.py:1380-1394 | a -1 s duration prints as "59m 59s" because of floor division |
| Presentation.EpisodeHeader | app.py:1368-1415 | an unparsable start, or a filled but unparsable end, gives the fallback header; no end gives "active"/"Ongoing"; "completed" iff both stamps parse, with the start's date and time, the "<date> at <time>" title and the formatted duration |
| Presentation.FallbackHeader | app.py:1398-1404 | status "unknown", duration "Unknown", title from the first ten characters of the start |
| Presentation.GroupStep | app.py:1366-1424 | a row opens a new episode iff its start differs from the current one's; earlier episodes are kept |
| Presentation.GroupChatHistory | app.py:1360-1424 | the loop builds exactly the grouping of the rows |
| Presentation.GroupKeepsEveryPair | app.py:1419-1424 | every user/bot pair appears once, in row order, across the episodes |
| Presentation.GroupOneEpisodePerRun | app.py:1360-1424 | one episode per run of equal starts; neighbouring episodes have different starts |
| Presentation.Tally | app.py:1293-1314 | the loop returns the per-label map and the total of all counts |
| Presentation.LastCountWins | app.py:1293-1299 | a label's entry is the count of its last row, so counts are overwritten, not added |
| Presentation.SameLabelOverwrites | app.py:1293-1299 | two rows whose first label is User give total 5 but User = 3 |

## Left out

- Flask routes beyond the guards and clearing of the turn entry points: sessions, redirects, password hashing, email checks, and audio (speech recognition, gTTS, WAV) are web, auth and I/O glue.
- NLTK tokenisation, POS tagging, NE chunking, WordNet and VADER: their outputs are parameters (sentences, words, tags, the three scores).
- The Neo4j driver and Cypher engine: the store is abstract; display-only labels and node properties nothing reads back are dropped.
- ORDER BY ... LIMIT 1 leaves ties unspecified: the model takes the highest node index among the maxima.
- The AIML engine: the slots it fills are inputs (`heard` for the first `respond`, `heard2` for the second, after `prompt_check`), and its answer is a parameter.
- The handler bodies a `prompt_check` plan calls (lookups, appends, sensor reports) are named calls; their own predicate writes are not modelled, except `check_name` and the latest-reading write.
- pytholog unification: queries are a first-match over ground clauses. Capitalised arguments are constants, not variables.
- `dateutil` parsing: `append_dob_fact` receives the parsed date, or None where the parser raised.
- `uuid4`, `datetime.now`, `date.today`, the public IP and geolocation lookups are parameters.
- Timestamps are natural numbers: ISO strings of one format order as the instants they denote. `fromisoformat`/`strftime` are given as parsed parts.
- `total_seconds()` is modelled as a floor of microseconds to whole seconds.
- `lower`, `upper` and `capitalize` are ASCII only: Unicode case mapping is out.
- Exception messages other than the ones the replies show are not modelled.
- Sensor threads, `queue.Queue`, locks and fire-and-forget `Thread` writes: one reading is processed at a time.
- The DHT11 sensory-memory writes to the graph and `get_dht11_memory_data` are database glue.
- `save_social_memory`'s Cypher writes beyond the choice of labels and directions.
- `delete_chat_history`: its meaning rests on variable-length Cypher paths and DETACH DELETE.
- The graph-visualisation JSON: cosmetic.
- `save_semantic_memory` (app.py:891-935): its WordNet synset, synonym, antonym, category and domain writes need the WordNet corpus.
- `save_pam_from_sensory_memory`: only its word MERGE and the mood rule are modelled; its sentiment scores, sentence-type, IP and location writes rest on VADER and a network lookup.
- EpisodicMemory.CreateInteraction: leaves out the `save_semantic_memory` and `save_pam_from_sensory_memory` calls of app.py:1148-1155, because they add no Text, Episode, Interaction or Agent node, so none of the links the call makes depends on them.
- EpisodicMemory.CreateInteractionGraph: leaves out the same two stages, for the same reason.
- Dispatch.Show: `repr` of a list item picks its quote as Python does, but the backslash escapes Python adds (both quotes in one item, control characters) are not modelled.
- Dispatch.Bot.SensorTurn: the `ValueError` text of a rejected comfort score quotes the string with `Repr`, so it has the same gap in escapes as `Dispatch.Show`.
- Dispatch.PlanIsRequested: only the `KeyError`s from the session (no "email" for `delete`, no "username" for a lookup of "USER") and, loaded by conversation.py, the `NameError` of the unbound `dht11_sensor` cut the plan; any other raise inside a handler, such as a malformed date on file, is not modelled.
- A None `episode_start` in the chat history is out: the start stamp is always a string.
- InteractionChain.NewEpisodeStartsChain: requires at most one User node for the email and no dangling interaction edges. CREATE runs once per bound user, so duplicates would create several episodes.
- InteractionChain.ConversationFormsOneChain: requires a store whose interaction edges join stored nodes and a session episode that exists exactly once.
- Perception.ClassifySentenceType: the imperative and exclamatory cases are stated one way only. The full decision order is the function's definition.
- Sensors.CheckRanges: states that a raise implies a non-numeric value; the exact condition (a non-numeric temperature, or an in-range temperature with a non-numeric humidity) is not stated.
- Sensors.ComfortScore: readings and the score are exact reals, not IEEE doubles, so results equal Python's only up to double rounding; near (23, 50) a double sum can round to exactly 100.0 where the real score is below 100. The same holds for every `VNum` value of `Sensors.Value`.
- Dispatch.RaisedRequestRepeats: the writes of the handlers that ran before the raise (for example `find_dob` clearing `dob_person`) are not reflected; only the surviving request and its repeated `KeyError` are stated.
- Dispatch.ScoreWritten: predicates are modelled as their `str()`; the source stores the recommendations value itself, which may be a list.
- Sensors.DeviceRecommendations: states when the value is rejected or empty; the split itself is stated through Esp32RecommendationsRoundTrip.
- FactStore.MaleRoundTrip: states only the `gender` predicate it writes.

## Findings

| source | as written | input that shows it | evidently intended | confidence | as-written member | corrected member |
|---|---|---|---|---|---|---|
| app.py:597-603 | conversation.py loads app.py with `from app import *` and binds its own `dht11_sensor` (conversation.py:309), but app.py binds its global only under `__main__` (app.py:2029-2030), so app.py's `prompt_check` and DHT11 handlers cannot see a sensor | any `get_bot_response` turn with an e-mail in the session: the reply is the error reply with "name 'dht11_sensor' is not defined" | `prompt_check` registers the user with the running sensor manager and reads it | high; not executed | Dispatch.ImportedPlanAgrees | Dispatch.PlanIsRequested |

`Dispatch.Bot.RouteTurn` runs the plan with the sensor bound. `Dispatch.Bot.BotTurn` and `Dispatch.Bot.SensorTurn` keep the behaviour as written, because that is what conversation.py's replies show.
