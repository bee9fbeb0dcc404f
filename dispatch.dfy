/**
 * The dispatcher around the AIML engine.  The engine keeps a table of string
 * predicates ("slots"); its categories fill some of them while matching a
 * query, `prompt_check` reads the slots and runs the Python handler each one
 * asks for, and after the turn a list of slots is cleared.  The engine's
 * pattern matching is not modelled: the slots it fills are an input.
 */
module Dispatch {

  import opened Wrappers
  import opened PyStr
  import opened Perception
  import opened Sensors

  /** The predicates the Python code reads or writes, one constructor each;
      `Name` gives the predicate's name. */
  datatype Key =
    Mood
    | Word
    | DobPerson
    | AgePerson
    | GenderPerson
    | Rel
    | Person1
    | Gender
    | Dob
    | Relation
    | Person
    | OtherDobPerson
    | OtherDob
    | OtherGenderPerson
    | OtherGender
    | OtherPerson1
    | OtherPerson2
    | OtherRelation
    | Delete
    | UserInputName
    | GetDht11Temperature
    | GetDht11Humidity
    | GetDht11Status
    | AnalyzeDht11Environment
    | GetDht11Memory
    | Dht11Temperature
    | Dht11Humidity
    | Dht11Status
    | Dht11ComfortScore
    | Dht11Recommendations
    | SensorType
    | Dht11TempUnit
    | Dht11HumidityUnit
    | Username
    | NameCheck
    | Sentiment
    | LatestDht11Temp
    | LatestDht11Humidity

  function Name(k: Key): string {
    match k
    case Mood => "mood"
    case Word => "word"
    case DobPerson => "dob_person"
    case AgePerson => "age_person"
    case GenderPerson => "gender_person"
    case Rel => "rel"
    case Person1 => "person1"
    case Gender => "gender"
    case Dob => "dob"
    case Relation => "relation"
    case Person => "person"
    case OtherDobPerson => "other_dob_person"
    case OtherDob => "other_dob"
    case OtherGenderPerson => "other_gender_person"
    case OtherGender => "other_gender"
    case OtherPerson1 => "other_person1"
    case OtherPerson2 => "other_person2"
    case OtherRelation => "other_relation"
    case Delete => "delete"
    case UserInputName => "user_input_name"
    case GetDht11Temperature => "get_dht11_temperature"
    case GetDht11Humidity => "get_dht11_humidity"
    case GetDht11Status => "get_dht11_status"
    case AnalyzeDht11Environment => "analyze_dht11_environment"
    case GetDht11Memory => "get_dht11_memory"
    case Dht11Temperature => "dht11_temperature"
    case Dht11Humidity => "dht11_humidity"
    case Dht11Status => "dht11_status"
    case Dht11ComfortScore => "dht11_comfort_score"
    case Dht11Recommendations => "dht11_recommendations"
    case SensorType => "sensor_type"
    case Dht11TempUnit => "dht11_temp_unit"
    case Dht11HumidityUnit => "dht11_humidity_unit"
    case Username => "username"
    case NameCheck => "name_check"
    case Sentiment => "sentiment"
    case LatestDht11Temp => "latest_dht11_temp"
    case LatestDht11Humidity => "latest_dht11_humidity"
  }

  type Slots = map<Key, string>

  /** `getPredicate(key)`: the empty string for a predicate never set. */
  function Slot(p: Slots, key: Key): string {
    if key in p then p[key] else ""
  }

  /** `session.get(key, '')`. */
  function SessionGet(session: map<string, string>, key: string): string {
    if key in session then session[key] else ""
  }


  // ---------------------------------------------------------------------------
  // The key lists
  // ---------------------------------------------------------------------------

  /** The slots `prompt_check` reads. */
  const PromptKeys: seq<Key> := [
    Mood, Word, DobPerson, AgePerson, GenderPerson,
    Rel, Person1, Gender, Dob, Relation, Person,
    OtherDobPerson, OtherDob, OtherGenderPerson, OtherGender,
    OtherPerson1, OtherPerson2, OtherRelation, Delete, UserInputName,
    GetDht11Temperature, GetDht11Humidity, GetDht11Status,
    AnalyzeDht11Environment, GetDht11Memory]

  /** The slots the web chat route clears after a turn: no sensor request. */
  const AppClearKeys: seq<Key> := [
    Mood, Word, DobPerson, AgePerson, GenderPerson,
    Rel, Person1, Gender, Dob, Relation, Person,
    OtherDobPerson, OtherDob, OtherGenderPerson, OtherGender,
    OtherPerson1, OtherPerson2, OtherRelation, Delete, UserInputName]

  /** The slots `get_bot_response` clears: every slot `prompt_check` reads. */
  const BotClearKeys: seq<Key> := [
    Mood, Word, DobPerson, AgePerson, GenderPerson,
    Rel, Person1, Gender, Dob, Relation, Person,
    OtherDobPerson, OtherDob, OtherGenderPerson, OtherGender,
    OtherPerson1, OtherPerson2, OtherRelation, Delete, UserInputName,
    GetDht11Temperature, GetDht11Humidity, GetDht11Status,
    AnalyzeDht11Environment, GetDht11Memory]

  /** The slots `get_bot_response_with_sensor` clears: the sensor readings it
      wrote, but no sensor request. */
  const SensorClearKeys: seq<Key> := [
    Mood, Word, DobPerson, AgePerson, GenderPerson,
    Rel, Person1, Gender, Dob, Relation, Person,
    OtherDobPerson, OtherDob, OtherGenderPerson, OtherGender,
    OtherPerson1, OtherPerson2, OtherRelation, Delete, UserInputName,
    Dht11Temperature, Dht11Humidity, Dht11Status,
    Dht11ComfortScore, Dht11Recommendations, SensorType,
    Dht11TempUnit, Dht11HumidityUnit]

  /** The slots the sensor setup writes. */
  const SensorSlotKeys: seq<Key> := [
    Dht11Temperature, Dht11Humidity, Dht11ComfortScore, Dht11Recommendations,
    Dht11Status, SensorType, Dht11TempUnit, Dht11HumidityUnit]

  /** `values`: every slot `prompt_check` reads, stripped. */
  function Values(p: Slots): (v: Slots)
    ensures forall k :: k in v <==> k in PromptKeys
  {
    StrippedSlots(p, PromptKeys)
  }

  /** The slots of `keys`, stripped, one key after the other. */
  function StrippedSlots(p: Slots, keys: seq<Key>): (v: Slots)
    ensures forall k :: k in v <==> k in keys
    decreases |keys|
  {
    if keys == [] then map[]
    else StrippedSlots(p, keys[..|keys| - 1])[keys[|keys| - 1] := Strip(Slot(p, keys[|keys| - 1]))]
  }

  lemma {:induction false} StrippedSlot(p: Slots, keys: seq<Key>, k: Key)
    requires k in keys
    ensures StrippedSlots(p, keys)[k] == Strip(Slot(p, k))
    decreases |keys|
  {
    if keys[|keys| - 1] != k {
      assert keys == keys[..|keys| - 1] + [keys[|keys| - 1]];
      StrippedSlot(p, keys[..|keys| - 1], k);
    }
  }

  /** Tables that agree on `keys` strip to the same values. */
  lemma {:induction false} StrippedSlotsAgree(p: Slots, q: Slots, keys: seq<Key>)
    requires forall k :: k in keys ==> Slot(p, k) == Slot(q, k)
    ensures StrippedSlots(p, keys) == StrippedSlots(q, keys)
    decreases |keys|
  {
    if keys != [] {
      StrippedSlotsAgree(p, q, keys[..|keys| - 1]);
    }
  }

  /** Every key of `keys` set to the empty string, one after the other. */
  function ClearedSlots(p: Slots, keys: seq<Key>): (r: Slots)
    ensures forall k :: k in r <==> k in p || k in keys
    ensures forall k :: k in r ==> r[k] == if k in keys then "" else p[k]
    decreases |keys|
  {
    if keys == [] then p
    else ClearedSlots(p, keys[..|keys| - 1])[keys[|keys| - 1] := ""]
  }

  /** Two tables that differ only on cleared keys are the same once cleared. */
  lemma {:induction false} ClearedAgree(a: Slots, b: Slots, keys: seq<Key>)
    requires forall k :: k in a && k !in keys ==> k in b && a[k] == b[k]
    requires forall k :: k in b && k !in keys ==> k in a
    ensures ClearedSlots(a, keys) == ClearedSlots(b, keys)
  {
    var ca, cb := ClearedSlots(a, keys), ClearedSlots(b, keys);
    forall k ensures (k in ca <==> k in cb) && (k in ca ==> ca[k] == cb[k]) {
      ClearedAgreeAt(a, b, keys, k);
    }
  }

  lemma {:induction false} ClearedAgreeAt(a: Slots, b: Slots, keys: seq<Key>, k: Key)
    requires k !in keys ==> (k in a <==> k in b) && (k in a ==> a[k] == b[k])
    ensures k in ClearedSlots(a, keys) <==> k in ClearedSlots(b, keys)
    ensures k in ClearedSlots(a, keys) ==> ClearedSlots(a, keys)[k] == ClearedSlots(b, keys)[k]
  {
  }

  // ---------------------------------------------------------------------------
  // prompt_check: which handler runs
  // ---------------------------------------------------------------------------

  /** One handler call of `prompt_check`, with the arguments it is given;
      `Missing(key)` is the `KeyError` of `session[key]` and `Undefined(name)`
      the `NameError` of an unbound global, either of which ends the call. */
  datatype Call =
    | SetSensorUser(email: string)
    | SetNameCheck(name: string)
    | DeleteHistory(email: string)
    | Missing(key: string)
    | Undefined(name: string)
    | CheckMeanings(word: string)
    | CheckSentiment(mood: string)
    | FindDob(person: string)
    | FindAge(person: string)
    | FindGender(person: string)
    | CheckRelation(rel: string, person1: string)
    | AppendRelation(username: string, person1: string, relation: string)
    | AppendGender(username: string, gender: string)
    | AppendDob(username: string, dob: string)
    | ReportTemperature
    | ReportHumidity
    | ReportStatus
    | AnalyzeEnvironment
    | LoadMemory

  /** `[c]` when `b` holds, else nothing. */
  function When(b: bool, c: Call): seq<Call> {
    if b then [c] else []
  }

  /** The session key a handler reads with `session[key]` and does not find:
      the e-mail of `delete_chat_history`, and the user name that `find_dob`,
      `find_age`, `find_gender` and `check_relation` put in for "USER". */
  function RaisesOn(session: map<string, string>, c: Call): Option<string> {
    match c
    case DeleteHistory(_) => if "email" in session then None else Some("email")
    case FindDob(x) => UserLookup(session, x)
    case FindAge(x) => UserLookup(session, x)
    case FindGender(x) => UserLookup(session, x)
    case CheckRelation(r, x) => if Lower(r) == "" then None else UserLookup(session, x)
    case _ => None
  }

  function UserLookup(session: map<string, string>, person: string): Option<string> {
    if UserMissing(session, person) then Some("username") else None
  }

  /** The person is "USER" and the session has no user name to put in. */
  predicate UserMissing(session: map<string, string>, person: string) {
    person == "USER" && "username" !in session
  }

  /** No call of `calls` raises. */
  predicate Quiet(session: map<string, string>, calls: seq<Call>) {
    forall c :: c in calls ==> RaisesOn(session, c).None?
  }

  /** `delete` is set and the session has no e-mail. */
  predicate DeleteAborts(session: map<string, string>, v: Slots) {
    Slot(v, Delete) != "" && "email" !in session
  }

  /** A lookup asks for the user ("USER") and the session has no user name. */
  predicate LookupAborts(session: map<string, string>, v: Slots) {
    UserMissing(session, Slot(v, DobPerson)) || UserMissing(session, Slot(v, AgePerson))
    || UserMissing(session, Slot(v, GenderPerson))
    || (Lower(Slot(v, Rel)) != "" && UserMissing(session, Slot(v, Person1)))
  }

  /** `prompt_check` raises a `KeyError`. */
  predicate Aborts(session: map<string, string>, v: Slots) {
    DeleteAborts(session, v) || LookupAborts(session, v)
  }

  /** The key of that `KeyError`: the delete runs before the lookups. */
  function AbortKey(session: map<string, string>, v: Slots): string {
    if DeleteAborts(session, v) then "email" else "username"
  }

  /** The lookups `prompt_check` runs, in its order: the word, the mood and
      the date of birth, then the age, the gender and the relation. */
  function Lookups(v: Slots): seq<Call> {
    WordMoodDobLookups(v) + AgeGenderRelationLookups(v)
  }

  function WordMoodDobLookups(v: Slots): seq<Call> {
    When(Slot(v, Word) != "", CheckMeanings(Slot(v, Word)))
    + When(Slot(v, Mood) != "", CheckSentiment(Slot(v, Mood)))
    + When(Slot(v, DobPerson) != "", FindDob(Slot(v, DobPerson)))
  }

  function AgeGenderRelationLookups(v: Slots): seq<Call> {
    When(Slot(v, AgePerson) != "", FindAge(Slot(v, AgePerson)))
    + When(Slot(v, GenderPerson) != "", FindGender(Slot(v, GenderPerson)))
    + When(Slot(v, Rel) != "" || Slot(v, Person1) != "", CheckRelation(Slot(v, Rel), Slot(v, Person1)))
  }

  /** The facts `prompt_check` writes, in its order: the third-person ones
      and the user's own gender, then dates of birth and the user's relation. */
  function Appends(v: Slots, user: string): seq<Call> {
    RelationGenderAppends(v, user) + DobRelationAppends(v, user)
  }

  function RelationGenderAppends(v: Slots, user: string): seq<Call> {
    When(Slot(v, OtherPerson1) != "" && Slot(v, OtherPerson2) != "" && Slot(v, OtherRelation) != "",
         AppendRelation(Slot(v, OtherPerson1), Slot(v, OtherPerson2), Slot(v, OtherRelation)))
    + When(Slot(v, Gender) != "", AppendGender(user, Slot(v, Gender)))
    + When(Slot(v, OtherGenderPerson) != "" && Slot(v, OtherGender) != "",
           AppendGender(Slot(v, OtherGenderPerson), Slot(v, OtherGender)))
  }

  function DobRelationAppends(v: Slots, user: string): seq<Call> {
    When(Slot(v, Dob) != "", AppendDob(user, Slot(v, Dob)))
    + When(Slot(v, OtherDob) != "" && Slot(v, OtherDobPerson) != "",
           AppendDob(Slot(v, OtherDobPerson), Slot(v, OtherDob)))
    + When(Slot(v, Relation) == "married" && Slot(v, Person1) != "",
           AppendRelation(user, Slot(v, Person1), Slot(v, Relation)))
    + When(Slot(v, Relation) != "married" && Slot(v, Person) != "",
           AppendRelation(user, Slot(v, Person), Slot(v, Relation)))
  }

  function SensorRequests(v: Slots): seq<Call> {
    When(Slot(v, GetDht11Temperature) != "", ReportTemperature)
    + When(Slot(v, GetDht11Humidity) != "", ReportHumidity)
    + When(Slot(v, GetDht11Status) != "", ReportStatus)
    + When(Slot(v, AnalyzeDht11Environment) != "", AnalyzeEnvironment)
    + When(Slot(v, GetDht11Memory) != "", LoadMemory)
  }

  /** The registration with the sensor and the name test.  Neither raises in
      app.py's own program, where `dht11_sensor` is bound; `ImportedPlan` is
      the call in the program conversation.py runs, where it is not. */
  function Head(session: map<string, string>, v: Slots): seq<Call> {
    When("email" in session, SetSensorUser(SessionGet(session, "email")))
    + When(Slot(v, UserInputName) != "", SetNameCheck(Slot(v, UserInputName)))
  }

  function DeleteRequest(session: map<string, string>, v: Slots): seq<Call> {
    When(Slot(v, Delete) != "", DeleteHistory(SessionGet(session, "email")))
  }

  /** The handlers the slots ask for, in `prompt_check`'s order. */
  function Requests(session: map<string, string>, v: Slots): seq<Call> {
    Head(session, v) + DeleteRequest(session, v) + Lookups(v)
    + Appends(v, Lower(SessionGet(session, "username"))) + SensorRequests(v)
  }

  /** One `if` of `prompt_check` whose handler may raise: when the slots ask
      for `c` and it raises, its `KeyError` ends the call and `rest` never
      runs; otherwise `c` runs when asked for, then `rest`. */
  function Step(session: map<string, string>, asked: bool, c: Call, rest: seq<Call>): seq<Call> {
    if asked && RaisesOn(session, c).Some? then [Missing(RaisesOn(session, c).value)]
    else When(asked, c) + rest
  }

  /** The lookups in `prompt_check`'s order, any of the four person lookups
      ending the call, then `rest`. */
  function LookupPlan(session: map<string, string>, v: Slots, rest: seq<Call>): seq<Call> {
    When(Slot(v, Word) != "", CheckMeanings(Slot(v, Word)))
    + When(Slot(v, Mood) != "", CheckSentiment(Slot(v, Mood)))
    + DobStep(session, v, rest)
  }

  function DobStep(session: map<string, string>, v: Slots, rest: seq<Call>): seq<Call> {
    Step(session, Slot(v, DobPerson) != "", FindDob(Slot(v, DobPerson)), AgeStep(session, v, rest))
  }

  function AgeStep(session: map<string, string>, v: Slots, rest: seq<Call>): seq<Call> {
    Step(session, Slot(v, AgePerson) != "", FindAge(Slot(v, AgePerson)), GenderStep(session, v, rest))
  }

  function GenderStep(session: map<string, string>, v: Slots, rest: seq<Call>): seq<Call> {
    Step(session, Slot(v, GenderPerson) != "", FindGender(Slot(v, GenderPerson)), RelationStep(session, v, rest))
  }

  function RelationStep(session: map<string, string>, v: Slots, rest: seq<Call>): seq<Call> {
    Step(session, Slot(v, Rel) != "" || Slot(v, Person1) != "", CheckRelation(Slot(v, Rel), Slot(v, Person1)), rest)
  }

  /** The handlers `prompt_check` runs in app.py's own program, in the order
      it runs them, for the Flask session `session` and the slots `v`; a
      `KeyError` ends the list. */
  function PromptPlan(session: map<string, string>, v: Slots): seq<Call> {
    Head(session, v)
    + Step(session, Slot(v, Delete) != "", DeleteHistory(SessionGet(session, "email")),
        LookupPlan(session, v, Appends(v, Lower(SessionGet(session, "username"))) + SensorRequests(v)))
  }

  /** Which session calls the slots and the session ask for. */
  predicate HeadRequested(session: map<string, string>, v: Slots, c: Call) {
    match c
    case SetSensorUser(e) => "email" in session && e == session["email"]
    case SetNameCheck(n) => n != "" && n == Slot(v, UserInputName)
    case _ => false
  }

  /** Which lookups the slots ask for. */
  predicate LookupRequested(v: Slots, c: Call) {
    match c
    case CheckMeanings(w) => w != "" && w == Slot(v, Word)
    case CheckSentiment(m) => m != "" && m == Slot(v, Mood)
    case FindDob(x) => x != "" && x == Slot(v, DobPerson)
    case FindAge(x) => x != "" && x == Slot(v, AgePerson)
    case FindGender(x) => x != "" && x == Slot(v, GenderPerson)
    case CheckRelation(r, x) => (r != "" || x != "") && r == Slot(v, Rel) && x == Slot(v, Person1)
    case _ => false
  }

  /** Which facts the slots ask to write, for the user `user`. */
  predicate AppendRequested(v: Slots, user: string, c: Call) {
    match c
    case AppendRelation(u, x, r) =>
      (u != "" && x != "" && r != "" && u == Slot(v, OtherPerson1) && x == Slot(v, OtherPerson2) && r == Slot(v, OtherRelation))
      || (u == user && r == "married" && r == Slot(v, Relation) && x != "" && x == Slot(v, Person1))
      || (u == user && r != "married" && r == Slot(v, Relation) && x != "" && x == Slot(v, Person))
    case AppendGender(u, x) =>
      (u == user && x != "" && x == Slot(v, Gender))
      || (u != "" && x != "" && u == Slot(v, OtherGenderPerson) && x == Slot(v, OtherGender))
    case AppendDob(u, x) =>
      (u == user && x != "" && x == Slot(v, Dob))
      || (u != "" && x != "" && u == Slot(v, OtherDobPerson) && x == Slot(v, OtherDob))
    case _ => false
  }

  /** Which sensor handlers the slots ask for. */
  predicate SensorRequested(v: Slots, c: Call) {
    match c
    case ReportTemperature => Slot(v, GetDht11Temperature) != ""
    case ReportHumidity => Slot(v, GetDht11Humidity) != ""
    case ReportStatus => Slot(v, GetDht11Status) != ""
    case AnalyzeEnvironment => Slot(v, AnalyzeDht11Environment) != ""
    case LoadMemory => Slot(v, GetDht11Memory) != ""
    case _ => false
  }

  /** Which calls the slots ask for, stated call by call. */
  predicate Requested(session: map<string, string>, v: Slots, c: Call) {
    HeadRequested(session, v, c)
    || (c.DeleteHistory? && Slot(v, Delete) != "" && c.email == SessionGet(session, "email"))
    || LookupRequested(v, c) || AppendRequested(v, Lower(SessionGet(session, "username")), c)
    || SensorRequested(v, c)
  }

  lemma HeadMembers(session: map<string, string>, v: Slots, c: Call)
    ensures c in Head(session, v) <==> HeadRequested(session, v, c)
  {
  }

  /** Membership in a sequence grown by `When`. */
  lemma InWhen(a: seq<Call>, b: bool, x: Call, c: Call)
    ensures c in a + When(b, x) <==> c in a || (b && c == x)
  {
  }

  lemma WordMoodDobSound(v: Slots, c: Call)
    ensures c in WordMoodDobLookups(v) ==> LookupRequested(v, c)
  {
    var s1 := When(Slot(v, Word) != "", CheckMeanings(Slot(v, Word)));
    var s2 := s1 + When(Slot(v, Mood) != "", CheckSentiment(Slot(v, Mood)));
    InWhen(s2, Slot(v, DobPerson) != "", FindDob(Slot(v, DobPerson)), c);
    InWhen(s1, Slot(v, Mood) != "", CheckSentiment(Slot(v, Mood)), c);
  }

  lemma AgeGenderRelationSound(v: Slots, c: Call)
    ensures c in AgeGenderRelationLookups(v) ==> LookupRequested(v, c)
  {
    var s1 := When(Slot(v, AgePerson) != "", FindAge(Slot(v, AgePerson)));
    var s2 := s1 + When(Slot(v, GenderPerson) != "", FindGender(Slot(v, GenderPerson)));
    InWhen(s2, Slot(v, Rel) != "" || Slot(v, Person1) != "", CheckRelation(Slot(v, Rel), Slot(v, Person1)), c);
    InWhen(s1, Slot(v, GenderPerson) != "", FindGender(Slot(v, GenderPerson)), c);
  }

  lemma LookupsSound(v: Slots, c: Call)
    ensures c in Lookups(v) ==> LookupRequested(v, c)
  {
    WordMoodDobSound(v, c);
    AgeGenderRelationSound(v, c);
  }

  lemma LookupsComplete(v: Slots, c: Call)
    ensures LookupRequested(v, c) ==> c in Lookups(v)
  {
  }

  lemma LookupMembers(v: Slots, c: Call)
    ensures c in Lookups(v) <==> LookupRequested(v, c)
  {
    LookupsSound(v, c);
    LookupsComplete(v, c);
  }

  lemma RelationGenderAppendsSound(v: Slots, user: string, c: Call)
    ensures c in RelationGenderAppends(v, user) ==> AppendRequested(v, user, c)
  {
    var s1 := When(Slot(v, OtherPerson1) != "" && Slot(v, OtherPerson2) != "" && Slot(v, OtherRelation) != "",
                   AppendRelation(Slot(v, OtherPerson1), Slot(v, OtherPerson2), Slot(v, OtherRelation)));
    var s2 := s1 + When(Slot(v, Gender) != "", AppendGender(user, Slot(v, Gender)));
    InWhen(s2, Slot(v, OtherGenderPerson) != "" && Slot(v, OtherGender) != "",
           AppendGender(Slot(v, OtherGenderPerson), Slot(v, OtherGender)), c);
    InWhen(s1, Slot(v, Gender) != "", AppendGender(user, Slot(v, Gender)), c);
  }

  lemma DobRelationAppendsSound(v: Slots, user: string, c: Call)
    ensures c in DobRelationAppends(v, user) ==> AppendRequested(v, user, c)
  {
    var s1 := When(Slot(v, Dob) != "", AppendDob(user, Slot(v, Dob)));
    var s2 := s1 + When(Slot(v, OtherDob) != "" && Slot(v, OtherDobPerson) != "",
                        AppendDob(Slot(v, OtherDobPerson), Slot(v, OtherDob)));
    var s3 := s2 + When(Slot(v, Relation) == "married" && Slot(v, Person1) != "",
                        AppendRelation(user, Slot(v, Person1), Slot(v, Relation)));
    InWhen(s3, Slot(v, Relation) != "married" && Slot(v, Person) != "",
           AppendRelation(user, Slot(v, Person), Slot(v, Relation)), c);
    InWhen(s2, Slot(v, Relation) == "married" && Slot(v, Person1) != "",
           AppendRelation(user, Slot(v, Person1), Slot(v, Relation)), c);
    InWhen(s1, Slot(v, OtherDob) != "" && Slot(v, OtherDobPerson) != "",
           AppendDob(Slot(v, OtherDobPerson), Slot(v, OtherDob)), c);
  }

  lemma AppendsSound(v: Slots, user: string, c: Call)
    ensures c in Appends(v, user) ==> AppendRequested(v, user, c)
  {
    RelationGenderAppendsSound(v, user, c);
    DobRelationAppendsSound(v, user, c);
  }

  lemma AppendsComplete(v: Slots, user: string, c: Call)
    ensures AppendRequested(v, user, c) ==> c in Appends(v, user)
  {
  }

  lemma AppendMembers(v: Slots, user: string, c: Call)
    ensures c in Appends(v, user) <==> AppendRequested(v, user, c)
  {
    AppendsSound(v, user, c);
    AppendsComplete(v, user, c);
  }

  lemma SensorRequestsSound(v: Slots, c: Call)
    ensures c in SensorRequests(v) ==> SensorRequested(v, c)
  {
  }

  lemma SensorRequestsComplete(v: Slots, c: Call)
    ensures SensorRequested(v, c) ==> c in SensorRequests(v)
  {
  }

  lemma SensorMembers(v: Slots, c: Call)
    ensures c in SensorRequests(v) <==> SensorRequested(v, c)
  {
    SensorRequestsSound(v, c);
    SensorRequestsComplete(v, c);
  }

  /** The slots ask for a handler exactly when it is among the requests. */
  lemma RequestsMembers(session: map<string, string>, v: Slots, c: Call)
    ensures c in Requests(session, v) <==> Requested(session, v, c)
  {
    var user := Lower(SessionGet(session, "username"));
    var del := Head(session, v) + DeleteRequest(session, v);
    HeadMembers(session, v, c);
    InWhen(Head(session, v), Slot(v, Delete) != "", DeleteHistory(SessionGet(session, "email")), c);
    LookupMembers(v, c);
    AppendMembers(v, user, c);
    SensorMembers(v, c);
    assert c in Requests(session, v) <==>
      c in del || c in Lookups(v) || c in Appends(v, user) || c in SensorRequests(v);
  }

  lemma HeadQuiet(session: map<string, string>, v: Slots)
    ensures Quiet(session, Head(session, v))
  {
    forall c | c in Head(session, v) ensures RaisesOn(session, c).None? {
      HeadMembers(session, v, c);
    }
  }

  lemma AppendsQuiet(session: map<string, string>, v: Slots, user: string)
    ensures Quiet(session, Appends(v, user))
  {
    forall c | c in Appends(v, user) ensures RaisesOn(session, c).None? {
      AppendsSound(v, user, c);
    }
  }

  lemma SensorsQuiet(session: map<string, string>, v: Slots)
    ensures Quiet(session, SensorRequests(v))
  {
    forall c | c in SensorRequests(v) ensures RaisesOn(session, c).None? {
      SensorRequestsSound(v, c);
    }
  }

  lemma RelationStepGoes(session: map<string, string>, v: Slots, rest: seq<Call>)
    requires !(Lower(Slot(v, Rel)) != "" && UserMissing(session, Slot(v, Person1)))
    ensures RelationStep(session, v, rest)
            == When(Slot(v, Rel) != "" || Slot(v, Person1) != "", CheckRelation(Slot(v, Rel), Slot(v, Person1))) + rest
  {
    StepGoes(session, Slot(v, Rel) != "" || Slot(v, Person1) != "", CheckRelation(Slot(v, Rel), Slot(v, Person1)), rest);
  }

  lemma GenderStepGoes(session: map<string, string>, v: Slots, rest: seq<Call>)
    requires !UserMissing(session, Slot(v, GenderPerson))
    ensures GenderStep(session, v, rest)
            == When(Slot(v, GenderPerson) != "", FindGender(Slot(v, GenderPerson))) + RelationStep(session, v, rest)
  {
    StepGoes(session, Slot(v, GenderPerson) != "", FindGender(Slot(v, GenderPerson)), RelationStep(session, v, rest));
  }

  lemma AgeStepGoes(session: map<string, string>, v: Slots, rest: seq<Call>)
    requires !UserMissing(session, Slot(v, AgePerson))
    ensures AgeStep(session, v, rest)
            == When(Slot(v, AgePerson) != "", FindAge(Slot(v, AgePerson))) + GenderStep(session, v, rest)
  {
    StepGoes(session, Slot(v, AgePerson) != "", FindAge(Slot(v, AgePerson)), GenderStep(session, v, rest));
  }

  lemma DobStepGoes(session: map<string, string>, v: Slots, rest: seq<Call>)
    requires !UserMissing(session, Slot(v, DobPerson))
    ensures DobStep(session, v, rest)
            == When(Slot(v, DobPerson) != "", FindDob(Slot(v, DobPerson))) + AgeStep(session, v, rest)
  {
    StepGoes(session, Slot(v, DobPerson) != "", FindDob(Slot(v, DobPerson)), AgeStep(session, v, rest));
  }

  lemma JoinSix(w: seq<Call>, m: seq<Call>, d: seq<Call>, a: seq<Call>, g: seq<Call>, r: seq<Call>, rest: seq<Call>)
    ensures w + m + (d + (a + (g + (r + rest)))) == (w + m + d) + (a + g + r) + rest
  {
  }

  /** With no lookup raising, the lookups are every lookup asked for, then `rest`. */
  lemma LookupPlanQuiet(session: map<string, string>, v: Slots, rest: seq<Call>)
    requires !LookupAborts(session, v)
    ensures LookupPlan(session, v, rest) == Lookups(v) + rest
  {
    var w := When(Slot(v, Word) != "", CheckMeanings(Slot(v, Word)));
    var m := When(Slot(v, Mood) != "", CheckSentiment(Slot(v, Mood)));
    var d := When(Slot(v, DobPerson) != "", FindDob(Slot(v, DobPerson)));
    var a := When(Slot(v, AgePerson) != "", FindAge(Slot(v, AgePerson)));
    var g := When(Slot(v, GenderPerson) != "", FindGender(Slot(v, GenderPerson)));
    var r := When(Slot(v, Rel) != "" || Slot(v, Person1) != "", CheckRelation(Slot(v, Rel), Slot(v, Person1)));
    RelationStepGoes(session, v, rest);
    GenderStepGoes(session, v, rest);
    AgeStepGoes(session, v, rest);
    DobStepGoes(session, v, rest);
    assert DobStep(session, v, rest) == d + (a + (g + (r + rest)));
    assert Lookups(v) == (w + m + d) + (a + g + r);
    JoinSix(w, m, d, a, g, r, rest);
  }

  /** A step whose call does not raise is the call when asked for, then the rest. */
  lemma {:induction false} StepGoes(session: map<string, string>, asked: bool, c: Call, rest: seq<Call>)
    requires !(asked && RaisesOn(session, c).Some?)
    ensures Step(session, asked, c, rest) == When(asked, c) + rest
  {
  }

  /** With a lookup raising, nothing after the lookups runs. */
  lemma LookupPlanCut(session: map<string, string>, v: Slots, rest: seq<Call>)
    requires LookupAborts(session, v)
    ensures LookupPlan(session, v, rest) == LookupPlan(session, v, [])
  {
    if !UserMissing(session, Slot(v, DobPerson)) {
      AgeStepCut(session, v, rest);
      DobStepGoes(session, v, rest);
      DobStepGoes(session, v, []);
    }
  }

  lemma AgeStepCut(session: map<string, string>, v: Slots, rest: seq<Call>)
    requires UserMissing(session, Slot(v, AgePerson)) || UserMissing(session, Slot(v, GenderPerson))
             || (Lower(Slot(v, Rel)) != "" && UserMissing(session, Slot(v, Person1)))
    ensures AgeStep(session, v, rest) == AgeStep(session, v, [])
  {
    if !UserMissing(session, Slot(v, AgePerson)) {
      GenderStepCut(session, v, rest);
      AgeStepGoes(session, v, rest);
      AgeStepGoes(session, v, []);
    }
  }

  lemma GenderStepCut(session: map<string, string>, v: Slots, rest: seq<Call>)
    requires UserMissing(session, Slot(v, GenderPerson))
             || (Lower(Slot(v, Rel)) != "" && UserMissing(session, Slot(v, Person1)))
    ensures GenderStep(session, v, rest) == GenderStep(session, v, [])
  {
    if !UserMissing(session, Slot(v, GenderPerson)) {
      GenderStepGoes(session, v, rest);
      GenderStepGoes(session, v, []);
    }
  }

  /** With nothing raising, `prompt_check` runs every requested handler in order. */
  lemma PlanQuiet(session: map<string, string>, v: Slots)
    requires !Aborts(session, v)
    ensures PromptPlan(session, v) == Requests(session, v)
  {
    var tail := Appends(v, Lower(SessionGet(session, "username"))) + SensorRequests(v);
    LookupPlanQuiet(session, v, tail);
    DeleteStepGoes(session, v, LookupPlan(session, v, tail));
    JoinFive(Head(session, v), DeleteRequest(session, v), Lookups(v),
             Appends(v, Lower(SessionGet(session, "username"))), SensorRequests(v));
  }

  lemma JoinFive(h: seq<Call>, d: seq<Call>, l: seq<Call>, a: seq<Call>, s: seq<Call>)
    ensures h + (d + (l + (a + s))) == h + d + l + a + s
  {
  }

  lemma DeleteStepGoes(session: map<string, string>, v: Slots, rest: seq<Call>)
    requires !DeleteAborts(session, v)
    ensures Step(session, Slot(v, Delete) != "", DeleteHistory(SessionGet(session, "email")), rest)
            == DeleteRequest(session, v) + rest
  {
    StepGoes(session, Slot(v, Delete) != "", DeleteHistory(SessionGet(session, "email")), rest);
  }

  /** Every call of `plan` is a `KeyError` or a call of `reqs` that returns. */
  predicate Within(session: map<string, string>, plan: seq<Call>, reqs: seq<Call>) {
    forall c :: c in plan ==> c.Missing? || (c in reqs && RaisesOn(session, c).None?)
  }

  lemma {:induction false} StepWithin(session: map<string, string>, asked: bool, c: Call, rest: seq<Call>, reqs: seq<Call>)
    requires Within(session, rest, reqs)
    ensures Within(session, Step(session, asked, c, rest), When(asked, c) + reqs)
  {
  }

  lemma {:induction false} QuietWithin(session: map<string, string>, pre: seq<Call>, rest: seq<Call>, reqs: seq<Call>)
    requires Quiet(session, pre) && Within(session, rest, reqs)
    ensures Within(session, pre + rest, pre + reqs)
  {
  }

  lemma LookupPlanWithin(session: map<string, string>, v: Slots, rest: seq<Call>, reqs: seq<Call>)
    requires Within(session, rest, reqs)
    ensures Within(session, LookupPlan(session, v, rest), Lookups(v) + reqs)
  {
    var r := When(Slot(v, Rel) != "" || Slot(v, Person1) != "", CheckRelation(Slot(v, Rel), Slot(v, Person1)));
    var g := When(Slot(v, GenderPerson) != "", FindGender(Slot(v, GenderPerson)));
    var a := When(Slot(v, AgePerson) != "", FindAge(Slot(v, AgePerson)));
    var d := When(Slot(v, DobPerson) != "", FindDob(Slot(v, DobPerson)));
    var wm := When(Slot(v, Word) != "", CheckMeanings(Slot(v, Word)))
              + When(Slot(v, Mood) != "", CheckSentiment(Slot(v, Mood)));
    StepWithin(session, Slot(v, Rel) != "" || Slot(v, Person1) != "", CheckRelation(Slot(v, Rel), Slot(v, Person1)),
               rest, reqs);
    StepWithin(session, Slot(v, GenderPerson) != "", FindGender(Slot(v, GenderPerson)),
               RelationStep(session, v, rest), r + reqs);
    StepWithin(session, Slot(v, AgePerson) != "", FindAge(Slot(v, AgePerson)),
               GenderStep(session, v, rest), g + (r + reqs));
    StepWithin(session, Slot(v, DobPerson) != "", FindDob(Slot(v, DobPerson)),
               AgeStep(session, v, rest), a + (g + (r + reqs)));
    WordMoodQuiet(session, v);
    QuietWithin(session, wm, DobStep(session, v, rest), d + (a + (g + (r + reqs))));
    JoinLookups(wm, d, a, g, r, reqs);
  }

  lemma WordMoodQuiet(session: map<string, string>, v: Slots)
    ensures Quiet(session, When(Slot(v, Word) != "", CheckMeanings(Slot(v, Word)))
                           + When(Slot(v, Mood) != "", CheckSentiment(Slot(v, Mood))))
  {
  }

  lemma JoinLookups(wm: seq<Call>, d: seq<Call>, a: seq<Call>, g: seq<Call>, r: seq<Call>, reqs: seq<Call>)
    ensures wm + (d + (a + (g + (r + reqs)))) == (wm + d) + (a + g + r) + reqs
  {
  }

  /** Every call `prompt_check` makes was asked for and returned, but for a
      `KeyError`. */
  lemma PlanWithin(session: map<string, string>, v: Slots)
    ensures Within(session, PromptPlan(session, v), Requests(session, v))
  {
    var tail := Appends(v, Lower(SessionGet(session, "username"))) + SensorRequests(v);
    AppendsQuiet(session, v, Lower(SessionGet(session, "username")));
    SensorsQuiet(session, v);
    QuietWithin(session, tail, [], []);
    LookupPlanWithin(session, v, tail, tail);
    StepWithin(session, Slot(v, Delete) != "", DeleteHistory(SessionGet(session, "email")),
               LookupPlan(session, v, tail), Lookups(v) + tail);
    HeadQuiet(session, v);
    QuietWithin(session, Head(session, v),
                Step(session, Slot(v, Delete) != "", DeleteHistory(SessionGet(session, "email")), LookupPlan(session, v, tail)),
                DeleteRequest(session, v) + (Lookups(v) + tail));
  }

  /** No call of `calls` is a `KeyError`. */
  predicate NoMissing(calls: seq<Call>) {
    forall c :: c in calls ==> !c.Missing?
  }

  /** A `KeyError` is in a step exactly when its call raises it, or the step
      goes on and the rest holds it. */
  lemma StepMissing(session: map<string, string>, asked: bool, c: Call, rest: seq<Call>, key: string)
    requires !c.Missing?
    ensures Missing(key) in Step(session, asked, c, rest) <==>
      (asked && RaisesOn(session, c) == Some(key)) || (!(asked && RaisesOn(session, c).Some?) && Missing(key) in rest)
  {
  }

  lemma RelationStepMissing(session: map<string, string>, v: Slots, rest: seq<Call>, key: string)
    requires NoMissing(rest)
    ensures Missing(key) in RelationStep(session, v, rest)
            <==> Lower(Slot(v, Rel)) != "" && UserMissing(session, Slot(v, Person1)) && key == "username"
  {
    StepMissing(session, Slot(v, Rel) != "" || Slot(v, Person1) != "", CheckRelation(Slot(v, Rel), Slot(v, Person1)),
                rest, key);
  }

  lemma GenderStepMissing(session: map<string, string>, v: Slots, rest: seq<Call>, key: string)
    requires NoMissing(rest)
    ensures Missing(key) in GenderStep(session, v, rest)
            <==> (UserMissing(session, Slot(v, GenderPerson))
                  || (Lower(Slot(v, Rel)) != "" && UserMissing(session, Slot(v, Person1)))) && key == "username"
  {
    RelationStepMissing(session, v, rest, key);
    StepMissing(session, Slot(v, GenderPerson) != "", FindGender(Slot(v, GenderPerson)),
                RelationStep(session, v, rest), key);
  }

  lemma AgeStepMissing(session: map<string, string>, v: Slots, rest: seq<Call>, key: string)
    requires NoMissing(rest)
    ensures Missing(key) in AgeStep(session, v, rest)
            <==> (UserMissing(session, Slot(v, AgePerson)) || UserMissing(session, Slot(v, GenderPerson))
                  || (Lower(Slot(v, Rel)) != "" && UserMissing(session, Slot(v, Person1)))) && key == "username"
  {
    GenderStepMissing(session, v, rest, key);
    StepMissing(session, Slot(v, AgePerson) != "", FindAge(Slot(v, AgePerson)),
                GenderStep(session, v, rest), key);
  }

  lemma LookupPlanMissing(session: map<string, string>, v: Slots, rest: seq<Call>, key: string)
    requires NoMissing(rest)
    ensures Missing(key) in LookupPlan(session, v, rest) <==> LookupAborts(session, v) && key == "username"
  {
    AgeStepMissing(session, v, rest, key);
    StepMissing(session, Slot(v, DobPerson) != "", FindDob(Slot(v, DobPerson)),
                AgeStep(session, v, rest), key);
    PreMissing(When(Slot(v, Word) != "", CheckMeanings(Slot(v, Word)))
               + When(Slot(v, Mood) != "", CheckSentiment(Slot(v, Mood))), DobStep(session, v, rest), key);
  }

  lemma {:induction false} PreMissing(pre: seq<Call>, rest: seq<Call>, key: string)
    requires NoMissing(pre)
    ensures Missing(key) in pre + rest <==> Missing(key) in rest
  {
  }

  /** The writes and sensor requests hold no `KeyError`. */
  lemma TailNoMissing(v: Slots, user: string)
    ensures NoMissing(Appends(v, user) + SensorRequests(v))
  {
    forall c | c in Appends(v, user) + SensorRequests(v) ensures !c.Missing? {
      AppendsSound(v, user, c);
      SensorRequestsSound(v, c);
    }
  }

  /** The plan holds a `KeyError` exactly when `prompt_check` raises, and
      then only the one it raises. */
  lemma PlanMissing(session: map<string, string>, v: Slots, key: string)
    ensures Missing(key) in PromptPlan(session, v) <==> Aborts(session, v) && key == AbortKey(session, v)
  {
    var tail := Appends(v, Lower(SessionGet(session, "username"))) + SensorRequests(v);
    TailNoMissing(v, Lower(SessionGet(session, "username")));
    LookupPlanMissing(session, v, tail, key);
    StepMissing(session, Slot(v, Delete) != "", DeleteHistory(SessionGet(session, "email")), LookupPlan(session, v, tail), key);
    HeadMembers(session, v, Missing(key));
  }

  /** `plan` ends with the `KeyError` of `key` and holds no other. */
  predicate Stops(plan: seq<Call>, key: string) {
    |plan| > 0 && plan[|plan| - 1] == Missing(key) && NoMissing(plan[..|plan| - 1])
  }

  lemma {:induction false} PreStops(pre: seq<Call>, rest: seq<Call>, key: string)
    requires NoMissing(pre) && Stops(rest, key)
    ensures Stops(pre + rest, key)
  {
    assert (pre + rest)[..|pre + rest| - 1] == pre + rest[..|rest| - 1];
  }

  lemma {:induction false} StepStops(session: map<string, string>, asked: bool, c: Call, rest: seq<Call>, key: string)
    requires !c.Missing?
    requires (asked && RaisesOn(session, c) == Some(key)) || (!(asked && RaisesOn(session, c).Some?) && Stops(rest, key))
    ensures Stops(Step(session, asked, c, rest), key)
  {
    if !(asked && RaisesOn(session, c).Some?) {
      PreStops(When(asked, c), rest, key);
    }
  }

  lemma RelationStepStops(session: map<string, string>, v: Slots, rest: seq<Call>)
    requires Lower(Slot(v, Rel)) != "" && UserMissing(session, Slot(v, Person1))
    ensures Stops(RelationStep(session, v, rest), "username")
  {
    StepStops(session, Slot(v, Rel) != "" || Slot(v, Person1) != "", CheckRelation(Slot(v, Rel), Slot(v, Person1)),
              rest, "username");
  }

  lemma GenderStepStops(session: map<string, string>, v: Slots, rest: seq<Call>)
    requires UserMissing(session, Slot(v, GenderPerson))
             || (Lower(Slot(v, Rel)) != "" && UserMissing(session, Slot(v, Person1)))
    ensures Stops(GenderStep(session, v, rest), "username")
  {
    if !UserMissing(session, Slot(v, GenderPerson)) {
      RelationStepStops(session, v, rest);
    }
    StepStops(session, Slot(v, GenderPerson) != "", FindGender(Slot(v, GenderPerson)),
              RelationStep(session, v, rest), "username");
  }

  lemma AgeStepStops(session: map<string, string>, v: Slots, rest: seq<Call>)
    requires UserMissing(session, Slot(v, AgePerson)) || UserMissing(session, Slot(v, GenderPerson))
             || (Lower(Slot(v, Rel)) != "" && UserMissing(session, Slot(v, Person1)))
    ensures Stops(AgeStep(session, v, rest), "username")
  {
    if !UserMissing(session, Slot(v, AgePerson)) {
      GenderStepStops(session, v, rest);
    }
    StepStops(session, Slot(v, AgePerson) != "", FindAge(Slot(v, AgePerson)),
              GenderStep(session, v, rest), "username");
  }

  lemma LookupPlanStops(session: map<string, string>, v: Slots, rest: seq<Call>)
    requires LookupAborts(session, v)
    ensures Stops(LookupPlan(session, v, rest), "username")
  {
    if !UserMissing(session, Slot(v, DobPerson)) {
      AgeStepStops(session, v, rest);
    }
    StepStops(session, Slot(v, DobPerson) != "", FindDob(Slot(v, DobPerson)),
              AgeStep(session, v, rest), "username");
    PreStops(When(Slot(v, Word) != "", CheckMeanings(Slot(v, Word)))
             + When(Slot(v, Mood) != "", CheckSentiment(Slot(v, Mood))), DobStep(session, v, rest), "username");
  }

  /** With nothing raising, `prompt_check` runs every requested handler in
      order; otherwise the calls end with the `KeyError` it raises, and every
      call before it returned. */
  lemma PlanStops(session: map<string, string>, v: Slots)
    ensures !Aborts(session, v) ==> PromptPlan(session, v) == Requests(session, v)
    ensures Aborts(session, v) ==> Stops(PromptPlan(session, v), AbortKey(session, v))
  {
    if !Aborts(session, v) {
      PlanQuiet(session, v);
    } else {
      var tail := Appends(v, Lower(SessionGet(session, "username"))) + SensorRequests(v);
      var lookups := LookupPlan(session, v, tail);
      if !DeleteAborts(session, v) {
        LookupPlanStops(session, v, tail);
      }
      StepStops(session, Slot(v, Delete) != "", DeleteHistory(SessionGet(session, "email")), lookups, AbortKey(session, v));
      forall c | c in Head(session, v) ensures !c.Missing? {
        HeadMembers(session, v, c);
      }
      PreStops(Head(session, v), Step(session, Slot(v, Delete) != "", DeleteHistory(SessionGet(session, "email")), lookups),
               AbortKey(session, v));
    }
  }

  /** Every call in the plan was asked for by the slots and returned, but for
      the `KeyError` that ends a call that raises; with nothing raising, every
      call asked for is in the plan. */
  lemma PlanIsRequested(session: map<string, string>, v: Slots, c: Call)
    ensures !Aborts(session, v) ==> (c in PromptPlan(session, v) <==> Requested(session, v, c))
    ensures c in PromptPlan(session, v) && !c.Missing? ==> Requested(session, v, c) && RaisesOn(session, c).None?
    ensures c in PromptPlan(session, v) && c.Missing? <==> Aborts(session, v) && c == Missing(AbortKey(session, v))
  {
    RequestsMembers(session, v, c);
    PlanWithin(session, v);
    if !Aborts(session, v) {
      PlanQuiet(session, v);
    }
    if c.Missing? {
      PlanMissing(session, v, c.key);
    }
  }

  /** A call that writes a fact or reports the sensor. */
  predicate IsWrite(c: Call) {
    c.AppendRelation? || c.AppendGender? || c.AppendDob?
    || c.ReportTemperature? || c.ReportHumidity? || c.ReportStatus? || c.AnalyzeEnvironment? || c.LoadMemory?
  }

  /** A lookup of "USER" with no user name in the session ends
      `prompt_check` before any fact is written or the sensor is read. */
  lemma UserLookupStopsWrites(session: map<string, string>, v: Slots, c: Call)
    requires LookupAborts(session, v)
    ensures c in PromptPlan(session, v) ==> !IsWrite(c)
  {
    var tail := Appends(v, Lower(SessionGet(session, "username"))) + SensorRequests(v);
    var l := LookupPlan(session, v, tail);
    HeadNoWrite(session, v, c);
    StepNoWrite(session, Slot(v, Delete) != "", DeleteHistory(SessionGet(session, "email")), l, c);
    LookupAbortNoWrite(session, v, tail, c);
  }

  lemma HeadNoWrite(session: map<string, string>, v: Slots, c: Call)
    ensures c in Head(session, v) ==> !IsWrite(c)
  {
    HeadMembers(session, v, c);
  }

  lemma {:induction false} StepNoWrite(session: map<string, string>, asked: bool, d: Call, rest: seq<Call>, c: Call)
    requires !IsWrite(d)
    ensures c in Step(session, asked, d, rest) && c !in rest ==> !IsWrite(c)
  {
  }

  lemma LookupAbortNoWrite(session: map<string, string>, v: Slots, tail: seq<Call>, c: Call)
    requires LookupAborts(session, v)
    ensures c in LookupPlan(session, v, tail) ==> !IsWrite(c)
  {
    LookupPlanCut(session, v, tail);
    LookupPlanWithin(session, v, [], []);
    assert Lookups(v) + [] == Lookups(v);
    LookupsSound(v, c);
  }

  /** The date-of-birth lookup of "USER" with no user name raises before the
      user's gender is written: the only call is the `KeyError`. */
  lemma UserDobWithoutNameRaises()
    ensures var v := map[DobPerson := "USER", Gender := "male"];
      Aborts(map[], v) && PromptPlan(map[], v) == [Missing("username")]
  {
    var v := map[DobPerson := "USER", Gender := "male"];
    var session: map<string, string> := map[];
    var tail := Appends(v, Lower(SessionGet(session, "username"))) + SensorRequests(v);
    assert Slot(v, DobPerson) == "USER" && Slot(v, Delete) == "" && Slot(v, UserInputName) == "";
    assert Slot(v, Word) == "" && Slot(v, Mood) == "";
    assert UserMissing(session, Slot(v, DobPerson));
    assert Head(session, v) == [];
    DeleteStepGoes(session, v, LookupPlan(session, v, tail));
    assert DobStep(session, v, tail) == [Missing("username")];
  }

  // ---------------------------------------------------------------------------
  // prompt_check in the program conversation.py runs
  // ---------------------------------------------------------------------------

  /** The global that app.py's `prompt_check` and DHT11 handlers read. */
  const SensorGlobal: string := "dht11_sensor"

  /** `str()` of the `NameError` of an unbound global. */
  function NameErrorText(name: string): string {
    "name '" + name + "' is not defined"
  }

  /** A DHT11 handler that reads `dht11_sensor` is asked for: the temperature,
      the humidity, the status or the analysis.  The stored-readings query
      reads the graph store instead. */
  predicate SensorReadAsked(v: Slots) {
    Slot(v, GetDht11Temperature) != "" || Slot(v, GetDht11Humidity) != ""
    || Slot(v, GetDht11Status) != "" || Slot(v, AnalyzeDht11Environment) != ""
  }

  /** The DHT11 handlers with `dht11_sensor` unbound: the first one asked for
      that reads it raises `NameError`. */
  function ImportedSensorRequests(v: Slots): seq<Call> {
    if SensorReadAsked(v) then [Undefined(SensorGlobal)]
    else When(Slot(v, GetDht11Memory) != "", LoadMemory)
  }

  /** The handlers app.py's `prompt_check` runs when conversation.py has loaded
      app.py with `from app import *`.  app.py binds `dht11_sensor` only as the
      main script, and conversation.py binds its own in its own namespace, so
      a session with an e-mail raises `NameError` at the registration, before
      anything else; otherwise the call goes as in app.py's program up to the
      DHT11 handlers. */
  function ImportedPlan(session: map<string, string>, v: Slots): seq<Call> {
    if "email" in session then [Undefined(SensorGlobal)]
    else
      Head(session, v)
      + Step(session, Slot(v, Delete) != "", DeleteHistory(SessionGet(session, "email")),
          LookupPlan(session, v, Appends(v, Lower(SessionGet(session, "username"))) + ImportedSensorRequests(v)))
  }

  /** That call raises: the `NameError`, or a `KeyError` as in app.py's program. */
  predicate ImportedRaises(session: map<string, string>, v: Slots) {
    "email" in session || Aborts(session, v) || SensorReadAsked(v)
  }

  /** `str()` of what it raises: a `KeyError` comes before the DHT11 handlers. */
  function ImportedErrorText(session: map<string, string>, v: Slots): string {
    if "email" !in session && Aborts(session, v) then KeyErrorText(AbortKey(session, v))
    else NameErrorText(SensorGlobal)
  }

  /** With an e-mail in the session the call raises `NameError` where app.py's
      program registers the user with the sensor.  Without one it is app.py's
      plan, unless that plan reaches a DHT11 handler reading the sensor: then
      every handler asked for before it runs, and the call ends there. */
  lemma ImportedPlanAgrees(session: map<string, string>, v: Slots)
    ensures "email" in session ==>
      ImportedPlan(session, v) == [Undefined(SensorGlobal)] && PromptPlan(session, v)[0] == SetSensorUser(session["email"])
    ensures "email" !in session && (Aborts(session, v) || !SensorReadAsked(v)) ==>
      ImportedPlan(session, v) == PromptPlan(session, v)
    ensures "email" !in session && !Aborts(session, v) && SensorReadAsked(v) ==>
      ImportedPlan(session, v) == Head(session, v) + DeleteRequest(session, v) + Lookups(v)
                                  + Appends(v, Lower(SessionGet(session, "username"))) + [Undefined(SensorGlobal)]
  {
    if "email" !in session {
      var user := Lower(SessionGet(session, "username"));
      if Aborts(session, v) {
        ImportedAbortAgrees(session, v);
      } else if !SensorReadAsked(v) {
        assert ImportedSensorRequests(v) == SensorRequests(v);
      } else {
        var tail := Appends(v, user) + [Undefined(SensorGlobal)];
        LookupPlanQuiet(session, v, tail);
        DeleteStepGoes(session, v, LookupPlan(session, v, tail));
        JoinFive(Head(session, v), DeleteRequest(session, v), Lookups(v), Appends(v, user), [Undefined(SensorGlobal)]);
      }
    }
  }

  /** A `KeyError` ends both calls before the DHT11 handlers. */
  lemma ImportedAbortAgrees(session: map<string, string>, v: Slots)
    requires "email" !in session && Aborts(session, v)
    ensures ImportedPlan(session, v) == PromptPlan(session, v)
  {
    var user := Lower(SessionGet(session, "username"));
    if !DeleteAborts(session, v) {
      LookupPlanCut(session, v, Appends(v, user) + ImportedSensorRequests(v));
      LookupPlanCut(session, v, Appends(v, user) + SensorRequests(v));
    }
  }

  /** The registration and the four DHT11 handlers that read the sensor. */
  predicate ReadsSensor(c: Call) {
    c.SetSensorUser? || c.ReportTemperature? || c.ReportHumidity? || c.ReportStatus? || c.AnalyzeEnvironment?
  }

  /** With `dht11_sensor` unbound, no call that reads it ever returns. */
  lemma ImportedNeverReadsSensor(session: map<string, string>, v: Slots, c: Call)
    ensures c in ImportedPlan(session, v) ==> !ReadsSensor(c)
  {
    if "email" !in session {
      if DeleteAborts(session, v) {
        ImportedAbortAgrees(session, v);
        DeleteAbortReadsNothing(session, v, c);
      } else if LookupAborts(session, v) {
        ImportedAbortAgrees(session, v);
        LookupAbortReadsNothing(session, v, c);
      } else if !SensorReadAsked(v) {
        assert ImportedSensorRequests(v) == SensorRequests(v);
        UnaskedReadsNothing(session, v, c);
      } else {
        ReachedSensorReadsNothing(session, v, c);
      }
    }
  }

  /** A delete with no e-mail raises right after the name test. */
  lemma DeleteAbortReadsNothing(session: map<string, string>, v: Slots, c: Call)
    requires "email" !in session && DeleteAborts(session, v)
    ensures c in PromptPlan(session, v) ==> !ReadsSensor(c)
  {
    HeadMembers(session, v, c);
  }

  /** A lookup of "USER" with no user name raises before the DHT11 handlers. */
  lemma LookupAbortReadsNothing(session: map<string, string>, v: Slots, c: Call)
    requires "email" !in session && LookupAborts(session, v)
    ensures c in PromptPlan(session, v) ==> !ReadsSensor(c)
  {
    UserLookupStopsWrites(session, v, c);
    HeadNoRegistration(session, v, c);
  }

  /** With no e-mail, the plan holds no registration. */
  lemma HeadNoRegistration(session: map<string, string>, v: Slots, c: Call)
    requires "email" !in session
    ensures c in PromptPlan(session, v) ==> !c.SetSensorUser?
  {
    if c.SetSensorUser? && c in PromptPlan(session, v) {
      PlanIsRequested(session, v, c);
      RequestedReadsSensor(session, v, c);
    }
  }

  /** With no e-mail and no sensor read asked for, app.py's plan reads nothing. */
  lemma UnaskedReadsNothing(session: map<string, string>, v: Slots, c: Call)
    requires "email" !in session && !Aborts(session, v) && !SensorReadAsked(v)
    ensures c in PromptPlan(session, v) ==> !ReadsSensor(c)
  {
    if c in PromptPlan(session, v) && ReadsSensor(c) {
      PlanIsRequested(session, v, c);
      RequestedReadsSensor(session, v, c);
    }
  }

  /** A requested call that reads the sensor needs an e-mail (the
      registration) or a DHT11 read slot (the reports). */
  lemma RequestedReadsSensor(session: map<string, string>, v: Slots, c: Call)
    requires Requested(session, v, c) && ReadsSensor(c)
    ensures c.SetSensorUser? ==> "email" in session
    ensures !c.SetSensorUser? ==> SensorReadAsked(v)
  {
  }

  /** The handlers before the DHT11 ones read nothing from the sensor. */
  lemma ReachedSensorReadsNothing(session: map<string, string>, v: Slots, c: Call)
    requires "email" !in session && !Aborts(session, v) && SensorReadAsked(v)
    ensures c in ImportedPlan(session, v) ==> !ReadsSensor(c)
  {
    ImportedPlanAgrees(session, v);
    HeadMembers(session, v, c);
    LookupsSound(v, c);
    AppendsSound(v, Lower(SessionGet(session, "username")), c);
  }

  /** Slots that are all empty ask for nothing. */
  lemma BlankSlotsAreQuiet(session: map<string, string>, v: Slots)
    requires Blank(v)
    ensures PromptPlan(session, v) == When("email" in session, SetSensorUser(SessionGet(session, "email")))
  {
    BlankRequests(session, v);
    assert Slot(v, DobPerson) == "" && Slot(v, AgePerson) == "" && Slot(v, GenderPerson) == "";
    PlanQuiet(session, v);
  }

  /** Every slot of `v` is empty. */
  predicate Blank(v: Slots) {
    forall k :: k in v ==> v[k] == ""
  }

  lemma BlankRequests(session: map<string, string>, v: Slots)
    requires forall k :: k in v ==> v[k] == ""
    ensures Requests(session, v) == Head(session, v) == When("email" in session, SetSensorUser(SessionGet(session, "email")))
  {
    assert Slot(v, UserInputName) == "" && Slot(v, Delete) == "";
    assert Slot(v, Rel) == "" && Slot(v, Person1) == "" && Slot(v, Person) == "";
    assert Lookups(v) == [];
    assert Appends(v, Lower(SessionGet(session, "username"))) == [];
    assert SensorRequests(v) == [];
  }

  lemma StripEmpty()
    ensures Strip("") == ""
  {
  }

  /** A cleared slot reads as empty in the next `values`. */
  lemma ClearedValues(p: Slots, keys: seq<Key>, k: Key)
    requires k in keys && k in PromptKeys
    ensures Values(ClearedSlots(p, keys))[k] == ""
  {
    StripEmpty();
    ValuesSlot(ClearedSlots(p, keys), k);
  }

  /** After `get_bot_response` clears its list, the next `prompt_check` runs
      no handler unless the engine fills a slot again. */
  lemma BotClearSilences(session: map<string, string>, p: Slots)
    ensures PromptPlan(session, Values(ClearedSlots(p, BotClearKeys)))
         == When("email" in session, SetSensorUser(SessionGet(session, "email")))
  {
    ClearedBlank(p);
    BlankSlotsAreQuiet(session, Values(ClearedSlots(p, BotClearKeys)));
  }

  /** `get_bot_response`'s list clears every slot `prompt_check` reads. */
  lemma ClearedBlank(p: Slots)
    ensures Blank(Values(ClearedSlots(p, BotClearKeys)))
  {
    var v := Values(ClearedSlots(p, BotClearKeys));
    forall k | k in v ensures v[k] == "" {
      assert k in BotClearKeys;
      ClearedValues(p, BotClearKeys, k);
    }
  }

  /** A slot left off the clearing list keeps its value. */
  lemma ClearedKeeps(p: Slots, keys: seq<Key>, k: Key)
    requires k !in keys && k in PromptKeys
    ensures Values(ClearedSlots(p, keys))[k] == Values(p)[k]
  {
    ValuesSlot(ClearedSlots(p, keys), k);
    ValuesSlot(p, k);
  }

  /** A temperature request survives any clearing list that leaves it out but
      clears the slots that can make `prompt_check` raise. */
  lemma RequestSurvives(session: map<string, string>, p: Slots, keys: seq<Key>)
    requires Values(p)[GetDht11Temperature] != ""
    requires GetDht11Temperature !in keys && RaisingKeysIn(keys)
    ensures ReportTemperature in PromptPlan(session, Values(ClearedSlots(p, keys)))
    ensures Slot(Values(ClearedSlots(p, keys)), GetDht11Temperature) != ""
  {
    var v := Values(ClearedSlots(p, keys));
    SensorSlotsRead();
    ClearedKeeps(p, keys, GetDht11Temperature);
    ClearedValues(p, keys, Delete);
    ClearedValues(p, keys, DobPerson);
    ClearedValues(p, keys, AgePerson);
    ClearedValues(p, keys, GenderPerson);
    ClearedValues(p, keys, Rel);
    assert Slot(v, Delete) == "" && Slot(v, DobPerson) == "" && Slot(v, AgePerson) == "";
    assert Slot(v, GenderPerson) == "" && Slot(v, Rel) == "" && Slot(v, GetDht11Temperature) != "";
    BlankPersonsQuiet(session, v);
    TemperatureRequested(session, v);
  }

  /** With `delete` and the person slots of the lookups empty, nothing raises. */
  lemma BlankPersonsQuiet(session: map<string, string>, v: Slots)
    requires Slot(v, Delete) == "" && Slot(v, DobPerson) == "" && Slot(v, AgePerson) == ""
    requires Slot(v, GenderPerson) == "" && Slot(v, Rel) == ""
    ensures !Aborts(session, v)
  {
    assert Lower("") == "";
  }

  /** `keys` clears `delete` and the person slots of the lookups. */
  predicate RaisingKeysIn(keys: seq<Key>) {
    Delete in keys && DobPerson in keys && AgePerson in keys && GenderPerson in keys && Rel in keys
  }

  /** A temperature request is in the plan when `prompt_check` does not raise. */
  lemma TemperatureRequested(session: map<string, string>, v: Slots)
    requires Slot(v, GetDht11Temperature) != "" && !Aborts(session, v)
    ensures ReportTemperature in PromptPlan(session, v)
  {
    assert Requested(session, v, ReportTemperature);
    PlanIsRequested(session, v, ReportTemperature);
  }

  lemma SensorSlotsRead()
    ensures GetDht11Temperature in PromptKeys && Delete in PromptKeys && Rel in PromptKeys
    ensures DobPerson in PromptKeys && AgePerson in PromptKeys && GenderPerson in PromptKeys
  {
  }

  lemma AppClearKeepsRequests()
    ensures GetDht11Temperature !in AppClearKeys && RaisingKeysIn(AppClearKeys)
  {
  }

  lemma SensorClearKeepsRequests()
    ensures GetDht11Temperature !in SensorClearKeys && RaisingKeysIn(SensorClearKeys)
  {
  }

  /** The web route and `get_bot_response_with_sensor` do not clear the sensor
      requests: one asked for in a turn is asked for again in the next
      `prompt_check`, even if the engine fills no slot.  Loaded by
      conversation.py, that next call raises. */
  lemma SensorRequestOutlivesTurn(session: map<string, string>, p: Slots)
    requires Values(p)[GetDht11Temperature] != ""
    ensures ReportTemperature in PromptPlan(session, Values(ClearedSlots(p, AppClearKeys)))
    ensures ReportTemperature in PromptPlan(session, Values(ClearedSlots(p, SensorClearKeys)))
    ensures ImportedRaises(session, Values(ClearedSlots(p, SensorClearKeys)))
  {
    AppClearKeepsRequests();
    RequestSurvives(session, p, AppClearKeys);
    SensorClearKeepsRequests();
    RequestSurvives(session, p, SensorClearKeys);
    SensorAskRaises(session, Values(ClearedSlots(p, SensorClearKeys)));
  }

  lemma SensorAskRaises(session: map<string, string>, v: Slots)
    requires Slot(v, GetDht11Temperature) != ""
    ensures ImportedRaises(session, v)
  {
  }

  // ---------------------------------------------------------------------------
  // The writes prompt_check makes itself
  // ---------------------------------------------------------------------------

  /** `str(v)` of a value read back from the store. */
  function Show(v: Value): string {
    match v
    case VNone => "None"
    case VNum(_, text) => text
    case VText(s) => s
    case VList(items) => "[" + Join(seq(|items|, i requires 0 <= i < |items| => Repr(items[i])), ", ") + "]"
  }

  /** `repr` of a string inside a list: double quotes when it holds an
      apostrophe and no double quote, single quotes otherwise. */
  function Repr(s: string): string {
    if '\'' in s && '"' !in s then "\"" + s + "\"" else "'" + s + "'"
  }

  /** One stored DHT11 reading, newest first. */
  datatype MemoryRecord = MemoryRecord(temperature: Value, humidity: Value)

  /** `set_name_check_variable`: `name_check` records whether `name` is the
      session's user; nothing when `user_input_name` is empty. */
  function NameCheckWrite(session: map<string, string>, p: Slots, name: string): (r: Slots)
    ensures name != "" ==> (NameCheck in r
      && (r[NameCheck] == "true" <==> CheckName(name, SessionGet(session, "username")))
      && (r[NameCheck] == "false" <==> !CheckName(name, SessionGet(session, "username"))))
    ensures forall k :: k != NameCheck ==> Slot(r, k) == Slot(p, k) && (k in r <==> k in p)
    ensures name == "" ==> r == p
  {
    if name != "" then p[NameCheck := if CheckName(name, SessionGet(session, "username")) then "true" else "false"] else p
  }

  /** The newest stored reading copied into the `latest_dht11_*` slots when
      it is asked for and one exists. */
  function LatestWrite(p: Slots, asked: bool, memory: seq<MemoryRecord>): (r: Slots)
    ensures asked && memory != [] ==>
      Slot(r, LatestDht11Temp) == Show(memory[0].temperature) && Slot(r, LatestDht11Humidity) == Show(memory[0].humidity)
    ensures !(asked && memory != []) ==> r == p
    ensures forall k :: k != LatestDht11Temp && k != LatestDht11Humidity ==> Slot(r, k) == Slot(p, k) && (k in r <==> k in p)
  {
    if asked && memory != [] then
      var t, h := Show(memory[0].temperature), Show(memory[0].humidity);
      p[LatestDht11Temp := t][LatestDht11Humidity := h]
    else p
  }

  /** The slot writes of `prompt_check`'s own lines: the name test, then the
      stored reading when `get_dht11_memory` is filled and no delete aborted
      the call. */
  function PromptWrites(session: map<string, string>, p: Slots, memory: seq<MemoryRecord>): Slots {
    var v := Values(p);
    LatestWrite(NameCheckWrite(session, p, Slot(v, UserInputName)),
                !Aborts(session, v) && Slot(v, GetDht11Memory) != "", memory)
  }

  /** The slots after a turn's `prompt_check`, the engine's second pass
      (which fills the slots `heard2`), `set_sentiment` and the clearing loop
      over `keys`; when `prompt_check` raises, the `except` branch skips the
      rest and the slots stay as `prompt_check` left them. */
  function AfterTurn(session: map<string, string>, p: Slots, memory: seq<MemoryRecord>, heard2: Slots,
                     mood: string, keys: seq<Key>): Slots {
    if Aborts(session, Values(p)) then PromptWrites(session, p, memory)
    else ClearedSlots(SetSentimentSlots(PromptWrites(session, p, memory) + heard2, mood), keys)
  }

  /** `prompt_check` writes no slot it reads. */
  lemma PromptWritesKeepValues(session: map<string, string>, p: Slots, memory: seq<MemoryRecord>)
    ensures Values(PromptWrites(session, p, memory)) == Values(p)
  {
    var v := Values(p);
    SlotWritesKeepValues(session, p, Slot(v, UserInputName), !Aborts(session, v) && Slot(v, GetDht11Memory) != "", memory);
  }

  /** The name test and the copied reading write no slot `prompt_check` reads. */
  lemma SlotWritesKeepValues(session: map<string, string>, p: Slots, name: string, asked: bool, memory: seq<MemoryRecord>)
    ensures Values(LatestWrite(NameCheckWrite(session, p, name), asked, memory)) == Values(p)
  {
    var r := LatestWrite(NameCheckWrite(session, p, name), asked, memory);
    WrittenKeysUnread();
    forall k | k in PromptKeys ensures Slot(r, k) == Slot(p, k) {
      assert k != NameCheck && k != LatestDht11Temp && k != LatestDht11Humidity;
    }
    ValuesAgree(r, p);
  }

  lemma ValuesAgree(p: Slots, q: Slots)
    requires forall k :: k in PromptKeys ==> Slot(p, k) == Slot(q, k)
    ensures Values(p) == Values(q)
  {
    StrippedSlotsAgree(p, q, PromptKeys);
  }

  lemma WrittenKeysUnread()
    ensures NameCheck !in PromptKeys && LatestDht11Temp !in PromptKeys && LatestDht11Humidity !in PromptKeys
  {
  }

  /** A turn whose `prompt_check` raised raises again on the next call: the
      `except` branch skips the clearing loop, so the slot that raised (a
      delete with no e-mail, a lookup of "USER" with no user name) survives
      the turn. */
  lemma RaisedRequestRepeats(session: map<string, string>, p: Slots, memory: seq<MemoryRecord>,
                             heard2: Slots, mood: string, keys: seq<Key>)
    requires Aborts(session, Values(p))
    ensures AfterTurn(session, p, memory, heard2, mood, keys) == PromptWrites(session, p, memory)
    ensures var after := Values(AfterTurn(session, p, memory, heard2, mood, keys));
            Aborts(session, after) && AbortKey(session, after) == AbortKey(session, Values(p))
  {
    PromptWritesKeepValues(session, p, memory);
  }

  /** `values[k]` is the stripped slot. */
  lemma ValuesSlot(p: Slots, k: Key)
    requires k in PromptKeys
    ensures Slot(Values(p), k) == Strip(Slot(p, k))
  {
    StrippedSlot(p, PromptKeys, k);
  }

  /** The slot writes of `prompt_check` loaded by conversation.py: none when
      it raises at the registration; otherwise the name test, and the stored
      reading only when nothing raised before the stored-readings query. */
  function ImportedWrites(session: map<string, string>, p: Slots, memory: seq<MemoryRecord>): Slots {
    if "email" in session then p
    else if SensorReadAsked(Values(p)) then NameCheckWrite(session, p, Slot(Values(p), UserInputName))
    else PromptWrites(session, p, memory)
  }

  /** The slots after a turn of conversation.py's entry points, as `AfterTurn`
      with that `prompt_check`. */
  function ImportedAfterTurn(session: map<string, string>, p: Slots, memory: seq<MemoryRecord>, heard2: Slots,
                             mood: string, keys: seq<Key>): Slots {
    if ImportedRaises(session, Values(p)) then ImportedWrites(session, p, memory)
    else ClearedSlots(SetSentimentSlots(ImportedWrites(session, p, memory) + heard2, mood), keys)
  }

  /** Loaded by conversation.py, `prompt_check` writes nothing when the session
      has an e-mail, writes as in app.py's program when no DHT11 handler
      reads the sensor, and never writes a slot it reads. */
  lemma ImportedWritesAgree(session: map<string, string>, p: Slots, memory: seq<MemoryRecord>)
    ensures "email" in session ==> ImportedWrites(session, p, memory) == p
    ensures "email" !in session && !SensorReadAsked(Values(p)) ==>
      ImportedWrites(session, p, memory) == PromptWrites(session, p, memory)
    ensures Values(ImportedWrites(session, p, memory)) == Values(p)
  {
    if "email" !in session {
      ImportedWritesKeepValues(session, p, memory);
    }
  }

  lemma ImportedWritesKeepValues(session: map<string, string>, p: Slots, memory: seq<MemoryRecord>)
    requires "email" !in session
    ensures Values(ImportedWrites(session, p, memory)) == Values(p)
  {
    var v := Values(p);
    if SensorReadAsked(v) {
      SlotWritesKeepValues(session, p, Slot(v, UserInputName), false, memory);
    } else {
      PromptWritesKeepValues(session, p, memory);
    }
  }

  /** Under conversation.py a raising turn skips the clearing loop, so the
      next `prompt_check` raises again with the same text: every turn of a
      session with an e-mail fails, and so does every turn after a DHT11
      read request until the engine empties that slot. */
  lemma ImportedRaiseRepeats(session: map<string, string>, p: Slots, memory: seq<MemoryRecord>,
                             heard2: Slots, mood: string, keys: seq<Key>)
    requires ImportedRaises(session, Values(p))
    ensures ImportedAfterTurn(session, p, memory, heard2, mood, keys) == ImportedWrites(session, p, memory)
    ensures var after := Values(ImportedAfterTurn(session, p, memory, heard2, mood, keys));
            ImportedRaises(session, after) && ImportedErrorText(session, after) == ImportedErrorText(session, Values(p))
  {
    ImportedWritesAgree(session, p, memory);
  }

  /** After a turn of `get_bot_response` that did not raise, the next
      `prompt_check` runs no handler unless the engine fills a slot again. */
  lemma BotTurnSilences(session: map<string, string>, p: Slots, memory: seq<MemoryRecord>, heard2: Slots, mood: string)
    requires !ImportedRaises(session, Values(p))
    ensures ImportedPlan(session, Values(ImportedAfterTurn(session, p, memory, heard2, mood, BotClearKeys))) == []
  {
    var q := SetSentimentSlots(PromptWrites(session, p, memory) + heard2, mood);
    QuietImportedTurn(session, p, memory, heard2, mood, BotClearKeys);
    ClearedBlank(q);
    BlankImportedQuiet(session, Values(ClearedSlots(q, BotClearKeys)));
  }

  /** A turn that did not raise writes as in app.py's program, then clears. */
  lemma QuietImportedTurn(session: map<string, string>, p: Slots, memory: seq<MemoryRecord>, heard2: Slots,
                          mood: string, keys: seq<Key>)
    requires !ImportedRaises(session, Values(p))
    ensures ImportedAfterTurn(session, p, memory, heard2, mood, keys)
         == ClearedSlots(SetSentimentSlots(PromptWrites(session, p, memory) + heard2, mood), keys)
  {
    ImportedWritesAgree(session, p, memory);
  }

  /** Blank slots and no e-mail: conversation.py's `prompt_check` runs nothing. */
  lemma BlankImportedQuiet(session: map<string, string>, v: Slots)
    requires "email" !in session && Blank(v)
    ensures ImportedPlan(session, v) == []
  {
    assert Slot(v, GetDht11Temperature) == "" && Slot(v, GetDht11Humidity) == "";
    assert Slot(v, GetDht11Status) == "" && Slot(v, AnalyzeDht11Environment) == "";
    BlankSlotsAreQuiet(session, v);
    ImportedPlanAgrees(session, v);
  }

  // ---------------------------------------------------------------------------
  // Turn guards and the sensor setup
  // ---------------------------------------------------------------------------

  /** What a turn of `get_bot_response` returns. */
  datatype Reply =
    | Failure(response: string, error: string)
    | Success(response: string, user: string, recognizedText: string)

  const EmptyQueryReply: Reply := Failure("Please provide a message.", "Empty query")
  const CrashText: string := "Sorry, I encountered an error processing your message."

  /** `str(KeyError(key))`. */
  function KeyErrorText(key: string): string {
    "'" + key + "'"
  }

  /** What the web chat route answers. */
  datatype RouteReply =
    | NotLoggedIn
    | NoMessage
    | ServerError(error: string)
    | Answer(response: string)

  /** `not query or query.strip() == ""`: the query is missing, empty or blank. */
  predicate BlankQuery(query: Option<string>) {
    query.None? || query.value == "" || Strip(query.value) == ""
  }

  /** The guard refuses exactly the missing query and the all-whitespace ones. */
  lemma BlankQueryIsAllSpace(query: Option<string>)
    ensures BlankQuery(query) <==> query.None? || AllSpace(query.value)
  {
    if query.Some? {
      StripEmptyIffAllSpace(query.value);
    }
  }

  /** The web route only tests `not query`: a query of spaces gets through. */
  lemma RouteGuardWeaker()
    ensures !(Some(" ").None? || Some(" ").value == "") && BlankQuery(Some(" "))
  {
    assert LStrip(" ") == "";
  }

  /** `int(x)` for the comfort score: a number truncated toward zero, a
      string read as Python reads it; None where Python raises. */
  function IntOf(v: Value): (r: Option<int>)
    ensures v.VNum? && v.val >= 0.0 ==> r.Some? && r.value as real <= v.val < r.value as real + 1.0
    ensures v.VNum? && v.val < 0.0 ==> r.Some? && r.value as real - 1.0 < v.val <= r.value as real
    ensures v.VText? ==> r == PyInt(v.s)
    ensures v.VNone? || v.VList? ==> r.None?
  {
    match v
    case VNone => None
    case VNum(x, _) => if x >= 0.0 then Some(x.Floor) else Some(-((-x).Floor))
    case VText(s) => PyInt(s)
    case VList(_) => None
  }

  /** `str(e)` of what `int(v)` raises: a `ValueError` quoting a string it
      cannot read, a `TypeError` naming the type of None or a list. */
  function IntErrorText(v: Value): string
    requires IntOf(v).None?
  {
    if v.VText? then "invalid literal for int() with base 10: " + Repr(v.s)
    else "int() argument must be a string, a bytes-like object or a real number, not '"
         + (if v.VNone? then "NoneType" else "list") + "'"
  }

  /** A None comfort score gives `int()`'s `TypeError` message. */
  lemma IntErrorOfNone()
    ensures IntErrorText(VNone)
         == "int() argument must be a string, a bytes-like object or a real number, not 'NoneType'"
  {
  }

  /** A comfort score of "abc" gives `int()`'s `ValueError` message, quoted. */
  lemma IntErrorOfText()
    ensures IntErrorText(VText("abc")) == "invalid literal for int() with base 10: 'abc'"
  {
    assert LStrip("abc") == "abc" && RStrip("abc") == "abc";
    assert !IsDigit('a');
  }

  /** The comfort score the sensor setup reads, 0 when absent. */
  function ComfortScoreOf(sensor: map<string, Value>): Value {
    Get(sensor, "comfort_score", VNum(0.0, "0"))
  }

  /** The sensor status holds "valid". */
  predicate SensorValid(sensor: Option<map<string, Value>>) {
    sensor.Some? && Get(sensor.value, "status", VNone) == VText("valid")
  }

  /** `r` differs from `p` only on the sensor slots. */
  predicate SensorFrame(p: Slots, r: Slots) {
    (forall k :: k in p && k !in SensorSlotKeys ==> k in r && r[k] == p[k])
    && (forall k :: k in r ==> k in p || k in SensorSlotKeys)
  }

  lemma {:induction false} SensorFrameTrans(p: Slots, q: Slots, r: Slots)
    requires SensorFrame(p, q) && SensorFrame(q, r)
    ensures SensorFrame(p, r)
  {
  }

  /** Writing one sensor slot stays inside the frame. */
  lemma SensorWrite(p: Slots, k: Key, v: string)
    requires k in SensorSlotKeys
    ensures SensorFrame(p, p[k := v])
  {
  }

  lemma SensorSlotsListed()
    ensures Dht11Temperature in SensorSlotKeys && Dht11Humidity in SensorSlotKeys
    ensures Dht11ComfortScore in SensorSlotKeys && Dht11Recommendations in SensorSlotKeys
    ensures Dht11Status in SensorSlotKeys && SensorType in SensorSlotKeys
    ensures Dht11TempUnit in SensorSlotKeys && Dht11HumidityUnit in SensorSlotKeys
  {
  }

  /** The two readings of a valid sensor, "unavailable" where missing. */
  function ReadingsWritten(p: Slots, s: map<string, Value>): (r: Slots)
    ensures Slot(r, Dht11Temperature) == Show(Get(s, "temperature", VText("unavailable")))
    ensures Slot(r, Dht11Humidity) == Show(Get(s, "humidity", VText("unavailable")))
    ensures SensorFrame(p, r)
  {
    SensorSlotsListed();
    var p1 := p[Dht11Temperature := Show(Get(s, "temperature", VText("unavailable")))];
    SensorWrite(p, Dht11Temperature, Show(Get(s, "temperature", VText("unavailable"))));
    SensorWrite(p1, Dht11Humidity, Show(Get(s, "humidity", VText("unavailable"))));
    SensorFrameTrans(p, p1, p1[Dht11Humidity := Show(Get(s, "humidity", VText("unavailable")))]);
    p1[Dht11Humidity := Show(Get(s, "humidity", VText("unavailable")))]
  }

  /** The score, the advice and the fixed labels of a valid reading. */
  function ScoreWritten(p: Slots, s: map<string, Value>, score: int): (r: Slots)
    ensures Slot(r, Dht11ComfortScore) == IntToString(score)
    ensures Slot(r, Dht11Recommendations) == Show(Get(s, "recommendations", VText("No recommendations")))
    ensures Slot(r, Dht11Status) == "valid" && Slot(r, SensorType) == "DHT11"
    ensures Slot(r, Dht11TempUnit) == "°C" && Slot(r, Dht11HumidityUnit) == "%"
    ensures Slot(r, Dht11Temperature) == Slot(p, Dht11Temperature)
    ensures Slot(r, Dht11Humidity) == Slot(p, Dht11Humidity)
    ensures SensorFrame(p, r)
  {
    SensorSlotsListed();
    var p1 := p[Dht11ComfortScore := IntToString(score)]
               [Dht11Recommendations := Show(Get(s, "recommendations", VText("No recommendations")))];
    var p2 := p1[Dht11Status := "valid"][SensorType := "DHT11"];
    var p3 := p2[Dht11TempUnit := "°C"][Dht11HumidityUnit := "%"];
    assert SensorFrame(p, p1) && SensorFrame(p1, p2) && SensorFrame(p2, p3);
    SensorFrameTrans(p, p1, p2);
    SensorFrameTrans(p, p2, p3);
    p3
  }

  /** The three error writes of a sensor that is missing or not valid. */
  function ErrorWritten(p: Slots): (r: Slots)
    ensures Slot(r, Dht11Temperature) == "unavailable" && Slot(r, Dht11Humidity) == "unavailable"
    ensures Slot(r, Dht11Status) == "error"
    ensures forall k :: k != Dht11Temperature && k != Dht11Humidity && k != Dht11Status ==>
      (k in r <==> k in p) && (k in p ==> r[k] == p[k])
    ensures SensorFrame(p, r)
  {
    SensorSlotsListed();
    p[Dht11Temperature := "unavailable"][Dht11Humidity := "unavailable"][Dht11Status := "error"]
  }

  /** The slots after the sensor setup of `get_bot_response_with_sensor`, and
      whether `int()` of the comfort score raised, after the two readings were
      already written. */
  function SensorSetup(p: Slots, sensor: Option<map<string, Value>>): (r: (Slots, bool))
    ensures SensorValid(sensor) ==>
      Slot(r.0, Dht11Temperature) == Show(Get(sensor.value, "temperature", VText("unavailable")))
      && Slot(r.0, Dht11Humidity) == Show(Get(sensor.value, "humidity", VText("unavailable")))
    ensures r.1 <==> SensorValid(sensor) && IntOf(ComfortScoreOf(sensor.value)).None?
    ensures SensorValid(sensor) && !r.1 ==> Slot(r.0, Dht11Status) == "valid" && Slot(r.0, SensorType) == "DHT11"
    ensures !SensorValid(sensor) ==> r.0 == ErrorWritten(p)
    ensures SensorFrame(p, r.0)
  {
    if SensorValid(sensor) then
      var s := sensor.value;
      var p1 := ReadingsWritten(p, s);
      var score := IntOf(ComfortScoreOf(s));
      if score.None? then (p1, true)
      else
        SensorFrameTrans(p, p1, ScoreWritten(p1, s, score.value));
        (ScoreWritten(p1, s, score.value), false)
    else
      (ErrorWritten(p), false)
  }

  lemma SlotKeysCleared()
    ensures forall k :: k in SensorSlotKeys ==> k in SensorClearKeys
  {
  }

  /** What the sensor setup writes is cleared again at the end of the turn:
      the slots after the clearing are the same with or without it. */
  lemma SensorSetupCleared(p: Slots, sensor: Option<map<string, Value>>)
    requires !SensorSetup(p, sensor).1
    ensures ClearedSlots(SensorSetup(p, sensor).0, SensorClearKeys) == ClearedSlots(p, SensorClearKeys)
  {
    SlotKeysCleared();
    ClearedAgree(SensorSetup(p, sensor).0, p, SensorClearKeys);
  }

  /** `set_sentiment`: the mood of the last analysis fills an empty `sentiment`. */
  function SetSentimentSlots(p: Slots, mood: string): (r: Slots)
    ensures Slot(p, Sentiment) == "" ==> r == p[Sentiment := mood]
    ensures Slot(p, Sentiment) != "" ==> r == p
  {
    if Slot(p, Sentiment) == "" then p[Sentiment := mood] else p
  }

  // ---------------------------------------------------------------------------
  // The engine's slot table
  // ---------------------------------------------------------------------------

  class Bot {
    var predicates: Slots

    constructor ()
      ensures predicates == map[]
    {
      predicates := map[];
    }

    function Get(key: Key): string
      reads this
    {
      Slot(predicates, key)
    }

    method SetPredicate(key: Key, value: string)
      modifies this
      ensures predicates == old(predicates)[key := value]
    {
      predicates := predicates[key := value];
    }

    /** `for key in keys: setPredicate(key, "")`. */
    method Clear(keys: seq<Key>)
      modifies this
      ensures predicates == ClearedSlots(old(predicates), keys)
    {
      for i := 0 to |keys|
        invariant predicates == ClearedSlots(old(predicates), keys[..i])
      {
        assert keys[..i + 1][..i] == keys[..i];
        SetPredicate(keys[i], "");
      }
      assert keys[..|keys|] == keys;
    }

    /** `prompt_check`: the handlers to run, the slots it writes itself, and
        whether it raised.  `bound` says whether app.py's global
        `dht11_sensor` exists: it does in app.py's own program, where only a
        `KeyError` on a missing session key raises; it does not when
        conversation.py has loaded app.py, where `ImportedPlan` says what runs. */
    method PromptCheck(session: map<string, string>, memory: seq<MemoryRecord>, bound: bool)
      returns (plan: seq<Call>, raised: bool)
      modifies this
      ensures bound ==> plan == PromptPlan(session, Values(old(predicates)))
      ensures bound ==> raised == Aborts(session, Values(old(predicates)))
      ensures bound ==> predicates == PromptWrites(session, old(predicates), memory)
      ensures !bound ==> plan == ImportedPlan(session, Values(old(predicates)))
      ensures !bound ==> raised == ImportedRaises(session, Values(old(predicates)))
      ensures !bound ==> predicates == ImportedWrites(session, old(predicates), memory)
    {
      var values := Values(predicates);
      if !bound && "email" in session {
        return [Undefined(SensorGlobal)], true;
      }
      plan := if bound then PromptPlan(session, values) else ImportedPlan(session, values);
      var name := Slot(values, UserInputName);
      if name != "" {
        SetPredicate(NameCheck, if CheckName(name, SessionGet(session, "username")) then "true" else "false");
      }
      raised := Aborts(session, values) || (!bound && SensorReadAsked(values));
      if raised {
        return;
      }
      if Slot(values, GetDht11Memory) != "" && memory != [] {
        SetPredicate(LatestDht11Temp, Show(memory[0].temperature));
        SetPredicate(LatestDht11Humidity, Show(memory[0].humidity));
      }
    }

    /** `set_sentiment`. */
    method SetSentiment(mood: string)
      modifies this
      ensures predicates == SetSentimentSlots(old(predicates), mood)
    {
      if Get(Sentiment) == "" {
        SetPredicate(Sentiment, mood);
      }
    }

    /** The part of a turn from `prompt_check` to the clearing loop over
        `keys`, with the engine's second pass filling `heard2`; `raised`
        when `prompt_check` raised, which skips everything after it.
        `bound` is as for `PromptCheck`. */
    method CheckAndClear(session: map<string, string>, memory: seq<MemoryRecord>, heard2: Slots, mood: string,
                         keys: seq<Key>, bound: bool) returns (plan: seq<Call>, raised: bool)
      modifies this
      ensures bound ==> plan == PromptPlan(session, Values(old(predicates)))
      ensures bound ==> raised == Aborts(session, Values(old(predicates)))
      ensures bound ==> predicates == AfterTurn(session, old(predicates), memory, heard2, mood, keys)
      ensures !bound ==> plan == ImportedPlan(session, Values(old(predicates)))
      ensures !bound ==> raised == ImportedRaises(session, Values(old(predicates)))
      ensures !bound ==> predicates == ImportedAfterTurn(session, old(predicates), memory, heard2, mood, keys)
    {
      plan, raised := PromptCheck(session, memory, bound);
      if raised {
        return;
      }
      predicates := predicates + heard2;
      SetSentiment(mood);
      Clear(keys);
    }

    /** One turn of `get_bot_response`, which exists only in the program
        conversation.py runs: the blank-query guard, the user name, the slots
        the engine's first pass fills (`heard`), then app.py's `prompt_check`
        with `dht11_sensor` unbound, the second pass (`heard2`),
        `set_sentiment` and the clearing of every slot `prompt_check` reads.
        The second pass's answer is `answer`; whatever `prompt_check` raises
        gives the error reply with its text, so a session with an e-mail
        always gets the `NameError` reply. */
    method BotTurn(query: Option<string>, userName: string, session: map<string, string>, heard: Slots,
                   heard2: Slots, answer: string, memory: seq<MemoryRecord>, mood: string)
      returns (reply: Reply, plan: seq<Call>)
      modifies this
      ensures BlankQuery(query) ==> reply == EmptyQueryReply && plan == [] && predicates == old(predicates)
      ensures !BlankQuery(query) ==>
        var p := old(predicates)[Username := userName] + heard;
        plan == ImportedPlan(session, Values(p))
        && predicates == ImportedAfterTurn(session, p, memory, heard2, mood, BotClearKeys)
        && reply == (if ImportedRaises(session, Values(p)) then Failure(CrashText, ImportedErrorText(session, Values(p)))
                     else Success(answer, userName, query.value))
      ensures !BlankQuery(query) && "email" in session ==>
        reply == Failure(CrashText, NameErrorText(SensorGlobal))
        && predicates == old(predicates)[Username := userName] + heard
    {
      if BlankQuery(query) {
        return EmptyQueryReply, [];
      }
      SetPredicate(Username, userName);
      predicates := predicates + heard;
      var error := ImportedErrorText(session, Values(predicates));
      var raised;
      plan, raised := CheckAndClear(session, memory, heard2, mood, BotClearKeys, false);
      if raised {
        return Failure(CrashText, error), plan;
      }
      reply := Success(answer, userName, query.value);
    }

    /** One turn of `get_bot_response_with_sensor`: as `BotTurn`, with the
        sensor slots set before the engine runs and its own clearing list.  A
        comfort score `int()` cannot read ends the turn with the slots written
        so far. */
    method SensorTurn(query: Option<string>, userName: string, session: map<string, string>,
                      sensor: Option<map<string, Value>>, heard: Slots, heard2: Slots, answer: string,
                      memory: seq<MemoryRecord>, mood: string) returns (reply: Reply, plan: seq<Call>)
      modifies this
      ensures BlankQuery(query) ==> reply == EmptyQueryReply && plan == [] && predicates == old(predicates)
      ensures !BlankQuery(query) && SensorSetup(old(predicates)[Username := userName], sensor).1 ==>
        reply == Failure(CrashText, IntErrorText(ComfortScoreOf(sensor.value))) && plan == []
        && predicates == SensorSetup(old(predicates)[Username := userName], sensor).0
      ensures !BlankQuery(query) && !SensorSetup(old(predicates)[Username := userName], sensor).1 ==>
        var p := SensorSetup(old(predicates)[Username := userName], sensor).0 + heard;
        plan == ImportedPlan(session, Values(p))
        && predicates == ImportedAfterTurn(session, p, memory, heard2, mood, SensorClearKeys)
        && reply == (if ImportedRaises(session, Values(p)) then Failure(CrashText, ImportedErrorText(session, Values(p)))
                     else Success(answer, userName, query.value))
      ensures !BlankQuery(query) && !SensorSetup(old(predicates)[Username := userName], sensor).1
              && "email" in session ==>
        reply == Failure(CrashText, NameErrorText(SensorGlobal))
        && predicates == SensorSetup(old(predicates)[Username := userName], sensor).0 + heard
    {
      if BlankQuery(query) {
        return EmptyQueryReply, [];
      }
      SetPredicate(Username, userName);
      var (slots, crashed) := SensorSetup(predicates, sensor);
      predicates := slots;
      if crashed {
        return Failure(CrashText, IntErrorText(ComfortScoreOf(sensor.value))), [];
      }
      predicates := predicates + heard;
      var error := ImportedErrorText(session, Values(predicates));
      var raised;
      plan, raised := CheckAndClear(session, memory, heard2, mood, SensorClearKeys, false);
      if raised {
        return Failure(CrashText, error), plan;
      }
      reply := Success(answer, userName, query.value);
    }

    /** One turn of app.py's web chat route, in app.py's own program, where
        `dht11_sensor` is bound: a session with no e-mail is refused,
        then a missing or empty message; the sensor requests are not cleared.
        A `KeyError` of `prompt_check` (a lookup of "USER" in a session with
        no user name) gives the server error. */
    method RouteTurn(query: Option<string>, session: map<string, string>, heard: Slots, heard2: Slots,
                     answer: string, memory: seq<MemoryRecord>, mood: string) returns (reply: RouteReply, plan: seq<Call>)
      modifies this
      ensures "email" !in session ==> reply == NotLoggedIn && plan == [] && predicates == old(predicates)
      ensures "email" in session && (query.None? || query.value == "") ==>
        reply == NoMessage && plan == [] && predicates == old(predicates)
      ensures "email" in session && query.Some? && query.value != "" ==>
        var p := old(predicates) + heard;
        reply == (if Aborts(session, Values(p)) then ServerError(CrashText) else Answer(answer))
        && plan == PromptPlan(session, Values(p))
        && predicates == AfterTurn(session, p, memory, heard2, mood, AppClearKeys)
    {
      if "email" !in session {
        return NotLoggedIn, [];
      }
      if query.None? || query.value == "" {
        return NoMessage, [];
      }
      predicates := predicates + heard;
      var raised;
      plan, raised := CheckAndClear(session, memory, heard2, mood, AppClearKeys, true);
      if raised {
        return ServerError(CrashText), plan;
      }
      reply := Answer(answer);
    }
  }
}
