/**
 * The reasoner's fact store: the lines `append_gender_fact`, `append_dob_fact`
 * and `append_relation_fact` add to a user's fact file, what those lines denote
 * once the file is loaded, and the lookups `find_dob`, `find_age`,
 * `find_gender`, `find_person` and `check_relation` that answer from the loaded
 * clauses by taking the first clause that matches a query.
 */
module FactStore {

  import opened Wrappers
  import opened PyStr

  /** An argument of a stored clause: a lower-case atom or a `date(Y,M,D)` term. */
  datatype Term = Atom(name: string) | DateTerm(year: int, month: int, day: int)

  /** A ground fact `pred(arg, ...)`. */
  datatype Clause = Clause(pred: string, args: seq<Term>)

  /** A calendar date as the lookups see it. */
  datatype Date = Date(year: int, month: int, day: int)

  /** What one lookup leaves behind: the bot predicates it set, and whether it
      ended by raising (a missing `username` in the session, an out-of-range month). */
  datatype Effect = Effect(writes: map<string, string>, raised: bool)

  // ---------------------------------------------------------------------------
  // Rendering clauses as fact-file lines, and reading them back.
  // ---------------------------------------------------------------------------

  /** A character that can appear inside an atom without ending it. */
  predicate PlainChar(c: char) {
    c != '(' && c != ')' && c != ',' && c != '.' && c != '\n'
  }

  /** An atom that reads back as itself: non-empty, not a comment, no delimiters. */
  predicate PlainAtom(s: string) {
    s != [] && s[0] != '%' && forall i :: 0 <= i < |s| ==> PlainChar(s[i])
  }

  predicate PlainTerm(t: Term) {
    t.Atom? ==> PlainAtom(t.name)
  }

  /** A clause whose rendered line reads back as the same clause. */
  predicate WellFormed(c: Clause) {
    PlainAtom(c.pred) && |c.args| >= 1 && forall i :: 0 <= i < |c.args| ==> PlainTerm(c.args[i])
  }

  function DateText(y: int, m: int, d: int): string {
    IntToString(y) + "," + IntToString(m) + "," + IntToString(d)
  }

  function RenderTerm(t: Term): string {
    match t
    case Atom(n) => n
    case DateTerm(y, m, d) => "date(" + DateText(y, m, d) + ")"
  }

  function RenderArgs(args: seq<Term>): string
    requires |args| >= 1
  {
    if |args| == 1 then RenderTerm(args[0])
    else RenderTerm(args[0]) + "," + RenderArgs(args[1..])
  }

  /** The line a clause occupies in a fact file. */
  function Render(c: Clause): string
    requires |c.args| >= 1
  {
    c.pred + "(" + RenderArgs(c.args) + ").\n"
  }

  /** `Y,M,D` as three integers. */
  function ParseDate(s: string): Option<(int, int, int)>
  {
    match IndexOf(s, ',')
    case None => None
    case Some(i) =>
      var rest := s[i + 1..];
      match IndexOf(rest, ',')
      case None => None
      case Some(j) =>
        match (ParseInt(s[..i]), ParseInt(rest[..j]), ParseInt(rest[j + 1..]))
        case (Some(y), Some(m), Some(d)) => Some((y, m, d))
        case _ => None
  }

  /** A comma-separated argument list: atoms and `date(Y,M,D)` terms. */
  function ParseArgs(s: string): Option<seq<Term>>
    decreases |s|
  {
    if StartsWith(s, "date(") then
      var rest := s[5..];
      match IndexOf(rest, ')')
      case None => None
      case Some(j) =>
        match ParseDate(rest[..j])
        case None => None
        case Some(ymd) =>
          var t := DateTerm(ymd.0, ymd.1, ymd.2);
          var after := rest[j + 1..];
          if after == [] then Some([t])
          else if after[0] != ',' then None
          else
            match ParseArgs(after[1..])
            case None => None
            case Some(ts) => Some([t] + ts)
    else
      match IndexOf(s, ',')
      case None => if PlainAtom(s) then Some([Atom(s)]) else None
      case Some(i) =>
        if !PlainAtom(s[..i]) then None
        else
          match ParseArgs(s[i + 1..])
          case None => None
          case Some(ts) => Some([Atom(s[..i])] + ts)
  }

  /** The clause a fact-file line denotes; None for comments and anything else. */
  function ParseLine(line: string): Option<Clause>
  {
    if |line| < 3 || line[|line| - 3..] != ").\n" then None
    else
      var body := line[..|line| - 3];
      match IndexOf(body, '(')
      case None => None
      case Some(k) =>
        if !PlainAtom(body[..k]) then None
        else
          match ParseArgs(body[k + 1..])
          case None => None
          case Some(args) => Some(Clause(body[..k], args))
  }

  /** The clauses of a fact file, in file order. */
  function Load(lines: seq<string>): seq<Clause>
  {
    if lines == [] then []
    else
      Load(lines[..|lines| - 1])
      + (match ParseLine(lines[|lines| - 1]) case Some(c) => [c] case None => [])
  }

  /** The text of an integer holds no comma. */
  lemma IntTextNoComma(i: int)
    ensures ',' !in IntToString(i)
  {
    var t := IntToString(i);
    assert forall k :: 0 <= k < |t| ==> IsDigit(t[k]) || t[k] == '-';
  }

  /** Three comma-free pieces joined by commas split back into themselves. */
  lemma ParseDateParts(a: string, b: string, c: string)
    requires ',' !in a && ',' !in b
    ensures ParseDate(a + "," + b + "," + c)
      == match (ParseInt(a), ParseInt(b), ParseInt(c))
         case (Some(y), Some(m), Some(d)) => Some((y, m, d))
         case _ => None
  {
    var tail := b + [','] + c;
    assert a + "," + b + "," + c == a + [','] + tail;
    SplitAtFirst(a, ',', tail);
    SplitAtFirst(b, ',', c);
  }

  lemma ParseDateRender(y: int, m: int, d: int)
    ensures ParseDate(DateText(y, m, d)) == Some((y, m, d))
  {
    IntTextNoComma(y);
    IntTextNoComma(m);
    ParseDateParts(IntToString(y), IntToString(m), IntToString(d));
    IntToStringRoundTrip(y);
    IntToStringRoundTrip(m);
    IntToStringRoundTrip(d);
  }

  /** An atom followed by nothing or by a comma is never taken for a date. */
  lemma AtomNotDate(n: string, tail: string)
    requires PlainAtom(n) && (tail == [] || tail[0] == ',')
    ensures !StartsWith(n + tail, "date(")
  {
    if |n| > 4 {
      assert (n + tail)[4] == n[4] && PlainChar(n[4]);
    } else if tail != [] {
      assert (n + tail)[|n|] == ',' && "date("[|n|] != ',';
    }
  }

  lemma ParseAtomAlone(n: string)
    requires PlainAtom(n)
    ensures ParseArgs(n) == Some([Atom(n)])
  {
    AtomNotDate(n, "");
    assert n + "" == n;
    assert ',' !in n by {
      assert forall i :: 0 <= i < |n| ==> PlainChar(n[i]);
    }
  }

  lemma ParseAtomFirst(n: string, rest: string)
    requires PlainAtom(n)
    ensures ParseArgs(n + "," + rest)
      == match ParseArgs(rest) case None => None case Some(ts) => Some([Atom(n)] + ts)
  {
    var s := n + "," + rest;
    AtomNotDate(n, "," + rest);
    assert s == n + ("," + rest);
    assert ',' !in n by {
      assert forall i :: 0 <= i < |n| ==> PlainChar(n[i]);
    }
    IndexOfAfter(n, ',', rest);
    assert s[..|n|] == n;
    assert s[|n| + 1..] == rest;
  }

  /** The characters of a date's text are digits, minus signs and commas. */
  lemma DateTextHasNoParen(y: int, m: int, d: int)
    ensures ')' !in DateText(y, m, d)
  {
    var ys, ms, ds := IntToString(y), IntToString(m), IntToString(d);
    assert forall k :: 0 <= k < |ys| ==> IsDigit(ys[k]) || ys[k] == '-';
    assert forall k :: 0 <= k < |ms| ==> IsDigit(ms[k]) || ms[k] == '-';
    assert forall k :: 0 <= k < |ds| ==> IsDigit(ds[k]) || ds[k] == '-';
  }

  /** A `date(` term: the text up to the first `)` is read as a date, and
      what follows it must be nothing or a comma and more arguments. */
  lemma ParseDateTerm(inner: string, tail: string)
    requires ')' !in inner
    ensures ParseArgs("date(" + (inner + [')'] + tail))
      == match ParseDate(inner)
         case None => None
         case Some(ymd) =>
           var t := DateTerm(ymd.0, ymd.1, ymd.2);
           if tail == [] then Some([t])
           else if tail[0] != ',' then None
           else match ParseArgs(tail[1..]) case None => None case Some(ts) => Some([t] + ts)
  {
    var s := "date(" + (inner + [')'] + tail);
    assert s[..5] == "date(" && s[5..] == inner + [')'] + tail;
    SplitAtFirst(inner, ')', tail);
  }

  lemma ParseDateThen(y: int, m: int, d: int, tail: string)
    requires tail == [] || tail[0] == ','
    ensures ParseArgs(RenderTerm(DateTerm(y, m, d)) + tail)
      == if tail == [] then Some([DateTerm(y, m, d)])
         else match ParseArgs(tail[1..]) case None => None case Some(ts) => Some([DateTerm(y, m, d)] + ts)
  {
    var dt := DateText(y, m, d);
    assert RenderTerm(DateTerm(y, m, d)) + tail == "date(" + (dt + [')'] + tail);
    DateTextHasNoParen(y, m, d);
    ParseDateTerm(dt, tail);
    ParseDateRender(y, m, d);
  }

  lemma ParseDateAlone(y: int, m: int, d: int)
    ensures ParseArgs(RenderTerm(DateTerm(y, m, d))) == Some([DateTerm(y, m, d)])
  {
    ParseDateThen(y, m, d, "");
    assert RenderTerm(DateTerm(y, m, d)) + "" == RenderTerm(DateTerm(y, m, d));
  }

  lemma ParseDateFirst(y: int, m: int, d: int, rest: string)
    ensures ParseArgs(RenderTerm(DateTerm(y, m, d)) + "," + rest)
      == match ParseArgs(rest) case None => None case Some(ts) => Some([DateTerm(y, m, d)] + ts)
  {
    ParseDateThen(y, m, d, "," + rest);
    assert ("," + rest)[1..] == rest;
    assert RenderTerm(DateTerm(y, m, d)) + "," + rest == RenderTerm(DateTerm(y, m, d)) + ("," + rest);
  }

  lemma {:induction false} ParseArgsRender(args: seq<Term>)
    requires |args| >= 1
    requires forall i :: 0 <= i < |args| ==> PlainTerm(args[i])
    ensures ParseArgs(RenderArgs(args)) == Some(args)
    decreases |args|
  {
    if |args| == 1 {
      assert args == [args[0]];
      match args[0]
      case Atom(n) => ParseAtomAlone(n);
      case DateTerm(y, m, d) => ParseDateAlone(y, m, d);
    } else {
      var rest := RenderArgs(args[1..]);
      ParseArgsRender(args[1..]);
      assert [args[0]] + args[1..] == args;
      match args[0]
      case Atom(n) => ParseAtomFirst(n, rest);
      case DateTerm(y, m, d) => ParseDateFirst(y, m, d, rest);
    }
  }

  /** A well-formed clause reads back from its own line. */
  lemma ParseRender(c: Clause)
    requires WellFormed(c)
    ensures ParseLine(Render(c)) == Some(c)
  {
    var a := RenderArgs(c.args);
    var line := Render(c);
    assert line == (c.pred + [('(')] + a) + ").\n";
    var body := line[..|line| - 3];
    assert body == c.pred + ['('] + a;
    assert '(' !in c.pred by {
      assert forall i :: 0 <= i < |c.pred| ==> PlainChar(c.pred[i]);
    }
    IndexOfAfter(c.pred, '(', a);
    assert body[..|c.pred|] == c.pred;
    assert body[|c.pred| + 1..] == a;
    ParseArgsRender(c.args);
  }

  /** Appending a well-formed clause's line to a fact file appends that clause to
      what the file denotes. */
  lemma LoadAppend(lines: seq<string>, c: Clause)
    requires WellFormed(c)
    ensures Load(lines + [Render(c)]) == Load(lines) + [c]
  {
    assert (lines + [Render(c)])[..|lines|] == lines;
    ParseRender(c);
  }

  // ---------------------------------------------------------------------------
  // The lines the three writers append.
  // ---------------------------------------------------------------------------

  /** `append_gender_fact`: `{gender}({username}).` lower-cased. */
  function GenderClause(username: string, gender: string): Clause {
    Clause(Lower(gender), [Atom(Lower(username))])
  }

  /** `append_dob_fact` once the date text has been parsed. */
  function DobClause(username: string, dob: Date): Clause {
    Clause("dob", [Atom(Lower(username)), DateTerm(dob.year, dob.month, dob.day)])
  }

  /** `append_relation_fact`: `{relation}({person1},{username}).`, person first. */
  function RelationClause(username: string, person1: string, relation: string): Clause {
    Clause(Lower(relation), [Atom(Lower(person1)), Atom(Lower(username))])
  }

  /** What a writer does with the session's fact file: append the line when the
      session names a file, write nothing otherwise. */
  function AppendLine(file: Option<seq<string>>, c: Clause): (r: Option<seq<string>>)
    requires |c.args| >= 1
    ensures r.Some? <==> file.Some?
    ensures r.Some? ==> |r.value| == |file.value| + 1 && r.value[..|r.value| - 1] == file.value && r.value[|r.value| - 1] == Render(c)
  {
    match file
    case None => None
    case Some(lines) => Some(lines + [Render(c)])
  }

  function AppendGenderFact(file: Option<seq<string>>, username: string, gender: string): Option<seq<string>> {
    AppendLine(file, GenderClause(username, gender))
  }

  /** `append_dob_fact`; `parsed` is what the date parser made of the text, None
      where it raised (then nothing is written). */
  function AppendDobFact(file: Option<seq<string>>, username: string, parsed: Option<Date>): Option<seq<string>> {
    match parsed
    case None => file
    case Some(dob) => AppendLine(file, DobClause(username, dob))
  }

  /** A request to record a social edge in the memory graph. */
  datatype SocialRequest = SocialRequest(username: string, email: Option<string>, person1: string, relation: string)

  /** `append_relation_fact`: the new file, and the social-memory write it starts
      when `username` is non-empty. */
  function AppendRelationFact(file: Option<seq<string>>, email: Option<string>, username: string,
                              person1: string, relation: string): (Option<seq<string>>, Option<SocialRequest>)
  {
    (AppendLine(file, RelationClause(username, person1, relation)),
     if username != "" then Some(SocialRequest(username, email, person1, relation)) else None)
  }

  // ---------------------------------------------------------------------------
  // First-match queries.
  // ---------------------------------------------------------------------------

  /** One argument position of a query: a variable, a constant, or a `(Y, M, D)` triple. */
  datatype Pat = Any | Is(t: Term) | AnyDate

  datatype Query = Query(pred: string, pats: seq<Pat>)

  predicate PatMatches(p: Pat, t: Term) {
    match p
    case Any => true
    case Is(u) => t == u
    case AnyDate => t.DateTerm?
  }

  predicate Matches(c: Clause, q: Query) {
    c.pred == q.pred && |c.args| == |q.pats|
    && forall i :: 0 <= i < |c.args| ==> PatMatches(q.pats[i], c.args[i])
  }

  /** Position of the first clause that answers `q`. */
  function FirstMatch(kb: seq<Clause>, q: Query): (r: Option<nat>)
    ensures r.Some? ==> r.value < |kb| && Matches(kb[r.value], q)
    ensures r.Some? ==> forall j :: 0 <= j < r.value ==> !Matches(kb[j], q)
    ensures r.None? <==> forall j :: 0 <= j < |kb| ==> !Matches(kb[j], q)
    decreases |kb|
  {
    if kb == [] then None
    else if Matches(kb[0], q) then Some(0)
    else
      match FirstMatch(kb[1..], q)
      case None => None
      case Some(k) => Some(k + 1)
  }

  /** A clause added at the end answers a query exactly when nothing before it does. */
  lemma {:induction false} FirstMatchAppend(kb: seq<Clause>, c: Clause, q: Query)
    ensures FirstMatch(kb + [c], q)
      == if FirstMatch(kb, q).Some? then FirstMatch(kb, q)
         else if Matches(c, q) then Some(|kb|)
         else None
    decreases |kb|
  {
    if kb != [] {
      assert (kb + [c])[0] == kb[0];
      assert (kb + [c])[1..] == kb[1..] + [c];
      FirstMatchAppend(kb[1..], c, q);
    }
  }

  function DobQuery(person: string): Query {
    Query("dob", [Is(Atom(person)), AnyDate])
  }

  function GenderQuery(gender: string, person: string): Query {
    Query(gender, [Is(Atom(person))])
  }

  /** `rel(Y, x)`. */
  function RelationQuery(x: string, rel: string): Query {
    Query(rel, [Any, Is(Atom(x))])
  }

  // ---------------------------------------------------------------------------
  // Lookups.
  // ---------------------------------------------------------------------------

  /** The person a lookup is about: the argument lower-cased, or for the sentinel
      `USER` the session's username lower-cased; None where the session has no
      username and the lookup raises. */
  function ResolvePerson(arg: string, username: Option<string>): (r: Option<string>)
    ensures r.None? <==> arg == "USER" && username.None?
    ensures arg != "USER" ==> r == Some(Lower(arg))
    ensures arg == "USER" && username.Some? ==> r == Some(Lower(username.value))
  {
    if arg != "USER" then Some(Lower(arg))
    else if username.Some? then Some(Lower(username.value))
    else None
  }

  const MonthNames: seq<string> := ["January", "February", "March", "April", "May", "June", "July",
    "August", "September", "October", "November", "December"]

  /** `calendar.month_name[m]`: the 13-entry list with an empty name at 0, indexed
      the Python way (negative positions count from the end); None where it raises. */
  function MonthName(m: int): (r: Option<string>)
    ensures r.Some? <==> -13 <= m <= 12
    ensures 1 <= m <= 12 ==> r == Some(MonthNames[m - 1])
    ensures m == 0 ==> r == Some("")
  {
    var names := [""] + MonthNames;
    if 0 <= m <= 12 then Some(names[m])
    else if -13 <= m < 0 then Some(names[13 + m])
    else None
  }

  /** How `find_dob` prints a date: `"{day} {month name} {year}"`. */
  function FormatDob(day: int, monthName: string, year: int): string {
    IntToString(day) + " " + monthName + " " + IntToString(year)
  }

  /** `find_dob`. */
  function FindDob(kb: seq<Clause>, arg: string, username: Option<string>): Effect
  {
    match ResolvePerson(arg, username)
    case None => Effect(map[], true)
    case Some(p) =>
      var w := map["person" := Capitalize(p)];
      match FirstMatch(kb, DobQuery(p))
      case None => Effect(w["dob" := "unknown"]["dob_person" := ""], false)
      case Some(i) =>
        match kb[i].args[1]
        case Atom(_) => Effect(w, true)
        case DateTerm(y, m, d) =>
          match MonthName(m)
          case None => Effect(w, true)
          case Some(name) => Effect(w["dob" := FormatDob(d, name, y)]["dob_person" := ""], false)
  }

  /** Lexicographic order on `(month, day)` pairs, as Python compares tuples. */
  predicate MonthDayBefore(m1: int, d1: int, m2: int, d2: int) {
    m1 < m2 || (m1 == m2 && d1 < d2)
  }

  /** The age expression: `today.year - year - ((today.month, today.day) < (month, day))`. */
  function Age(today: Date, birth: Date): int {
    today.year - birth.year - (if MonthDayBefore(today.month, today.day, birth.month, birth.day) then 1 else 0)
  }

  /** Dates compared year first, then month, then day. */
  predicate NotAfter(a: Date, b: Date) {
    a.year < b.year || (a.year == b.year && !MonthDayBefore(b.month, b.day, a.month, a.day))
  }

  /** The age is the number of anniversaries of the birth date that have been
      reached by `today`: the `k`-th one is reached exactly when `k <= age`. */
  lemma AgeCountsAnniversaries(today: Date, birth: Date, k: int)
    ensures NotAfter(Date(birth.year + k, birth.month, birth.day), today) <==> k <= Age(today, birth)
  {
  }

  /** Born 2000-03-15: 24 on 2025-03-10, 25 on 2025-03-20 and on the birthday itself. */
  lemma AgeExamples()
    ensures Age(Date(2025, 3, 10), Date(2000, 3, 15)) == 24
    ensures Age(Date(2025, 3, 20), Date(2000, 3, 15)) == 25
    ensures Age(Date(2025, 3, 15), Date(2000, 3, 15)) == 25
  {
  }

  /** `find_age`, with today's date as a parameter. */
  function FindAge(kb: seq<Clause>, arg: string, username: Option<string>, today: Date): Effect
  {
    match ResolvePerson(arg, username)
    case None => Effect(map[], true)
    case Some(p) =>
      var w := map["person" := Capitalize(p)];
      match FirstMatch(kb, DobQuery(p))
      case None => Effect(w["age" := "unknown"]["age_person" := ""], false)
      case Some(i) =>
        match kb[i].args[1]
        case Atom(_) => Effect(w, true)
        case DateTerm(y, m, d) =>
          Effect(w["age" := IntToString(Age(today, Date(y, m, d)))]["age_person" := ""], false)
  }

  /** `find_gender`: a `male` fact first, then a `female` one, else "unknown". */
  function FindGender(kb: seq<Clause>, arg: string, username: Option<string>): Effect
  {
    match ResolvePerson(arg, username)
    case None => Effect(map[], true)
    case Some(p) =>
      var w := map["person" := Capitalize(p)];
      var g :=
        if FirstMatch(kb, GenderQuery("male", p)).Some? then "male"
        else if FirstMatch(kb, GenderQuery("female", p)).Some? then "female"
        else "unknown";
      Effect(w["gender" := g]["gender_person" := p], false)
  }

  /** The text a variable bound to `t` prints as. */
  function TermText(t: Term): string {
    RenderTerm(t)
  }

  /** `find_person(x, rel)`: the `Y` of the first `rel(Y, x)`, else "unknown". */
  function FindPerson(kb: seq<Clause>, x: string, rel: string): string
  {
    match FirstMatch(kb, RelationQuery(x, rel))
    case None => "unknown"
    case Some(i) => TermText(kb[i].args[0])
  }

  /** `check_relation`: nothing for an empty relation or person; `USER` is the
      session's username; husband and wife are looked up as `married`; the answer
      is capitalised into `person2`. */
  function CheckRelation(kb: seq<Clause>, rel: string, person1: string, username: Option<string>): Effect
  {
    var r := Lower(rel);
    if r == "" || person1 == "" then Effect(map[], false)
    else if person1 == "USER" && username.None? then Effect(map[], true)
    else
      var p := if person1 == "USER" then Lower(username.value) else person1;
      var r' := if r == "husband" || r == "wife" then "married" else r;
      var p2 := Capitalize(FindPerson(kb, p, r'));
      Effect(map["person2" := if p2 == "" then "unknown" else p2], false)
  }

  // ---------------------------------------------------------------------------
  // What the lookups say about what the writers wrote.
  // ---------------------------------------------------------------------------

  /** A relation recorded for a user is what `find_person` answers for that user,
      unless an earlier clause already answers the same query. */
  lemma RelationRoundTrip(kb: seq<Clause>, username: string, person1: string, relation: string)
    requires FirstMatch(kb, RelationQuery(Lower(username), Lower(relation))).None?
    ensures FindPerson(kb + [RelationClause(username, person1, relation)], Lower(username), Lower(relation))
      == Lower(person1)
  {
    var c := RelationClause(username, person1, relation);
    FirstMatchAppend(kb, c, RelationQuery(Lower(username), Lower(relation)));
  }

  /** A spouse recorded under the session's username is what `check_relation`
      reports when asked for the user's wife or husband. */
  lemma SpouseRoundTrip(kb: seq<Clause>, username: string, spouse: string, asked: string)
    requires asked == "wife" || asked == "husband"
    requires FirstMatch(kb, RelationQuery(Lower(username), "married")).None?
    requires Lower(spouse) != []
    ensures CheckRelation(kb + [RelationClause(Lower(username), spouse, "married")], asked, "USER", Some(username))
      == Effect(map["person2" := Capitalize(Lower(spouse))], false)
  {
    LowerIdempotent(username);
    assert Lower("married") == "married";
    assert Lower(asked) == asked;
    RelationRoundTrip(kb, Lower(username), spouse, "married");
  }

  /** With no matching clause, `check_relation` reports "Unknown": `find_person`'s
      "unknown" is capitalised on the way. */
  lemma NoRelationGivesUnknown(kb: seq<Clause>, rel: string, person1: string, username: Option<string>)
    requires Lower(rel) != "" && person1 != "" && person1 != "USER"
    requires Lower(rel) != "husband" && Lower(rel) != "wife"
    requires FirstMatch(kb, RelationQuery(person1, Lower(rel))).None?
    ensures CheckRelation(kb, rel, person1, username) == Effect(map["person2" := "Unknown"], false)
  {
    CapitalizeUnknown();
  }

  lemma CapitalizeUnknown()
    ensures Capitalize("unknown") == "Unknown"
  {
    var l := Lower("nknown");
    assert l[0] == 'n' && l[1] == 'k' && l[2] == 'n' && l[3] == 'o' && l[4] == 'w' && l[5] == 'n';
    assert l == "nknown";
  }

  /** A date of birth appended for a user with none on file is the one the
      lookup finds. */
  lemma DobFound(kb: seq<Clause>, username: string, dob: Date)
    requires FirstMatch(kb, DobQuery(Lower(username))).None?
    ensures var kb2 := kb + [DobClause(Lower(username), dob)];
            FirstMatch(kb2, DobQuery(Lower(username))) == Some(|kb|)
            && kb2[|kb|].args[1] == DateTerm(dob.year, dob.month, dob.day)
  {
    var p := Lower(username);
    LowerIdempotent(username);
    var c := DobClause(p, dob);
    assert c.args[0] == Atom(p);
    assert Matches(c, DobQuery(p));
    FirstMatchAppend(kb, c, DobQuery(p));
  }

  lemma DobRoundTrip(kb: seq<Clause>, username: string, dob: Date)
    requires FirstMatch(kb, DobQuery(Lower(username))).None?
    requires 1 <= dob.month <= 12
    ensures FindDob(kb + [DobClause(Lower(username), dob)], "USER", Some(username))
      == Effect(map["person" := Capitalize(Lower(username)),
                    "dob" := FormatDob(dob.day, MonthNames[dob.month - 1], dob.year),
                    "dob_person" := ""], false)
  {
    DobFound(kb, username, dob);
    assert ResolvePerson("USER", Some(username)) == Some(Lower(username));
    assert MonthName(dob.month) == Some(MonthNames[dob.month - 1]);
  }

  /** ... and `find_age` reports the age at that date. */
  lemma AgeRoundTrip(kb: seq<Clause>, username: string, dob: Date, today: Date)
    requires FirstMatch(kb, DobQuery(Lower(username))).None?
    ensures FindAge(kb + [DobClause(Lower(username), dob)], "USER", Some(username), today)
      == Effect(map["person" := Capitalize(Lower(username)),
                    "age" := IntToString(Age(today, dob)),
                    "age_person" := ""], false)
  {
    DobFound(kb, username, dob);
  }

  /** A recorded `male` fact always makes `find_gender` answer "male". */
  lemma MaleRoundTrip(kb: seq<Clause>, username: string)
    ensures FindGender(kb + [GenderClause(Lower(username), "male")], "USER", Some(username)).writes["gender"]
      == "male"
  {
    LowerIdempotent(username);
    LowerMale();
    FirstMatchAppend(kb, GenderClause(Lower(username), "male"), GenderQuery("male", Lower(username)));
  }

  /** A recorded `female` fact makes `find_gender` answer "female" unless a `male`
      fact for the same person is already there. */
  lemma FemaleRoundTrip(kb: seq<Clause>, username: string)
    requires FirstMatch(kb, GenderQuery("male", Lower(username))).None?
    ensures FindGender(kb + [GenderClause(Lower(username), "female")], "USER", Some(username)).writes["gender"]
      == "female"
  {
    LowerIdempotent(username);
    LowerFemale();
    var c := GenderClause(Lower(username), "female");
    FirstMatchAppend(kb, c, GenderQuery("male", Lower(username)));
    FirstMatchAppend(kb, c, GenderQuery("female", Lower(username)));
  }

  lemma LowerMale()
    ensures Lower("male") == "male"
  {
    var l := Lower("male");
    assert l[0] == 'm' && l[1] == 'a' && l[2] == 'l' && l[3] == 'e';
  }

  lemma LowerFemale()
    ensures Lower("female") == "female"
  {
    var l := Lower("female");
    assert l[0] == 'f' && l[1] == 'e' && l[2] == 'm' && l[3] == 'a' && l[4] == 'l' && l[5] == 'e';
  }
}
