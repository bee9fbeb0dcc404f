/**
 * What the dashboard shows: the length of a finished episode, the chat
 * history grouped into episodes, and the graph statistics.
 */
module Presentation {
  import opened Wrappers
  import opened PyStr

  // ---------------------------------------------------------------------------
  // Episode duration
  // ---------------------------------------------------------------------------

  /** `duration_seconds // 3600`, `(duration_seconds % 3600) // 60` and
      `duration_seconds % 60`, for a whole number of seconds `d`: Python's `//`
      and `%` floor, as Dafny's do for a positive divisor. */
  function DurationParts(d: int): (r: (int, int, int))
    ensures r.0 * 3600 + r.1 * 60 + r.2 == d
    ensures 0 <= r.1 < 60 && 0 <= r.2 < 60
    ensures d >= 0 ==> r.0 >= 0
  {
    var h, rest := d / 3600, d % 3600;
    var m, s := rest / 60, rest % 60;
    assert d % 60 == s by {
      assert d == h * 3600 + m * 60 + s == (h * 60 + m) * 60 + s;
    }
    (h, m, d % 60)
  }

  /** The episode's `session_duration`: hours, minutes and seconds when there
      is a whole hour, minutes and seconds when there is a whole minute, else
      seconds. */
  function FormatDuration(d: int): string {
    var (h, m, s) := DurationParts(d);
    if h > 0 then IntToString(h) + "h " + IntToString(m) + "m " + IntToString(s) + "s"
    else if m > 0 then IntToString(m) + "m " + IntToString(s) + "s"
    else IntToString(s) + "s"
  }

  /** The value of a digit character. */
  function DigitValue(c: char): nat
    requires IsDigit(c)
  {
    c as int - '0' as int
  }

  /** Reading the digits of `s` left to right onto `cur`. */
  function Horner(cur: nat, s: string): nat
    requires AllDigits(s)
    decreases |s|
  {
    if s == [] then cur else Horner(cur * 10 + DigitValue(s[0]), s[1..])
  }

  /** Reads a duration text back: digits build a number, `h`, `m` and `s`
      add it in hours, minutes or seconds, spaces separate. */
  function ReadDuration(t: string, acc: int, cur: nat): Option<int>
    decreases |t|
  {
    if t == [] then (if cur == 0 then Some(acc) else None)
    else if IsDigit(t[0]) then ReadDuration(t[1..], acc, cur * 10 + DigitValue(t[0]))
    else if t[0] == 'h' then ReadDuration(t[1..], acc + cur * 3600, 0)
    else if t[0] == 'm' then ReadDuration(t[1..], acc + cur * 60, 0)
    else if t[0] == 's' then ReadDuration(t[1..], acc + cur, 0)
    else if t[0] == ' ' then ReadDuration(t[1..], acc, cur)
    else None
  }

  lemma {:induction false} HornerSnoc(cur: nat, s: string, c: char)
    requires AllDigits(s) && IsDigit(c)
    ensures AllDigits(s + [c]) && Horner(cur, s + [c]) == Horner(cur, s) * 10 + DigitValue(c)
    decreases |s|
  {
    assert AllDigits(s + [c]);
    if s != [] {
      assert (s + [c])[1..] == s[1..] + [c];
      HornerSnoc(cur * 10 + DigitValue(s[0]), s[1..], c);
    }
  }

  /** Left-to-right reading gives the value the digits denote. */
  lemma {:induction false} HornerValue(s: string)
    requires AllDigits(s)
    ensures Horner(0, s) == DigitsValue(s)
    decreases |s|
  {
    if s != [] {
      var init := s[..|s| - 1];
      assert s == init + [s[|s| - 1]];
      HornerValue(init);
      HornerSnoc(0, init, s[|s| - 1]);
    }
  }

  lemma {:induction false} ReadDigits(s: string, rest: string, acc: int, cur: nat)
    requires AllDigits(s)
    ensures ReadDuration(s + rest, acc, cur) == ReadDuration(rest, acc, Horner(cur, s))
    decreases |s|
  {
    if s != [] {
      assert IsDigit(s[0]) && AllDigits(s[1..]);
      assert (s + rest)[0] == s[0] && (s + rest)[1..] == s[1..] + rest;
      ReadDigits(s[1..], rest, acc, cur * 10 + DigitValue(s[0]));
    } else {
      assert s + rest == rest;
    }
  }

  /** Reading one `<n><unit>` group. */
  lemma ReadGroup(n: nat, u: char, rest: string, acc: int)
    requires u == 'h' || u == 'm' || u == 's'
    ensures ReadDuration(NatToString(n) + [u] + rest, acc, 0)
         == ReadDuration(rest, acc + n * (if u == 'h' then 3600 else if u == 'm' then 60 else 1), 0)
  {
    var t := NatToString(n);
    assert t + [u] + rest == t + ([u] + rest);
    ReadDigits(t, [u] + rest, acc, 0);
    HornerValue(t);
    NatToStringValue(n);
    assert ([u] + rest)[0] == u && ([u] + rest)[1..] == rest;
  }

  lemma ReadSpace(rest: string, acc: int)
    ensures ReadDuration(" " + rest, acc, 0) == ReadDuration(rest, acc, 0)
  {
    assert (" " + rest)[0] == ' ' && (" " + rest)[1..] == rest;
  }

  /** Reading `<s>s` onto `acc`. */
  lemma ReadSeconds(s: nat, acc: int)
    ensures ReadDuration(NatToString(s) + "s", acc, 0) == Some(acc + s)
  {
    ReadGroup(s, 's', [], acc);
    assert NatToString(s) + "s" == NatToString(s) + ['s'] + [];
  }

  /** Reading `<m>m <s>s` onto `acc`. */
  lemma ReadMinutes(m: nat, s: nat, acc: int)
    ensures ReadDuration(NatToString(m) + "m " + NatToString(s) + "s", acc, 0) == Some(acc + m * 60 + s)
  {
    var tail := NatToString(s) + "s";
    assert NatToString(m) + "m " + NatToString(s) + "s" == NatToString(m) + ['m'] + (" " + tail);
    ReadGroup(m, 'm', " " + tail, acc);
    ReadSpace(tail, acc + m * 60);
    ReadSeconds(s, acc + m * 60);
  }

  /** A duration of `d >= 0` seconds is shown so that it reads back as `d`. */
  lemma FormatDurationRoundTrip(d: nat)
    ensures ReadDuration(FormatDuration(d), 0, 0) == Some(d)
  {
    var (h, m, s) := DurationParts(d);
    if h > 0 {
      var rest := NatToString(m) + "m " + NatToString(s) + "s";
      assert FormatDuration(d) == NatToString(h) + ['h'] + (" " + rest);
      ReadGroup(h, 'h', " " + rest, 0);
      ReadSpace(rest, h * 3600);
      ReadMinutes(m, s, h * 3600);
    } else if m > 0 {
      ReadMinutes(m, s, 0);
    } else {
      ReadSeconds(s, 0);
    }
  }

  /** The largest unit shown is the largest that fits: hours from an hour
      up, minutes from a minute up, else bare seconds. */
  lemma FormatDurationUnits(d: nat)
    ensures d >= 3600 ==>
      FormatDuration(d) == NatToString(d / 3600) + "h " + NatToString((d % 3600) / 60) + "m " + NatToString(d % 60) + "s"
    ensures 60 <= d < 3600 ==> FormatDuration(d) == NatToString(d / 60) + "m " + NatToString(d % 60) + "s"
    ensures d < 60 ==> FormatDuration(d) == NatToString(d) + "s"
  {
  }

  /** An end before the start is not shown as negative: the hours are
      dropped and the minutes and seconds wrap, so one second early reads
      as 59 minutes 59 seconds. */
  lemma NegativeDurationWraps()
    ensures FormatDuration(-1) == "59m 59s"
  {
    assert DurationParts(-1) == (-1, 59, 59);
    assert NatToString(59) == "59";
  }

  // ---------------------------------------------------------------------------
  // Chat history grouped into episodes
  // ---------------------------------------------------------------------------

  /** What `datetime.fromisoformat` yields for a timestamp: its
      `strftime('%Y-%m-%d')` and `strftime('%H:%M:%S')` texts and the instant
      in microseconds. */
  datatype Instant = Instant(date: string, time: string, micros: int)

  /** A stored timestamp text, with its parse (None where `fromisoformat`
      raises). */
  datatype Stamp = Stamp(text: string, parsed: Option<Instant>)

  /** One row of the history query, in the query's order. */
  datatype Row = Row(start: Stamp, end: Option<Stamp>, userMessage: Option<string>,
                     botResponse: Option<string>, username: Option<string>)

  /** One conversation pair as shown. */
  datatype Exchange = Exchange(userMessage: string, botResponse: string)

  /** The heading fields of an episode: date, time, status, duration, title. */
  datatype Header = Header(date: string, time: string, status: string, duration: string, title: string)

  /** One episode of the history. */
  datatype EpisodeView = EpisodeView(start: string, end: Option<string>, header: Header,
                                     conversations: seq<Exchange>)

  /** Python's truth value of an optional string. */
  predicate Filled(s: Option<string>) {
    s.Some? && s.value != ""
  }

  /** The `except` branch: the raw start text as date, a title of its first
      ten characters, an unknown duration and status. */
  function FallbackHeader(start: string): (r: Header)
    ensures r.status == "unknown" && r.duration == "Unknown"
    ensures r.title == "Session " + start[..if |start| < 10 then |start| else 10]
  {
    Header(start, "", "unknown", "Unknown", "Session " + start[..if |start| < 10 then |start| else 10])
  }

  /** The heading of an episode from its start and end timestamps. */
  function EpisodeHeader(start: Stamp, end: Option<Stamp>): (r: Header)
    ensures start.parsed.None? ==> r == FallbackHeader(start.text)
    ensures start.parsed.Some? && !(end.Some? && end.value.text != "") ==>
      r == Header(start.parsed.value.date, start.parsed.value.time, "active", "Ongoing",
                  start.parsed.value.date + " at " + start.parsed.value.time)
    ensures r.status == "completed" <==> start.parsed.Some? && end.Some? && end.value.text != "" && end.value.parsed.Some?
    ensures r.status == "completed" ==>
      r.date == start.parsed.value.date && r.time == start.parsed.value.time
      && r.title == start.parsed.value.date + " at " + start.parsed.value.time
      && r.duration == FormatDuration((end.value.parsed.value.micros - start.parsed.value.micros) / 1000000)
    ensures end.Some? && end.value.text != "" && end.value.parsed.None? ==> r == FallbackHeader(start.text)
  {
    match start.parsed
    case None => FallbackHeader(start.text)
    case Some(s) =>
      if end.Some? && end.value.text != "" then
        match end.value.parsed
        case None => FallbackHeader(start.text)
        case Some(e) =>
          Header(s.date, s.time, "completed", FormatDuration((e.micros - s.micros) / 1000000), s.date + " at " + s.time)
      else Header(s.date, s.time, "active", "Ongoing", s.date + " at " + s.time)
  }

  /** The pair a row adds, if both of its messages are there. */
  function RowExchange(row: Row): seq<Exchange> {
    if Filled(row.userMessage) && Filled(row.botResponse) then
      var name := if Filled(row.username) then row.username.value else "User";
      [Exchange(name + ": " + row.userMessage.value, "Freak: " + row.botResponse.value)]
    else []
  }

  /** A new episode opened by `row`. */
  function OpenEpisode(row: Row): EpisodeView {
    EpisodeView(row.start.text, if row.end.Some? then Some(row.end.value.text) else None,
                EpisodeHeader(row.start, row.end), [])
  }

  /** One step of the loop: a row whose start differs from the current
      episode's opens a new episode; its pair goes to the current episode. */
  function GroupStep(history: seq<EpisodeView>, row: Row): (r: seq<EpisodeView>)
    ensures |r| == if history == [] || history[|history| - 1].start != row.start.text then |history| + 1 else |history|
    ensures r != [] && r[|r| - 1].start == row.start.text
    ensures r[..|r| - 1] == history[..|r| - 1]
  {
    if history == [] || history[|history| - 1].start != row.start.text then
      var e := OpenEpisode(row);
      history + [e.(conversations := RowExchange(row))]
    else
      var cur := history[|history| - 1];
      history[..|history| - 1] + [cur.(conversations := cur.conversations + RowExchange(row))]
  }

  /** The history the rows give: the loop of `get_user_chat_history`. */
  function Group(rows: seq<Row>): seq<EpisodeView>
    decreases |rows|
  {
    if rows == [] then [] else GroupStep(Group(rows[..|rows| - 1]), rows[|rows| - 1])
  }

  /** Opening an episode and adding the row's pair to it is one `GroupStep`. */
  lemma StepOpens(history: seq<EpisodeView>, row: Row)
    requires history == [] || history[|history| - 1].start != row.start.text
    ensures var h := history + [OpenEpisode(row)];
            GroupStep(history, row) == h[|history| := h[|history|].(conversations := h[|history|].conversations + RowExchange(row))]
  {
    var e := OpenEpisode(row);
    assert e.conversations + RowExchange(row) == RowExchange(row);
    assert (history + [e])[|history| := e.(conversations := RowExchange(row))]
        == history + [e.(conversations := RowExchange(row))];
  }

  /** Adding the row's pair to the current episode is one `GroupStep`. */
  lemma StepExtends(history: seq<EpisodeView>, row: Row)
    requires history != [] && history[|history| - 1].start == row.start.text
    ensures var n := |history| - 1;
            GroupStep(history, row) == history[n := history[n].(conversations := history[n].conversations + RowExchange(row))]
  {
    var n := |history| - 1;
    var cur := history[n];
    assert history[n := cur.(conversations := cur.conversations + RowExchange(row))]
        == history[..n] + [cur.(conversations := cur.conversations + RowExchange(row))];
  }

  lemma GroupSnoc(rows: seq<Row>, i: nat)
    requires i < |rows|
    ensures Group(rows[..i + 1]) == GroupStep(Group(rows[..i]), rows[i])
  {
    assert rows[..i + 1][..i] == rows[..i];
  }

  /** One pass of the loop body: open an episode when the row's start
      differs from the current one's, then add the row's pair to the current
      episode. */
  method AddRow(history: seq<EpisodeView>, row: Row) returns (updated: seq<EpisodeView>)
    ensures updated == GroupStep(history, row)
  {
    updated := history;
    if updated == [] || updated[|updated| - 1].start != row.start.text {
      StepOpens(history, row);
      var episode := OpenEpisode(row);
      updated := updated + [episode];
    } else {
      StepExtends(history, row);
    }
    var last := |updated| - 1;
    updated := updated[last := updated[last].(conversations := updated[last].conversations + RowExchange(row))];
  }

  /** `get_user_chat_history`'s loop over the query's rows. */
  method GroupChatHistory(rows: seq<Row>) returns (history: seq<EpisodeView>)
    ensures history == Group(rows)
  {
    history := [];
    for i := 0 to |rows|
      invariant history == Group(rows[..i])
    {
      GroupSnoc(rows, i);
      history := AddRow(history, rows[i]);
    }
    assert rows[..|rows|] == rows;
  }

  /** All the pairs of a history, episode after episode. */
  function Conversations(history: seq<EpisodeView>): seq<Exchange>
    decreases |history|
  {
    if history == [] then []
    else Conversations(history[..|history| - 1]) + history[|history| - 1].conversations
  }

  /** The pairs of the rows that carry both messages, in row order. */
  function Exchanges(rows: seq<Row>): seq<Exchange>
    decreases |rows|
  {
    if rows == [] then [] else Exchanges(rows[..|rows| - 1]) + RowExchange(rows[|rows| - 1])
  }

  lemma ConversationsStep(history: seq<EpisodeView>, row: Row)
    ensures Conversations(GroupStep(history, row)) == Conversations(history) + RowExchange(row)
  {
    var r := GroupStep(history, row);
    if history == [] || history[|history| - 1].start != row.start.text {
      assert r[..|r| - 1] == history;
    } else {
      var n := |history| - 1;
      assert r[..n] == history[..n];
      assert history[..|history| - 1] == history[..n];
    }
  }

  /** Grouping loses no pair, adds none and keeps their order: reading the
      episodes one after the other gives the pairs of the rows. */
  lemma {:induction false} GroupKeepsEveryPair(rows: seq<Row>)
    ensures Conversations(Group(rows)) == Exchanges(rows)
    decreases |rows|
  {
    if rows != [] {
      GroupKeepsEveryPair(rows[..|rows| - 1]);
      ConversationsStep(Group(rows[..|rows| - 1]), rows[|rows| - 1]);
    }
  }

  /** Row `i` starts a run: the first row, or one whose start differs from
      the row before it. */
  predicate StartsRun(rows: seq<Row>, i: nat)
    requires i < |rows|
  {
    i == 0 || rows[i - 1].start.text != rows[i].start.text
  }

  /** The number of runs of rows with the same start. */
  function Runs(rows: seq<Row>): nat
    decreases |rows|
  {
    if rows == [] then 0
    else Runs(rows[..|rows| - 1]) + (if StartsRun(rows, |rows| - 1) then 1 else 0)
  }

  /** Consecutive episodes have different starts. */
  predicate AdjacentDistinct(history: seq<EpisodeView>) {
    forall i :: 0 < i < |history| ==> history[i - 1].start != history[i].start
  }

  lemma StepKeepsDistinct(history: seq<EpisodeView>, row: Row)
    requires AdjacentDistinct(history)
    ensures AdjacentDistinct(GroupStep(history, row))
  {
    var r := GroupStep(history, row);
    forall i | 0 < i < |r| ensures r[i - 1].start != r[i].start {
      if i < |r| - 1 {
        assert r[i - 1] == history[i - 1] && r[i] == history[i];
      } else if |r| == |history| {
        assert r[i - 1] == history[i - 1];
        assert r[i].start == history[i].start;
      } else {
        assert r[i - 1] == history[i - 1];
      }
    }
  }

  /** One episode per run of rows with the same start, the last one holding
      the last row's start, and no two consecutive episodes with the same
      start; rows of one episode that are not consecutive in the query make
      two episodes. */
  lemma {:induction false} GroupOneEpisodePerRun(rows: seq<Row>)
    ensures |Group(rows)| == Runs(rows)
    ensures rows != [] ==> Group(rows)[|Group(rows)| - 1].start == rows[|rows| - 1].start.text
    ensures AdjacentDistinct(Group(rows))
    decreases |rows|
  {
    if rows != [] {
      var init := rows[..|rows| - 1];
      GroupOneEpisodePerRun(init);
      StepKeepsDistinct(Group(init), rows[|rows| - 1]);
      if init != [] {
        assert init[|init| - 1] == rows[|rows| - 2];
      }
    }
  }

  // ---------------------------------------------------------------------------
  // Graph statistics
  // ---------------------------------------------------------------------------

  /** One row of a count query: the group's key and its count. */
  datatype CountRow = CountRow(key: string, count: nat)

  /** The key a node count is filed under: its first label, or `Unknown`. */
  function NodeKey(labels: seq<string>): (k: string)
    ensures labels != [] ==> k == labels[0]
    ensures labels == [] ==> k == "Unknown"
  {
    if labels == [] then "Unknown" else labels[0]
  }

  /** The sum of all counts. */
  function Total(rows: seq<CountRow>): nat
    decreases |rows|
  {
    if rows == [] then 0 else Total(rows[..|rows| - 1]) + rows[|rows| - 1].count
  }

  /** The distribution table: each row sets its key's entry. */
  function Distribution(rows: seq<CountRow>): map<string, nat>
    decreases |rows|
  {
    if rows == [] then map[]
    else Distribution(rows[..|rows| - 1])[rows[|rows| - 1].key := rows[|rows| - 1].count]
  }

  /** The loop of `get_complete_graph_statistics`, for nodes and for
      relationships alike: the total adds every count, the table entry of a
      key is assigned. */
  method Tally(rows: seq<CountRow>) returns (stats: map<string, nat>, total: nat)
    ensures stats == Distribution(rows) && total == Total(rows)
  {
    stats, total := map[], 0;
    for i := 0 to |rows|
      invariant stats == Distribution(rows[..i]) && total == Total(rows[..i])
    {
      assert rows[..i + 1][..i] == rows[..i];
      stats := stats[rows[i].key := rows[i].count];
      total := total + rows[i].count;
    }
    assert rows[..|rows|] == rows;
  }

  /** A key is in the table exactly when some row has it, and its entry is
      the count of the last such row: a later row of the same key replaces
      the earlier count instead of adding to it. */
  lemma {:induction false} LastCountWins(rows: seq<CountRow>, k: string)
    ensures k in Distribution(rows) <==> exists i :: 0 <= i < |rows| && rows[i].key == k
    ensures forall i :: 0 <= i < |rows| && rows[i].key == k && (forall j :: i < j < |rows| ==> rows[j].key != k) ==>
      k in Distribution(rows) && Distribution(rows)[k] == rows[i].count
    decreases |rows|
  {
    if rows != [] {
      var n := |rows| - 1;
      var init := rows[..n];
      LastCountWins(init, k);
      if rows[n].key != k {
        assert forall i :: 0 <= i < n ==> rows[i] == init[i];
      } else {
        assert rows[n].key == k;
      }
    }
  }

  /** Two node groups filed under the same label: the total counts both, the
      table keeps only the later one. */
  lemma SameLabelOverwrites()
    ensures var rows := [CountRow(NodeKey(["User"]), 2), CountRow(NodeKey(["User", "Person"]), 3)];
            Total(rows) == 5 && Distribution(rows) == map["User" := 3]
  {
    var rows := [CountRow(NodeKey(["User"]), 2), CountRow(NodeKey(["User", "Person"]), 3)];
    assert rows[..1] == [rows[0]];
    assert rows[..1][..0] == [];
  }
}
