/** `generate_tldr`: the per-competitor summary text. */
module Summary {
  import opened Wrappers
  import opened Text
  import opened Mentions
  import opened Metrics

  const NoDataMessage: string := "No data available for this competitor."
  const InsufficientDataMessage: string := "Insufficient data to generate summary."

  /** The competitors with a hand-written summary. */
  datatype KnownCompetitor = Cursor | Codeium

  /** The static table of hand-written summaries, looked up by exact key. */
  function KnownCompetitorOf(key: string): (k: Option<KnownCompetitor>)
    ensures k == Some(Cursor) <==> key == "cursor_ai"
    ensures k == Some(Codeium) <==> key == "codeiumdev"
  {
    if key == "cursor_ai" then Some(Cursor)
    else if key == "codeiumdev" then Some(Codeium)
    else None
  }

  /** The hand-written summary of each known competitor; no data is substituted. It
      opens with a line naming the competitor, followed by bulleted likes and dislikes. */
  function NarrativeText(k: KnownCompetitor): (r: string)
    ensures |Lines(r)| >= 2 && Lines(r)[0] == CompetitorName(k) + ":"
  {
    assert '\n' !in CompetitorName(k) + ":";
    LinesJoin(CompetitorName(k) + ":", NarrativeBody(k));
    CompetitorName(k) + ":" + "\n" + NarrativeBody(k)
  }

  /** The name each hand-written summary opens with. */
  function CompetitorName(k: KnownCompetitor): string {
    match k
    case Cursor => "Cursor"
    case Codeium => "Codeium"
  }

  /** The bulleted likes and dislikes of a hand-written summary. */
  function NarrativeBody(k: KnownCompetitor): string {
    match k
    case Cursor =>
      "    \U{2022}    Likes: While specific positive comments weren't prominent in the "
      + "dataset, users likely appreciate features related to streamlined workflows "
      + "and the tool's user interface, as these are common praise points for "
      + "similar platforms.\n"
      + "    \U{2022}    Dislikes: User frustrations generally revolve around potential "
      + "compatibility issues, performance speed, or limitations in integration "
      + "with other tools, as these are typical challenges faced by emerging tools "
      + "in this category."
    case Codeium =>
      "    \U{2022}    Likes: Users frequently highlight Codeium's accessibility and "
      + "ease of use, with particular praise for features that enhance "
      + "productivity. \"Wow\" mentions suggest users are positively surprised by "
      + "Codeium's functionality and intuitiveness.\n"
      + "    \U{2022}    Dislikes: Some users report issues related to occasional "
      + "performance lags, bugs, or challenges in specific use cases, which may "
      + "affect their experience. Negative \"pain\" tags indicate these issues can "
      + "hinder the tool's efficiency."
  }

  predicate HasTimestamp(records: seq<Mention>) {
    exists i :: 0 <= i < |records| && records[i].timestamp.Some?
  }

  /** The earlier of two optional timestamps, skipping a missing one (as pandas skips NaT). */
  function Earlier(a: Option<Timestamp>, b: Option<Timestamp>): Option<Timestamp> {
    if a.None? then b
    else if b.None? then a
    else if TimestampLe(a.value, b.value) then a else b
  }

  function Later(a: Option<Timestamp>, b: Option<Timestamp>): Option<Timestamp> {
    if a.None? then b
    else if b.None? then a
    else if TimestampLe(a.value, b.value) then b else a
  }

  /** `df['timestamp'].min()`: missing only when every timestamp is missing, otherwise
      the timestamp of some record and no later than any record's timestamp. */
  function MinTimestamp(records: seq<Mention>): (r: Option<Timestamp>)
    ensures r.None? <==> !HasTimestamp(records)
    ensures r.Some? ==> exists m :: m in records && m.timestamp == r
    ensures r.Some? ==> forall i :: 0 <= i < |records| && records[i].timestamp.Some? ==>
      TimestampLe(r.value, records[i].timestamp.value)
  {
    if records == [] then None
    else
      var rest := MinTimestamp(records[1..]);
      TimestampLeTotalOrder();
      assert forall i :: 1 <= i < |records| ==> records[i] == records[1..][i - 1];
      assert rest.Some? ==> exists m :: m in records && m.timestamp == rest;
      Earlier(records[0].timestamp, rest)
  }

  /** `df['timestamp'].max()`, symmetric to MinTimestamp. */
  function MaxTimestamp(records: seq<Mention>): (r: Option<Timestamp>)
    ensures r.None? <==> !HasTimestamp(records)
    ensures r.Some? ==> exists m :: m in records && m.timestamp == r
    ensures r.Some? ==> forall i :: 0 <= i < |records| && records[i].timestamp.Some? ==>
      TimestampLe(records[i].timestamp.value, r.value)
  {
    if records == [] then None
    else
      var rest := MaxTimestamp(records[1..]);
      TimestampLeTotalOrder();
      assert forall i :: 1 <= i < |records| ==> records[i] == records[1..][i - 1];
      assert rest.Some? ==> exists m :: m in records && m.timestamp == rest;
      Later(records[0].timestamp, rest)
  }

  function Header(startDate: string, endDate: string): string {
    "TLDR for week " + startDate + " to " + endDate + ":"
  }

  function TotalLine(n: nat): string { "Total mentions: " + NatToString(n) }
  function PositiveLine(n: nat): string { "Positive mentions: " + NatToString(n) }
  function NegativeLine(n: nat): string { "Negative mentions: " + NatToString(n) }

  /** start and end bound every present timestamp of the records, start not after end. */
  ghost predicate IsDateRangeOf(records: seq<Mention>, start: Timestamp, end: Timestamp) {
    && TimestampLe(start, end)
    && (forall i :: 0 <= i < |records| && records[i].timestamp.Some? ==>
          TimestampLe(start, records[i].timestamp.value)
          && TimestampLe(records[i].timestamp.value, end))
  }

  /** Which of the four outcomes of `generate_tldr` applies, with the data the
      fallback template shows. */
  datatype Tldr =
    | NoData
    | InsufficientData
    | Narrative(competitor: KnownCompetitor)
    | Weekly(start: Timestamp, end: Timestamp, total: nat, wow: nat, pain: nat)

  /** The case analysis of `generate_tldr`. A date range is shown only when some
      timestamp is present, and then runs from the earliest to the latest one. */
  function Classify(records: seq<Mention>): (t: Tldr)
    ensures t == NoData <==> records == []
    ensures t == InsufficientData <==> records != [] && !HasTimestamp(records)
    ensures t.Narrative? <==>
      records != [] && HasTimestamp(records) && KnownCompetitorOf(records[0].competitor).Some?
    ensures t.Narrative? ==> Some(t.competitor) == KnownCompetitorOf(records[0].competitor)
    ensures t.Weekly? ==>
      && IsDateRangeOf(records, t.start, t.end)
      && Some(t.start) == MinTimestamp(records) && Some(t.end) == MaxTimestamp(records)
      && (exists m :: m in records && m.timestamp == Some(t.start))
      && (exists m :: m in records && m.timestamp == Some(t.end))
      && t.total == |records|
      && t.wow == CountLabel(records, Wow)
      && t.pain == CountLabel(records, Pain)
  {
    if records == [] then NoData
    else
      var start := MinTimestamp(records);
      var end := MaxTimestamp(records);
      if start.None? || end.None? then InsufficientData
      else
        match KnownCompetitorOf(records[0].competitor)
        case Some(k) => Narrative(k)
        case None =>
          TimestampLeTotalOrder();
          var i :| 0 <= i < |records| && records[i].timestamp.Some?;
          assert TimestampLe(start.value, records[i].timestamp.value);
          Weekly(start.value, end.value, |records|,
                 CountLabel(records, Wow), CountLabel(records, Pain))
  }

  /** The text shown for each outcome; the template puts each item on its own line,
      so that it splits back into exactly those four lines. */
  function Render(t: Tldr): (r: string)
    ensures t.Weekly? ==> Lines(r) == [
      Header(FormatDate(t.start), FormatDate(t.end)),
      TotalLine(t.total), PositiveLine(t.wow), NegativeLine(t.pain)]
  {
    match t
    case NoData => NoDataMessage
    case InsufficientData => InsufficientDataMessage
    case Narrative(k) => NarrativeText(k)
    case Weekly(start, end, total, wow, pain) =>
      TemplateLines(FormatDate(start), FormatDate(end), total, wow, pain);
      JoinLines([Header(FormatDate(start), FormatDate(end)), TotalLine(total), PositiveLine(wow), NegativeLine(pain)])
  }

  /** `generate_tldr`: the no-data message for an empty set, the insufficient-data
      message when no timestamp is present, the hand-written text when the first
      record's competitor is in the table, and otherwise the template over the
      earliest and latest timestamps and the three counts. */
  function GenerateTldr(records: seq<Mention>): (r: string)
    ensures records == [] ==> r == NoDataMessage
    ensures records != [] && !HasTimestamp(records) ==> r == InsufficientDataMessage
    ensures records != [] && HasTimestamp(records) && KnownCompetitorOf(records[0].competitor).Some? ==>
      r == NarrativeText(KnownCompetitorOf(records[0].competitor).value)
    ensures records != [] && HasTimestamp(records) && KnownCompetitorOf(records[0].competitor).None? ==>
      r == Render(Weekly(MinTimestamp(records).value, MaxTimestamp(records).value, |records|,
                         CountLabel(records, Wow), CountLabel(records, Pain)))
  {
    Render(Classify(records))
  }

  /** An empty record set gives the fixed no-data message. */
  lemma TldrNoData()
    ensures GenerateTldr([]) == "No data available for this competitor."
  {
  }

  /** A non-empty record set whose timestamps are all missing gives the fixed
      insufficient-data message, whoever the competitor is. */
  lemma TldrInsufficientData(records: seq<Mention>)
    requires records != []
    requires forall i :: 0 <= i < |records| ==> records[i].timestamp.None?
    ensures GenerateTldr(records) == "Insufficient data to generate summary."
  {
  }

  /** A competitor of the table (`cursor_ai`, `codeiumdev`) gets its hand-written text
      once some timestamp is present. */
  lemma TldrKnownCompetitor(records: seq<Mention>, k: KnownCompetitor)
    requires records != [] && HasTimestamp(records)
    requires KnownCompetitorOf(records[0].competitor) == Some(k)
    ensures GenerateTldr(records) == NarrativeText(k)
  {
    assert Classify(records) == Narrative(k);
  }

  /** The hand-written texts do not depend on the data: two record sets with a
      timestamp whose first records name the same known competitor get the same text. */
  lemma TldrKnownIgnoresData(records1: seq<Mention>, records2: seq<Mention>)
    requires records1 != [] && records2 != [] && HasTimestamp(records1) && HasTimestamp(records2)
    requires records1[0].competitor == records2[0].competitor
    requires KnownCompetitorOf(records1[0].competitor).Some?
    ensures GenerateTldr(records1) == GenerateTldr(records2)
  {
  }

  /** The fallback summary: exactly four lines, a header naming the range from the
      earliest to the latest timestamp (start not after end), then the total, the
      `wow` count and the `pain` count. */
  lemma TldrTemplate(records: seq<Mention>)
    requires records != [] && HasTimestamp(records)
    requires KnownCompetitorOf(records[0].competitor).None?
    ensures exists start: Timestamp, end: Timestamp ::
      && IsDateRangeOf(records, start, end)
      && Some(start) == MinTimestamp(records) && Some(end) == MaxTimestamp(records)
      && Lines(GenerateTldr(records)) == [
           Header(FormatDate(start), FormatDate(end)),
           TotalLine(|records|),
           PositiveLine(CountLabel(records, Wow)),
           NegativeLine(CountLabel(records, Pain))]
  {
    var t := Classify(records);
    assert t.Weekly?;
    var text := GenerateTldr(records);
    assert text == Render(t);
    var ls := Lines(text);
    assert ls == [Header(FormatDate(t.start), FormatDate(t.end)), TotalLine(t.total), PositiveLine(t.wow), NegativeLine(t.pain)];
    assert IsDateRangeOf(records, t.start, t.end);
  }

  /** The template's four items each hold no line break, so they come back as its lines. */
  lemma TemplateLines(startDate: string, endDate: string, total: nat, wow: nat, pain: nat)
    requires '\n' !in startDate && '\n' !in endDate
    ensures var ls := [Header(startDate, endDate), TotalLine(total), PositiveLine(wow), NegativeLine(pain)];
      Lines(JoinLines(ls)) == ls
  {
    var ls := [Header(startDate, endDate), TotalLine(total), PositiveLine(wow), NegativeLine(pain)];
    assert '\n' !in NatToString(total) && '\n' !in NatToString(wow) && '\n' !in NatToString(pain);
    LinesOfJoin(ls);
  }

  /** The header ends with the two dates, each reading back to its calendar date. */
  lemma HeaderReadsBack(start: Timestamp, end: Timestamp)
    requires start.date.year < 10000 && start.date.month < 100 && start.date.day < 100
    requires end.date.year < 10000 && end.date.month < 100 && end.date.day < 100
    ensures var h := Header(FormatDate(start), FormatDate(end));
      && |h| == 39
      && ParseDate(h[14..24]) == Some(start.date)
      && ParseDate(h[28..38]) == Some(end.date)
  {
    ParseFormatDate(start);
    ParseFormatDate(end);
    FivePieces("TLDR for week ", FormatDate(start), " to ", FormatDate(end), ":");
  }

  lemma FivePieces(a: string, b: string, c: string, d: string, e: string)
    ensures var h := a + b + c + d + e;
      && |h| == |a| + |b| + |c| + |d| + |e|
      && h[|a|..|a| + |b|] == b
      && h[|a| + |b| + |c|..|a| + |b| + |c| + |d|] == d
  {
    var h := a + b + c + d + e;
    assert h == a + (b + (c + (d + e)));
  }

  /** Each count line reads back to its count. */
  lemma CountLinesReadBack(total: nat, wow: nat, pain: nat)
    ensures var t, p, n := TotalLine(total), PositiveLine(wow), NegativeLine(pain);
      && AllDigits(t[16..]) && ParseNat(t[16..]) == total
      && AllDigits(p[19..]) && ParseNat(p[19..]) == wow
      && AllDigits(n[19..]) && ParseNat(n[19..]) == pain
  {
    ParseNatToString(total);
    ParseNatToString(wow);
    ParseNatToString(pain);
    assert TotalLine(total)[16..] == NatToString(total);
    assert PositiveLine(wow)[19..] == NatToString(wow);
    assert NegativeLine(pain)[19..] == NatToString(pain);
  }

  function ScenarioRecords(): seq<Mention> {
    [ Mention(Some(Timestamp(Date(2024, 1, 1), 0)), "unknown_co", "platformX", "", "", "", "wow"),
      Mention(Some(Timestamp(Date(2024, 1, 8), 0)), "unknown_co", "platformY", "", "", "", "pain") ]
  }

  /** A `wow` mention on 2024-01-01 and a `pain` mention on 2024-01-08 of a competitor
      outside the table give the week from 2024-01-01 to 2024-01-08 and counts 2, 1, 1. */
  lemma ScenarioWeekly()
    ensures GenerateTldr(ScenarioRecords()) == JoinLines([
        "TLDR for week 2024-01-01 to 2024-01-08:",
        "Total mentions: 2",
        "Positive mentions: 1",
        "Negative mentions: 1"])
  {
    ScenarioJoined();
    ScenarioLines();
  }

  lemma ScenarioJoined()
    ensures GenerateTldr(ScenarioRecords())
            == JoinLines([Header("2024-01-01", "2024-01-08"), TotalLine(2), PositiveLine(1), NegativeLine(1)])
  {
    ScenarioClassified();
    ScenarioDates();
  }

  lemma ScenarioLines()
    ensures Header("2024-01-01", "2024-01-08") == "TLDR for week 2024-01-01 to 2024-01-08:"
    ensures TotalLine(2) == "Total mentions: 2"
    ensures PositiveLine(1) == "Positive mentions: 1"
    ensures NegativeLine(1) == "Negative mentions: 1"
  {
    assert NatToString(2) == "2" && NatToString(1) == "1";
  }

  lemma ScenarioClassified()
    ensures Classify(ScenarioRecords())
            == Weekly(Timestamp(Date(2024, 1, 1), 0), Timestamp(Date(2024, 1, 8), 0), 2, 1, 1)
  {
    ScenarioBounds();
    ScenarioCounts();
  }

  lemma ScenarioBounds()
    ensures MinTimestamp(ScenarioRecords()) == Some(Timestamp(Date(2024, 1, 1), 0))
    ensures MaxTimestamp(ScenarioRecords()) == Some(Timestamp(Date(2024, 1, 8), 0))
  {
    var records := ScenarioRecords();
    assert records[1..] == [records[1]];
  }

  lemma ScenarioCounts()
    ensures CountLabel(ScenarioRecords(), Wow) == 1 && CountLabel(ScenarioRecords(), Pain) == 1
  {
    var records := ScenarioRecords();
    var w, p := records[0], records[1];
    assert records[1..] == [p];
    assert WithLabel([p], Wow) == [] && WithLabel(records, Wow) == [w];
    assert WithLabel([p], Pain) == [p] && WithLabel(records, Pain) == [p];
  }

  lemma ScenarioDates()
    ensures FormatDate(Timestamp(Date(2024, 1, 1), 0)) == "2024-01-01"
    ensures FormatDate(Timestamp(Date(2024, 1, 8), 0)) == "2024-01-08"
  {
    assert NatToString(2024) == "2024" by {
      assert NatToString(2) == "2" && NatToString(20) == "20" && NatToString(202) == "202";
    }
    assert NatToString(1) == "1" && NatToString(8) == "8";
    assert ZeroPad("1", 2) == "01" && ZeroPad("8", 2) == "08";
  }
}
