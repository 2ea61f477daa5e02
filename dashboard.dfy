/** One competitor's section of the dashboard, as data: the filtered record set,
    the metrics and the summary that the main loop computes for it. Rendering is
    not modelled. The loop as written calls `calculate_metrics` on any non-empty
    set, which raises when one of the two labels is absent; CompetitorPanel is the
    corrected section, which reports such a platform as missing instead. */
module Dashboard {
  import opened Wrappers
  import opened Mentions
  import opened Metrics
  import opened Summary

  /** The section's metrics, with the top platform of an empty category missing. */
  datatype PanelMetrics = PanelMetrics(
    totalMentions: nat,
    wowCount: nat,
    painCount: nat,
    sentiment: Sentiment,
    wowPlatform: Option<string>,
    painPlatform: Option<string>)

  /** `calculate_metrics` made total: the same counts and verdict, and a platform
      only where its category has records. */
  function PanelMetricsOf(records: seq<Mention>): (r: PanelMetrics)
    ensures r.totalMentions == |records|
    ensures r.wowCount == CountLabel(records, Wow) && r.painCount == CountLabel(records, Pain)
    ensures r.sentiment == Positive <==> r.wowCount > r.painCount
    ensures r.wowPlatform.None? <==> r.wowCount == 0
    ensures r.painPlatform.None? <==> r.painCount == 0
    ensures r.wowPlatform.Some? ==> IsSmallestMode(PlatformsWithLabel(records, Wow), r.wowPlatform.value)
    ensures r.painPlatform.Some? ==> IsSmallestMode(PlatformsWithLabel(records, Pain), r.painPlatform.value)
  {
    TopPlatformOfLabelledRecord(records, Wow);
    TopPlatformOfLabelledRecord(records, Pain);
    var wowCount := CountLabel(records, Wow);
    var painCount := CountLabel(records, Pain);
    PanelMetrics(|records|, wowCount, painCount, SentimentOf(wowCount, painCount),
                 TopPlatform(records, Wow), TopPlatform(records, Pain))
  }

  /** Where `calculate_metrics` succeeds, the total version gives the same values. */
  lemma PanelMetricsAgree(records: seq<Mention>)
    requires CalculateMetrics(records).Success?
    ensures var m, p := CalculateMetrics(records).value, PanelMetricsOf(records);
      && p.totalMentions == m.totalMentions && p.wowCount == m.wowCount
      && p.painCount == m.painCount && p.sentiment == m.sentiment
      && p.wowPlatform == Some(m.wowPlatform) && p.painPlatform == Some(m.painPlatform)
  {
    var m, p := CalculateMetrics(records).value, PanelMetricsOf(records);
    ModeCharacterized(PlatformsWithLabel(records, Wow), m.wowPlatform);
    ModeCharacterized(PlatformsWithLabel(records, Pain), m.painPlatform);
  }

  datatype Panel =
    | NoDataPanel(message: string)
    | MetricsPanel(metrics: PanelMetrics, summary: string)

  /** One competitor's section: the no-data message when the filtered set is empty,
      otherwise its metrics and its summary. Defined for every input. */
  function CompetitorPanel(records: seq<Mention>, competitor: string): (p: Panel)
    ensures p.NoDataPanel? <==> SentimentMentions(records, competitor) == []
    ensures p.NoDataPanel? ==> p.message == NoDataMessage
    ensures p.MetricsPanel? ==>
      && p.metrics.wowCount + p.metrics.painCount == p.metrics.totalMentions
      && p.metrics.totalMentions == |SentimentMentions(records, competitor)| > 0
      && (p.metrics.wowPlatform.Some? || p.metrics.painPlatform.Some?)
    ensures p.MetricsPanel? ==> var f := SentimentMentions(records, competitor);
      && p.metrics.wowCount == CountLabel(f, Wow)
      && p.metrics.painCount == CountLabel(f, Pain)
      && (p.metrics.wowPlatform.None? <==> p.metrics.wowCount == 0)
      && (p.metrics.painPlatform.None? <==> p.metrics.painCount == 0)
      && p.summary == GenerateTldr(f)
    ensures p.MetricsPanel? ==> var f := SentimentMentions(records, competitor);
      && p.metrics == PanelMetricsOf(f)
      && (p.metrics.sentiment == Positive <==> p.metrics.wowCount > p.metrics.painCount)
      && (p.metrics.wowPlatform.Some? ==> IsSmallestMode(PlatformsWithLabel(f, Wow), p.metrics.wowPlatform.value))
      && (p.metrics.painPlatform.Some? ==> IsSmallestMode(PlatformsWithLabel(f, Pain), p.metrics.painPlatform.value))
  {
    var f := SentimentMentions(records, competitor);
    if f == [] then NoDataPanel(NoDataMessage)
    else
      CountsPartition(f);
      MetricsPanel(PanelMetricsOf(f), GenerateTldr(f))
  }

  /** The guard of the loop as written lets an empty category through: a competitor
      with a single `pain` mention has a non-empty record set, on which
      `calculate_metrics` raises at the `wow` mode. */
  lemma GuardLetsEmptyCategoryThrough()
    ensures var records := [Mention(Some(Timestamp(Date(2024, 10, 28), 0)), "codeiumdev",
                                    "reddit", "someone", "it crashed", "https://example.org/1", "pain")];
      && SentimentMentions(records, "codeiumdev") == records
      && CalculateMetrics(SentimentMentions(records, "codeiumdev")) == Failure(EmptyCategory("wow"))
      && CompetitorPanel(records, "codeiumdev").MetricsPanel?
      && CompetitorPanel(records, "codeiumdev").metrics.wowPlatform == None
      && CompetitorPanel(records, "codeiumdev").metrics.painPlatform == Some("reddit")
  {
    var records := [Mention(Some(Timestamp(Date(2024, 10, 28), 0)), "codeiumdev",
                            "reddit", "someone", "it crashed", "https://example.org/1", "pain")];
    KeepAll(records, OfCompetitor("codeiumdev"));
    KeepAll(records, LabelIn(SentimentLabels));
    var f := SentimentMentions(records, "codeiumdev");
    assert f == records;
    assert WithLabel(f, Wow) == [];
    assert WithLabel(f, Pain) == f;
    assert PlatformsWithLabel(f, Pain) == ["reddit"];
  }
}
