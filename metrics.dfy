/** `calculate_metrics`: counts by label, the overall sentiment verdict and the
    most frequent platform among the `wow` and among the `pain` records. */
module Metrics {
  import opened Wrappers
  import opened Text
  import opened Mentions

  const Wow: string := "wow"
  const Pain: string := "pain"

  function LabelIs(tag: string): Mention -> bool {
    (m: Mention) => m.tag == tag
  }

  /** `df[df['label'] == tag]`. */
  function WithLabel(records: seq<Mention>, tag: string): (r: seq<Mention>)
    ensures IsSubsequence(r, records)
    ensures forall i :: 0 <= i < |r| ==> r[i].tag == tag
    ensures forall m: Mention :: m.tag == tag ==> multiset(r)[m] == multiset(records)[m]
  {
    Keep(records, LabelIs(tag))
  }

  /** `len(df[df['label'] == tag])`. */
  function CountLabel(records: seq<Mention>, tag: string): (n: nat)
    ensures n <= |records|
    ensures n == 0 <==> forall i :: 0 <= i < |records| ==> records[i].tag != tag
  {
    LabelledRecords(records, tag);
    |WithLabel(records, tag)|
  }

  /** Some record keeps the label exactly when the label's filter keeps something. */
  lemma LabelledRecords(records: seq<Mention>, tag: string)
    ensures WithLabel(records, tag) == [] <==> forall i :: 0 <= i < |records| ==> records[i].tag != tag
  {
    var w := WithLabel(records, tag);
    if w != [] {
      SubsequenceMembers(w, records);
      assert w[0] in records;
    } else {
      forall i | 0 <= i < |records|
        ensures records[i].tag != tag
      {
        assert multiset(records)[records[i]] > 0;
      }
    }
  }

  /** The `platform` column of a record set, in order. */
  function Platforms(records: seq<Mention>): (ps: seq<string>)
    ensures |ps| == |records|
    ensures forall i :: 0 <= i < |records| ==> ps[i] == records[i].platform
  {
    if records == [] then [] else [records[0].platform] + Platforms(records[1..])
  }

  /** `df[df['label'] == tag]['platform']`. */
  function PlatformsWithLabel(records: seq<Mention>, tag: string): (ps: seq<string>)
    ensures |ps| == CountLabel(records, tag)
    ensures forall k :: 0 <= k < |ps| ==>
      exists i :: 0 <= i < |records| && records[i].tag == tag && records[i].platform == ps[k]
  {
    var w := WithLabel(records, tag);
    SubsequenceMembers(w, records);
    assert forall k :: 0 <= k < |w| ==> w[k] in records;
    Platforms(w)
  }

  /** m is what pandas' `s.mode().iloc[0]` gives: a value of s that no other value
      of s outnumbers, and the smallest such value in Python's string order
      (pandas returns the modes sorted). */
  ghost predicate IsSmallestMode(s: seq<string>, m: string) {
    && m in s
    && (forall x :: x in s ==> multiset(s)[x] <= multiset(s)[m])
    && (forall x :: x in s && multiset(s)[x] == multiset(s)[m] ==> StrLe(m, x))
  }

  /** The candidate of `cands` that occurs most often in s, the smallest one among ties. */
  function Best(s: seq<string>, cands: seq<string>): (b: string)
    requires cands != []
    ensures b in cands
    ensures forall c :: c in cands ==> multiset(s)[c] <= multiset(s)[b]
    ensures forall c :: c in cands && multiset(s)[c] == multiset(s)[b] ==> StrLe(b, c)
  {
    if |cands| == 1 then
      StrLeReflexive(cands[0]);
      cands[0]
    else
      assert cands == [cands[0]] + cands[1..];
      var c := cands[0];
      var rest := Best(s, cands[1..]);
      StrLeReflexive(c);
      StrLeTotal(c, rest);
      if multiset(s)[c] > multiset(s)[rest]
         || (multiset(s)[c] == multiset(s)[rest] && StrLe(c, rest))
      then
        assert forall x :: x in cands[1..] && multiset(s)[x] == multiset(s)[c] ==> StrLe(c, x) by {
          forall x | x in cands[1..] && multiset(s)[x] == multiset(s)[c] {
            StrLeTransitive(c, rest, x);
          }
        }
        c
      else
        rest
  }

  /** `s.mode().iloc[0]`; None where pandas raises (empty s). */
  function Mode(s: seq<string>): (r: Option<string>)
    ensures r.None? <==> s == []
    ensures r.Some? ==> IsSmallestMode(s, r.value)
  {
    if s == [] then None else Some(Best(s, s))
  }

  /** At most one value satisfies the mode specification. */
  lemma SmallestModeUnique(s: seq<string>, m1: string, m2: string)
    requires IsSmallestMode(s, m1) && IsSmallestMode(s, m2)
    ensures m1 == m2
  {
    StrLeAntisymmetric(m1, m2);
  }

  /** Mode returns exactly the value the mode specification describes. */
  lemma ModeCharacterized(s: seq<string>, m: string)
    ensures Mode(s) == Some(m) <==> IsSmallestMode(s, m)
  {
    if IsSmallestMode(s, m) {
      SmallestModeUnique(s, Mode(s).value, m);
    }
  }

  /** The most frequent platform among the records labelled tag. */
  function TopPlatform(records: seq<Mention>, tag: string): (r: Option<string>)
    ensures r.None? <==> CountLabel(records, tag) == 0
    ensures r.Some? ==> IsSmallestMode(PlatformsWithLabel(records, tag), r.value)
  {
    Mode(PlatformsWithLabel(records, tag))
  }

  /** TopPlatform is missing exactly when no record carries the label, and otherwise is
      the platform of some record with that label. */
  lemma {:induction false} TopPlatformOfLabelledRecord(records: seq<Mention>, tag: string)
    ensures TopPlatform(records, tag).None? <==> CountLabel(records, tag) == 0
    ensures TopPlatform(records, tag).None? <==> forall i :: 0 <= i < |records| ==> records[i].tag != tag
    ensures TopPlatform(records, tag).Some? ==>
      exists i :: 0 <= i < |records| && records[i].tag == tag
                && records[i].platform == TopPlatform(records, tag).value
  {
    var w := WithLabel(records, tag);
    SubsequenceMembers(w, records);
    if w != [] {
      var p := TopPlatform(records, tag).value;
      var ps := PlatformsWithLabel(records, tag);
      var j :| 0 <= j < |ps| && ps[j] == p;
      assert w[j] in records;
      var i :| 0 <= i < |records| && records[i] == w[j];
      assert records[i].tag == tag && records[i].platform == p;
    }
  }

  datatype Sentiment = Positive | Negative

  /** The verdict: Positive exactly when wowCount > painCount. */
  function SentimentOf(wowCount: nat, painCount: nat): (v: Sentiment)
    ensures v == Positive <==> wowCount > painCount
  {
    if wowCount > painCount then Positive else Negative
  }

  /** The tuple `calculate_metrics` returns. */
  datatype CompetitorMetrics = CompetitorMetrics(
    totalMentions: nat,
    wowCount: nat,
    painCount: nat,
    sentiment: Sentiment,
    wowPlatform: string,
    painPlatform: string)

  /** The exception `.mode().iloc[0]` raises on an empty category. */
  datatype MetricsError = EmptyCategory(tag: string)

  /** `calculate_metrics`. It fails on the first empty category it meets: the `wow`
      mode is taken before the `pain` mode. */
  function CalculateMetrics(records: seq<Mention>): (r: Result<CompetitorMetrics, MetricsError>)
    ensures CountLabel(records, Wow) == 0 ==> r == Failure(EmptyCategory(Wow))
    ensures CountLabel(records, Wow) > 0 && CountLabel(records, Pain) == 0 ==>
      r == Failure(EmptyCategory(Pain))
    ensures r.Success? <==> CountLabel(records, Wow) > 0 && CountLabel(records, Pain) > 0
    ensures r.Success? ==>
      && r.value.totalMentions == |records|
      && r.value.wowCount == CountLabel(records, Wow)
      && r.value.painCount == CountLabel(records, Pain)
      && (r.value.sentiment == Positive <==> r.value.wowCount > r.value.painCount)
      && IsSmallestMode(PlatformsWithLabel(records, Wow), r.value.wowPlatform)
      && IsSmallestMode(PlatformsWithLabel(records, Pain), r.value.painPlatform)
  {
    TopPlatformOfLabelledRecord(records, Wow);
    TopPlatformOfLabelledRecord(records, Pain);
    var wowCount := CountLabel(records, Wow);
    var painCount := CountLabel(records, Pain);
    match TopPlatform(records, Wow)
    case None => Failure(EmptyCategory(Wow))
    case Some(wowPlatform) =>
      match TopPlatform(records, Pain)
      case None => Failure(EmptyCategory(Pain))
      case Some(painPlatform) =>
        Success(CompetitorMetrics(|records|, wowCount, painCount,
                                  SentimentOf(wowCount, painCount), wowPlatform, painPlatform))
  }

  /** Equal counts, 0/0 included, give Negative; for unequal counts, swapping the
      two counts flips the verdict. */
  lemma SentimentTieIsNegative(wowCount: nat, painCount: nat)
    ensures wowCount == painCount ==> SentimentOf(wowCount, painCount) == Negative
    ensures wowCount != painCount ==> SentimentOf(wowCount, painCount) != SentimentOf(painCount, wowCount)
  {
  }

  predicate AllSentimentLabelled(records: seq<Mention>) {
    forall i :: 0 <= i < |records| ==> records[i].tag in SentimentLabels
  }

  /** On records labelled only `wow` or `pain`, the two counts add up to the total. */
  lemma {:induction false} CountsPartition(records: seq<Mention>)
    requires AllSentimentLabelled(records)
    ensures CountLabel(records, Wow) + CountLabel(records, Pain) == |records|
    decreases |records|
  {
    if records != [] {
      CountsPartition(records[1..]);
    }
  }

  /** On the dashboard's filtered set for a competitor, every successful metrics
      tuple has `wow_count + pain_count == total_mentions == len(competitor_df)`. */
  lemma FilteredMetricsAddUp(records: seq<Mention>, competitor: string)
    ensures var f := SentimentMentions(records, competitor);
      && CountLabel(f, Wow) + CountLabel(f, Pain) == |f|
      && (CalculateMetrics(f).Success? ==>
            CalculateMetrics(f).value.wowCount + CalculateMetrics(f).value.painCount
            == CalculateMetrics(f).value.totalMentions == |f|)
  {
    CountsPartition(SentimentMentions(records, competitor));
  }

  function Row(platform: string, tag: string): Mention {
    Mention(None, "acme", platform, "someone", "", "", tag)
  }

  /** Two `wow` mentions on platformA and one `pain` mention on platformB: three in
      total, a Positive verdict, platformA and platformB on top. */
  lemma ScenarioTwoWowOnePain()
    ensures var records := [Row("platformA", Wow), Row("platformA", Wow), Row("platformB", Pain)];
      CalculateMetrics(records)
      == Success(CompetitorMetrics(3, 2, 1, Positive, "platformA", "platformB"))
  {
    ScenarioPlatforms();
    ModeOfOne("platformB");
    ModeOfOne("platformA");
  }

  lemma ScenarioPlatforms()
    ensures var records := [Row("platformA", Wow), Row("platformA", Wow), Row("platformB", Pain)];
      && CountLabel(records, Wow) == 2 && CountLabel(records, Pain) == 1
      && PlatformsWithLabel(records, Wow) == ["platformA", "platformA"]
      && PlatformsWithLabel(records, Pain) == ["platformB"]
  {
    var a, b := Row("platformA", Wow), Row("platformB", Pain);
    ScenarioWithLabel(a, b);
    assert Platforms([a, a]) == ["platformA", "platformA"] by {
      assert [a, a][1..] == [a];
    }
  }

  lemma ScenarioWithLabel(a: Mention, b: Mention)
    requires a.tag == Wow && b.tag == Pain
    ensures WithLabel([a, a, b], Wow) == [a, a] && WithLabel([a, a, b], Pain) == [b]
  {
    assert [a, a, b][1..] == [a, b] && [a, b][1..] == [b] && [b][1..] == [];
    assert WithLabel([b], Wow) == [] && WithLabel([b], Pain) == [b];
    assert WithLabel([a, b], Wow) == [a] && WithLabel([a, b], Pain) == [b];
  }

  lemma ModeOfOne(x: string)
    ensures Mode([x]) == Some(x) && Mode([x, x]) == Some(x)
  {
  }

  /** Of two platforms seen once each, the smaller one is the mode, whichever came first. */
  lemma ModeOfTwo(first: string, second: string)
    requires first != second && StrLe(second, first)
    ensures Mode([first, second]) == Some(second)
  {
    var ps := [first, second];
    assert multiset(ps)[first] == 1 && multiset(ps)[second] == 1;
    ModeCharacterized(ps, second);
  }

  /** A tie between platforms goes to the smaller name, not to the one seen first. */
  lemma ScenarioTieGoesToSmallest()
    ensures TopPlatform([Row("twitter", Wow), Row("reddit", Wow)], Wow) == Some("reddit")
  {
    var t, r := Row("twitter", Wow), Row("reddit", Wow);
    assert [t, r][1..] == [r];
    assert WithLabel([r], Wow) == [r];
    assert WithLabel([t, r], Wow) == [t, r];
    assert PlatformsWithLabel([t, r], Wow) == ["twitter", "reddit"];
    assert "twitter"[0] == 't' && "reddit"[0] == 'r';
    ModeOfTwo("twitter", "reddit");
  }
}
