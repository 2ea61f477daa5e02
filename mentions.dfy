/** The mention records of the dashboard and the record filter that the
    dashboard's main loop applies before computing metrics: keep one
    competitor's rows, then keep the rows labelled `wow` or `pain`. */
module Mentions {
  import opened Wrappers
  import opened Text

  /** A calendar date as pandas stores it; no calendar validity is modelled. */
  datatype Date = Date(year: nat, month: nat, day: nat)

  /** A parsed pandas Timestamp: its date and the nanosecond within the day. */
  datatype Timestamp = Timestamp(date: Date, nanosecond: nat)

  /** One row of the dataset. A missing timestamp (pandas NaT) is None. */
  datatype Mention = Mention(
    timestamp: Option<Timestamp>,
    competitor: string,
    platform: string,
    user: string,
    content: string,
    link: string,
    tag: string)  // the `label` column

  predicate DateLe(a: Date, b: Date) {
    a.year < b.year
    || (a.year == b.year && (a.month < b.month || (a.month == b.month && a.day <= b.day)))
  }

  /** Chronological order of timestamps. */
  predicate TimestampLe(a: Timestamp, b: Timestamp) {
    (DateLe(a.date, b.date) && a.date != b.date)
    || (a.date == b.date && a.nanosecond <= b.nanosecond)
  }

  lemma TimestampLeTotalOrder()
    ensures forall a :: TimestampLe(a, a)
    ensures forall a, b :: TimestampLe(a, b) || TimestampLe(b, a)
    ensures forall a, b :: TimestampLe(a, b) && TimestampLe(b, a) ==> a == b
    ensures forall a, b, c :: TimestampLe(a, b) && TimestampLe(b, c) ==> TimestampLe(a, c)
  {
  }

  /** `strftime('%Y-%m-%d')`: each field in decimal, zero-padded to 4, 2 and 2 characters. */
  function FormatDate(t: Timestamp): (s: string)
    ensures forall i :: 0 <= i < |s| ==> IsDigit(s[i]) || s[i] == '-'
    ensures '\n' !in s
  {
    assert AllDigits(ZeroPad(NatToString(t.date.year), 4));
    assert AllDigits(ZeroPad(NatToString(t.date.month), 2));
    assert AllDigits(ZeroPad(NatToString(t.date.day), 2));
    ZeroPad(NatToString(t.date.year), 4) + "-"
    + ZeroPad(NatToString(t.date.month), 2) + "-"
    + ZeroPad(NatToString(t.date.day), 2)
  }

  /** Reads a `YYYY-MM-DD` string back into a date. */
  function ParseDate(s: string): (d: Option<Date>)
  {
    if |s| == 10 && s[4] == '-' && s[7] == '-'
       && AllDigits(s[..4]) && AllDigits(s[5..7]) && AllDigits(s[8..])
    then Some(Date(ParseNat(s[..4]), ParseNat(s[5..7]), ParseNat(s[8..])))
    else None
  }

  lemma PaddedField(n: nat, width: nat)
    requires 1 <= width && n < Pow10(width)
    ensures var f := ZeroPad(NatToString(n), width);
      |f| == width && AllDigits(f) && ParseNat(f) == n && '\n' !in f && '-' !in f
  {
    NatToStringLength(n, width);
    var s := NatToString(n);
    ParseNatZeros(width - |s|, s);
    ParseNatToString(n);
    var f := ZeroPad(s, width);
    assert forall i :: 0 <= i < |f| ==> IsDigit(f[i]);
  }

  /** A date with a year below 10000 (pandas allows 1677 to 2262) reads back from its rendering. */
  lemma {:induction false} ParseFormatDate(t: Timestamp)
    requires t.date.year < 10000 && t.date.month < 100 && t.date.day < 100
    ensures |FormatDate(t)| == 10 && '\n' !in FormatDate(t)
    ensures ParseDate(FormatDate(t)) == Some(t.date)
  {
    var y := ZeroPad(NatToString(t.date.year), 4);
    var m := ZeroPad(NatToString(t.date.month), 2);
    var d := ZeroPad(NatToString(t.date.day), 2);
    assert Pow10(4) == 10000 && Pow10(2) == 100;
    PaddedField(t.date.year, 4);
    PaddedField(t.date.month, 2);
    PaddedField(t.date.day, 2);
    var s := FormatDate(t);
    assert s == y + "-" + m + "-" + d;
    assert s[..4] == y && s[5..7] == m && s[8..] == d;
  }

  /** The generic row filter `df[cond]`: keeps the rows satisfying p, in order. */
  function Keep(s: seq<Mention>, p: Mention -> bool): (r: seq<Mention>)
    ensures IsSubsequence(r, s) && |r| <= |s|
    ensures forall i :: 0 <= i < |r| ==> p(r[i])
    ensures forall m :: p(m) ==> multiset(r)[m] == multiset(s)[m]
  {
    if s == [] then []
    else
      assert s == [s[0]] + s[1..];
      if p(s[0]) then [s[0]] + Keep(s[1..], p) else Keep(s[1..], p)
  }

  /** a is obtained from b by deleting elements, keeping the order of the rest. */
  predicate IsSubsequence<T(==)>(a: seq<T>, b: seq<T>)
    decreases |b|
  {
    a == []
    || (b != [] && ((a[0] == b[0] && IsSubsequence(a[1..], b[1..])) || IsSubsequence(a, b[1..])))
  }

  lemma {:induction false} SubsequenceTransitive<T>(a: seq<T>, b: seq<T>, c: seq<T>)
    requires IsSubsequence(a, b) && IsSubsequence(b, c)
    ensures IsSubsequence(a, c)
    decreases |c|
  {
    if a != [] {
      if b != [] && c != [] && b[0] == c[0] && IsSubsequence(b[1..], c[1..]) {
        if a[0] == b[0] && IsSubsequence(a[1..], b[1..]) {
          SubsequenceTransitive(a[1..], b[1..], c[1..]);
        } else {
          SubsequenceTransitive(a, b[1..], c[1..]);
        }
      } else {
        SubsequenceTransitive(a, b, c[1..]);
      }
    }
  }

  lemma {:induction false} SubsequenceMembers<T>(a: seq<T>, b: seq<T>)
    requires IsSubsequence(a, b)
    ensures forall x :: x in a ==> x in b
    decreases |b|
  {
    if a != [] {
      if a[0] == b[0] && IsSubsequence(a[1..], b[1..]) {
        SubsequenceMembers(a[1..], b[1..]);
        assert a == [a[0]] + a[1..] && b == [b[0]] + b[1..];
      } else {
        SubsequenceMembers(a, b[1..]);
        assert b == [b[0]] + b[1..];
      }
    }
  }

  function OfCompetitor(competitor: string): Mention -> bool {
    (m: Mention) => m.competitor == competitor
  }

  function LabelIn(labels: set<string>): Mention -> bool {
    (m: Mention) => m.tag in labels
  }

  const SentimentLabels: set<string> := {"wow", "pain"}

  /** `df[df['competitor'] == competitor]`. */
  function ForCompetitor(records: seq<Mention>, competitor: string): (r: seq<Mention>)
    ensures IsSubsequence(r, records)
    ensures forall i :: 0 <= i < |r| ==> r[i].competitor == competitor
    ensures forall m: Mention :: m.competitor == competitor ==> multiset(r)[m] == multiset(records)[m]
  {
    Keep(records, OfCompetitor(competitor))
  }

  /** `df[df['label'].isin(labels)]`. */
  function WithLabels(records: seq<Mention>, labels: set<string>): (r: seq<Mention>)
    ensures IsSubsequence(r, records)
    ensures forall i :: 0 <= i < |r| ==> r[i].tag in labels
    ensures forall m: Mention :: m.tag in labels ==> multiset(r)[m] == multiset(records)[m]
  {
    Keep(records, LabelIn(labels))
  }

  predicate IsSentimentRecordOf(m: Mention, competitor: string) {
    m.competitor == competitor && m.tag in SentimentLabels
  }

  /** The record set the dashboard hands to the metrics layer for one competitor:
      an order-preserving subsequence of the input holding exactly the rows of that
      competitor labelled `wow` or `pain`, each as often as in the input. */
  function SentimentMentions(records: seq<Mention>, competitor: string): (r: seq<Mention>)
    ensures IsSubsequence(r, records)
    ensures forall i :: 0 <= i < |r| ==> IsSentimentRecordOf(r[i], competitor)
    ensures forall m :: IsSentimentRecordOf(m, competitor) ==> multiset(r)[m] == multiset(records)[m]
  {
    var byCompetitor := ForCompetitor(records, competitor);
    var r := WithLabels(byCompetitor, SentimentLabels);
    SubsequenceTransitive(r, byCompetitor, records);
    r
  }

  /** `df['competitor'].unique()`, as a set. */
  function Competitors(records: seq<Mention>): (cs: set<string>)
    ensures forall i :: 0 <= i < |records| ==> records[i].competitor in cs
    ensures forall c :: c in cs ==> exists i :: 0 <= i < |records| && records[i].competitor == c
  {
    set m | m in records :: m.competitor
  }

  /** Exactly the listed competitors have rows. */
  lemma CompetitorsHaveRows(records: seq<Mention>, competitor: string)
    ensures competitor in Competitors(records) <==> ForCompetitor(records, competitor) != []
  {
    var r := ForCompetitor(records, competitor);
    if competitor in Competitors(records) {
      var m :| m in records && m.competitor == competitor;
      assert multiset(r)[m] == multiset(records)[m] > 0;
    }
    if r != [] {
      SubsequenceMembers(r, records);
      assert r[0] in records && r[0].competitor == competitor;
    }
  }

  /** Filtering a second time changes nothing. */
  lemma {:induction false} SentimentMentionsIdempotent(records: seq<Mention>, competitor: string)
    ensures SentimentMentions(SentimentMentions(records, competitor), competitor)
            == SentimentMentions(records, competitor)
  {
    KeepAll(SentimentMentions(records, competitor), OfCompetitor(competitor));
    KeepAll(SentimentMentions(records, competitor), LabelIn(SentimentLabels));
  }

  lemma {:induction false} KeepAll(s: seq<Mention>, p: Mention -> bool)
    requires forall i :: 0 <= i < |s| ==> p(s[i])
    ensures Keep(s, p) == s
    decreases |s|
  {
    if s != [] {
      KeepAll(s[1..], p);
      assert s == [s[0]] + s[1..];
    }
  }
}
