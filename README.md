# Competitor dashboard: metrics and summary

A Dafny model of the computation layer of a Streamlit dashboard that shows, per
competitor, sentiment metrics over social-media mentions. The dashboard's main loop
filters the mention table to one competitor's rows labelled `wow` (positive) or
`pain` (negative). If the result is non-empty it calls `calculate_metrics` and
`generate_tldr` on it:

- `calculate_metrics` gives the total and per-label counts, a Positive/Negative
  verdict where a tie goes to Negative, and the most frequent platform among the
  `wow` rows and among the `pain` rows (pandas `Series.mode().iloc[0]`).
- `generate_tldr` returns one of four things: a fixed message for an empty set, a
  fixed message when every timestamp is missing, a hand-written text for the two
  competitors `cursor_ai` and `codeiumdev`, or otherwise a four-line template with
  the date range and the three counts.

Modules, one per concern:

- `Wrappers` (wrappers.dfy): `Option` and `Result`.
- `Text` (text.dfy): decimal rendering of naturals (`str(int)`, the digits of
  `strftime`) with its inverse, zero padding, splitting and joining lines, and
  Python's string order, which pandas uses to sort the modes.
- `Mentions` (mentions.dfy): the `Mention` record, timestamps and their order,
  `strftime('%Y-%m-%d')`, and the row filter of the main loop.
- `Metrics` (metrics.dfy): `calculate_metrics` and the mode.
- `Summary` (summary.dfy): `generate_tldr`.
- `Dashboard` (dashboard.py lines 68-114, as data): one competitor's section, with
  the empty-category crash corrected (see Findings).

Modelling decisions:

- A missing timestamp (`NaT`) is `None`. `min`/`max` skip missing
  timestamps, so a bound is missing only when every timestamp is.
- The `label` column is the field `tag`, because `label` is a Dafny keyword.
- `.mode().iloc[0]` on an empty series raises. `CalculateMetrics` returns
  `Failure(EmptyCategory(tag))` for it. The `wow` mode is taken first, so an input
  lacking both labels reports `wow`.
- Ties between platforms go to the smallest name in Python's code-point order,
  because pandas returns the modes sorted. This differs from a stable
  "first-seen" mode: `ScenarioTieGoesToSmallest` shows `reddit` beating an
  earlier `twitter`.
- `generate_tldr` is split in two. `Classify` chooses which of the four outcomes
  applies. `Render` produces its text. The template lines are joined with
  `JoinLines`, which gives the same string as the source's `"\n"` concatenation.
- The hand-written texts are picked by the competitor of the FIRST record, as in
  the source. They are looked up by exact key in `KnownCompetitorOf`.
- The functions are pure, so calling `generate_tldr` twice on the same input
  gives the same text by construction.

## Model

| member | source | states |
|---|---|---|
| Mentions.Keep | dashboard.py:69-70 | the boolean-mask filter `df[cond]` keeps an order-preserving subsequence. Every kept row satisfies the condition, and every row that satisfies it is kept as often as it occurs |
| Mentions.SentimentMentions | dashboard.py:69-70 | the record set for one competitor is an order-preserving subsequence of the table. Every element has that competitor and label `wow` or `pain`, and no such row is dropped |
| Mentions.SentimentMentionsIdempotent | dashboard.py:69-70 | filtering an already filtered set changes nothing |
| Mentions.Competitors | dashboard.py:15 | `unique()`, as a set, holds every row's competitor and nothing else |
| Mentions.ForCompetitor | dashboard.py:69 | `df[df['competitor'] == c]` keeps an order-preserving subsequence. Every kept row has competitor c, and every row of c is kept as often as it occurs |
| Mentions.WithLabels | dashboard.py:70 | `isin(labels)` keeps an order-preserving subsequence. Every kept row has a label in the set, and every such row is kept as often as it occurs |
| Mentions.CompetitorsHaveRows | dashboard.py:15 | a competitor is among the unique `competitor` values exactly when filtering by it keeps some row |
| Mentions.TimestampLeTotalOrder | dashboard.py:34-35 | timestamps are totally ordered (reflexive, total, antisymmetric, transitive), so min and max are well defined |
| Mentions.FormatDate | dashboard.py:59-60 | `strftime('%Y-%m-%d')` produces only digits and `-`, so no line break |
| Mentions.ParseFormatDate | dashboard.py:59-60 | `strftime('%Y-%m-%d')` is ten characters, has no line break, and reads back to the same calendar date |
| Text.ParseNatToString | dashboard.py:61-63 | the decimal rendering of a count reads back to that count |
| Text.NatToString | dashboard.py:61-63 | a count is rendered as at least one digit, with no leading zero unless it is 0 |
| Text.StrLeTotal | dashboard.py:25-26 | Python's string order, used to sort modes, relates every two strings |
| Text.StrLeAntisymmetric | dashboard.py:25-26 | two strings each no greater than the other are equal |
| Text.StrLeTransitive | dashboard.py:25-26 | Python's string order is transitive |
| Text.LinesOfJoin | dashboard.py:59-63 | joining lines that hold no line break with `\n` and splitting the result gives the same lines |
| Metrics.WithLabel | dashboard.py:20-21 | `df[df['label'] == tag]` keeps an order-preserving subsequence. Every kept row has that label, and every row with it is kept as often as it occurs |
| Metrics.CountLabel | dashboard.py:20-21 | a label count is at most the number of rows, and is 0 exactly when no row carries that label |
| Metrics.Platforms | dashboard.py:25-26 | the `platform` column has one entry per row, in row order, each that row's platform |
| Metrics.PlatformsWithLabel | dashboard.py:25-26 | the platforms of a label's rows: as many as the label's count, each the platform of some row with that label |
| Metrics.Best | dashboard.py:25-26 | the chosen candidate occurs at least as often as every other, and is the smallest among those that occur equally often |
| Metrics.Mode | dashboard.py:25-26 | `mode().iloc[0]` is missing exactly for an empty series. Otherwise it is a value of the series that no value outnumbers, and the smallest such value |
| Metrics.SmallestModeUnique | dashboard.py:25-26 | at most one value is the smallest most-frequent value |
| Metrics.ModeCharacterized | dashboard.py:25-26 | Mode returns a value exactly when that value is the smallest most-frequent value (both directions) |
| Metrics.TopPlatform | dashboard.py:25-26 | the top platform of a label is missing exactly when the label's count is 0. Otherwise it is the smallest most-frequent platform among that label's rows |
| Metrics.TopPlatformOfLabelledRecord | dashboard.py:25-26 | the top platform of a label is missing exactly when no row carries that label. Otherwise it is the platform of some row with that label |
| Metrics.CalculateMetrics | dashboard.py:18-28 | with no `wow` row it fails on `wow`. With `wow` rows but no `pain` row it fails on `pain`. Otherwise it succeeds with total = length, the two label counts, Positive exactly when wow > pain, and both top platforms satisfying the mode property |
| Metrics.SentimentOf | dashboard.py:22 | the verdict is Positive exactly when wow > pain |
| Metrics.SentimentTieIsNegative | dashboard.py:22 | equal counts, including 0/0, give Negative. For unequal counts, swapping the two counts flips the verdict |
| Metrics.CountsPartition | dashboard.py:19-21 | on rows labelled only `wow` or `pain`, the two counts add up to the number of rows |
| Metrics.FilteredMetricsAddUp | dashboard.py:19-21 | on the main loop's filtered set, wow + pain equals the total, and the total equals the set's length |
| Metrics.ScenarioTwoWowOnePain | dashboard.py:18-28 | two `wow` rows on platformA and one `pain` row on platformB give (3, 2, 1, Positive, platformA, platformB) |
| Metrics.ModeOfTwo | dashboard.py:25-26 | of two platforms seen once each, the smaller is the mode whatever their order |
| Metrics.ScenarioTieGoesToSmallest | dashboard.py:25-26 | a `twitter` row and then a `reddit` row give `reddit` as the top `wow` platform |
| Summary.MinTimestamp | dashboard.py:34 | the minimum is missing exactly when every timestamp is missing. Otherwise it is some row's timestamp and no later than any present timestamp |
| Summary.MaxTimestamp | dashboard.py:35 | the maximum is missing exactly when every timestamp is missing. Otherwise it is some row's timestamp and no earlier than any present timestamp |
| Summary.NarrativeText | dashboard.py:38-57 | each hand-written text has at least two lines, and its first line is the competitor's name followed by `:` (`Cursor:`, `Codeium:`) |
| Summary.KnownCompetitorOf | dashboard.py:38-48 | the table of hand-written texts matches exactly the keys `cursor_ai` and `codeiumdev` |
| Summary.Classify | dashboard.py:31-63 | the outcome is no-data exactly for an empty set, and insufficient-data exactly for a non-empty set with no timestamp. It is a hand-written text exactly when some timestamp exists and the first row's competitor is a table key. Otherwise it is the template, whose range runs from the earliest to the latest present timestamp (start not after end) and whose counts are the length and the two label counts |
| Summary.Render | dashboard.py:58-63 | the template text splits back into exactly its four lines: header, total, positive and negative |
| Summary.GenerateTldr | dashboard.py:31-63 | the four cases in source order. An empty set gives the no-data message. A set with no timestamp gives the insufficient-data message. A set whose first row names a known competitor gives that competitor's text. Any other set gives the template over the earliest and latest timestamps, the length and the two label counts |
| Summary.TldrNoData | dashboard.py:32-33 | an empty set gives exactly "No data available for this competitor." |
| Summary.TldrInsufficientData | dashboard.py:34-37 | a non-empty set whose timestamps are all missing gives exactly "Insufficient data to generate summary.", whatever the competitor |
| Summary.TldrKnownCompetitor | dashboard.py:38-57 | if some timestamp exists and the first row's competitor is a table key, the result is that key's hand-written text |
| Summary.TldrKnownIgnoresData | dashboard.py:38-57 | the hand-written texts do not depend on counts or dates. Two sets with a timestamp whose first rows name the same known competitor get the same text |
| Summary.TldrTemplate | dashboard.py:58-63 | for any other competitor the text is exactly four lines. The first is "TLDR for week <start> to <end>:", where start is the earliest and end the latest present timestamp (so start ≤ end and both bound every present timestamp). Then come "Total mentions: <length>", "Positive mentions: <wow count>" and "Negative mentions: <pain count>" |
| Summary.HeaderReadsBack | dashboard.py:59-60 | the two dates in the header read back to the earliest and latest dates |
| Summary.CountLinesReadBack | dashboard.py:61-63 | the number on each count line reads back to its count |
| Summary.ScenarioWeekly | dashboard.py:58-63 | a `wow` row on 2024-01-01 and a `pain` row on 2024-01-08 of an unlisted competitor give the week 2024-01-01 to 2024-01-08 with counts 2, 1, 1 |
| Dashboard.PanelMetricsOf | dashboard.py:18-28 | the total form of `calculate_metrics` keeps the same counts and verdict. It has a top platform exactly where that label has rows, and that platform satisfies the mode property |
| Dashboard.PanelMetricsAgree | dashboard.py:18-28 | wherever `calculate_metrics` succeeds, the total form gives the same values |
| Dashboard.CompetitorPanel | dashboard.py:68-114 | a competitor's section is the no-data message exactly when its filtered set is empty. Otherwise its counts are the set's `wow` and `pain` counts and add up to the set's non-zero size. A top platform is missing exactly when its label has no rows, and at least one is present. Its metrics are the total form of `calculate_metrics` on the set, so its verdict is Positive exactly when wow > pain and each shown platform is the smallest most-frequent platform of its label. The summary is `generate_tldr` of the set. The section is defined for every input |
| Dashboard.GuardLetsEmptyCategoryThrough | dashboard.py:74-76 | a competitor with a single `pain` mention passes the emptiness guard, and `calculate_metrics` then fails on the `wow` mode. The corrected section shows no `wow` platform and `reddit` as the `pain` platform |

## Left out

- Streamlit rendering is not modelled, because it is presentation: title, headers, columns, `metric` and `delta_color`, expander, `st.text`, `st.write` and the dataframe widget. The section's content is kept as `Dashboard.Panel`.
- `load_data` (CSV reading, `pd.to_datetime`) and the module-level `df` are not modelled, because they are file I/O and a library parser. The model takes parsed records.
- `highlight_rows` and `style.apply` are not modelled, because they are row colouring for display only.
- The detail table is not modelled, because it is rendering: column selection, `strftime('%Y-%m-%d %H:%M:%S')`, and the descending sort on that string.
- The order in which `unique()` lists competitors is not modelled. `Competitors` is a set.
- Missing values in `competitor`, `label` or `platform` are not modelled: all three are plain strings. pandas would drop a missing platform from the mode. A missing competitor is listed by `unique()` but `df['competitor'] == nan` keeps none of its rows, so `Mentions.CompetitorsHaveRows` holds only for present competitors.
- Calendar validity of dates (month and day ranges, leap years) is not modelled. A date is three naturals, ordered lexicographically. Time zones are not modelled either.
- Unicode: the bullet in the hand-written texts is U+2022. Strings are compared by code point, as in Python, with no normalisation.

## Findings

| source | as written | input that shows it | evidently intended | confidence | as-written member | corrected member |
|---|---|---|---|---|---|---|
| dashboard.py:74-76 | the loop only checks that the filtered set is non-empty, then calls `calculate_metrics`, which takes `.mode().iloc[0]` of both label categories (lines 25-26) and raises when one is empty | a competitor whose only mention is labelled `pain` | show the section, with the platform of the empty category reported as missing | high (not executed) | Dashboard.GuardLetsEmptyCategoryThrough | Dashboard.CompetitorPanel |
