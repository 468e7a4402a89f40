/**
 * The reports page (app/dashboard/reports/page.tsx): conversion of the
 * dashboard summary's `recent` list into the page's history, the
 * statistics (`calculateStats`) and the CSV export (`exportReport`).
 */
module Reports {
  import opened Wrappers
  import opened Emotions

  // ---------------------------------------------------------------------
  // Loading the history

  /** One entry of `summary.recent`; `probability` is None when null or undefined. */
  datatype RecentItem = RecentItem(timestamp: string, dominant: string, probability: Option<real>)

  /** What `getDashboardSummary` gave: a failure, or a summary whose `recent` may not be an array. */
  datatype SummaryFetch = FetchFailed | Fetched(recent: Option<seq<RecentItem>>)

  /**
   * The record conversion of `fetchDetections`: a non-array `recent`
   * gives an empty history; otherwise one record per entry, in order, with
   * the entry's `dominant` as emotion and a missing probability read as 1.
   */
  function ConvertRecent(recent: Option<seq<RecentItem>>): (h: seq<EmotionRecord>)
    ensures recent.None? ==> h == []
    ensures recent.Some? ==> |h| == |recent.value|
    ensures recent.Some? ==> forall i :: 0 <= i < |h| ==>
      && h[i].timestamp == recent.value[i].timestamp
      && h[i].emotion == recent.value[i].dominant
      && (recent.value[i].probability.None? ==> h[i].probability == 1.0)
      && (recent.value[i].probability.Some? ==> h[i].probability == recent.value[i].probability.value)
  {
    match recent
    case None => []
    case Some(items) =>
      seq(|items|, i requires 0 <= i < |items| =>
        EmotionRecord(items[i].timestamp, items[i].dominant, items[i].probability.GetOr(1.0)))
  }

  const FetchError := "Failed to fetch detection history"

  /** The page's state: the loaded history and the error banner text. */
  class ReportsPage {
    var emotionHistory: seq<EmotionRecord>
    var error: string

    constructor ()
      ensures emotionHistory == [] && error == ""
    {
      emotionHistory := [];
      error := "";
    }

    /** The mount effect `fetchDetections`, given what the request returned. */
    method FetchDetections(outcome: SummaryFetch)
      modifies this
      ensures outcome.Fetched? ==> emotionHistory == ConvertRecent(outcome.recent) && error == old(error)
      ensures outcome.FetchFailed? ==> emotionHistory == old(emotionHistory) && error == FetchError
    {
      match outcome
      case Fetched(recent) =>
        emotionHistory := ConvertRecent(recent);
      case FetchFailed =>
        error := FetchError;
    }
  }

  // ---------------------------------------------------------------------
  // Statistics

  /** The result of `calculateStats`: the dominant label and the per-label counts. */
  datatype Stats = Stats(dominant: string, counts: map<string, nat>)

  const NoData := "No data"

  /**
   * The counting loop of `calculateStats`:
   * `counts[record.emotion] = (counts[record.emotion] || 0) + 1`, with the
   * keys' insertion order kept in `order`.
   */
  method CountEmotions(history: seq<EmotionRecord>) returns (counts: map<string, nat>, order: seq<string>)
    ensures order == Distinct(history)
    ensures forall e :: e in counts <==> e in order
    ensures forall e :: e in counts ==> counts[e] == Count(history, e)
  {
    counts := map[];
    order := [];
    var i := 0;
    while i < |history|
      invariant 0 <= i <= |history|
      invariant order == Distinct(history[..i])
      invariant forall e :: e in counts <==> e in order
      invariant forall e :: e in counts ==> counts[e] == Count(history[..i], e)
    {
      assert history[..i + 1][..i] == history[..i];
      var e := history[i].emotion;
      if e !in counts {
        DistinctFacts(history[..i]);
        CountPositive(history[..i], e);
        order := order + [e];
        counts := counts[e := 1];
      } else {
        counts := counts[e := counts[e] + 1];
      }
      forall x ensures Count(history[..i + 1], x) == Count(history[..i], x) + (if e == x then 1 else 0) {
      }
      i := i + 1;
    }
    assert history[..|history|] == history;
  }

  /**
   * The selection loop of `calculateStats`: scanning the keys in order from
   * "neutral" and 0, a key replaces the current choice only when its count
   * is strictly greater, so the earliest key of maximal count wins.
   */
  method PickDominant(order: seq<string>, counts: map<string, nat>) returns (dominant: string, ghost pos: nat)
    requires forall k :: 0 <= k < |order| ==> order[k] in counts && counts[order[k]] > 0
    ensures order == [] ==> dominant == "neutral"
    ensures order != [] ==> pos < |order| && dominant == order[pos]
    ensures order != [] ==> forall k :: 0 <= k < |order| ==> counts[order[k]] <= counts[dominant]
    ensures order != [] ==> forall k :: 0 <= k < pos ==> counts[order[k]] < counts[dominant]
  {
    dominant := "neutral";
    var maxCount := 0;
    pos := 0;
    var j := 0;
    while j < |order|
      invariant 0 <= j <= |order|
      invariant 0 <= pos <= j
      invariant j == 0 ==> maxCount == 0 && dominant == "neutral"
      invariant j > 0 ==> pos < j && dominant == order[pos] && maxCount == counts[dominant]
      invariant forall k :: 0 <= k < j ==> counts[order[k]] <= maxCount
      invariant forall k :: 0 <= k < pos ==> counts[order[k]] < maxCount
    {
      if counts[order[j]] > maxCount {
        maxCount := counts[order[j]];
        dominant := order[j];
        pos := j;
      }
      j := j + 1;
    }
  }

  /**
   * `calculateStats`: "No data" and no counts for an empty history;
   * otherwise the count of every emotion, and as dominant an emotion of
   * maximal count, ties going to the one whose first record is earliest.
   */
  method CalculateStats(history: seq<EmotionRecord>) returns (stats: Stats)
    ensures history == [] ==> stats == Stats(NoData, map[])
    ensures forall e :: e in stats.counts <==> IndexOf(history, e) < |history|
    ensures forall e :: e in stats.counts ==> stats.counts[e] == Count(history, e)
    ensures history != [] ==> stats.dominant in stats.counts
    ensures history != [] ==> forall e :: e in stats.counts ==> stats.counts[e] <= stats.counts[stats.dominant]
    ensures history != [] ==> forall r :: 0 <= r < IndexOf(history, stats.dominant) ==>
      Count(history, history[r].emotion) < Count(history, stats.dominant)
  {
    if |history| == 0 {
      return Stats(NoData, map[]);
    }
    var counts, order := CountEmotions(history);
    DistinctFacts(history);
    forall k | 0 <= k < |order| ensures counts[order[k]] > 0 {
      CountPositive(history, order[k]);
    }
    var dominant, pos := PickDominant(order, counts);
    assert history[0].emotion in order;
    forall e | e in counts ensures counts[e] <= counts[dominant] {
      var k :| 0 <= k < |order| && order[k] == e;
    }
    EarliestMaximum(history, order, counts, pos);
    stats := Stats(dominant, counts);
  }

  /** The key order of the counts turns "earliest key of maximal count" into "earliest first record". */
  lemma EarliestMaximum(history: seq<EmotionRecord>, order: seq<string>, counts: map<string, nat>, pos: nat)
    requires order == Distinct(history) && pos < |order|
    requires forall e :: e in counts ==> counts[e] == Count(history, e)
    requires forall e :: e in counts <==> e in order
    requires forall k :: 0 <= k < pos ==> counts[order[k]] < counts[order[pos]]
    ensures forall r :: 0 <= r < IndexOf(history, order[pos]) ==>
      Count(history, history[r].emotion) < Count(history, order[pos])
  {
    DistinctFacts(history);
    forall r | 0 <= r < IndexOf(history, order[pos])
      ensures Count(history, history[r].emotion) < Count(history, order[pos])
    {
      var e := history[r].emotion;
      assert IndexOf(history, e) <= r;
      var k :| 0 <= k < |order| && order[k] == e;
      OrderFollowsFirstRecord(history, k, pos);
      assert k < pos;
    }
  }

  /**
   * For a non-empty history the dominant label is one that occurs, so the
   * initial "neutral" survives only when "neutral" itself is recorded.
   */
  lemma DominantOccurs(history: seq<EmotionRecord>, stats: Stats)
    requires history != []
    requires forall e :: e in stats.counts <==> IndexOf(history, e) < |history|
    requires stats.dominant in stats.counts
    ensures exists r :: 0 <= r < |history| && history[r].emotion == stats.dominant
  {
    var r := IndexOf(history, stats.dominant);
    assert history[r].emotion == stats.dominant;
  }

  // ---------------------------------------------------------------------
  // CSV export

  /** `a + [sep] + b + [sep] + ...`: the parts joined by one separator. */
  function Join(parts: seq<string>, sep: char): string
    requires parts != []
  {
    if |parts| == 1 then parts[0] else parts[0] + [sep] + Join(parts[1..], sep)
  }

  /** Index of the first `c` in `s`, or `|s|`. */
  function Find(s: string, c: char): (k: nat)
    ensures k <= |s|
    ensures k < |s| ==> s[k] == c
    ensures forall i :: 0 <= i < k ==> s[i] != c
  {
    if s == [] then 0 else if s[0] == c then 0 else 1 + Find(s[1..], c)
  }

  /** `s.split(sep)`: the pieces between separators (there is always at least one). */
  function Split(s: string, sep: char): (r: seq<string>)
    ensures r != []
    decreases |s|
  {
    var k := Find(s, sep);
    if k == |s| then [s] else [s[..k]] + Split(s[k + 1..], sep)
  }

  lemma FindAfter(a: string, b: string, c: char)
    requires c !in a
    ensures Find(a + [c] + b, c) == |a|
  {
    var s := a + [c] + b;
    var k := Find(s, c);
    assert s[|a|] == c;
    forall i | 0 <= i < |a| ensures s[i] != c {
      assert s[i] == a[i];
    }
  }

  /** Splitting undoes joining when no part contains the separator. */
  lemma {:induction false} SplitJoin(parts: seq<string>, sep: char)
    requires parts != []
    requires forall i :: 0 <= i < |parts| ==> sep !in parts[i]
    ensures Split(Join(parts, sep), sep) == parts
    decreases |parts|
  {
    if |parts| == 1 {
      assert Find(parts[0], sep) == |parts[0]|;
    } else {
      var rest := Join(parts[1..], sep);
      FindAfter(parts[0], rest, sep);
      var s := parts[0] + [sep] + rest;
      assert s[..|parts[0]|] == parts[0];
      assert s[|parts[0]| + 1..] == rest;
      SplitJoin(parts[1..], sep);
    }
  }

  lemma {:induction false} JoinSnoc(parts: seq<string>, x: string, sep: char)
    requires parts != []
    ensures Join(parts + [x], sep) == Join(parts, sep) + [sep] + x
    decreases |parts|
  {
    if |parts| > 1 {
      assert (parts + [x])[1..] == parts[1..] + [x];
      JoinSnoc(parts[1..], x, sep);
    }
  }

  /** Every line followed by LF, concatenated: `line1 + "\n" + line2 + "\n" + ...`. */
  function Terminated(lines: seq<string>): string
  {
    if lines == [] then "" else Terminated(lines[..|lines| - 1]) + lines[|lines| - 1] + "\n"
  }

  /** LF-terminated lines are the lines joined by LF, with an empty piece after the last LF. */
  lemma {:induction false} TerminatedIsJoin(lines: seq<string>)
    ensures Terminated(lines) == Join(lines + [""], '\n')
    decreases |lines|
  {
    if lines != [] {
      var p := lines[..|lines| - 1];
      var l := lines[|lines| - 1];
      TerminatedIsJoin(p);
      assert lines == p + [l];
      if p == [] {
        assert Join([l, ""], '\n') == l + "\n" + "";
      } else {
        JoinSnoc(p, "", '\n');
        JoinSnoc(p, l, '\n');
        JoinSnoc(p + [l], "", '\n');
        assert p + [l] + [""] == lines + [""];
      }
    }
  }

  const HeaderFields: seq<string> := ["Timestamp", "Emotion", "Probability"]

  /** The three fields of one record, the probability rendered by `show` (JavaScript's Number to string). */
  function Row(r: EmotionRecord, show: real -> string): seq<string>
  {
    [r.timestamp, r.emotion, show(r.probability)]
  }

  /** The data lines: fields joined by commas verbatim, with no quoting or escaping. */
  function RowLines(h: seq<EmotionRecord>, show: real -> string): (ls: seq<string>)
    ensures |ls| == |h|
    ensures forall i :: 0 <= i < |h| ==> ls[i] == Join(Row(h[i], show), ',')
  {
    seq(|h|, i requires 0 <= i < |h| => Join(Row(h[i], show), ','))
  }

  /** The exported file: header line, then one LF-terminated line per record. */
  function CsvText(h: seq<EmotionRecord>, show: real -> string): string
  {
    Terminated([Join(HeaderFields, ',')] + RowLines(h, show))
  }

  /**
   * `exportReport`: nothing for an empty history, otherwise the header
   * followed by one `timestamp,emotion,probability` line per record in
   * history order.
   */
  method ExportReport(history: seq<EmotionRecord>, show: real -> string) returns (csv: Option<string>)
    ensures history == [] <==> csv.None?
    ensures history != [] ==> csv == Some(CsvText(history, show))
  {
    if |history| == 0 {
      return None;
    }
    var content := "Timestamp,Emotion,Probability\n";
    HeaderText();
    var i := 0;
    while i < |history|
      invariant 0 <= i <= |history|
      invariant content == Terminated([Join(HeaderFields, ',')] + RowLines(history[..i], show))
    {
      var r := history[i];
      ExportStep(history, i, show);
      content := content + r.timestamp + "," + r.emotion + "," + show(r.probability) + "\n";
      i := i + 1;
    }
    assert history[..|history|] == history;
    csv := Some(content);
  }

  lemma HeaderText()
    ensures Terminated([Join(HeaderFields, ',')]) == "Timestamp,Emotion,Probability\n"
  {
    var header := Join(HeaderFields, ',');
    JoinThree("Timestamp", "Emotion", "Probability");
    assert header == "Timestamp,Emotion,Probability";
    TerminatedSnoc([], header);
    assert [] + [header] == [header];
  }

  /** Three strings joined by commas. */
  lemma JoinThree(a: string, b: string, c: string)
    ensures Join([a, b, c], ',') == a + "," + b + "," + c
  {
    var t := [a, b, c][1..];
    assert t[1..] == [c];
    assert Join(t, ',') == b + "," + c;
  }

  /** The three fields of a record joined by commas. */
  lemma JoinRow(r: EmotionRecord, show: real -> string)
    ensures Join(Row(r, show), ',') == r.timestamp + "," + r.emotion + "," + show(r.probability)
  {
    JoinThree(r.timestamp, r.emotion, show(r.probability));
  }

  /** Terminating one more line appends it and its LF. */
  lemma TerminatedSnoc(lines: seq<string>, l: string)
    ensures Terminated(lines + [l]) == Terminated(lines) + l + "\n"
  {
    assert (lines + [l])[..|lines|] == lines;
  }

  /** The data lines of one more record: its line is appended. */
  lemma RowLinesSnoc(h: seq<EmotionRecord>, i: nat, show: real -> string)
    requires i < |h|
    ensures RowLines(h[..i + 1], show) == RowLines(h[..i], show) + [Join(Row(h[i], show), ',')]
  {
    assert h[..i + 1][i] == h[i];
  }

  /** One iteration of the export loop appends the line of record `i`. */
  lemma ExportStep(h: seq<EmotionRecord>, i: nat, show: real -> string)
    requires i < |h|
    ensures Terminated([Join(HeaderFields, ',')] + RowLines(h[..i + 1], show))
         == Terminated([Join(HeaderFields, ',')] + RowLines(h[..i], show))
            + h[i].timestamp + "," + h[i].emotion + "," + show(h[i].probability) + "\n"
  {
    var lines := [Join(HeaderFields, ',')] + RowLines(h[..i], show);
    var line := Join(Row(h[i], show), ',');
    RowLinesSnoc(h, i, show);
    HeadedSnoc(Join(HeaderFields, ','), RowLines(h[..i], show), line);
    TerminatedSnoc(lines, line);
    JoinRow(h[i], show);
    AppendLine(Terminated(lines), line, h[i].timestamp, h[i].emotion, show(h[i].probability));
  }

  lemma HeadedSnoc(header: string, rows: seq<string>, line: string)
    ensures [header] + (rows + [line]) == ([header] + rows) + [line]
  {
  }

  lemma AppendLine(text: string, line: string, a: string, b: string, c: string)
    requires line == a + "," + b + "," + c
    ensures text + line + "\n" == text + a + "," + b + "," + c + "\n"
  {
  }

  /** Reading a CSV text back: split into lines, drop the piece after the final LF, split each line on commas. */
  function ParseCsv(text: string): seq<seq<string>>
  {
    var lines := Split(text, '\n');
    seq(|lines| - 1, i requires 0 <= i < |lines| - 1 => Split(lines[i], ','))
  }

  /** A field that survives the export unchanged: no comma, no line feed. */
  predicate PlainField(f: string)
  {
    ',' !in f && '\n' !in f
  }

  /**
   * When no field contains a comma or a line feed, parsing the export gives
   * back the header and exactly the fields of each record, in order.
   */
  lemma ExportRoundTrip(h: seq<EmotionRecord>, show: real -> string)
    requires forall i :: 0 <= i < |h| ==> PlainField(h[i].timestamp) && PlainField(h[i].emotion) && PlainField(show(h[i].probability))
    ensures |ParseCsv(CsvText(h, show))| == |h| + 1
    ensures ParseCsv(CsvText(h, show))[0] == HeaderFields
    ensures forall i :: 0 <= i < |h| ==> ParseCsv(CsvText(h, show))[i + 1] == Row(h[i], show)
  {
    var rows := [HeaderFields] + seq(|h|, i requires 0 <= i < |h| => Row(h[i], show));
    CsvLines(h, show);
    JoinedRows(h, show, rows);
    PlainRows(h, show, rows);
    ParseRoundTrip(CsvText(h, show), rows);
  }

  /** No field of the header or of a plain record holds a comma. */
  lemma PlainRows(h: seq<EmotionRecord>, show: real -> string, rows: seq<seq<string>>)
    requires forall i :: 0 <= i < |h| ==> PlainField(h[i].timestamp) && PlainField(h[i].emotion) && PlainField(show(h[i].probability))
    requires rows == [HeaderFields] + seq(|h|, i requires 0 <= i < |h| => Row(h[i], show))
    ensures |rows| == |h| + 1 && rows[0] == HeaderFields
    ensures forall i :: 0 <= i < |h| ==> rows[i + 1] == Row(h[i], show)
    ensures forall i :: 0 <= i < |rows| ==> rows[i] != [] && forall j :: 0 <= j < |rows[i]| ==> ',' !in rows[i][j]
  {
  }

  /** The export's lines are the header and the records' fields, each joined by commas. */
  lemma JoinedRows(h: seq<EmotionRecord>, show: real -> string, rows: seq<seq<string>>)
    requires rows == [HeaderFields] + seq(|h|, i requires 0 <= i < |h| => Row(h[i], show))
    ensures [Join(HeaderFields, ',')] + RowLines(h, show) == seq(|rows|, i requires 0 <= i < |rows| => Join(rows[i], ','))
  {
  }

  /** Parsing text whose lines are comma-joined rows of comma-free fields gives the rows back. */
  lemma ParseRoundTrip(text: string, rows: seq<seq<string>>)
    requires forall i :: 0 <= i < |rows| ==> rows[i] != [] && forall j :: 0 <= j < |rows[i]| ==> ',' !in rows[i][j]
    requires Split(text, '\n') == seq(|rows|, i requires 0 <= i < |rows| => Join(rows[i], ',')) + [""]
    ensures ParseCsv(text) == rows
  {
    forall i | 0 <= i < |rows| ensures ParseCsv(text)[i] == rows[i] {
      SplitJoin(rows[i], ',');
    }
  }

  /** The export split at its line feeds: header line, record lines, and the empty piece after the last LF. */
  lemma CsvLines(h: seq<EmotionRecord>, show: real -> string)
    requires forall i :: 0 <= i < |h| ==> PlainField(h[i].timestamp) && PlainField(h[i].emotion) && PlainField(show(h[i].probability))
    ensures Split(CsvText(h, show), '\n') == [Join(HeaderFields, ',')] + RowLines(h, show) + [""]
  {
    var lines := [Join(HeaderFields, ',')] + RowLines(h, show);
    forall i | 0 <= i < |lines| ensures '\n' !in lines[i] {
      if i == 0 {
        SplitJoinNoChar(HeaderFields, ',', '\n');
      } else {
        RowLineHasNoLineFeed(h[i - 1], show);
      }
    }
    SplitTerminated(lines);
  }

  /** LF-terminated lines without LFs of their own split back into those lines and an empty last piece. */
  lemma SplitTerminated(lines: seq<string>)
    requires forall i :: 0 <= i < |lines| ==> '\n' !in lines[i]
    ensures Split(Terminated(lines), '\n') == lines + [""]
  {
    TerminatedIsJoin(lines);
    SplitJoin(lines + [""], '\n');
  }

  lemma RowLineHasNoLineFeed(r: EmotionRecord, show: real -> string)
    requires PlainField(r.timestamp) && PlainField(r.emotion) && PlainField(show(r.probability))
    ensures '\n' !in Join(Row(r, show), ',')
  {
    SplitJoinNoChar(Row(r, show), ',', '\n');
  }

  /** Joining introduces no character other than the separator. */
  lemma {:induction false} SplitJoinNoChar(parts: seq<string>, sep: char, c: char)
    requires parts != [] && c != sep
    requires forall i :: 0 <= i < |parts| ==> c !in parts[i]
    ensures c !in Join(parts, sep)
    decreases |parts|
  {
    if |parts| > 1 {
      SplitJoinNoChar(parts[1..], sep, c);
    }
  }

  /**
   * Without quoting, different histories can export to the same text: a
   * comma moved from the timestamp into the emotion is invisible.
   */
  lemma ExportNotInjective(show: real -> string)
    ensures var h1 := [EmotionRecord("t,happy", "sad", 1.0)];
            var h2 := [EmotionRecord("t", "happy,sad", 1.0)];
            h1 != h2 && CsvText(h1, show) == CsvText(h2, show)
  {
    var h1 := [EmotionRecord("t,happy", "sad", 1.0)];
    var h2 := [EmotionRecord("t", "happy,sad", 1.0)];
    JoinRow(h1[0], show);
    JoinRow(h2[0], show);
    assert RowLines(h1, show) == [Join(Row(h1[0], show), ',')];
    assert RowLines(h2, show) == [Join(Row(h2[0], show), ',')];
    assert Join(Row(h1[0], show), ',') == Join(Row(h2[0], show), ',');
  }

  /** Lines end in a bare LF: the export contains a carriage return only if some field does. */
  lemma {:induction false} ExportHasNoCarriageReturn(h: seq<EmotionRecord>, show: real -> string)
    requires forall i :: 0 <= i < |h| ==> '\r' !in h[i].timestamp && '\r' !in h[i].emotion && '\r' !in show(h[i].probability)
    ensures '\r' !in CsvText(h, show)
  {
    var lines := [Join(HeaderFields, ',')] + RowLines(h, show);
    forall i | 0 <= i < |lines| ensures '\r' !in lines[i] {
      if i > 0 {
        SplitJoinNoChar(Row(h[i - 1], show), ',', '\r');
      }
    }
    TerminatedNoChar(lines, '\r');
  }

  lemma {:induction false} TerminatedNoChar(lines: seq<string>, c: char)
    requires c != '\n'
    requires forall i :: 0 <= i < |lines| ==> c !in lines[i]
    ensures c !in Terminated(lines)
    decreases |lines|
  {
    if lines != [] {
      TerminatedNoChar(lines[..|lines| - 1], c);
    }
  }
}
