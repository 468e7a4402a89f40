/**
 * EmotionBarChart (components/reports/EmotionBarChart.tsx): one bar per
 * fixed label with its share of the history, rounded, and a bar height of
 * at least 5.
 */
module BarChart {
  import opened Emotions

  datatype Bar = Bar(emotion: string, percentage: nat, height: nat)

  /**
   * `Math.round((count / total) * 100)` on exact rationals, 0 when the
   * history is empty: the nearest whole percentage, halves rounded up.
   */
  function Percentage(count: nat, total: nat): (p: nat)
    ensures total == 0 ==> p == 0
    ensures total > 0 ==> 2 * p * total <= 200 * count + total < 2 * p * total + 2 * total
  {
    if total == 0 then 0 else (200 * count + total) / (2 * total)
  }

  /** A share of at most the whole is at most 100 percent. */
  lemma PercentageAtMost100(count: nat, total: nat)
    requires count <= total
    ensures Percentage(count, total) <= 100
  {
    if total > 0 {
      MulMono(Percentage(count, total), 101, 2 * total);
    }
  }

  lemma MulMono(a: nat, b: nat, c: nat)
    ensures a >= b ==> a * c >= b * c
  {
  }

  /** `Math.max(percentage, 5)`: the bar is never shorter than 5. */
  function Height(percentage: nat): (h: nat)
    ensures h >= 5 && h >= percentage
    ensures h == 5 || h == percentage
  {
    if percentage >= 5 then percentage else 5
  }

  /** `counts[emotion] || 0`. */
  function CountOf(counts: map<string, nat>, e: string): (n: nat)
    ensures e in counts ==> n == counts[e]
    ensures e !in counts ==> n == 0
  {
    if e in counts then counts[e] else 0
  }

  /** The bars, given the history length and the counts object. */
  function Bars(historyLength: nat, counts: map<string, nat>): (bars: seq<Bar>)
    ensures |bars| == |Labels|
    ensures forall i :: 0 <= i < |bars| ==> bars[i].emotion == Labels[i]
    ensures forall i :: 0 <= i < |bars| ==>
      bars[i].percentage == Percentage(CountOf(counts, Labels[i]), historyLength)
      && bars[i].height == Height(bars[i].percentage)
  {
    seq(|Labels|, i requires 0 <= i < |Labels| =>
      var p := Percentage(CountOf(counts, Labels[i]), historyLength);
      Bar(Labels[i], p, Height(p)))
  }

  /** Only the seven labels are read: counts for any other key do not change the chart. */
  lemma OtherLabelsIgnored(n: nat, c1: map<string, nat>, c2: map<string, nat>)
    requires forall l :: l in Labels ==> CountOf(c1, l) == CountOf(c2, l)
    ensures Bars(n, c1) == Bars(n, c2)
  {
    var b1, b2 := Bars(n, c1), Bars(n, c2);
    forall i | 0 <= i < |Labels| ensures b1[i] == b2[i] {
      assert Labels[i] in Labels;
    }
  }

  /** An empty history shows 0% for every label, drawn at the minimum height. */
  lemma EmptyHistoryAllZero(counts: map<string, nat>)
    ensures forall b :: b in Bars(0, counts) ==> b.percentage == 0 && b.height == 5
  {
  }

  /** The chart of a history, as the reports page builds it. */
  function HistoryBars(h: seq<EmotionRecord>): seq<Bar>
  {
    Bars(|h|, CountMap(h))
  }

  /** Looking up an emotion in the counts object, absent keys read as 0, is its count. */
  lemma CountOfCountMap(h: seq<EmotionRecord>, e: string)
    ensures CountOf(CountMap(h), e) == Count(h, e)
  {
    if e !in Distinct(h) {
      DistinctFacts(h);
      CountPositive(h, e);
    }
  }

  /**
   * Over a real history every bar shows the label's rounded share of the
   * records, between 0 and 100; a label that never occurs shows 0.
   */
  lemma HistoryBarInRange(h: seq<EmotionRecord>, i: nat)
    requires i < |Labels|
    ensures HistoryBars(h)[i].percentage == Percentage(Count(h, Labels[i]), |h|)
    ensures HistoryBars(h)[i].percentage <= 100
  {
    CountOfCountMap(h, Labels[i]);
    CountAtMostLength(h, Labels[i]);
    PercentageAtMost100(Count(h, Labels[i]), |h|);
  }

  /** Each label is rounded on its own: three equal thirds show 33% each, 99% in all. */
  lemma NoSumCorrection()
    ensures var bars := Bars(3, map["happy" := 1, "sad" := 1, "angry" := 1]);
            bars[0].percentage + bars[1].percentage + bars[2].percentage == 99
  {
  }

  /** Three happy records, one sad one among them. */
  function SampleHistory(): seq<EmotionRecord>
  {
    [EmotionRecord("t1", "happy", 1.0), EmotionRecord("t2", "happy", 1.0),
     EmotionRecord("t3", "sad", 1.0), EmotionRecord("t4", "happy", 1.0)]
  }

  lemma SampleCounts(e: string)
    ensures Count(SampleHistory(), e) == (if e == "happy" then 3 else if e == "sad" then 1 else 0)
  {
    var h := SampleHistory();
    assert h[..1][..0] == [];
    assert Count(h[..1], e) == (if e == "happy" then 1 else 0);
    assert h[..2][..1] == h[..1];
    assert Count(h[..2], e) == (if e == "happy" then 2 else 0);
    assert h[..3][..2] == h[..2];
    assert Count(h[..3], e) == (if e == "happy" then 2 else if e == "sad" then 1 else 0);
    assert h[..3] == h[..|h| - 1];
  }

  /** Three happy records and one sad one: 75% happy, 25% sad, 0% for the rest. */
  lemma ExampleThreeToOne()
    ensures var bars := HistoryBars(SampleHistory());
            bars[0].percentage == 75 && bars[1].percentage == 25
            && forall i :: 2 <= i < 7 ==> bars[i].percentage == 0
  {
    var h := SampleHistory();
    forall i | 0 <= i < 7
      ensures HistoryBars(h)[i].percentage == Percentage(Count(h, Labels[i]), 4)
      ensures Count(h, Labels[i]) == (if i == 0 then 3 else if i == 1 then 1 else 0)
    {
      HistoryBarInRange(h, i);
      SampleCounts(Labels[i]);
    }
  }
}
