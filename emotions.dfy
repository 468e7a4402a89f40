/**
 * The emotion record shared by the reports page, the detect page and the
 * history list, the fixed label list of the charts, and occurrence
 * counting over a history.
 */
module Emotions {

  /** One stored detection: `{ timestamp, emotion, probability }`. */
  datatype EmotionRecord = EmotionRecord(timestamp: string, emotion: string, probability: real)

  /** The seven labels, in the order both charts list them. */
  const Labels: seq<string> := ["happy", "sad", "angry", "fearful", "disgusted", "surprised", "neutral"]

  /** The last record of a non-empty history. */
  function Last(h: seq<EmotionRecord>): EmotionRecord
    requires h != []
  {
    h[|h| - 1]
  }

  /** The number of records of `h` whose emotion is `e`. */
  function Count(h: seq<EmotionRecord>, e: string): nat
  {
    if h == [] then 0
    else Count(h[..|h| - 1], e) + (if Last(h).emotion == e then 1 else 0)
  }

  /** A record counts at most once, so no emotion counts more than the history is long. */
  lemma {:induction false} CountAtMostLength(h: seq<EmotionRecord>, e: string)
    ensures Count(h, e) <= |h|
  {
    if h != [] {
      CountAtMostLength(h[..|h| - 1], e);
    }
  }

  /** Appending a record adds one to its own emotion's count only. */
  lemma CountSnoc(p: seq<EmotionRecord>, x: EmotionRecord, e: string)
    ensures Count(p + [x], e) == Count(p, e) + (if x.emotion == e then 1 else 0)
  {
    assert (p + [x])[..|p + [x]| - 1] == p;
  }

  /** The counts object of a history: each occurring emotion with its count. */
  function CountMap(h: seq<EmotionRecord>): (m: map<string, nat>)
    ensures forall e :: e in m <==> e in Distinct(h)
    ensures forall e :: e in m ==> m[e] == Count(h, e)
  {
    map e | e in Distinct(h) :: Count(h, e)
  }

  /** Position of the first record with emotion `e`, or `|h|` when there is none. */
  function IndexOf(h: seq<EmotionRecord>, e: string): (k: nat)
    ensures k <= |h|
    ensures k < |h| ==> h[k].emotion == e
    ensures forall r :: 0 <= r < k ==> h[r].emotion != e
  {
    if h == [] then 0
    else
      var p := h[..|h| - 1];
      var k := IndexOf(p, e);
      if k < |p| then k
      else if Last(h).emotion == e then |p|
      else |h|
  }

  /** The distinct emotions of `h`, in order of first occurrence. */
  function Distinct(h: seq<EmotionRecord>): seq<string>
  {
    if h == [] then []
    else
      var p := Distinct(h[..|h| - 1]);
      if Last(h).emotion in p then p else p + [Last(h).emotion]
  }

  /** An emotion counts at least once exactly when it occurs. */
  lemma {:induction false} CountPositive(h: seq<EmotionRecord>, e: string)
    ensures Count(h, e) > 0 <==> IndexOf(h, e) < |h|
  {
    if h != [] {
      CountPositive(h[..|h| - 1], e);
    }
  }

  /**
   * Distinct lists each occurring emotion once, and lists them in strictly
   * increasing order of first occurrence.
   */
  lemma {:induction false} DistinctFacts(h: seq<EmotionRecord>)
    ensures forall e :: e in Distinct(h) <==> IndexOf(h, e) < |h|
    ensures forall i, j :: 0 <= i < j < |Distinct(h)| ==> IndexOf(h, Distinct(h)[i]) < IndexOf(h, Distinct(h)[j])
  {
    if h != [] {
      var p := h[..|h| - 1];
      DistinctFacts(p);
      forall e ensures IndexOf(h, e) == (if IndexOf(p, e) < |p| then IndexOf(p, e) else if Last(h).emotion == e then |p| else |h|) {
      }
    }
  }

  /** Positions in Distinct are ordered exactly as the first records of their emotions. */
  lemma OrderFollowsFirstRecord(h: seq<EmotionRecord>, i: nat, j: nat)
    requires i < |Distinct(h)| && j < |Distinct(h)|
    ensures i < j <==> IndexOf(h, Distinct(h)[i]) < IndexOf(h, Distinct(h)[j])
  {
    DistinctFacts(h);
    if i < j {
    } else if i == j {
    } else {
      assert IndexOf(h, Distinct(h)[j]) < IndexOf(h, Distinct(h)[i]);
    }
  }

  /** No emotion is listed twice by Distinct. */
  lemma DistinctUnique(h: seq<EmotionRecord>)
    ensures forall i, j :: 0 <= i < j < |Distinct(h)| ==> Distinct(h)[i] != Distinct(h)[j]
  {
    DistinctFacts(h);
  }

  /** Sum of the counts of the listed emotions. */
  function SumCounts(keys: seq<string>, h: seq<EmotionRecord>): nat
  {
    if keys == [] then 0 else Count(h, keys[0]) + SumCounts(keys[1..], h)
  }

  lemma {:induction false} SumCountsSnoc(keys: seq<string>, h: seq<EmotionRecord>, x: EmotionRecord)
    requires forall i, j :: 0 <= i < j < |keys| ==> keys[i] != keys[j]
    ensures SumCounts(keys, h + [x]) == SumCounts(keys, h) + (if x.emotion in keys then 1 else 0)
  {
    assert (h + [x])[..|h + [x]| - 1] == h;
    if keys != [] {
      SumCountsSnoc(keys[1..], h, x);
      assert x.emotion in keys <==> x.emotion == keys[0] || x.emotion in keys[1..];
    }
  }

  lemma {:induction false} SumCountsAppendKey(keys: seq<string>, e: string, h: seq<EmotionRecord>)
    ensures SumCounts(keys + [e], h) == SumCounts(keys, h) + Count(h, e)
  {
    if keys != [] {
      assert (keys + [e])[1..] == keys[1..] + [e];
      SumCountsAppendKey(keys[1..], e, h);
    }
  }

  /** The per-emotion counts add up to the length of the history. */
  lemma {:induction false} CountsSumToLength(h: seq<EmotionRecord>)
    ensures SumCounts(Distinct(h), h) == |h|
  {
    if h != [] {
      var p := h[..|h| - 1];
      var x := Last(h);
      assert h == p + [x];
      CountsSumToLength(p);
      DistinctUnique(p);
      SumCountsSnoc(Distinct(p), p, x);
      if x.emotion !in Distinct(p) {
        SumCountsAppendKey(Distinct(p), x.emotion, h);
        DistinctFacts(p);
        CountPositive(p, x.emotion);
      }
    }
  }
}
