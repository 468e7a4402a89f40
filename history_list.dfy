/**
 * DetectionHistoryList (components/reports/DetectionHistoryList.tsx): the
 * placeholder for an empty history, otherwise the ten newest records,
 * newest first, taken from a reversed copy.
 */
module HistoryList {
  import opened Emotions

  const MaxRows := 10

  datatype HistoryView = Placeholder | Rows(rows: seq<EmotionRecord>)

  /** `[...history].reverse()`. */
  function Reversed(h: seq<EmotionRecord>): (r: seq<EmotionRecord>)
    ensures |r| == |h|
  {
    if h == [] then [] else [Last(h)] + Reversed(h[..|h| - 1])
  }

  lemma {:induction false} ReversedAt(h: seq<EmotionRecord>, i: nat)
    requires i < |h|
    ensures Reversed(h)[i] == h[|h| - 1 - i]
  {
    if i > 0 {
      ReversedAt(h[..|h| - 1], i - 1);
    }
  }

  /** The rendered list: `[...history].reverse().slice(0, 10)`, or the placeholder. */
  function View(h: seq<EmotionRecord>): (v: HistoryView)
    ensures v.Placeholder? <==> h == []
    ensures v.Rows? ==> 0 < |v.rows| <= MaxRows && |v.rows| <= |h|
  {
    if |h| == 0 then Placeholder
    else
      var r := Reversed(h);
      Rows(if |r| <= MaxRows then r else r[..MaxRows])
  }

  /**
   * An empty history shows the placeholder; otherwise exactly
   * min(|h|, 10) rows, row i being the record at index |h| - 1 - i.
   */
  lemma ViewNewestFirst(h: seq<EmotionRecord>)
    ensures h == [] <==> View(h).Placeholder?
    ensures h != [] ==> |View(h).rows| == (if |h| < MaxRows then |h| else MaxRows)
    ensures h != [] ==> forall i :: 0 <= i < |View(h).rows| ==> View(h).rows[i] == h[|h| - 1 - i]
  {
    if h != [] {
      forall i | 0 <= i < |View(h).rows| ensures View(h).rows[i] == h[|h| - 1 - i] {
        ReversedAt(h, i);
      }
    }
  }
}
