/**
 * The dashboard page (app/dashboard/page.tsx): `cap`, the dominant label
 * of the last detection (the `Object.entries(...).reduce` of lines 75 and
 * 99) and the inputs it hands to the chat panel.
 */
module Dashboard {
  import opened Wrappers
  import opened Text

  /**
   * `cap(str)`: "-" for a missing or empty string, otherwise the first
   * character upper-cased (ASCII) followed by the rest unchanged.
   */
  function Cap(s: Option<string>): (r: string)
    ensures s.None? || s.value == "" ==> r == "-"
    ensures s.Some? && s.value != "" ==> |r| == |s.value| && r[0] == UpperChar(s.value[0]) && r[1..] == s.value[1..]
  {
    match s
    case None => "-"
    case Some(str) => if str == "" then "-" else [UpperChar(str[0])] + str[1..]
  }

  /** Capitalising twice is capitalising once. */
  lemma CapIdempotent(s: string)
    ensures Cap(Some(Cap(Some(s)))) == Cap(Some(s))
  {
    if s != "" {
      var c := Cap(Some(s));
      assert c[1..] == s[1..];
    }
  }

  /** Capitalising changes only the case of the first letter. */
  lemma CapKeepsLowerCase(s: string)
    requires s != ""
    ensures Lower(Cap(Some(s))) == Lower(s)
  {
    var c := Cap(Some(s));
    LowerUpperChar(s[0]);
    forall i | 0 <= i < |s| ensures Lower(c)[i] == Lower(s)[i] {
      if i > 0 {
        assert c[i] == c[1..][i - 1] == s[i];
      }
    }
  }

  /** The `emotions` object of the last detection: its entries in key order, with numeric values. */
  type Entries = seq<(string, real)>

  predicate DistinctKeys(obj: Entries)
  {
    forall i, j :: 0 <= i < j < |obj| ==> obj[i].0 != obj[j].0
  }

  /** `emotions[k] || 0`: the value of key `k`, 0 when it is absent. */
  function Lookup(obj: Entries, k: string): real
  {
    if obj == [] then 0.0 else if obj[0].0 == k then obj[0].1 else Lookup(obj[1..], k)
  }

  lemma {:induction false} LookupAt(obj: Entries, i: nat)
    requires DistinctKeys(obj) && i < |obj|
    ensures Lookup(obj, obj[i].0) == obj[i].1
  {
    if i > 0 {
      LookupAt(obj[1..], i - 1);
    }
  }

  /** The keys of a run of entries. */
  function Keys(entries: Entries): set<string>
  {
    set e | e in entries :: e.0
  }

  /** The step of the reduce: switch to `k` only when `v` is strictly greater than the current label's value. */
  function Reduce(entries: Entries, obj: Entries, acc: string): (r: string)
    ensures r == acc || r in Keys(entries)
    decreases |entries|
  {
    if entries == [] then acc
    else
      var (k, v) := entries[0];
      Reduce(entries[1..], obj, if v > Lookup(obj, acc) then k else acc)
  }

  /** `Object.entries(emotions).reduce(..., "neutral")`. */
  function DominantOf(obj: Entries): (r: string)
    ensures r == "neutral" || r in Keys(obj)
  {
    Reduce(obj, obj, "neutral")
  }

  /**
   * The reduce over a run of entries whose values are what the object
   * holds: if no value beats the start label, the start label is kept;
   * otherwise the result is the first key of maximal value, and its value
   * is at least every value seen.
   */
  lemma {:induction false} ReduceFacts(entries: Entries, obj: Entries, acc: string)
    requires forall j :: 0 <= j < |entries| ==> Lookup(obj, entries[j].0) == entries[j].1
    ensures forall j :: 0 <= j < |entries| ==> entries[j].1 <= Lookup(obj, Reduce(entries, obj, acc))
    ensures Lookup(obj, acc) <= Lookup(obj, Reduce(entries, obj, acc))
    ensures (forall j :: 0 <= j < |entries| ==> entries[j].1 <= Lookup(obj, acc)) ==> Reduce(entries, obj, acc) == acc
    ensures (exists j :: 0 <= j < |entries| && entries[j].1 > Lookup(obj, acc)) ==>
      exists m :: 0 <= m < |entries| && Reduce(entries, obj, acc) == entries[m].0
        && (forall j :: 0 <= j < m ==> entries[j].1 < entries[m].1)
        && Lookup(obj, acc) < entries[m].1
  {
    ReduceBounds(entries, obj, acc);
    if exists j :: 0 <= j < |entries| && entries[j].1 > Lookup(obj, acc) {
      var m := ReduceFirstMaximum(entries, obj, acc);
    }
  }

  /** The reduce's label ends with a value at least its start's and every value seen, and stays put when nothing beats it. */
  lemma {:induction false} ReduceBounds(entries: Entries, obj: Entries, acc: string)
    requires forall j :: 0 <= j < |entries| ==> Lookup(obj, entries[j].0) == entries[j].1
    ensures forall j :: 0 <= j < |entries| ==> entries[j].1 <= Lookup(obj, Reduce(entries, obj, acc))
    ensures Lookup(obj, acc) <= Lookup(obj, Reduce(entries, obj, acc))
    ensures (forall j :: 0 <= j < |entries| ==> entries[j].1 <= Lookup(obj, acc)) ==> Reduce(entries, obj, acc) == acc
    decreases |entries|
  {
    if entries != [] {
      var (k, v) := entries[0];
      var acc' := if v > Lookup(obj, acc) then k else acc;
      var rest := entries[1..];
      ReduceBounds(rest, obj, acc');
      assert forall j :: 0 < j < |entries| ==> entries[j] == rest[j - 1];
    }
  }

  /** When some value beats the start label, the reduce ends on the first key of greatest value, which beats it too. */
  lemma {:induction false} ReduceFirstMaximum(entries: Entries, obj: Entries, acc: string) returns (m: nat)
    requires forall j :: 0 <= j < |entries| ==> Lookup(obj, entries[j].0) == entries[j].1
    requires exists j :: 0 <= j < |entries| && entries[j].1 > Lookup(obj, acc)
    ensures m < |entries| && Reduce(entries, obj, acc) == entries[m].0
    ensures forall j :: 0 <= j < m ==> entries[j].1 < entries[m].1
    ensures Lookup(obj, acc) < entries[m].1
    decreases |entries|
  {
    var (k, v) := entries[0];
    var acc' := if v > Lookup(obj, acc) then k else acc;
    var rest := entries[1..];
    if v > Lookup(obj, acc) {
      if exists j :: 0 <= j < |rest| && rest[j].1 > Lookup(obj, acc') {
        var m' := ReduceFirstMaximum(rest, obj, acc');
        m := m' + 1;
      } else {
        ReduceBounds(rest, obj, acc');
        m := 0;
      }
    } else {
      var j0 :| 0 <= j0 < |entries| && entries[j0].1 > Lookup(obj, acc);
      assert rest[j0 - 1] == entries[j0];
      var m' := ReduceFirstMaximum(rest, obj, acc');
      m := m' + 1;
    }
  }

  /**
   * The dominant label's value (0 when absent) is at least every value;
   * the result is "neutral" exactly when no value exceeds neutral's value
   * (0 when absent), and otherwise the earliest key of maximal value.
   */
  lemma DominantFacts(obj: Entries)
    requires DistinctKeys(obj)
    ensures forall j :: 0 <= j < |obj| ==> obj[j].1 <= Lookup(obj, DominantOf(obj))
    ensures DominantOf(obj) == "neutral" <==> forall j :: 0 <= j < |obj| ==> obj[j].1 <= Lookup(obj, "neutral")
    ensures DominantOf(obj) != "neutral" ==>
      exists m :: 0 <= m < |obj| && DominantOf(obj) == obj[m].0
        && (forall j :: 0 <= j < m ==> obj[j].1 < obj[m].1)
        && (forall j :: 0 <= j < |obj| ==> obj[j].1 <= obj[m].1)
  {
    forall j | 0 <= j < |obj| ensures Lookup(obj, obj[j].0) == obj[j].1 {
      LookupAt(obj, j);
    }
    ReduceFacts(obj, obj, "neutral");
    if exists j :: 0 <= j < |obj| && obj[j].1 > Lookup(obj, "neutral") {
      var m :| 0 <= m < |obj| && DominantOf(obj) == obj[m].0
        && (forall j :: 0 <= j < m ==> obj[j].1 < obj[m].1) && Lookup(obj, "neutral") < obj[m].1;
      LookupAt(obj, m);
      assert obj[m].0 != "neutral";
    }
  }

  /** An entry of `summary.recent`, of which the chat needs the `dominant` label. */
  datatype RecentEntry = RecentEntry(timestamp: string, dominant: string)

  /** The parts of the dashboard summary the chat inputs are derived from. */
  datatype Summary = Summary(lastDetection: Option<Entries>, recent: Option<seq<RecentEntry>>)

  /** The two props handed to the chat panel. */
  datatype ChatInputs = ChatInputs(currentEmotion: string, emotionHistory: seq<string>)

  /**
   * `currentEmotion`: the dominant label of the last detection, or "" when
   * there is none; `emotionHistory`: the `dominant` of each recent entry in
   * order, or the empty list. `summary` is None before it has loaded.
   */
  function ChatInputsOf(summary: Option<Summary>): (c: ChatInputs)
    ensures summary.None? || summary.value.lastDetection.None? ==> c.currentEmotion == ""
    ensures summary.Some? && summary.value.lastDetection.Some? ==> c.currentEmotion == DominantOf(summary.value.lastDetection.value)
    ensures summary.None? || summary.value.recent.None? ==> c.emotionHistory == []
    ensures summary.Some? && summary.value.recent.Some? ==>
      |c.emotionHistory| == |summary.value.recent.value|
      && forall i :: 0 <= i < |c.emotionHistory| ==> c.emotionHistory[i] == summary.value.recent.value[i].dominant
  {
    match summary
    case None => ChatInputs("", [])
    case Some(s) =>
      var current := if s.lastDetection.Some? then DominantOf(s.lastDetection.value) else "";
      var history :=
        if s.recent.Some? then
          var rs := s.recent.value;
          seq(|rs|, i requires 0 <= i < |rs| => rs[i].dominant)
        else [];
      ChatInputs(current, history)
  }

  /** Equal top values: neutral keeps its place even when listed later. */
  lemma TieFavoursNeutral()
    ensures DominantOf([("happy", 50.0), ("neutral", 50.0)]) == "neutral"
    ensures DominantOf([("happy", 60.0), ("neutral", 50.0)]) == "happy"
    ensures DominantOf([("sad", 40.0), ("happy", 40.0)]) == "sad"
  {
  }
}
