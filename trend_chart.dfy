/**
 * EmotionTrendLineChart (components/dashboard/EmotionTrendLineChart.tsx):
 * the label/index tables, the filter of well-formed entries and the data
 * points of the line chart.
 */
module TrendChart {
  import opened Wrappers
  import opened Emotions

  /** `emotionMap`: each of the seven labels to its row on the y axis. */
  const EmotionMap: map<string, nat> :=
    map["happy" := 0, "sad" := 1, "angry" := 2, "fearful" := 3, "disgusted" := 4, "surprised" := 5, "neutral" := 6]

  /** `emotionLabels[emotionMap[e]] == e`, and the map is onto 0..6. */
  lemma LabelsAndMapAreInverse()
    ensures EmotionMap.Keys == set l | l in Labels
    ensures forall e :: e in EmotionMap ==> EmotionMap[e] < |Labels| && Labels[EmotionMap[e]] == e
    ensures forall i :: 0 <= i < |Labels| ==> Labels[i] in EmotionMap && EmotionMap[Labels[i]] == i
  {
  }

  /**
   * One entry of `recent` as received: `null`, or an object whose
   * `dominant` and `timestamp` are None when they are not strings.
   */
  datatype RawEntry = NullEntry | Entry(dominant: Option<string>, timestamp: Option<string>)

  /** The filter `r && typeof r.dominant === "string" && typeof r.timestamp === "string"`. */
  predicate IsValid(r: RawEntry)
  {
    r.Entry? && r.dominant.Some? && r.timestamp.Some?
  }

  /** `recent.filter(...)`: the well-formed entries, in their original order. */
  function ValidEntries(recent: seq<RawEntry>): (v: seq<RawEntry>)
    ensures |v| <= |recent|
    ensures forall i :: 0 <= i < |v| ==> IsValid(v[i])
  {
    if recent == [] then []
    else
      var p := ValidEntries(recent[..|recent| - 1]);
      var x := recent[|recent| - 1];
      if IsValid(x) then p + [x] else p
  }

  /** The filter keeps exactly the valid entries: every valid entry, and each as often as it occurs. */
  lemma {:induction false} ValidEntriesExact(recent: seq<RawEntry>)
    ensures forall x :: x in ValidEntries(recent) <==> x in recent && IsValid(x)
    ensures forall x :: IsValid(x) ==> multiset(ValidEntries(recent))[x] == multiset(recent)[x]
  {
    if recent != [] {
      var p := recent[..|recent| - 1];
      ValidEntriesExact(p);
      assert recent == p + [recent[|recent| - 1]];
    }
  }

  /** The filter keeps order: its result is the valid entries picked out at increasing positions. */
  lemma {:induction false} ValidEntriesInOrder(recent: seq<RawEntry>) returns (pick: seq<nat>)
    ensures |pick| == |ValidEntries(recent)|
    ensures forall i :: 0 <= i < |pick| ==> pick[i] < |recent| && recent[pick[i]] == ValidEntries(recent)[i]
    ensures forall i, j :: 0 <= i < j < |pick| ==> pick[i] < pick[j]
  {
    if recent == [] {
      pick := [];
    } else {
      var p := recent[..|recent| - 1];
      pick := ValidEntriesInOrder(p);
      if IsValid(recent[|recent| - 1]) {
        pick := pick + [|recent| - 1];
      }
    }
  }

  /** `emotionMap[d] ?? 6`, for a lookup that sees only the seven own keys of the table. */
  function PlotValue(d: string): (y: nat)
    ensures y <= 6
    ensures d in EmotionMap ==> Labels[y] == d
    ensures d !in EmotionMap ==> y == 6
  {
    if d in EmotionMap then EmotionMap[d] else 6
  }

  /**
   * What a property read on the object literal `emotionMap` yields in
   * JavaScript: a number for the seven own keys, and for a name inherited
   * from Object.prototype a function (or, for `__proto__`, the prototype
   * object), which `??` keeps because it is neither null nor undefined.
   */
  datatype JsValue = Num(n: nat) | Inherited(name: string)

  /** Property names every plain object inherits from Object.prototype. */
  const ObjectPrototypeMembers: set<string> :=
    {"constructor", "hasOwnProperty", "isPrototypeOf", "propertyIsEnumerable", "toLocaleString",
     "toString", "valueOf", "__proto__", "__defineGetter__", "__defineSetter__",
     "__lookupGetter__", "__lookupSetter__"}

  /** `emotionMap[r.dominant] ?? 6` as the source evaluates it. */
  function PlotValueAsWritten(d: string): JsValue
  {
    if d in EmotionMap then Num(EmotionMap[d])
    else if d in ObjectPrototypeMembers then Inherited(d)
    else Num(6)
  }

  /** A dominant of "toString" is plotted as a function, not as 6. */
  lemma AsWrittenPlotsInheritedMember()
    ensures PlotValueAsWritten("toString") == Inherited("toString")
  {
  }

  /** Outside the inherited names the as-written lookup is the corrected one. */
  lemma AsWrittenAgreesElsewhere(d: string)
    requires d !in ObjectPrototypeMembers
    ensures PlotValueAsWritten(d) == Num(PlotValue(d))
  {
  }

  /** What the component renders. */
  datatype TrendView = NoTrendData | Chart(labels: seq<string>, data: seq<nat>)

  /**
   * The component: the "No trend data" text for a non-array or empty
   * `recent` (None is "not an array"); otherwise one point per valid entry,
   * labelled with its timestamp.
   */
  function TrendLine(recent: Option<seq<RawEntry>>): (v: TrendView)
    ensures recent.None? || recent.value == [] <==> v.NoTrendData?
    ensures v.Chart? ==> |v.labels| == |v.data| == |ValidEntries(recent.value)|
    ensures v.Chart? ==> forall i :: 0 <= i < |v.data| ==> v.data[i] <= 6
  {
    if recent.None? || recent.value == [] then NoTrendData
    else
      var valid := ValidEntries(recent.value);
      Chart(seq(|valid|, i requires 0 <= i < |valid| => valid[i].timestamp.value),
            seq(|valid|, i requires 0 <= i < |valid| => PlotValue(valid[i].dominant.value)))
  }

  /** Each point is the valid entry's timestamp and its label's row, 6 for anything unknown. */
  lemma TrendPoints(recent: seq<RawEntry>, i: nat)
    requires recent != [] && i < |ValidEntries(recent)|
    ensures var v := TrendLine(Some(recent)); var e := ValidEntries(recent)[i];
            v.labels[i] == e.timestamp.value
            && (e.dominant.value in Labels ==> Labels[v.data[i]] == e.dominant.value)
            && (e.dominant.value !in Labels ==> v.data[i] == 6)
  {
    assert ValidEntries(recent)[i] in ValidEntries(recent);
  }
}
