/** The dominant facial expression of one face-detection result: the
    `reduce` over `Object.entries(detections.expressions)` in src/App.jsx. */
module Emotion {

  /** One `[name, probability]` entry of the expression map, in map order. */
  datatype Expression = Expression(name: string, probability: real)

  /** What one detection tick yields: no face (or no expression map), or the map's entries. */
  datatype Detection = NoFace | Face(expressions: seq<Expression>)

  /** `k` is the LAST index holding the largest probability: nothing is larger,
      and every later entry is strictly smaller. */
  ghost predicate IsLastMaximum(entries: seq<Expression>, k: int) {
    && 0 <= k < |entries|
    && (forall j :: 0 <= j < |entries| ==> entries[j].probability <= entries[k].probability)
    && (forall j :: k < j < |entries| ==> entries[j].probability < entries[k].probability)
  }

  /** The index the fold `(a, b) => (a[1] > b[1] ? a : b)` ends on. The accumulator
      is replaced unless it is strictly larger, so on a tie the later entry wins. */
  function BestIndex(entries: seq<Expression>): (k: nat)
    requires |entries| > 0
    ensures IsLastMaximum(entries, k)
  {
    if |entries| == 1 then 0
    else
      var k := BestIndex(entries[..|entries| - 1]);
      if entries[k].probability > entries[|entries| - 1].probability then k else |entries| - 1
  }

  /** At most one index is a last maximum, so the fold's answer is fully determined. */
  lemma LastMaximumUnique(entries: seq<Expression>, k: int)
    requires IsLastMaximum(entries, k)
    ensures k == BestIndex(entries)
  {
  }

  /** The emotion after one detection tick. Without a face nothing changes; an empty
      map makes `reduce` throw inside the timer callback, which also leaves it unchanged. */
  function NextEmotion(previous: string, detection: Detection): (r: string)
    ensures detection.NoFace? || |detection.expressions| == 0 ==> r == previous
    ensures detection.Face? && |detection.expressions| > 0 ==>
      exists k :: IsLastMaximum(detection.expressions, k) && r == detection.expressions[k].name
  {
    match detection
    case NoFace => previous
    case Face(entries) =>
      if |entries| == 0 then previous
      else
        var k := BestIndex(entries);
        assert IsLastMaximum(entries, k);
        entries[k].name
  }
}
