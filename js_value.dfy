/**
 * The JavaScript values the dashboard client keeps in its chart buffers.
 *
 * A stored value or score is a JavaScript number, or `undefined` when the
 * client read past the end of an array (a score list shorter than the value
 * list, an empty vector row). Comparisons with `undefined` are false, which
 * is what decides a point's colour.
 */
module JsValue {

  /** A chart slot: a number, or `undefined`. */
  datatype Num = Undefined | Number(value: real)

  /** `a[i]` in JavaScript: the element, or `undefined` out of range. */
  function At(a: seq<Num>, i: int): Num
  {
    if 0 <= i < |a| then a[i] else Undefined
  }

  /** Point colours: 'red' marks an alarm, 'rgba(0,0,0,0.1)' is neutral. */
  datatype Colour = Alarm | Neutral

  /** A parsed threshold: a finite number, or NaN (every comparison with it is false). */
  datatype Threshold = Finite(t: real) | NaN

  /** What the threshold input holds: nothing, text that parses to a number, or text that does not. */
  datatype ThresholdField = Blank | Parsed(x: real) | NotNumeric

  /** `parseFloat(field.value || '1.0')`: the reading used when points are inserted. */
  function InsertThreshold(f: ThresholdField): Threshold
  {
    match f
    case Blank => Finite(1.0)
    case Parsed(x) => Finite(x)
    case NotNumeric => NaN
  }

  /** `parseFloat(field.value)`: the reading used by the threshold edit handler. */
  function EditThreshold(f: ThresholdField): Threshold
  {
    match f
    case Parsed(x) => Finite(x)
    case _ => NaN
  }

  /** `score > t ? 'red' : neutral`. */
  function ScoreColour(score: Num, th: Threshold): Colour
  {
    if score.Number? && th.Finite? && score.value > th.t then Alarm else Neutral
  }

  /**
   * The two readings of the threshold field agree except on a blank field,
   * where insertion falls back to 1.0 and the edit handler compares against
   * NaN, so an edit to a blank field paints every stored score neutral.
   */
  lemma ThresholdReadings(f: ThresholdField)
    ensures f != Blank ==> InsertThreshold(f) == EditThreshold(f)
    ensures f == Blank ==> InsertThreshold(f) == Finite(1.0)
    ensures f == Blank ==> forall s :: ScoreColour(s, EditThreshold(f)) == Neutral
  {
  }
}
