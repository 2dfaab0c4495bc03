/**
 * The decision rule of the client's socket `onmessage` handler
 * (static/js/ws_client.js:80-96): a parsed message resets the whole buffer,
 * appends one point, or changes nothing.
 */
module Messages {
  import opened JsValue

  /** An entry of `values`: a scalar, or one row of a multi-channel series. */
  datatype Cell = Scalar(x: Num) | Vector(xs: seq<Num>)

  /**
   * A field of the message: absent (`undefined`), present but falsy (null,
   * false, 0, ""), or an array. Arrays are truthy in JavaScript even when empty.
   */
  datatype Field<T> = Missing | Falsy | List(items: seq<T>)

  /** The payload of one socket frame; `Unparsable` when `JSON.parse` throws. */
  datatype Message = Unparsable | Message(values: Field<Cell>, scores: Field<Num>)

  /** What the handler does to the buffer. */
  datatype Action = Keep | Reset(values: seq<Cell>, scores: seq<Num>) | Append(value: Num, score: Num)

  /** `msg.values || []`. */
  function OrEmpty(f: Field<Cell>): seq<Cell>
  {
    if f.List? then f.items else []
  }

  /** `vals.length ? (isArray(last) ? last[0] : last) : 0`. */
  function LastValue(vals: seq<Cell>): Num
  {
    if |vals| == 0 then Number(0.0)
    else match vals[|vals| - 1]
      case Vector(xs) => At(xs, 0)
      case Scalar(x) => x
  }

  /** `Array(n).fill(0)`. */
  function Zeros(n: nat): (z: seq<Num>)
    ensures |z| == n && forall i :: 0 <= i < n ==> z[i] == Number(0.0)
  {
    seq(n, _ => Number(0.0))
  }

  /** The branch the handler takes for a message. */
  function Classify(m: Message): (a: Action)
    // a parse failure is caught and logged: the buffer is untouched
    ensures m.Unparsable? ==> a == Keep
    // values and scores both present: bulk reset
    ensures m.Message? && m.values.List? && m.scores.List? ==> a == Reset(m.values.items, m.scores.items)
    // values present, scores undefined: bulk reset with a zero score per value
    ensures m.Message? && m.values.List? && m.scores.Missing? ==>
      a == Reset(m.values.items, Zeros(|m.values.items|))
    // scores present, values absent: one append whose value is always 0
    ensures m.Message? && !m.values.List? && m.scores.List? ==>
      a == Append(Number(0.0), At(m.scores.items, |m.scores.items| - 1))
    // values present but scores null/falsy, or neither field: nothing happens
    ensures m.Message? && !m.scores.List? && !(m.values.List? && m.scores.Missing?) ==> a == Keep
  {
    match m
    case Unparsable => Keep
    case Message(values, scores) =>
      if values.List? && scores.List? then Reset(values.items, scores.items)
      else if values.List? && scores.Missing? then Reset(values.items, Zeros(|values.items|))
      else if scores.List? then
        var vals := OrEmpty(values);
        Append(LastValue(vals), At(scores.items, |scores.items| - 1))
      else Keep
  }
}
