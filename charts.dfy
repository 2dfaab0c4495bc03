/**
 * The rolling series buffer of the dashboard client (static/js/ws_client.js).
 *
 * Two charts share six parallel arrays: the value chart's labels, data and
 * point colours, and the score chart's labels, data and point colours.
 * `pushPoint` appends one point and evicts the oldest once there are more
 * than 200; `setBulk` replaces everything; the threshold handler recolours
 * the stored scores. `Series` is the value of the six arrays and the
 * functions over it are the reference definitions that the `ChartState`
 * methods, which update the arrays in place, are proved against.
 */
module Charts {
  import opened JsValue
  import opened Smoothing
  import opened Messages
  import Upload

  /** `maxPoints`: the streaming capacity. */
  const MaxPoints: nat := 200

  datatype Series = Series(
    valueLabels: seq<int>, valueData: seq<Num>, valueColours: seq<Colour>,
    scoreLabels: seq<int>, scoreData: seq<Num>, scoreColours: seq<Colour>)

  const Empty := Series([], [], [], [], [], [])

  /** The inputs the source reads from the page: channel selector, threshold, smoothing checkbox and window. */
  datatype Controls = Controls(channel: int, threshold: ThresholdField, smoothing: bool, window: int)

  /** One streamed point: the value and the score handed to `pushPoint`. */
  datatype Point = Point(value: Num, score: Num)

  function Size(s: Series): nat
  {
    |s.valueLabels|
  }

  /** lo, lo + 1, ..., hi - 1. */
  function Range(lo: int, hi: int): (r: seq<int>)
    ensures |r| == if hi > lo then hi - lo else 0
  {
    seq(if hi > lo then hi - lo else 0, i => lo + i)
  }

  predicate Consecutive(labels: seq<int>)
  {
    forall i :: 0 <= i < |labels| ==> labels[i] == labels[0] + i
  }

  /**
   * The shape every reachable state has: six arrays of one length, the same
   * labels on both charts, labels consecutive from a non-negative start, and
   * every value point neutral.
   */
  predicate Aligned(s: Series)
  {
    && |s.valueData| == Size(s) && |s.valueColours| == Size(s)
    && |s.scoreData| == Size(s) && |s.scoreColours| == Size(s)
    && s.scoreLabels == s.valueLabels
    && (forall i :: 0 <= i < |s.valueColours| ==> s.valueColours[i] == Neutral)
    && Consecutive(s.valueLabels)
    && (Size(s) > 0 ==> s.valueLabels[0] >= 0)
  }

  /** Every stored score is coloured against one threshold. */
  predicate ColouredBy(s: Series, th: Threshold)
  {
    |s.scoreColours| == |s.scoreData|
    && forall i :: 0 <= i < |s.scoreData| ==> s.scoreColours[i] == ScoreColour(s.scoreData[i], th)
  }

  // ---------------------------------------------------------------------
  // pushPoint (ws_client.js:13-31)

  /** `parseInt(labels[labels.length - 1]) + 1`, or 0 on an empty chart. */
  function NextLabel(labels: seq<int>): int
  {
    if |labels| > 0 then labels[|labels| - 1] + 1 else 0
  }

  /** `Array.prototype.shift`, keeping what remains. */
  function Shift<T>(a: seq<T>): seq<T>
  {
    if a == [] then a else a[1..]
  }

  /** The six arrays after `pushPoint(value, score)` with threshold `th`. */
  function Pushed(s: Series, value: Num, score: Num, th: Threshold): Series
  {
    var next := NextLabel(s.valueLabels);
    var grown := Series(
      s.valueLabels + [next], s.valueData + [value], s.valueColours + [Neutral],
      s.scoreLabels + [next], s.scoreData + [score], s.scoreColours + [ScoreColour(score, th)]);
    if |grown.valueLabels| > MaxPoints then
      Series(Shift(grown.valueLabels), Shift(grown.valueData), Shift(grown.valueColours),
             Shift(grown.scoreLabels), Shift(grown.scoreData), Shift(grown.scoreColours))
    else grown
  }

  /**
   * `pushPoint` keeps the arrays aligned, appends the new point with label
   * last + 1 (0 on an empty chart) and colour red iff score > threshold, and
   * when the length passes 200 removes exactly the oldest entry of every
   * array. So a buffer of at most 200 points stays at most 200.
   */
  lemma PushKeepsFifo(s: Series, value: Num, score: Num, th: Threshold)
    requires Aligned(s)
    ensures var r := Pushed(s, value, score, th);
      var d := if Size(s) >= MaxPoints then 1 else 0;
      && Aligned(r)
      && Size(r) == Size(s) + 1 - d
      && (Size(s) <= MaxPoints ==> Size(r) <= MaxPoints)
      && r.valueLabels == s.valueLabels[d..] + [NextLabel(s.valueLabels)]
      && r.valueData == s.valueData[d..] + [value]
      && r.scoreData == s.scoreData[d..] + [score]
      && r.scoreColours == s.scoreColours[d..] + [ScoreColour(score, th)]
  {
    var r := Pushed(s, value, score, th);
    var next := NextLabel(s.valueLabels);
    var grown := s.valueLabels + [next];
    assert Consecutive(grown) by {
      if Size(s) > 0 {
        assert next == s.valueLabels[0] + Size(s);
      }
    }
    if Size(s) >= MaxPoints {
      assert r.valueLabels == grown[1..];
      assert Consecutive(grown[1..]) by {
        forall i | 0 <= i < |grown| - 1
          ensures grown[1..][i] == grown[1..][0] + i
        {
          assert grown[i + 1] == grown[0] + i + 1;
        }
      }
      assert s.valueData[1..] + [value] == (s.valueData + [value])[1..];
      assert s.scoreData[1..] + [score] == (s.scoreData + [score])[1..];
      assert s.valueLabels[1..] + [next] == grown[1..];
      assert s.scoreColours[1..] + [ScoreColour(score, th)] == (s.scoreColours + [ScoreColour(score, th)])[1..];
    } else {
      assert s.valueData[0..] == s.valueData;
      assert s.scoreData[0..] == s.scoreData;
      assert s.valueLabels[0..] == s.valueLabels;
      assert s.scoreColours[0..] == s.scoreColours;
    }
  }

  /** `points` pushed one after the other, all against threshold `th`. */
  function PushAll(s: Series, points: seq<Point>, th: Threshold): Series
    decreases |points|
  {
    if points == [] then s
    else
      var last := points[|points| - 1];
      Pushed(PushAll(s, points[..|points| - 1], th), last.value, last.score, th)
  }

  /** The stored (value, score) pairs, oldest first. */
  function PointsOf(s: Series): (r: seq<Point>)
    requires |s.scoreData| == |s.valueData|
    ensures |r| == |s.valueData|
  {
    seq(|s.valueData|, i requires 0 <= i < |s.valueData| => Point(s.valueData[i], s.scoreData[i]))
  }

  /** Dropping d more from the front of a suffix and appending the next element gives the next suffix. */
  lemma SuffixStep<T>(xs: seq<T>, k: nat, d: nat)
    requires |xs| > 0 && k + d <= |xs| - 1
    ensures xs[..|xs| - 1][k..][d..] + [xs[|xs| - 1]] == xs[k + d..]
  {
  }

  lemma RangeStep(k: int, d: nat, n: int)
    requires k + d <= n
    ensures Range(k, n)[d..] + [n] == Range(k + d, n + 1)
  {
  }

  /** max(0, n - 200): how many of n pushes onto an empty chart have been evicted. */
  function Evicted(n: nat): nat
  {
    if n > MaxPoints then n - MaxPoints else 0
  }

  /** n pushes onto an empty chart leave min(n, 200) aligned points labelled max(0, n - 200), ..., n - 1. */
  lemma {:induction false} PushAllLabels(points: seq<Point>, th: Threshold)
    ensures var r := PushAll(Empty, points, th);
      Aligned(r) && r.valueLabels == Range(Evicted(|points|), |points|)
    decreases |points|
  {
    var n := |points|;
    if n > 0 {
      var prefix := points[..n - 1];
      PushAllLabels(prefix, th);
      var p := PushAll(Empty, prefix, th);
      PushKeepsFifo(p, points[n - 1].value, points[n - 1].score, th);
      assert NextLabel(p.valueLabels) == n - 1;
      RangeStep(Evicted(n - 1), if Size(p) >= MaxPoints then 1 else 0, n - 1);
    }
  }

  /**
   * n pushes onto an empty chart keep the last min(n, 200) values and scores
   * in arrival order: the oldest max(0, n - 200) were evicted first.
   */
  lemma {:induction false} PushAllKeepsNewest(points: seq<Point>, th: Threshold)
    ensures var r := PushAll(Empty, points, th);
      Aligned(r) && PointsOf(r) == points[Evicted(|points|)..]
    decreases |points|
  {
    var n := |points|;
    if n > 0 {
      var prefix := points[..n - 1];
      var p := PushAll(Empty, prefix, th);
      var d := if Size(p) >= MaxPoints then 1 else 0;
      assert prefix + [points[n - 1]] == points;
      PushStep(prefix, points[n - 1], th);
      PushAllKeepsNewest(prefix, th);
      SuffixStep(points, Evicted(n - 1), d);
    }
  }

  /** A push seen as (value, score) pairs: the oldest pair is dropped past 200 and the new one appended. */
  lemma PushedPoints(s: Series, value: Num, score: Num, th: Threshold)
    requires Aligned(s)
    ensures var r := Pushed(s, value, score, th);
      var d := if Size(s) >= MaxPoints then 1 else 0;
      Aligned(r) && PointsOf(r) == PointsOf(s)[d..] + [Point(value, score)]
  {
    PushKeepsFifo(s, value, score, th);
    var r := Pushed(s, value, score, th);
    var d := if Size(s) >= MaxPoints then 1 else 0;
    var expected := PointsOf(s)[d..] + [Point(value, score)];
    assert |PointsOf(r)| == |expected|;
    forall i | 0 <= i < |expected|
      ensures PointsOf(r)[i] == expected[i]
    {
      if i < |expected| - 1 {
        assert r.valueData[i] == s.valueData[d + i];
        assert r.scoreData[i] == s.scoreData[d + i];
      }
    }
  }

  /** One more push onto a pushed-from-empty chart drops d = 0 or 1 points, and the evicted count grows by d. */
  lemma PushStep(prefix: seq<Point>, last: Point, th: Threshold)
    ensures var p := PushAll(Empty, prefix, th);
      var r := PushAll(Empty, prefix + [last], th);
      var d := if Size(p) >= MaxPoints then 1 else 0;
      && Aligned(p) && Aligned(r)
      && PointsOf(r) == PointsOf(p)[d..] + [last]
      && Evicted(|prefix|) + d == Evicted(|prefix| + 1)
  {
    var p := PushAll(Empty, prefix, th);
    assert (prefix + [last])[..|prefix|] == prefix;
    assert PushAll(Empty, prefix + [last], th) == Pushed(p, last.value, last.score, th);
    PushAllLabels(prefix, th);
    PushedPoints(p, last.value, last.score, th);
  }

  /** When every push uses one threshold, every stored score is coloured against it. */
  lemma {:induction false} PushAllColours(points: seq<Point>, th: Threshold)
    ensures ColouredBy(PushAll(Empty, points, th), th)
    decreases |points|
  {
    var n := |points|;
    if n > 0 {
      var prefix := points[..n - 1];
      PushAllColours(prefix, th);
      PushAllLabels(prefix, th);
      var p := PushAll(Empty, prefix, th);
      var last := points[n - 1];
      PushKeepsFifo(p, last.value, last.score, th);
      var d := if Size(p) >= MaxPoints then 1 else 0;
      var r := Pushed(p, last.value, last.score, th);
      forall i | 0 <= i < |r.scoreData|
        ensures r.scoreColours[i] == ScoreColour(r.scoreData[i], th)
      {
        if i < |r.scoreData| - 1 {
          assert r.scoreColours[i] == p.scoreColours[d + i];
          assert r.scoreData[i] == p.scoreData[d + i];
        }
      }
    }
  }

  // ---------------------------------------------------------------------
  // setBulk (ws_client.js:33-66)

  /** `Array.isArray(v) ? v : [v]`. */
  function Raw(c: Cell): seq<Num>
  {
    match c
    case Vector(xs) => xs
    case Scalar(x) => [x]
  }

  /** `raw[ch] ?? raw[0]`: the selected channel, falling back to the first when it is undefined. */
  function Pick(raw: seq<Num>, ch: int): Num
  {
    if At(raw, ch).Number? then At(raw, ch) else At(raw, 0)
  }

  /** The plotted value of every row. */
  function Projected(values: seq<Cell>, ch: int): (r: seq<Num>)
    ensures |r| == |values|
  {
    seq(|values|, i requires 0 <= i < |values| => Pick(Raw(values[i]), ch))
  }

  /** `scores[i]` for i < n: extra scores ignored, missing ones undefined. */
  function ScoresFor(scores: seq<Num>, n: nat): (r: seq<Num>)
    ensures |r| == n
  {
    seq(n, i requires 0 <= i < n => At(scores, i))
  }

  function ColoursOf(scores: seq<Num>, th: Threshold): (r: seq<Colour>)
    ensures |r| == |scores|
  {
    seq(|scores|, i requires 0 <= i < |scores| => ScoreColour(scores[i], th))
  }

  function Neutrals(n: nat): (r: seq<Colour>)
    ensures |r| == n
  {
    seq(n, _ => Neutral)
  }

  /** The six arrays after `setBulk(values, scores)`. */
  function Bulk(values: seq<Cell>, scores: seq<Num>, c: Controls): Series
  {
    var n := |values|;
    var projected := Projected(values, c.channel);
    var stored := ScoresFor(scores, n);
    Series(
      Range(0, n), if c.smoothing then Smoothed(projected, c.window) else projected, Neutrals(n),
      Range(0, n), stored, ColoursOf(stored, InsertThreshold(c.threshold)))
  }

  /**
   * `setBulk` discards the old contents: the result has one point per value
   * (no 200-point cap), labels 0..n-1 on both charts, the i-th score at
   * point i, each score red iff above the threshold, and each value the
   * selected channel of its row (falling back to channel 0), smoothed when
   * smoothing is on.
   */
  lemma BulkReplaces(values: seq<Cell>, scores: seq<Num>, c: Controls)
    ensures var r := Bulk(values, scores, c); var n := |values|;
      && Aligned(r)
      && Size(r) == n
      && r.valueLabels == Range(0, n)
      && ColouredBy(r, InsertThreshold(c.threshold))
      && (forall i :: 0 <= i < n ==> r.scoreData[i] == At(scores, i))
      && (!c.smoothing ==> forall i :: 0 <= i < n ==> r.valueData[i] == Pick(Raw(values[i]), c.channel))
      && (c.smoothing ==> r.valueData == Smoothed(Projected(values, c.channel), c.window))
  {
  }

  /** Scores beyond the last value are never read. */
  lemma BulkIgnoresExtraScores(values: seq<Cell>, scores: seq<Num>, extra: seq<Num>, c: Controls)
    requires |scores| >= |values|
    ensures Bulk(values, scores + extra, c) == Bulk(values, scores, c)
  {
    assert ScoresFor(scores + extra, |values|) == ScoresFor(scores, |values|);
  }

  /** A scalar is a one-channel row: any channel selection gives back the scalar. */
  lemma PickScalar(x: Num, ch: int)
    ensures Pick(Raw(Scalar(x)), ch) == x
    ensures Pick([x], ch) == x
  {
  }

  // ---------------------------------------------------------------------
  // Threshold edit (ws_client.js:177-183)

  /** The arrays after the threshold handler: every stored score recoloured. */
  function Recoloured(s: Series, th: Threshold): Series
  {
    s.(scoreColours := ColoursOf(s.scoreData, th))
  }

  /** A threshold edit changes no data and no label, keeps the shape, and colours every stored score against the new threshold. */
  lemma RecolourOnlyColours(s: Series, th: Threshold)
    requires Aligned(s)
    ensures var r := Recoloured(s, th);
      && Aligned(r) && ColouredBy(r, th)
      && r.valueLabels == s.valueLabels && r.scoreLabels == s.scoreLabels
      && r.valueData == s.valueData && r.scoreData == s.scoreData
      && r.valueColours == s.valueColours
  {
  }

  // ---------------------------------------------------------------------
  // Socket messages (ws_client.js:80-96)

  /** The arrays after one socket frame. */
  function Received(s: Series, m: Message, c: Controls): Series
  {
    match Classify(m)
    case Keep => s
    case Reset(values, scores) => Bulk(values, scores, c)
    case Append(value, score) => Pushed(s, value, score, InsertThreshold(c.threshold))
  }

  /**
   * A frame carrying only scores appends exactly one point, with value 0 and
   * the last score; a frame with neither field, or one that does not parse,
   * leaves the buffer as it was.
   */
  lemma ReceiveScoresOnly(s: Series, scores: seq<Num>, c: Controls)
    requires Aligned(s)
    ensures var r := Received(s, Message(Missing, List(scores)), c);
      var d := if Size(s) >= MaxPoints then 1 else 0;
      && Aligned(r)
      && r.valueData == s.valueData[d..] + [Number(0.0)]
      && r.scoreData == s.scoreData[d..] + [At(scores, |scores| - 1)]
    ensures Received(s, Message(Missing, Missing), c) == s
    ensures Received(s, Unparsable, c) == s
  {
    PushKeepsFifo(s, Number(0.0), At(scores, |scores| - 1), InsertThreshold(c.threshold));
  }

  /** Every frame leaves the arrays aligned. */
  lemma ReceiveKeepsAligned(s: Series, m: Message, c: Controls)
    requires Aligned(s)
    ensures Aligned(Received(s, m, c))
  {
    match Classify(m)
    case Keep =>
    case Reset(values, scores) => BulkReplaces(values, scores, c);
    case Append(value, score) => PushKeepsFifo(s, value, score, InsertThreshold(c.threshold));
  }

  // ---------------------------------------------------------------------
  // Sessions and channel change (ws_client.js:157-174)

  /** `{values: data, scores: data}` as saved under 'md_session'. */
  datatype Session = Session(values: seq<Num>, scores: seq<Num>)

  /** `localStorage.getItem('md_session')`: nothing saved, or a saved session. */
  datatype SavedSlot = NoSession | Stored(session: Session)

  function Snapshot(s: Series): Session
  {
    Session(s.valueData, s.scoreData)
  }

  /** `setBulk(sess.values.map(v => Array.isArray(v) ? v : [v]), sess.scores)`. */
  function Reloaded(sess: Session, c: Controls): Series
  {
    Bulk(Wrapped(sess.values), sess.scores, c)
  }

  /** `values.map(v => Array.isArray(v) ? v : [v])` over stored scalars. */
  function Wrapped(values: seq<Num>): (cells: seq<Cell>)
    ensures |cells| == |values|
  {
    seq(|values|, i requires 0 <= i < |values| => Vector([values[i]]))
  }

  /**
   * Reloading a snapshot with smoothing off gives back the same value and
   * score sequences, relabelled 0..n-1, whatever channel is selected.
   */
  lemma {:induction false} SessionRoundTrip(s: Series, c: Controls)
    requires Aligned(s) && !c.smoothing
    ensures var r := Reloaded(Snapshot(s), c);
      && Aligned(r)
      && r.valueData == s.valueData
      && r.scoreData == s.scoreData
      && r.valueLabels == Range(0, Size(s))
      && ColouredBy(r, InsertThreshold(c.threshold))
  {
    var sess := Snapshot(s);
    BulkReplaces(Wrapped(sess.values), sess.scores, c);
    var r := Reloaded(sess, c);
    forall i | 0 <= i < Size(s)
      ensures r.valueData[i] == s.valueData[i]
    {
      PickScalar(s.valueData[i], c.channel);
    }
  }

  /**
   * The channel-change handler passes the score chart's own data array as
   * `scores`, and `setBulk` empties that array before it reads it. So the
   * reload reads every score past the end of an empty array: the values
   * survive (relabelled 0..n-1, smoothed when smoothing is on), and every
   * score becomes `undefined` and is painted neutral, whatever the threshold.
   */
  lemma ChannelChangeDropsScores(values: seq<Num>, c: Controls)
    ensures var r := Bulk(Wrapped(values), [], c);
      && Aligned(r)
      && Size(r) == |values|
      && r.valueLabels == Range(0, |values|)
      && (forall i :: 0 <= i < |values| ==> r.scoreData[i] == Undefined && r.scoreColours[i] == Neutral)
      && (!c.smoothing ==> r.valueData == values)
      && (c.smoothing ==> r.valueData == Smoothed(values, c.window))
  {
    BulkReplaces(Wrapped(values), [], c);
    var r := Bulk(Wrapped(values), [], c);
    assert Projected(Wrapped(values), c.channel) == values by {
      forall i | 0 <= i < |values|
        ensures Projected(Wrapped(values), c.channel)[i] == values[i]
      {
        PickScalar(values[i], c.channel);
      }
    }
  }

  // ---------------------------------------------------------------------
  // Upload (ws_client.js:114-127)

  /** `rows.map(r => r.split(',').map(Number))`, with `Number` given as `number`. */
  function UploadCells(text: string, number: string -> real): (cells: seq<Cell>)
    ensures |cells| == |Upload.UploadRows(text)|
  {
    var rows := Upload.UploadRows(text);
    seq(|rows|, i requires 0 <= i < |rows| =>
      Vector(seq(|rows[i]|, j requires 0 <= j < |rows[i]| => Number(number(rows[i][j])))))
  }

  /** The arrays after an upload whose response carried `scores` (changed only when that field is truthy). */
  function Uploaded(s: Series, text: string, scores: Field<Num>, number: string -> real, c: Controls): Series
  {
    if scores.List? then Bulk(UploadCells(text, number), scores.items, c) else s
  }

  /**
   * An upload of n + 1 lines plots n points, one per line after the first,
   * the first field of each line being channel 0.
   */
  lemma UploadPlotsLinesAfterFirst(s: Series, text: string, scores: seq<Num>, number: string -> real, c: Controls)
    ensures var r := Uploaded(s, text, List(scores), number, c);
      && Aligned(r)
      && Size(r) == |Upload.Lines(text)| - 1
      && r.valueLabels == Range(0, |Upload.Lines(text)| - 1)
  {
    BulkReplaces(UploadCells(text, number), scores, c);
  }

  // ---------------------------------------------------------------------
  // The module-level arrays, updated in place.

  class ChartState {
    var valueLabels: seq<int>
    var valueData: seq<Num>
    var valueColours: seq<Colour>
    var scoreLabels: seq<int>
    var scoreData: seq<Num>
    var scoreColours: seq<Colour>

    function Contents(): Series
      reads this
    {
      Series(valueLabels, valueData, valueColours, scoreLabels, scoreData, scoreColours)
    }

    ghost predicate Valid()
      reads this
    {
      Aligned(Contents())
    }

    /** Both charts start empty. */
    constructor ()
      ensures Valid() && Contents() == Empty
    {
      valueLabels, valueData, valueColours := [], [], [];
      scoreLabels, scoreData, scoreColours := [], [], [];
    }

    /** `pushPoint(value, score)`: push onto all six arrays, then shift them all once past 200. */
    method PushPoint(value: Num, score: Num, field: ThresholdField)
      requires Valid()
      modifies this
      ensures Valid()
      ensures Contents() == Pushed(old(Contents()), value, score, InsertThreshold(field))
    {
      ghost var before := Contents();
      var next := if |valueLabels| > 0 then valueLabels[|valueLabels| - 1] + 1 else 0;
      valueLabels := valueLabels + [next];
      valueData := valueData + [value];
      scoreLabels := scoreLabels + [next];
      scoreData := scoreData + [score];
      var t := InsertThreshold(field);
      scoreColours := scoreColours + [if score.Number? && t.Finite? && score.value > t.t then Alarm else Neutral];
      valueColours := valueColours + [Neutral];
      if |valueLabels| > MaxPoints {
        valueLabels := valueLabels[1..];
        valueData := valueData[1..];
        valueColours := valueColours[1..];
        scoreLabels := scoreLabels[1..];
        scoreData := scoreData[1..];
        scoreColours := scoreColours[1..];
      }
      PushKeepsFifo(before, value, score, t);
    }

    /** `setBulk(values, scores)`: empty the six arrays, then fill them in one pass, then smooth. */
    method SetBulk(values: seq<Cell>, scores: seq<Num>, c: Controls)
      modifies this
      ensures Valid()
      ensures Contents() == Bulk(values, scores, c)
    {
      valueLabels, valueData, valueColours := [], [], [];
      scoreLabels, scoreData, scoreColours := [], [], [];
      var n := |values|;
      var t := InsertThreshold(c.threshold);
      for i := 0 to n
        invariant |valueLabels| == |valueData| == |valueColours| == i
        invariant |scoreLabels| == |scoreData| == |scoreColours| == i
        invariant forall j :: 0 <= j < i ==> valueLabels[j] == j && scoreLabels[j] == j
        invariant forall j :: 0 <= j < i ==> valueData[j] == Pick(Raw(values[j]), c.channel)
        invariant forall j :: 0 <= j < i ==> valueColours[j] == Neutral
        invariant forall j :: 0 <= j < i ==> scoreData[j] == At(scores, j)
        invariant forall j :: 0 <= j < i ==> scoreColours[j] == ScoreColour(scoreData[j], t)
      {
        valueLabels := valueLabels + [i];
        var raw := Raw(values[i]);
        valueData := valueData + [Pick(raw, c.channel)];
        valueColours := valueColours + [Neutral];
        scoreLabels := scoreLabels + [i];
        var score := At(scores, i);
        scoreData := scoreData + [score];
        scoreColours := scoreColours + [ScoreColour(score, t)];
      }
      assert valueLabels == Range(0, n) && scoreLabels == Range(0, n);
      assert valueData == Projected(values, c.channel);
      assert valueColours == Neutrals(n);
      assert scoreData == ScoresFor(scores, n);
      assert scoreColours == ColoursOf(scoreData, t);
      if c.smoothing {
        valueData := ApplySmoothing(valueData, c.window);
      }
      BulkReplaces(values, scores, c);
    }

    /** `ws.onmessage`: reset, append or ignore, as `Classify` decides. */
    method OnMessage(m: Message, c: Controls)
      requires Valid()
      modifies this
      ensures Valid()
      ensures Contents() == Received(old(Contents()), m, c)
    {
      match Classify(m)
      case Keep =>
      case Reset(values, scores) => SetBulk(values, scores, c);
      case Append(value, score) => PushPoint(value, score, c.threshold);
    }

    /** The threshold `input` handler: `pointBackgroundColor = data.map(s => s > t ? red : neutral)`. */
    method OnThresholdEdit(field: ThresholdField)
      requires Valid()
      modifies this
      ensures Valid()
      ensures Contents() == Recoloured(old(Contents()), EditThreshold(field))
    {
      var t := EditThreshold(field);
      var data := scoreData;
      scoreColours := seq(|data|, i requires 0 <= i < |data| => ScoreColour(data[i], t));
      RecolourOnlyColours(old(Contents()), t);
    }

    /** The save handler: a snapshot of both data arrays. */
    method SaveSession() returns (sess: Session)
      requires Valid()
      ensures |sess.values| == |sess.scores| == Size(Contents())
      ensures sess == Snapshot(Contents())
    {
      sess := Session(valueData, scoreData);
    }

    /** The load handler: nothing happens when no session was saved. */
    method LoadSession(slot: SavedSlot, c: Controls)
      requires Valid()
      modifies this
      ensures Valid()
      ensures slot.NoSession? ==> Contents() == old(Contents())
      ensures slot.Stored? ==> Contents() == Reloaded(slot.session, c)
    {
      if slot.Stored? {
        var sess := slot.session;
        SetBulk(Wrapped(sess.values), sess.scores, c);
      }
    }

    /**
     * The channel `change` handler: `setBulk` on the wrapped values and on
     * the score chart's data array itself, which `setBulk` has emptied by the
     * time it reads the scores; the argument is that emptied array.
     */
    method OnChannelChange(c: Controls)
      requires Valid()
      modifies this
      ensures Valid()
      ensures Contents() == Bulk(Wrapped(old(valueData)), [], c)
    {
      var vals := valueData;
      SetBulk(Wrapped(vals), [], c);
    }

    /** The upload handler after `/predict` answered: plot the rows against the returned scores. */
    method OnUpload(text: string, scores: Field<Num>, number: string -> real, c: Controls)
      requires Valid()
      modifies this
      ensures Valid()
      ensures Contents() == Uploaded(old(Contents()), text, scores, number, c)
    {
      if scores.List? {
        SetBulk(UploadCells(text, number), scores.items, c);
      }
    }
  }
}
