/**
 * The numeric buffer of the server's websocket loop
 * (src/maintainance_anomaly_detection/main.py:175-200): a frame that parses
 * as a float is appended, and the list is cut back to its newest 200 entries.
 */
module StreamWindow {

  /** `max_len`. */
  const MaxLen: nat := 200

  /** `s[-n:]` when `len(s) > n`, else `s`: the newest n entries, in arrival order. */
  function Recent(s: seq<real>, n: nat): (r: seq<real>)
    ensures |r| == if |s| > n then n else |s|
    ensures r == s[|s| - |r|..]
  {
    if |s| > n then s[|s| - n..] else s
  }

  /**
   * How a frame was handled. `Table`: the CSV reading and the scoring
   * succeeded, and the scores went back without touching the buffer.
   * `Numeric(v)`: that failed but `float(msg)` gave v. `Garbage`: neither
   * worked and an error reply was sent.
   */
  datatype Frame = Table | Numeric(v: real) | Garbage

  /** `buffer.append(value)` and the trim, on the loop's local list. */
  method Ingest(buffer: seq<real>, value: real) returns (b: seq<real>)
    ensures b == Recent(buffer + [value], MaxLen)
  {
    b := buffer + [value];
    if |b| > MaxLen {
      b := b[|b| - MaxLen..];
    }
  }

  /** After each numeric frame the buffer ends with it and holds at most 200 entries. */
  lemma IngestBounds(buffer: seq<real>, value: real)
    ensures var b := Recent(buffer + [value], MaxLen);
      0 < |b| <= MaxLen && b[|b| - 1] == value
  {
  }

  /** Trimming as you go is trimming once at the end: the window of a trimmed buffer is the window of the whole history. */
  lemma RecentStep(s: seq<real>, v: real, n: nat)
    requires n > 0
    ensures Recent(Recent(s, n) + [v], n) == Recent(s + [v], n)
  {
    var r := Recent(s, n);
    var whole := s + [v];
    var lhs := Recent(r + [v], n);
    assert |lhs| == |Recent(whole, n)|;
    forall i | 0 <= i < |lhs|
      ensures lhs[i] == Recent(whole, n)[i]
    {
      if i < |lhs| - 1 {
        assert lhs[i] == (r + [v])[|r| + 1 - |lhs| + i];
      }
    }
  }

  /** The numbers among the frames, in arrival order. */
  function Numbers(frames: seq<Frame>): (xs: seq<real>)
    ensures |xs| <= |frames|
  {
    if frames == [] then []
    else (if frames[0].Numeric? then [frames[0].v] else []) + Numbers(frames[1..])
  }

  lemma {:induction false} NumbersSnoc(frames: seq<Frame>, f: Frame)
    ensures Numbers(frames + [f]) == Numbers(frames) + (if f.Numeric? then [f.v] else [])
    decreases |frames|
  {
    if frames != [] {
      NumbersSnoc(frames[1..], f);
      assert (frames + [f])[1..] == frames[1..] + [f];
    } else {
      assert [f][1..] == [];
    }
  }

  /** One more frame: a number moves the window on by one entry, anything else leaves it alone. */
  lemma ServeStep(frames: seq<Frame>, i: nat, buffer: seq<real>)
    requires i < |frames| && buffer == Recent(Numbers(frames[..i]), MaxLen)
    ensures Recent(Numbers(frames[..i + 1]), MaxLen)
         == if frames[i].Numeric? then Recent(buffer + [frames[i].v], MaxLen) else buffer
  {
    var f := frames[i];
    assert frames[..i + 1] == frames[..i] + [f];
    NumbersSnoc(frames[..i], f);
    if f.Numeric? {
      RecentStep(Numbers(frames[..i]), f.v, MaxLen);
    } else {
      assert Numbers(frames[..i]) + [] == Numbers(frames[..i]);
    }
  }

  /**
   * The loop over a connection's frames: whatever the mix of table, numeric
   * and unparsable frames, the buffer is the newest 200 numbers received.
   */
  method Serve(frames: seq<Frame>) returns (buffer: seq<real>)
    ensures buffer == Recent(Numbers(frames), MaxLen)
  {
    buffer := [];
    for i := 0 to |frames|
      invariant buffer == Recent(Numbers(frames[..i]), MaxLen)
    {
      ServeStep(frames, i, buffer);
      if frames[i].Numeric? {
        buffer := Ingest(buffer, frames[i].v);
      }
    }
    assert frames[..|frames|] == frames;
  }
}
