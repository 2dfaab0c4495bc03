/**
 * The row splitting of the CSV upload handler (static/js/ws_client.js:124):
 * `text.trim().split('\n').slice(1).map(r => r.split(','))`. The first line
 * is always dropped, whatever it holds; every other line becomes one row of
 * comma-separated fields. There is no header detection, no quoting and no
 * blank-line filtering.
 */
module Upload {

  /** `s.split(sep)` for a one-character separator: never empty, "" gives [""]. */
  function Split(s: string, sep: char): (parts: seq<string>)
    ensures |parts| >= 1
    decreases |s|
  {
    if s == [] then [""]
    else
      var rest := Split(s[1..], sep);
      if s[0] == sep then [""] + rest else [[s[0]] + rest[0]] + rest[1..]
  }

  /** `parts.join(sep)`. */
  function Join(parts: seq<string>, sep: char): string
    decreases |parts|
  {
    if parts == [] then ""
    else if |parts| == 1 then parts[0]
    else parts[0] + [sep] + Join(parts[1..], sep)
  }

  /** Splitting then joining gives the text back, and no piece holds the separator. */
  lemma {:induction false} SplitJoin(s: string, sep: char)
    ensures Join(Split(s, sep), sep) == s
    ensures forall i :: 0 <= i < |Split(s, sep)| ==> sep !in Split(s, sep)[i]
    decreases |s|
  {
    if s != [] {
      var rest := Split(s[1..], sep);
      SplitJoin(s[1..], sep);
      if s[0] == sep {
        assert Split(s, sep) == [""] + rest;
        assert ([""] + rest)[1..] == rest;
      } else {
        var parts := [[s[0]] + rest[0]] + rest[1..];
        assert Split(s, sep) == parts;
        if |rest| == 1 {
          assert Join(parts, sep) == [s[0]] + rest[0];
        } else {
          assert parts[1..] == rest[1..];
          assert Join(rest, sep) == rest[0] + [sep] + Join(rest[1..], sep);
        }
        assert s == [s[0]] + s[1..];
      }
    }
  }

  /** Joining pieces that hold no separator, then splitting, gives the pieces back. */
  lemma {:induction false} JoinSplit(parts: seq<string>, sep: char)
    requires |parts| >= 1
    requires forall i :: 0 <= i < |parts| ==> sep !in parts[i]
    ensures Split(Join(parts, sep), sep) == parts
    decreases |parts|, |parts[0]|
  {
    var p := parts[0];
    if p == [] {
      if |parts| > 1 {
        JoinSplit(parts[1..], sep);
        assert Join(parts, sep) == [sep] + Join(parts[1..], sep);
        assert ([sep] + Join(parts[1..], sep))[1..] == Join(parts[1..], sep);
        assert [""] + parts[1..] == parts;
      }
    } else {
      var shorter := [p[1..]] + parts[1..];
      assert forall i :: 0 <= i < |shorter| ==> sep !in shorter[i] by {
        assert forall c :: c in p[1..] ==> c in p;
      }
      JoinSplit(shorter, sep);
      var t := Join(shorter, sep);
      assert Join(parts, sep) == [p[0]] + t by {
        if |parts| == 1 {
        } else {
          assert shorter[1..] == parts[1..];
        }
      }
      assert ([p[0]] + t)[1..] == t;
      assert p[0] != sep by {
        assert p[0] in p;
      }
      assert [p[0]] + p[1..] == p;
      assert [p] + parts[1..] == parts;
    }
  }

  /** Characters `String.prototype.trim` removes (ASCII and Unicode white space, line terminators, BOM). */
  predicate IsSpace(c: char)
  {
    c == ' ' || c == '\t' || c == '\n' || c == '\r' || c == '\U{000B}' || c == '\U{000C}'
    || c == '\U{00A0}' || c == '\U{1680}' || ('\U{2000}' <= c <= '\U{200A}')
    || c == '\U{2028}' || c == '\U{2029}' || c == '\U{202F}' || c == '\U{205F}'
    || c == '\U{3000}' || c == '\U{FEFF}'
  }

  function TrimStart(s: string): (r: string)
    ensures |r| <= |s| && r == s[|s| - |r|..]
    ensures r == [] || !IsSpace(r[0])
    ensures forall i :: 0 <= i < |s| - |r| ==> IsSpace(s[i])
  {
    if s != [] && IsSpace(s[0]) then TrimStart(s[1..]) else s
  }

  function TrimEnd(s: string): (r: string)
    ensures |r| <= |s| && r == s[..|r|]
    ensures r == [] || !IsSpace(r[|r| - 1])
    ensures forall i :: |r| <= i < |s| ==> IsSpace(s[i])
  {
    if s != [] && IsSpace(s[|s| - 1]) then TrimEnd(s[..|s| - 1]) else s
  }

  /** `text.trim()`. */
  function Trim(s: string): string
  {
    TrimEnd(TrimStart(s))
  }

  /** The lines of the trimmed upload, before the first is dropped. */
  function Lines(text: string): seq<string>
  {
    Split(Trim(text), '\n')
  }

  /** The rows handed to the chart: every line after the first, split on commas. */
  function UploadRows(text: string): (rows: seq<seq<string>>)
    ensures |rows| == |Lines(text)| - 1
  {
    var lines := Lines(text);
    seq(|lines| - 1, i requires 0 <= i < |lines| - 1 => Split(lines[i + 1], ','))
  }

  /** Rejoin each row with commas, then the rows with newlines. */
  function JoinRows(rows: seq<seq<string>>): string
  {
    Join(seq(|rows|, i requires 0 <= i < |rows| => Join(rows[i], ',')), '\n')
  }

  /**
   * The upload keeps exactly what follows the first line: the trimmed text is
   * its first line (which holds no newline), then, when there are rows, a
   * newline and the rows rejoined. A one-line upload yields no rows at all.
   */
  lemma UploadDropsFirstLine(text: string)
    ensures var t := Trim(text); var first := Lines(text)[0];
      && '\n' !in first
      && (UploadRows(text) == [] ==> t == first)
      && (UploadRows(text) != [] ==> t == first + "\n" + JoinRows(UploadRows(text)))
  {
    var t := Trim(text);
    var lines := Lines(text);
    var rows := UploadRows(text);
    SplitJoin(t, '\n');
    assert '\n' !in lines[0];
    var rejoined := seq(|rows|, i requires 0 <= i < |rows| => Join(rows[i], ','));
    forall i | 0 <= i < |rows|
      ensures rejoined[i] == lines[i + 1]
    {
      SplitJoin(lines[i + 1], ',');
    }
    assert rejoined == lines[1..];
    if |lines| == 1 {
      assert t == Join(lines, '\n') == lines[0];
    } else {
      assert Join(lines, '\n') == lines[0] + ['\n'] + Join(lines[1..], '\n');
    }
  }

  /** Each row is the comma split of one line; fields hold no comma and rejoin to the line. */
  lemma RowIsLine(text: string, i: int)
    requires 0 <= i < |UploadRows(text)|
    ensures UploadRows(text)[i] == Split(Lines(text)[i + 1], ',')
    ensures Join(UploadRows(text)[i], ',') == Lines(text)[i + 1]
    ensures forall j :: 0 <= j < |UploadRows(text)[i]| ==> ',' !in UploadRows(text)[i][j]
  {
    SplitJoin(Lines(text)[i + 1], ',');
  }
}
