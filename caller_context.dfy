/** Post-processing of the captured call stack: the `split('\n')`, the
    `splice(0, 2)`, the `join('\n')` and the file-name match of both clients. */
module CallerContext {
  import opened Values

  const NEWLINE: char := '\n'

  /** `s.split('\n')`: the pieces between the newlines, in order. The empty
      string gives one empty piece. */
  function Split(s: string): (r: seq<string>)
    ensures |r| >= 1
    ensures forall i :: 0 <= i < |r| ==> NEWLINE !in r[i]
  {
    if |s| == 0 then [""]
    else
      var rest := Split(s[1..]);
      if s[0] == NEWLINE then [""] + rest
      else [[s[0]] + rest[0]] + rest[1..]
  }

  /** The number of characters in all of `lines`. */
  function TotalLength(lines: seq<string>): nat {
    if |lines| == 0 then 0 else |lines[0]| + TotalLength(lines[1..])
  }

  /** `lines.join('\n')`: the lines in order, with one newline between each
      two neighbours and none at either end. */
  function Join(lines: seq<string>): (r: string)
    ensures |lines| == 0 ==> r == ""
    ensures |lines| > 0 ==> |r| == TotalLength(lines) + |lines| - 1
    ensures |lines| > 0 ==> r[..|lines[0]|] == lines[0]
    ensures |lines| > 1 ==> r[|lines[0]|] == NEWLINE
  {
    if |lines| == 0 then ""
    else if |lines| == 1 then lines[0]
    else lines[0] + [NEWLINE] + Join(lines[1..])
  }

  lemma ConsAssociative(c: char, x: string, y: string)
    ensures ([c] + x) + y == [c] + (x + y)
  {
  }

  /** Putting a character in front of the first line puts it in front of the
      joined text. */
  lemma PrependToFirst(c: char, lines: seq<string>)
    requires |lines| >= 1
    ensures Join([[c] + lines[0]] + lines[1..]) == [c] + Join(lines)
  {
    var r := [[c] + lines[0]] + lines[1..];
    if |lines| == 1 {
      assert r == [[c] + lines[0]];
    } else {
      assert r[0] == [c] + lines[0] && r[1..] == lines[1..];
      var tail := Join(lines[1..]);
      assert Join(r) == r[0] + [NEWLINE] + tail;
      assert Join(lines) == lines[0] + [NEWLINE] + tail;
      ConsAssociative(c, lines[0], [NEWLINE]);
      ConsAssociative(c, lines[0] + [NEWLINE], tail);
    }
  }

  /** Joining the pieces of a split gives the text back. */
  lemma {:induction false} JoinSplit(s: string)
    ensures Join(Split(s)) == s
  {
    if |s| > 0 {
      var rest := Split(s[1..]);
      JoinSplit(s[1..]);
      if s[0] == NEWLINE {
        assert ([""] + rest)[1..] == rest;
      } else {
        PrependToFirst(s[0], rest);
      }
      assert s == [s[0]] + s[1..];
    }
  }

  lemma {:induction false} SplitSingle(x: string)
    requires NEWLINE !in x
    ensures Split(x) == [x]
  {
    if |x| > 0 {
      assert NEWLINE !in x[1..] by {
        forall i | 0 <= i < |x[1..]| ensures x[1..][i] != NEWLINE {
          assert x[1..][i] == x[i + 1];
        }
      }
      SplitSingle(x[1..]);
      assert x == [x[0]] + x[1..];
    }
  }

  lemma {:induction false} SplitAfterLine(x: string, y: string)
    requires NEWLINE !in x
    ensures Split(x + [NEWLINE] + y) == [x] + Split(y)
  {
    var s := x + [NEWLINE] + y;
    if |x| == 0 {
      assert s[1..] == y;
    } else {
      assert NEWLINE !in x[1..] by {
        forall i | 0 <= i < |x[1..]| ensures x[1..][i] != NEWLINE {
          assert x[1..][i] == x[i + 1];
        }
      }
      SplitAfterLine(x[1..], y);
      assert s[1..] == x[1..] + [NEWLINE] + y;
      assert x == [x[0]] + x[1..];
    }
  }

  /** Splitting the join of lines that hold no newline gives the lines back. */
  lemma {:induction false} SplitJoin(lines: seq<string>)
    requires |lines| >= 1
    requires forall i :: 0 <= i < |lines| ==> NEWLINE !in lines[i]
    ensures Split(Join(lines)) == lines
  {
    if |lines| == 1 {
      SplitSingle(lines[0]);
    } else {
      SplitJoin(lines[1..]);
      SplitAfterLine(lines[0], Join(lines[1..]));
      assert lines == [lines[0]] + lines[1..];
    }
  }

  /** `stack.splice(0, 2)` on the lines of `new Error().stack`: the first two,
      which in V8 are the header line `Error` and the frame of `send` itself,
      are removed (all of them when there are fewer than two). */
  function DropFirstTwo(frames: seq<string>): (r: seq<string>)
    ensures |r| == if |frames| < 2 then 0 else |frames| - 2
    ensures forall i :: 0 <= i < |r| ==> r[i] == frames[i + 2]
  {
    if |frames| <= 2 then [] else frames[2..]
  }

  // The match of `^.* \((.*):[0-9]+:[0-9]+\)$` against one frame.

  /** The characters that `.` does not match in a JavaScript regular expression. */
  predicate IsLineTerminator(c: char) {
    c == '\n' || c == '\r' || c == '\U{2028}' || c == '\U{2029}'
  }

  /** No line terminator: every character can be taken by `.`. */
  predicate OnOneLine(s: string) {
    forall i :: 0 <= i < |s| ==> !IsLineTerminator(s[i])
  }

  /** `[0-9]+`. */
  predicate IsDigitRun(s: string) {
    |s| > 0 && forall i :: 0 <= i < |s| ==> '0' <= s[i] <= '9'
  }

  /** The pattern matches `line` with `a` taken by the leading `.*`, `path` by the
      captured `(.*)` and `row`, `col` by the two digit runs. */
  ghost predicate FrameMatch(line: string, a: string, path: string, row: string, col: string) {
    && OnOneLine(line)
    && IsDigitRun(row)
    && IsDigitRun(col)
    && line == a + " (" + path + ":" + row + ":" + col + ")"
  }

  /** The position of the last `c` in `s`. */
  function LastIndexOf(s: string, c: char): (r: Option<nat>)
    ensures r.Some? ==> r.value < |s| && s[r.value] == c
    ensures r.Some? ==> forall j :: r.value < j < |s| ==> s[j] != c
    ensures r.None? ==> forall j :: 0 <= j < |s| ==> s[j] != c
  {
    if |s| == 0 then None
    else if s[|s| - 1] == c then Some(|s| - 1)
    else LastIndexOf(s[..|s| - 1], c)
  }

  predicate OpensAt(s: string, k: nat) {
    k + 1 < |s| && s[k] == ' ' && s[k + 1] == '('
  }

  /** The position of the last `" ("` in `s`. */
  function LastOpener(s: string): (r: Option<nat>)
    ensures r.Some? ==> OpensAt(s, r.value)
    ensures r.Some? ==> forall j: nat :: r.value < j ==> !OpensAt(s, j)
    ensures r.None? ==> forall j: nat :: !OpensAt(s, j)
  {
    if |s| < 2 then None
    else if OpensAt(s, |s| - 2) then Some(|s| - 2)
    else
      var r := LastOpener(s[..|s| - 1]);
      assert forall j: nat :: OpensAt(s, j) && j < |s| - 2 ==> OpensAt(s[..|s| - 1], j);
      r
  }

  /** The captured path of the pattern, or `None` where `match` gives null: the
      frame must end in `:digits:digits)`; the path runs from the last `" ("`
      before those two colons up to the first of them. */
  function FileOf(line: string): (r: Option<string>)
    ensures r.Some? ==> OnOneLine(line) && |line| > 0 && line[|line| - 1] == ')'
    ensures r.Some? ==> |r.value| + 7 <= |line|
  {
    if !OnOneLine(line) || |line| == 0 || line[|line| - 1] != ')' then None
    else
      var x := line[..|line| - 1];
      match LastIndexOf(x, ':')
      case None => None
      case Some(c1) =>
        if !IsDigitRun(x[c1 + 1..]) then None
        else
          match LastIndexOf(x[..c1], ':')
          case None => None
          case Some(c2) =>
            if !IsDigitRun(x[c2 + 1..c1]) then None
            else
              match LastOpener(x[..c2])
              case None => None
              case Some(k) => Some(x[k + 2..c2])
  }

  /** The `file` field: null when no frame is left, otherwise the path matched
      in the first remaining frame. */
  function CallerFile(frames: seq<string>): (r: Option<string>)
    ensures r.None? <==> |frames| == 0 || FileOf(frames[0]).None?
    ensures r.Some? ==> r == FileOf(frames[0])
  {
    if |frames| == 0 then None else FileOf(frames[0])
  }

  /** The `file` field is null exactly when no frame is left or the pattern
      does not match the first one; a path it holds is a capture of that match. */
  lemma CallerFileMatches(frames: seq<string>)
    ensures CallerFile(frames).None? <==>
      |frames| == 0 || !exists a, path, row, col :: FrameMatch(frames[0], a, path, row, col)
    ensures CallerFile(frames).Some? ==>
      exists a, row, col :: FrameMatch(frames[0], a, CallerFile(frames).value, row, col)
  {
    if |frames| > 0 {
      if exists a, path, row, col :: FrameMatch(frames[0], a, path, row, col) {
        var a, path, row, col :| FrameMatch(frames[0], a, path, row, col);
        FileOfComplete(frames[0], a, path, row, col);
      }
      if FileOf(frames[0]).Some? {
        var a, row, col := FileOfSound(frames[0]);
      }
    }
  }

  /** Whatever `FileOf` returns is a path the pattern captures. */
  lemma FileOfSound(line: string) returns (a: string, row: string, col: string)
    requires FileOf(line).Some?
    ensures FrameMatch(line, a, FileOf(line).value, row, col)
  {
    var x := line[..|line| - 1];
    var c1 := LastIndexOf(x, ':').value;
    var c2 := LastIndexOf(x[..c1], ':').value;
    var k := LastOpener(x[..c2]).value;
    a, row, col := x[..k], x[c2 + 1..c1], x[c1 + 1..];
    var path := x[k + 2..c2];
    assert x[..c2] == a + " (" + path;
    assert x[..c1] == x[..c2] + ":" + row;
    assert x == x[..c1] + ":" + col;
    assert line == x + ")";
  }

  lemma LastIndexOfAt(s: string, c: char, i: nat)
    requires i < |s| && s[i] == c
    requires forall j :: i < j < |s| ==> s[j] != c
    ensures LastIndexOf(s, c) == Some(i)
  {
  }

  /** `FileOf` when every step finds what it looks for. */
  lemma FileOfSteps(line: string, x: string, c1: nat, c2: nat, k: nat)
    requires OnOneLine(line) && |line| > 0 && line[|line| - 1] == ')'
    requires x == line[..|line| - 1]
    requires LastIndexOf(x, ':') == Some(c1) && IsDigitRun(x[c1 + 1..])
    requires LastIndexOf(x[..c1], ':') == Some(c2) && IsDigitRun(x[c2 + 1..c1])
    requires LastOpener(x[..c2]) == Some(k)
    ensures FileOf(line) == Some(x[k + 2..c2])
  {
  }

  /** On a match, `FileOf` finds both colons where the match puts them. */
  lemma ColonsOnMatch(line: string, a: string, path: string, row: string, col: string)
      returns (x: string, c1: nat, c2: nat)
    requires FrameMatch(line, a, path, row, col)
    ensures x == line[..|line| - 1]
    ensures LastIndexOf(x, ':') == Some(c1) && IsDigitRun(x[c1 + 1..])
    ensures LastIndexOf(x[..c1], ':') == Some(c2) && IsDigitRun(x[c2 + 1..c1])
    ensures x[..c2] == a + " (" + path
  {
    var pre := a + " (" + path;
    var q := pre + ":" + row;
    x := q + ":" + col;
    assert x == line[..|line| - 1] by {
      assert line == x + ")";
    }
    c1, c2 := |q|, |pre|;
    assert LastIndexOf(x, ':') == Some(c1) && x[c1 + 1..] == col by {
      LastIndexOfAt(x, ':', c1);
    }
    assert x[..c1] == q;
    assert LastIndexOf(x[..c1], ':') == Some(c2) && x[c2 + 1..c1] == row by {
      LastIndexOfAt(q, ':', c2);
      assert q[..c2] == pre;
    }
    assert x[..c2] == pre;
  }

  /** The last `" ("` is the one after `a` or one inside `path`, so what
      follows it is a suffix of `path`. */
  lemma LastOpenerAfter(a: string, path: string)
    ensures LastOpener(a + " (" + path).Some?
    ensures LastOpener(a + " (" + path).value >= |a|
    ensures (a + " (" + path)[LastOpener(a + " (" + path).value + 2..] == path[LastOpener(a + " (" + path).value - |a|..]
    ensures LastOpener(a + " (" + path).value > |a| ==> OpensAt(path, LastOpener(a + " (" + path).value - |a| - 2)
  {
    var pre := a + " (" + path;
    assert OpensAt(pre, |a|);
    var k := LastOpener(pre).value;
    assert pre[k + 2..] == path[k - |a|..];
    if k > |a| {
      assert k >= |a| + 2;
      assert OpensAt(path, k - |a| - 2);
    }
  }

  /** Whenever the pattern matches, `FileOf` finds a path, and it is the one with
      the longest leading `.*`, as the backtracking match picks: the shortest
      capture, a suffix of every other. */
  lemma FileOfComplete(line: string, a: string, path: string, row: string, col: string)
    requires FrameMatch(line, a, path, row, col)
    ensures FileOf(line).Some?
    ensures |FileOf(line).value| <= |path|
    ensures FileOf(line).value == path[|path| - |FileOf(line).value|..]
    ensures (forall j: nat :: !OpensAt(path, j)) ==> FileOf(line) == Some(path)
  {
    var x, c1, c2 := ColonsOnMatch(line, a, path, row, col);
    LastOpenerAfter(a, path);
    var k := LastOpener(x[..c2]).value;
    FileOfSteps(line, x, c1, c2, k);
  }

  /** A frame that holds no colon has no `:line:column` location: null. */
  lemma NoColonNoFile(line: string)
    requires forall i :: 0 <= i < |line| ==> line[i] != ':'
    ensures FileOf(line) == None
  {
    if FileOf(line).Some? {
      var a, row, col := FileOfSound(line);
      assert false;
    }
  }

  lemma NamedFrameMatches()
    ensures FrameMatch("    at main (/app/server.js:12:7)", "    at main", "/app/server.js", "12", "7")
  {
    assert "    at main (/app/server.js:12:7)" == "    at main" + " (" + "/app/server.js" + ":" + "12" + ":" + "7" + ")";
  }

  /** A named V8 frame yields its path. */
  lemma NamedFrameExample()
    ensures FileOf("    at main (/app/server.js:12:7)") == Some("/app/server.js")
  {
    NamedFrameMatches();
    assert forall j: nat :: !OpensAt("/app/server.js", j);
    FileOfComplete("    at main (/app/server.js:12:7)", "    at main", "/app/server.js", "12", "7");
  }

  /** Frames of an anonymous function or of native code yield null. */
  lemma UnnamedFrameExamples()
    ensures FileOf("    at /app/server.js:12:7") == None
    ensures FileOf("    at new Promise (<anonymous>)") == None
  {
    NoColonNoFile("    at new Promise (<anonymous>)");
  }
}
