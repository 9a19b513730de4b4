/** Splitting a WebSocket text payload into newline-delimited frames (protocol.go). */
module Ndjson {
  import opened Text

  /** The non-blank lines of a payload, each trimmed. */
  function Lines(s: string): seq<string> {
    Clean(Split(s, '\n'))
  }

  /** Trim every line and leave out the empty ones. */
  function Clean(lines: seq<string>): seq<string> {
    if lines == [] then []
    else
      var rest := Clean(lines[1..]);
      var line := TrimSpace(lines[0]);
      if line == "" then rest else [line] + rest
  }

  function Join(lines: seq<string>): string {
    if lines == [] then "" else if |lines| == 1 then lines[0]
    else lines[0] + ['\n'] + Join(lines[1..])
  }

  lemma {:induction false} CleanConcat(a: seq<string>, b: seq<string>)
    ensures Clean(a + b) == Clean(a) + Clean(b)
  {
    if a == [] {
      assert a + b == b;
    } else {
      assert (a + b)[1..] == a[1..] + b;
      CleanConcat(a[1..], b);
    }
  }

  lemma CleanOne(line: string)
    ensures Clean([line]) == if Blank(line) then [] else [TrimSpace(line)]
  {
    assert Clean([line][1..]) == [];
  }

  /** A payload made of two parts yields the frames of the first, then those of the second. */
  lemma LinesHomomorphism(a: string, b: string)
    ensures Lines(a + ['\n'] + b) == Lines(a) + Lines(b)
  {
    SplitJoin(a, b, '\n');
    CleanConcat(Split(a, '\n'), Split(b, '\n'));
  }

  lemma {:induction false} LinesPadded(s: string, c: char)
    requires IsSpace(c)
    ensures Lines([c] + s) == Lines(s)
    ensures Lines(s + [c]) == Lines(s)
  {
    assert ([c] + s)[1..] == s;
    if c == '\n' {
      assert [c] + s == [] + ['\n'] + s && s + [c] == s + ['\n'] + [];
      LinesHomomorphism([], s);
      LinesHomomorphism(s, []);
      CleanOne([]);
    } else {
      var parts := Split(s, '\n');
      TrimPadded(parts[0], c);
      assert Split([c] + s, '\n') == [[c] + parts[0]] + parts[1..];
      assert Lines([c] + s) == Lines(s);
      LinesPaddedBehind(s, c);
    }
  }

  lemma {:induction false} LinesPaddedBehind(s: string, c: char)
    requires IsSpace(c) && c != '\n'
    ensures Lines(s + [c]) == Lines(s)
  {
    SplitPaddedBehind(s, c);
    var parts := Split(s, '\n');
    var last := |parts| - 1;
    TrimPadded(parts[last], c);
    assert parts == parts[..last] + [parts[last]];
    CleanConcat(parts[..last], [parts[last]]);
    CleanConcat(parts[..last], [parts[last] + [c]]);
    CleanOne(parts[last]);
    CleanOne(parts[last] + [c]);
  }

  lemma {:induction false} SplitPaddedBehind(s: string, c: char)
    requires c != '\n'
    ensures var p := Split(s, '\n');
            Split(s + [c], '\n') == p[..|p| - 1] + [p[|p| - 1] + [c]]
  {
    if s == [] {
      SplitSingle([c], '\n');
      assert s + [c] == [c] && "" + [c] == [c];
    } else {
      assert (s + [c])[1..] == s[1..] + [c];
      SplitPaddedBehind(s[1..], c);
      var q := Split(s[1..], '\n');
      if s[0] != '\n' && |q| == 1 {
        assert [s[0]] + (q[0] + [c]) == ([s[0]] + q[0]) + [c];
      }
    }
  }

  /** Trimming the whole payload first changes nothing. */
  lemma TrimFirst(s: string)
    ensures Lines(TrimSpace(s)) == Lines(s)
  {
    TrimLeftFirst(s);
    TrimRightFirst(TrimLeft(s));
  }

  lemma {:induction false} TrimLeftFirst(s: string)
    ensures Lines(TrimLeft(s)) == Lines(s)
  {
    if s != [] && IsSpace(s[0]) {
      TrimLeftFirst(s[1..]);
      LinesPadded(s[1..], s[0]);
      assert s == [s[0]] + s[1..];
    }
  }

  lemma {:induction false} TrimRightFirst(s: string)
    ensures Lines(TrimRight(s)) == Lines(s)
  {
    if s != [] && IsSpace(s[|s| - 1]) {
      var t := s[..|s| - 1];
      TrimRightFirst(t);
      LinesPadded(t, s[|s| - 1]);
      assert s == t + [s[|s| - 1]];
    }
  }

  /** Frames joined with newlines come back unchanged. */
  lemma {:induction false} SplitUndoesJoin(lines: seq<string>)
    requires forall l :: l in lines ==> l != "" && Trimmed(l) && '\n' !in l
    ensures Lines(Join(lines)) == lines
  {
    if lines == [] {
      CleanOne("");
    } else {
      var l := lines[0];
      assert l in lines;
      TrimOfTrimmed(l);
      SplitSingle(l, '\n');
      CleanOne(l);
      if |lines| > 1 {
        LinesHomomorphism(l, Join(lines[1..]));
        SplitUndoesJoin(lines[1..]);
      }
    }
  }

  /** A payload has a frame exactly when it is not blank. */
  lemma {:induction false} SomeLine(s: string)
    ensures Lines(s) == [] <==> Blank(s)
  {
    TrimFirst(s);
    TrimTwice(s);
    var t := TrimSpace(s);
    if t == "" {
      CleanOne("");
    } else {
      var parts := Split(t, '\n');
      BlankMeansAllSpace(parts[0]);
      assert parts[0][0] == t[0];
    }
  }

  method SplitSootheWirePayload(data: string) returns (out: seq<string>)
    ensures out == Lines(data)
    ensures out == [] <==> Blank(data)
  {
    SomeLine(data);
    TrimFirst(data);
    var s := TrimSpace(data);
    if s == "" {
      return [];
    }
    var lines := Split(s, '\n');
    out := [];
    for i := 0 to |lines|
      invariant out + Clean(lines[i..]) == Clean(lines)
    {
      var line := TrimSpace(lines[i]);
      assert lines[i..][1..] == lines[i + 1..];
      if line == "" {
        continue;
      }
      out := out + [line];
    }
    if |out| == 0 {
      assert false;  // the raw-payload fallback of the source is never taken
      out := [data];
    }
  }
}
