/**
 * Line-by-line reading of a string stream, as std::getline does it: a line
 * ends at a newline, which is consumed but not kept; a last line without a
 * newline still counts; at the end of the input no further line is read.
 */
module Text {
  import opened Wrappers

  /** Index of the first newline of s at or after i, or |s| when there is none. */
  function LineEndFrom(s: string, i: nat): (k: nat)
    requires i <= |s|
    ensures i <= k <= |s|
    decreases |s| - i
  {
    if i == |s| || s[i] == '\n' then i else LineEndFrom(s, i + 1)
  }

  /** Index of the first newline of s, or |s| when there is none. */
  function LineEnd(s: string): (k: nat)
    ensures k <= |s|
  {
    LineEndFrom(s, 0)
  }

  /** The scan stops at a newline, or at the end of s, and passes no newline on the way. */
  lemma {:induction false} LineEndFromStops(s: string, i: nat)
    requires i <= |s|
    ensures LineEndFrom(s, i) < |s| ==> s[LineEndFrom(s, i)] == '\n'
    ensures forall j :: i <= j < LineEndFrom(s, i) ==> s[j] != '\n'
    decreases |s| - i
  {
    if i < |s| && s[i] != '\n' {
      LineEndFromStops(s, i + 1);
    }
  }

  /** LineEnd(s) is the position of a newline, unless there is none. */
  lemma NewlineAtLineEnd(s: string)
    ensures LineEnd(s) < |s| ==> s[LineEnd(s)] == '\n'
  {
    LineEndFromStops(s, 0);
  }

  /** No newline comes before LineEnd(s). */
  lemma NoNewlineBefore(s: string)
    ensures NoNewline(s[..LineEnd(s)])
  {
    LineEndFromStops(s, 0);
  }

  /**
   * One std::getline on a stream whose unread input is s: None when the
   * input is exhausted, otherwise the line and the input after it.
   */
  function GetLine(s: string): (r: Option<(string, string)>)
    ensures r.None? <==> s == []
    ensures r.Some? ==> |r.value.1| < |s|
  {
    if s == [] then None
    else
      var k := LineEnd(s);
      Some((s[..k], if k < |s| then s[k + 1..] else []))
  }

  /** Every line std::getline reads from s, in order. */
  function Lines(s: string): seq<string>
    decreases |s|
  {
    match GetLine(s)
    case None => []
    case Some((line, rest)) => [line] + Lines(rest)
  }

  predicate NoNewline(line: string) {
    forall i :: 0 <= i < |line| ==> line[i] != '\n'
  }

  /** Writes lines out, each followed by a newline. */
  function Unlines(ls: seq<string>): string {
    if ls == [] then [] else ls[0] + "\n" + Unlines(ls[1..])
  }

  lemma UnlinesCons(l: string, ls: seq<string>)
    ensures Unlines([l] + ls) == l + "\n" + Unlines(ls)
  {
    assert ([l] + ls)[1..] == ls;
  }

  /** A line read by std::getline never contains a newline. */
  lemma GetLineNoNewline(s: string)
    requires s != []
    ensures NoNewline(GetLine(s).value.0)
  {
    NoNewlineBefore(s);
  }

  /** Reading back lines that were written out gives the same lines. */
  lemma {:induction false} LinesUnlines(ls: seq<string>)
    requires forall i :: 0 <= i < |ls| ==> NoNewline(ls[i])
    ensures Lines(Unlines(ls)) == ls
    decreases |ls|
  {
    if ls != [] {
      var s := Unlines(ls);
      var l := ls[0];
      var rest := Unlines(ls[1..]);
      assert s == l + ("\n" + rest);
      FirstLine(l, rest);
      LinesUnlines(ls[1..]);
    }
  }

  lemma FirstLine(l: string, rest: string)
    requires NoNewline(l)
    ensures GetLine(l + ("\n" + rest)) == Some((l, rest))
  {
    var s := l + ("\n" + rest);
    NewlineAt(l, rest);
    assert s[..|l|] == l;
    assert s[|l| + 1..] == rest;
  }

  lemma NewlineAt(l: string, rest: string)
    requires NoNewline(l)
    ensures LineEnd(l + ("\n" + rest)) == |l|
  {
    NewlineAtFrom(l, rest, 0);
  }

  lemma {:induction false} NewlineAtFrom(l: string, rest: string, i: nat)
    requires NoNewline(l) && i <= |l|
    ensures LineEndFrom(l + ("\n" + rest), i) == |l|
    decreases |l| - i
  {
    var s := l + ("\n" + rest);
    if i < |l| {
      assert s[i] == l[i];
      NewlineAtFrom(l, rest, i + 1);
    } else {
      assert s[i] == '\n';
    }
  }

  /** Writing out the lines read from s gives s back, with a final newline added if it lacked one. */
  lemma {:induction false} UnlinesLines(s: string)
    ensures Unlines(Lines(s)) == Terminated(s)
    decreases |s|
  {
    if s != [] {
      var k := LineEnd(s);
      if k < |s| {
        var rest := s[k + 1..];
        UnlinesLines(rest);
        UnlinesStep(s, k, rest);
      } else {
        LastLine(s);
      }
    }
  }

  lemma UnlinesStep(s: string, k: nat, rest: string)
    requires k == LineEnd(s) && k < |s| && rest == s[k + 1..]
    requires Unlines(Lines(rest)) == Terminated(rest)
    ensures Unlines(Lines(s)) == Terminated(s)
  {
    LinesCons(s);
    UnlinesCons(s[..k], Lines(rest));
    SplitAtNewline(s);
  }

  /** A line that ends in a newline, then the lines after it. */
  lemma LinesCons(s: string)
    requires LineEnd(s) < |s|
    ensures Lines(s) == [s[..LineEnd(s)]] + Lines(s[LineEnd(s) + 1..])
  {
    GetLineSplit(s);
  }

  lemma GetLineSplit(s: string)
    requires LineEnd(s) < |s|
    ensures GetLine(s) == Some((s[..LineEnd(s)], s[LineEnd(s) + 1..]))
  {
  }

  /** s, with a newline added at its end unless it is empty or already ends in one. */
  function Terminated(s: string): string {
    if s == [] || s[|s| - 1] == '\n' then s else s + "\n"
  }

  lemma SplitAtNewline(s: string)
    requires LineEnd(s) < |s|
    ensures var k := LineEnd(s);
      Terminated(s) == s[..k] + "\n" + Terminated(s[k + 1..])
  {
    var k := LineEnd(s);
    NewlineAtLineEnd(s);
    SplitAround(s, k);
    TerminatedAfterNewline(s[..k], s[k + 1..]);
  }

  lemma SplitAround(s: string, k: nat)
    requires k < |s|
    ensures s == s[..k] + [s[k]] + s[k + 1..]
  {
  }

  lemma TerminatedAfterNewline(a: string, rest: string)
    ensures Terminated(a + "\n" + rest) == a + "\n" + Terminated(rest)
  {
    var s := a + "\n" + rest;
    if rest == [] {
      assert s[|s| - 1] == '\n';
    } else {
      assert s[|s| - 1] == rest[|rest| - 1];
      if rest[|rest| - 1] != '\n' {
        assert s + "\n" == a + "\n" + (rest + "\n");
      }
    }
  }

  lemma LastLine(s: string)
    requires s != [] && LineEnd(s) == |s|
    ensures Unlines(Lines(s)) == Terminated(s)
  {
    NoNewlineBefore(s);
    assert s[..|s|] == s;
    assert s[|s| - 1] != '\n';
    assert Lines(s) == [s] + Lines([]);
    UnlinesCons(s, []);
  }
}
