/**
 * The line splitting of .NET's `System.IO.StringReader.ReadLine`: a line ends at
 * "\n", at "\r" or at "\r\n" (one terminator), a final terminator does not start
 * another line, and reading at the end of the text yields `null`.
 */
module TextReading {
  import opened Wrappers

  predicate IsLineBreak(c: char) {
    c == '\n' || c == '\r'
  }

  predicate NoLineBreak(s: string) {
    forall k :: 0 <= k < |s| ==> !IsLineBreak(s[k])
  }

  /** Index of the first line break in `s`, or `|s|` when there is none. */
  function LineEnd(s: string): (j: nat)
    ensures j <= |s|
    ensures NoLineBreak(s[..j])
    ensures j < |s| ==> IsLineBreak(s[j])
    decreases |s|
  {
    if s == [] || IsLineBreak(s[0]) then 0
    else
      assert s[1..][..LineEnd(s[1..])] == s[1..1 + LineEnd(s[1..])];
      1 + LineEnd(s[1..])
  }

  /** The three facts of `LineEnd`'s contract determine it. */
  lemma {:induction false} LineEndIs(s: string, j: nat)
    requires j <= |s| && NoLineBreak(s[..j])
    requires j < |s| ==> IsLineBreak(s[j])
    ensures LineEnd(s) == j
    decreases j
  {
    if j > 0 {
      assert s[..j][0] == s[0];
      var t := s[1..];
      var u := t[..j - 1];
      forall k | 0 <= k < |u|
        ensures !IsLineBreak(u[k])
      {
        assert u[k] == s[..j][k + 1];
      }
      LineEndIs(t, j - 1);
    }
  }

  /** Where the next line starts, given that `s[j]` is a line break. */
  function AfterTerminator(s: string, j: nat): (k: nat)
    requires j < |s| && IsLineBreak(s[j])
    ensures j < k <= |s|
  {
    if s[j] == '\r' && j + 1 < |s| && s[j + 1] == '\n' then j + 2 else j + 1
  }

  /** The lines that successive `ReadLine` calls return, until the first `null`. */
  function Lines(s: string): seq<string>
    decreases |s|
  {
    if s == [] then []
    else
      var j := LineEnd(s);
      [s[..j]] + (if j == |s| then [] else Lines(s[AfterTerminator(s, j)..]))
  }

  /** The text that writes every line of `ls` followed by the terminator `eol`. */
  function Terminated(ls: seq<string>, eol: string): string {
    if ls == [] then [] else ls[0] + eol + Terminated(ls[1..], eol)
  }

  predicate IsTerminator(eol: string) {
    eol == "\n" || eol == "\r\n" || eol == "\r"
  }

  /** Every line that is read is free of line breaks. */
  lemma {:induction false} LinesHaveNoBreaks(s: string)
    ensures forall l :: l in Lines(s) ==> NoLineBreak(l)
    decreases |s|
  {
    if s != [] {
      var j := LineEnd(s);
      if j < |s| {
        LinesHaveNoBreaks(s[AfterTerminator(s, j)..]);
      }
    }
  }

  /** A line without breaks followed by a terminator is read back as that line. */
  lemma LinesOfFirstLine(l: string, eol: string, rest: string)
    requires NoLineBreak(l) && IsTerminator(eol)
    requires eol == "\r" ==> rest == [] || rest[0] != '\n'
    ensures Lines(l + eol + rest) == [l] + Lines(rest)
  {
    var s := l + eol + rest;
    assert s[..|l|] == l;
    LineEndIs(s, |l|);
    var j := LineEnd(s);
    assert s[AfterTerminator(s, j)..] == rest;
  }

  /** The last line needs no terminator. */
  lemma LinesOfLastLine(l: string)
    requires NoLineBreak(l) && l != []
    ensures Lines(l) == [l]
  {
    assert l[..|l|] == l;
    LineEndIs(l, |l|);
  }

  /** With "\r" as terminator, a written text never starts with "\n". */
  lemma NoNewlineFirst(ls: seq<string>, eol: string, tail: string)
    requires forall l :: l in ls ==> NoLineBreak(l)
    requires IsTerminator(eol) && NoLineBreak(tail)
    ensures var s := Terminated(ls, eol) + tail; s == [] || s[0] != '\n' || eol != "\r"
  {
    if ls != [] {
      assert Terminated(ls, eol) + tail == ls[0] + eol + (Terminated(ls[1..], eol) + tail);
      if ls[0] != [] {
        assert ls[0] in ls && !IsLineBreak(ls[0][0]);
      }
    } else if tail != [] {
      assert !IsLineBreak(tail[0]);
    }
  }

  /** Round trip: the lines of a text written line by line are the lines written. */
  lemma {:induction false} LinesOfTerminated(ls: seq<string>, eol: string, tail: string)
    requires forall l :: l in ls ==> NoLineBreak(l)
    requires IsTerminator(eol) && NoLineBreak(tail)
    ensures Lines(Terminated(ls, eol) + tail) == ls + (if tail == [] then [] else [tail])
  {
    if ls == [] {
      assert Terminated(ls, eol) + tail == tail;
      if tail != [] {
        LinesOfLastLine(tail);
      }
    } else {
      var rest := Terminated(ls[1..], eol) + tail;
      var more := if tail == [] then [] else [tail];
      assert Terminated(ls, eol) + tail == ls[0] + eol + rest;
      assert Lines(ls[0] + eol + rest) == [ls[0]] + Lines(rest) by {
        assert ls[0] in ls;
        NoNewlineFirst(ls[1..], eol, tail);
        LinesOfFirstLine(ls[0], eol, rest);
      }
      assert Lines(rest) == ls[1..] + more by {
        LinesOfTerminated(ls[1..], eol, tail);
      }
      assert [ls[0]] + ls[1..] == ls;
    }
  }

  /**
   * A `StringReader` over a fixed text: `pos` is the index of the next
   * character to be read.
   */
  class StringReader {
    const text: string
    var pos: nat

    ghost predicate Valid()
      reads this
    {
      pos <= |text|
    }

    /** The lines still to be returned by `ReadLine`. */
    ghost function Remaining(): seq<string>
      reads this
      requires Valid()
    {
      Lines(text[pos..])
    }

    constructor (s: string)
      ensures text == s && pos == 0
      ensures Valid() && Remaining() == Lines(s)
    {
      text := s;
      pos := 0;
      new;
      assert text[pos..] == s;
    }

    /** Returns the next line, or `None` (a C# `null`) at the end of the text. */
    method ReadLine() returns (line: Option<string>)
      requires Valid()
      modifies this
      ensures Valid()
      ensures old(Remaining()) == [] ==> line == None && Remaining() == []
      ensures old(Remaining()) != [] ==>
                line == Some(old(Remaining())[0]) && Remaining() == old(Remaining())[1..]
    {
      if pos == |text| {
        return None;
      }
      ghost var rest := text[pos..];
      var j := pos;
      while j < |text| && !IsLineBreak(text[j])
        invariant pos <= j <= |text|
        invariant NoLineBreak(text[pos..j])
      {
        assert text[pos..j + 1] == text[pos..j] + [text[j]];
        j := j + 1;
      }
      assert rest[..j - pos] == text[pos..j];
      LineEndIs(rest, j - pos);
      line := Some(text[pos..j]);
      if j == |text| {
        pos := j;
        assert Remaining() == Lines([]);
      } else if text[j] == '\r' && j + 1 < |text| && text[j + 1] == '\n' {
        pos := j + 2;
        assert rest[AfterTerminator(rest, j - old(pos))..] == text[pos..];
      } else {
        pos := j + 1;
        assert rest[AfterTerminator(rest, j - old(pos))..] == text[pos..];
      }
    }
  }
}
