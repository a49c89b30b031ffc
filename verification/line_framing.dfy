/** Line framing of the buffer's output: every record text is written with
    `println`, that is, followed by one line terminator. A line-oriented
    reader splits the text at each terminator. */
module LineFraming {

  /** No line in `ls` holds a line terminator of its own. */
  ghost predicate NoNewlines(ls: seq<string>) {
    forall i :: 0 <= i < |ls| ==> '\n' !in ls[i]
  }

  /** The text produced by calling `println` on each of `ls`, in order. */
  function JoinLines(ls: seq<string>): string {
    if ls == [] then [] else ls[0] + "\n" + JoinLines(ls[1..])
  }

  /** Number of line terminators in `s`. */
  function CountNewlines(s: string): nat {
    if s == [] then 0 else (if s[0] == '\n' then 1 else 0) + CountNewlines(s[1..])
  }

  /** Index of the first line terminator of `s`, or `|s|` when there is none. */
  function FirstNewline(s: string): (i: nat)
    ensures i <= |s|
    ensures forall j :: 0 <= j < i ==> s[j] != '\n'
    ensures i < |s| ==> s[i] == '\n'
  {
    if s == [] || s[0] == '\n' then 0 else 1 + FirstNewline(s[1..])
  }

  /** What a line-oriented reader sees in `s`: the text between terminators,
      with a last unterminated piece kept as a line of its own. */
  function SplitLines(s: string): (ls: seq<string>)
    ensures NoNewlines(ls)
    decreases |s|
  {
    if s == [] then []
    else
      var i := FirstNewline(s);
      if i == |s| then [s] else [s[..i]] + SplitLines(s[i + 1..])
  }

  /** Appending one `println` to the text appends one line. */
  lemma {:induction false} JoinLinesSnoc(ls: seq<string>, line: string)
    ensures JoinLines(ls + [line]) == JoinLines(ls) + line + "\n"
  {
    if ls != [] {
      assert (ls + [line])[1..] == ls[1..] + [line];
      JoinLinesSnoc(ls[1..], line);
    }
  }

  /** The first terminator of `line + "\n" + rest` is the one `println` added. */
  lemma FirstNewlineOfLine(line: string, rest: string)
    requires '\n' !in line
    ensures FirstNewline(line + "\n" + rest) == |line|
  {
    var s := line + "\n" + rest;
    assert s[|line|] == '\n';
    assert forall j :: 0 <= j < |line| ==> s[j] == line[j];
  }

  /** Reading back the text written line by line gives the same lines, in the
      same order, as long as no line holds a terminator of its own. */
  lemma {:induction false} SplitJoinLines(ls: seq<string>)
    requires NoNewlines(ls)
    ensures SplitLines(JoinLines(ls)) == ls
  {
    if ls != [] {
      var s := JoinLines(ls);
      var rest := JoinLines(ls[1..]);
      assert s == ls[0] + "\n" + rest;
      FirstNewlineOfLine(ls[0], rest);
      assert s[..|ls[0]|] == ls[0];
      assert s[|ls[0]| + 1..] == rest;
      SplitJoinLines(ls[1..]);
    }
  }

  /** Writing `n` lines produces exactly `n` line terminators. */
  lemma {:induction false} CountNewlinesJoin(ls: seq<string>)
    requires NoNewlines(ls)
    ensures CountNewlines(JoinLines(ls)) == |ls|
  {
    if ls != [] {
      CountNewlinesOfLine(ls[0], JoinLines(ls[1..]));
      CountNewlinesJoin(ls[1..]);
    }
  }

  /** A line without terminators followed by `println`'s terminator adds one. */
  lemma {:induction false} CountNewlinesOfLine(line: string, rest: string)
    requires '\n' !in line
    ensures CountNewlines(line + "\n" + rest) == 1 + CountNewlines(rest)
  {
    if line == [] {
      assert line + "\n" + rest == ['\n'] + rest;
      assert (['\n'] + rest)[1..] == rest;
    } else {
      assert (line + "\n" + rest)[1..] == line[1..] + "\n" + rest;
      CountNewlinesOfLine(line[1..], rest);
    }
  }
}
