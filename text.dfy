/** Plain string helpers used to state what the job's text output looks like:
    searching for a character, and reading a text back as its lines. */
module Text {

  /** The position of the first `c` in `s`, or `|s|` when there is none. */
  function IndexOf(s: string, c: char): (k: nat)
    ensures k <= |s|
    ensures k < |s| ==> s[k] == c
    ensures forall j :: 0 <= j < k ==> s[j] != c
  {
    if s == [] then 0
    else if s[0] == c then 0
    else 1 + IndexOf(s[1..], c)
  }

  /** The lines of `s` when the line in progress already holds `current`: the
      pieces between newline characters, without the newlines themselves. A
      last piece with no newline after it is a line of its own when it is not
      empty, so a newline-terminated text has exactly one line per newline. */
  function LinesAfter(current: string, s: string): seq<string>
    decreases |s|
  {
    if s == [] then (if current == [] then [] else [current])
    else if s[0] == '\n' then [current] + LinesAfter([], s[1..])
    else LinesAfter(current + [s[0]], s[1..])
  }

  /** The lines of `s`. */
  function Lines(s: string): seq<string> {
    LinesAfter([], s)
  }

  lemma {:induction false} LinesAfterCons(current: string, line: string, rest: string)
    requires '\n' !in line
    ensures LinesAfter(current, line + "\n" + rest) == [current + line] + Lines(rest)
    decreases |line|
  {
    var s := line + "\n" + rest;
    if line == [] {
      assert s == "\n" + rest;
      assert current + line == current;
    } else {
      assert s[0] == line[0];
      assert s[1..] == line[1..] + "\n" + rest;
      LinesAfterCons(current + [line[0]], line[1..], rest);
      assert current + [line[0]] + line[1..] == current + line;
    }
  }

  /** A newline-free line followed by a newline reads back as that line,
      then the lines of whatever follows. */
  lemma LinesCons(line: string, rest: string)
    requires '\n' !in line
    ensures Lines(line + "\n" + rest) == [line] + Lines(rest)
  {
    LinesAfterCons([], line, rest);
    assert [] + line == line;
  }

  /** A newline-free line followed by an empty line reads back as those two
      lines, then the lines of whatever follows. */
  lemma LinesConsBlank(line: string, rest: string)
    requires '\n' !in line
    ensures Lines(line + "\n" + "\n" + rest) == [line, ""] + Lines(rest)
  {
    var blank := "\n" + rest;
    assert line + "\n" + "\n" + rest == line + "\n" + blank;
    LinesCons(line, blank);
    assert "" + "\n" + rest == blank;
    LinesCons("", rest);
  }
}
