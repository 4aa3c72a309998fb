/** A query template with two `%s` verbs, as the `generateQuery*` builders
    fill it with `fmt.Sprintf`: fixed text, the start literal, fixed text,
    the end literal, fixed text. */
module Templates {
  import opened Outcomes
  import opened Text

  datatype Template = Template(prefix: string, middle: string, suffix: string)

  /** The query text for the window from `start` to `end`. */
  function Fill(t: Template, start: string, end: string): string {
    t.prefix + start + t.middle + end + t.suffix
  }

  /** Reads the two literals back out of a query text: the start literal runs
      from the end of the prefix to the first character that begins the
      middle text, and the end literal from there to the suffix. */
  function Extract(t: Template, q: string): Option<(string, string)> {
    if t.middle == [] || |q| < |t.prefix| || q[..|t.prefix|] != t.prefix then None
    else
      var rest := q[|t.prefix|..];
      var k := IndexOf(rest, t.middle[0]);
      var tail := rest[k..];
      if |tail| < |t.middle| + |t.suffix| || tail[..|t.middle|] != t.middle
         || tail[|tail| - |t.suffix|..] != t.suffix then None
      else Some((rest[..k], tail[|t.middle|..|tail| - |t.suffix|]))
  }

  /** The query holds exactly the window it was built from, start literal
      first: reading it back gives that start and that end and no others
      (for a start literal that does not contain the character the middle
      text begins with). */
  lemma ExtractFill(t: Template, start: string, end: string)
    requires t.middle != [] && t.middle[0] !in start
    ensures Extract(t, Fill(t, start, end)) == Some((start, end))
  {
    var q := Fill(t, start, end);
    assert q[..|t.prefix|] == t.prefix;
    var rest := q[|t.prefix|..];
    assert rest == start + t.middle + end + t.suffix;
    var k := IndexOf(rest, t.middle[0]);
    assert k == |start| by {
      assert forall j :: 0 <= j < |start| ==> rest[j] == start[j];
      assert rest[|start|] == t.middle[0];
    }
    assert rest[..k] == start;
    var tail := rest[k..];
    assert tail == t.middle + end + t.suffix;
    assert tail[..|t.middle|] == t.middle;
    assert tail[|tail| - |t.suffix|..] == t.suffix;
    assert tail[|t.middle|..|tail| - |t.suffix|] == end;
  }
}
