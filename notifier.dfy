/** The text that `alertTelegram` posts: a fixed header carrying a date,
    followed by each section text and a newline, in argument order. */
module Notifier {
  import opened Text

  /** The first line of the report header: the writing-hand emoji (U+270D
      U+FE0F), the date in brackets and the title, without its newline. */
  function TitleLine(date: string): string {
    "\U{270D}\U{FE0F} [" + date + "] Report STT"
  }

  /** The report header for `date`: the title line, then a blank line. */
  function Header(date: string): string {
    TitleLine(date) + "\n" + "\n"
  }

  /** Each section text followed by a newline, in order. */
  function Sections(texts: seq<string>): string {
    if texts == [] then "" else texts[0] + "\n" + Sections(texts[1..])
  }

  /** The whole message text for `date` and the section texts. */
  function ReportText(date: string, texts: seq<string>): string {
    Header(date) + Sections(texts)
  }

  /** The text-building loop of `alertTelegram`: start from the header and
      append every section followed by a newline. */
  method ComposeReport(date: string, texts: seq<string>) returns (text: string)
    ensures text == ReportText(date, texts)
    ensures texts == [] ==> text == Header(date)
  {
    text := Header(date);
    for i := 0 to |texts|
      invariant text == Header(date) + Sections(texts[..i])
    {
      SectionsAppend(texts[..i], [texts[i]]);
      assert texts[..i + 1] == texts[..i] + [texts[i]];
      text := text + texts[i] + "\n";
    }
    assert texts[..|texts|] == texts;
  }

  /** Sections compose: the sections of `a + b` are those of `a`, then those of `b`. */
  lemma {:induction false} SectionsAppend(a: seq<string>, b: seq<string>)
    ensures Sections(a + b) == Sections(a) + Sections(b)
  {
    if a == [] {
      assert a + b == b;
    } else {
      assert (a + b)[1..] == a[1..] + b;
      SectionsAppend(a[1..], b);
    }
  }

  /** Adding a section to a report keeps the earlier text as a prefix and
      appends that section and a newline: the sections appear in argument order. */
  lemma ReportAppend(date: string, texts: seq<string>, t: string)
    ensures ReportText(date, texts + [t]) == ReportText(date, texts) + t + "\n"
  {
    SectionsAppend(texts, [t]);
  }

  lemma {:induction false} SectionLines(texts: seq<string>)
    requires forall i :: 0 <= i < |texts| ==> '\n' !in texts[i]
    ensures Lines(Sections(texts)) == texts
  {
    if texts != [] {
      SectionLines(texts[1..]);
      LinesCons(texts[0], Sections(texts[1..]));
    }
  }

  lemma TitleSingleLine(date: string)
    requires '\n' !in date
    ensures '\n' !in TitleLine(date)
  {
  }

  /** Read back line by line, the report is the title line, a blank line, then
      each section text on a line of its own, in argument order (for a date and
      section texts without newlines of their own). */
  lemma ReportLines(date: string, texts: seq<string>)
    requires '\n' !in date
    requires forall i :: 0 <= i < |texts| ==> '\n' !in texts[i]
    ensures Lines(ReportText(date, texts)) == [TitleLine(date), ""] + texts
  {
    TitleSingleLine(date);
    LinesConsBlank(TitleLine(date), Sections(texts));
    SectionLines(texts);
  }

  /** The worked example: two sections "A" and "B" on 2024-01-01. */
  lemma ReportExample()
    ensures ReportText("2024-01-01", ["A", "B"]) == "\U{270D}\U{FE0F} [2024-01-01] Report STT\n\nA\nB\n"
  {
  }
}
