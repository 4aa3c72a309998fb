/** The STT report of stt/main.go: the same workflow and notifier as the
    Athena report, with empty query templates, an empty output location, a
    clock reading that can fail, and a window running from midnight to the
    last nanosecond of the UTC day. */
module SttMain {
  import opened Outcomes
  import opened Templates
  import opened Timestamps
  import opened Workflow

  /** `OUTPUT_BUCKET` is the empty string. */
  const OutputBucket: string := ""

  /** Both builders format an empty template with two surplus string
      operands, which Go's `fmt` appends as `%!(EXTRA string=<start>, string=<end>)`. */
  const EmptyTemplate: Template := Template("%!(EXTRA string=", ", string=", ")")

  function GenerateQueryResponseTime(startTime: string, endTime: string): string {
    Fill(EmptyTemplate, startTime, endTime)
  }

  function GenerateQueryStatusCodes(startTime: string, endTime: string): string {
    Fill(EmptyTemplate, startTime, endTime)
  }

  /** Each query carries exactly its window, start literal first (for a start
      literal without a comma); the two builders give the same text. */
  lemma QueriesCarryWindow(startTime: string, endTime: string)
    requires ',' !in startTime
    ensures Extract(EmptyTemplate, GenerateQueryResponseTime(startTime, endTime)) == Some((startTime, endTime))
    ensures GenerateQueryStatusCodes(startTime, endTime) == GenerateQueryResponseTime(startTime, endTime)
  {
    ExtractFill(EmptyTemplate, startTime, endTime);
  }

  const DayStart: Clock := Clock(0, 0, 0, 0)
  /** 23:59:59.999999999, the last nanosecond of the day. */
  const DayEnd: Clock := Clock(23, 59, 59, 999_999_999)

  function StartOfDay(day: Date): string
    requires ValidDate(day)
  {
    FormatTimestamp(day, DayStart)
  }

  function EndOfDay(day: Date): string
    requires ValidDate(day)
  {
    FormatTimestamp(day, DayEnd)
  }

  lemma StartClockText()
    ensures FormatClock(DayStart) == "00:00:00.000Z"
  {
    TwoDigits(0);
    ThreeDigits(0);
  }

  lemma EndClockText()
    ensures FormatClock(DayEnd) == "23:59:59.999Z"
  {
    TwoDigits(23);
    TwoDigits(59);
    ThreeDigits(999);
  }

  lemma StartOfDayText(day: Date)
    requires ValidDate(day)
    ensures StartOfDay(day) == FormatDate(day) + "T00:00:00.000Z"
  {
    StartClockText();
  }

  lemma EndOfDayText(day: Date)
    requires ValidDate(day)
    ensures EndOfDay(day) == FormatDate(day) + "T23:59:59.999Z"
  {
    EndClockText();
  }

  lemma StartOfDayParses(day: Date)
    requires ValidDate(day)
    ensures ParseTimestamp(StartOfDay(day)) == Some((day, DayStart))
  {
    ParseFormatTimestamp(day, DayStart);
    assert TruncateToMillis(DayStart) == DayStart;
  }

  lemma EndOfDayParses(day: Date)
    requires ValidDate(day)
    ensures ParseTimestamp(EndOfDay(day)) == Some((day, Clock(23, 59, 59, 999_000_000)))
  {
    EndTruncates();
    ParseFormatTimestamp(day, DayEnd);
  }

  lemma EndTruncates()
    ensures TruncateToMillis(DayEnd) == Clock(23, 59, 59, 999_000_000)
  {
  }

  /** The window literals are `date + "T00:00:00.000Z"` and
      `date + "T23:59:59.999Z"`: the end-of-day nanoseconds are truncated to
      999 milliseconds, not rounded up into the next day, so the end literal
      reads back as 23:59:59.999 of the same day. */
  lemma WindowStrings(day: Date)
    requires ValidDate(day)
    ensures StartOfDay(day) == FormatDate(day) + "T00:00:00.000Z"
    ensures EndOfDay(day) == FormatDate(day) + "T23:59:59.999Z"
    ensures ParseTimestamp(StartOfDay(day)) == Some((day, DayStart))
    ensures ParseTimestamp(EndOfDay(day)) == Some((day, Clock(23, 59, 59, 999_000_000)))
  {
    StartOfDayText(day);
    EndOfDayText(day);
    StartOfDayParses(day);
    EndOfDayParses(day);
  }

  function ResponseTimeQuery(day: Date): string
    requires ValidDate(day)
  {
    GenerateQueryResponseTime(StartOfDay(day), EndOfDay(day))
  }

  function StatusCodesQuery(day: Date): string
    requires ValidDate(day)
  {
    GenerateQueryStatusCodes(StartOfDay(day), EndOfDay(day))
  }

  /** `cronjobReport`: `now` is what `getCurrentTimeUtc` returns (the date
      part of the current time, or the error of loading the Asia/Bangkok
      location), `reportDay` the date of a second `time.Now()` reading. A
      clock error ends the job before any call. */
  method CronjobReport(services: Services, now: Result<Date>, reportDay: Date) returns (run: Run<()>, calls: seq<Call>)
    requires ValidDate(reportDay)
    requires now.Success? ==> ValidDate(now.value)
    requires now.Success? ==> FetchReadable(services, OutputBucket, ResponseTimeQuery(now.value), 0)
    requires now.Success? ==> FetchReadable(services, OutputBucket, StatusCodesQuery(now.value), 1)
    ensures now.Failure? ==> run == Err(now.error) && calls == []
    ensures now.Success? ==>
      Outcome(run, calls) ==
        ReportSpec(services, OutputBucket, ResponseTimeQuery(now.value), StatusCodesQuery(now.value), FormatDate(reportDay))
  {
    if now.Failure? {
      return Err(now.error), [];
    }
    var day := now.value;
    var startOfDayFormat := FormatTimestamp(day, DayStart);
    var endOfDayFormat := FormatTimestamp(day, DayEnd);
    run, calls := Report(services, OutputBucket,
                         GenerateQueryResponseTime(startOfDayFormat, endOfDayFormat),
                         GenerateQueryStatusCodes(startOfDayFormat, endOfDayFormat),
                         FormatDate(reportDay));
  }

  /** With a clock reading, the job's first call submits the response-time
      query for midnight to 23:59:59.999 of the day to the empty output
      location, and the status-code query, submitted only after the
      response-time workflow returned text, is the very same text. */
  lemma CronjobCalls(services: Services, day: Date, reportDay: Date)
    requires ValidDate(day) && ValidDate(reportDay)
    requires FetchReadable(services, OutputBucket, ResponseTimeQuery(day), 0)
    requires FetchReadable(services, OutputBucket, StatusCodesQuery(day), 1)
    ensures var r := ReportSpec(services, OutputBucket, ResponseTimeQuery(day), StatusCodesQuery(day), FormatDate(reportDay));
      var first := WorkFlowSpec(services, OutputBucket, ResponseTimeQuery(day), 0);
      && r.calls[0] == StartQueryExecution(ResponseTimeQuery(day), OutputBucket)
      && Extract(EmptyTemplate, r.calls[0].query)
           == Some((FormatDate(day) + "T00:00:00.000Z", FormatDate(day) + "T23:59:59.999Z"))
      && (first.run.Ok? ==> r.calls[|first.calls|] == r.calls[0])
  {
    ReportOrder(services, OutputBucket, ResponseTimeQuery(day), StatusCodesQuery(day), FormatDate(reportDay));
    WindowStrings(day);
    TimestampAlphabet(day, DayStart);
    QueriesCarryWindow(StartOfDay(day), EndOfDay(day));
  }
}
