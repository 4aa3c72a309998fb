/** The Athena report of athena/report.go: its two query templates, its
    output location, its report window (midnight to 17:00 UTC of the current
    day) and its entry point `CronjobReport`. */
module AthenaReport {
  import opened Outcomes
  import opened Templates
  import opened Timestamps
  import opened Workflow

  /** Where Athena stores the results of the job's queries. */
  const OutputBucket: string := "s3://aws-athena-emandai/REPORTS"

  /** The response-time query: how many successful requests fall in each
      processing-time bucket within the window. */
  const ResponseTimeTemplate: Template := Template(
      "WITH time_intervals AS (\n"
      + "\t\t\t  SELECT\n"
      + "\t\t\t\tCASE\n"
      + "\t\t\t      WHEN target_processing_time >= 0 AND target_processing_time <= 0.8 THEN '0-3 seconds'\n"
      + "\t\t\t\t  WHEN target_processing_time > 0.8 AND target_processing_time <= 3 THEN '0-3 seconds'\n"
      + "\t\t\t\t  WHEN target_processing_time > 3 AND target_processing_time <= 5 THEN '3-5 seconds'\n"
      + "\t\t\t\t  ELSE '>5 seconds'\n"
      + "\t\t\t\tEND AS time_interval\n"
      + "\t\t\t  FROM s3_albvaenginelogs_db.s3_alb_va_engine_logs\n"
      + "\t\t\t  WHERE request_url = 'https://apis-new.vastt.vnlp.ai:443/transform-service/va/stt?noiseDetection=true'\n"
      + "\t\t\t    AND (client_ip = '124.158.11.112' OR client_ip = '119.82.135.12')\n"
      + "\t\t\t    AND elb_status_code = 200\n"
      + "\t\t\t    AND (time >= '",
      "' AND time <= '",
      "')\n"
      + "\t\t\t)\n"
      + "\t\t\tSELECT time_interval, COUNT(*) AS count\n"
      + "\t\t\tFROM time_intervals\n"
      + "\t\t\tGROUP BY time_interval\n"
      + "\t\t\tORDER BY time_interval")

  /** The status-code query: how many requests ended with each ELB status
      code within the window. */
  const StatusCodesTemplate: Template := Template(
      "SELECT elb_status_code, COUNT(elb_status_code) AS total_request\n"
      + "\t\t\tFROM s3_albvaenginelogs_db.s3_alb_va_engine_logs\n"
      + "\t\t\tWHERE request_url = 'https://apis-new.vastt.vnlp.ai:443/transform-service/va/stt?noiseDetection=true'\n"
      + "\t\t\t  AND (client_ip = '124.158.11.112' OR client_ip = '119.82.135.12')\n"
      + "\t\t\t  AND (time >= '",
      "' AND time <= '",
      "')\n"
      + "\t\t\tGROUP BY elb_status_code\n"
      + "\t\t\tORDER BY elb_status_code ASC")

  function GenerateQueryResponseTime(startTime: string, endTime: string): string {
    Fill(ResponseTimeTemplate, startTime, endTime)
  }

  function GenerateQueryStatusCodes(startTime: string, endTime: string): string {
    Fill(StatusCodesTemplate, startTime, endTime)
  }

  /** Both queries hold exactly the window they were built from, start
      literal before end literal, for any start literal without a quote. */
  lemma QueriesCarryWindow(startTime: string, endTime: string)
    requires '\'' !in startTime
    ensures Extract(ResponseTimeTemplate, GenerateQueryResponseTime(startTime, endTime)) == Some((startTime, endTime))
    ensures Extract(StatusCodesTemplate, GenerateQueryStatusCodes(startTime, endTime)) == Some((startTime, endTime))
  {
    ExtractFill(ResponseTimeTemplate, startTime, endTime);
    ExtractFill(StatusCodesTemplate, startTime, endTime);
  }

  /** The window opens at midnight UTC and closes at 17:00 UTC of the same day. */
  const DayStart: Clock := Clock(0, 0, 0, 0)
  const DayEnd: Clock := Clock(17, 0, 0, 0)

  function StartOfDay(day: Date): string
    requires ValidDate(day)
  {
    FormatTimestamp(day, DayStart)
  }

  function EndOfDay(day: Date): string
    requires ValidDate(day)
  {
    FormatTimestamp(day, DayEnd)
  }

  lemma StartClockText()
    ensures FormatClock(DayStart) == "00:00:00.000Z"
  {
    TwoDigits(0);
    ThreeDigits(0);
  }

  lemma EndClockText()
    ensures FormatClock(DayEnd) == "17:00:00.000Z"
  {
    TwoDigits(17);
    TwoDigits(0);
    ThreeDigits(0);
  }

  lemma StartOfDayText(day: Date)
    requires ValidDate(day)
    ensures StartOfDay(day) == FormatDate(day) + "T00:00:00.000Z"
  {
    StartClockText();
  }

  lemma EndOfDayText(day: Date)
    requires ValidDate(day)
    ensures EndOfDay(day) == FormatDate(day) + "T17:00:00.000Z"
  {
    EndClockText();
  }

  lemma StartOfDayParses(day: Date)
    requires ValidDate(day)
    ensures ParseTimestamp(StartOfDay(day)) == Some((day, DayStart))
  {
    ParseFormatTimestamp(day, DayStart);
    assert TruncateToMillis(DayStart) == DayStart;
  }

  lemma EndOfDayParses(day: Date)
    requires ValidDate(day)
    ensures ParseTimestamp(EndOfDay(day)) == Some((day, DayEnd))
  {
    ParseFormatTimestamp(day, DayEnd);
    assert TruncateToMillis(DayEnd) == DayEnd;
  }

  /** The window literals are the day's date followed by the fixed times of
      day, in the "2006-01-02T15:04:05.000Z" layout, and read back as exactly
      those instants. */
  lemma WindowStrings(day: Date)
    requires ValidDate(day)
    ensures StartOfDay(day) == FormatDate(day) + "T00:00:00.000Z"
    ensures EndOfDay(day) == FormatDate(day) + "T17:00:00.000Z"
    ensures ParseTimestamp(StartOfDay(day)) == Some((day, DayStart))
    ensures ParseTimestamp(EndOfDay(day)) == Some((day, DayEnd))
  {
    StartOfDayText(day);
    EndOfDayText(day);
    StartOfDayParses(day);
    EndOfDayParses(day);
  }

  /** The queries the entry point submits for the day, response time first. */
  function ResponseTimeQuery(day: Date): string
    requires ValidDate(day)
  {
    GenerateQueryResponseTime(StartOfDay(day), EndOfDay(day))
  }

  function StatusCodesQuery(day: Date): string
    requires ValidDate(day)
  {
    GenerateQueryStatusCodes(StartOfDay(day), EndOfDay(day))
  }

  /** `CronjobReport`: the window is the UTC day `day` (the date part of
      `time.Now().UTC()`), the report header carries `reportDay` (the date of
      a second `time.Now()` reading, in local time). */
  method CronjobReport(services: Services, day: Date, reportDay: Date) returns (run: Run<()>, calls: seq<Call>)
    requires ValidDate(day) && ValidDate(reportDay)
    requires FetchReadable(services, OutputBucket, ResponseTimeQuery(day), 0)
    requires FetchReadable(services, OutputBucket, StatusCodesQuery(day), 1)
    ensures Outcome(run, calls) ==
      ReportSpec(services, OutputBucket, ResponseTimeQuery(day), StatusCodesQuery(day), FormatDate(reportDay))
  {
    var startOfDayFormat := FormatTimestamp(day, DayStart);
    var endOfDayFormat := FormatTimestamp(day, DayEnd);
    run, calls := Report(services, OutputBucket,
                         GenerateQueryResponseTime(startOfDayFormat, endOfDayFormat),
                         GenerateQueryStatusCodes(startOfDayFormat, endOfDayFormat),
                         FormatDate(reportDay));
  }

  /** The job's first call submits the response-time query for midnight to
      17:00 of the day to the report bucket, and the window it carries can be
      read back out of the query text. */
  lemma CronjobFirstCall(services: Services, day: Date, reportDay: Date)
    requires ValidDate(day) && ValidDate(reportDay)
    requires FetchReadable(services, OutputBucket, ResponseTimeQuery(day), 0)
    requires FetchReadable(services, OutputBucket, StatusCodesQuery(day), 1)
    ensures var r := ReportSpec(services, OutputBucket, ResponseTimeQuery(day), StatusCodesQuery(day), FormatDate(reportDay));
      && r.calls[0] == StartQueryExecution(ResponseTimeQuery(day), OutputBucket)
      && Extract(ResponseTimeTemplate, r.calls[0].query)
           == Some((FormatDate(day) + "T00:00:00.000Z", FormatDate(day) + "T17:00:00.000Z"))
  {
    ReportOrder(services, OutputBucket, ResponseTimeQuery(day), StatusCodesQuery(day), FormatDate(reportDay));
    WindowStrings(day);
    TimestampAlphabet(day, DayStart);
    QueriesCarryWindow(StartOfDay(day), EndOfDay(day));
  }
}
