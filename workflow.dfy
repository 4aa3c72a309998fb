/** The job's sequencing: `workFlow` (submit, await, fetch and format one
    query) and the part of the cronjob entry points that runs the
    response-time workflow, then the status-code workflow, then the notifier.
    Athena and Telegram are a `Services` record of the answers they give;
    each step records the calls it makes. */
module Workflow {
  import opened Outcomes
  import opened Formatter
  import opened Poller
  import opened Notifier

  /** The answers of the outside services, as functions of the request:
      `startQueryExecution` maps a query, an output location and the
      submission's ordinal in the run (0 for the first query submitted, 1 for
      the second) to an execution id or an SDK error, `getQueryExecution` maps an execution id to
      the answers of the successive status calls, `getQueryResults` maps it to
      the result rows or an SDK error, and `alertTelegram` maps a message text
      to the error that the notifier returns, if any. */
  datatype Services = Services(
    startQueryExecution: (string, string, nat) -> Result<string>,
    getQueryExecution: string -> seq<StatusAnswer>,
    getQueryResults: string -> Result<seq<Row>>,
    alertTelegram: string -> Result<()>)

  /** The rows fetched for `query`, if it is submitted and its results fetched,
      have the two cells the formatter reads. */
  predicate FetchReadable(services: Services, bucket: string, query: string, submission: nat) {
    var submitted := services.startQueryExecution(query, bucket, submission);
    submitted.Success? ==>
      var fetched := services.getQueryResults(submitted.value);
      fetched.Success? ==> AllReadable(fetched.value)
  }

  /** `workFlow` for one query: submit it, then poll, then fetch and format
      the results; the first error ends the workflow and is returned. */
  function WorkFlowSpec(services: Services, bucket: string, query: string, submission: nat): Outcome<string>
    requires FetchReadable(services, bucket, query, submission)
  {
    var submit := StartQueryExecution(query, bucket);
    match services.startQueryExecution(query, bucket, submission)
    case Failure(e) => Outcome(Err(e), [submit])
    case Success(id) =>
      var await := PollVerdict(services.getQueryExecution(id));
      var polled := [submit] + Repeat(GetQueryExecution(id), await.polls);
      match await.verdict
      case Unfinished => Outcome(Unfinished, polled)
      case Err(e) => Outcome(Err(e), polled)
      case Ok(_) =>
        var fetched := polled + [GetQueryResults(id)];
        match ProcessedResults(services.getQueryResults(id))
        case Failure(e) => Outcome(Err(e), fetched)
        case Success(text) => Outcome(Ok(text), fetched)
  }

  /** `workFlow`: `submitAthenaQuery`, `awaitAthenaQuery`, then
      `processAthenaResults`, returning at the first error. */
  method WorkFlow(services: Services, bucket: string, query: string, submission: nat) returns (run: Run<string>, calls: seq<Call>)
    requires FetchReadable(services, bucket, query, submission)
    ensures Outcome(run, calls) == WorkFlowSpec(services, bucket, query, submission)
  {
    calls := [StartQueryExecution(query, bucket)];
    var submitted := services.startQueryExecution(query, bucket, submission);
    if submitted.Failure? {
      return Err(submitted.error), calls;
    }
    var id := submitted.value;

    var verdict, polls := AwaitAthenaQuery(services.getQueryExecution(id));
    calls := calls + Repeat(GetQueryExecution(id), polls);
    if verdict.Unfinished? {
      return Unfinished, calls;
    }
    if verdict.Err? {
      return Err(verdict.error), calls;
    }

    calls := calls + [GetQueryResults(id)];
    var text := ProcessAthenaResults(services.getQueryResults(id));
    if text.Failure? {
      return Err(text.error), calls;
    }
    return Ok(text.value), calls;
  }

  /** A workflow opens with the submission of its query, calls nothing but
      Athena, and fetches results only after the poll loop returned without
      an error; an SDK error on submission skips the rest. */
  lemma WorkFlowCalls(services: Services, bucket: string, query: string, submission: nat)
    requires FetchReadable(services, bucket, query, submission)
    ensures var o := WorkFlowSpec(services, bucket, query, submission);
      && o.calls != [] && o.calls[0] == StartQueryExecution(query, bucket)
      && (forall i :: 0 <= i < |o.calls| ==> !o.calls[i].SendMessage?)
      && (services.startQueryExecution(query, bucket, submission).Failure? ==>
            o == Outcome(Err(services.startQueryExecution(query, bucket, submission).error), [StartQueryExecution(query, bucket)]))
      && ((exists i :: 0 <= i < |o.calls| && o.calls[i].GetQueryResults?) <==>
            && services.startQueryExecution(query, bucket, submission).Success?
            && PollVerdict(services.getQueryExecution(services.startQueryExecution(query, bucket, submission).value)).verdict.Ok?)
  {
    var o := WorkFlowSpec(services, bucket, query, submission);
    var submitted := services.startQueryExecution(query, bucket, submission);
    if submitted.Success? {
      var id := submitted.value;
      var await := PollVerdict(services.getQueryExecution(id));
      var polled := [StartQueryExecution(query, bucket)] + Repeat(GetQueryExecution(id), await.polls);
      assert forall i :: 0 <= i < |polled| ==> !polled[i].GetQueryResults? && !polled[i].SendMessage?;
      if await.verdict.Ok? {
        assert o.calls[|o.calls| - 1].GetQueryResults?;
      }
    }
  }

  /** A workflow that returns text returns the formatted rows of its own
      query's results, fetched after the poll loop returned without an error. */
  lemma WorkFlowText(services: Services, bucket: string, query: string, submission: nat)
    requires FetchReadable(services, bucket, query, submission)
    requires WorkFlowSpec(services, bucket, query, submission).run.Ok?
    ensures var submitted := services.startQueryExecution(query, bucket, submission);
      && submitted.Success?
      && PollVerdict(services.getQueryExecution(submitted.value)).verdict.Ok?
      && services.getQueryResults(submitted.value).Success?
      && WorkFlowSpec(services, bucket, query, submission).run.value == FormatRows(services.getQueryResults(submitted.value).value)
  {
  }

  /** The cronjob after its window is fixed: the response-time workflow, then
      the status-code workflow, then the notifier with the two texts in that
      order under the header for `reportDate`. The first error or an
      unfinished poll ends the run; nothing is sent unless both workflows
      returned text. */
  function ReportSpec(services: Services, bucket: string, responseTimeQuery: string,
                      statusCodesQuery: string, reportDate: string): Outcome<()>
    requires FetchReadable(services, bucket, responseTimeQuery, 0)
    requires FetchReadable(services, bucket, statusCodesQuery, 1)
  {
    var first := WorkFlowSpec(services, bucket, responseTimeQuery, 0);
    if !first.run.Ok? then Outcome(first.run.Discard(), first.calls)
    else
      var second := WorkFlowSpec(services, bucket, statusCodesQuery, 1);
      if !second.run.Ok? then Outcome(second.run.Discard(), first.calls + second.calls)
      else
        var text := ReportText(reportDate, [first.run.value, second.run.value]);
        var sent := services.alertTelegram(text);
        Outcome(if sent.Failure? then Err(sent.error) else Ok(()),
                first.calls + second.calls + [SendMessage(text)])
  }

  /** The sequencing shared by both cronjob entry points. */
  method Report(services: Services, bucket: string, responseTimeQuery: string,
                statusCodesQuery: string, reportDate: string) returns (run: Run<()>, calls: seq<Call>)
    requires FetchReadable(services, bucket, responseTimeQuery, 0)
    requires FetchReadable(services, bucket, statusCodesQuery, 1)
    ensures Outcome(run, calls) == ReportSpec(services, bucket, responseTimeQuery, statusCodesQuery, reportDate)
  {
    var textResponseTime, firstCalls := WorkFlow(services, bucket, responseTimeQuery, 0);
    calls := firstCalls;
    if !textResponseTime.Ok? {
      return textResponseTime.Discard(), calls;
    }
    var textStatusCode, secondCalls := WorkFlow(services, bucket, statusCodesQuery, 1);
    calls := calls + secondCalls;
    if !textStatusCode.Ok? {
      return textStatusCode.Discard(), calls;
    }
    var text := ComposeReport(reportDate, [textResponseTime.value, textStatusCode.value]);
    calls := calls + [SendMessage(text)];
    var sent := services.alertTelegram(text);
    if sent.Failure? {
      return Err(sent.error), calls;
    }
    return Ok(()), calls;
  }

  /** The run opens with the response-time query's submission; the status-code
      query is submitted only after the response-time workflow returned text,
      and directly after that workflow's calls. */
  lemma ReportOrder(services: Services, bucket: string, responseTimeQuery: string,
                    statusCodesQuery: string, reportDate: string)
    requires FetchReadable(services, bucket, responseTimeQuery, 0)
    requires FetchReadable(services, bucket, statusCodesQuery, 1)
    ensures var r := ReportSpec(services, bucket, responseTimeQuery, statusCodesQuery, reportDate);
      var first := WorkFlowSpec(services, bucket, responseTimeQuery, 0);
      && r.calls[0] == StartQueryExecution(responseTimeQuery, bucket)
      && r.calls[..|first.calls|] == first.calls
      && (first.run.Ok? <==> |r.calls| > |first.calls|)
      && (first.run.Ok? ==> r.calls[|first.calls|] == StartQueryExecution(statusCodesQuery, bucket))
  {
    WorkFlowCalls(services, bucket, responseTimeQuery, 0);
    WorkFlowCalls(services, bucket, statusCodesQuery, 1);
  }

  /** A message is sent only when both workflows returned text, it is then the
      last call, and its text is the report with the response-time section
      first and the status-code section second. */
  lemma SendOnlyAfterBoth(services: Services, bucket: string, responseTimeQuery: string,
                          statusCodesQuery: string, reportDate: string)
    requires FetchReadable(services, bucket, responseTimeQuery, 0)
    requires FetchReadable(services, bucket, statusCodesQuery, 1)
    ensures var r := ReportSpec(services, bucket, responseTimeQuery, statusCodesQuery, reportDate);
      var first := WorkFlowSpec(services, bucket, responseTimeQuery, 0);
      var second := WorkFlowSpec(services, bucket, statusCodesQuery, 1);
      && ((exists i :: 0 <= i < |r.calls| && r.calls[i].SendMessage?) <==> first.run.Ok? && second.run.Ok?)
      && (first.run.Ok? && second.run.Ok? ==>
            r.calls[|r.calls| - 1] == SendMessage(ReportText(reportDate, [first.run.value, second.run.value])))
  {
    WorkFlowCalls(services, bucket, responseTimeQuery, 0);
    WorkFlowCalls(services, bucket, statusCodesQuery, 1);
    var r := ReportSpec(services, bucket, responseTimeQuery, statusCodesQuery, reportDate);
    var first := WorkFlowSpec(services, bucket, responseTimeQuery, 0);
    var second := WorkFlowSpec(services, bucket, statusCodesQuery, 1);
    if first.run.Ok? && second.run.Ok? {
      assert r.calls[|r.calls| - 1].SendMessage?;
    } else if first.run.Ok? {
      assert r.calls == first.calls + second.calls;
      assert forall i :: 0 <= i < |r.calls| ==> !r.calls[i].SendMessage? by {
        forall i | 0 <= i < |r.calls| ensures !r.calls[i].SendMessage? {
          if i >= |first.calls| {
            assert r.calls[i] == second.calls[i - |first.calls|];
          }
        }
      }
    }
  }

  /** The run succeeds exactly when both workflows returned text and the
      notifier returned no error; otherwise it returns the first error met,
      in step order, or is still polling. */
  lemma ReportResult(services: Services, bucket: string, responseTimeQuery: string,
                     statusCodesQuery: string, reportDate: string)
    requires FetchReadable(services, bucket, responseTimeQuery, 0)
    requires FetchReadable(services, bucket, statusCodesQuery, 1)
    ensures var r := ReportSpec(services, bucket, responseTimeQuery, statusCodesQuery, reportDate);
      var first := WorkFlowSpec(services, bucket, responseTimeQuery, 0);
      var second := WorkFlowSpec(services, bucket, statusCodesQuery, 1);
      && (r.run == Ok(()) <==>
            && first.run.Ok? && second.run.Ok?
            && services.alertTelegram(ReportText(reportDate, [first.run.value, second.run.value])).Success?)
      && (first.run.Err? ==> r.run == Err(first.run.error))
      && (first.run.Ok? && second.run.Err? ==> r.run == Err(second.run.error))
  {
  }
}
