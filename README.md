# STT daily report job: a Dafny model

The job runs once a day as an AWS Lambda function. It submits two Athena
queries over the load-balancer logs of the STT service: request counts by
response-time bucket, and request counts by status code. It waits for each
query to finish and formats each result set as a small text block. It then
posts both blocks, under a dated header, to a Telegram chat. The repository
holds two near-identical copies of this job: `athena/report.go` and
`stt/main.go`.

This project models the logic that sits under the SDK and HTTP calls:

- **Formatter** (`processAthenaResults`): rows of string cells become the
  text `* | c0 | c1 |` for row 0 and `  + c0: c1 requests` for each later row,
  one newline-terminated line per row. A method with the source's loop is
  proved equal to a recursive specification. Lemmas cover the append step,
  the header, reading the text back as lines, and the fact that only two
  cells are read.
- **Notifier text** (`alertTelegram`): the header `✍️ [date] Report STT`
  followed by a blank line, then each section and a newline, in argument
  order.
- **Poll loop** (`awaitAthenaQuery`): the answers to successive
  `GetQueryExecution` calls are an input sequence. QUEUED and RUNNING poll
  again. FAILED returns `Query encountered an error: <reason>`. An SDK error
  is returned unchanged. Every other state returns success, CANCELLED
  included. The comment above the function says a cancelled query is an
  error; the model follows the code. When the answers run out with the query
  still queued or running, the verdict is `Unfinished`.
- **Workflow** (`workFlow`): submit, then await, then fetch and format.
  The first error ends the workflow. Each step records the calls it makes
  (`StartQueryExecution`, one `GetQueryExecution` per poll, `GetQueryResults`,
  `SendMessage`), so that "skipped" and "in order" can be stated.
- **Entry points** (`CronjobReport` and `cronjobReport`): the report window
  in the `2006-01-02T15:04:05.000Z` layout. The response-time workflow runs
  before the status-code workflow, and the notifier runs only when both
  returned text. The Athena copy's window ends at 17:00:00.000 UTC.
  The STT copy's window ends at 23:59:59.999999999, which Go prints
  truncated as `23:59:59.999`.

Athena and Telegram are a `Workflow.Services` record of functions:

- query, output location and submission ordinal (0 or 1) → execution id or error;
- execution id → the sequence of status answers;
- execution id → rows or error;
- message text → the error `alertTelegram` returns, if any.

The dates come in as inputs. `Timestamps` reproduces Go's `time.Format` for
the two layouts used, and a reader proves that what it prints reads back
(`ParseFormatTimestamp`).

The STT copy formats an empty template with two string operands. Go's `fmt`
prints the surplus operands as `%!(EXTRA string=<start>, string=<end>)`, and
`SttMain` models exactly that text. So in that copy the two submitted queries
are the same text. Its output location is empty.

Files: `outcomes.dfy`, `text.dfy`, `templates.dfy`, `timestamps.dfy`,
`formatter.dfy`, `notifier.dfy`, `poller.dfy`, `workflow.dfy` (shared by both
copies), `athena_report.dfy`, `stt_main.dfy` (per-copy constants and entry
points).

## Model

| member | source | states |
|---|---|---|
| Formatter.ProcessAthenaResults | athena/report.go:112-130 | a `GetQueryResults` error is returned unchanged; otherwise the loop's text equals `FormatRows(rows)`: nothing for no rows, the header line for row 0, a bullet line for each later row |
| Formatter.AppendRow | athena/report.go:122-128 | formatting one more row keeps the earlier text as a prefix and appends exactly `"* \| c0 \| c1 \|\n"` when it is the first row, `"  + c0: c1 requests\n"` otherwise |
| Formatter.FormatStartsWithHeader | athena/report.go:121-126 | the text is empty exactly when there are no rows; otherwise it starts with `"* \| " + c0 + " \| " + c1 + " \|\n"` of row 0 |
| Formatter.FormatReadsTwoCells | athena/report.go:124-127 | rows that agree on cells 0 and 1 format identically, whatever else they hold |
| Formatter.FormatLines | stt/main.go:110-118 | read back by lines, the text has exactly one line per row, in order: `* \| c0 \| c1 \|` for row 0, `  + c0: c1 requests` after (cells without newlines) |
| Formatter.FormatStatusCodesExample | stt/main.go:113-116 | rows `[["200","10"],["404","2"]]` format to `"* \| 200 \| 10 \|\n  + 404: 2 requests\n"` |
| Notifier.ComposeReport | athena/report.go:134-138 | the loop's text equals the header `"✍️ [" + date + "] Report STT\n\n"` followed by each text plus `"\n"` in order; with no texts it is the header |
| Notifier.SectionsAppend | athena/report.go:136-138 | the sections of `a + b` are the sections of `a` followed by those of `b` |
| Notifier.ReportAppend | athena/report.go:137 | one more section keeps the earlier report as a prefix and appends that text and a newline |
| Notifier.ReportLines | stt/main.go:123-127 | read back by lines, the report is the title line, an empty line, then each text in argument order (no embedded newlines) |
| Notifier.ReportExample | stt/main.go:123-127 | texts `["A","B"]` on `2024-01-01` give `"✍️ [2024-01-01] Report STT\n\nA\nB\n"` |
| Poller.AwaitAthenaQuery | athena/report.go:82-105 | the loop returns the verdict and the number of status calls that `PollVerdict` assigns to the answers |
| Poller.PollVerdictAt | athena/report.go:88-104 | the first answer that is not QUEUED/RUNNING decides, after exactly that many calls: SDK error unchanged, FAILED as an error carrying the reason, any other state success |
| Poller.CancelledIsSuccess | athena/report.go:78-99 | a query that ends CANCELLED returns success, although the comment says a cancelled query is an error |
| Poller.UnfinishedIff | stt/main.go:77-92 | the loop is still polling when the answers run out iff every answer was QUEUED or RUNNING, after one call per answer |
| Poller.VerdictIsFinal | stt/main.go:78-88 | once the loop returned, later answers are never read: appending answers changes neither verdict nor call count |
| Templates.ExtractFill | athena/report.go:18-47 | a query built from a template holds exactly the start and end literals it was given, start first: reading them back gives those two |
| Timestamps.ParseFormatTimestamp | athena/report.go:210-211 | a timestamp printed with `2006-01-02T15:04:05.000Z` reads back as its date and clock, nanoseconds truncated to milliseconds |
| Timestamps.ParseFormatDate | athena/report.go:222 | a date printed with `2006-01-02` reads back as that date |
| Timestamps.TimestampAlphabet | stt/main.go:191-192 | a printed timestamp holds only digits and `-T:.Z`, in particular no quote and no comma |
| Workflow.WorkFlow | athena/report.go:163-181 | submit, await, fetch: the returned value and calls are `WorkFlowSpec`'s, the first error ending the workflow |
| Workflow.WorkFlowCalls | athena/report.go:164-178 | the first call submits the query; a submit error ends the workflow with that error after that one call; results are fetched iff the submission succeeded and the poll returned success; nothing is sent |
| Workflow.WorkFlowText | stt/main.go:152-170 | returned text means: submitted, polled to success, fetched, and the text is the formatted rows of that query's results |
| Workflow.Report | athena/report.go:213-227 | the two workflows and the notifier run as `ReportSpec` says: response time first, status codes second, notify last, stopping at the first error |
| Workflow.ReportOrder | athena/report.go:214-221 | the run opens with the response-time submission and the status-code query is submitted, right after the first workflow's calls, iff the first workflow returned text |
| Workflow.SendOnlyAfterBoth | stt/main.go:194-205 | a message is sent iff both workflows returned text; it is then the last call and carries the report of the two texts in order |
| Workflow.ReportResult | stt/main.go:195-205 | the run succeeds iff both workflows returned text and the notifier returned no error; otherwise the first workflow error is returned |
| AthenaReport.QueriesCarryWindow | athena/report.go:18-47 | both Athena queries hold exactly their start and end literals, start first |
| AthenaReport.WindowStrings | athena/report.go:208-211 | the window is `date + "T00:00:00.000Z"` to `date + "T17:00:00.000Z"` for one calendar day, and reads back as those instants |
| AthenaReport.CronjobReport | athena/report.go:183-228 | the entry point runs `ReportSpec` with the report bucket, the two queries for the day's window and the report date |
| AthenaReport.CronjobFirstCall | athena/report.go:206-214 | the first call submits the response-time query, whose window reads back as midnight to 17:00 of the day |
| SttMain.QueriesCarryWindow | stt/main.go:24-30 | the STT queries hold exactly their start and end literals, start first, and the two builders give the same text |
| SttMain.WindowStrings | stt/main.go:188-193 | the window is `date + "T00:00:00.000Z"` to `date + "T23:59:59.999Z"`: the end-of-day nanoseconds are truncated, not rounded into the next day |
| SttMain.CronjobReport | stt/main.go:172-206 | a clock error is returned before any call; otherwise the entry point runs `ReportSpec` with the empty output location, the day's queries and the report date |
| SttMain.CronjobCalls | stt/main.go:188-198 | the first call submits the response-time query for midnight to 23:59:59.999; the status-code submission, if any, carries the same text |

## Left out

- AWS SDK calls, sessions and `lambda.Start`: foreign calls. The services are functions from the request to the answer; `submitAthenaQuery` is its `StartQueryExecution` call and error return.
- Services whose answers depend on more than the request: the model fixes each answer by the request. For submissions that includes the ordinal 0 or 1, since the STT copy submits the same text twice.
- `time.Sleep` and the unboundedness of the poll loop: the loop reads a finite sequence of answers, and running out of answers gives `Unfinished`.
- `time.Now`, `time.LoadLocation("Asia/Bangkok")` and `time.Date`'s calendar arithmetic: clock and timezone library behaviour. The dates are inputs. `ValidDate` checks field ranges, not month lengths, and years are limited to 0-9999 (the range Go prints as four digits).
- The HTTP POST, `json.Marshal` and response handling in `alertTelegram`: I/O. What it returns is an input. The model does not capture that it returns the (usually nil) post error on a non-200 status, nor that `res.Body.Close` panics when the post itself fails.
- The SQL itself (bucketing, filters): Athena evaluates it, not this code. The templates are kept only as text.
- Logging and `fmt.Println`/`fmt.Printf` output.
- Go panics: nil dereferences of `VarCharValue`, `State`, `StateChangeReason` and `QueryExecutionId` are not modelled (cells, states and reasons are plain strings). The index panic on a row with fewer than two cells is a precondition (`Formatter.Readable`).
- Config loading: the Athena copy's `util.Config` literal contributes only its output bucket. The region, the Telegram token and the chat id reach only the left-out calls.
