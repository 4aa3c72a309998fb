/** The poll loop of `awaitAthenaQuery`. The answers that successive
    `GetQueryExecution` calls give are an input sequence; the loop reads them
    in order until one of them ends it. */
module Poller {
  import opened Outcomes

  /** One answer to `GetQueryExecution`: the query's state and state-change
      reason, or an SDK error. */
  datatype StatusAnswer = Status(state: string, stateChangeReason: string) | StatusError(error: Error)

  /** The two states in which the loop sleeps and asks again. */
  predicate StillRunning(state: string) {
    state == "QUEUED" || state == "RUNNING"
  }

  predicate KeepsPolling(answer: StatusAnswer) {
    answer.Status? && StillRunning(answer.state)
  }

  /** The error returned for a query that ended in the FAILED state. */
  function QueryFailed(reason: string): Error {
    Errorf("Query encountered an error: " + reason)
  }

  /** What the loop returns and how many status calls it made. */
  datatype Await = Await(verdict: Run<()>, polls: nat)

  /** The loop's result on a sequence of answers: an SDK error is returned
      unchanged, QUEUED and RUNNING go on to the next answer, FAILED returns
      an error carrying the reason, and every other state ends the loop
      without an error. When the answers run out first, the loop is still
      running. */
  function PollVerdict(answers: seq<StatusAnswer>): (a: Await)
    ensures a.polls <= |answers|
  {
    if answers == [] then Await(Unfinished, 0)
    else
      match answers[0]
      case StatusError(e) => Await(Err(e), 1)
      case Status(state, reason) =>
        if StillRunning(state) then
          var rest := PollVerdict(answers[1..]);
          Await(rest.verdict, rest.polls + 1)
        else if state == "FAILED" then Await(Err(QueryFailed(reason)), 1)
        else Await(Ok(()), 1)
  }

  /** `awaitAthenaQuery`'s loop, one status call per iteration, with
      the 2-second sleep between calls left out. The source's `break` out of
      the loop followed by `return nil` is written as one `return`. */
  method AwaitAthenaQuery(answers: seq<StatusAnswer>) returns (verdict: Run<()>, polls: nat)
    ensures Await(verdict, polls) == PollVerdict(answers)
  {
    polls := 0;
    while polls < |answers|
      invariant polls <= |answers|
      invariant PollVerdict(answers) ==
        Await(PollVerdict(answers[polls..]).verdict, PollVerdict(answers[polls..]).polls + polls)
    {
      var answer := answers[polls];
      assert answers[polls..][1..] == answers[polls + 1..];
      polls := polls + 1;
      if answer.StatusError? {
        return Err(answer.error), polls;
      }
      if !StillRunning(answer.state) {
        if answer.state == "FAILED" {
          return Err(QueryFailed(answer.stateChangeReason)), polls;
        }
        return Ok(()), polls;
      }
    }
    verdict := Unfinished;
  }

  /** The loop's result is decided by the first answer that is not QUEUED or
      RUNNING, after exactly that many status calls: an SDK error comes back
      unchanged, FAILED comes back as an error carrying the reason, and any
      other state, CANCELLED included, is a success. */
  lemma {:induction false} PollVerdictAt(answers: seq<StatusAnswer>, k: nat)
    requires k < |answers|
    requires forall j :: 0 <= j < k ==> KeepsPolling(answers[j])
    requires !KeepsPolling(answers[k])
    ensures PollVerdict(answers).polls == k + 1
    ensures answers[k].StatusError? ==> PollVerdict(answers).verdict == Err(answers[k].error)
    ensures answers[k].Status? && answers[k].state == "FAILED" ==>
      PollVerdict(answers).verdict == Err(QueryFailed(answers[k].stateChangeReason))
    ensures answers[k].Status? && answers[k].state != "FAILED" ==> PollVerdict(answers).verdict == Ok(())
  {
    if k > 0 {
      assert KeepsPolling(answers[0]);
      PollVerdictAt(answers[1..], k - 1);
    }
  }

  /** The loop is still running when the answers run out exactly when every
      answer was QUEUED or RUNNING; it then made one call per answer. */
  lemma {:induction false} UnfinishedIff(answers: seq<StatusAnswer>)
    ensures PollVerdict(answers).verdict.Unfinished? <==>
      forall j :: 0 <= j < |answers| ==> KeepsPolling(answers[j])
    ensures PollVerdict(answers).verdict.Unfinished? ==> PollVerdict(answers).polls == |answers|
  {
    if answers != [] {
      UnfinishedIff(answers[1..]);
      assert forall j :: 1 <= j < |answers| ==> answers[j] == answers[1..][j - 1];
    }
  }

  /** A query reported CANCELLED ends the loop without an error, although the
      comment above `awaitAthenaQuery` says a cancelled query is an error. */
  lemma CancelledIsSuccess(answers: seq<StatusAnswer>, k: nat, reason: string)
    requires k < |answers|
    requires forall j :: 0 <= j < k ==> KeepsPolling(answers[j])
    requires answers[k] == Status("CANCELLED", reason)
    ensures PollVerdict(answers).verdict == Ok(())
  {
    PollVerdictAt(answers, k);
  }

  /** Once the loop has returned, later answers are never read: appending
      answers after a finished poll changes neither its result nor its call count. */
  lemma {:induction false} VerdictIsFinal(answers: seq<StatusAnswer>, more: seq<StatusAnswer>)
    requires !PollVerdict(answers).verdict.Unfinished?
    ensures PollVerdict(answers + more) == PollVerdict(answers)
  {
    assert answers != [];
    assert (answers + more)[0] == answers[0];
    if KeepsPolling(answers[0]) {
      assert (answers + more)[1..] == answers[1..] + more;
      VerdictIsFinal(answers[1..], more);
    }
  }
}
