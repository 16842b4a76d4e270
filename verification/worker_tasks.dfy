/**
 The Celery task `process_map_inference` of `src/worker/tasks.py`: a noise
 gate on the measured area and exponential-backoff retry on any exception,
 bounded by `max_retries = 3`.

 The measurement call (`refine_and_measure`) is foreign: what the n-th
 execution of the task body sees is a parameter `execute(n)`, where n is the
 value of `self.request.retries` during that execution. Broker scheduling is
 not modelled; a retry is recorded by its countdown.
 */
module WorkerTasks {

  /** `max_retries` of the task decorator. */
  const MaxRetries: nat := 3

  /** Measured areas below this many square feet are noise. */
  const MinAreaSqFt: real := 1.0

  /** The measurement dictionary; only its `area_sq_ft` entry is inspected. */
  datatype Results = Results(areaSqFt: real, fields: map<string, string>)

  /** The dictionaries the task body returns. */
  datatype TaskResult =
    | Ignored(reason: string)   // {"status": "ignored", "reason": ...}
    | Success(data: Results)    // {"status": "success", "data": ...}

  /** One execution of the measurement: it returns, or it raises. */
  datatype Execution = Returned(results: Results) | Raised(error: string)

  /** The outcome of one execution of the task body. */
  datatype Step =
    | Finished(result: TaskResult)
    | RetryAfter(countdown: nat)    // `self.retry` scheduled a new execution
    | Failed(error: string)         // `self.retry` re-raised: retries exhausted

  /** How the task ends, once no further retry is scheduled. */
  datatype Final = Completed(result: TaskResult) | FailedPermanently(lastError: string)

  /** Every countdown scheduled, in order, and how the task ended. */
  datatype TaskRun = TaskRun(final: Final, countdowns: seq<nat>)

  /** 2^n: the backoff countdown, in seconds, after n retries. */
  function Pow2(n: nat): (p: nat)
    ensures p >= 1
  {
    if n == 0 then 1 else 2 * Pow2(n - 1)
  }

  /** The noise gate: small areas are ignored, everything else is passed on untouched. */
  function NoiseGate(results: Results): (r: TaskResult)
    ensures r.Ignored? <==> results.areaSqFt < 1.0
    ensures r.Ignored? ==> r.reason == "noise"
    ensures r.Success? ==> r.data == results
  {
    if results.areaSqFt < MinAreaSqFt then Ignored("noise") else Success(results)
  }

  /**
   One execution of the task body with `self.request.retries == retries`.
   An exception never produces a result: it schedules a retry after
   2^retries seconds while retries remain, and otherwise re-raises.
   */
  function Attempt(execution: Execution, retries: nat): (s: Step)
    ensures s.Finished? <==> execution.Returned?
    ensures s.Finished? ==> s.result == NoiseGate(execution.results)
    ensures s.RetryAfter? <==> execution.Raised? && retries < MaxRetries
    ensures s.RetryAfter? ==> s.countdown == Pow2(retries)
    ensures s.Failed? ==> execution.Raised? && retries >= MaxRetries && s.error == execution.error
  {
    match execution
    case Returned(results) => Finished(NoiseGate(results))
    case Raised(error) =>
      if retries < MaxRetries then RetryAfter(Pow2(retries)) else Failed(error)
  }

  /** The last value of `self.request.retries` reached by a run started at `retries`. */
  function LastRetries(run: TaskRun, retries: nat): nat {
    retries + |run.countdowns|
  }

  /**
   Executions from retry count `retries` until the task ends. The run
   schedules at most `MaxRetries - retries` retries, the k-th one after
   2^(retries + k) seconds, every execution before the last one raised, and the
   end is decided by the last execution alone.
   */
  function Run(execute: nat -> Execution, retries: nat): (run: TaskRun)
    ensures retries <= MaxRetries ==> LastRetries(run, retries) <= MaxRetries
    ensures retries > MaxRetries ==> run.countdowns == []
    ensures forall i :: 0 <= i < |run.countdowns| ==> run.countdowns[i] == Pow2(retries + i)
    ensures forall k :: retries <= k < LastRetries(run, retries) ==> execute(k).Raised?
    ensures run.final.Completed? <==> execute(LastRetries(run, retries)).Returned?
    ensures run.final.Completed? ==>
              run.final.result == NoiseGate(execute(LastRetries(run, retries)).results)
    ensures run.final.FailedPermanently? ==>
              LastRetries(run, retries) >= MaxRetries
              && run.final.lastError == execute(LastRetries(run, retries)).error
    decreases MaxRetries - retries
  {
    match Attempt(execute(retries), retries)
    case Finished(result) => TaskRun(Completed(result), [])
    case Failed(error) => TaskRun(FailedPermanently(error), [])
    case RetryAfter(countdown) =>
      var rest := Run(execute, retries + 1);
      TaskRun(rest.final, [countdown] + rest.countdowns)
  }

  /** Number of times the task body runs: the first execution plus one per retry. */
  function Executions(run: TaskRun): nat {
    |run.countdowns| + 1
  }

  /** A task never runs more than `MaxRetries + 1` = 4 times and never retries more than 3 times. */
  lemma AtMostFourExecutions(execute: nat -> Execution)
    ensures |Run(execute, 0).countdowns| <= MaxRetries
    ensures Executions(Run(execute, 0)) <= 4
  {
  }

  lemma {:induction false} Pow2StrictlyIncreasing(m: nat, n: nat)
    requires m < n
    ensures Pow2(m) < Pow2(n)
    decreases n
  {
    if m < n - 1 {
      Pow2StrictlyIncreasing(m, n - 1);
    }
  }

  /** Backoff countdowns strictly grow from one retry to the next. */
  lemma BackoffStrictlyIncreasing(execute: nat -> Execution, retries: nat, i: nat, j: nat)
    requires i < j < |Run(execute, retries).countdowns|
    ensures Run(execute, retries).countdowns[i] < Run(execute, retries).countdowns[j]
  {
    Pow2StrictlyIncreasing(retries + i, retries + j);
  }

  /**
   A task whose measurement raises on every execution is retried after 1, 2
   and 4 seconds and then fails permanently with the error of its fourth
   execution.
   */
  lemma AlwaysRaisingExhaustsRetries(execute: nat -> Execution)
    requires forall n :: execute(n).Raised?
    ensures Run(execute, 0) == TaskRun(FailedPermanently(execute(3).error), [1, 2, 4])
  {
  }

  /** A task whose first execution measures a result ends at once, without retry. */
  lemma FirstSuccessEndsTask(execute: nat -> Execution)
    requires execute(0).Returned?
    ensures Run(execute, 0) == TaskRun(Completed(NoiseGate(execute(0).results)), [])
  {
  }
}
