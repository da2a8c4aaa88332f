/** What a run may do to its session: a sequence of moves, each an execution of
    one of its steps when that is due, a reset, or a mark in the log. */
module EngineMoves {
  import opened Text
  import opened Values
  import opened Template
  import opened Session
  import opened Executor
  import opened Pacing

  // Events that only mark where a run is.
  predicate IsMark(e: Event) {
    e.RunStarted? || e.StepVisited? || e.Waited? || e.Signalled? || e.PassEnded?
  }

  ghost predicate Marks(steps: seq<Step>, a: Snapshot, b: Snapshot) {
    && b.log != [] && IsMark(b.log[|b.log| - 1]) && b == Noted(a, b.log[|b.log| - 1])
    && (b.log[|b.log| - 1].StepVisited? ==> DueVisit(steps, a.log))
  }

  ghost predicate Resets(a: Snapshot, b: Snapshot) {
    b == a.(sessionID := b.sessionID, ccRequestNumber := 0, vars := a.vars["CC_REQUEST_NUMBER" := Uint32(0)],
            log := a.log + [SessionReset(b.sessionID)])
  }

  // What is known of the exchange before a step.
  function AnswerOf(prev: Option<SendResult>): Option<Option<CCA>> {
    if prev.Some? then Some(prev.value.cca) else None
  }

  // The answer that decides how long a step waits.
  function PriorAnswer(s: Summary): Option<CCA> {
    if s.previous.Some? then s.previous.value else None
  }

  /** The delay of a step has been observed: it comes out for no wait, or the
      log ends with the wait it comes out for. */
  ghost predicate Rested(step: Step, last: Option<CCA>, log: Log) {
    exists delay: int64 :: DelayOf(step, last, delay) && (delay > 0 ==> log != [] && log[|log| - 1] == Waited(delay))
  }

  // A delay the step may come out with.
  ghost predicate DelayOf(step: Step, last: Option<CCA>, delay: int64) {
    exists random: real, wide :: 0.0 <= random < 1.0 && StepDelay(step, last, random, wide) == delay
  }

  // The log ends with a retry request, after which the retry delay was waited.
  ghost predicate RetryDue(opts: Options, log: Log) {
    if opts.retryDelay > 0 then
      |log| >= 2 && log[|log| - 2] == Concluded(Took(Retry)) && log[|log| - 1] == Waited(opts.retryDelay)
    else log != [] && log[|log| - 1] == Concluded(Took(Retry))
  }

  // The pass is at step k.
  ghost predicate Visiting(log: Log, k: nat) {
    var visited := Summarise(log).pass.visited;
    visited != [] && visited[|visited| - 1] == k
  }

  /** Step k may be executed: the pass is there, and this is a retry, or the
      start of the visit with nothing exchanged in the pass so far, or the
      step's delay has been observed. */
  ghost predicate Due(steps: seq<Step>, opts: Options, log: Log, k: nat) {
    && k < |steps| && Visiting(log, k)
    && (RetryDue(opts, log)
        || (log != [] && log[|log| - 1] == StepVisited(k) && Summarise(log).previous.None?)
        || Rested(steps[k], PriorAnswer(Summarise(log)), log))
  }

  /** A step may be visited: after a jump only when the delay of the step that
      jumps has been observed. */
  ghost predicate DueVisit(steps: seq<Step>, log: Log) {
    var visited := Summarise(log).pass.visited;
    Summarise(log).pass.jumped ==>
      && visited != [] && visited[|visited| - 1] < |steps|
      && Rested(steps[visited[|visited| - 1]], PriorAnswer(Summarise(log)), log)
  }

  // An execution of a step that extracts from the previous answer of its pass.
  ghost predicate RunsStep(s: Scenario, steps: seq<Step>, opts: Options, idx: nat, a: Snapshot, b: Snapshot) {
    && idx < |steps|
    && Due(steps, opts, a.log, idx)
    && exists prev, before, r ::
         Executes(s, idx, a, prev, steps[idx], before, b, r) && AnswerOf(prev) == Summarise(a.log).previous
  }

  ghost predicate Moves(s: Scenario, steps: seq<Step>, opts: Options, a: Snapshot, b: Snapshot) {
    Marks(steps, a, b) || Resets(a, b) || exists idx :: RunsStep(s, steps, opts, idx, a, b)
  }

  ghost predicate IsTrace(s: Scenario, steps: seq<Step>, opts: Options, trace: seq<Snapshot>, a: Snapshot, b: Snapshot) {
    && trace != [] && trace[0] == a && trace[|trace| - 1] == b
    && forall i :: 0 < i < |trace| ==> Moves(s, steps, opts, trace[i - 1], trace[i])
  }

  /** b is reached from a by moves of the engine and nothing else. */
  ghost predicate Reached(s: Scenario, steps: seq<Step>, opts: Options, a: Snapshot, b: Snapshot) {
    exists trace :: IsTrace(s, steps, opts, trace, a, b)
  }

  lemma ReachedSelf(s: Scenario, steps: seq<Step>, opts: Options, a: Snapshot)
    ensures Reached(s, steps, opts, a, a)
  {
    assert IsTrace(s, steps, opts, [a], a, a);
  }

  lemma ReachedMove(s: Scenario, steps: seq<Step>, opts: Options, a: Snapshot, b: Snapshot)
    requires Moves(s, steps, opts, a, b)
    ensures Reached(s, steps, opts, a, b)
  {
    assert IsTrace(s, steps, opts, [a, b], a, b);
  }

  lemma ReachedThen(s: Scenario, steps: seq<Step>, opts: Options, a: Snapshot, b: Snapshot, c: Snapshot)
    requires Reached(s, steps, opts, a, b) && Reached(s, steps, opts, b, c)
    ensures Reached(s, steps, opts, a, c)
  {
    hide Moves;
    var first :| IsTrace(s, steps, opts, first, a, b);
    var second :| IsTrace(s, steps, opts, second, b, c);
    var all := first + second[1..];
    forall i | 0 < i < |all|
      ensures Moves(s, steps, opts, all[i - 1], all[i])
    {
      if i < |first| {
        assert Moves(s, steps, opts, first[i - 1], first[i]);
      } else {
        var j := i - |first| + 1;
        assert all[i] == second[j] && all[i - 1] == second[j - 1];
        assert Moves(s, steps, opts, second[j - 1], second[j]);
      }
    }
    assert IsTrace(s, steps, opts, all, a, c);
  }

  lemma ReachedMark(s: Scenario, steps: seq<Step>, opts: Options, a: Snapshot, e: Event)
    requires IsMark(e) && (e.StepVisited? ==> DueVisit(steps, a.log))
    ensures Reached(s, steps, opts, a, Noted(a, e))
  {
    assert Marks(steps, a, Noted(a, e));
    ReachedMove(s, steps, opts, a, Noted(a, e));
  }

  lemma ReachedReset(s: Scenario, steps: seq<Step>, opts: Options, a: Snapshot, b: Snapshot)
    requires Resets(a, b)
    ensures Reached(s, steps, opts, a, b)
  {
    ReachedMove(s, steps, opts, a, b);
  }

  lemma ReachedStep(s: Scenario, steps: seq<Step>, opts: Options, idx: nat, a: Snapshot, prev: Option<SendResult>, before: Vars,
                    b: Snapshot, r: Result<StepResult, ExecError>)
    requires idx < |steps| && Executes(s, idx, a, prev, steps[idx], before, b, r)
    requires AnswerOf(prev) == Summarise(a.log).previous && Due(steps, opts, a.log, idx)
    ensures Reached(s, steps, opts, a, b)
  {
    hide Executes, Summarise, Due;
    assert RunsStep(s, steps, opts, idx, a, b);
    ReachedMove(s, steps, opts, a, b);
  }

  // ---- sends and executions -------------------------------------------

  /** Every CCR directly follows the StepExecuted of its step and has that
      step's request type; every StepExecuted is directly followed by its CCR,
      or concluded at once because the step was skipped or failed; and every
      conclusion closes an execution, an action only after an answered CCR. */
  ghost predicate Tied(steps: seq<Step>, log: Log) {
    && (log != [] ==> !log[0].Sent? && !log[0].Concluded? && !log[|log| - 1].StepExecuted? && !log[|log| - 1].Sent?)
    && (forall i :: 0 < i < |log| ==> Follows(steps, log[i - 1], log[i]))
  }

  ghost predicate Follows(steps: seq<Step>, d: Event, e: Event) {
    && (e.Sent? ==> d.StepExecuted? && d.step < |steps| && e.ccr.requestType == MapRequestType(steps[d.step].requestType))
    && (d.StepExecuted? ==> d.step < |steps| && (e.Sent? || e in {Concluded(StepSkipped), Concluded(StepErred)}))
    && (d.Sent? ==> e.Concluded? && (if d.failed then e.outcome == StepErred else e.outcome.Took?))
    && (e.Concluded? ==> d.Sent? || d.StepExecuted?)
  }

  lemma TiedExtend(steps: seq<Step>, log: Log, e: Event)
    requires Tied(steps, log) && !e.Sent? && !e.Concluded? && !e.StepExecuted?
    ensures Tied(steps, log + [e])
  {
    hide MapRequestType;
  }

  lemma TiedExecution(steps: seq<Step>, log: Log, idx: nat, middle: Log, o: Outcome)
    requires Tied(steps, log) && idx < |steps|
    requires (middle == [] && o in {StepSkipped, StepErred})
             || (|middle| == 1 && middle[0].Sent? && middle[0].ccr.requestType == MapRequestType(steps[idx].requestType)
                 && (if middle[0].failed then o == StepErred else o.Took?))
    ensures Tied(steps, log + [StepExecuted(idx)] + middle + [Concluded(o)])
  {
    hide MapRequestType;
    var all := log + [StepExecuted(idx)] + middle + [Concluded(o)];
    forall i | 0 < i < |all|
      ensures Follows(steps, all[i - 1], all[i])
    {
      if i < |log| {
        assert all[i - 1] == log[i - 1] && all[i] == log[i];
      }
    }
  }

  // ---- waits ----------------------------------------------------------

  /** Every execution is due when it comes, and so is every visit. */
  ghost predicate Paced(steps: seq<Step>, opts: Options, log: Log) {
    forall i :: 0 <= i < |log| ==>
      && (log[i].StepExecuted? ==> Due(steps, opts, log[..i], log[i].step))
      && (log[i].StepVisited? ==> DueVisit(steps, log[..i]))
  }

  lemma PacedExtend(steps: seq<Step>, opts: Options, log: Log, log': Log)
    requires Paced(steps, opts, log) && log < log'
    requires forall i :: |log| < i < |log'| ==> !log'[i].StepExecuted? && !log'[i].StepVisited?
    requires log'[|log|].StepExecuted? ==> Due(steps, opts, log, log'[|log|].step)
    requires log'[|log|].StepVisited? ==> DueVisit(steps, log)
    ensures Paced(steps, opts, log')
  {
    hide Due, DueVisit;
    forall i | 0 <= i < |log'|
      ensures log'[i].StepExecuted? ==> Due(steps, opts, log'[..i], log'[i].step)
      ensures log'[i].StepVisited? ==> DueVisit(steps, log'[..i])
    {
      if i < |log| {
        assert log'[..i] == log[..i] && log'[i] == log[i];
      } else if i == |log| {
        assert log'[..i] == log;
      }
    }
  }

  // ---- over a whole run -----------------------------------------------

  // What holds of the log of every run.
  ghost predicate Orderly(steps: seq<Step>, opts: Options, log: Log) {
    Tied(steps, log) && Paced(steps, opts, log)
  }

  lemma MoveOrderly(s: Scenario, steps: seq<Step>, opts: Options, a: Snapshot, b: Snapshot)
    requires Moves(s, steps, opts, a, b) && Orderly(steps, opts, a.log)
    ensures Orderly(steps, opts, b.log)
  {
    hide Executes, Tied, Paced, Due, DueVisit, Summarise;
    if Marks(steps, a, b) {
      TiedExtend(steps, a.log, b.log[|b.log| - 1]);
      PacedExtend(steps, opts, a.log, b.log);
    } else if Resets(a, b) {
      TiedExtend(steps, a.log, SessionReset(b.sessionID));
      PacedExtend(steps, opts, a.log, b.log);
    } else {
      var idx: nat :| RunsStep(s, steps, opts, idx, a, b);
      var prev, before, r :| Executes(s, idx, a, prev, steps[idx], before, b, r);
      StepOrderly(s, steps, opts, idx, a, prev, before, b, r);
    }
  }

  lemma StepOrderly(s: Scenario, steps: seq<Step>, opts: Options, idx: nat, a: Snapshot, prev: Option<SendResult>, before: Vars,
                 b: Snapshot, r: Result<StepResult, ExecError>)
    requires idx < |steps| && Executes(s, idx, a, prev, steps[idx], before, b, r)
    requires Due(steps, opts, a.log, idx) && Orderly(steps, opts, a.log)
    ensures Orderly(steps, opts, b.log)
  {
    hide Executes, Tied, Paced, Due, MapRequestType;
    ExecutionSends(s, idx, a, prev, steps[idx], before, b, r);
    var begun, closed := a.log + [StepExecuted(idx)], b.log[..|b.log| - 1];
    var middle := if closed == begun then [] else [closed[|begun|]];
    TiedExecution(steps, a.log, idx, middle, OutcomeOf(r));
    assert closed == begun + middle;
    assert b.log == closed + [Concluded(OutcomeOf(r))];
    PacedExtend(steps, opts, a.log, b.log);
  }

  lemma {:induction false} TraceOrderly(s: Scenario, steps: seq<Step>, opts: Options, trace: seq<Snapshot>, a: Snapshot, b: Snapshot)
    requires IsTrace(s, steps, opts, trace, a, b) && Orderly(steps, opts, a.log)
    ensures Orderly(steps, opts, b.log)
    decreases |trace|
  {
    hide Moves, Orderly;
    if |trace| > 1 {
      var n := |trace| - 1;
      TraceOrderly(s, steps, opts, trace[..n], a, trace[n - 1]);
      MoveOrderly(s, steps, opts, trace[n - 1], trace[n]);
    }
  }

  /** Whatever a run does, its CCRs and executions stay tied, and each comes
      when it is due. */
  lemma ReachedOrderly(s: Scenario, steps: seq<Step>, opts: Options, a: Snapshot, b: Snapshot)
    requires Reached(s, steps, opts, a, b) && Orderly(steps, opts, a.log)
    ensures Orderly(steps, opts, b.log)
  {
    hide IsTrace, Orderly;
    var trace :| IsTrace(s, steps, opts, trace, a, b);
    TraceOrderly(s, steps, opts, trace, a, b);
  }
}
