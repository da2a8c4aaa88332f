/** The interactive session machine: single steps, skips and a stop over a
    paused scenario, with its history. */
module Interactive {
  import opened Text
  import opened TemplateProperties
  import opened Values
  import opened Session
  import opened Executor

  datatype RowState = Success | Failure | Skipped | Errored

  datatype Row = Row(n: nat, state: RowState, durationMs: nat)

  datatype StepFault = InvalidState | Failed(error: ExecError)

  predicate AllPassed(assertions: seq<bool>) {
    forall i :: 0 <= i < |assertions| ==> assertions[i]
  }

  // The rows whose CCR was answered.
  function Answered(history: seq<Row>): nat {
    if history == [] then 0
    else Answered(history[..|history| - 1]) + (if history[|history| - 1].state in {Success, Failure} then 1 else 0)
  }

  lemma AnsweredExtend(history: seq<Row>, row: Row)
    ensures Answered(history + [row]) == Answered(history) + (if row.state in {Success, Failure} then 1 else 0)
  {
    assert (history + [row])[..|history|] == history;
  }

  /** The history row of a step outcome. */
  function RowFor(n: nat, r: Result<StepResult, ExecError>): Row {
    match r
    case Err(_) => Row(n, Errored, 0)
    case Ok(v) =>
      Row(n,
          if v.skipped then Skipped else if AllPassed(v.assertions) then Success else Failure,
          if !v.skipped then v.result.metrics.rtt / 1_000_000 else 0)
  }

  lemma RowStates(n: nat, r: Result<StepResult, ExecError>)
    ensures RowFor(n, r).n == n
    ensures RowFor(n, r).state == Errored <==> r.Err?
    ensures RowFor(n, r).state in {Success, Failure} <==> r.Ok? && !r.value.skipped
  {
  }

  predicate Final(s: State) {
    s in {Completed, Terminated, Error}
  }

  // One execution answers one CCR exactly when it neither fails nor skips.
  lemma ExecutionAnswers(s: Scenario, idx: nat, pre: Snapshot, prev: Option<SendResult>, step: Step, before: Vars,
                         post: Snapshot, r: Result<StepResult, ExecError>)
    requires Executes(s, idx, pre, prev, step, before, post, r)
    ensures Summarise(post.log).answered == Summarise(pre.log).answered + (if r.Ok? && !r.value.skipped then 1 else 0)
    ensures Summarise(post.log).sessionID == Summarise(pre.log).sessionID
  {
    hide Executes, Summarise;
    ExecutionSends(s, idx, pre, prev, step, before, post, r);
    var begun, closed, last := pre.log + [StepExecuted(idx)], post.log[..|post.log| - 1], post.log[|post.log| - 1];
    Extend(pre.log, StepExecuted(idx));
    if closed != begun {
      Extend(begun, closed[|begun|]);
    }
    assert post.log == closed + [last];
    Extend(closed, last);
  }

  class SessionRecord {
    const sc: SessionContext
    const executor: StepExecutor
    const steps: seq<Step>
    const interactive: bool
    var state: State
    var stepIdx: nat
    var stepHistory: seq<Row>
    var prevResult: Option<SendResult>

    /** The cursor is the number of history rows, the rows are numbered from 1,
        and the next CCR carries the number of rows answered so far. */
    ghost predicate Valid()
      reads this, sc
    {
      && sc.Valid()
      && stepIdx == |stepHistory| <= |steps|
      && (forall i :: 0 <= i < |stepHistory| ==> stepHistory[i].n == i + 1)
      && Summarise(sc.log).answered == Answered(stepHistory)
      && (forall i :: 0 <= i < |stepHistory| - 1 ==> stepHistory[i].state != Errored)
      && (state == Completed ==> stepIdx == |steps|)
      && (state == Error <==> stepHistory != [] && stepHistory[|stepHistory| - 1].state == Errored)
    }

    /** A new interactive session waits before its first step. */
    constructor (sc: SessionContext, executor: StepExecutor, steps: seq<Step>)
      requires sc.Valid() && Summarise(sc.log).answered == 0
      ensures this.sc == sc && this.executor == executor && this.steps == steps && interactive
      ensures Valid() && state == Paused && stepIdx == 0
    {
      this.sc, this.executor, this.steps, interactive := sc, executor, steps, true;
      state, stepIdx, stepHistory, prevResult := Paused, 0, [], None;
    }

    predicate MayStep()
      reads this
    {
      state == Paused || (interactive && state == Active)
    }

    /** Sends the next CCR. A session that may not step is left alone, and so is
        one at its end, which completes. */
    method Step() returns (r: Result<StepResult, StepFault>)
      requires Valid()
      modifies this, sc
      ensures Valid() && sc.sessionID == old(sc.sessionID)
      ensures !old(MayStep()) || old(stepIdx) == |steps| ==>
        && r == Err(InvalidState)
        && Unchanged(if old(MayStep()) then Completed else old(state), old(stepIdx), old(stepHistory), old(sc.log))
      ensures old(MayStep()) && old(stepIdx) < |steps| ==>
        && stepIdx == old(stepIdx) + 1 && stepHistory[..old(stepIdx)] == old(stepHistory) && r != Err(InvalidState)
        && state == (if r.Err? then Error else if stepIdx == |steps| then Completed else Paused)
        && (r.Ok? ==> prevResult == Some(r.value.result) && stepHistory[old(stepIdx)] == RowFor(stepIdx, Ok(r.value)))
      ensures Untouched(executor.scenario, steps) && old(WithinCredit(executor.scenario, sc.Now())) ==>
        WithinCredit(executor.scenario, sc.Now())
    {
      hide WithinCredit, Summarise, Numbered, Untouched, Answered, RowFor;
      if !interactive && state != Paused {
        return Err(InvalidState);
      }
      if state != Active && state != Paused {
        return Err(InvalidState);
      }
      if stepIdx >= |steps| {
        state := Completed;
        return Err(InvalidState);
      }
      var result := Perform();
      RowStates(|old(stepHistory)| + 1, result);
      Record(result);
      if result.Err? {
        state := Error;
        return Err(Failed(result.error));
      }
      prevResult := Some(result.value.result);
      state := if stepIdx >= |steps| then Completed else Paused;
      r := Ok(result.value);
    }

    // Executes the step at the cursor.
    method Perform() returns (result: Result<StepResult, ExecError>)
      requires sc.Valid() && stepIdx < |steps|
      modifies sc
      ensures sc.Valid() && sc.sessionID == old(sc.sessionID)
      ensures Summarise(sc.log).answered
           == old(Summarise(sc.log).answered) + (if result.Ok? && !result.value.skipped then 1 else 0)
      ensures Untouched(executor.scenario, steps) && old(WithinCredit(executor.scenario, sc.Now())) ==>
        WithinCredit(executor.scenario, sc.Now())
    {
      hide Executes, WithinCredit, Summarise, Numbered, Untouched, Wrap32;
      ghost var pre := sc.Now();
      var r, before := executor.Execute(sc, prevResult, steps[stepIdx], stepIdx);
      ExecutionAnswers(executor.scenario, stepIdx, pre, prevResult, steps[stepIdx], before, sc.Now(), r);
      CreditStaysKept(executor.scenario, steps, stepIdx, pre, prevResult, before, sc.Now(), r);
      result := r;
    }

    // Appends the history row and moves the cursor.
    method Record(result: Result<StepResult, ExecError>)
      modifies this`stepHistory, this`stepIdx
      ensures stepHistory == old(stepHistory) + [RowFor(|old(stepHistory)| + 1, result)]
      ensures Answered(stepHistory) == Answered(old(stepHistory)) + (if result.Ok? && !result.value.skipped then 1 else 0)
      ensures stepIdx == old(stepIdx) + 1
    {
      AnsweredExtend(stepHistory, RowFor(|stepHistory| + 1, result));
      stepHistory := stepHistory + [RowFor(|stepHistory| + 1, result)];
      stepIdx := stepIdx + 1;
    }

    // The machine part of the record, the log included.
    ghost predicate Unchanged(s: State, idx: nat, history: seq<Row>, log: Log)
      reads this, sc
    {
      state == s && stepIdx == idx && stepHistory == history && sc.log == log
    }

    /** Passes over the next step without sending. */
    method Skip() returns (ok: bool)
      requires Valid()
      modifies this
      ensures Valid() && sc.log == old(sc.log)
      ensures ok <==> old(state) == Paused && old(stepIdx) < |steps|
      ensures !ok ==> Unchanged(old(state), old(stepIdx), old(stepHistory), old(sc.log))
      ensures ok ==> stepHistory == old(stepHistory) + [Row(|old(stepHistory)| + 1, Skipped, 0)]
      ensures ok ==> state == if stepIdx == |steps| then Completed else Paused
    {
      if state != Paused || stepIdx >= |steps| {
        return false;
      }
      var row := Row(|stepHistory| + 1, Skipped, 0);
      AnsweredExtend(stepHistory, row);
      stepHistory := stepHistory + [row];
      stepIdx := stepIdx + 1;
      if stepIdx >= |steps| {
        state := Completed;
      }
      ok := true;
    }

    /** Ends a session that has not ended yet. */
    method Stop()
      requires Valid()
      modifies this`state
      ensures Valid()
      ensures state == if Final(old(state)) then old(state) else Terminated
    {
      if state == Active || state == Paused {
        state := Terminated;
      }
    }

    /** Any sequence of calls, one at a time: the invariant holds throughout,
        and an ended session stays as it ended. */
    method Drive(calls: nat)
      requires Valid()
      modifies this, sc
      ensures Valid() && stepIdx >= old(stepIdx)
      ensures Final(old(state)) ==> Unchanged(old(state), old(stepIdx), old(stepHistory), old(sc.log))
      ensures Untouched(executor.scenario, steps) && old(WithinCredit(executor.scenario, sc.Now())) ==>
        WithinCredit(executor.scenario, sc.Now())
    {
      hide WithinCredit, Untouched;
      var i := 0;
      while i < calls
        invariant Valid() && stepIdx >= old(stepIdx)
        invariant Final(old(state)) ==> Unchanged(old(state), old(stepIdx), old(stepHistory), old(sc.log))
        invariant Untouched(executor.scenario, steps) && old(WithinCredit(executor.scenario, sc.Now())) ==>
          WithinCredit(executor.scenario, sc.Now())
      {
        var choice: int := *;
        if choice == 0 {
          var _ := Step();
        } else if choice == 1 {
          var _ := Skip();
        } else {
          Stop();
        }
        i := i + 1;
      }
    }
  }

  lemma CreditStaysKept(s: Scenario, steps: seq<Step>, i: nat, pre: Snapshot, prev: Option<SendResult>, before: Vars,
                   post: Snapshot, r: Result<StepResult, ExecError>)
    requires i < |steps| && Executes(s, i, pre, prev, steps[i], before, post, r)
    ensures Untouched(s, steps) && WithinCredit(s, pre) ==> WithinCredit(s, post)
  {
    hide Executes, WithinCredit, GrantsUntouchedBy;
    if Untouched(s, steps) && WithinCredit(s, pre) {
      ExecutionKeepsCredit(s, i, pre, prev, steps[i], before, post, r);
    }
  }
}
