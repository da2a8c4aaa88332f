/** Continuous execution of a scenario: passes over the step list, each step's
    repeat loop, and retries of a single send. */
module Orchestrator {
  import opened Text
  import opened Values
  import opened Template
  import opened TemplateProperties
  import opened Session
  import opened Executor
  import opened Pacing
  import opened EngineMoves
  import opened RunLog
  import opened Visits

  ghost predicate ExitConditionHolds(s: Scenario, vars: Vars, step: Step) {
    && step.repeatUntil != ""
    && s.rules.eval(vars, step.repeatUntil).Some?
    && IsTruthy(s.rules.eval(vars, step.repeatUntil).value)
  }

  class Orchestrator {
    const executor: StepExecutor

    constructor (executor: StepExecutor)
      ensures this.executor == executor
    {
      this.executor := executor;
    }

    /** Executes a step, again while it asks for a retry and attempts remain;
        a retry request that survives them becomes a termination. */
    method RunStepWithRetry(sc: SessionContext, prev: Option<SendResult>, step: Step, idx: nat, opts: Options, ghost steps: seq<Step>)
      returns (result: StepResult, action: Action, err: Option<RunError>, ghost attempts: nat)
      requires sc.Valid() && idx < |steps| && steps[idx] == step
      requires AnswerOf(prev) == Summarise(sc.log).previous && Due(steps, opts, sc.log, idx)
      modifies sc
      ensures sc.Valid() && sc.state == old(sc.state)
      ensures Visit(executor.scenario, steps, opts, idx, old(sc.Now()), sc.Now(), attempts, WordOf(false, action, err))
      ensures old(sc.log) + [StepExecuted(idx)] <= sc.log
      ensures 1 <= attempts <= EffectiveRetries(opts) + 1
      ensures action != Retry
      ensures err.None? ==>
        && sc.log[|sc.log| - 1] == Concluded(OutcomeOf(Ok(result)))
        && if result.action == Retry then action == Terminate && attempts == EffectiveRetries(opts) + 1
           else
             && action == result.action
             && Summarise(sc.log).previous == PreviousAfter(prev, Ok(result))
             && Summarise(sc.log).repeats == old(Summarise(sc.log)).repeats + 1
      ensures err.Some? ==> action == Continue && (err.value == ContextDone || err.value.StepFailed?)
    {
      hide Executes, Visit, Summarise, Numbered, EffectiveRetries, Wrap32, Due, Visiting, OutcomeOf, PreviousAfter;
      ghost var s := executor.scenario;
      var maxRetries := EffectiveRetries(opts);
      var attempt := 0;
      ghost var first, word := sc.Now(), On;
      VisitStart(s, steps, opts, idx, first);
      while attempt < maxRetries + 1
        invariant 0 <= attempt <= maxRetries
        invariant sc.Valid() && sc.state == old(sc.state)
        invariant AnswerOf(prev) == Summarise(sc.log).previous && Due(steps, opts, sc.log, idx)
        invariant Summarise(sc.log).repeats == old(Summarise(sc.log)).repeats
        invariant if attempt == 0 then sc.Now() == first else first.log + [StepExecuted(idx)] <= sc.log
        invariant word in {On, Acts(Retry)} && Visit(s, steps, opts, idx, first, sc.Now(), attempt, word)
      {
        var r := Attempt(sc, prev, step, idx, opts, steps, first, attempt, word);
        if r.Err? {
          result := *;
          return result, Continue, Some(StepFailed(r.error)), attempt + 1;
        }
        if r.value.action == Retry && attempt < maxRetries {
          ghost var pre := sc.Now();
          word := Acts(Retry);
          if opts.retryDelay > 0 {
            var cancelled := AwaitRetry(sc, opts, steps, idx);
            word := WordOf(false, Continue, if cancelled then Some(ContextDone) else None);
            VisitThen(s, steps, opts, idx, first, pre, sc.Now(), attempt + 1, 0, Acts(Retry), word);
            if cancelled {
              result := *;
              return result, Continue, Some(ContextDone), attempt + 1;
            }
          }
          RetriesDue(steps, opts, pre, sc.Now(), idx);
          attempt := attempt + 1;
          continue;
        }
        action := r.value.action;
        if action == Retry {
          action := Terminate;
          RetryEnds(s, steps, opts, idx, first, sc.Now(), attempt + 1);
        }
        return r.value, action, None, attempt + 1;
      }
      assert false;
    }

    // One attempt more after the attempts since `first`.
    method Attempt(sc: SessionContext, prev: Option<SendResult>, step: Step, idx: nat, opts: Options, ghost steps: seq<Step>,
                   ghost first: Snapshot, ghost attempts: nat, ghost word: Word)
      returns (r: Result<StepResult, ExecError>)
      requires sc.Valid() && idx < |steps| && steps[idx] == step
      requires AnswerOf(prev) == Summarise(sc.log).previous && Due(steps, opts, sc.log, idx)
      requires word in {On, Acts(Retry)} && Visit(executor.scenario, steps, opts, idx, first, sc.Now(), attempts, word)
      modifies sc
      ensures sc.Valid() && sc.state == old(sc.state)
      ensures Visit(executor.scenario, steps, opts, idx, first, sc.Now(), attempts + 1, ResultWord(r))
      ensures old(sc.log) + [StepExecuted(idx)] <= sc.log && sc.log[|sc.log| - 1] == Concluded(OutcomeOf(r))
      ensures Summarise(sc.log).previous == PreviousAfter(prev, r) && Visiting(sc.log, idx)
      ensures r.Ok? && r.value.action == Retry ==>
        && sc.log[|sc.log| - 1] == Concluded(Took(Retry)) && Summarise(sc.log).previous == AnswerOf(prev)
        && Summarise(sc.log).repeats == old(Summarise(sc.log)).repeats
      ensures r.Ok? && r.value.action != Retry ==> Summarise(sc.log).repeats == old(Summarise(sc.log)).repeats + 1
    {
      hide Executes, Visit, Summarise, Numbered, Wrap32, Due, Visiting, ResultWord;
      ghost var s, pre := executor.scenario, sc.Now();
      ghost var before;
      r, before := executor.Execute(sc, prev, step, idx);
      VisitExecute(s, steps, opts, idx, pre, prev, before, sc.Now(), r);
      VisitThen(s, steps, opts, idx, first, pre, sc.Now(), attempts, 1, word, ResultWord(r));
    }

    // Waits before a retry, unless the run is cancelled meanwhile.
    method AwaitRetry(sc: SessionContext, opts: Options, ghost steps: seq<Step>, ghost idx: nat) returns (cancelled: bool)
      requires sc.Valid() && idx < |steps| && opts.retryDelay > 0
      modifies sc`log
      ensures sc.Valid() && |sc.log| > |old(sc.log)|
      ensures Visit(executor.scenario, steps, opts, idx, old(sc.Now()), sc.Now(), 0,
                    WordOf(false, Continue, if cancelled then Some(ContextDone) else None))
      ensures Summarise(sc.log).previous == old(Summarise(sc.log)).previous
      ensures Summarise(sc.log).repeats == old(Summarise(sc.log)).repeats
      ensures !cancelled ==> sc.Now() == Noted(old(sc.Now()), Waited(opts.retryDelay))
      ensures old(sc.log) <= sc.log
    {
      hide Visit, Summarise, Numbered, Wrap32;
      ghost var pre := sc.Now();
      sc.Note(Waited(opts.retryDelay));
      cancelled := *;
      if cancelled {
        sc.Note(Signalled(Cancelled));
      }
      VisitAwait(executor.scenario, steps, opts, idx, pre, opts.retryDelay, if cancelled then Cancelled else Elapsed);
    }

    // Waits as long as the step's delay comes out, unless something cuts the wait short.
    method Await(sc: SessionContext, step: Step, prev: Option<SendResult>) returns (signal: Signal, ghost delay: int64)
      requires sc.Valid()
      modifies sc`log
      ensures sc.Valid() && sc.Now() == Awaited(old(sc.Now()), delay, signal)
      ensures Summarise(sc.log).previous == old(Summarise(sc.log)).previous
      ensures Summarise(sc.log).repeats == old(Summarise(sc.log)).repeats
      ensures DelayOf(step, if prev.Some? then prev.value.cca else None, delay)
      ensures delay <= 0 ==> signal == Elapsed
    {
      hide StepDelay, Numbered, Wrap32, Summarise;
      var random: real, wide: int64 := *, *;
      if random < 0.0 || random >= 1.0 {
        random := 0.0;
      }
      var d := StepDelay(step, if prev.Some? then prev.value.cca else None, random, wide);
      signal := Elapsed;
      if d > 0 {
        sc.Note(Waited(d));
        signal := *;
        if signal != Elapsed {
          sc.Note(Signalled(signal));
        }
      }
      delay := d;
    }

    /** One repeat of a step, and whether it is the last: on an error, on any
        action, when the exit condition holds, or on an interrupt. */
    method Repeat(sc: SessionContext, prevResult: Option<SendResult>, step: Step, idx: nat, opts: Options, ghost steps: seq<Step>)
      returns (prev: Option<SendResult>, stop: bool, interrupted: bool, action: Action, err: Option<RunError>, ghost attempts: nat)
      requires sc.Valid() && idx < |steps| && steps[idx] == step
      requires AnswerOf(prevResult) == Summarise(sc.log).previous && Due(steps, opts, sc.log, idx)
      modifies sc
      ensures sc.Valid() && sc.state == old(sc.state)
      ensures 1 <= attempts <= EffectiveRetries(opts) + 1
      ensures Visit(executor.scenario, steps, opts, idx, old(sc.Now()), sc.Now(), attempts, WordOf(interrupted, action, err))
      ensures old(sc.log) + [StepExecuted(idx)] <= sc.log
      ensures err.None? && action != Terminate ==> AnswerOf(prev) == Summarise(sc.log).previous
      ensures action == Continue && err.None? ==> Summarise(sc.log).repeats == old(Summarise(sc.log)).repeats + 1
      ensures !stop ==> !interrupted && action == Continue && err.None? && !ExitConditionHolds(executor.scenario, sc.vars, step)
      ensures stop && !interrupted && action == Continue && err.None? ==> ExitConditionHolds(executor.scenario, sc.vars, step)
      ensures action != Retry
      ensures interrupted ==> err.None? && action == Continue
      ensures err.Some? ==> err.value == ContextDone || err.value.StepFailed?
    {
      hide Visit, Summarise, Numbered, EffectiveRetries, IsTruthy, Wrap32, Due;
      prev, stop, interrupted := prevResult, true, false;
      ghost var pre := sc.Now();
      var result;
      result, action, err, attempts := RunStepWithRetry(sc, prev, step, idx, opts, steps);
      if err.Some? {
        return;
      }
      if !result.skipped {
        prev := Some(result.result);
      }
      if action != Continue {
        return;
      }
      if step.repeatUntil != "" {
        var v := executor.scenario.rules.eval(sc.vars, step.repeatUntil);
        if v.Some? && IsTruthy(v.value) {
          return;
        }
      }
      interrupted := *;
      stop := interrupted;
      if interrupted {
        ghost var mid := sc.Now();
        sc.Note(Signalled(InterruptRequested));
        VisitNote(executor.scenario, steps, opts, idx, mid, Signalled(InterruptRequested));
        VisitThen(executor.scenario, steps, opts, idx, pre, mid, sc.Now(), attempts, 0, On, Interrupts);
      }
    }

    /** A step's whole repeat loop, every wait included. The visit executes the
        step at once unless its first wait is cut short; left to itself it
        goes on until the repeats are used up or the exit condition holds. */
    method RunStepLoop(sc: SessionContext, prevResult: Option<SendResult>, step: Step, idx: nat, opts: Options, ghost steps: seq<Step>)
      returns (prev: Option<SendResult>, interrupted: bool, action: Action, err: Option<RunError>, ghost executions: nat)
      requires sc.Valid() && idx < |steps| && steps[idx] == step
      requires AnswerOf(prevResult) == Summarise(sc.log).previous
      modifies sc
      ensures sc.Valid() && sc.state == old(sc.state)
      ensures Visit(executor.scenario, steps, opts, idx, Noted(old(sc.Now()), StepVisited(idx)), sc.Now(), executions,
                    WordOf(interrupted, action, err))
      ensures executions <= StepBudget(step, opts)
      ensures err.None? && !interrupted && action == Continue ==>
        || ExitConditionHolds(executor.scenario, sc.vars, step)
        || Summarise(sc.log).repeats == old(Summarise(sc.log)).repeats + StepMaxIterations(step)
      ensures err.None? && action != Terminate ==> AnswerOf(prev) == Summarise(sc.log).previous
      ensures ExecutesFirst(old(sc.log), sc.log, idx)
      ensures action != Retry
      ensures interrupted ==> err.None? && action == Continue
      ensures err.Some? ==> err.value == ContextDone || err.value.StepFailed?
    {
      hide Visit, Summarise, Numbered, EffectiveRetries, StepMaxIterations, ExecutesFirst, ToBegin, IsTruthy, Wrap32, Times, StepBudget, Due,
        Visiting;
      ghost var s := executor.scenario;
      var maxIter := StepMaxIterations(step);
      prev := prevResult;
      ghost var entered := sc.Now();
      sc.Note(StepVisited(idx));
      ghost var visited := sc.Now();
      ghost var each := EffectiveRetries(opts) + 1;
      VisitStart(s, steps, opts, idx, visited);
      NoRepeats(each);
      VisitToBegin(entered.log, idx);
      Arrived(entered.log, idx);
      executions := 0;
      var iter := 0;
      while iter < maxIter
        invariant 0 <= iter <= maxIter
        invariant sc.Valid() && sc.state == old(sc.state)
        invariant Visit(s, steps, opts, idx, visited, sc.Now(), executions, On)
        invariant Summarise(sc.log).repeats == old(Summarise(sc.log)).repeats + iter
        invariant executions <= Times(iter, each) <= StepBudget(step, opts)
        invariant AnswerOf(prev) == Summarise(sc.log).previous && Visiting(sc.log, idx)
        invariant if iter == 0 then sc.Now() == visited else ExecutesFirst(entered.log, sc.log, idx)
        invariant ToBegin(entered.log, sc.log, idx)
      {
        RepeatFits(step, opts, iter, each);
        ghost var pre := sc.Now();
        if iter > 0 || prev.Some? {
          var signal := AwaitRepeat(sc, step, prev, idx, opts, steps, entered, executions, iter == 0);
          if signal != Elapsed {
            err := if signal == Cancelled then Some(ContextDone) else None;
            interrupted := signal == InterruptRequested;
            action := if signal == StopRequested then Stop else Continue;
            return prev, interrupted, action, err, executions;
          }
        } else {
          FirstDue(steps, opts, entered, pre, idx);
        }
        ghost var begun := sc.Now();
        var stop: bool;
        ghost var attempts;
        prev, stop, interrupted, action, err, attempts := Repeat(sc, prev, step, idx, opts, steps);
        RepeatDone(s, steps, opts, idx, entered, begun, sc.Now(), executions, attempts, WordOf(interrupted, action, err));
        executions := executions + attempts;
        if stop {
          return prev, interrupted, action, err, executions;
        }
        iter := iter + 1;
      }
      return prev, false, Continue, None, executions;
    }

    // The wait before a repeat, the first of the visit or a later one.
    method AwaitRepeat(sc: SessionContext, step: Step, prev: Option<SendResult>, idx: nat, opts: Options, ghost steps: seq<Step>,
                       ghost entered: Snapshot, ghost executions: nat, ghost isFirst: bool)
      returns (signal: Signal)
      requires sc.Valid() && idx < |steps| && steps[idx] == step
      requires AnswerOf(prev) == Summarise(sc.log).previous && Visiting(sc.log, idx)
      requires Visit(executor.scenario, steps, opts, idx, Noted(entered, StepVisited(idx)), sc.Now(), executions, On)
      requires if isFirst then sc.Now() == Noted(entered, StepVisited(idx)) else ExecutesFirst(entered.log, sc.log, idx)
      modifies sc`log
      ensures sc.Valid()
      ensures Visit(executor.scenario, steps, opts, idx, Noted(entered, StepVisited(idx)), sc.Now(), executions, SignalWord(signal))
      ensures Summarise(sc.log).previous == old(Summarise(sc.log)).previous
      ensures Summarise(sc.log).repeats == old(Summarise(sc.log)).repeats
      ensures if signal == Elapsed then ToBegin(entered.log, sc.log, idx) && Due(steps, opts, sc.log, idx)
              else ExecutesFirst(entered.log, sc.log, idx)
    {
      hide Visit, Summarise, Numbered, Wrap32, DelayOf, ExecutesFirst, ToBegin, Due, Awaited, Visiting;
      ghost var s, pre := executor.scenario, sc.Now();
      ghost var delay;
      signal, delay := Await(sc, step, prev);
      VisitAwait(s, steps, opts, idx, pre, delay, signal);
      VisitThen(s, steps, opts, idx, Noted(entered, StepVisited(idx)), pre, sc.Now(), executions, 0, On, SignalWord(signal));
      FirstAwait(entered.log, pre, idx, isFirst, delay, signal);
      if signal == Elapsed {
        DelayDue(steps, opts, pre, sc.Now(), idx, delay);
      }
    }

    // What a check of the stop and interrupt channels finds.
    method Poll(sc: SessionContext) returns (signal: Signal)
      requires sc.Valid()
      modifies sc`log
      ensures sc.Valid() && signal != Cancelled
      ensures sc.Now() == if signal == Elapsed then old(sc.Now()) else Noted(old(sc.Now()), Signalled(signal))
    {
      hide Summarise, Numbered, Wrap32;
      signal := *;
      if signal == Cancelled {
        signal := Elapsed;
      } else if signal != Elapsed {
        sc.Note(Signalled(signal));
      }
    }

    // Ends the run the way the signal just heard asks for.
    method Obey(sc: SessionContext, steps: seq<Step>, opts: Options, signal: Signal, ghost pre: Snapshot, ghost entered: Snapshot, ghost host: string)
      returns (err: Option<RunError>)
      requires sc.Valid() && signal != Elapsed && sc.Now() == Noted(pre, Signalled(signal))
      requires RunShape(steps, opts, Summarise(pre.log)) && !Summarise(pre.log).pass.landed
      requires Kept(executor.scenario, steps, opts, sc.peerName, host, entered, pre, None)
      modifies sc`state
      ensures sc.Valid()
      ensures Ended(sc.state, err, sc.log, opts) && RunShape(steps, opts, Summarise(sc.log))
      ensures Kept(executor.scenario, steps, opts, sc.peerName, host, entered, sc.Now(), err)
    {
      hide Summarise, Numbered, Kept, FullPass, Budget, Wrap32, OneTo;
      Extend(pre.log, Signalled(signal));
      KeptNote(executor.scenario, steps, opts, sc.peerName, host, entered, pre, Signalled(signal), sc.Now());
      match signal {
        case Cancelled =>
          sc.state, err := Error, Some(ContextDone);
        case StopRequested =>
          sc.state, err := Completed, None;
        case InterruptRequested =>
          sc.state, err := Paused, Some(ExecutionInterrupted);
      }
      KeptQuiet(executor.scenario, steps, opts, sc.peerName, host, entered, sc.Now(), err);
    }

    /** One pass over the steps. Unless the run ends inside it, it visits all
        steps, or those up to a jump and then the last. */
    method RunPass(sc: SessionContext, prevResult: Option<SendResult>, steps: seq<Step>, opts: Options, ghost k: nat, ghost host: string)
      returns (prev: Option<SendResult>, ended: bool, err: Option<RunError>)
      requires sc.Valid() && steps != []
      requires InPass(steps, opts, Summarise(sc.log), k, 0, false)
      requires AnswerOf(prevResult) == Summarise(sc.log).previous
      requires opts.maxIterations > 0 ==> k < opts.maxIterations
      modifies sc
      ensures sc.Valid()
      ensures ended ==> Ended(sc.state, err, sc.log, opts) && RunShape(steps, opts, Summarise(sc.log))
      ensures !ended ==> err.None? && FullPass(Summarise(sc.log).pass, |steps|) && PassCount(steps, opts, Summarise(sc.log), k)
      ensures Kept(executor.scenario, steps, opts, sc.peerName, host, old(sc.Now()), sc.Now(), err)
      ensures WithinPass(old(sc.log), sc.log)
    {
      hide Summarise, Numbered, Kept, InPass, PassCount, FullPass, RunShape, Visit, ExecutesFirst, Budget, StepBudget, StepDelay,
        WithinPass, Ended, Counted, Wrap32, DueVisit;
      ghost var s, entered := executor.scenario, sc.Now();
      KeptStart(s, steps, opts, sc.peerName, host, entered);
      NothingInPass(entered.log);
      prev := prevResult;
      var i := 0;
      while i < |steps|
        invariant 0 <= i <= |steps|
        invariant sc.Valid()
        invariant InPass(steps, opts, Summarise(sc.log), k, i, false)
        invariant AnswerOf(prev) == Summarise(sc.log).previous
        invariant Kept(s, steps, opts, sc.peerName, host, entered, sc.Now(), None)
        invariant WithinPass(entered.log, sc.log)
      {
        InPassShape(steps, opts, Summarise(sc.log), k, i, false);
        ghost var pre := sc.Now();
        var signal := Poll(sc);
        if signal != Elapsed {
          NoteWithinPass(entered.log, pre.log, Signalled(signal));
          err := Obey(sc, steps, opts, signal, pre, entered, host);
          return prev, true, err;
        }
        InPassDue(steps, opts, pre.log, k, i);
        var sent, interrupted, action, e, executions := RunStepLoop(sc, prev, steps[i], i, opts, steps);
        ghost var word := WordOf(interrupted, action, e);
        prev := sent;
        KeptVisit(s, steps, opts, sc.peerName, host, entered, pre, i, sc.Now(), executions, word);
        VisitWithinPass(s, steps, opts, pre, i, sc.Now(), executions, word);
        WithinPassThen(entered.log, pre.log, sc.log);
        InPassVisit(s, steps, opts, pre, i, sc.Now(), executions, word, k);
        if word != On && word != Acts(GotoTerminate) {
          VisitEnds(s, steps, opts, pre, i, sc.Now(), executions, word);
          if !word.Fails? {
            KeptQuiet(s, steps, opts, sc.peerName, host, entered, sc.Now(), EndOf(word, i).1);
          }
        }
        if e.Some? {
          sc.state := Error;
          return prev, true, e;
        }
        if interrupted {
          sc.state := Paused;
          return prev, true, Some(ExecutionInterrupted);
        }
        match action {
          case Terminate =>
            sc.state := Terminated;
            return prev, true, None;
          case Stop =>
            sc.state := Completed;
            return prev, true, None;
          case Pause =>
            sc.state := Paused;
            return prev, true, Some(ExecutionPaused(i));
          case GotoTerminate =>
            if i == |steps| - 1 {
              InPassFull(steps, opts, Summarise(sc.log), k, true);
              return prev, false, None;
            }
            pre := sc.Now();
            prev, ended, err := JumpToLast(sc, prev, steps, i, opts, k, host);
            KeptThen(s, steps, opts, sc.peerName, host, entered, pre, sc.Now(), err);
            WithinPassThen(entered.log, pre.log, sc.log);
            return;
          case Continue =>
            i := i + 1;
        }
      }
      InPassFull(steps, opts, Summarise(sc.log), k, false);
      return prev, false, None;
    }

    /** From step i straight to the last step, after the delay of step i. What
        the last step asks for is ignored; only an error ends the run. */
    method JumpToLast(sc: SessionContext, prevResult: Option<SendResult>, steps: seq<Step>, i: nat, opts: Options, ghost k: nat, ghost host: string)
      returns (prev: Option<SendResult>, ended: bool, err: Option<RunError>)
      requires sc.Valid() && i < |steps| - 1
      requires InPass(steps, opts, Summarise(sc.log), k, i + 1, true)
      requires AnswerOf(prevResult) == Summarise(sc.log).previous
      requires opts.maxIterations > 0 ==> k < opts.maxIterations
      modifies sc
      ensures sc.Valid()
      ensures ended ==> Ended(sc.state, err, sc.log, opts) && RunShape(steps, opts, Summarise(sc.log))
      ensures !ended ==> err.None? && FullPass(Summarise(sc.log).pass, |steps|) && PassCount(steps, opts, Summarise(sc.log), k)
      ensures Kept(executor.scenario, steps, opts, sc.peerName, host, old(sc.Now()), sc.Now(), err)
      ensures WithinPass(old(sc.log), sc.log)
    {
      hide Summarise, Numbered, Kept, InPass, PassCount, FullPass, RunShape, Visit, ExecutesFirst, Budget, StepBudget, StepDelay,
        WithinPass, Ended, Counted, Wrap32, DueVisit;
      ghost var s, entered := executor.scenario, sc.Now();
      KeptStart(s, steps, opts, sc.peerName, host, entered);
      NothingInPass(entered.log);
      InPassShape(steps, opts, Summarise(sc.log), k, i + 1, true);
      var signal, delay := Await(sc, steps[i], prevResult);
      AwaitInPass(s, steps, opts, sc.peerName, host, entered, delay, signal, k, i);
      if signal != Elapsed {
        err := Obey(sc, steps, opts, signal, Awaited(entered, delay, Elapsed), entered, host);
        return prevResult, true, err;
      }
      ghost var landing := sc.Now();
      var last := |steps| - 1;
      var interrupted, action, e;
      ghost var executions;
      prev, interrupted, action, e, executions := RunStepLoop(sc, prevResult, steps[last], last, opts, steps);
      ghost var word := WordOf(interrupted, action, e);
      KeptVisit(s, steps, opts, sc.peerName, host, entered, landing, last, sc.Now(), executions, word);
      VisitWithinPass(s, steps, opts, landing, last, sc.Now(), executions, word);
      WithinPassThen(entered.log, landing.log, sc.log);
      JumpVisit(s, steps, opts, landing, i, sc.Now(), executions, word, k);
      if e.Some? {
        PassCountShape(steps, opts, Summarise(sc.log), k);
        VisitEnds(s, steps, opts, landing, last, sc.Now(), executions, word);
        sc.state := Error;
        return prev, true, e;
      }
      return prev, false, None;
    }

    // Reports a finished pass.
    method CountPass(sc: SessionContext, steps: seq<Step>, opts: Options, ghost k: nat, ghost entered: Snapshot, ghost host: string)
      requires sc.Valid() && k > 0 && (opts.maxIterations > 0 ==> k <= opts.maxIterations)
      requires FullPass(Summarise(sc.log).pass, |steps|) && PassCount(steps, opts, Summarise(sc.log), k - 1)
      requires Kept(executor.scenario, steps, opts, sc.peerName, host, entered, sc.Now(), None) && RunOpen(entered.log, sc.log)
      modifies sc`log
      ensures sc.Valid() && sc.log == old(sc.log) + [PassEnded(k)]
      ensures InPass(steps, opts, Summarise(sc.log), k, 0, false) && RunShape(steps, opts, Summarise(sc.log))
      ensures Summarise(sc.log).sentBefore == old(Summarise(sc.log)).sentBefore
      ensures Kept(executor.scenario, steps, opts, sc.peerName, host, entered, sc.Now(), None) && RunPunctuated(entered.log, sc.log)
      ensures forall id :: RunOpen(entered.log, sc.log + [SessionReset(id)])
    {
      hide Summarise, Numbered, Kept, InPass, PassCount, FullPass, RunShape, RunOpen, RunPunctuated, Wrap32;
      ghost var counted := sc.Now();
      RunTurns(entered.log, sc.log, k);
      sc.Note(PassEnded(k));
      KeptNote(executor.scenario, steps, opts, sc.peerName, host, entered, counted, PassEnded(k), sc.Now());
      PassDone(steps, opts, Summarise(counted.log), k - 1, Summarise(sc.log));
    }

    // Opens the next pass with a new session.
    method OpenPass(sc: SessionContext, steps: seq<Step>, opts: Options, ghost k: nat, ghost entered: Snapshot, ghost host: string)
      requires sc.Valid() && InPass(steps, opts, Summarise(sc.log), k, 0, false)
      requires Kept(executor.scenario, steps, opts, sc.peerName, host, entered, sc.Now(), None)
      requires forall id :: RunOpen(entered.log, sc.log + [SessionReset(id)])
      modifies sc
      ensures sc.Valid() && InPass(steps, opts, Summarise(sc.log), k, 0, false)
      ensures sc.log == old(sc.log) + [SessionReset(sc.sessionID)] && RunOpen(entered.log, sc.log)
      ensures Summarise(sc.log) == Advance(old(Summarise(sc.log)), SessionReset(sc.sessionID))
      ensures Kept(executor.scenario, steps, opts, sc.peerName, host, entered, sc.Now(), None)
    {
      hide Summarise, Numbered, Kept, InPass, RunOpen, Wrap32;
      ghost var counted := sc.Now();
      sc.ResetForNewIteration();
      Extend(counted.log, SessionReset(sc.sessionID));
      KeptReset(executor.scenario, steps, opts, sc.peerName, host, entered, counted, sc.Now());
      InPassReset(steps, opts, Summarise(counted.log), k, sc.sessionID);
    }

    /** Runs the scenario, observed for at most `horizon` passes (`cut` when
        the observation ends first). Whatever the answers and signals: the run
        makes only moves of the engine; passes are counted 1, 2, 3, ... up to
        the configured limit, nothing that ends a run happens in them, and
        each visits all steps or jumps to the last; the CCRs sent are no more
        than the executions, and these stay within the budget; a failed send
        ends the run; usage reports stay within their grants; and the last
        event of the run says how and why it ended. */
    method RunContinuous(sc: SessionContext, steps: seq<Step>, opts: Options, horizon: nat, ghost host: string)
      returns (err: Option<RunError>, cut: bool)
      requires sc.Valid()
      modifies sc
      ensures sc.Valid()
      ensures steps == [] ==> !cut && err.None? && sc.state == Completed && sc.Now() == old(sc.Now())
      ensures !cut && steps != [] ==> Ended(sc.state, err, sc.log, opts)
      ensures cut ==> err.None? && (opts.maxIterations <= 0 || horizon < opts.maxIterations)
      ensures cut ==> |Summarise(sc.log).passes| == horizon
      ensures steps != [] ==> RunShape(steps, opts, Summarise(sc.log))
      ensures steps != [] ==> |sc.metrics| <= |old(sc.metrics)| + Summarise(sc.log).executions
      ensures Kept(executor.scenario, steps, opts, sc.peerName, host, old(sc.Now()), sc.Now(), err)
      ensures RunPunctuated(old(sc.log), sc.log)
    {
      hide Summarise, Numbered, Kept, InPass, PassCount, FullPass, RunShape, WithinPass, RunOpen, RunPunctuated, Ended, Wrap32;
      RunOpens(sc.log);
      ghost var s, entered := executor.scenario, sc.Now();
      ghost var before := Summarise(sc.log).everSent;
      KeptStart(s, steps, opts, sc.peerName, host, entered);
      if steps == [] {
        sc.state := Completed;
        return None, false;
      }
      sc.Note(RunStarted);
      KeptNote(s, steps, opts, sc.peerName, host, entered, entered, RunStarted, sc.Now());
      RunStart(steps, opts, Summarise(entered.log));
      var prev: Option<SendResult> := None;
      var iteration := 0;
      while iteration < horizon
        invariant 0 <= iteration <= horizon
        invariant sc.Valid()
        invariant opts.maxIterations > 0 ==> iteration < opts.maxIterations
        invariant InPass(steps, opts, Summarise(sc.log), iteration, 0, false)
        invariant AnswerOf(prev) == Summarise(sc.log).previous && Summarise(sc.log).sentBefore == before
        invariant Kept(s, steps, opts, sc.peerName, host, entered, sc.Now(), None)
        invariant RunOpen(entered.log, sc.log)
      {
        InPassShape(steps, opts, Summarise(sc.log), iteration, 0, false);
        ghost var begun := sc.Now();
        var signal := Poll(sc);
        if signal != Elapsed {
          NothingInPass(begun.log);
          NoteWithinPass(begun.log, begun.log, Signalled(signal));
          err := Obey(sc, steps, opts, signal, begun, entered, host);
          RunStaysOpen(entered.log, begun.log, sc.log);
          SentWithin(steps, opts, begun.log, sc.log);
          return err, false;
        }
        var ended, e;
        prev, ended, e := RunPass(sc, prev, steps, opts, iteration, host);
        KeptThen(s, steps, opts, sc.peerName, host, entered, begun, sc.Now(), e);
        RunStaysOpen(entered.log, begun.log, sc.log);
        SentBeforeKept(begun.log, sc.log);
        if ended {
          SentWithin(steps, opts, begun.log, sc.log);
          return e, false;
        }

        iteration := iteration + 1;
        CountPass(sc, steps, opts, iteration, entered, host);
        if opts.maxIterations > 0 && iteration >= opts.maxIterations {
          NothingInPass(sc.log);
          SentWithin(steps, opts, sc.log, sc.log);
          sc.state := Completed;
          LimitEnds(sc.log, opts);
          return None, false;
        }
        prev := None;
        OpenPass(sc, steps, opts, iteration, entered, host);
      }
      InPassShape(steps, opts, Summarise(sc.log), iteration, 0, false);
      InPassCount(steps, opts, Summarise(sc.log), iteration);
      RunTurns(entered.log, sc.log, iteration);
      NothingInPass(sc.log);
      SentWithin(steps, opts, sc.log, sc.log);
      return None, true;
    }
  }

  // ---- a run, pass by pass --------------------------------------------

  /** k passes are counted, the run has executed no more than k budgets and b,
      and no more CCRs were sent than steps executed. */
  ghost predicate Counted(steps: seq<Step>, opts: Options, s: Summary, k: nat, b: nat) {
    && s.reported == OneTo(k) && |s.passes| == k
    && (forall p :: p in s.passes ==> FullPass(p, |steps|))
    && s.executions <= k * Budget(steps, opts) + b
    && s.everSent <= s.sentBefore + s.executions
  }

  // The current pass executed no more than one budget.
  ghost predicate PassCount(steps: seq<Step>, opts: Options, s: Summary, k: nat) {
    Counted(steps, opts, s, k, Budget(steps, opts))
  }

  /** The current pass has visited steps 0 to i - 1, and nothing in it ends the run. */
  ghost predicate InPass(steps: seq<Step>, opts: Options, s: Summary, k: nat, i: nat, jumped: bool)
    requires i <= |steps|
  {
    Counted(steps, opts, s, k, Budget(steps[..i], opts)) && s.pass == Pass(Range(i), jumped, false, false)
  }

  /** The passes a run counts, and how much it executes and sends. */
  ghost predicate RunShape(steps: seq<Step>, opts: Options, s: Summary) {
    && s.reported == OneTo(|s.passes|)
    && (forall p :: p in s.passes ==> FullPass(p, |steps|))
    && s.everSent <= s.sentBefore + s.executions
    && s.executions <= (|s.passes| + 1) * Budget(steps, opts)
    && (opts.maxIterations > 0 ==>
          && |s.passes| <= opts.maxIterations
          && s.executions <= opts.maxIterations * Budget(steps, opts))
  }

  lemma RunStart(steps: seq<Step>, opts: Options, s: Summary)
    ensures InPass(steps, opts, Advance(s, RunStarted), 0, 0, false)
  {
    assert steps[..0] == [];
  }

  lemma Scale(k: nat, j: nat, b: nat)
    requires k <= j
    ensures k * b <= j * b && (k + 1) * b == k * b + b
  {
  }

  lemma PassCountShape(steps: seq<Step>, opts: Options, s: Summary, k: nat)
    requires PassCount(steps, opts, s, k)
    requires opts.maxIterations > 0 ==> k < opts.maxIterations
    ensures RunShape(steps, opts, s)
  {
    Scale(k, k, Budget(steps, opts));
    if opts.maxIterations > 0 {
      Scale(k + 1, opts.maxIterations, Budget(steps, opts));
    }
  }

  lemma InPassShape(steps: seq<Step>, opts: Options, s: Summary, k: nat, i: nat, jumped: bool)
    requires i <= |steps| && InPass(steps, opts, s, k, i, jumped)
    requires opts.maxIterations > 0 ==> k < opts.maxIterations
    ensures RunShape(steps, opts, s) && !s.pass.landed && s.pass.jumped == jumped
  {
    BudgetMonotone(steps, opts, i);
    PassCountShape(steps, opts, s, k);
  }

  lemma InPassCount(steps: seq<Step>, opts: Options, s: Summary, k: nat)
    requires InPass(steps, opts, s, k, 0, false)
    ensures |s.passes| == k
  {
  }

  // A visit adds its executions and the CCRs they send, and no pass.
  lemma CountedVisit(s: Scenario, steps: seq<Step>, opts: Options, pre: Snapshot, idx: nat, post: Snapshot,
                     executions: nat, w: Word, k: nat, b: nat)
    requires idx < |steps| && Counted(steps, opts, Summarise(pre.log), k, b)
    requires Visit(s, steps, opts, idx, Noted(pre, StepVisited(idx)), post, executions, w)
    requires executions <= StepBudget(steps[idx], opts)
    ensures Counted(steps, opts, Summarise(post.log), k, b + StepBudget(steps[idx], opts))
    ensures Summarise(post.log).pass.visited == Summarise(pre.log).pass.visited + [idx]
  {
    hide Summarise, FullPass, Budget, StepBudget, Says, Reached, WithinVisit, OneTo, Clean, CreditKept;
    Extend(pre.log, StepVisited(idx));
  }

  lemma InPassVisit(s: Scenario, steps: seq<Step>, opts: Options, pre: Snapshot, i: nat, post: Snapshot,
                    executions: nat, w: Word, k: nat)
    requires i < |steps| && InPass(steps, opts, Summarise(pre.log), k, i, false)
    requires Visit(s, steps, opts, i, Noted(pre, StepVisited(i)), post, executions, w)
    requires executions <= StepBudget(steps[i], opts)
    requires opts.maxIterations > 0 ==> k < opts.maxIterations
    ensures w == On ==> InPass(steps, opts, Summarise(post.log), k, i + 1, false)
    ensures w == Acts(GotoTerminate) ==> InPass(steps, opts, Summarise(post.log), k, i + 1, true)
    ensures RunShape(steps, opts, Summarise(post.log)) && Summarise(post.log).pass.visited == Range(i + 1)
  {
    hide Summarise, Says, Reached, WithinVisit, Counted, StepBudget, RunShape, SamePass, Executed, Clean, CreditKept;
    CountedVisit(s, steps, opts, pre, i, post, executions, w, k, Budget(steps[..i], opts));
    SaysPass(Noted(pre, StepVisited(i)).log, post.log, i, w);
    Extend(pre.log, StepVisited(i));
    assert steps[..i + 1][..i] == steps[..i];
    assert Range(i + 1) == Range(i) + [i];
    BudgetMonotone(steps, opts, i + 1);
    LessCounted(steps, opts, Summarise(post.log), k, Budget(steps[..i + 1], opts), Budget(steps, opts));
    PassCountShape(steps, opts, Summarise(post.log), k);
  }

  lemma LessCounted(steps: seq<Step>, opts: Options, s: Summary, k: nat, b: nat, b': nat)
    requires Counted(steps, opts, s, k, b) && b <= b'
    ensures Counted(steps, opts, s, k, b')
  {
  }

  lemma InPassFull(steps: seq<Step>, opts: Options, s: Summary, k: nat, jumped: bool)
    requires steps != [] && InPass(steps, opts, s, k, |steps|, jumped)
    ensures FullPass(s.pass, |steps|) && PassCount(steps, opts, s, k)
  {
    assert steps[..|steps|] == steps;
    assert s.pass.visited == PassThrough(|steps| - 1, |steps|);
  }

  lemma JumpVisit(s: Scenario, steps: seq<Step>, opts: Options, pre: Snapshot, i: nat, post: Snapshot,
                  executions: nat, w: Word, k: nat)
    requires i < |steps| - 1 && InPass(steps, opts, Summarise(pre.log), k, i + 1, true)
    requires Visit(s, steps, opts, |steps| - 1, Noted(pre, StepVisited(|steps| - 1)), post, executions, w)
    requires executions <= StepBudget(steps[|steps| - 1], opts)
    ensures !w.Fails? ==> FullPass(Summarise(post.log).pass, |steps|)
    ensures PassCount(steps, opts, Summarise(post.log), k)
  {
    hide Summarise, Says, Reached, WithinVisit, Counted, StepBudget, SamePass, Executed, Clean, CreditKept;
    var last := |steps| - 1;
    CountedVisit(s, steps, opts, pre, last, post, executions, w, k, Budget(steps[..i + 1], opts));
    JumpWithinBudget(steps, opts, i);
    LessCounted(steps, opts, Summarise(post.log), k, Budget(steps[..i + 1], opts) + StepBudget(steps[last], opts), Budget(steps, opts));
    SaysPass(Noted(pre, StepVisited(last)).log, post.log, last, w);
    Extend(pre.log, StepVisited(last));
    assert Summarise(post.log).pass.visited == PassThrough(i, |steps|);
  }

  lemma PassDone(steps: seq<Step>, opts: Options, s: Summary, k: nat, s': Summary)
    requires FullPass(s.pass, |steps|) && PassCount(steps, opts, s, k)
    requires s' == Advance(s, PassEnded(k + 1))
    requires opts.maxIterations > 0 ==> k < opts.maxIterations
    ensures InPass(steps, opts, s', k + 1, 0, false) && RunShape(steps, opts, s')
  {
    hide FullPass;
    Scale(k, k, Budget(steps, opts));
    Scale(k + 1, k + 1, Budget(steps, opts));
    if opts.maxIterations > 0 {
      Scale(k + 1, opts.maxIterations, Budget(steps, opts));
    }
    assert OneTo(k + 1) == OneTo(k) + [k + 1];
    assert steps[..0] == [];
    forall p | p in s'.passes ensures FullPass(p, |steps|) {
      assert p in s.passes || p == s.pass;
    }
  }

  lemma InPassReset(steps: seq<Step>, opts: Options, s: Summary, k: nat, id: string)
    requires InPass(steps, opts, s, k, 0, false)
    ensures InPass(steps, opts, Advance(s, SessionReset(id)), k, 0, false)
  {
  }

  // No more CCRs than executions since the run began.
  lemma SentWithin(steps: seq<Step>, opts: Options, log: Log, log': Log)
    requires RunShape(steps, opts, Summarise(log')) && WithinPass(log, log')
    ensures Summarise(log').everSent <= Summarise(log).sentBefore + Summarise(log').executions
  {
    hide WithinPass, Summarise;
    SentBeforeKept(log, log');
  }

  // Before a jump no wait is owed to a visit.
  lemma InPassDue(steps: seq<Step>, opts: Options, log: Log, k: nat, i: nat)
    requires i <= |steps| && InPass(steps, opts, Summarise(log), k, i, false)
    ensures DueVisit(steps, log)
  {
  }

  // The wait of a jump.
  lemma AwaitInPass(s: Scenario, steps: seq<Step>, opts: Options, peerName: string, host: string, pre: Snapshot,
                    delay: int64, signal: Signal, k: nat, i: nat)
    requires i < |steps| && InPass(steps, opts, Summarise(pre.log), k, i + 1, true)
    requires DelayOf(steps[i], PriorAnswer(Summarise(pre.log)), delay) && (delay <= 0 ==> signal == Elapsed)
    requires opts.maxIterations > 0 ==> k < opts.maxIterations
    ensures var waited := Awaited(pre, delay, Elapsed);
      && Kept(s, steps, opts, peerName, host, pre, waited, None)
      && WithinPass(pre.log, waited.log) && WithinPass(pre.log, Awaited(pre, delay, signal).log)
      && InPass(steps, opts, Summarise(waited.log), k, i + 1, true) && RunShape(steps, opts, Summarise(waited.log))
      && !Summarise(waited.log).pass.landed
      && DueVisit(steps, waited.log)
    ensures signal != Elapsed ==> Awaited(pre, delay, signal) == Noted(Awaited(pre, delay, Elapsed), Signalled(signal))
  {
    hide Counted, Kept, Summarise, WithinPass, DelayOf, RunShape;
    KeptStart(s, steps, opts, peerName, host, pre);
    NothingInPass(pre.log);
    if delay > 0 {
      Extend(pre.log, Waited(delay));
      KeptNote(s, steps, opts, peerName, host, pre, pre, Waited(delay), Noted(pre, Waited(delay)));
      NoteWithinPass(pre.log, pre.log, Waited(delay));
      NoteWithinPass(pre.log, pre.log + [Waited(delay)], Signalled(signal));
    }
    InPassShape(steps, opts, Summarise(Awaited(pre, delay, Elapsed).log), k, i + 1, true);
    assert Range(i + 1)[i] == i;
    assert Rested(steps[i], PriorAnswer(Summarise(pre.log)), Awaited(pre, delay, Elapsed).log);
  }

  lemma VisitWithinPass(s: Scenario, steps: seq<Step>, opts: Options, pre: Snapshot, idx: nat, post: Snapshot, executions: nat, w: Word)
    requires idx < |steps| && Visit(s, steps, opts, idx, Noted(pre, StepVisited(idx)), post, executions, w)
    ensures WithinPass(pre.log, post.log)
  {
    hide Reached, SamePass, Executed, Says, Clean, CreditKept;
    var visited := pre.log + [StepVisited(idx)];
    assert post.log[|pre.log|] == visited[|pre.log|];
    assert post.log[..|pre.log|] == visited[..|pre.log|];
  }

  // ---- what a run keeps -----------------------------------------------

  /** What a run preserves from start to end: it only makes moves of the engine,
      visits execute, only a final send fails, reports stay within grants, and
      Session-Ids keep their host. */
  ghost predicate Kept(s: Scenario, steps: seq<Step>, opts: Options, peerName: string, host: string,
                       pre: Snapshot, post: Snapshot, err: Option<RunError>)
  {
    && Reached(s, steps, opts, pre, post)
    && (VisitsExecute(pre.log) ==> VisitsExecute(post.log))
    && (Clean(pre.log) ==> FailsLast(post.log, err))
    && (Untouched(s, steps) && WithinCredit(s, pre) ==> WithinCredit(s, post))
    && (peerName != "" && ';' !in host && HostKept(pre.log, host) && HasHost(pre.sessionID, host) ==>
          HostKept(post.log, host) && HasHost(post.sessionID, host))
  }

  lemma KeptStart(s: Scenario, steps: seq<Step>, opts: Options, peerName: string, host: string, pre: Snapshot)
    ensures Kept(s, steps, opts, peerName, host, pre, pre, None)
  {
    ReachedSelf(s, steps, opts, pre);
  }

  lemma KeptThen(s: Scenario, steps: seq<Step>, opts: Options, peerName: string, host: string,
                 pre: Snapshot, mid: Snapshot, post: Snapshot, err: Option<RunError>)
    requires Kept(s, steps, opts, peerName, host, pre, mid, None) && Kept(s, steps, opts, peerName, host, mid, post, err)
    ensures Kept(s, steps, opts, peerName, host, pre, post, err)
  {
    hide Reached, VisitsExecute, Clean, WithinCredit, HostKept, HasHost, Untouched;
    ReachedThen(s, steps, opts, pre, mid, post);
  }

  // Ending a run without a failed execution, whatever the reason.
  lemma KeptQuiet(s: Scenario, steps: seq<Step>, opts: Options, peerName: string, host: string, pre: Snapshot, post: Snapshot, err: Option<RunError>)
    requires Kept(s, steps, opts, peerName, host, pre, post, None)
    requires err.None? || !err.value.StepFailed?
    ensures Kept(s, steps, opts, peerName, host, pre, post, err)
  {
  }

  lemma KeptNote(s: Scenario, steps: seq<Step>, opts: Options, peerName: string, host: string, pre: Snapshot, mid: Snapshot, e: Event, post: Snapshot)
    requires Kept(s, steps, opts, peerName, host, pre, mid, None)
    requires IsMark(e) && !e.StepVisited?
    requires post == Noted(mid, e)
    ensures Kept(s, steps, opts, peerName, host, pre, post, None)
  {
    hide Reached, WithinCredit, HasHost;
    ReachedMark(s, steps, opts, mid, e);
    ReachedThen(s, steps, opts, pre, mid, post);
    NoteKeepsCredit(s, mid, post);
    if VisitsExecute(mid.log) {
      NoteKeepsVisits(mid.log, e);
    }
  }

  lemma NoteKeepsVisits(log: Log, e: Event)
    requires VisitsExecute(log) && !e.StepVisited?
    ensures VisitsExecute(log + [e])
  {
  }

  lemma KeptReset(s: Scenario, steps: seq<Step>, opts: Options, peerName: string, host: string, pre: Snapshot, mid: Snapshot, post: Snapshot)
    requires Kept(s, steps, opts, peerName, host, pre, mid, None)
    requires Resets(mid, post)
    requires HasHost(post.sessionID, CarriedHost(peerName, mid.sessionID))
    ensures Kept(s, steps, opts, peerName, host, pre, post, None)
  {
    hide Reached, WithinCredit;
    ReachedReset(s, steps, opts, mid, post);
    ReachedThen(s, steps, opts, pre, mid, post);
    NoteKeepsCredit(s, mid, post);
    if VisitsExecute(mid.log) {
      NoteKeepsVisits(mid.log, SessionReset(post.sessionID));
    }
    if peerName != "" && ';' !in host && HasHost(mid.sessionID, host) {
      var hi: uint32, lo: uint32 :| post.sessionID == SessionID(CarriedHost(peerName, mid.sessionID), hi, lo);
      ResetKeepsHost(peerName, host, mid.sessionID, hi, lo);
    }
  }

  lemma KeptVisit(s: Scenario, steps: seq<Step>, opts: Options, peerName: string, host: string, pre: Snapshot, mid: Snapshot,
                  idx: nat, post: Snapshot, executions: nat, w: Word)
    requires Kept(s, steps, opts, peerName, host, pre, mid, None)
    requires idx < |steps|
    requires Visit(s, steps, opts, idx, Noted(mid, StepVisited(idx)), post, executions, w) && DueVisit(steps, mid.log)
    requires ExecutesFirst(mid.log, post.log, idx)
    requires mid.sessionID == Summarise(mid.log).sessionID && post.sessionID == Summarise(post.log).sessionID
    ensures Kept(s, steps, opts, peerName, host, pre, post, ErrorOf(w))
  {
    hide Reached, DueVisit, WithinCredit, HasHost, Summarise, Says, Executed;
    Extend(mid.log, StepVisited(idx));
    ReachedMark(s, steps, opts, mid, StepVisited(idx));
    ReachedThen(s, steps, opts, pre, mid, Noted(mid, StepVisited(idx)));
    ReachedThen(s, steps, opts, pre, Noted(mid, StepVisited(idx)), post);
    NoteKeepsCredit(s, mid, Noted(mid, StepVisited(idx)));
    VisitKeepsVisits(mid.log, post.log, idx);
    assert mid.log + [StepVisited(idx)] <= post.log;
  }

  lemma VisitKeepsVisits(log: Log, log': Log, idx: nat)
    requires ExecutesFirst(log, log', idx) && WithinVisit(log + [StepVisited(idx)], log', idx)
    ensures VisitsExecute(log) ==> VisitsExecute(log')
  {
    if VisitsExecute(log) {
      forall i, k | 0 <= i < |log'| && log'[i] == StepVisited(k)
        ensures Begins(log', i + 1, k)
      {
        var visited := log + [StepVisited(idx)];
        assert i < |log| + 1;
        assert log'[i] == visited[i];
        if i < |log| {
          BeginsLater(log, log', i + 1, k);
        }
      }
    }
  }

  lemma BeginsLater(log: Log, log': Log, j: nat, k: nat)
    requires Begins(log, j, k) && log <= log'
    ensures Begins(log', j, k)
  {
  }

  // A visit logged after `log` begins with an execution, or a wait that is cut short.
  ghost predicate ExecutesFirst(log: Log, log': Log, idx: nat) {
    log + [StepVisited(idx)] <= log' && Begins(log', |log| + 1, idx)
  }

  // The next execution would make it so.
  ghost predicate ToBegin(log: Log, log': Log, idx: nat) {
    ExecutesFirst(log, log', idx) || ExecutesFirst(log, log' + [StepExecuted(idx)], idx)
  }

  lemma VisitToBegin(log: Log, idx: nat)
    ensures ToBegin(log, log + [StepVisited(idx)], idx)
  {
    assert (log + [StepVisited(idx)] + [StepExecuted(idx)])[|log| + 1] == StepExecuted(idx);
  }

  lemma FirstAwait(log: Log, pre: Snapshot, idx: nat, isFirst: bool, delay: int, signal: Signal)
    requires if isFirst then pre.log == log + [StepVisited(idx)] else ExecutesFirst(log, pre.log, idx)
    requires delay <= 0 ==> signal == Elapsed
    ensures ToBegin(log, Awaited(pre, delay, signal).log, idx)
    ensures signal != Elapsed ==> ExecutesFirst(log, Awaited(pre, delay, signal).log, idx)
  {
    var log' := Awaited(pre, delay, signal).log;
    if isFirst {
      var more := log' + [StepExecuted(idx)];
      assert more[|log|] == StepVisited(idx);
    } else {
      BeginsLater(pre.log, log', |log| + 1, idx);
    }
  }

  lemma FirstThen(log: Log, mid: Log, log': Log, idx: nat)
    requires ToBegin(log, mid, idx) && mid + [StepExecuted(idx)] <= log'
    ensures ExecutesFirst(log, log', idx) && ToBegin(log, log', idx)
  {
    var begun := if ExecutesFirst(log, mid, idx) then mid else mid + [StepExecuted(idx)];
    assert begun <= log';
    BeginsLater(begun, log', |log| + 1, idx);
  }

  // One more repeat of a visit.
  lemma RepeatDone(s: Scenario, steps: seq<Step>, opts: Options, idx: nat, entered: Snapshot, begun: Snapshot, post: Snapshot,
                   executions: nat, attempts: nat, w: Word)
    requires idx < |steps|
    requires Visit(s, steps, opts, idx, Noted(entered, StepVisited(idx)), begun, executions, On)
    requires Visit(s, steps, opts, idx, begun, post, attempts, w)
    requires ToBegin(entered.log, begun.log, idx) && begun.log + [StepExecuted(idx)] <= post.log
    ensures Visit(s, steps, opts, idx, Noted(entered, StepVisited(idx)), post, executions + attempts, w)
    ensures ExecutesFirst(entered.log, post.log, idx) && ToBegin(entered.log, post.log, idx) && Visiting(post.log, idx)
  {
    hide Visit, ToBegin, ExecutesFirst, Visiting, Summarise;
    var visited := Noted(entered, StepVisited(idx));
    VisitThen(s, steps, opts, idx, visited, begun, post, executions, attempts, On, w);
    FirstThen(entered.log, begun.log, post.log, idx);
    Arrived(entered.log, idx);
    VisitStays(s, steps, opts, idx, visited, post, executions + attempts, w);
  }

  // ---- when an execution is due ---------------------------------------

  lemma RetriesDue(steps: seq<Step>, opts: Options, pre: Snapshot, post: Snapshot, idx: nat)
    requires idx < |steps| && pre.log != [] && pre.log[|pre.log| - 1] == Concluded(Took(Retry))
    requires Visiting(pre.log, idx)
    requires post == if opts.retryDelay > 0 then Noted(pre, Waited(opts.retryDelay)) else pre
    ensures Due(steps, opts, post.log, idx)
  {
    Extend(pre.log, Waited(opts.retryDelay));
  }

  lemma Arrived(log: Log, idx: nat)
    ensures Visiting(log + [StepVisited(idx)], idx)
  {
    Extend(log, StepVisited(idx));
  }

  lemma DelayDue(steps: seq<Step>, opts: Options, pre: Snapshot, post: Snapshot, idx: nat, delay: int64)
    requires idx < |steps| && Visiting(pre.log, idx) && DelayOf(steps[idx], PriorAnswer(Summarise(pre.log)), delay)
    requires post == Awaited(pre, delay, Elapsed)
    ensures Due(steps, opts, post.log, idx)
  {
    hide DelayOf, Summarise;
    if delay > 0 {
      Extend(pre.log, Waited(delay));
    }
    assert Rested(steps[idx], PriorAnswer(Summarise(post.log)), post.log);
  }

  lemma FirstDue(steps: seq<Step>, opts: Options, entered: Snapshot, post: Snapshot, idx: nat)
    requires idx < |steps| && post == Noted(entered, StepVisited(idx)) && Visiting(post.log, idx) && Summarise(post.log).previous.None?
    ensures Due(steps, opts, post.log, idx)
  {
  }

  // ---- how a run ends -------------------------------------------------

  /** The last event of a run gives its end. A run is terminated by the action
      of an execution alone, completes only when it is stopped or its last
      pass is counted, pauses on an interrupt or the action of an execution,
      and errs with a failed execution or a cancellation. */
  ghost predicate Ended(state: State, err: Option<RunError>, log: Log, opts: Options) {
    log != [] && (Summarise(log).pass.landed ==> state == Error) &&
    var e := log[|log| - 1];
    match err
    case None =>
      if state == Terminated then Means(e, Acts(Terminate))
      else state == Completed && (Means(e, Acts(Stop)) || (opts.maxIterations > 0 && e == PassEnded(opts.maxIterations)))
    case Some(ExecutionInterrupted) => state == Paused && Means(e, Interrupts)
    case Some(ExecutionPaused(i)) => state == Paused && Means(e, Acts(Pause)) && Summarise(log).pass.visited == Range(i + 1)
    case Some(_) => state == Error && Means(e, Fails(err.value))
  }

  // The end a word brings in the visit of step i.
  function EndOf(w: Word, i: nat): (State, Option<RunError>)
    requires w != On && w !in {Acts(Continue), Acts(Retry), Acts(GotoTerminate)}
  {
    match w
    case Fails(e) => (Error, Some(e))
    case Interrupts => (Paused, Some(ExecutionInterrupted))
    case Acts(Terminate) => (Terminated, None)
    case Acts(Stop) => (Completed, None)
    case Acts(Pause) => (Paused, Some(ExecutionPaused(i)))
  }

  lemma VisitEnds(s: Scenario, steps: seq<Step>, opts: Options, pre: Snapshot, i: nat, post: Snapshot, executions: nat, w: Word)
    requires i < |steps| && Visit(s, steps, opts, i, Noted(pre, StepVisited(i)), post, executions, w)
    requires w != On && w !in {Acts(Continue), Acts(Retry), Acts(GotoTerminate)}
    requires w.Fails? ==> w.error == ContextDone || w.error.StepFailed?
    requires w == Acts(Pause) ==> Summarise(post.log).pass.visited == Range(i + 1)
    requires !w.Fails? ==> !Summarise(pre.log).pass.jumped
    ensures Ended(EndOf(w, i).0, EndOf(w, i).1, post.log, opts)
  {
    hide Reached, WithinVisit, Executed, Clean, CreditKept, Steady, Summarise;
    Extend(pre.log, StepVisited(i));
  }

  lemma LimitEnds(log: Log, opts: Options)
    requires opts.maxIterations > 0 && log != [] && log[|log| - 1] == PassEnded(opts.maxIterations)
    ensures Ended(Completed, None, log, opts)
  {
    Extend(log[..|log| - 1], log[|log| - 1]);
    assert log == log[..|log| - 1] + [log[|log| - 1]];
  }
}
