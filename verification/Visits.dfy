/** One visit to a step: its executions, waits and signals, and what it tells
    the run. */
module Visits {
  import opened Text
  import opened Values
  import opened Template
  import opened TemplateProperties
  import opened Session
  import opened Executor
  import opened Pacing
  import opened EngineMoves

  datatype RunError =
    | ExecutionInterrupted
    | ExecutionPaused(step: nat)
    | ContextDone
    | StepFailed(e: ExecError)

  // What a visit to a step tells the run.
  datatype Word = On | Interrupts | Acts(action: Action) | Fails(error: RunError)

  // ---- words ----------------------------------------------------------

  function WordOf(interrupted: bool, action: Action, err: Option<RunError>): Word {
    if err.Some? then Fails(err.value)
    else if interrupted then Interrupts
    else if action == Continue then On
    else Acts(action)
  }

  function ErrorOf(w: Word): Option<RunError> {
    if w.Fails? then Some(w.error) else None
  }

  function ResultWord(r: Result<StepResult, ExecError>): Word {
    match r
    case Err(e) => Fails(StepFailed(e))
    case Ok(v) => WordOf(false, v.action, None)
  }

  function SignalWord(signal: Signal): Word {
    match signal
    case Elapsed => On
    case StopRequested => Acts(Stop)
    case InterruptRequested => Interrupts
    case Cancelled => Fails(ContextDone)
  }

  /** The event that gives a run its word: a signal, or the conclusion of an
      execution. A retry that is not granted means termination. */
  ghost predicate Means(e: Event, w: Word) {
    match w
    case On => true
    case Interrupts => e == Signalled(InterruptRequested)
    case Fails(ContextDone) => e == Signalled(Cancelled)
    case Fails(StepFailed(_)) => e == Concluded(StepErred)
    case Fails(_) => false
    case Acts(a) =>
      || e == Concluded(Took(a))
      || (a == Stop && e == Signalled(StopRequested))
      || (a == Terminate && e == Concluded(Took(Retry)))
  }

  // Only sends, executions that call for nothing but a retry, and marks.
  ghost predicate Steady(log: Log, log': Log) {
    && log <= log'
    && forall i :: |log| <= i < |log'| ==>
         && !log'[i].Signalled?
         && (log'[i].Concluded? ==> log'[i].outcome in {Took(Continue), Took(Retry), StepSkipped})
  }

  /** What was added to the log amounts to the word: nothing but its last event
      asks for anything, and that one for the word itself. */
  ghost predicate Says(log: Log, log': Log, w: Word) {
    if w == On then Steady(log, log') && (log' == log || log'[|log'| - 1] != Concluded(Took(Retry)))
    else |log'| > |log| && Steady(log, log'[..|log'| - 1]) && Means(log'[|log'| - 1], w)
  }

  lemma SaysThen(log: Log, mid: Log, log': Log, v: Word, w: Word)
    requires Says(log, mid, v) && Says(mid, log', w)
    requires v == On || (v == Acts(Retry) && log' != mid)
    ensures Says(log, log', w)
  {
    if v != On {
      RetryIsSteady(log, mid);
    }
    var end := if w == On then log' else log'[..|log'| - 1];
    SteadyThen(log, mid, end);
  }

  lemma RetryIsSteady(log: Log, log': Log)
    requires Says(log, log', Acts(Retry))
    ensures Steady(log, log')
  {
    var init := log'[..|log'| - 1];
    assert log <= init <= log';
    forall i | |log| <= i < |log'|
      ensures !log'[i].Signalled?
      ensures log'[i].Concluded? ==> log'[i].outcome in {Took(Continue), Took(Retry), StepSkipped}
    {
      if i < |init| {
        assert init[i] == log'[i];
      }
    }
  }

  lemma SteadyThen(log: Log, mid: Log, log': Log)
    requires Steady(log, mid) && Steady(mid, log')
    ensures Steady(log, log')
  {
    forall i | |log| <= i < |log'|
      ensures !log'[i].Signalled?
      ensures log'[i].Concluded? ==> log'[i].outcome in {Took(Continue), Took(Retry), StepSkipped}
    {
      if i < |mid| {
        assert log'[i] == mid[i];
      }
    }
  }

  // ---- one visit ------------------------------------------------------

  // Nothing but executions of the step, with what they send and conclude, waits and signals.
  ghost predicate WithinVisit(log: Log, log': Log, idx: nat) {
    && log <= log'
    && forall i :: |log| <= i < |log'| ==>
         log'[i] == StepExecuted(idx) || log'[i].Sent? || log'[i].Concluded? || log'[i].Waited? || log'[i].Signalled?
  }

  ghost predicate SamePass(s: Summary, s': Summary) {
    && s'.pass.visited == s.pass.visited && s'.pass.landed == s.pass.landed && s'.passes == s.passes
    && s'.reported == s.reported && s'.sessionID == s.sessionID && s'.sentBefore == s.sentBefore
  }

  // k executions, and no more CCRs than that.
  ghost predicate Executed(s: Summary, s': Summary, k: nat) {
    s'.executions == s.executions + k && s'.everSent <= s.everSent + k
  }

  // A failed send can only be the last thing that happened, and only on error.
  ghost predicate FailsLast(log: Log, err: Option<RunError>) {
    if err.Some? && err.value.StepFailed? then |log| >= 2 && Clean(log[..|log| - 2]) else Clean(log)
  }

  ghost predicate CreditKept(s: Scenario, step: Step, pre: Snapshot, post: Snapshot) {
    Metered(s.input.unitType) && GrantsUntouchedBy(s, step) && WithinCredit(s, pre) ==> WithinCredit(s, post)
  }

  lemma {:induction false} SteadyPass(log: Log, log': Log, idx: nat)
    requires Steady(log, log') && WithinVisit(log, log', idx)
    ensures Summarise(log').pass == Summarise(log).pass
    decreases |log'|
  {
    if |log'| > |log| {
      var init := log'[..|log'| - 1];
      SteadyPass(log, init, idx);
      Extend(init, log'[|log'| - 1]);
      assert log' == init + [log'[|log'| - 1]];
    } else {
      assert log' == log;
    }
  }

  // What a visit does to the pass follows from its word.
  lemma SaysPass(log: Log, log': Log, idx: nat, w: Word)
    requires Says(log, log', w) && WithinVisit(log, log', idx)
    ensures w == On ==> Summarise(log').pass == Summarise(log).pass
    ensures w == Acts(GotoTerminate) && !Summarise(log).pass.landed ==>
      Summarise(log').pass == Summarise(log).pass.(jumped := true)
    ensures !w.Fails? && Summarise(log).pass.jumped && Summarise(log).pass.landed ==>
      Summarise(log').pass == Summarise(log).pass
  {
    if w == On {
      SteadyPass(log, log', idx);
    } else {
      var init := log'[..|log'| - 1];
      assert log <= init;
      SteadyPass(log, init, idx);
      Extend(init, log'[|log'| - 1]);
      assert log' == init + [log'[|log'| - 1]];
    }
  }

  /** What happens between two points of one visit to step idx: moves of the
      engine, of which k execute the step; no change of pass or session; no
      failed send unless the visit ends with it; no report beyond a grant; and
      nothing the run has to heed but the last event, which gives the word. */
  ghost predicate Visit(s: Scenario, steps: seq<Step>, opts: Options, idx: nat, pre: Snapshot, post: Snapshot, k: nat, w: Word)
    requires idx < |steps|
  {
    && Reached(s, steps, opts, pre, post)
    && WithinVisit(pre.log, post.log, idx)
    && SamePass(Summarise(pre.log), Summarise(post.log))
    && Executed(Summarise(pre.log), Summarise(post.log), k)
    && Says(pre.log, post.log, w)
    && (Clean(pre.log) ==> FailsLast(post.log, ErrorOf(w)))
    && CreditKept(s, steps[idx], pre, post)
  }

  lemma VisitStart(s: Scenario, steps: seq<Step>, opts: Options, idx: nat, pre: Snapshot)
    requires idx < |steps|
    ensures Visit(s, steps, opts, idx, pre, pre, 0, On)
  {
    ReachedSelf(s, steps, opts, pre);
  }

  lemma VisitThen(s: Scenario, steps: seq<Step>, opts: Options, idx: nat, pre: Snapshot, mid: Snapshot, post: Snapshot,
                  k: nat, j: nat, v: Word, w: Word)
    requires idx < |steps|
    requires Visit(s, steps, opts, idx, pre, mid, k, v) && Visit(s, steps, opts, idx, mid, post, j, w)
    requires v == On || (v == Acts(Retry) && post.log != mid.log)
    ensures Visit(s, steps, opts, idx, pre, post, k + j, w)
  {
    hide Summarise, Clean, WithinCredit, Metered, GrantsUntouchedBy, Reached, Says;
    ReachedThen(s, steps, opts, pre, mid, post);
    SaysThen(pre.log, mid.log, post.log, v, w);
  }

  lemma NoteKeepsClean(log: Log, e: Event)
    requires Clean(log) && !e.Sent?
    ensures Clean(log + [e])
  {
  }

  // A wait or a signal.
  lemma VisitNote(s: Scenario, steps: seq<Step>, opts: Options, idx: nat, pre: Snapshot, e: Event)
    requires idx < |steps| && (e.Waited? || (e.Signalled? && e.signal != Elapsed))
    ensures Visit(s, steps, opts, idx, pre, Noted(pre, e), 0, if e.Waited? then On else SignalWord(e.signal))
  {
    hide WithinCredit, GrantsUntouchedBy, Metered, Clean, Reached;
    var post := Noted(pre, e);
    Extend(pre.log, e);
    NoteKeepsCredit(s, pre, post);
    ReachedMark(s, steps, opts, pre, e);
    assert post.log[..|post.log| - 1] == pre.log;
    if Clean(pre.log) {
      NoteKeepsClean(pre.log, e);
    }
  }

  // What a wait leaves in the log.
  function Awaited(pre: Snapshot, delay: int, signal: Signal): Snapshot {
    if delay <= 0 then pre
    else if signal == Elapsed then Noted(pre, Waited(delay))
    else Noted(Noted(pre, Waited(delay)), Signalled(signal))
  }

  lemma VisitAwait(s: Scenario, steps: seq<Step>, opts: Options, idx: nat, pre: Snapshot, delay: int, signal: Signal)
    requires idx < |steps| && (delay <= 0 ==> signal == Elapsed)
    ensures Visit(s, steps, opts, idx, pre, Awaited(pre, delay, signal), 0, SignalWord(signal))
  {
    hide Visit;
    VisitStart(s, steps, opts, idx, pre);
    if delay > 0 {
      var waiting := Noted(pre, Waited(delay));
      VisitNote(s, steps, opts, idx, pre, Waited(delay));
      if signal != Elapsed {
        VisitNote(s, steps, opts, idx, waiting, Signalled(signal));
        VisitThen(s, steps, opts, idx, pre, waiting, Noted(waiting, Signalled(signal)), 0, 0, On, SignalWord(signal));
      }
    }
  }

  lemma VisitExecute(s: Scenario, steps: seq<Step>, opts: Options, idx: nat, pre: Snapshot, prev: Option<SendResult>, before: Vars,
                     post: Snapshot, r: Result<StepResult, ExecError>)
    requires idx < |steps| && Executes(s, idx, pre, prev, steps[idx], before, post, r)
    requires AnswerOf(prev) == Summarise(pre.log).previous && Due(steps, opts, pre.log, idx)
    ensures Visit(s, steps, opts, idx, pre, post, 1, ResultWord(r))
    ensures pre.log + [StepExecuted(idx)] <= post.log && post.log[|post.log| - 1] == Concluded(OutcomeOf(r))
    ensures r.Ok? && r.value.skipped ==> r.value.action == Continue
    ensures Summarise(post.log).previous == PreviousAfter(prev, r) && Visiting(post.log, idx)
    ensures Summarise(post.log).repeats == Summarise(pre.log).repeats + (if OutcomeOf(r) == Took(Retry) then 0 else 1)
  {
    VisitDue(steps, opts, pre.log, idx);
    hide Executes, Due, WithinCredit, GrantsUntouchedBy, Metered, Reached, Grew, Summarise, Clean, Says, SamePass, Executed, WithinVisit, Visiting;
    ExecutionSends(s, idx, pre, prev, steps[idx], before, post, r);
    ExecutionLog(pre.log, post.log, idx, steps[idx], r);
    ExecutionClean(pre.log, post.log, idx, steps[idx], r);
    ExecutionSummary(pre.log, post.log, idx, steps[idx], prev, r);
    ReachedStep(s, steps, opts, idx, pre, prev, before, post, r);
    if Metered(s.input.unitType) && GrantsUntouchedBy(s, steps[idx]) && WithinCredit(s, pre) {
      ExecutionKeepsCredit(s, idx, pre, prev, steps[idx], before, post, r);
    }
  }

  lemma VisitDue(steps: seq<Step>, opts: Options, log: Log, idx: nat)
    requires Due(steps, opts, log, idx)
    ensures Visiting(log, idx)
  {
  }

  lemma VisitStays(s: Scenario, steps: seq<Step>, opts: Options, idx: nat, pre: Snapshot, post: Snapshot, k: nat, w: Word)
    requires idx < |steps| && Visit(s, steps, opts, idx, pre, post, k, w) && Visiting(pre.log, idx)
    ensures Visiting(post.log, idx)
  {
    hide Summarise, Reached, WithinVisit, Says, Clean, CreditKept;
  }

  // What an execution leaves for the next step to extract from.
  function PreviousAfter(prev: Option<SendResult>, r: Result<StepResult, ExecError>): Option<Option<CCA>> {
    if r.Ok? && !r.value.skipped && r.value.action != Retry then Some(r.value.result.cca) else AnswerOf(prev)
  }

  // What one execution adds to a log.
  ghost predicate ExecutionAdds(log: Log, log': Log, idx: nat, step: Step, r: Result<StepResult, ExecError>) {
    && log' != [] && log'[|log'| - 1] == Concluded(OutcomeOf(r))
    && Grew(log + [StepExecuted(idx)], log'[..|log'| - 1], step, r)
  }

  lemma ExecutionLog(log: Log, log': Log, idx: nat, step: Step, r: Result<StepResult, ExecError>)
    requires ExecutionAdds(log, log', idx, step, r)
    ensures log + [StepExecuted(idx)] <= log' && WithinVisit(log, log', idx) && Says(log, log', ResultWord(r))
    ensures r.Ok? && r.value.skipped ==> r.value.action == Continue
  {
    hide MapRequestType;
    var begun, closed := log + [StepExecuted(idx)], log'[..|log'| - 1];
    assert log' == closed + [Concluded(OutcomeOf(r))];
  }

  lemma ExecutionClean(log: Log, log': Log, idx: nat, step: Step, r: Result<StepResult, ExecError>)
    requires ExecutionAdds(log, log', idx, step, r)
    ensures Clean(log) ==> FailsLast(log', ErrorOf(ResultWord(r)))
  {
    hide MapRequestType;
    var begun, closed := log + [StepExecuted(idx)], log'[..|log'| - 1];
    assert log' == closed + [Concluded(OutcomeOf(r))];
    assert closed[..|closed| - 1] == log'[..|log'| - 2];
  }

  lemma ExecutionSummary(log: Log, log': Log, idx: nat, step: Step, prev: Option<SendResult>, r: Result<StepResult, ExecError>)
    requires ExecutionAdds(log, log', idx, step, r) && AnswerOf(prev) == Summarise(log).previous
    ensures SamePass(Summarise(log), Summarise(log')) && Executed(Summarise(log), Summarise(log'), 1)
    ensures Summarise(log').previous == PreviousAfter(prev, r) && (Visiting(log, idx) ==> Visiting(log', idx))
    ensures Summarise(log').repeats == Summarise(log).repeats + (if OutcomeOf(r) == Took(Retry) then 0 else 1)
  {
    hide MapRequestType;
    var begun, closed := log + [StepExecuted(idx)], log'[..|log'| - 1];
    assert log' == closed + [Concluded(OutcomeOf(r))];
    Extend(log, StepExecuted(idx));
    Extend(closed, Concluded(OutcomeOf(r)));
    if closed != begun {
      Extend(begun, closed[|begun|]);
    }
  }

  // A retry that is not granted ends the run.
  lemma RetryEnds(s: Scenario, steps: seq<Step>, opts: Options, idx: nat, pre: Snapshot, post: Snapshot, k: nat)
    requires idx < |steps| && Visit(s, steps, opts, idx, pre, post, k, Acts(Retry))
    ensures Visit(s, steps, opts, idx, pre, post, k, Acts(Terminate))
  {
    hide Summarise, Clean, WithinCredit, Metered, GrantsUntouchedBy, Reached, Steady;
  }
}
