/** A continuous execution from its start: a fresh session context, seeded
    variables, and the run itself. */
module ScenarioRun {
  import opened Text
  import opened Values
  import opened Template
  import opened TemplateProperties
  import opened Session
  import opened Executor
  import opened Pacing
  import opened EngineMoves
  import opened RunLog
  import opened Visits
  import opened Orchestrator

  /** The grant variables of the first n services start at zero. */
  method SeedGrants(sc: SessionContext, n: nat)
    modifies sc`vars
    ensures forall i :: 1 <= i <= n ==>
      && GroupVar(i, "_GRANTED") in sc.vars && sc.vars[GroupVar(i, "_GRANTED")] == Int64(0)
      && GroupVar(i, "_GRANTED_UNITS") in sc.vars && sc.vars[GroupVar(i, "_GRANTED_UNITS")] == Int64(0)
  {
    var i := 0;
    while i < n
      invariant 0 <= i <= n
      invariant forall j :: 1 <= j <= i ==>
        && GroupVar(j, "_GRANTED") in sc.vars && sc.vars[GroupVar(j, "_GRANTED")] == Int64(0)
        && GroupVar(j, "_GRANTED_UNITS") in sc.vars && sc.vars[GroupVar(j, "_GRANTED_UNITS")] == Int64(0)
    {
      hide GroupVar;
      sc.vars := sc.vars[GroupVar(i + 1, "_GRANTED") := Int64(0)];
      sc.vars := sc.vars[GroupVar(i + 1, "_GRANTED_UNITS") := Int64(0)];
      i := i + 1;
    }
  }

  /** Everything that holds of a continuous execution from start to finish,
      for all answers, signals and generated values. It only makes moves of the
      engine from its start; each CCR is that of the execution it follows, and
      each execution is of the step visited, when that is due. Each pass opens
      with a reset and keeps the Session-Id it made, its CCRs are numbered
      0, 1, 2, ... under it, and every Session-Id keeps the origin host. Usage
      reports stay within grants when nothing else writes the grant variables.
      Only a final send fails. The passes have their shape; the CCRs are no
      more than the executions, and these within the budget; and the last
      event tells how and why the run ended. */
  method RunScenario(executor: StepExecutor, steps: seq<Step>, opts: Options, peerName: string, originHost: string,
                     values: Vars, serviceContextID: string, destRealm: string, destHost: string, horizon: nat)
    returns (sc: SessionContext, err: Option<RunError>, cut: bool, ghost start: Snapshot)
    ensures fresh(sc) && sc.Valid()
    ensures start.log == [SessionReset(start.sessionID)] && HasHost(start.sessionID, originHost)
    ensures Reached(executor.scenario, steps, opts, start, sc.Now()) && Orderly(steps, opts, sc.log)
    ensures steps == [] ==> !cut && err.None? && sc.state == Completed && sc.log == start.log
    ensures !cut && steps != [] ==> Ended(sc.state, err, sc.log, opts)
    ensures cut ==> err.None? && (opts.maxIterations <= 0 || horizon < opts.maxIterations)
    ensures Numbered(sc.log) && Punctuated(sc.log) && PassesNumbered(sc.log)
    ensures start.log <= sc.log
    ensures FailsLast(sc.log, err)
    ensures steps != [] ==> RunShape(steps, opts, Summarise(sc.log))
    ensures steps != [] ==> |sc.metrics| <= Summarise(sc.log).executions
    ensures opts.maxIterations > 0 ==> |sc.metrics| <= opts.maxIterations * Budget(steps, opts)
    ensures VisitsExecute(sc.log)
    ensures peerName != "" && ';' !in originHost ==> HostKept(sc.log, originHost)
    ensures Untouched(executor.scenario, steps) ==> CreditSafe(sc.log, executor.scenario.input, executor.scenario.codec.show)
  {
    hide Summarise, Kept, RunShape, CreditSafe, Untouched, GroupVar, RunPunctuated, Punctuated, PassesNumbered, HasHost,
      Orderly, Reached, Ended, Budget;
    var s := executor.scenario;
    sc := new SessionContext(peerName, originHost);
    sc.serviceContextID := if serviceContextID == "" then "32251@3gpp.org" else serviceContextID;
    sc.destRealm := destRealm;
    sc.destHost := destHost;
    sc.vars := sc.vars + values;
    sc.vars := sc.vars["SESSION_ID" := Str(sc.sessionID)];
    sc.vars := sc.vars["SERVICE_CONTEXT_ID" := Str(sc.serviceContextID)];
    SeedGrants(sc, |s.input.mscc|);
    start := sc.Now();
    SeededCredit(s, start, start.sessionID);
    FreshKept(start.log, start.sessionID, originHost);
    var orchestrator := new Orchestrator(executor);
    err, cut := orchestrator.RunContinuous(sc, steps, opts, horizon, originHost);
    KeptFromStart(s, steps, opts, peerName, originHost, start, sc.Now(), err);
    RunFromStart(start.log, sc.log, start.sessionID);
    SentInShape(steps, opts, Summarise(sc.log), |sc.metrics|);
    AllPassesNumbered(sc.log);
  }

  lemma RunFromStart(start: Log, log: Log, id: string)
    requires start == [SessionReset(id)] && RunPunctuated(start, log)
    ensures start <= log && log[0] == SessionReset(id) && Punctuated(log)
  {
    assert log[0] == start[0];
  }

  lemma SeededCredit(s: Scenario, start: Snapshot, id: string)
    requires start.log == [SessionReset(id)]
    requires forall i :: 1 <= i <= |s.input.mscc| ==>
      && GroupVar(i, "_GRANTED") in start.vars && start.vars[GroupVar(i, "_GRANTED")] == Int64(0)
      && GroupVar(i, "_GRANTED_UNITS") in start.vars && start.vars[GroupVar(i, "_GRANTED_UNITS")] == Int64(0)
    ensures WithinCredit(s, start)
  {
    assert [] + [SessionReset(id)] == start.log;
    Extend([], SessionReset(id));
    forall n | 1 <= n <= Slots(s.input)
      ensures GrantKey(s.input.unitType, n) in start.vars
      ensures start.vars[GrantKey(s.input.unitType, n)] == StoredGrant(LastGrant(None, s.input.unitType, n))
    {
      assert GrantKey(s.input.unitType, n)
          == GroupVar(n, if s.input.unitType.Octet? then "_GRANTED_UNITS" else "_GRANTED");
    }
  }

  lemma FreshKept(log: Log, id: string, host: string)
    requires log == [SessionReset(id)] && HasHost(id, host)
    ensures Clean(log) && VisitsExecute(log) && HostKept(log, host)
  {
  }

  // No more CCRs than executions, so no more than the budget of all passes.
  lemma SentInShape(steps: seq<Step>, opts: Options, s: Summary, sent: nat)
    requires if steps == [] then sent == 0 else RunShape(steps, opts, s) && sent <= s.executions
    ensures opts.maxIterations > 0 ==> sent <= opts.maxIterations * Budget(steps, opts)
  {
    hide FullPass;
  }

  lemma KeptFromStart(s: Scenario, steps: seq<Step>, opts: Options, peerName: string, host: string, pre: Snapshot, post: Snapshot, err: Option<RunError>)
    requires Kept(s, steps, opts, peerName, host, pre, post, err) && pre.log == [SessionReset(pre.sessionID)]
    requires Clean(pre.log) && VisitsExecute(pre.log) && HostKept(pre.log, host) && HasHost(pre.sessionID, host)
    requires WithinCredit(s, pre)
    ensures Reached(s, steps, opts, pre, post) && Orderly(steps, opts, post.log)
    ensures FailsLast(post.log, err) && VisitsExecute(post.log)
    ensures peerName != "" && ';' !in host ==> HostKept(post.log, host)
    ensures Untouched(s, steps) ==> CreditSafe(post.log, s.input, s.codec.show)
  {
    hide HasHost, CreditSafe, Untouched, Reached;
    ReachedOrderly(s, steps, opts, pre, post);
  }
}
